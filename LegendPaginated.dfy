/** The paginated legend listing: page parameters with their defaults, the
    offset handed to the store, the page count, and the per-row assembly of
    the items, where each row with a cheque image is enriched with a
    temporary image URL fetched from the file service. A failed or malformed
    lookup leaves that row's `imageUrl` empty and never affects another row. */
module LegendPaginated {
  import opened Wrappers
  import opened Strings

  // ---------------------------------------------------------------------
  // C# 32-bit integers
  // ---------------------------------------------------------------------

  const Int32Min: int := -0x8000_0000
  const Int32Max: int := 0x7FFF_FFFF
  type Int32 = x: int | Int32Min <= x <= Int32Max

  /** The value C#'s unchecked `int` arithmetic keeps of `x`: `x` brought into
      the 32-bit range modulo 2^32. */
  function Wrap32(x: int): (r: Int32)
    ensures (x - r) % 0x1_0000_0000 == 0
    ensures Int32Min <= x <= Int32Max ==> r == x
  {
    (x - Int32Min) % 0x1_0000_0000 + Int32Min
  }

  // ---------------------------------------------------------------------
  // Page parameters
  // ---------------------------------------------------------------------

  /** `page`: the parsed query value, or 1 when it is missing or does not
      parse as an `int` (`parsed` is None). No clamping. */
  function PageOf(parsed: Option<Int32>): Int32 {
    parsed.GetOr(1)
  }

  /** `pageSize`: the parsed query value, or 10 when missing or unparseable. */
  function PageSizeOf(parsed: Option<Int32>): Int32 {
    parsed.GetOr(10)
  }

  lemma PageDefaults(page: Option<Int32>, pageSize: Option<Int32>)
    ensures page.None? ==> PageOf(page) == 1
    ensures page.Some? ==> PageOf(page) == page.value
    ensures pageSize.None? ==> PageSizeOf(pageSize) == 10
    ensures pageSize.Some? ==> PageSizeOf(pageSize) == pageSize.value
  {
  }

  /** `(page - 1) * pageSize` in C#'s unchecked 32-bit arithmetic: each of
      the two operations wraps around, so the result is congruent to the exact
      product modulo 2^32, and is the exact product whenever that fits in an
      `int`. */
  function Offset(page: Int32, pageSize: Int32): (offset: Int32)
    ensures (offset - (page - 1) * pageSize) % 0x1_0000_0000 == 0
    ensures Int32Min < page && Int32Min <= (page - 1) * pageSize <= Int32Max ==>
      offset == (page - 1) * pageSize
  {
    OffsetCongruent(page, pageSize);
    Wrap32(Wrap32(page - 1) * pageSize)
  }

  /** Wrapping `page - 1` first and the product afterwards still lands on a
      value congruent to the exact product. */
  lemma OffsetCongruent(page: int, pageSize: int)
    ensures (Wrap32(Wrap32(page - 1) * pageSize) - (page - 1) * pageSize) % 0x1_0000_0000 == 0
  {
    var w := Wrap32(page - 1);
    var k := Multiple(w - (page - 1));
    var p := w * pageSize;
    var j := Multiple(Wrap32(p) - p);
    var c := MulScaled(w, page - 1, pageSize, k);
    MultipleMod(c + j);
  }

  /** The quotient of a multiple of 2^32. */
  lemma Multiple(x: int) returns (k: int)
    requires x % 0x1_0000_0000 == 0
    ensures x == k * 0x1_0000_0000
  {
    k := x / 0x1_0000_0000;
  }

  /** When `a - b` is `k` times 2^32, `a * n - b * n` is `k * n` times 2^32. */
  lemma MulScaled(a: int, b: int, n: int, k: int) returns (c: int)
    requires a - b == k * 0x1_0000_0000
    ensures a * n - b * n == c * 0x1_0000_0000
  {
    c := k * n;
    assert a * n - b * n == (a - b) * n;
  }

  lemma MultipleMod(c: int)
    ensures (c * 0x1_0000_0000) % 0x1_0000_0000 == 0
  {
  }

  /** Page 1 starts at 0, and page 2 of size 10 at 10. Page 1073741825 of
      size 4 would start at 2^32, which wraps around to 0. */
  lemma OffsetExamples()
    ensures Offset(PageOf(None), 10) == 0
    ensures Offset(2, 10) == 10
    ensures Offset(1073741825, 4) == 0
  {
  }

  /** `totalPages`: the page count, the integer ceiling of totalCount / pageSize:
      the least number of pages of `pageSize` rows that hold `totalCount`
      rows. The `double` division and `Math.Ceiling` of the code are exact
      for 32-bit operands. */
  function TotalPages(totalCount: nat, pageSize: int): (pages: nat)
    requires pageSize > 0
    ensures (pages - 1) * pageSize < totalCount <= pages * pageSize
  {
    var a := totalCount + pageSize - 1;
    var q := a / pageSize;
    DivMod(a, pageSize);
    MulPred(q, pageSize);
    q
  }

  lemma DivMod(a: nat, b: int)
    requires b > 0
    ensures a == (a / b) * b + a % b && 0 <= a % b < b && a / b >= 0
  {
  }

  lemma MulPred(q: int, b: int)
    ensures (q - 1) * b == q * b - b
  {
  }

  lemma TotalPagesExamples()
    ensures TotalPages(25, 10) == 3
    ensures TotalPages(0, 10) == 0
    ensures TotalPages(30, 10) == 3
  {
  }

  // ---------------------------------------------------------------------
  // Rows, the lookup service and items
  // ---------------------------------------------------------------------

  /** One row of the paged query, with the driver's name parts of the joined
      truck's driver. Nullable columns are options. */
  datatype LegendRow = LegendRow(
    id: int,
    clientName: Option<string>,
    parkingAt: Option<int>,
    matricule: Option<string>,
    rfidCard: Option<string>,
    chequeImg: Option<string>,
    chauffeurNom: Option<string>,
    chauffeurPrenom: Option<string>)

  /** A JSON document as the file service may reply with it. */
  datatype JsonValue =
    | JNull
    | JBool(b: bool)
    | JNumber(n: real)
    | JString(str: string)
    | JArray(elems: seq<JsonValue>)
    | JObject(props: map<string, JsonValue>)

  /** The outcome of one GET to the file service: any exception (network
      error, non-success status, timeout, unreadable body) is `LookupFailed`. */
  datatype LookupReply = LookupFailed | Json(body: JsonValue)

  /** The file service, as a function from request URL to outcome. */
  type Lookup = string -> LookupReply

  const SasPrefix: string := "https://ecare.azurewebsites.net/files/"
  const SasSuffix: string := "/sas"

  /** The URL that asks the file service for a temporary link to `image`. */
  function SasUrl(image: string): string {
    SasPrefix + image + SasSuffix
  }

  /** The image a SAS URL asks for, when `url` has the SAS URL's shape. */
  function ImageOfSasUrl(url: string): Option<string> {
    if |url| >= |SasPrefix| + |SasSuffix| && url[..|SasPrefix|] == SasPrefix
       && url[|url| - |SasSuffix|..] == SasSuffix
    then Some(url[|SasPrefix|..|url| - |SasSuffix|])
    else None
  }

  /** Each image has its own URL: decoding a SAS URL gives back its image, so
      two different images never share a lookup. */
  lemma SasUrlRoundTrip(image: string)
    ensures ImageOfSasUrl(SasUrl(image)) == Some(image)
  {
    var url := SasUrl(image);
    assert url[..|SasPrefix|] == SasPrefix;
    assert url[|url| - |SasSuffix|..] == SasSuffix;
    assert url[|SasPrefix|..|url| - |SasSuffix|] == image;
  }

  /** The string `url` property of a reply: present only for a reply that is a
      JSON object with a `url` property of string kind. A failed lookup, a
      reply that is not an object (reading a property of it throws and the
      exception is caught) and a missing or non-string `url` all give None. */
  function ReadUrl(reply: LookupReply): (u: Option<string>)
    ensures u.Some? <==> reply.Json? && reply.body.JObject? && "url" in reply.body.props
                         && reply.body.props["url"].JString?
    ensures u.Some? ==> u.value == reply.body.props["url"].str
  {
    match reply
    case LookupFailed => None
    case Json(JObject(props)) =>
      if "url" in props && props["url"].JString? then Some(props["url"].str) else None
    case Json(_) => None
  }

  /** `chauffeurName`: "<nom> <prenom>" trimmed, a missing part rendered as "". */
  function ChauffeurName(nom: Option<string>, prenom: Option<string>): string {
    Trim(nom.GetOr("") + " " + prenom.GetOr(""))
  }

  lemma ChauffeurNameNone()
    ensures ChauffeurName(None, None) == ""
  {
    assert "" + " " + "" == " ";
    assert " "[1..] == "";
  }

  lemma ChauffeurNameNomOnly(nom: string)
    ensures ChauffeurName(Some(nom), None) == Trim(nom)
  {
    assert IsWhiteSpace(' ');
    assert IsBlank(" ") && IsBlank("");
    TrimBlankAround("", nom, " ");
    assert "" + nom + " " == nom + " " + "";
  }

  lemma ChauffeurNamePrenomOnly(prenom: string)
    ensures ChauffeurName(None, Some(prenom)) == Trim(prenom)
  {
    assert IsWhiteSpace(' ');
    assert IsBlank(" ") && IsBlank("");
    TrimBlankAround(" ", prenom, "");
    assert " " + prenom + "" == "" + " " + prenom;
  }

  /** Two parts that are already trimmed and not empty are joined by one space. */
  lemma ChauffeurNameBoth(nom: string, prenom: string)
    requires nom != [] && prenom != []
    requires Trim(nom) == nom && Trim(prenom) == prenom
    ensures ChauffeurName(Some(nom), Some(prenom)) == nom + " " + prenom
  {
    TrimSpec(nom);
    TrimSpec(prenom);
    var s := nom + " " + prenom;
    assert s[0] == nom[0] && s[|s| - 1] == prenom[|prenom| - 1];
    TrimOfTrimmed(s);
  }

  /** The surname comes first: a driver whose `Nom` is "Dupont" and whose
      `Prenom` is "Jean" is listed as "Dupont Jean". */
  lemma ChauffeurNameExample()
    ensures ChauffeurName(Some("Dupont"), Some("Jean")) == "Dupont Jean"
  {
    TrimOfTrimmed("Dupont");
    TrimOfTrimmed("Jean");
    ChauffeurNameBoth("Dupont", "Jean");
  }

  /** One item of the page. */
  datatype PageItem = PageItem(
    id: int,
    clientName: Option<string>,
    parkingAt: Option<int>,
    chauffeurName: string,
    matricule: Option<string>,
    rfidCard: Option<string>,
    imageUrl: Option<string>)

  /** Whether a row leads to a lookup: it has a cheque image that is not blank. */
  predicate NeedsLookup(row: LegendRow) {
    !IsNullOrWhiteSpace(row.chequeImg)
  }

  /** The image URL a row ends up with, given the file service: none for a
      missing or blank cheque image; otherwise present exactly when the reply
      to the image's SAS URL is a JSON object whose `url` is a string, and
      then that string. */
  function ImageUrl(row: LegendRow, lookup: Lookup): (u: Option<string>)
    ensures u.Some? <==>
      (NeedsLookup(row) &&
       var rp := lookup(SasUrl(row.chequeImg.value));
       rp.Json? && rp.body.JObject? && "url" in rp.body.props && rp.body.props["url"].JString?)
    ensures u.Some? ==> u.value == lookup(SasUrl(row.chequeImg.value)).body.props["url"].str
  {
    if NeedsLookup(row) then ReadUrl(lookup(SasUrl(row.chequeImg.value))) else None
  }

  /** The item a row becomes: its own columns copied, the driver's name, and
      an image URL that is present only when the row's image was looked up
      and the reply carried a string `url`. */
  function Enrich(row: LegendRow, lookup: Lookup): (item: PageItem)
    ensures item.id == row.id && item.clientName == row.clientName && item.parkingAt == row.parkingAt
    ensures item.matricule == row.matricule && item.rfidCard == row.rfidCard
    ensures item.chauffeurName == ChauffeurName(row.chauffeurNom, row.chauffeurPrenom)
    ensures item.imageUrl.Some? <==> NeedsLookup(row) && ReadUrl(lookup(SasUrl(row.chequeImg.value))).Some?
    ensures item.imageUrl.Some? ==> item.imageUrl.value == lookup(SasUrl(row.chequeImg.value)).body.props["url"].str
  {
    PageItem(row.id, row.clientName, row.parkingAt, ChauffeurName(row.chauffeurNom, row.chauffeurPrenom),
             row.matricule, row.rfidCard, ImageUrl(row, lookup))
  }

  /** A row's item depends on the file service only through the reply to
      that row's own request: whatever the service answers for other URLs,
      including failures, the item is the same. */
  lemma EnrichIsolated(row: LegendRow, l1: Lookup, l2: Lookup)
    requires NeedsLookup(row) ==> l1(SasUrl(row.chequeImg.value)) == l2(SasUrl(row.chequeImg.value))
    ensures Enrich(row, l1) == Enrich(row, l2)
  {
  }

  /** The requests one row causes: none for a row that needs no lookup, one
      to its image's SAS URL otherwise. */
  function RowRequests(row: LegendRow): seq<string> {
    if NeedsLookup(row) then [SasUrl(row.chequeImg.value)] else []
  }

  /** The requests the first `n` rows cause, in order. */
  function Requests(rows: seq<LegendRow>, n: nat): seq<string>
    requires n <= |rows|
    decreases n
  {
    if n == 0 then [] else Requests(rows, n - 1) + RowRequests(rows[n - 1])
  }

  /** The rows, among the first `n`, that need a lookup. */
  function LookupRows(rows: seq<LegendRow>, n: nat): set<int>
    requires n <= |rows|
  {
    set i | 0 <= i < n && NeedsLookup(rows[i])
  }

  /** The first `n` rows make exactly one request per row with a non-blank
      cheque image; in particular none when every image is missing or blank. */
  lemma {:induction false} RequestCount(rows: seq<LegendRow>, n: nat)
    requires n <= |rows|
    ensures |Requests(rows, n)| == |LookupRows(rows, n)|
    decreases n
  {
    if n > 0 {
      RequestCount(rows, n - 1);
      var before, now := LookupRows(rows, n - 1), LookupRows(rows, n);
      assert |Requests(rows, n)| == |Requests(rows, n - 1)| + |RowRequests(rows[n - 1])|;
      assert n - 1 !in before;
      if NeedsLookup(rows[n - 1]) {
        assert now == before + {n - 1} by {
          forall i | i in now ensures i in before + {n - 1} { }
        }
        assert |now| == |before| + 1;
      } else {
        assert now == before by {
          forall i | i in now ensures i in before { }
        }
      }
    }
  }

  /** Every request is the SAS URL of one of the first `n` rows with a
      non-blank cheque image, and every such row's SAS URL is requested. */
  lemma {:induction false} RequestedUrls(rows: seq<LegendRow>, n: nat, u: string)
    requires n <= |rows|
    ensures u in Requests(rows, n) <==>
      exists i :: 0 <= i < n && NeedsLookup(rows[i]) && u == SasUrl(rows[i].chequeImg.value)
    decreases n
  {
    if n > 0 {
      RequestedUrls(rows, n - 1, u);
      var last := rows[n - 1];
      assert u in Requests(rows, n) <==> u in Requests(rows, n - 1) || u in RowRequests(last);
      if u in RowRequests(last) {
        assert NeedsLookup(last) && u == SasUrl(last.chequeImg.value);
      }
      if exists i :: 0 <= i < n && NeedsLookup(rows[i]) && u == SasUrl(rows[i].chequeImg.value) {
        var i :| 0 <= i < n && NeedsLookup(rows[i]) && u == SasUrl(rows[i].chequeImg.value);
        if i == n - 1 {
          assert u in RowRequests(last);
        }
      }
    }
  }

  /** The items of the first `n` rows. */
  function Items(rows: seq<LegendRow>, n: nat, lookup: Lookup): seq<PageItem>
    requires n <= |rows|
    decreases n
  {
    if n == 0 then [] else Items(rows, n - 1, lookup) + [Enrich(rows[n - 1], lookup)]
  }

  lemma {:induction false} ItemsAt(rows: seq<LegendRow>, n: nat, lookup: Lookup)
    requires n <= |rows|
    ensures |Items(rows, n, lookup)| == n
    ensures forall k :: 0 <= k < n ==> Items(rows, n, lookup)[k] == Enrich(rows[k], lookup)
    decreases n
  {
    if n > 0 {
      ItemsAt(rows, n - 1, lookup);
    }
  }

  /** One pass of the loop body: the row's image URL is looked up when its
      cheque image is not blank, and the item is built from the row. */
  method EnrichRow(r: LegendRow, lookup: Lookup) returns (item: PageItem, requested: seq<string>)
    ensures item == Enrich(r, lookup)
    ensures requested == RowRequests(r)
  {
    var imageUrl: Option<string> := None;
    requested := [];
    if !IsNullOrWhiteSpace(r.chequeImg) {
      var sasUrl := SasUrl(r.chequeImg.value);
      requested := [sasUrl];
      var reply := lookup(sasUrl);
      imageUrl := ReadUrl(reply);
    }
    item := PageItem(r.id, r.clientName, r.parkingAt, ChauffeurName(r.chauffeurNom, r.chauffeurPrenom),
                     r.matricule, r.rfidCard, imageUrl);
  }

  /** The loop over the fetched rows: one item per row, in order, each
      enriched independently; also returns the URLs requested, in order. */
  method BuildItems(rows: seq<LegendRow>, lookup: Lookup) returns (items: seq<PageItem>, requested: seq<string>)
    ensures |items| == |rows|
    ensures forall i :: 0 <= i < |rows| ==> items[i] == Enrich(rows[i], lookup)
    ensures requested == Requests(rows, |rows|)
  {
    items, requested := [], [];
    for i := 0 to |rows|
      invariant items == Items(rows, i, lookup)
      invariant requested == Requests(rows, i)
    {
      var item, sent := EnrichRow(rows[i], lookup);
      items, requested := items + [item], requested + sent;
    }
    ItemsAt(rows, |rows|, lookup);
  }

  /** The response body. */
  datatype PageResponse = PageResponse(
    page: Int32, pageSize: Int32, totalCount: nat, totalPages: nat, items: seq<PageItem>)

  /** The store's paged query: the rows from `offset` on, at most `pageSize` of them. */
  type Fetch = (Int32, Int32) -> seq<LegendRow>

  /** The listing. `pageArg` and `pageSizeArg` are the results of parsing the
      query parameters; `fetch` and `totalCount` stand for the store. */
  method Run(pageArg: Option<Int32>, pageSizeArg: Option<Int32>, fetch: Fetch, totalCount: nat, lookup: Lookup)
    returns (response: PageResponse, requested: seq<string>)
    requires PageSizeOf(pageSizeArg) > 0
    ensures response.page == PageOf(pageArg) && response.pageSize == PageSizeOf(pageSizeArg)
    ensures response.totalCount == totalCount
    ensures response.totalPages == TotalPages(totalCount, response.pageSize)
    ensures var rows := fetch(Offset(response.page, response.pageSize), response.pageSize);
      |response.items| == |rows| &&
      (forall i :: 0 <= i < |rows| ==> response.items[i] == Enrich(rows[i], lookup)) &&
      requested == Requests(rows, |rows|)
  {
    var page := PageOf(pageArg);
    var pageSize := PageSizeOf(pageSizeArg);
    var offset := Offset(page, pageSize);
    var rows := fetch(offset, pageSize);
    var items;
    items, requested := BuildItems(rows, lookup);
    response := PageResponse(page, pageSize, totalCount, TotalPages(totalCount, pageSize), items);
  }
}
