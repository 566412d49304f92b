/** The dashboard overview: every legend (order) row is given the time it has
    spent in its current workflow step and a status colour, and the rows are
    split into three groups (parking, usine, chargement), each summarised by
    count, minimum, maximum and total elapsed time.

    Timestamps and the reference instant `now` are whole minutes of site-local
    time; one `now` is shared by every row of a response. */
module DashboardOverview {
  import opened Wrappers

  /** One row of the legend table as the overview query reads it; `produit1Type`
      is the product type the store looks up by `produit1`. */
  datatype LegendRecord = LegendRecord(
    id: int,
    clientName: Option<string>,
    matricule: Option<string>,
    produit1: Option<string>,
    quantite1: Option<int>,
    produit2: Option<string>,
    quantite2: Option<int>,
    typeProduit: Option<string>,
    step: int,
    parkingAt: Option<int>,
    pabEntryAt: Option<int>,
    startChargingAt: Option<int>,
    finishedChargingAt: Option<int>,
    produit1Type: Option<string>)

  datatype StatusColor = Red | Yellow | Green | NA {
    /** The text the response carries. */
    function Name(): string {
      match this
      case Red => "Red"
      case Yellow => "Yellow"
      case Green => "Green"
      case NA => "NA"
    }
  }

  /** One item of the overview: the selected columns plus the two computed ones. */
  datatype OverviewItem = OverviewItem(
    id: int,
    clientName: Option<string>,
    matricule: Option<string>,
    produit1: Option<string>,
    quantite1: Option<int>,
    produit2: Option<string>,
    quantite2: Option<int>,
    typeProduit: Option<string>,
    step: int,
    elapsedTime: int,
    statusColor: StatusColor,
    produit1Type: Option<string>)

  /** The timestamp that belongs to a step; a step outside 1-4 selects none. */
  function StepTimestamp(r: LegendRecord): Option<int> {
    if r.step == 1 then r.parkingAt
    else if r.step == 2 then r.pabEntryAt
    else if r.step == 3 then r.startChargingAt
    else if r.step == 4 then r.finishedChargingAt
    else None
  }

  /** Minutes since the current step's timestamp, or 0 when the step is not
      one of 1-4 or its timestamp is missing. Not clamped: a timestamp later
      than `now` gives a negative value. */
  function ElapsedTime(r: LegendRecord, now: int): (e: int)
    ensures r.step == 1 && r.parkingAt.Some? ==> e == now - r.parkingAt.value
    ensures r.step == 2 && r.pabEntryAt.Some? ==> e == now - r.pabEntryAt.value
    ensures r.step == 3 && r.startChargingAt.Some? ==> e == now - r.startChargingAt.value
    ensures r.step == 4 && r.finishedChargingAt.Some? ==> e == now - r.finishedChargingAt.value
    ensures r.step == 1 && r.parkingAt.None? ==> e == 0
    ensures r.step == 2 && r.pabEntryAt.None? ==> e == 0
    ensures r.step == 3 && r.startChargingAt.None? ==> e == 0
    ensures r.step == 4 && r.finishedChargingAt.None? ==> e == 0
    ensures !(1 <= r.step <= 4) ==> e == 0
  {
    match StepTimestamp(r)
    case Some(t) => now - t
    case None => 0
  }

  /** The status colour of a step. */
  function Color(step: int): (c: StatusColor)
    ensures c == Red <==> step == 1 || step == 2
    ensures c == Yellow <==> step == 3
    ensures c == Green <==> step == 4
    ensures c == NA <==> !(1 <= step <= 4)
  {
    if step == 1 then Red
    else if step == 2 then Red
    else if step == 3 then Yellow
    else if step == 4 then Green
    else NA
  }

  /** The query's projection of one record. */
  function Project(r: LegendRecord, now: int): OverviewItem {
    OverviewItem(r.id, r.clientName, r.matricule, r.produit1, r.quantite1,
                 r.produit2, r.quantite2, r.typeProduit, r.step,
                 ElapsedTime(r, now), Color(r.step), r.produit1Type)
  }

  /** The item carries the record's own columns unchanged. */
  predicate CopiesColumns(x: OverviewItem, r: LegendRecord) {
    x.id == r.id && x.clientName == r.clientName && x.matricule == r.matricule &&
    x.produit1 == r.produit1 && x.quantite1 == r.quantite1 && x.produit2 == r.produit2 &&
    x.quantite2 == r.quantite2 && x.typeProduit == r.typeProduit && x.step == r.step &&
    x.produit1Type == r.produit1Type
  }

  /** The query's result: one item per record, in the order the store
      returned them, each carrying its record's columns, the elapsed time of
      its step against the one `now`, and the colour of its step. */
  function Query(records: seq<LegendRecord>, now: int): (items: seq<OverviewItem>)
    ensures |items| == |records|
    ensures forall i :: 0 <= i < |records| ==>
      CopiesColumns(items[i], records[i]) &&
      items[i].elapsedTime == ElapsedTime(records[i], now) &&
      items[i].statusColor == Color(records[i].step)
  {
    seq(|records|, i requires 0 <= i < |records| => Project(records[i], now))
  }

  datatype Stage = Parking | Usine | Chargement

  /** The grouping rule: parking is step 1, usine steps 2 and 4, chargement step 3. */
  predicate InStage(step: int, g: Stage) {
    match g
    case Parking => step == 1
    case Usine => step == 2 || step == 4
    case Chargement => step == 3
  }

  /** The items of one stage, in their original order. */
  function Where(items: seq<OverviewItem>, g: Stage): (r: seq<OverviewItem>)
    ensures |r| <= |items|
    decreases |items|
  {
    if items == [] then []
    else (if InStage(items[0].step, g) then [items[0]] else []) + Where(items[1..], g)
  }

  /** An item is in a stage's group exactly when it is one of the items and
      its step belongs to the stage. */
  lemma {:induction false} WhereMembers(items: seq<OverviewItem>, g: Stage, x: OverviewItem)
    ensures x in Where(items, g) <==> x in items && InStage(x.step, g)
    decreases |items|
  {
    if items != [] {
      WhereMembers(items[1..], g, x);
      assert items == [items[0]] + items[1..];
    }
  }

  /** The indices, from `from` on, of the items that belong to stage `g`. */
  function Positions(items: seq<OverviewItem>, g: Stage, from: nat): seq<int>
    requires from <= |items|
    decreases |items| - from
  {
    if from == |items| then []
    else (if InStage(items[from].step, g) then [from] else []) + Positions(items, g, from + 1)
  }

  /** The stage's positions are increasing indices of items of that stage,
      and every item of the stage has its index among them. */
  lemma {:induction false} PositionsSpec(items: seq<OverviewItem>, g: Stage, from: nat)
    requires from <= |items|
    ensures forall k :: 0 <= k < |Positions(items, g, from)| ==>
      from <= Positions(items, g, from)[k] < |items| && InStage(items[Positions(items, g, from)[k]].step, g)
    ensures forall k, l :: 0 <= k < l < |Positions(items, g, from)| ==>
      Positions(items, g, from)[k] < Positions(items, g, from)[l]
    ensures forall i :: from <= i < |items| && InStage(items[i].step, g) ==> i in Positions(items, g, from)
    decreases |items| - from
  {
    if from < |items| {
      PositionsSpec(items, g, from + 1);
    }
  }

  /** Where keeps exactly the stage's items and keeps them in order: its k-th
      element is the item at the k-th of the stage's positions. */
  lemma {:induction false} WhereIsOrderedFilter(items: seq<OverviewItem>, g: Stage, from: nat)
    requires from <= |items|
    ensures |Where(items[from..], g)| == |Positions(items, g, from)|
    ensures forall k :: 0 <= k < |Positions(items, g, from)| ==>
      from <= Positions(items, g, from)[k] < |items| &&
      Where(items[from..], g)[k] == items[Positions(items, g, from)[k]]
    decreases |items| - from
  {
    if from < |items| {
      var rest := items[from + 1..];
      assert items[from..][0] == items[from];
      assert items[from..][1..] == rest;
      WhereIsOrderedFilter(items, g, from + 1);
      var w, p := Where(items[from..], g), Positions(items, g, from);
      var w', p' := Where(rest, g), Positions(items, g, from + 1);
      if InStage(items[from].step, g) {
        assert w == [items[from]] + w';
        assert p == [from] + p';
        forall k | 0 <= k < |p|
          ensures from <= p[k] < |items| && w[k] == items[p[k]]
        {
          if k > 0 {
            assert w[k] == w'[k - 1] && p[k] == p'[k - 1];
          }
        }
      } else {
        assert w == w';
        assert p == p';
      }
    }
  }

  /** The grouping of a concatenation is the concatenation of the groupings. */
  lemma {:induction false} WhereConcat(a: seq<OverviewItem>, b: seq<OverviewItem>, g: Stage)
    ensures Where(a + b, g) == Where(a, g) + Where(b, g)
    decreases |a|
  {
    if a == [] {
      assert a + b == b;
    } else {
      var head := if InStage(a[0].step, g) then [a[0]] else [];
      assert (a + b)[0] == a[0];
      assert (a + b)[1..] == a[1..] + b;
      WhereConcat(a[1..], b, g);
      calc {
        Where(a + b, g);
        head + Where(a[1..] + b, g);
        head + (Where(a[1..], g) + Where(b, g));
        (head + Where(a[1..], g)) + Where(b, g);
      }
    }
  }

  /** No step belongs to two stages, and a step outside 1-4 belongs to none. */
  lemma StagesDisjoint(step: int)
    ensures !(InStage(step, Parking) && InStage(step, Usine))
    ensures !(InStage(step, Parking) && InStage(step, Chargement))
    ensures !(InStage(step, Usine) && InStage(step, Chargement))
    ensures (InStage(step, Parking) || InStage(step, Usine) || InStage(step, Chargement)) <==> 1 <= step <= 4
  {
  }

  /** Smallest elapsed time of a group, 0 for an empty group. */
  function MinElapsed(items: seq<OverviewItem>): (m: int)
    ensures items == [] ==> m == 0
    ensures forall x :: x in items ==> m <= x.elapsedTime
    ensures items != [] ==> exists x :: x in items && x.elapsedTime == m
    decreases |items|
  {
    if items == [] then 0
    else if |items| == 1 then items[0].elapsedTime
    else
      var rest := MinElapsed(items[1..]);
      if items[0].elapsedTime <= rest then items[0].elapsedTime else rest
  }

  /** Largest elapsed time of a group, 0 for an empty group. */
  function MaxElapsed(items: seq<OverviewItem>): (m: int)
    ensures items == [] ==> m == 0
    ensures forall x :: x in items ==> x.elapsedTime <= m
    ensures items != [] ==> exists x :: x in items && x.elapsedTime == m
    decreases |items|
  {
    if items == [] then 0
    else if |items| == 1 then items[0].elapsedTime
    else
      var rest := MaxElapsed(items[1..]);
      if items[0].elapsedTime >= rest then items[0].elapsedTime else rest
  }

  /** Total elapsed time of a group (0 for an empty group). */
  function SumElapsed(items: seq<OverviewItem>): int
    decreases |items|
  {
    if items == [] then 0 else items[0].elapsedTime + SumElapsed(items[1..])
  }

  /** A lower bound of every member bounds the total from below, count times over. */
  lemma {:induction false} SumAtLeast(items: seq<OverviewItem>, lo: int)
    requires forall x :: x in items ==> lo <= x.elapsedTime
    ensures lo * |items| <= SumElapsed(items)
    decreases |items|
  {
    if items != [] {
      assert forall x :: x in items[1..] ==> x in items;
      SumAtLeast(items[1..], lo);
      assert lo * |items| == lo + lo * |items[1..]|;
    }
  }

  /** An upper bound of every member bounds the total from above, count times over. */
  lemma {:induction false} SumAtMost(items: seq<OverviewItem>, hi: int)
    requires forall x :: x in items ==> x.elapsedTime <= hi
    ensures SumElapsed(items) <= hi * |items|
    decreases |items|
  {
    if items != [] {
      assert forall x :: x in items[1..] ==> x in items;
      SumAtMost(items[1..], hi);
      assert hi * |items| == hi + hi * |items[1..]|;
    }
  }

  /** The total of a concatenation is the sum of the totals. */
  lemma {:induction false} SumConcat(a: seq<OverviewItem>, b: seq<OverviewItem>)
    ensures SumElapsed(a + b) == SumElapsed(a) + SumElapsed(b)
    decreases |a|
  {
    if a == [] {
      assert a + b == b;
    } else {
      assert (a + b)[1..] == a[1..] + b;
      SumConcat(a[1..], b);
    }
  }

  /** One group of the response. */
  datatype GroupSummary = GroupSummary(
    count: nat, minElapsed: int, maxElapsed: int, totalElapsed: int, items: seq<OverviewItem>)

  function Summarize(items: seq<OverviewItem>): GroupSummary {
    GroupSummary(|items|, MinElapsed(items), MaxElapsed(items), SumElapsed(items), items)
  }

  /** What a group's figures promise: zeros for an empty group; otherwise every
      member lies between min and max, both are attained, and the total lies
      between min*count and max*count. */
  lemma SummaryBounds(items: seq<OverviewItem>)
    ensures var s := Summarize(items);
      s.count == |s.items| &&
      (s.count == 0 ==> s.minElapsed == 0 && s.maxElapsed == 0 && s.totalElapsed == 0) &&
      (s.count > 0 ==>
        (forall x :: x in s.items ==> s.minElapsed <= x.elapsedTime <= s.maxElapsed) &&
        (exists x :: x in s.items && x.elapsedTime == s.minElapsed) &&
        (exists x :: x in s.items && x.elapsedTime == s.maxElapsed) &&
        s.minElapsed * s.count <= s.totalElapsed <= s.maxElapsed * s.count)
  {
    SumAtLeast(items, MinElapsed(items));
    SumAtMost(items, MaxElapsed(items));
  }

  /** The response: the three groups of the query's items. */
  datatype Overview = Overview(parking: GroupSummary, usine: GroupSummary, chargement: GroupSummary)

  function BuildOverview(records: seq<LegendRecord>, now: int): Overview {
    var items := Query(records, now);
    Overview(Summarize(Where(items, Parking)), Summarize(Where(items, Usine)),
             Summarize(Where(items, Chargement)))
  }

  /** An item is in the parking group exactly when it is the projection of a
      step-1 record; likewise usine (steps 2, 4) and chargement (step 3). */
  lemma GroupMembership(records: seq<LegendRecord>, now: int, x: OverviewItem)
    ensures var o := BuildOverview(records, now);
      (x in o.parking.items <==> exists i :: 0 <= i < |records| && records[i].step == 1 && x == Project(records[i], now)) &&
      (x in o.usine.items <==> exists i :: 0 <= i < |records| && (records[i].step == 2 || records[i].step == 4) && x == Project(records[i], now)) &&
      (x in o.chargement.items <==> exists i :: 0 <= i < |records| && records[i].step == 3 && x == Project(records[i], now))
  {
    var items := Query(records, now);
    WhereMembers(items, Parking, x);
    WhereMembers(items, Usine, x);
    WhereMembers(items, Chargement, x);
    if x in items {
      var i :| 0 <= i < |items| && items[i] == x;
      assert x.step == records[i].step;
    }
  }

  /** Number of records whose step is one of 1-4. */
  function RecordsInWorkflow(records: seq<LegendRecord>): nat
    decreases |records|
  {
    if records == [] then 0
    else (if 1 <= records[0].step <= 4 then 1 else 0) + RecordsInWorkflow(records[1..])
  }

  /** The three groups of the query together hold one item per record with a
      step in 1-4: records with another step are in no group, and none is in
      two. */
  lemma {:induction false} GroupCounts(records: seq<LegendRecord>, now: int)
    ensures var items := Query(records, now);
      |Where(items, Parking)| + |Where(items, Usine)| + |Where(items, Chargement)| == RecordsInWorkflow(records)
    decreases |records|
  {
    if records != [] {
      GroupCounts(records[1..], now);
      var items := Query(records, now);
      assert items[1..] == Query(records[1..], now);
      assert items[0].step == records[0].step;
      StagesDisjoint(records[0].step);
    }
  }

  /** The three counts of the response add up to the number of records with a
      step in 1-4. */
  lemma OverviewCounts(records: seq<LegendRecord>, now: int)
    ensures var o := BuildOverview(records, now);
      o.parking.count + o.usine.count + o.chargement.count == RecordsInWorkflow(records)
  {
    GroupCounts(records, now);
  }

  /** A record with the given step whose timestamps all lie `elapsed` minutes
      before instant 100. */
  function SampleRecord(id: int, step: int, elapsed: int): LegendRecord {
    var t := Some(100 - elapsed);
    LegendRecord(id, None, None, None, None, None, None, None, step, t, t, t, t, None)
  }

  lemma ExampleGrouping(p: OverviewItem, u: OverviewItem, c: OverviewItem, f: OverviewItem, u2: OverviewItem)
    requires p.step == 1 && u.step == 2 && c.step == 3 && f.step == 4 && u2.step == 2
    ensures Where([p, u, c, f, u2], Parking) == [p]
    ensures Where([p, u, c, f, u2], Usine) == [u, f, u2]
    ensures Where([p, u, c, f, u2], Chargement) == [c]
  {
    assert [p, u, c, f, u2][1..] == [u, c, f, u2] && [u, c, f, u2][1..] == [c, f, u2];
    assert [c, f, u2][1..] == [f, u2] && [f, u2][1..] == [u2] && [u2][1..] == [];
    assert Where([f, u2], Parking) == [] && Where([f, u2], Usine) == [f, u2] && Where([f, u2], Chargement) == [];
    assert Where([u, c, f, u2], Parking) == [] && Where([u, c, f, u2], Usine) == [u, f, u2];
    assert Where([u, c, f, u2], Chargement) == [c];
  }

  lemma ExampleFigures(u: OverviewItem, f: OverviewItem, u2: OverviewItem)
    requires u.elapsedTime == 20 && f.elapsedTime == 30 && u2.elapsedTime == 15
    ensures MinElapsed([u, f, u2]) == 15 && MaxElapsed([u, f, u2]) == 30 && SumElapsed([u, f, u2]) == 65
  {
    assert [u, f, u2][1..] == [f, u2] && [f, u2][1..] == [u2] && [u2][1..] == [];
    assert SumElapsed([u2]) == 15 && SumElapsed([f, u2]) == 45;
    assert MinElapsed([f, u2]) == 15 && MaxElapsed([f, u2]) == 30;
  }

  /** Steps [1,2,3,4,2] with elapsed times [10,20,5,30,15]. */
  lemma WorkedExample()
    ensures var o := BuildOverview([SampleRecord(1, 1, 10), SampleRecord(2, 2, 20), SampleRecord(3, 3, 5),
                                        SampleRecord(4, 4, 30), SampleRecord(5, 2, 15)], 100);
      o.parking.count == 1 && o.parking.minElapsed == 10 && o.parking.maxElapsed == 10 && o.parking.totalElapsed == 10 &&
      o.usine.count == 3 && o.usine.minElapsed == 15 && o.usine.maxElapsed == 30 && o.usine.totalElapsed == 65 &&
      o.chargement.count == 1 && o.chargement.minElapsed == 5 && o.chargement.maxElapsed == 5 && o.chargement.totalElapsed == 5
  {
    var rs := [SampleRecord(1, 1, 10), SampleRecord(2, 2, 20), SampleRecord(3, 3, 5),
               SampleRecord(4, 4, 30), SampleRecord(5, 2, 15)];
    var p, u, c, f, u2 := Project(rs[0], 100), Project(rs[1], 100), Project(rs[2], 100),
                          Project(rs[3], 100), Project(rs[4], 100);
    assert Query(rs, 100) == [p, u, c, f, u2];
    ExampleGrouping(p, u, c, f, u2);
    ExampleFigures(u, f, u2);
    assert SumElapsed([p]) == 10 && SumElapsed([c]) == 5;
  }
}
