# Cimar legend read-side: dashboard overview and paginated legend listing

This project models the read side of the Cimar order-tracking functions. The
"legend" is the table of orders (trucks) moving through a cement plant in four
workflow steps: 1 parking, 2 plant entry, 3 charging, 4 finished charging.

- `DashboardOverview.dfy` covers the dashboard overview.
  - Every legend record is projected into an overview item. The item gets:
    - the minutes elapsed since the timestamp of its current step, 0 when that
      timestamp is missing or the step is outside 1-4;
    - a status colour.
  - The items are split into three groups: parking (step 1), usine (steps 2
    and 4) and chargement (step 3).
  - Each group is summarised by its count, its minimum and maximum elapsed
    time (0 for an empty group) and its total elapsed time.
- `LegendPaginated.dfy` covers the paginated legend listing.
  - `page` and `pageSize` default to 1 and 10.
  - The offset is computed in C#'s unchecked 32-bit arithmetic.
  - The page count is the ceiling of `totalCount / pageSize`.
  - The per-row loop gives each row the trimmed driver name. For a row with a
    non-blank cheque image, it also fetches a temporary image URL from the
    file service. That lookup reads the string `url` property of the reply.
    Every failure leaves the URL empty, and it only affects that row.
- `Strings.dfy` models the .NET string operations used:
  - `char.IsWhiteSpace`;
  - `string.IsNullOrWhiteSpace`;
  - `string.Trim()`.
- `Wrappers.dfy` defines `Option`, which stands for nullable columns and for
  failed parses.

The outside world is passed in as parameters:

- The store is:
  - a sequence of records for the overview;
  - a `fetch(offset, pageSize)` function and a `totalCount` for the listing.
- The clock is a single `now`, in whole minutes.
- The file service is a function from request URL to reply.
- Query-string parsing is represented by its outcome, `Option<Int32>`.

The listing loop is a `method` with a loop that appends to a sequence. It is
proved against the function `Enrich`, applied row by row. The rest of the
core is pure and is modelled by functions and lemmas.

Two behaviours of the code are kept as they are:

- `ElapsedTime` is not clamped: a timestamp later than `now` gives a negative
  value, as `DATEDIFF` does.
- Neither `page` nor `pageSize` is validated: `Offset` computes the same
  wrapped value the code does, whatever the parsed values are.

The driver's name is written surname first: `Nom`, a space, then `Prenom`,
trimmed.

## Model

| member | source | states |
|---|---|---|
| DashboardOverview.ElapsedTime | CimarFunctions/DashboardOverviewFunction.cs:41-65 | Minutes since the timestamp selected by the step: ParkingAt, PabEntryAt, StartChargingAt or FinishedChargingAt for steps 1-4. It is 0 when that timestamp is NULL or the step is none of 1-4. |
| DashboardOverview.Color | CimarFunctions/DashboardOverviewFunction.cs:67-74 | Red exactly for steps 1 and 2, Yellow exactly for 3, Green exactly for 4, and NA exactly for every other step. |
| DashboardOverview.StepTimestamp | CimarFunctions/DashboardOverviewFunction.cs:43-64 | The timestamp column the step selects; its contract is carried by `ElapsedTime`. |
| DashboardOverview.Project | CimarFunctions/DashboardOverviewFunction.cs:30-77 | The projection of one record; what it keeps and computes is stated by `Query`. |
| DashboardOverview.Query | CimarFunctions/DashboardOverviewFunction.cs:29-83 | One item per record, in the store's order. Each item copies its record's columns (id, client, plate, products, quantities, product type, step, `Produit1Type`), has the elapsed time of its step against the same `now`, and has the colour of its step. |
| DashboardOverview.InStage | CimarFunctions/DashboardOverviewFunction.cs:89-96 | The grouping rule: parking is step 1, usine steps 2 and 4, chargement step 3. `StagesDisjoint` proves no step is in two groups and exactly steps 1-4 are in one. |
| DashboardOverview.Where | CimarFunctions/DashboardOverviewFunction.cs:89-96 | A group never holds more items than the query result. |
| DashboardOverview.WhereMembers | CimarFunctions/DashboardOverviewFunction.cs:89-96 | An item is in a stage's group if and only if it is one of the items and its step belongs to that stage. |
| DashboardOverview.PositionsSpec | CimarFunctions/DashboardOverviewFunction.cs:89-96 | A stage's positions are strictly increasing, in range, and all of that stage. Every index of the stage is among them. |
| DashboardOverview.WhereIsOrderedFilter | CimarFunctions/DashboardOverviewFunction.cs:89-96 | `Where` is an order-preserving filter: its k-th element is the item at the k-th position of the stage. |
| DashboardOverview.WhereConcat | CimarFunctions/DashboardOverviewFunction.cs:89-96 | Grouping distributes over concatenation of the item lists. |
| DashboardOverview.StagesDisjoint | CimarFunctions/DashboardOverviewFunction.cs:89-96 | No step belongs to two groups. A step belongs to some group if and only if it is in 1-4. |
| DashboardOverview.GroupCounts | CimarFunctions/DashboardOverviewFunction.cs:83-96 | The three groups of the query's items together have one item per record with a step in 1-4. |
| DashboardOverview.MinElapsed | CimarFunctions/DashboardOverviewFunction.cs:102 | 0 for an empty group. Otherwise it is at most every member's elapsed time and equals some member's. |
| DashboardOverview.MaxElapsed | CimarFunctions/DashboardOverviewFunction.cs:103 | 0 for an empty group. Otherwise it is at least every member's elapsed time and equals some member's. |
| DashboardOverview.SumElapsed | CimarFunctions/DashboardOverviewFunction.cs:104 | The total elapsed time of a group; its properties are `SumAtLeast`, `SumAtMost` and `SumConcat`. |
| DashboardOverview.SumAtLeast | CimarFunctions/DashboardOverviewFunction.cs:104 | A lower bound on every member's elapsed time, times the count, is at most the total. |
| DashboardOverview.SumAtMost | CimarFunctions/DashboardOverviewFunction.cs:104 | The total is at most an upper bound on every member's elapsed time, times the count. |
| DashboardOverview.SumConcat | CimarFunctions/DashboardOverviewFunction.cs:104 | The total of a concatenation is the sum of the two totals. |
| DashboardOverview.Summarize | CimarFunctions/DashboardOverviewFunction.cs:113-119 | One group of the response; `SummaryBounds` states what its figures promise. |
| DashboardOverview.SummaryBounds | CimarFunctions/DashboardOverviewFunction.cs:102-136 | A group's figures: count is the number of items; an empty group has all zeros; otherwise every member lies between min and max, both are attained, and min·count ≤ total ≤ max·count. |
| DashboardOverview.BuildOverview | CimarFunctions/DashboardOverviewFunction.cs:111-137 | The response: the three summarised groups of the query's items. `GroupMembership`, `OverviewCounts` and `WorkedExample` state what it holds. |
| DashboardOverview.GroupMembership | CimarFunctions/DashboardOverviewFunction.cs:83-137 | An item is in the parking, usine or chargement group of the response if and only if it is the projection of a record with step 1, step 2 or 4, or step 3 respectively. |
| DashboardOverview.OverviewCounts | CimarFunctions/DashboardOverviewFunction.cs:89-137 | The three counts of the response add up to the number of records with a step in 1-4. |
| DashboardOverview.ExampleGrouping | CimarFunctions/DashboardOverviewFunction.cs:89-96 | Items with steps 1,2,3,4,2 group as parking [1st], usine [2nd, 4th, 5th], chargement [3rd], in order. |
| DashboardOverview.ExampleFigures | CimarFunctions/DashboardOverviewFunction.cs:102-104 | Elapsed times 20, 30, 15 give min 15, max 30, total 65. |
| DashboardOverview.WorkedExample | CimarFunctions/DashboardOverviewFunction.cs:29-137 | Five records (steps 1,2,3,4,2; elapsed 10,20,5,30,15) give parking 1/10/10/10, usine 3/15/30/65, chargement 1/5/5/5. |
| Strings.IsWhiteSpace | CimarFunctions/LegendPaginatedFunction.cs:77 | The .NET white-space set: U+0009-U+000D, U+0020, U+0085, U+00A0, U+1680, U+2000-U+200A, U+2028, U+2029, U+202F, U+205F, U+3000. `WhiteSpaceExamples` pins a few members and non-members. |
| Strings.WhiteSpaceExamples | CimarFunctions/LegendPaginatedFunction.cs:77 | Tab, space and no-break space are white space; a letter and the zero-width space U+200B are not. |
| Strings.IsNullOrWhiteSpace | CimarFunctions/LegendPaginatedFunction.cs:77 | `string.IsNullOrWhiteSpace`; `IsNullOrWhiteSpaceSpec` relates it to `Trim`. |
| Strings.IsNullOrWhiteSpaceSpec | CimarFunctions/LegendPaginatedFunction.cs:77 | A string is null or white space if and only if it is missing or `Trim` empties it. |
| Strings.TrimStart | CimarFunctions/LegendPaginatedFunction.cs:105 | Removal of leading white space; its contract is `TrimStartSpec`. |
| Strings.TrimEnd | CimarFunctions/LegendPaginatedFunction.cs:105 | Removal of trailing white space; its contract is `TrimEndSpec`. |
| Strings.Trim | CimarFunctions/LegendPaginatedFunction.cs:105 | `string.Trim()`; its contract is `TrimSpec` and `TrimIsInfix`. |
| Strings.TrimStartSpec | CimarFunctions/LegendPaginatedFunction.cs:105 | Leading trim removes a blank prefix and keeps a suffix that is empty or starts with a non-white character. |
| Strings.TrimEndSpec | CimarFunctions/LegendPaginatedFunction.cs:105 | Trailing trim removes a blank suffix and keeps a prefix that is empty or ends with a non-white character. |
| Strings.TrimSpec | CimarFunctions/LegendPaginatedFunction.cs:105 | `Trim` is empty if and only if the input is blank. Otherwise it starts and ends with a non-white character. It is never longer than the input. |
| Strings.TrimIsInfix | CimarFunctions/LegendPaginatedFunction.cs:105 | `Trim`'s result is a run of the input, with a blank run before it and a blank run after it. |
| Strings.BlankConcat | CimarFunctions/LegendPaginatedFunction.cs:77 | A concatenation is blank if and only if both parts are. |
| Strings.TrimStartBlankPrefix | CimarFunctions/LegendPaginatedFunction.cs:105 | Prepending white space does not change the leading trim. |
| Strings.TrimStartAppend | CimarFunctions/LegendPaginatedFunction.cs:105 | Once a non-white character is reached, what follows is kept unchanged by the leading trim. |
| Strings.TrimEndBlankSuffix | CimarFunctions/LegendPaginatedFunction.cs:105 | Appending white space does not change the trailing trim. |
| Strings.TrimBlankAround | CimarFunctions/LegendPaginatedFunction.cs:105 | Surrounding a string with white space does not change its `Trim`. |
| Strings.TrimOfTrimmed | CimarFunctions/LegendPaginatedFunction.cs:105 | A string that neither starts nor ends with white space is its own `Trim`. |
| LegendPaginated.Wrap32 | CimarFunctions/LegendPaginatedFunction.cs:30 | C# unchecked `int` arithmetic: the result is congruent to the exact value modulo 2^32. It is the exact value when that fits in 32 bits. |
| LegendPaginated.PageOf | CimarFunctions/LegendPaginatedFunction.cs:27 | `page` from its parsed value, default 1; stated by `PageDefaults`. |
| LegendPaginated.PageSizeOf | CimarFunctions/LegendPaginatedFunction.cs:28 | `pageSize` from its parsed value, default 10; stated by `PageDefaults`. |
| LegendPaginated.PageDefaults | CimarFunctions/LegendPaginatedFunction.cs:27-28 | `page` is the parsed value, or 1 when missing or unparseable. `pageSize` is the parsed value, or 10. |
| LegendPaginated.Offset | CimarFunctions/LegendPaginatedFunction.cs:30 | The offset is congruent to `(page - 1) * pageSize` modulo 2^32 for all inputs, and is exactly that product whenever `page - 1` and the product fit in an `int`. |
| LegendPaginated.OffsetCongruent | CimarFunctions/LegendPaginatedFunction.cs:30 | Wrapping `page - 1` and then the product gives a value congruent to the exact product modulo 2^32. |
| LegendPaginated.OffsetExamples | CimarFunctions/LegendPaginatedFunction.cs:27-30 | The default page starts at 0. Page 2 of size 10 starts at 10. Page 1073741825 of size 4 wraps around to offset 0. |
| LegendPaginated.TotalPages | CimarFunctions/LegendPaginatedFunction.cs:117 | The page count is the least number of pages holding `totalCount` rows: (pages−1)·pageSize < totalCount ≤ pages·pageSize, and 0 pages for 0 rows. |
| LegendPaginated.TotalPagesExamples | CimarFunctions/LegendPaginatedFunction.cs:117 | 25 rows of 10 give 3 pages, 0 rows give 0 pages, and 30 rows give 3 pages. |
| LegendPaginated.SasUrl | CimarFunctions/LegendPaginatedFunction.cs:80 | The lookup URL of an image; `SasUrlRoundTrip` proves it gives back its image, so it is injective. |
| LegendPaginated.SasUrlRoundTrip | CimarFunctions/LegendPaginatedFunction.cs:80 | The SAS URL of an image decodes back to that image, so distinct images are never looked up through the same URL. |
| LegendPaginated.ReadUrl | CimarFunctions/LegendPaginatedFunction.cs:82-96 | A URL is obtained if and only if the lookup succeeded with a JSON object whose `url` property is a string, and it is that string. Failures, non-object replies and a missing or non-string `url` give none. |
| LegendPaginated.ChauffeurName | CimarFunctions/LegendPaginatedFunction.cs:105 | Surname, a space and first name, trimmed; stated by the `ChauffeurName…` lemmas. |
| LegendPaginated.ChauffeurNameNone | CimarFunctions/LegendPaginatedFunction.cs:105 | A driver with neither name part gives the empty name. |
| LegendPaginated.ChauffeurNameNomOnly | CimarFunctions/LegendPaginatedFunction.cs:105 | With only the last name, the result is that name trimmed. |
| LegendPaginated.ChauffeurNamePrenomOnly | CimarFunctions/LegendPaginatedFunction.cs:105 | With only the first name, the result is that name trimmed. |
| LegendPaginated.ChauffeurNameBoth | CimarFunctions/LegendPaginatedFunction.cs:105 | Two non-empty, already trimmed parts are joined by exactly one space. |
| LegendPaginated.ChauffeurNameExample | CimarFunctions/LegendPaginatedFunction.cs:105 | Surname first: `Nom` "Dupont" and `Prenom` "Jean" give "Dupont Jean". |
| LegendPaginated.NeedsLookup | CimarFunctions/LegendPaginatedFunction.cs:77 | A row leads to a lookup when its cheque image is neither missing nor blank; `RequestCount`, `RequestedUrls` and `ImageUrl` state its consequences. |
| LegendPaginated.ImageUrl | CimarFunctions/LegendPaginatedFunction.cs:71-97 | Present if and only if the cheque image is neither missing nor blank and the reply to its SAS URL is a JSON object whose `url` property is a string; then it is that string. |
| LegendPaginated.Enrich | CimarFunctions/LegendPaginatedFunction.cs:100-109 | The item copies id, client name, parking time, plate and RFID card, and carries the trimmed driver name. Its image URL is present if and only if the image needed a lookup and the reply carried a string `url`, and it is then that `url` string. |
| LegendPaginated.EnrichIsolated | CimarFunctions/LegendPaginatedFunction.cs:82-96 | A row's item depends on the file service only through the reply to that row's own request. A failure elsewhere never changes it. |
| LegendPaginated.RowRequests | CimarFunctions/LegendPaginatedFunction.cs:77-85 | The requests one row causes; tied to the loop body by `EnrichRow`. |
| LegendPaginated.Requests | CimarFunctions/LegendPaginatedFunction.cs:69-85 | The requests of the first n rows, in order; stated by `RequestCount` and `RequestedUrls`. |
| LegendPaginated.RequestCount | CimarFunctions/LegendPaginatedFunction.cs:69-85 | The number of lookups equals the number of rows with a non-blank cheque image; there are none when every image is missing or blank. |
| LegendPaginated.RequestedUrls | CimarFunctions/LegendPaginatedFunction.cs:69-85 | A URL is requested if and only if it is the SAS URL of some row with a non-blank cheque image. |
| LegendPaginated.Items | CimarFunctions/LegendPaginatedFunction.cs:67-110 | The items of the first n rows, the loop's running list; stated by `ItemsAt`. |
| LegendPaginated.ItemsAt | CimarFunctions/LegendPaginatedFunction.cs:67-110 | The prefix of the item list for the first n rows has n items, and the k-th is the enrichment of row k. |
| LegendPaginated.EnrichRow | CimarFunctions/LegendPaginatedFunction.cs:71-109 | One loop pass yields the row's item and requests exactly the row's SAS URL, or nothing when it needs no lookup. |
| LegendPaginated.BuildItems | CimarFunctions/LegendPaginatedFunction.cs:67-110 | One item per fetched row, in order, each the row's enrichment. The URLs requested are exactly those of the rows needing a lookup, in row order. |
| LegendPaginated.Run | CimarFunctions/LegendPaginatedFunction.cs:25-124 | The response carries the defaulted page and pageSize, the count, the ceiling page count, and the enriched rows fetched at the wrapped offset. Its requests are those of the fetched rows. |

## Left out

- SQL text, connections and the store's query semantics are not part of the model. The store's results are parameters:
  - the overview's records, already in `ORDER BY CreatedAt DESC` order;
  - the listing's `fetch(offset, pageSize)` window and its `COUNT(*)`;
  - the `Produit1Type` subquery, taken as a record field.
- Time: the Morocco time-zone conversion and the clock are not modelled. `DATEDIFF(MINUTE, …)` counts minute boundaries between two datetimes. Here timestamps and `now` are already whole minutes, so the difference is a plain subtraction.
- HTTP: the request and response objects, JSON serialisation of the responses, status codes, and the overview's 500 response with the exception text (DashboardOverviewFunction.cs:143-147) are not modelled.
- Query-string parsing and `int.TryParse` are taken as their outcome, an `Option<Int32>`.
- The HTTP client and JSON parser of the file service are one function from URL to reply. The same URL therefore always gets the same reply within a run. Duplicate keys in a JSON object are not represented.
- The listing raises no exception in the model. Errors from the store are outside the model.
- LegendPaginated.Run: `fetch` is total, so `Run` always returns a response. In the code, a negative `OFFSET` makes the store fail with an unhandled error. This happens when `page <= 0` with `pageSize > 0`, or when the wrapped product is negative. `Run` also requires `pageSize > 0`, for the reason given for `TotalPages`.
- Asynchrony and concurrency (`await`, parallel requests) are not modelled. The loop handles rows one after the other, as the code does.
- DashboardOverview.SumElapsed: LINQ `Sum` over `int` throws on overflow and `DATEDIFF` fails on an out-of-range result. The model uses unbounded integers and does not model either error.
- DashboardOverview.LegendRecord: a NULL `Step` (the `(int)` cast would throw) is not modelled; `step` is a plain integer.
- DashboardOverview.ElapsedTime: minutes are integers from the caller; the `datetime` range is not modelled.
- LegendPaginated.TotalPages: requires `pageSize > 0`. For a `pageSize` of 0 or less, the store's `FETCH NEXT @PageSize ROWS` fails before the page count is reached. `totalCount` is a `nat`, because `COUNT(*)` is never negative.
- GetLegendDetails.cs, GetLegendSummary.cs and Program.cs are not part of this model.
