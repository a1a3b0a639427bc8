# Survey quota reports on spreadsheets — a Dafny model

The system reads survey quota figures for each market from a reporting
service. It shapes them into display tables and writes those tables onto one
spreadsheet tab per market. The repository holds two generations of the code,
and this model covers the core of both.

- **First generation.**
  - `index.js` joins quota rows with their completion counts. It filters the
    rows by dimension: gender, age, region, brand, segment, segment booster
    and EV booster.
  - Age and region completion counts are recomputed through conversion tables.
  - The owner detail rows are grouped by brand into a cross-tab.
  - Every dimension becomes a table with a header, one row per answer and a
    totals row.
  - `sheets.js` places the eight tables of a tab as 1-based, inclusive ranges
    chained down column A, with the brand table beside the gender table. It
    then builds one value write per table, the Owner/Intender banner labels
    and merges above the segment table, and four style requests per table.
    Those four requests cover the header row, the first column, the footer
    row and the borders.
- **Second generation.**
  - `src/index.ts` builds basic, EV and main tables from the service's rows. It
    places them as 0-based, half-open areas that carry their own A1 notation,
    and gives the EV and main tables merges over their two-row headers.
  - `src/sheets.ts` works out which sheets to add and maps each sheet name to
    its sheet id. It then builds the value writes, and the merge and border
    requests stamped with their sheet's id.

The model has six modules:

- `Common` (common.dfy): optional values and results, display cells,
  rectangles, sheets, and the `find`/`filter`/`flatMap` helpers.
- `A1` (a1.dfy): A1 notation and the decimal rendering of row numbers, with a
  parser that reads them back.
- `Survey` (survey.dfy): `index.js`.
- `LegacySheets` (legacy_sheets.dfy): `sheets.js`.
- `Layout` (layout.dfy): the tables, areas and merges of `src/index.ts`.
- `SheetRequests` (sheet_requests.dfy): `src/sheets.ts`.

Reference definitions partner the operations:

- A1 text is partnered by a parser, so every A1 reference is proved to read
  back as the rectangle it was built for.
- Filters are partnered by the multiset/subsequence predicate `Selects`.
- The brand grouping is partnered by the declarative predicate `GroupsOf`.
- Totals rows are partnered by column sums.
- Layouts are partnered by pairwise disjointness of their rectangles.

## Model

| member | source | states |
|---|---|---|
| Common.ToPercent | index.js:237-240 | a zero whole gives the text "0.00%"; in the model only a zero whole gives that Text cell (the source also prints "0.00%" for a zero part, which the model keeps as the exact percentage 0); otherwise the cell is a percentage whose product with the whole is 100 times the part |
| Common.PercentOfScaledRatio | src/index.ts:71-75 | a sanity property of the model's exact percentage, not a promise of the source: it depends only on the ratio; scaling part and whole by the same positive factor gives the same cell |
| Common.SheetWithTitle | sheets.js:146 | the position found holds the first sheet with that title; nothing is found exactly when no sheet has the title |
| Common.Flatten | src/sheets.ts:79-82 | `flatMap` keeps every inner sequence, in order, at the offset given by the lengths before it |
| A1.DecimalRoundTrip | src/index.ts:67 | the decimal rendering of a row number reads back as that number |
| A1.ParseIntRoundTrip | sheets.js:63 | rendering any integer, negative ones included, and parsing it back gives the integer |
| A1.RangeRoundTrip | src/index.ts:67 | a range reference `C1R1:C2R2` parses back to its two cell addresses |
| A1.RangeRefChars | src/index.ts:67 | a range reference between column letters contains only letters, digits, '-' and ':', so never a '!' |
| A1.NoColonNoRange | src/sheets.ts:72 | text without a colon is not a range reference |
| Layout.IndexToChar | src/index.ts:14-16 | column 0 is 'A' through 25 is 'Z', index -1 gives '@', and the letter maps back to its index |
| Layout.GetArea | src/index.ts:41-69 | the area starts at the given row and column and spans exactly the given row and column counts, half-open |
| Layout.A1NotationNamesArea | src/index.ts:41-69 | the area's A1 notation (first letter and row+1, colon, last letter and end row) reads back as exactly the area's cells |
| Layout.BasicTableRows | src/index.ts:77-88 | one header plus one row per item, five cells each; label, quota, achieved and reported percentage are copied, and remaining is quota less achieved |
| Layout.EvTableRows | src/index.ts:90-109 | two header rows plus one row per item, nine cells each; total achieved is owner plus intender achieved, its percentage is taken against the quota, and remaining is quota less total achieved |
| Layout.MainTableRows | src/index.ts:111-131 | two header rows plus one row per item, thirteen cells each; in each of the total, owner and intender groups, remaining is that group's quota less its achieved count |
| Layout.EvTopHeaderRuns | src/index.ts:92 | the EV top header holds Total over four columns, then Owner over two and Intender over two |
| Layout.MainTopHeaderRuns | src/index.ts:113 | the main top header holds Total, Owner and Intender over four columns each |
| Layout.EvMergesPlacement | src/index.ts:133-172 | in a 9-wide area at least two rows tall, the EV merges are non-empty, lie inside the area and are pairwise disjoint; the label column is merged over both header rows; row runs tile the rest of the top row |
| Layout.EvRunsMatchLabels | src/index.ts:133-172 | each EV row-run covers cells of one label, and no two runs share a label |
| Layout.EvMergesFitHeader | src/index.ts:90-172 | the EV merges fit the EV table's header wherever an area of its size is placed |
| Layout.MainMergesPlacement | src/index.ts:174-213 | as for EV merges, for a 13-wide area with runs of four columns |
| Layout.MainRunsMatchLabels | src/index.ts:174-213 | each main row-run covers cells of one label, and no two runs share a label |
| Layout.MainMergesFitHeader | src/index.ts:111-213 | the main merges fit the main table's header wherever an area of its size is placed |
| Layout.Place | src/index.ts:236-241 | a table placed at a cell gets an area starting there, as tall as the table and as wide as its first row (0 columns without rows) |
| Layout.PlaceNamedByA1 | src/index.ts:236-241 | a placed table with a non-empty first row is named by its A1 notation |
| Layout.ChainAreas | src/index.ts:236-333 | gender, age and region run down column A one blank row apart; Tesla starts one blank column right of gender, with EV below it; brand starts one row below the lower of region and EV; segment and engine follow it; every area is sized to its table |
| Layout.BasicAreasArePlaced | src/index.ts:236-267 | the gender, age and region areas are those tables placed in column A at their chain rows |
| Layout.EvAreasArePlaced | src/index.ts:275-293 | the Tesla and EV areas are those tables placed in the band right of gender |
| Layout.MainAreasArePlaced | src/index.ts:302-333 | the brand, segment and engine areas are those tables placed in column A below both bands |
| Layout.BasicAreasNamedByA1 | src/index.ts:236-267 | each basic area with a non-empty first row reads back from its A1 notation |
| Layout.EvAreasNamedByA1 | src/index.ts:275-293 | each EV area with a non-empty first row reads back from its A1 notation |
| Layout.MainAreasNamedByA1 | src/index.ts:302-333 | each main area with a non-empty first row reads back from its A1 notation |
| Layout.ChainAreasNamedByA1 | src/index.ts:236-333 | every area of the chain with a non-empty first row is named by its A1 notation |
| Layout.ChainAreasDisjoint | src/index.ts:236-333 | when age and region are no wider than gender plus the blank column, no two of the eight areas share a cell, whatever the row counts |
| Layout.SheetLayout | src/index.ts:335-386 | a country's sheet lists eight tables in the order gender, age, region, brand, segment, engine, Tesla, EV, each at its area of the chain (`ChainAreas`) and sized to its rows; the main tables carry the main merges of their areas and Tesla and EV the EV merges; no table has border requests and the basic tables have no merges |
| Layout.SheetTablesDisjoint | src/index.ts:236-386 | no two tables of a country's sheet share a cell |
| Layout.SheetAreasNamedByA1 | src/index.ts:335-386 | every table of a country's sheet is named by its area's A1 notation |
| Layout.SheetMergesFitHeaders | src/index.ts:360-384 | the merges of every main and EV table of a country's sheet fit that table's two-row header |
| LegacySheets.IndexToChar | sheets.js:46 | column 1 is 'A' through 26 is 'Z', 0 gives '@', and the letter maps back to its index |
| LegacySheets.GetRange | sheets.js:48-65 | the range starts at the given row and column, and is as many rows tall (one row for an empty table) and as many columns wide as the first row (one without rows), inclusive |
| LegacySheets.RangeStringRoundTrip | sheets.js:51-63 | the range's `toString` text reads back as exactly that range |
| LegacySheets.StyleRequests | sheets.js:67-118 | four requests on the tab's sheet: header row, first column between header and footer, footer row, and borders round the whole range, shifted to 0-based, half-open bounds |
| LegacySheets.StyleZonesPartitionRange | sheets.js:67-118 | for a range of two or more rows, the header, first-column and footer zones lie inside the border zone and never overlap; a cell is in each zone exactly when it is on the first row, on the last row, or in the first column strictly between them |
| LegacySheets.SingleRowZones | sheets.js:67-118 | a one-row range has the same header and footer zone and an empty first-column zone |
| LegacySheets.ValueRequestTargets | sheets.js:120-125 | a value write on a tab whose name has no '!' reads back as that tab and that range, and carries the table unchanged |
| LegacySheets.AddTabsRequests | sheets.js:11-27 | the titles to add are, in input order, the tabs no sheet has as title, each as often as listed |
| LegacySheets.LayoutTab | sheets.js:148-155 | gender is at row 1; age, region, owner-brand, segment booster and EV booster follow down column A with one blank row, and segment with two; brand is at row 1 one blank column right of gender; each range is its table's `getRange` |
| LegacySheets.ColumnATablesDisjoint | sheets.js:148-155 | each column-A table ends above the next one's start, so no two share a cell |
| LegacySheets.BrandBesideColumnA | sheets.js:152 | the brand table shares no cell with any column-A table that is no wider than gender plus the blank column |
| LegacySheets.WideOwnerBrandMeetsTallBrand | sheets.js:152-153 | a tall brand table and a wide owner-brand table can overlap: a concrete 30-row brand table meets an 8-wide owner-brand table |
| LegacySheets.StylesFor | sheets.js:233-240 | four style requests per range, in the order of the ranges |
| LegacySheets.TabValues | sheets.js:157-174 | ten writes: the eight tables at their ranges in the source's order, then "Owner" in column F and "Intender" in column J of the row above the segment table |
| LegacySheets.TabRequestsFor | sheets.js:145-241 | a tab no sheet is titled with is an error, and only such a tab is; otherwise the tab gets its ten writes, two one-row banner merges over columns F-I and J-M on its sheet, and 32 style requests, four per range in style order |
| LegacySheets.BannerLabelsStartMerges | sheets.js:151-200 | the banner row lies between region (after a blank row) and segment; the two merges tile it side by side; each label sits in the first cell of its merge |
| LegacySheets.BannerClearOfShortBrand | sheets.js:176-200 | the two banner merges keep clear of the brand table when brand has no more rows than the region table's last row plus one, or its columns miss F to M; for a brand table with cells, only then |
| LegacySheets.TallBrandMeetsBanner | sheets.js:176-187 | a concrete tab whose 30-row brand table lies under the Owner banner merge |
| Survey.Lower | index.js:69-70 | lower-casing keeps the length and lower-cases each ASCII letter in place |
| Survey.ContainsIffOccurs | index.js:114 | `includes` holds exactly when the text occurs at some position |
| Survey.Completed | index.js:67-74 | the achieved count is that of the first matching count row, or 0 without a match |
| Survey.CountryWithCount | index.js:62-78 | each quota row keeps every field but its achieved count, which comes from the first row matching on market key, QID, QID_2 (case-insensitively) and ANS, or is 0 |
| Survey.SeriesWithCount | index.js:80-97 | the same join, also matching Q83_VAL case-insensitively |
| Survey.JoinedFromIsUnique | index.js:62-97 | the join's description determines its output: two outputs satisfying it are equal |
| Survey.BrandData | index.js:99-101 | keeps exactly the Q_Brand rows, in order, each as often as it occurs |
| Survey.GenderData | index.js:103-105 | keeps exactly the Q3 rows, in order, each as often as it occurs |
| Survey.MainSegmentTotalData | index.js:139-141 | keeps exactly the Q_Seg_Quota rows, in order |
| Survey.MainSegmentOwnerData | index.js:143-145 | keeps exactly the Q_Seg_Quota rows with Q83_VAL "1", in order |
| Survey.MainSegmentIntenderData | index.js:147-149 | keeps exactly the Q_Seg_Quota rows with Q83_VAL "2", in order |
| Survey.OwnerIntenderSplit | index.js:139-149 | owner and intender segment rows share no row, and together number no more than the segment-quota rows |
| Survey.SegmentBooster | index.js:151-162 | the Q_Seg_Booster rows, in order, with the label suffixed " - Owner" when Q83_VAL is "6" and " - Intender" otherwise, and nothing else changed |
| Survey.EvBooster | index.js:164-166 | keeps exactly the rows with QSORDER "6", in order |
| Survey.ConversionSumOfMatches | index.js:113-117 | the recomputed count is the sum of the counts of exactly those conversion rows whose code occurs in the answer |
| Survey.ConversionSumNoMatch | index.js:113-117 | with no code occurring in the answer the recomputed count is 0 |
| Survey.AgeData | index.js:107-121 | the Q6 rows, in order, each with only its achieved count replaced by the conversion sum for its answer |
| Survey.RegionData | index.js:123-137 | the Q7 rows, in order, each with only its achieved count replaced by the conversion sum for its answer |
| Survey.TableRows | index.js:210-235 | a header, one row per input row and a totals row; each data row shows the row's key, quota, achieved, percentage and remaining; every row loses its first cell when labels are removed |
| Survey.QuotaColumnSum | index.js:219-222 | the quota column of the data rows sums to the total quota |
| Survey.AchievedColumnSum | index.js:220-223 | the achieved column of the data rows sums to the total achieved |
| Survey.RemainingColumnSum | index.js:225-227 | the remaining column of the data rows sums to total quota less total achieved |
| Survey.TotalsAreColumnSums | index.js:210-228 | the totals row holds the column sums of the rows above it; its remaining equals the quota sum less the achieved sum; its percentage is taken from the sums |
| Survey.RemoveFirstDropsLabelColumn | index.js:230-232 | with `removeFirst`, every row is the full table's row without its first cell |
| Survey.GenderExample | index.js:210-240 | a two-answer gender table with 100/40 and 100/70 shows 40%, 70% and a 200/110/55%/90 total |
| Survey.LookupBrandQuota | index.js:183 | the quota row found has the brand code as its answer; none is found exactly when no row has it |
| Survey.AppendKeepsLeaders | index.js:179-194 | a further detail row does not move the first row of any existing group |
| Survey.ExistingGroupStep | index.js:179-194 | a row whose key has a group appends its count to that group and keeps the grouping correct |
| Survey.NewGroupStep | index.js:182-191 | a row with a new key and a known brand opens a group at the end, with the brand's quota and achieved figures, keeping the grouping correct |
| Survey.MissingBrandStep | index.js:182-187 | a row with a new key whose brand has no quota row is a missing brand |
| Survey.AddDetailStep | index.js:179-194 | one reduce step keeps the grouping correct, or reports a missing brand |
| Survey.GroupByBrand | index.js:179-194 | a success is the grouping of the detail rows: one group per key, in first-appearance order, collecting every count and carrying its brand's figures; a failure names a missing brand |
| Survey.GroupingSucceedsIffBrandsKnown | index.js:182-188 | grouping succeeds exactly when the first row of every key names a brand with a quota row |
| Survey.GroupKeysDistinct | index.js:179-194 | groups in first-appearance order have distinct keys |
| Survey.OwnerBrandGrid | index.js:171-205 | the header lists the segment labels between Quota and Total/Total(%); each brand row shows key, quota, counts, achieved and percentage; the totals row shows the segment achieved counts |
| Survey.GroupRowsSums | index.js:196-203 | the brand rows' quota column and achieved cells sum to the groups' quota and achieved totals |
| Survey.OwnerBrandTotalsAreColumnSums | index.js:196-205 | the totals row's quota and achieved are the brand rows' column sums, and its percentage is taken from them |
| Survey.OwnerBrandTable | index.js:168-208 | succeeds exactly when every group's brand has a quota row; on success it is the cross-tab of some correct grouping; on failure it names a missing brand |
| Survey.GroupLabelsDistinct | index.js:179-200 | the brand rows of the cross-tab carry pairwise distinct labels |
| SheetRequests.SheetsToAdd | src/sheets.ts:34-46 | the spreadsheet stays as is exactly when every name is a title; otherwise the titles to add are, in order, the names without a sheet, each as often as listed |
| SheetRequests.MissingIsEmptyIffAllPresent | src/sheets.ts:36-46 | nothing is missing exactly when every name already has a sheet |
| SheetRequests.AddingCoversEveryName | src/sheets.ts:34-59 | after adding, every name is a title and the existing sheets come first, unchanged |
| SheetRequests.AddSheetsIdempotent | src/sheets.ts:34-59 | planning again after adding leaves the spreadsheet unchanged |
| SheetRequests.SheetIdByName | src/sheets.ts:62-67 | the keys are exactly the names; each maps to the id of the first sheet with that title, or to nothing when no sheet has it |
| SheetRequests.OnSheetRoundTrip | src/sheets.ts:72 | `'name'!range` with no '!' in the range reads back as that name and range |
| SheetRequests.SheetValueRanges | src/sheets.ts:71-74 | one value range per table, in order, on the sheet's name, carrying the table's rows |
| SheetRequests.ValueRequestsAsWritten | src/sheets.ts:69-76 | as written, one request per table, every range reading back as `[object Object]`; within one sheet, request `j` carries table `j`'s rows and reads back as the sheet's name and `[object Object]` |
| SheetRequests.ValueRequestsAsWrittenAppend | src/sheets.ts:69-70 | the as-written requests of several sheets are those of each sheet, end to end, as `flatMap` gives them |
| SheetRequests.ObjectTextNamesNoCells | src/sheets.ts:72 | the text `[object Object]` names no cells |
| SheetRequests.AsWrittenTablesCollide | src/sheets.ts:72 | as written, two disjoint, non-empty tables of one country's sheet are sent to the same range |
| SheetRequests.ValueRequests | src/sheets.ts:69-76 | one request per table; within one sheet, request `j` carries table `j`'s rows at the sheet's name and the table's A1 notation |
| SheetRequests.ValueRequestsAppend | src/sheets.ts:70 | the requests of several sheets are each sheet's requests, end to end |
| SheetRequests.ValueRequestsHitTheirAreas | src/sheets.ts:69-76 | when every area is named by its A1 notation, request `k` writes table `k`'s rows at a range that reads back as exactly that table's area on its sheet |
| SheetRequests.CountryValueRequestsHitTheirAreas | src/sheets.ts:69-76 | on a country's sheet every table is written exactly at its own area |
| SheetRequests.StampMerges | src/sheets.ts:83-90 | each merge keeps its type and rectangle and takes the sheet's id |
| SheetRequests.MergeRequests | src/sheets.ts:78-92 | one request per merge of the tables; all requests of one sheet carry the id mapped to its name |
| SheetRequests.MergeRequestsAppend | src/sheets.ts:79 | the requests of several sheets are each sheet's requests, end to end |
| SheetRequests.MergeRequestsOnlyStamp | src/sheets.ts:83-89 | stamping changes nothing but the sheet id: with the ids taken off, the requests are the tables' merges, in order |
| SheetRequests.BorderRequests | src/sheets.ts:94-108 | one request per border request of the tables; all requests of one sheet carry the id mapped to its name |
| SheetRequests.BorderRequestsOnlyStamp | src/sheets.ts:99-103 | stamping changes nothing but the sheet id: with the ids taken off, the requests are the tables' border requests in order, each with its rectangle |
| SheetRequests.BorderRequestsAppend | src/sheets.ts:95 | the requests of several sheets are each sheet's requests, end to end |
| SheetRequests.BorderlessSheets | src/sheets.ts:97-98 | sheets whose tables have no border requests yield none |
| SheetRequests.NoBorderRequests | src/sheets.ts:94-108 | the country sheets produce no border requests |
| SheetRequests.UpdateSheets | src/sheets.ts:110-120 | it plans the missing sheets; after adding, every sheet name is a title and maps to the id of the first sheet with it; it sends the merge and border requests for those ids, and the value requests as evidently intended (at each table's A1 notation, see Findings), not the as-written ones |

## Left out

- I/O is left out. That covers HTTP calls to the reporting service, authentication, environment variables, console output and the spreadsheet API calls themselves. The spreadsheet read before an update and the ids the API assigns to added sheets are parameters.
- The failure branches of those calls are left out. Each one logs or throws and stops.
- Style payloads are not modelled. style.js is not part of this model: only the zone a style request formats is kept.
- Common.ToPercent keeps the exact percentage rather than the text `toFixed(2)` produces: binary floating point and its rounding are not modelled. Percentages the service already computed are kept as values of the `PlainPercent` cell.
- Counts are integers. `parseInt`/`parseFloat` of the service's text fields are not modelled. Neither is the join's default of the string "0" where a number usually stands, since both print the same.
- Survey.Lower lower-cases ASCII letters only. JavaScript's full Unicode `toLowerCase` is not modelled.
- Layout.GetArea and LegacySheets.IndexToChar require columns to stay within A-Z. Past Z, `String.fromCharCode` yields punctuation rather than a valid column, and the model does not follow that.
- The code mutates rows in place (`COM_CNT`, `LABEL`, `range`); the model returns updated copies.
- Commented-out code is not modelled: the gender border request at src/index.ts:341-350, the third merge at sheets.js:201-212 and the style at sheets.js:216-232.
- The accumulation across tabs at sheets.js:243-247 is not modelled. It nests the previous accumulator as the first element rather than spreading it, and it starts from `{}`. The model gives the requests of one tab (LegacySheets.TabRequestsFor). The batch calls after it are I/O.
- How the spreadsheet API treats duplicate titles in one add request is not modelled. AfterAdding adds each planned title as listed.
- The derivation of sheet names from country code and market key (src/index.ts:226) and the market filter (src/index.ts:216-221) are not modelled. Sheet names are inputs.
- Object.entries order over the groups is taken as insertion order. That is how JavaScript orders string keys that are not array indices, and a group key always contains ". ".
- SheetRequests.ValueRequests, SheetRequests.MergeRequests, SheetRequests.BorderRequests: the per-request contract is stated for a single sheet. Several sheets are covered by the append lemmas (ValueRequestsAppend, MergeRequestsAppend, BorderRequestsAppend), which split the requests sheet by sheet.
- SheetRequests.UpdateSheets: its value requests are the corrected ones (each table at its area's A1 notation), not the `'name'![object Object]` ranges the code as written sends at src/sheets.ts:118; the as-written requests are SheetRequests.ValueRequestsAsWritten (see Findings).
- Survey.GroupLabelsDistinct is stated for groups in first-appearance order. Every successful grouping is in that order (Survey.GroupByBrand).
- Layout.ChainAreasDisjoint requires age and region to be no wider than gender plus one column. All country sheets meet this: every basic table is five columns wide.
- LegacySheets.BrandBesideColumnA covers only column-A tables no wider than gender plus the blank column. Wider ones can overlap the brand table (LegacySheets.WideOwnerBrandMeetsTallBrand), and the source does nothing about it. The banner merges over columns F to M can likewise meet a brand table taller than the region table's last row plus one (LegacySheets.BannerClearOfShortBrand, LegacySheets.TallBrandMeetsBanner); the source does nothing about that either.
- Layout.A1NotationNamesArea requires at least one column. A zero-width area's notation ends in '@', which names no column.

## Findings

| source | as written | input that shows it | evidently intended | confidence | as-written member | corrected member |
|---|---|---|---|---|---|---|
| src/sheets.ts:72 | the range is `'name'!` followed by `table.area.toString()`. An area is a plain object, so that text is `[object Object]`, which names no cells | any country sheet: its first two tables, gender and age, are disjoint and non-empty, yet both are sent to `'name'![object Object]` | `'name'!` followed by `table.area.a1Notation`, so each table is written at its own area | not executed | SheetRequests.ValueRequestsAsWritten (with SheetRequests.AsWrittenTablesCollide, SheetRequests.ObjectTextNamesNoCells) | SheetRequests.ValueRequests (with SheetRequests.CountryValueRequestsHitTheirAreas); SheetRequests.UpdateSheets uses it |
