/** The second generation's requests to the spreadsheet (`src/sheets.ts`):
    which sheets to add, the id of each sheet by name, the value writes, and
    the merge and border requests stamped with the id of their sheet. */
module SheetRequests {
  import opened Common
  import A1
  import Layout

  // ---------------------------------------------------------------------
  // Adding sheets

  /** What `addSheets` does before it calls the API: leave the spreadsheet
      as it is, or add sheets with these titles. */
  datatype AddSheetsPlan = Unchanged | AddSheets(titles: seq<string>)

  /** A sheet name lacks a sheet when no sheet of the spreadsheet has it as title. */
  predicate Lacks(sheets: seq<Sheet>, name: string) {
    !HasTitle(sheets, name)
  }

  /** `addSheets`: the names no sheet has as title, in order, each as often
      as it is listed; nothing to do when there is none. */
  function SheetsToAdd(names: seq<string>, sheets: seq<Sheet>): (p: AddSheetsPlan)
    ensures p.Unchanged? <==> forall i :: 0 <= i < |names| ==> HasTitle(sheets, names[i])
    ensures p.AddSheets? ==>
      && |p.titles| > 0
      && IsSubsequence(p.titles, names)
      && forall n :: multiset(p.titles)[n] == if HasTitle(sheets, n) then 0 else multiset(names)[n]
  {
    var missing := Filter(names, (n: string) => Lacks(sheets, n));
    MissingIsEmptyIffAllPresent(names, sheets, missing);
    if |missing| == 0 then Unchanged else AddSheets(missing)
  }

  lemma MissingIsEmptyIffAllPresent(names: seq<string>, sheets: seq<Sheet>, missing: seq<string>)
    requires forall n :: multiset(missing)[n] == if Lacks(sheets, n) then multiset(names)[n] else 0
    ensures |missing| == 0 <==> forall i :: 0 <= i < |names| ==> HasTitle(sheets, names[i])
  {
    if |missing| > 0 {
      var n := missing[0];
      assert multiset(missing)[n] > 0;
      assert n in multiset(names);
      var i :| 0 <= i < |names| && names[i] == n;
    } else {
      forall i | 0 <= i < |names|
        ensures HasTitle(sheets, names[i])
      {
        assert multiset(names)[names[i]] > 0;
      }
    }
  }

  /** The sheets once the API has added the planned ones after the existing
      ones; `newIds` are the ids it assigns, in order. */
  function AfterAdding(sheets: seq<Sheet>, p: AddSheetsPlan, newIds: seq<int>): seq<Sheet> {
    match p
    case Unchanged => sheets
    case AddSheets(titles) =>
      sheets + seq(|titles|, i requires 0 <= i < |titles| =>
        Sheet(Some(titles[i]), if i < |newIds| then Some(newIds[i]) else None))
  }

  /** After the planned sheets are added, every name is the title of a sheet
      and the sheets that were there are unchanged. */
  lemma AddingCoversEveryName(names: seq<string>, sheets: seq<Sheet>, newIds: seq<int>)
    ensures var after := AfterAdding(sheets, SheetsToAdd(names, sheets), newIds);
      && |sheets| <= |after| && after[..|sheets|] == sheets
      && forall i :: 0 <= i < |names| ==> HasTitle(after, names[i])
  {
    var p := SheetsToAdd(names, sheets);
    var after := AfterAdding(sheets, p, newIds);
    forall i | 0 <= i < |names|
      ensures HasTitle(after, names[i])
    {
      var n := names[i];
      if HasTitle(sheets, n) {
        var j :| 0 <= j < |sheets| && sheets[j].title == Some(n);
        assert after[j] == sheets[j];
      } else {
        assert multiset(names)[n] > 0;
        assert n in multiset(p.titles);
        var j :| 0 <= j < |p.titles| && p.titles[j] == n;
        assert after[|sheets| + j].title == Some(n);
      }
    }
  }

  /** Planning again after the sheets were added has nothing left to add. */
  lemma AddSheetsIdempotent(names: seq<string>, sheets: seq<Sheet>, newIds: seq<int>)
    ensures SheetsToAdd(names, AfterAdding(sheets, SheetsToAdd(names, sheets), newIds)) == Unchanged
  {
    AddingCoversEveryName(names, sheets, newIds);
  }

  // ---------------------------------------------------------------------
  // Sheet ids

  /** Sheet `i` is the first sheet titled `name`. */
  predicate FirstTitled(sheets: seq<Sheet>, name: string, i: int) {
    0 <= i < |sheets| && sheets[i].title == Some(name) && forall m :: 0 <= m < i ==> sheets[m].title != Some(name)
  }

  /** The id of the first sheet titled `name`, if there is one and it has an id. */
  function IdOf(sheets: seq<Sheet>, name: string): Option<int> {
    match SheetWithTitle(sheets, name)
    case None => None
    case Some(i) => sheets[i].sheetId
  }

  /** `getSheetIdByName`: every name is a key; it maps to the id of the first
      sheet with that title, and to nothing when no sheet has it. */
  function SheetIdByName(names: seq<string>, sheets: seq<Sheet>): (ids: map<string, Option<int>>)
    ensures ids.Keys == set n | n in names
    ensures forall n :: n in ids && !HasTitle(sheets, n) ==> ids[n] == None
    ensures forall n, i :: n in ids && FirstTitled(sheets, n, i) ==> ids[n] == sheets[i].sheetId
  {
    map n | n in names :: IdOf(sheets, n)
  }

  /** `sheetIdByName.get(name)`: nothing for a name that is not a key. */
  function SheetIdOf(ids: map<string, Option<int>>, name: string): Option<int> {
    if name in ids then ids[name] else None
  }

  // ---------------------------------------------------------------------
  // Value requests

  /** A value range of the API: where to write, and the rows to write there. */
  datatype ValueRange = ValueRange(range: string, values: Grid)

  /** `'name'!range`: a range on the sheet of that name. */
  function OnSheet(sheetName: string, a1: string): string {
    "'" + sheetName + "'!" + a1
  }

  predicate NoBang(s: string) {
    forall i :: 0 <= i < |s| ==> s[i] != '!'
  }

  /** Reads `'name'!range` back, splitting at the last `!`. */
  function SplitOnSheet(s: string): Option<(string, string)> {
    match LastIndex(s, (c: char) => c == '!')
    case None => None
    case Some(k) =>
      if 2 <= k && s[0] == '\'' && s[k - 1] == '\'' then Some((s[1..k - 1], s[k + 1..])) else None
  }

  /** A range without `!` on any sheet reads back as that sheet and that range. */
  lemma OnSheetRoundTrip(sheetName: string, a1: string)
    requires NoBang(a1)
    ensures SplitOnSheet(OnSheet(sheetName, a1)) == Some((sheetName, a1))
  {
    var s := OnSheet(sheetName, a1);
    var k := |sheetName| + 2;
    var isBang := (c: char) => c == '!';
    assert s[k] == '!';
    assert forall m :: k < m < |s| ==> s[m] == a1[m - k - 1] && !isBang(s[m]);
    var r := LastIndex(s, isBang);
    assert r.Some? && r.value == k;
    assert s[0] == '\'' && s[k - 1] == '\'';
    assert s[1..k - 1] == sheetName;
    assert s[k + 1..] == a1;
  }

  /** Number of tables over all sheets. */
  function TableCount(sheets: seq<Layout.SheetData>): nat {
    if |sheets| == 0 then 0 else |sheets[0].tables| + TableCount(sheets[1..])
  }

  /** The value range of each table of one sheet, with `rangeOf` giving the
      text that stands for a table's area. */
  function SheetValueRanges(sheet: Layout.SheetData, rangeOf: Layout.Area -> string): (vs: seq<ValueRange>)
    ensures |vs| == |sheet.tables|
    ensures forall j :: 0 <= j < |vs| ==>
      vs[j] == ValueRange(OnSheet(sheet.sheetName, rangeOf(sheet.tables[j].area)), sheet.tables[j].rows)
  {
    seq(|sheet.tables|, j requires 0 <= j < |sheet.tables| =>
      ValueRange(OnSheet(sheet.sheetName, rangeOf(sheet.tables[j].area)), sheet.tables[j].rows))
  }

  /** What `String(area)` gives for a plain object such as an area. */
  const ObjectText: string := "[object Object]"

  /** `getValueRequests` as written: the range text is the area object
      turned into a string, so every request, whatever its table, is sent to
      `'name'![object Object]` on its sheet.  A request of a single sheet
      carries its table's rows and reads back as the sheet's name and that
      text; `ValueRequestsAsWrittenAppend` composes sheets. */
  function ValueRequestsAsWritten(sheets: seq<Layout.SheetData>): (vs: seq<ValueRange>)
    ensures |vs| == TableCount(sheets)
    ensures forall k :: 0 <= k < |vs| ==>
      SplitOnSheet(vs[k].range).Some? && SplitOnSheet(vs[k].range).value.1 == ObjectText
    ensures |sheets| == 1 ==> forall j :: 0 <= j < |vs| && j < |sheets[0].tables| ==>
      && vs[j].values == sheets[0].tables[j].rows
      && SplitOnSheet(vs[j].range) == Some((sheets[0].sheetName, ObjectText))
  {
    if |sheets| == 0 then []
    else
      var own := SheetValueRanges(sheets[0], (a: Layout.Area) => ObjectText);
      OnSheetRoundTrip(sheets[0].sheetName, ObjectText);
      assert |sheets| == 1 ==> ValueRequestsAsWritten(sheets[1..]) == [];
      own + ValueRequestsAsWritten(sheets[1..])
  }

  /** The as-written requests of several sheets are those of each sheet,
      end to end. */
  lemma {:induction false} ValueRequestsAsWrittenAppend(a: seq<Layout.SheetData>, b: seq<Layout.SheetData>)
    ensures ValueRequestsAsWritten(a + b) == ValueRequestsAsWritten(a) + ValueRequestsAsWritten(b)
  {
    if |a| > 0 {
      assert (a + b)[1..] == a[1..] + b;
      ValueRequestsAsWrittenAppend(a[1..], b);
    } else {
      assert a + b == b;
    }
  }

  /** The range text the as-written requests carry names no cells. */
  lemma ObjectTextNamesNoCells()
    ensures Layout.DecodeA1(ObjectText) == None
  {
    A1.NoColonNoRange(ObjectText);
  }

  /** Two tables of one country's sheet, written as the code stands, are
      sent to the same range although their areas are disjoint. */
  lemma AsWrittenTablesCollide(sheetName: string, d: Layout.CountryRows)
    ensures var s := Layout.SheetLayout(sheetName, d);
      var vs := ValueRequestsAsWritten([s]);
      && |vs| == 8
      && vs[0].range == vs[1].range
      && Disjoint(Layout.ToRect(s.tables[0].area), Layout.ToRect(s.tables[1].area))
      && !Layout.ToRect(s.tables[0].area).IsEmpty()
  {
    var s := Layout.SheetLayout(sheetName, d);
    var vs := ValueRequestsAsWritten([s]);
    assert [s][1..] == [];
    Layout.SheetTablesDisjoint(sheetName, d);
    assert Disjoint(Layout.TableRects(s.tables)[0], Layout.TableRects(s.tables)[1]);
  }

  /** `getValueRequests` as evidently intended: each table is written at
      its area's A1 notation on its sheet.  A request of a single sheet
      carries its table's rows and reads back as the sheet's name and the
      table's A1 notation, whenever that notation has no `!`. */
  function ValueRequests(sheets: seq<Layout.SheetData>): (vs: seq<ValueRange>)
    ensures |vs| == TableCount(sheets)
    ensures |sheets| == 1 ==> forall j :: 0 <= j < |vs| && j < |sheets[0].tables| ==>
      && vs[j].values == sheets[0].tables[j].rows
      && (NoBang(sheets[0].tables[j].area.a1Notation) ==>
            SplitOnSheet(vs[j].range) == Some((sheets[0].sheetName, sheets[0].tables[j].area.a1Notation)))
  {
    if |sheets| == 0 then []
    else
      var own := SheetValueRanges(sheets[0], (a: Layout.Area) => a.a1Notation);
      assert forall j :: 0 <= j < |own| && NoBang(sheets[0].tables[j].area.a1Notation) ==>
        SplitOnSheet(own[j].range) == Some((sheets[0].sheetName, sheets[0].tables[j].area.a1Notation)) by {
        forall j | 0 <= j < |own| && NoBang(sheets[0].tables[j].area.a1Notation)
          ensures SplitOnSheet(own[j].range) == Some((sheets[0].sheetName, sheets[0].tables[j].area.a1Notation))
        {
          OnSheetRoundTrip(sheets[0].sheetName, sheets[0].tables[j].area.a1Notation);
        }
      }
      assert |sheets| == 1 ==> ValueRequests(sheets[1..]) == [];
      own + ValueRequests(sheets[1..])
  }

  /** The requests of several sheets are those of each sheet, end to end. */
  lemma {:induction false} ValueRequestsAppend(a: seq<Layout.SheetData>, b: seq<Layout.SheetData>)
    ensures ValueRequests(a + b) == ValueRequests(a) + ValueRequests(b)
  {
    if |a| > 0 {
      assert (a + b)[1..] == a[1..] + b;
      ValueRequestsAppend(a[1..], b);
    } else {
      assert a + b == b;
    }
  }

  /** When every area of a sheet is named by its A1 notation, request `k`
      of that sheet writes table `k`'s rows on the sheet at a range that
      reads back as exactly the table's area. */
  lemma ValueRequestsHitTheirAreas(s: Layout.SheetData)
    requires forall k :: 0 <= k < |s.tables| ==> Layout.NamedByA1(s.tables[k].area)
    ensures var vs := ValueRequests([s]);
      && |vs| == |s.tables|
      && forall k :: 0 <= k < |vs| ==>
        && vs[k].values == s.tables[k].rows
        && SplitOnSheet(vs[k].range).Some?
        && SplitOnSheet(vs[k].range).value.0 == s.sheetName
        && Layout.DecodeA1(SplitOnSheet(vs[k].range).value.1) == Some(Layout.ToRect(s.tables[k].area))
  {
    var vs := ValueRequests([s]);
    assert [s][1..] == [];
    forall k | 0 <= k < |vs|
      ensures NoBang(s.tables[k].area.a1Notation)
    {
      var a1 := s.tables[k].area.a1Notation;
      forall m | 0 <= m < |a1|
        ensures a1[m] != '!'
      {
        assert A1.IsRefChar(a1[m]);
      }
    }
  }

  /** On a country's sheet, every table is written exactly at its own area. */
  lemma CountryValueRequestsHitTheirAreas(sheetName: string, d: Layout.CountryRows)
    ensures var s := Layout.SheetLayout(sheetName, d);
      var vs := ValueRequests([s]);
      && |vs| == |s.tables|
      && forall k :: 0 <= k < |vs| ==>
        && vs[k].values == s.tables[k].rows
        && SplitOnSheet(vs[k].range).Some?
        && SplitOnSheet(vs[k].range).value.0 == sheetName
        && Layout.DecodeA1(SplitOnSheet(vs[k].range).value.1) == Some(Layout.ToRect(s.tables[k].area))
  {
    Layout.SheetAreasNamedByA1(sheetName, d);
    ValueRequestsHitTheirAreas(Layout.SheetLayout(sheetName, d));
  }

  // ---------------------------------------------------------------------
  // Merge and border requests

  /** The request's range, now on the sheet with id `id`. */
  function StampMerge(m: Merge, id: Option<int>): Merge {
    m.(range := m.range.(sheetId := id))
  }

  function StampMerges(ms: seq<Merge>, id: Option<int>): (out: seq<Merge>)
    ensures |out| == |ms|
    ensures forall q :: 0 <= q < |ms| ==> out[q] == StampMerge(ms[q], id)
  {
    seq(|ms|, q requires 0 <= q < |ms| => StampMerge(ms[q], id))
  }

  /** The merges of a sheet's tables, table by table; a table without
      merges contributes none. */
  function SheetMerges(sheet: Layout.SheetData): seq<Merge> {
    Flatten(seq(|sheet.tables|, j requires 0 <= j < |sheet.tables| => sheet.tables[j].merges))
  }

  /** The merges of every sheet, sheet by sheet, as the tables hold them. */
  function AllMerges(sheets: seq<Layout.SheetData>): seq<Merge> {
    if |sheets| == 0 then [] else SheetMerges(sheets[0]) + AllMerges(sheets[1..])
  }

  /** `getMergeRequests`: the merges of every sheet, sheet by sheet, each
      with its range moved onto the id the map gives the sheet's name.  All
      requests of a single sheet carry that id. */
  function MergeRequests(sheets: seq<Layout.SheetData>, ids: map<string, Option<int>>): (ms: seq<Merge>)
    ensures |ms| == |AllMerges(sheets)|
    ensures |sheets| == 1 ==> forall q :: 0 <= q < |ms| ==> ms[q].range.sheetId == SheetIdOf(ids, sheets[0].sheetName)
  {
    if |sheets| == 0 then []
    else
      assert |sheets| == 1 ==> MergeRequests(sheets[1..], ids) == [];
      StampMerges(SheetMerges(sheets[0]), SheetIdOf(ids, sheets[0].sheetName)) + MergeRequests(sheets[1..], ids)
  }

  /** The requests of several sheets are those of each sheet, end to end. */
  lemma {:induction false} MergeRequestsAppend(a: seq<Layout.SheetData>, b: seq<Layout.SheetData>, ids: map<string, Option<int>>)
    ensures MergeRequests(a + b, ids) == MergeRequests(a, ids) + MergeRequests(b, ids)
  {
    if |a| > 0 {
      assert (a + b)[1..] == a[1..] + b;
      MergeRequestsAppend(a[1..], b, ids);
    } else {
      assert a + b == b;
    }
  }

  /** No merge of the sheets names a sheet yet. */
  predicate Unplaced(ms: seq<Merge>) {
    forall q :: 0 <= q < |ms| ==> ms[q].range.sheetId == None
  }

  /** Stamping changes nothing but the sheet id: with the ids taken off
      again, the requests are exactly the sheets' merges, in order. */
  lemma {:induction false} MergeRequestsOnlyStamp(sheets: seq<Layout.SheetData>, ids: map<string, Option<int>>)
    requires Unplaced(AllMerges(sheets))
    ensures StampMerges(MergeRequests(sheets, ids), None) == AllMerges(sheets)
  {
    if |sheets| > 0 {
      var own := SheetMerges(sheets[0]);
      var stamped := StampMerges(own, SheetIdOf(ids, sheets[0].sheetName));
      UnplacedSplit(own, AllMerges(sheets[1..]));
      MergeRequestsOnlyStamp(sheets[1..], ids);
      StampAppend(stamped, MergeRequests(sheets[1..], ids), None);
      StampTwice(own, SheetIdOf(ids, sheets[0].sheetName));
    }
  }

  lemma UnplacedSplit(a: seq<Merge>, b: seq<Merge>)
    requires Unplaced(a + b)
    ensures Unplaced(a) && Unplaced(b)
  {
    assert forall q :: 0 <= q < |a| ==> a[q] == (a + b)[q];
    assert forall q :: 0 <= q < |b| ==> b[q] == (a + b)[|a| + q];
  }

  lemma StampAppend(a: seq<Merge>, b: seq<Merge>, id: Option<int>)
    ensures StampMerges(a + b, id) == StampMerges(a, id) + StampMerges(b, id)
  {
  }

  /** Stamping unplaced merges and taking the id off again gives them back. */
  lemma StampTwice(ms: seq<Merge>, id: Option<int>)
    requires Unplaced(ms)
    ensures StampMerges(StampMerges(ms, id), None) == ms
  {
  }

  /** An update-borders request, now on the sheet with id `id`. */
  function StampBorder(b: Layout.Border, id: Option<int>): Layout.Border {
    b.(range := b.range.(sheetId := id))
  }

  function SheetBorders(sheet: Layout.SheetData): seq<Layout.Border> {
    Flatten(seq(|sheet.tables|, j requires 0 <= j < |sheet.tables| => sheet.tables[j].borders))
  }

  function StampBorders(bs: seq<Layout.Border>, id: Option<int>): (out: seq<Layout.Border>)
    ensures |out| == |bs|
    ensures forall q :: 0 <= q < |bs| ==> out[q] == StampBorder(bs[q], id)
  {
    seq(|bs|, q requires 0 <= q < |bs| => StampBorder(bs[q], id))
  }

  /** The border requests of every sheet, sheet by sheet, as the tables hold them. */
  function AllBorders(sheets: seq<Layout.SheetData>): seq<Layout.Border> {
    if |sheets| == 0 then [] else SheetBorders(sheets[0]) + AllBorders(sheets[1..])
  }

  /** `getUpdateBorderRequests`: as for merges, with the tables' border
      requests; there is one request per border request of a table, and all
      requests of a single sheet carry the id of its name. */
  function BorderRequests(sheets: seq<Layout.SheetData>, ids: map<string, Option<int>>): (bs: seq<Layout.Border>)
    ensures |bs| == |AllBorders(sheets)|
    ensures |sheets| == 1 ==> forall q :: 0 <= q < |bs| ==> bs[q].range.sheetId == SheetIdOf(ids, sheets[0].sheetName)
  {
    if |sheets| == 0 then []
    else
      assert |sheets| == 1 ==> BorderRequests(sheets[1..], ids) == [];
      StampBorders(SheetBorders(sheets[0]), SheetIdOf(ids, sheets[0].sheetName)) + BorderRequests(sheets[1..], ids)
  }

  /** The requests of several sheets are those of each sheet, end to end. */
  lemma {:induction false} BorderRequestsAppend(a: seq<Layout.SheetData>, b: seq<Layout.SheetData>, ids: map<string, Option<int>>)
    ensures BorderRequests(a + b, ids) == BorderRequests(a, ids) + BorderRequests(b, ids)
  {
    if |a| > 0 {
      assert (a + b)[1..] == a[1..] + b;
      BorderRequestsAppend(a[1..], b, ids);
    } else {
      assert a + b == b;
    }
  }

  /** No border request of the sheets names a sheet yet. */
  predicate BordersUnplaced(bs: seq<Layout.Border>) {
    forall q :: 0 <= q < |bs| ==> bs[q].range.sheetId == None
  }

  /** Stamping changes nothing but the sheet id: with the ids taken off
      again, the requests are exactly the tables' border requests, in order,
      each with its rectangle. */
  lemma {:induction false} BorderRequestsOnlyStamp(sheets: seq<Layout.SheetData>, ids: map<string, Option<int>>)
    requires BordersUnplaced(AllBorders(sheets))
    ensures StampBorders(BorderRequests(sheets, ids), None) == AllBorders(sheets)
  {
    if |sheets| > 0 {
      var own := SheetBorders(sheets[0]);
      var stamped := StampBorders(own, SheetIdOf(ids, sheets[0].sheetName));
      BordersUnplacedSplit(own, AllBorders(sheets[1..]));
      BorderRequestsOnlyStamp(sheets[1..], ids);
      StampBordersAppend(stamped, BorderRequests(sheets[1..], ids), None);
      StampBordersTwice(own, SheetIdOf(ids, sheets[0].sheetName));
    }
  }

  lemma BordersUnplacedSplit(a: seq<Layout.Border>, b: seq<Layout.Border>)
    requires BordersUnplaced(a + b)
    ensures BordersUnplaced(a) && BordersUnplaced(b)
  {
    assert forall q :: 0 <= q < |a| ==> a[q] == (a + b)[q];
    assert forall q :: 0 <= q < |b| ==> b[q] == (a + b)[|a| + q];
  }

  lemma StampBordersAppend(a: seq<Layout.Border>, b: seq<Layout.Border>, id: Option<int>)
    ensures StampBorders(a + b, id) == StampBorders(a, id) + StampBorders(b, id)
  {
  }

  /** Stamping unplaced border requests and taking the id off again gives them back. */
  lemma StampBordersTwice(bs: seq<Layout.Border>, id: Option<int>)
    requires BordersUnplaced(bs)
    ensures StampBorders(StampBorders(bs, id), None) == bs
  {
  }

  /** Country sheets carry no border requests, so none are sent. */
  lemma NoBorderRequests(names: seq<string>, rows: seq<Layout.CountryRows>, ids: map<string, Option<int>>)
    requires |names| == |rows|
    ensures BorderRequests(CountrySheets(names, rows), ids) == []
  {
    BorderlessSheets(CountrySheets(names, rows));
  }

  /** No table of the sheets has a border request. */
  predicate Borderless(sheets: seq<Layout.SheetData>) {
    forall i, k :: 0 <= i < |sheets| && 0 <= k < |sheets[i].tables| ==> sheets[i].tables[k].borders == []
  }

  lemma {:induction false} BorderlessSheets(sheets: seq<Layout.SheetData>)
    requires Borderless(sheets)
    ensures AllBorders(sheets) == []
  {
    if |sheets| > 0 {
      var s := sheets[0];
      var parts := seq(|s.tables|, j requires 0 <= j < |s.tables| => s.tables[j].borders);
      NoPartsNoLength(parts);
      BorderlessSheets(sheets[1..]);
    }
  }

  /** The sheets of the countries, one per name. */
  function CountrySheets(names: seq<string>, rows: seq<Layout.CountryRows>): (sheets: seq<Layout.SheetData>)
    requires |names| == |rows|
    ensures |sheets| == |rows|
    ensures forall i :: 0 <= i < |rows| ==> sheets[i] == Layout.SheetLayout(names[i], rows[i])
  {
    seq(|rows|, i requires 0 <= i < |rows| => Layout.SheetLayout(names[i], rows[i]))
  }

  /** Parts that are all empty have total length zero. */
  lemma {:induction false} NoPartsNoLength<T>(xss: seq<seq<T>>)
    requires forall k :: 0 <= k < |xss| ==> |xss[k]| == 0
    ensures SumLengths(xss) == 0
  {
    if |xss| > 0 {
      NoPartsNoLength(xss[1..]);
    }
  }

  // ---------------------------------------------------------------------
  // The whole update

  /** What `updateSheets` sends once the spreadsheet is read: the sheets to
      add, the ids of the sheets by name, the value writes, and the merge
      requests followed by the border requests. */
  datatype Update = Update(
    add: AddSheetsPlan, ids: map<string, Option<int>>,
    values: seq<ValueRange>, merges: seq<Merge>, borders: seq<Layout.Border>)

  function SheetNames(sheets: seq<Layout.SheetData>): (names: seq<string>)
    ensures |names| == |sheets|
    ensures forall i :: 0 <= i < |sheets| ==> names[i] == sheets[i].sheetName
  {
    seq(|sheets|, i requires 0 <= i < |sheets| => sheets[i].sheetName)
  }

  /** `updateSheets`, with the value requests written as evidently
      intended.  The spreadsheet's sheets before the update and the ids the
      API assigns to added sheets are parameters.  After the planned sheets
      are added every sheet name is a title, and each name maps to the id
      of the first sheet with that title, which the merges use. */
  function UpdateSheets(sheets: seq<Layout.SheetData>, before: seq<Sheet>, newIds: seq<int>): (u: Update)
    ensures u.add == SheetsToAdd(SheetNames(sheets), before)
    ensures var after := AfterAdding(before, u.add, newIds);
      && (forall i :: 0 <= i < |sheets| ==> HasTitle(after, sheets[i].sheetName))
      && forall i, j :: 0 <= i < |sheets| && FirstTitled(after, sheets[i].sheetName, j) ==>
        SheetIdOf(u.ids, sheets[i].sheetName) == after[j].sheetId
    ensures u.values == ValueRequests(sheets)
    ensures u.merges == MergeRequests(sheets, u.ids) && u.borders == BorderRequests(sheets, u.ids)
  {
    var names := SheetNames(sheets);
    var plan := SheetsToAdd(names, before);
    var after := AfterAdding(before, plan, newIds);
    AddingCoversEveryName(names, before, newIds);
    var ids := SheetIdByName(names, after);
    assert forall i :: 0 <= i < |sheets| ==> sheets[i].sheetName in ids by {
      forall i | 0 <= i < |sheets|
        ensures sheets[i].sheetName in ids
      {
        assert names[i] == sheets[i].sheetName;
      }
    }
    Update(plan, ids, ValueRequests(sheets), MergeRequests(sheets, ids), BorderRequests(sheets, ids))
  }
}
