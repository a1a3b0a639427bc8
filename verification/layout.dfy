/** The second-generation layout (`src/index.ts`): tables built from the
    reporting API's rows, placed on a sheet as 0-based, half-open areas that
    carry their A1 notation, with two-row headers merged over their spans. */
module Layout {
  import opened Common
  import A1

  /** Rows and columns are 0-based and half-open. */
  datatype Area = Area(row: Span, column: Span, a1Notation: string)

  /** Column index of a letter, the inverse of `IndexToChar`. */
  function CharToIndex(c: char): int {
    c as int - 65
  }

  /** `indexToChar`: 0 is column A and 25 is column Z.  Index -1, the last
      column of an empty area at column A, gives '@'. */
  function IndexToChar(i: int): (c: char)
    requires -1 <= i <= 25
    ensures 0 <= i ==> c == Alphabet[i]
    ensures i == -1 ==> c == '@'
    ensures CharToIndex(c) == i
  {
    (65 + i) as char
  }

  /** The area's columns have letters: it starts at A..Z and ends by Z. */
  predicate FitsLetters(startCol: int, colCount: nat) {
    0 <= startCol <= 25 && startCol + colCount <= 26
  }

  /** `getArea`. */
  function GetArea(startCol: int, startRow: int, colCount: nat, rowCount: nat): (a: Area)
    requires FitsLetters(startCol, colCount)
    ensures a.column.start == startCol && a.column.end - a.column.start == colCount
    ensures a.row.start == startRow && a.row.end - a.row.start == rowCount
  {
    var column := Span(startCol, startCol + colCount);
    var row := Span(startRow, startRow + rowCount);
    Area(row, column, A1.RangeRef(IndexToChar(column.start), row.start + 1, IndexToChar(column.end - 1), row.end))
  }

  function ToRect(a: Area): Rect {
    Rect(a.row.start, a.row.end, a.column.start, a.column.end)
  }

  /** Reads an inclusive, 1-based A1 range back as a 0-based, half-open rectangle. */
  function DecodeA1(s: string): Option<Rect> {
    match A1.ParseRange(s)
    case None => None
    case Some(r) => Some(Rect(r.first.row - 1, r.last.row, CharToIndex(r.first.column), CharToIndex(r.last.column) + 1))
  }

  /** The area's A1 notation reads back as exactly the area's cells, and is
      made of reference characters only. */
  predicate NamedByA1(a: Area) {
    && DecodeA1(a.a1Notation) == Some(ToRect(a))
    && forall i :: 0 <= i < |a.a1Notation| ==> A1.IsRefChar(a.a1Notation[i])
  }

  /** The A1 notation of an area at least one column wide names exactly the
      area's cells: first column letter and first row, through last column
      letter and last row, counted from 1. */
  lemma A1NotationNamesArea(startCol: int, startRow: int, colCount: nat, rowCount: nat)
    requires FitsLetters(startCol, colCount) && colCount >= 1
    ensures NamedByA1(GetArea(startCol, startRow, colCount, rowCount))
  {
    var a := GetArea(startCol, startRow, colCount, rowCount);
    var first, last := IndexToChar(startCol), IndexToChar(startCol + colCount - 1);
    assert a.a1Notation == A1.RangeRef(first, startRow + 1, last, startRow + rowCount);
    assert ToRect(a) == Rect(startRow, startRow + rowCount, CharToIndex(first), CharToIndex(last) + 1);
    RangeRefNamesRect(first, startRow + 1, last, startRow + rowCount);
  }

  /** A range reference from a column letter decodes to the rectangle it
      spells and is made of reference characters. */
  lemma RangeRefNamesRect(first: char, firstRow: int, last: char, lastRow: int)
    requires 'A' <= first <= 'Z' && 'A' <= last <= 'Z'
    ensures var s := A1.RangeRef(first, firstRow, last, lastRow);
      && DecodeA1(s) == Some(Rect(firstRow - 1, lastRow, CharToIndex(first), CharToIndex(last) + 1))
      && forall i :: 0 <= i < |s| ==> A1.IsRefChar(s[i])
  {
    var s := A1.RangeRef(first, firstRow, last, lastRow);
    RangeRefDecodes(first, firstRow, last, lastRow);
    assert forall i :: 0 <= i < |s| ==> A1.IsRefChar(s[i]) by {
      A1.RangeRefChars(first, firstRow, last, lastRow);
    }
  }

  /** The decoding half of `RangeRefNamesRect`. */
  lemma RangeRefDecodes(first: char, firstRow: int, last: char, lastRow: int)
    requires first != ':'
    ensures DecodeA1(A1.RangeRef(first, firstRow, last, lastRow))
      == Some(Rect(firstRow - 1, lastRow, CharToIndex(first), CharToIndex(last) + 1))
  {
    var r := A1.RangeAddress(A1.CellAddress(first, firstRow), A1.CellAddress(last, lastRow));
    A1.RangeRoundTrip(first, firstRow, last, lastRow);
    assert A1.ParseRange(A1.RangeRef(first, firstRow, last, lastRow)) == Some(r);
  }

  // ---------------------------------------------------------------------
  // Tables

  /** Rows of the reporting API; percentages arrive already computed. */
  datatype BasicData = BasicData(qsLabel: string, totalCnt: int, totalComplete: int, totalPercent: real)

  datatype EvData = EvData(
    qsLabel: string, totalCnt: int,
    ownerComplete: int, ownerPercent: real,
    intenderComplete: int, intenderPercent: real)

  datatype MainData = MainData(
    qsLabel: string,
    totalCnt: int, totalComplete: int, totalPercent: real,
    ownerCnt: int, ownerComplete: int, ownerPercent: real,
    intenderCnt: int, intenderComplete: int, intenderPercent: real)

  /** Every row of the grid has `width` cells. */
  predicate Rectangular(t: Grid, width: nat) {
    forall i :: 0 <= i < |t| ==> |t[i]| == width
  }

  /** `getBasicTableRows`: a header, then one row per item. */
  function BasicTableRows(name: string, rows: seq<BasicData>): (t: Grid)
    ensures |t| == 1 + |rows| && Rectangular(t, 5)
    ensures t[0] == [Text(name), Text("Quota"), Text("Achie.(N)"), Text("Achie.(%)"), Text("Remaining")]
    ensures forall i :: 1 <= i < |t| ==>
      var d := rows[i - 1];
      && t[i][0] == Text(d.qsLabel)
      && t[i][1].Num? && t[i][2].Num? && t[i][4].Num?
      && NumAt(t[i], 1) == d.totalCnt && NumAt(t[i], 2) == d.totalComplete
      && t[i][3] == PlainPercent(d.totalPercent)
      && NumAt(t[i], 4) == NumAt(t[i], 1) - NumAt(t[i], 2)
  {
    [[Text(name), Text("Quota"), Text("Achie.(N)"), Text("Achie.(%)"), Text("Remaining")]]
    + seq(|rows|, i requires 0 <= i < |rows| =>
        [Text(rows[i].qsLabel), Num(rows[i].totalCnt), Num(rows[i].totalComplete),
         PlainPercent(rows[i].totalPercent), Num(rows[i].totalCnt - rows[i].totalComplete)])
  }

  /** The top header row of an EV table: the table's name over the label
      column, then the group each column belongs to. */
  function EvTopHeader(name: string): seq<Cell> {
    [Text(name), Text("Total"), Text("Total"), Text("Total"), Text("Total"),
     Text("Owner"), Text("Owner"), Text("Intender"), Text("Intender")]
  }

  function EvDataRow(d: EvData): seq<Cell> {
    var achieved := d.ownerComplete + d.intenderComplete;
    [Text(d.qsLabel), Num(d.totalCnt), Num(achieved), ToPercent(achieved, d.totalCnt), Num(d.totalCnt - achieved),
     Num(d.ownerComplete), PlainPercent(d.ownerPercent), Num(d.intenderComplete), PlainPercent(d.intenderPercent)]
  }

  /** `getEvTableRows`: a two-row header, then one row per item whose total
      achieved count adds the owner and intender counts. */
  function EvTableRows(name: string, rows: seq<EvData>): (t: Grid)
    ensures |t| == 2 + |rows| && Rectangular(t, 9)
    ensures t[0] == EvTopHeader(name)
    ensures t[1] == [Text(name), Text("Quota"), Text("Achie.(N)"), Text("Achie.(%)"), Text("Remaining"),
                     Text("Achie.(N)"), Text("Achie.(%)"), Text("Achie.(N)"), Text("Achie.(%)")]
    ensures forall i :: 2 <= i < |t| ==>
      var d := rows[i - 2];
      && t[i][0] == Text(d.qsLabel)
      && t[i][1].Num? && t[i][2].Num? && t[i][4].Num? && t[i][5].Num? && t[i][7].Num?
      && NumAt(t[i], 1) == d.totalCnt
      && NumAt(t[i], 5) == d.ownerComplete && NumAt(t[i], 7) == d.intenderComplete
      && NumAt(t[i], 2) == NumAt(t[i], 5) + NumAt(t[i], 7)
      && t[i][3] == ToPercent(NumAt(t[i], 2), NumAt(t[i], 1))
      && NumAt(t[i], 4) == NumAt(t[i], 1) - NumAt(t[i], 2)
      && t[i][6] == PlainPercent(d.ownerPercent) && t[i][8] == PlainPercent(d.intenderPercent)
  {
    [EvTopHeader(name),
     [Text(name), Text("Quota"), Text("Achie.(N)"), Text("Achie.(%)"), Text("Remaining"),
      Text("Achie.(N)"), Text("Achie.(%)"), Text("Achie.(N)"), Text("Achie.(%)")]]
    + seq(|rows|, i requires 0 <= i < |rows| => EvDataRow(rows[i]))
  }

  /** The top header row of a main table. */
  function MainTopHeader(name: string): seq<Cell> {
    [Text(name), Text("Total"), Text("Total"), Text("Total"), Text("Total"),
     Text("Owner"), Text("Owner"), Text("Owner"), Text("Owner"),
     Text("Intender"), Text("Intender"), Text("Intender"), Text("Intender")]
  }

  /** The group of four cells at `g` holds numbers in its quota, achieved
      and remaining cells, and remaining is quota less achieved. */
  predicate RemainingIsQuotaLessAchieved(row: seq<Cell>, g: nat) {
    && g + 3 < |row|
    && row[g].Num? && row[g + 1].Num? && row[g + 3].Num?
    && NumAt(row, g + 3) == NumAt(row, g) - NumAt(row, g + 1)
  }

  function MainDataRow(d: MainData): seq<Cell> {
    [Text(d.qsLabel),
     Num(d.totalCnt), Num(d.totalComplete), PlainPercent(d.totalPercent), Num(d.totalCnt - d.totalComplete),
     Num(d.ownerCnt), Num(d.ownerComplete), PlainPercent(d.ownerPercent), Num(d.ownerCnt - d.ownerComplete),
     Num(d.intenderCnt), Num(d.intenderComplete), PlainPercent(d.intenderPercent), Num(d.intenderCnt - d.intenderComplete)]
  }

  /** `getMainTableRows`: a two-row header over total, owner and intender
      groups of quota, achieved, percentage and remaining, then one row per
      item. */
  function MainTableRows(name: string, rows: seq<MainData>): (t: Grid)
    ensures |t| == 2 + |rows| && Rectangular(t, 13)
    ensures t[0] == MainTopHeader(name)
    ensures t[1] == [Text(name), Text("Quota"), Text("Achie.(N)"), Text("Achie.(%)"), Text("Remaining"),
                     Text("Quota"), Text("Achie.(N)"), Text("Achie.(%)"), Text("Remaining"),
                     Text("Quota"), Text("Achie.(N)"), Text("Achie.(%)"), Text("Remaining")]
    ensures forall i :: 2 <= i < |t| ==>
      var d := rows[i - 2];
      && t[i][0] == Text(d.qsLabel)
      && NumAt(t[i], 1) == d.totalCnt && NumAt(t[i], 2) == d.totalComplete
      && NumAt(t[i], 5) == d.ownerCnt && NumAt(t[i], 6) == d.ownerComplete
      && NumAt(t[i], 9) == d.intenderCnt && NumAt(t[i], 10) == d.intenderComplete
      && t[i][3] == PlainPercent(d.totalPercent) && t[i][7] == PlainPercent(d.ownerPercent)
      && t[i][11] == PlainPercent(d.intenderPercent)
      && RemainingIsQuotaLessAchieved(t[i], 1)
      && RemainingIsQuotaLessAchieved(t[i], 5)
      && RemainingIsQuotaLessAchieved(t[i], 9)
  {
    [MainTopHeader(name),
     [Text(name), Text("Quota"), Text("Achie.(N)"), Text("Achie.(%)"), Text("Remaining"),
      Text("Quota"), Text("Achie.(N)"), Text("Achie.(%)"), Text("Remaining"),
      Text("Quota"), Text("Achie.(N)"), Text("Achie.(%)"), Text("Remaining")]]
    + seq(|rows|, i requires 0 <= i < |rows| => MainDataRow(rows[i]))
  }

  // ---------------------------------------------------------------------
  // Header merges

  /** `getEvMergeRequests`: the label column over both header rows, then the
      Total, Owner and Intender spans of the top row. */
  function EvMerges(a: Area): seq<Merge> {
    var s := a.column.start;
    var r := a.row.start;
    [ Merge(MergeColumns, GridRange(None, Rect(r, r + 2, s, s + 1))),
      Merge(MergeRows, GridRange(None, Rect(r, r + 1, s + 1, s + 5))),
      Merge(MergeRows, GridRange(None, Rect(r, r + 1, s + 5, s + 7))),
      Merge(MergeRows, GridRange(None, Rect(r, r + 1, s + 7, s + 9))) ]
  }

  /** `getMainMergeRequests`: as for EV tables, with four-column spans. */
  function MainMerges(a: Area): seq<Merge> {
    var s := a.column.start;
    var r := a.row.start;
    [ Merge(MergeColumns, GridRange(None, Rect(r, r + 2, s, s + 1))),
      Merge(MergeRows, GridRange(None, Rect(r, r + 1, s + 1, s + 5))),
      Merge(MergeRows, GridRange(None, Rect(r, r + 1, s + 5, s + 9))),
      Merge(MergeRows, GridRange(None, Rect(r, r + 1, s + 9, s + 13))) ]
  }

  function MergeRects(ms: seq<Merge>): (rs: seq<Rect>)
    ensures |rs| == |ms|
    ensures forall k :: 0 <= k < |ms| ==> rs[k] == ms[k].range.rect
  {
    seq(|ms|, k requires 0 <= k < |ms| => ms[k].range.rect)
  }

  /** Every merge lies inside the area, is not empty, and names no sheet yet. */
  predicate MergesInside(a: Area, ms: seq<Merge>) {
    forall k :: 0 <= k < |ms| ==>
      ms[k].range.sheetId == None && ms[k].range.rect.Within(ToRect(a)) && !ms[k].range.rect.IsEmpty()
  }

  /** The merges of a two-row header: first the label column over both header
      rows, then runs of the top row that cover the rest of it left to right,
      end to end. */
  predicate TwoRowHeaderMerges(a: Area, ms: seq<Merge>) {
    var s := a.column.start;
    var r := a.row.start;
    && |ms| >= 2
    && ms[0] == Merge(MergeColumns, GridRange(None, Rect(r, r + 2, s, s + 1)))
    && (forall k :: 1 <= k < |ms| ==>
          ms[k].mergeType == MergeRows && ms[k].range.rect.rowStart == r && ms[k].range.rect.rowEnd == r + 1)
    && ms[1].range.rect.colStart == s + 1
    && (forall k :: 1 <= k < |ms| - 1 ==> ms[k].range.rect.colEnd == ms[k + 1].range.rect.colStart)
    && ms[|ms| - 1].range.rect.colEnd == a.column.end
  }

  /** Each run of the top row (every merge after the first) covers cells that
      all hold the run's label, and no two runs have the same label; `top` is
      the header row of a table whose first column is `s`. */
  predicate RunsMatchLabels(top: seq<Cell>, s: int, ms: seq<Merge>) {
    && (forall k :: 1 <= k < |ms| ==>
          s <= ms[k].range.rect.colStart < ms[k].range.rect.colEnd <= s + |top|)
    && (forall k, j :: 1 <= k < |ms| && ms[k].range.rect.colStart - s <= j < ms[k].range.rect.colEnd - s ==>
          top[j] == top[ms[k].range.rect.colStart - s])
    && (forall k, k' :: 1 <= k < k' < |ms| ==>
          top[ms[k].range.rect.colStart - s] != top[ms[k'].range.rect.colStart - s])
  }

  /** The merges of a table with a two-row header fit that header: they lie
      inside the table's area and share no cell; the label column is merged
      over both header rows, which hold the same label; the runs of the top
      row cover it and match its labels. */
  predicate HeaderMergesFit(t: Grid, a: Area, ms: seq<Merge>) {
    && |t| >= 2 && a.column.end > a.column.start
    && Rectangular(t, a.column.end - a.column.start)
    && a.row.end - a.row.start == |t|
    && MergesInside(a, ms)
    && PairwiseDisjoint(MergeRects(ms))
    && TwoRowHeaderMerges(a, ms)
    && t[0][0] == t[1][0]
    && RunsMatchLabels(t[0], a.column.start, ms)
  }

  /** Where the EV merges sit in an area nine columns wide and at least two rows tall. */
  lemma EvMergesPlacement(a: Area)
    requires a.column.end - a.column.start == 9 && a.row.end - a.row.start >= 2
    ensures MergesInside(a, EvMerges(a))
    ensures PairwiseDisjoint(MergeRects(EvMerges(a)))
    ensures TwoRowHeaderMerges(a, EvMerges(a))
  {
  }

  lemma EvRunsMatchLabels(name: string, s: int, a: Area)
    requires a.column.start == s
    ensures RunsMatchLabels(EvTopHeader(name), s, EvMerges(a))
  {
    EvTopHeaderRuns(name);
    ThreeRunsMatchLabels(EvTopHeader(name), s, EvMerges(a), 1, 5, 7, 9, Text("Total"), Text("Owner"), Text("Intender"));
  }

  /** The EV header's top row holds a run of four labels, then two runs of two. */
  lemma EvTopHeaderRuns(name: string)
    ensures forall j :: 1 <= j < 5 ==> EvTopHeader(name)[j] == Text("Total")
    ensures forall j :: 5 <= j < 7 ==> EvTopHeader(name)[j] == Text("Owner")
    ensures forall j :: 7 <= j < 9 ==> EvTopHeader(name)[j] == Text("Intender")
  {
    var top := EvTopHeader(name);
    forall j | 1 <= j < 9
      ensures top[j] == if j < 5 then Text("Total") else if j < 7 then Text("Owner") else Text("Intender")
    {
      assert j in {1, 2, 3, 4, 5, 6, 7, 8};
    }
  }

  /** The EV merges fit the EV table's header wherever an area of its size is placed. */
  lemma EvMergesFitHeader(name: string, rows: seq<EvData>, a: Area)
    requires Sized(a, EvTableRows(name, rows))
    ensures HeaderMergesFit(EvTableRows(name, rows), a, EvMerges(a))
  {
    EvMergesPlacement(a);
    EvRunsMatchLabels(name, a.column.start, a);
  }

  /** Where the main-table merges sit in an area thirteen columns wide and at least two rows tall. */
  lemma MainMergesPlacement(a: Area)
    requires a.column.end - a.column.start == 13 && a.row.end - a.row.start >= 2
    ensures MergesInside(a, MainMerges(a))
    ensures PairwiseDisjoint(MergeRects(MainMerges(a)))
    ensures TwoRowHeaderMerges(a, MainMerges(a))
  {
  }

  lemma MainRunsMatchLabels(name: string, s: int, a: Area)
    requires a.column.start == s
    ensures RunsMatchLabels(MainTopHeader(name), s, MainMerges(a))
  {
    MainTopHeaderRuns(name);
    ThreeRunsMatchLabels(MainTopHeader(name), s, MainMerges(a), 1, 5, 9, 13, Text("Total"), Text("Owner"), Text("Intender"));
  }

  /** The main header's top row holds three runs of four equal labels. */
  lemma MainTopHeaderRuns(name: string)
    ensures forall j :: 1 <= j < 5 ==> MainTopHeader(name)[j] == Text("Total")
    ensures forall j :: 5 <= j < 9 ==> MainTopHeader(name)[j] == Text("Owner")
    ensures forall j :: 9 <= j < 13 ==> MainTopHeader(name)[j] == Text("Intender")
  {
    var top := MainTopHeader(name);
    forall j | 1 <= j < 13
      ensures top[j] == if j < 5 then Text("Total") else if j < 9 then Text("Owner") else Text("Intender")
    {
      assert j in {1, 2, 3, 4, 5, 6, 7, 8, 9, 10, 11, 12};
    }
  }

  /** Three runs after the label column, over columns `[b1, b2)`, `[b2, b3)`
      and `[b3, b4)` of a header whose cells there hold three distinct
      labels, match those labels. */
  lemma ThreeRunsMatchLabels(top: seq<Cell>, s: int, ms: seq<Merge>, b1: int, b2: int, b3: int, b4: int, l1: Cell, l2: Cell, l3: Cell)
    requires |ms| == 4 && 0 <= b1 < b2 < b3 < b4 <= |top|
    requires ms[1].range.rect.colStart == s + b1 && ms[1].range.rect.colEnd == s + b2
    requires ms[2].range.rect.colStart == s + b2 && ms[2].range.rect.colEnd == s + b3
    requires ms[3].range.rect.colStart == s + b3 && ms[3].range.rect.colEnd == s + b4
    requires forall j :: b1 <= j < b2 ==> top[j] == l1
    requires forall j :: b2 <= j < b3 ==> top[j] == l2
    requires forall j :: b3 <= j < b4 ==> top[j] == l3
    requires l1 != l2 && l1 != l3 && l2 != l3
    ensures RunsMatchLabels(top, s, ms)
  {
    forall k, j | 1 <= k < |ms| && ms[k].range.rect.colStart - s <= j < ms[k].range.rect.colEnd - s
      ensures top[j] == top[ms[k].range.rect.colStart - s]
    {
      if k == 1 {
        assert top[j] == l1;
      } else if k == 2 {
        assert top[j] == l2;
      } else {
        assert top[j] == l3;
      }
    }
    forall k | 1 <= k < |ms|
      ensures s <= ms[k].range.rect.colStart < ms[k].range.rect.colEnd <= s + |top|
      ensures top[ms[k].range.rect.colStart - s] == if k == 1 then l1 else if k == 2 then l2 else l3
    {
      if k == 1 {
        assert top[b1] == l1;
      } else if k == 2 {
        assert top[b2] == l2;
      } else {
        assert top[b3] == l3;
      }
    }
  }

  /** The main-table merges fit the main table's header wherever an area of its size is placed. */
  lemma MainMergesFitHeader(name: string, rows: seq<MainData>, a: Area)
    requires Sized(a, MainTableRows(name, rows))
    ensures HeaderMergesFit(MainTableRows(name, rows), a, MainMerges(a))
  {
    MainMergesPlacement(a);
    MainRunsMatchLabels(name, a.column.start, a);
  }

  // ---------------------------------------------------------------------
  // The area chain of one sheet

  /** `rows[0]?.length ?? 0`. */
  function ColumnCount(rows: Grid): nat {
    if |rows| == 0 then 0 else |rows[0]|
  }

  datatype SheetTables = SheetTables(
    gender: Grid, age: Grid, region: Grid, tesla: Grid, ev: Grid,
    brand: Grid, segment: Grid, engine: Grid)

  datatype SheetAreas = SheetAreas(
    gender: Area, age: Area, region: Area, tesla: Area, ev: Area,
    brand: Area, segment: Area, engine: Area)

  /** Every area of the chain has column letters. */
  predicate ChainFits(t: SheetTables) {
    var g := ColumnCount(t.gender);
    && g <= 24
    && ColumnCount(t.age) <= 26 && ColumnCount(t.region) <= 26
    && g + 1 + ColumnCount(t.tesla) <= 26 && g + 1 + ColumnCount(t.ev) <= 26
    && ColumnCount(t.brand) <= 26 && ColumnCount(t.segment) <= 26 && ColumnCount(t.engine) <= 26
  }

  /** The area has as many rows as the table and as many columns as its first row. */
  predicate Sized(a: Area, rows: Grid) {
    a.row.end - a.row.start == |rows| && a.column.end - a.column.start == ColumnCount(rows)
  }

  /** The area of a table with its top-left cell at the given position. */
  function Place(startCol: int, startRow: int, rows: Grid): (a: Area)
    requires FitsLetters(startCol, ColumnCount(rows))
    ensures a.column.start == startCol && a.row.start == startRow && Sized(a, rows)
  {
    GetArea(startCol, startRow, ColumnCount(rows), |rows|)
  }

  /** A placed table with a non-empty first row is named by its A1 notation. */
  lemma PlaceNamedByA1(startCol: int, startRow: int, rows: Grid)
    requires FitsLetters(startCol, ColumnCount(rows)) && ColumnCount(rows) >= 1
    ensures NamedByA1(Place(startCol, startRow, rows))
  {
    A1NotationNamesArea(startCol, startRow, ColumnCount(rows), |rows|);
  }

  /** Every area of the chain whose table has a non-empty first row is named by its A1 notation. */
  predicate ChainNamedByA1(t: SheetTables, s: SheetAreas) {
    && (ColumnCount(t.gender) >= 1 ==> NamedByA1(s.gender))
    && (ColumnCount(t.age) >= 1 ==> NamedByA1(s.age))
    && (ColumnCount(t.region) >= 1 ==> NamedByA1(s.region))
    && (ColumnCount(t.tesla) >= 1 ==> NamedByA1(s.tesla))
    && (ColumnCount(t.ev) >= 1 ==> NamedByA1(s.ev))
    && (ColumnCount(t.brand) >= 1 ==> NamedByA1(s.brand))
    && (ColumnCount(t.segment) >= 1 ==> NamedByA1(s.segment))
    && (ColumnCount(t.engine) >= 1 ==> NamedByA1(s.engine))
  }

  function Max(a: int, b: int): int {
    if a < b then b else a
  }

  /** Every area is sized to its table. */
  predicate ChainSized(t: SheetTables, s: SheetAreas) {
    && Sized(s.gender, t.gender) && Sized(s.age, t.age) && Sized(s.region, t.region)
    && Sized(s.tesla, t.tesla) && Sized(s.ev, t.ev)
    && Sized(s.brand, t.brand) && Sized(s.segment, t.segment) && Sized(s.engine, t.engine)
  }

  /** The area chain of `main`: gender, age and region down column A; Tesla
      and EV down the band one blank column right of gender; the three main
      tables down column A below both bands; one blank row between
      neighbours. */
  function ChainAreas(t: SheetTables): (s: SheetAreas)
    requires ChainFits(t)
    ensures s.gender.row.start == 0 && s.gender.column.start == 0
    ensures s.age.row.start == s.gender.row.end + 1 && s.age.column.start == 0
    ensures s.region.row.start == s.age.row.end + 1 && s.region.column.start == 0
    ensures s.tesla.row.start == 0 && s.tesla.column.start == s.gender.column.end + 1
    ensures s.ev.row.start == s.tesla.row.end + 1 && s.ev.column.start == s.tesla.column.start
    ensures s.brand.row.start == Max(s.region.row.end, s.ev.row.end) + 1 && s.brand.column.start == 0
    ensures s.segment.row.start == s.brand.row.end + 1 && s.segment.column.start == 0
    ensures s.engine.row.start == s.segment.row.end + 1 && s.engine.column.start == 0
    ensures ChainSized(t, s)
  {
    var ageRow := |t.gender| + 1;
    var regionRow := ageRow + |t.age| + 1;
    var bandCol := ColumnCount(t.gender) + 1;
    var evRow := |t.tesla| + 1;
    var brandRow := Max(regionRow + |t.region|, evRow + |t.ev|) + 1;
    var segmentRow := brandRow + |t.brand| + 1;
    var engineRow := segmentRow + |t.segment| + 1;
    SheetAreas(
      Place(0, 0, t.gender), Place(0, ageRow, t.age), Place(0, regionRow, t.region),
      Place(bandCol, 0, t.tesla), Place(bandCol, evRow, t.ev),
      Place(0, brandRow, t.brand), Place(0, segmentRow, t.segment), Place(0, engineRow, t.engine))
  }

  /** Every area of the chain is named by its A1 notation when its table has
      a non-empty first row. */
  lemma ChainAreasNamedByA1(t: SheetTables)
    requires ChainFits(t)
    ensures ChainNamedByA1(t, ChainAreas(t))
  {
    BasicAreasNamedByA1(t);
    EvAreasNamedByA1(t);
    MainAreasNamedByA1(t);
  }

  /** Each area of the chain is its table placed at the area's first cell. */
  lemma BasicAreasArePlaced(t: SheetTables)
    requires ChainFits(t)
    ensures var s := ChainAreas(t);
      && s.gender == Place(0, 0, t.gender) && s.age == Place(0, s.age.row.start, t.age)
      && s.region == Place(0, s.region.row.start, t.region)
  {
  }

  lemma EvAreasArePlaced(t: SheetTables)
    requires ChainFits(t)
    ensures var s := ChainAreas(t);
      && s.tesla == Place(s.tesla.column.start, 0, t.tesla) && s.ev == Place(s.ev.column.start, s.ev.row.start, t.ev)
  {
  }

  lemma MainAreasArePlaced(t: SheetTables)
    requires ChainFits(t)
    ensures var s := ChainAreas(t);
      && s.brand == Place(0, s.brand.row.start, t.brand) && s.segment == Place(0, s.segment.row.start, t.segment)
      && s.engine == Place(0, s.engine.row.start, t.engine)
  {
  }

  lemma BasicAreasNamedByA1(t: SheetTables)
    requires ChainFits(t)
    ensures var s := ChainAreas(t);
      && (ColumnCount(t.gender) >= 1 ==> NamedByA1(s.gender))
      && (ColumnCount(t.age) >= 1 ==> NamedByA1(s.age))
      && (ColumnCount(t.region) >= 1 ==> NamedByA1(s.region))
  {
    var s := ChainAreas(t);
    BasicAreasArePlaced(t);
    if ColumnCount(t.gender) >= 1 { PlaceNamedByA1(0, s.gender.row.start, t.gender); }
    if ColumnCount(t.age) >= 1 { PlaceNamedByA1(0, s.age.row.start, t.age); }
    if ColumnCount(t.region) >= 1 { PlaceNamedByA1(0, s.region.row.start, t.region); }
  }

  lemma EvAreasNamedByA1(t: SheetTables)
    requires ChainFits(t)
    ensures var s := ChainAreas(t);
      && (ColumnCount(t.tesla) >= 1 ==> NamedByA1(s.tesla))
      && (ColumnCount(t.ev) >= 1 ==> NamedByA1(s.ev))
  {
    var s := ChainAreas(t);
    EvAreasArePlaced(t);
    if ColumnCount(t.tesla) >= 1 { PlaceNamedByA1(s.tesla.column.start, s.tesla.row.start, t.tesla); }
    if ColumnCount(t.ev) >= 1 { PlaceNamedByA1(s.ev.column.start, s.ev.row.start, t.ev); }
  }

  lemma MainAreasNamedByA1(t: SheetTables)
    requires ChainFits(t)
    ensures var s := ChainAreas(t);
      && (ColumnCount(t.brand) >= 1 ==> NamedByA1(s.brand))
      && (ColumnCount(t.segment) >= 1 ==> NamedByA1(s.segment))
      && (ColumnCount(t.engine) >= 1 ==> NamedByA1(s.engine))
  {
    var s := ChainAreas(t);
    MainAreasArePlaced(t);
    if ColumnCount(t.brand) >= 1 { PlaceNamedByA1(0, s.brand.row.start, t.brand); }
    if ColumnCount(t.segment) >= 1 { PlaceNamedByA1(0, s.segment.row.start, t.segment); }
    if ColumnCount(t.engine) >= 1 { PlaceNamedByA1(0, s.engine.row.start, t.engine); }
  }

  /** The rectangles of the areas, in the order the sheet lists its tables. */
  function ChainRects(s: SheetAreas): seq<Rect> {
    [ToRect(s.gender), ToRect(s.age), ToRect(s.region), ToRect(s.brand), ToRect(s.segment), ToRect(s.engine),
     ToRect(s.tesla), ToRect(s.ev)]
  }

  /** When age and region are no wider than gender plus the blank column, no
      two areas of the chain share a cell, whatever the row counts. */
  lemma ChainAreasDisjoint(t: SheetTables)
    requires ChainFits(t)
    requires ColumnCount(t.age) <= ColumnCount(t.gender) + 1
    requires ColumnCount(t.region) <= ColumnCount(t.gender) + 1
    ensures PairwiseDisjoint(ChainRects(ChainAreas(t)))
  {
    var s := ChainAreas(t);
    BandsDisjoint(ToRect(s.gender), ToRect(s.age), ToRect(s.region), ToRect(s.brand), ToRect(s.segment),
                  ToRect(s.engine), ToRect(s.tesla), ToRect(s.ev));
  }

  /** Three rectangles stacked down one band, two stacked down a band to its
      right, and three more stacked below both, share no cell. */
  lemma BandsDisjoint(g: Rect, a: Rect, r: Rect, b: Rect, sg: Rect, en: Rect, te: Rect, ev: Rect)
    requires g.rowEnd < a.rowStart <= a.rowEnd < r.rowStart <= r.rowEnd < b.rowStart
    requires b.rowStart <= b.rowEnd < sg.rowStart <= sg.rowEnd < en.rowStart
    requires te.rowEnd < ev.rowStart <= ev.rowEnd < b.rowStart
    requires g.colEnd <= te.colStart && a.colEnd <= te.colStart && r.colEnd <= te.colStart
    requires ev.colStart == te.colStart
    ensures PairwiseDisjoint([g, a, r, b, sg, en, te, ev])
  {
    PairwiseDisjointCons(te, [ev]);
    PairwiseDisjointCons(en, [te, ev]);
    PairwiseDisjointCons(sg, [en, te, ev]);
    PairwiseDisjointCons(b, [sg, en, te, ev]);
    PairwiseDisjointCons(r, [b, sg, en, te, ev]);
    PairwiseDisjointCons(a, [r, b, sg, en, te, ev]);
    PairwiseDisjointCons(g, [a, r, b, sg, en, te, ev]);
    assert [g] + [a, r, b, sg, en, te, ev] == [g, a, r, b, sg, en, te, ev];
  }

  /** A rectangle disjoint from each of a pairwise disjoint sequence can be put in front of it. */
  lemma PairwiseDisjointCons(x: Rect, rs: seq<Rect>)
    requires PairwiseDisjoint(rs)
    requires forall k :: 0 <= k < |rs| ==> Disjoint(x, rs[k])
    ensures PairwiseDisjoint([x] + rs)
  {
    var xs := [x] + rs;
    forall i, j | 0 <= i < j < |xs|
      ensures Disjoint(xs[i], xs[j])
    {
      if i > 0 {
        assert xs[i] == rs[i - 1] && xs[j] == rs[j - 1];
      } else {
        assert xs[j] == rs[j - 1];
      }
    }
  }

  // ---------------------------------------------------------------------
  // The sheet

  /** An update-borders request; its border styles are not modelled. */
  datatype Border = Border(range: GridRange)

  datatype TableData = TableData(area: Area, rows: Grid, merges: seq<Merge>, borders: seq<Border>)

  datatype SheetData = SheetData(sheetName: string, tables: seq<TableData>)

  /** The rectangles of the tables' areas, in order. */
  function TableRects(ts: seq<TableData>): (rs: seq<Rect>)
    ensures |rs| == |ts|
    ensures forall k :: 0 <= k < |ts| ==> rs[k] == ToRect(ts[k].area)
  {
    seq(|ts|, k requires 0 <= k < |ts| => ToRect(ts[k].area))
  }

  /** The API rows of one country. */
  datatype CountryRows = CountryRows(
    gender: seq<BasicData>, age: seq<BasicData>, region: seq<BasicData>,
    tesla: seq<EvData>, ev: seq<EvData>,
    brand: seq<MainData>, segment: seq<MainData>, engine: seq<MainData>)

  function CountryTables(d: CountryRows): (t: SheetTables)
    ensures ChainFits(t)
    ensures ColumnCount(t.gender) == 5 && ColumnCount(t.age) == 5 && ColumnCount(t.region) == 5
    ensures ColumnCount(t.tesla) == 9 && ColumnCount(t.ev) == 9
    ensures ColumnCount(t.brand) == 13 && ColumnCount(t.segment) == 13 && ColumnCount(t.engine) == 13
    ensures t.gender == BasicTableRows("Gender", d.gender) && t.age == BasicTableRows("Age", d.age)
    ensures t.region == BasicTableRows("Region", d.region)
    ensures t.tesla == EvTableRows("Tesla Count", d.tesla) && t.ev == EvTableRows("EV Count", d.ev)
    ensures t.brand == MainTableRows("Main - Brand", d.brand)
    ensures t.segment == MainTableRows("Main - Segment", d.segment)
    ensures t.engine == MainTableRows("Main - Engine", d.engine)
  {
    SheetTables(
      BasicTableRows("Gender", d.gender), BasicTableRows("Age", d.age), BasicTableRows("Region", d.region),
      EvTableRows("Tesla Count", d.tesla), EvTableRows("EV Count", d.ev),
      MainTableRows("Main - Brand", d.brand), MainTableRows("Main - Segment", d.segment),
      MainTableRows("Main - Engine", d.engine))
  }

  /** The sheet of one country as `main` assembles it: the eight tables in
      the order gender, age, region, the three main tables, Tesla and EV,
      each at its area of the chain and sized to its rows; the main and EV
      tables carry the merges of their headers, the basic tables none, and
      no table carries border requests. */
  function SheetLayout(sheetName: string, d: CountryRows): (s: SheetData)
    ensures s.sheetName == sheetName && |s.tables| == 8
    ensures forall k :: 0 <= k < 8 ==> s.tables[k].borders == [] && Sized(s.tables[k].area, s.tables[k].rows)
    ensures forall k :: 0 <= k < 3 ==> s.tables[k].merges == []
    ensures s.tables[0].rows == BasicTableRows("Gender", d.gender)
    ensures s.tables[1].rows == BasicTableRows("Age", d.age)
    ensures s.tables[2].rows == BasicTableRows("Region", d.region)
    ensures s.tables[3].rows == MainTableRows("Main - Brand", d.brand)
    ensures s.tables[4].rows == MainTableRows("Main - Segment", d.segment)
    ensures s.tables[5].rows == MainTableRows("Main - Engine", d.engine)
    ensures s.tables[6].rows == EvTableRows("Tesla Count", d.tesla)
    ensures s.tables[7].rows == EvTableRows("EV Count", d.ev)
    ensures AtAreas(s.tables, ChainAreas(CountryTables(d)))
    ensures HeaderMergesOfAreas(s.tables)
  {
    var t := CountryTables(d);
    var a := ChainAreas(t);
    SheetData(sheetName, SheetTablesAt(t, a))
  }

  /** Eight tables sit at the areas, in the sheet's order: gender, age,
      region, brand, segment, engine, Tesla, EV. */
  predicate AtAreas(ts: seq<TableData>, a: SheetAreas) {
    && |ts| == 8
    && ts[0].area == a.gender && ts[1].area == a.age && ts[2].area == a.region
    && ts[3].area == a.brand && ts[4].area == a.segment && ts[5].area == a.engine
    && ts[6].area == a.tesla && ts[7].area == a.ev
  }

  /** The three main tables carry the main merges of their areas, and the
      Tesla and EV tables the EV merges of theirs. */
  predicate HeaderMergesOfAreas(ts: seq<TableData>) {
    && |ts| == 8
    && (forall k :: 3 <= k < 6 ==> ts[k].merges == MainMerges(ts[k].area))
    && (forall k :: 6 <= k < 8 ==> ts[k].merges == EvMerges(ts[k].area))
  }

  /** The tables of a sheet in its order, each at its area of the chain. */
  function SheetTablesAt(t: SheetTables, a: SheetAreas): (ts: seq<TableData>)
    ensures |ts| == 8
    ensures forall k :: 0 <= k < 8 ==> ts[k].borders == []
    ensures forall k :: 0 <= k < 3 ==> ts[k].merges == []
    ensures ts[0].rows == t.gender && ts[1].rows == t.age && ts[2].rows == t.region
    ensures ts[3].rows == t.brand && ts[4].rows == t.segment && ts[5].rows == t.engine
    ensures ts[6].rows == t.tesla && ts[7].rows == t.ev
    ensures AtAreas(ts, a) && HeaderMergesOfAreas(ts)
    ensures ts[3].merges == MainMerges(a.brand) && ts[4].merges == MainMerges(a.segment)
    ensures ts[5].merges == MainMerges(a.engine)
    ensures ts[6].merges == EvMerges(a.tesla) && ts[7].merges == EvMerges(a.ev)
    ensures ChainSized(t, a) ==> forall k :: 0 <= k < 8 ==> Sized(ts[k].area, ts[k].rows)
  {
    [ TableData(a.gender, t.gender, [], []),
      TableData(a.age, t.age, [], []),
      TableData(a.region, t.region, [], []),
      TableData(a.brand, t.brand, MainMerges(a.brand), []),
      TableData(a.segment, t.segment, MainMerges(a.segment), []),
      TableData(a.engine, t.engine, MainMerges(a.engine), []),
      TableData(a.tesla, t.tesla, EvMerges(a.tesla), []),
      TableData(a.ev, t.ev, EvMerges(a.ev), []) ]
  }

  /** No two tables of a country's sheet share a cell. */
  lemma SheetTablesDisjoint(sheetName: string, d: CountryRows)
    ensures PairwiseDisjoint(TableRects(SheetLayout(sheetName, d).tables))
  {
    var t := CountryTables(d);
    var a := ChainAreas(t);
    ChainAreasDisjoint(t);
    SheetTablesAtRects(t, a);
  }

  /** The tables of a sheet sit at the chain's rectangles, in the sheet's order. */
  lemma SheetTablesAtRects(t: SheetTables, a: SheetAreas)
    ensures TableRects(SheetTablesAt(t, a)) == ChainRects(a)
  {
    var rs, cs := TableRects(SheetTablesAt(t, a)), ChainRects(a);
    forall k | 0 <= k < 8
      ensures rs[k] == cs[k]
    {
      assert k in {0, 1, 2, 3, 4, 5, 6, 7};
    }
  }

  /** Every table of a country's sheet is named by its area's A1 notation. */
  lemma SheetAreasNamedByA1(sheetName: string, d: CountryRows)
    ensures var s := SheetLayout(sheetName, d);
      forall k :: 0 <= k < |s.tables| ==> NamedByA1(s.tables[k].area)
  {
    var t := CountryTables(d);
    var a := ChainAreas(t);
    ChainAreasNamedByA1(t);
    var ts := SheetTablesAt(t, a);
    assert SheetLayout(sheetName, d).tables == ts;
    forall k | 0 <= k < 8
      ensures NamedByA1(ts[k].area)
    {
      assert k == 0 || k == 1 || k == 2 || k == 3 || k == 4 || k == 5 || k == 6 || k == 7;
    }
  }

  /** Every EV and main table of a country's sheet carries merges that fit
      its two-row header. */
  lemma SheetMergesFitHeaders(sheetName: string, d: CountryRows)
    ensures var s := SheetLayout(sheetName, d);
      forall k :: 3 <= k < 8 ==> HeaderMergesFit(s.tables[k].rows, s.tables[k].area, s.tables[k].merges)
  {
    var t := CountryTables(d);
    var a := ChainAreas(t);
    var ts := SheetTablesAt(t, a);
    MainMergesFitHeader("Main - Brand", d.brand, a.brand);
    MainMergesFitHeader("Main - Segment", d.segment, a.segment);
    MainMergesFitHeader("Main - Engine", d.engine, a.engine);
    EvMergesFitHeader("Tesla Count", d.tesla, a.tesla);
    EvMergesFitHeader("EV Count", d.ev, a.ev);
    assert HeaderMergesFit(ts[3].rows, ts[3].area, ts[3].merges);
    assert HeaderMergesFit(ts[4].rows, ts[4].area, ts[4].merges);
    assert HeaderMergesFit(ts[5].rows, ts[5].area, ts[5].merges);
    assert HeaderMergesFit(ts[6].rows, ts[6].area, ts[6].merges);
    assert HeaderMergesFit(ts[7].rows, ts[7].area, ts[7].merges);
    assert SheetLayout(sheetName, d).tables == ts;
    forall k | 3 <= k < 8
      ensures HeaderMergesFit(ts[k].rows, ts[k].area, ts[k].merges)
    {
      assert k == 3 || k == 4 || k == 5 || k == 6 || k == 7;
    }
  }
}
