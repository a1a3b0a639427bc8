/** The first-generation sheet writer (`sheets.js`): every table of a tab
    gets a 1-based, inclusive range; the ranges are chained down column A and
    beside the gender table; each range yields a value write, four style
    zones, and the segment table gets an Owner/Intender banner. */
module LegacySheets {
  import opened Common
  import A1

  /** A table's place on a tab; rows and columns are 1-based and inclusive. */
  datatype Range = Range(row: Span, column: Span)

  /** Column index of a letter, the inverse of `IndexToChar`. */
  function CharToIndex(c: char): int {
    c as int - 64
  }

  /** `indexToChar`: 1 is column A and 26 is column Z.  Index 0, the end
      column of a table whose first row is empty, gives '@'. */
  function IndexToChar(i: int): (c: char)
    requires 0 <= i <= 26
    ensures 1 <= i ==> c == Alphabet[i - 1]
    ensures i == 0 ==> c == '@'
    ensures CharToIndex(c) == i
  {
    (64 + i) as char
  }

  /** `rows?.[0]?.length ?? 1`: the width of the first row, 1 without rows. */
  function FirstRowWidth(rows: Grid): nat {
    if |rows| == 0 then 1 else |rows[0]|
  }

  /** `getRange`: the range of a table whose top-left cell is at the given
      1-based row and column. */
  function GetRange(rowStart: int, colStart: int, rows: Grid): (r: Range)
    ensures r.row.start == rowStart && r.column.start == colStart
    ensures |rows| > 0 ==> r.row.end - r.row.start + 1 == |rows|
    ensures |rows| == 0 ==> r.row.end == r.row.start
    ensures r.column.end - r.column.start + 1 == FirstRowWidth(rows)
  {
    var rowEnd := if |rows| == 0 then rowStart else rowStart - 1 + |rows|;
    Range(Span(rowStart, rowEnd), Span(colStart, colStart - 1 + FirstRowWidth(rows)))
  }

  /** Both column indices of the range have a letter. */
  predicate HasLetters(r: Range) {
    0 <= r.column.start <= 26 && 0 <= r.column.end <= 26
  }

  /** The range's `toString`: start letter and row, a colon, end letter and row. */
  function RangeString(r: Range): string
    requires HasLetters(r)
  {
    A1.RangeRef(IndexToChar(r.column.start), r.row.start, IndexToChar(r.column.end), r.row.end)
  }

  /** Reads a range back from its A1 text. */
  function DecodeRange(s: string): Option<Range> {
    match A1.ParseRange(s)
    case None => None
    case Some(a) => Some(Range(Span(a.first.row, a.last.row), Span(CharToIndex(a.first.column), CharToIndex(a.last.column))))
  }

  /** The A1 text of a range names exactly that range. */
  lemma RangeStringRoundTrip(r: Range)
    requires HasLetters(r)
    ensures DecodeRange(RangeString(r)) == Some(r)
  {
    A1.RangeRoundTrip(IndexToChar(r.column.start), r.row.start, IndexToChar(r.column.end), r.row.end);
  }

  /** The 0-based, half-open rectangle of the spreadsheet API covering the range. */
  function ToRect(r: Range): Rect {
    Rect(r.row.start - 1, r.row.end, r.column.start - 1, r.column.end)
  }

  // ---------------------------------------------------------------------
  // Style zones

  /** The style payloads are opaque; only the zone they format matters. */
  datatype Zone = Header | FirstColumn | Footer | Borders

  datatype StyleRequest = StyleRequest(zone: Zone, range: GridRange)

  /** `getStyleRequest`: the header row, the first column between header and
      footer, the footer row, and borders around the whole range. */
  function StyleRequests(sheetId: Option<int>, r: Range): (reqs: seq<StyleRequest>)
    ensures |reqs| == 4
    ensures forall k :: 0 <= k < 4 ==> reqs[k].range.sheetId == sheetId
    ensures reqs[0].zone == Header && reqs[1].zone == FirstColumn && reqs[2].zone == Footer && reqs[3].zone == Borders
    ensures var whole := ToRect(r);
      && reqs[3].range.rect == whole
      && reqs[0].range.rect == whole.(rowEnd := whole.rowStart + 1)
      && reqs[2].range.rect == whole.(rowStart := whole.rowEnd - 1)
      && reqs[1].range.rect == Rect(whole.rowStart + 1, whole.rowEnd - 1, whole.colStart, whole.colStart + 1)
  {
    [ StyleRequest(Header, GridRange(sheetId, Rect(r.row.start - 1, r.row.start, r.column.start - 1, r.column.end))),
      StyleRequest(FirstColumn, GridRange(sheetId, Rect(r.row.start, r.row.end - 1, r.column.start - 1, r.column.start))),
      StyleRequest(Footer, GridRange(sheetId, Rect(r.row.end - 1, r.row.end, r.column.start - 1, r.column.end))),
      StyleRequest(Borders, GridRange(sheetId, Rect(r.row.start - 1, r.row.end, r.column.start - 1, r.column.end))) ]
  }

  /** For a range of at least two rows and one column, the three fill zones
      lie inside the border zone and never share a cell; a cell of the range
      is in the header exactly when it is on the first row, in the footer
      exactly when it is on the last row, and in the first-column zone exactly
      when it is in the first column strictly between them. */
  lemma StyleZonesPartitionRange(sheetId: Option<int>, r: Range)
    requires r.row.end > r.row.start && r.column.end >= r.column.start
    ensures var reqs := StyleRequests(sheetId, r);
      var whole := ToRect(r);
      var header := reqs[0].range.rect;
      var first := reqs[1].range.rect;
      var footer := reqs[2].range.rect;
      && header.Within(whole) && first.Within(whole) && footer.Within(whole)
      && PairwiseDisjoint([header, first, footer])
      && forall row, col :: whole.Covers(row, col) ==>
        && (header.Covers(row, col) <==> row == r.row.start - 1)
        && (footer.Covers(row, col) <==> row == r.row.end - 1)
        && (first.Covers(row, col) <==> r.row.start - 1 < row < r.row.end - 1 && col == r.column.start - 1)
  {
  }

  /** A one-row range has the same header and footer zone and an empty
      first-column zone. */
  lemma SingleRowZones(sheetId: Option<int>, r: Range)
    requires r.row.end == r.row.start
    ensures var reqs := StyleRequests(sheetId, r);
      reqs[0].range == reqs[2].range && reqs[1].range.rect.IsEmpty()
  {
  }

  // ---------------------------------------------------------------------
  // Value writes and new tabs

  datatype ValueRequest = ValueRequest(range: string, values: Grid)

  /** `getValueRequest`: the table's rows, written at `tab!range`. */
  function ValueRequestFor(tab: string, r: Range, table: Grid): ValueRequest
    requires HasLetters(r)
  {
    ValueRequest(tab + "!" + RangeString(r), table)
  }

  /** Splits `tab!range` at its first '!' and reads the range. */
  function DecodeTarget(s: string): Option<(string, Range)> {
    match FirstIndex(s, (c: char) => c == '!')
    case None => None
    case Some(k) =>
      match DecodeRange(s[k + 1..])
      case None => None
      case Some(r) => Some((s[..k], r))
  }

  /** For a tab name without '!', a value write targets exactly the tab and
      the range it was built from, and carries the table unchanged. */
  lemma ValueRequestTargets(tab: string, r: Range, table: Grid)
    requires forall i :: 0 <= i < |tab| ==> tab[i] != '!'
    requires HasLetters(r)
    ensures DecodeTarget(ValueRequestFor(tab, r, table).range) == Some((tab, r))
    ensures ValueRequestFor(tab, r, table).values == table
  {
    var s := tab + "!" + RangeString(r);
    var isBang := (c: char) => c == '!';
    assert s[|tab|] == '!';
    assert forall m :: 0 <= m < |tab| ==> s[m] == tab[m] && !isBang(s[m]);
    var k := FirstIndex(s, isBang);
    assert k.Some? && k.value == |tab|;
    assert s[..|tab|] == tab;
    assert s[|tab| + 1..] == RangeString(r);
    RangeStringRoundTrip(r);
  }

  /** `getAddTabsRequests`: the titles of the tabs to add, one per tab whose
      title no sheet has, in input order. */
  function AddTabsRequests(sheets: seq<Sheet>, tabs: seq<string>): (titles: seq<string>)
    ensures IsSubsequence(titles, tabs)
    ensures forall t :: multiset(titles)[t] == if HasTitle(sheets, t) then 0 else multiset(tabs)[t]
  {
    Filter(tabs, (t: string) => !HasTitle(sheets, t))
  }

  // ---------------------------------------------------------------------
  // The tab layout

  /** The eight tables of one tab, keyed as the source keys them. */
  datatype Tables = Tables(
    gender: Grid, age: Grid, region: Grid, mainSegment: Grid,
    brand: Grid, ownerBrand: Grid, segmentBooster: Grid, evBooster: Grid)

  datatype TabLayout = TabLayout(
    gender: Range, age: Range, region: Range, segment: Range,
    brand: Range, ownerBrand: Range, segmentBooster: Range, evBooster: Range)

  /** The range chain of one tab: gender at A1, then down column A with one
      blank row between tables (two before the segment table, whose banner
      takes the extra row), and brand at row 1 one blank column right of
      gender. */
  function LayoutTab(t: Tables): (l: TabLayout)
    ensures l.gender.row.start == 1 && l.brand.row.start == 1
    ensures l.brand.column.start == l.gender.column.end + 2
    ensures l.age.row.start == l.gender.row.end + 2
    ensures l.region.row.start == l.age.row.end + 2
    ensures l.segment.row.start == l.region.row.end + 3
    ensures l.ownerBrand.row.start == l.segment.row.end + 2
    ensures l.segmentBooster.row.start == l.ownerBrand.row.end + 2
    ensures l.evBooster.row.start == l.segmentBooster.row.end + 2
    ensures forall r :: r in ColumnA(l) ==> r.column.start == 1
    ensures l.gender == GetRange(l.gender.row.start, l.gender.column.start, t.gender)
    ensures l.age == GetRange(l.age.row.start, l.age.column.start, t.age)
    ensures l.region == GetRange(l.region.row.start, l.region.column.start, t.region)
    ensures l.segment == GetRange(l.segment.row.start, l.segment.column.start, t.mainSegment)
    ensures l.brand == GetRange(l.brand.row.start, l.brand.column.start, t.brand)
    ensures l.ownerBrand == GetRange(l.ownerBrand.row.start, l.ownerBrand.column.start, t.ownerBrand)
    ensures l.segmentBooster == GetRange(l.segmentBooster.row.start, l.segmentBooster.column.start, t.segmentBooster)
    ensures l.evBooster == GetRange(l.evBooster.row.start, l.evBooster.column.start, t.evBooster)
  {
    var gender := GetRange(1, 1, t.gender);
    var age := GetRange(gender.row.end + 2, 1, t.age);
    var region := GetRange(age.row.end + 2, 1, t.region);
    var segment := GetRange(region.row.end + 3, 1, t.mainSegment);
    var brand := GetRange(1, gender.column.end + 2, t.brand);
    var ownerBrand := GetRange(segment.row.end + 2, 1, t.ownerBrand);
    var segmentBooster := GetRange(ownerBrand.row.end + 2, 1, t.segmentBooster);
    var evBooster := GetRange(segmentBooster.row.end + 2, 1, t.evBooster);
    TabLayout(gender, age, region, segment, brand, ownerBrand, segmentBooster, evBooster)
  }

  /** The ranges stacked in column A, top to bottom. */
  function ColumnA(l: TabLayout): seq<Range> {
    [l.gender, l.age, l.region, l.segment, l.ownerBrand, l.segmentBooster, l.evBooster]
  }

  function Rects(rs: seq<Range>): (out: seq<Rect>)
    ensures |out| == |rs|
    ensures forall i :: 0 <= i < |rs| ==> out[i] == ToRect(rs[i])
  {
    seq(|rs|, i requires 0 <= i < |rs| => ToRect(rs[i]))
  }

  /** The column-A tables are strictly ordered top to bottom with at least
      one blank row between neighbours, so no two share a cell. */
  lemma ColumnATablesDisjoint(t: Tables)
    ensures var rs := Rects(ColumnA(LayoutTab(t)));
      && (forall i :: 0 <= i < |rs| - 1 ==> rs[i].rowEnd < rs[i + 1].rowStart)
      && PairwiseDisjoint(rs)
  {
    var rs := Rects(ColumnA(LayoutTab(t)));
    forall i | 0 <= i < |rs|
      ensures rs[i].rowStart < rs[i].rowEnd
    {
    }
    StackedRowsDisjoint(rs);
  }

  /** Rectangles each below the previous one with a gap never share a cell. */
  lemma {:induction false} StackedRowsDisjoint(rs: seq<Rect>)
    requires forall i :: 0 <= i < |rs| ==> rs[i].rowStart < rs[i].rowEnd
    requires forall i :: 0 <= i < |rs| - 1 ==> rs[i].rowEnd < rs[i + 1].rowStart
    ensures forall i, j :: 0 <= i < j < |rs| ==> rs[i].rowEnd < rs[j].rowStart
    ensures PairwiseDisjoint(rs)
  {
    if |rs| > 1 {
      StackedRowsDisjoint(rs[1..]);
      forall j | 1 < j < |rs|
        ensures rs[0].rowEnd < rs[j].rowStart
      {
        assert rs[1..][0] == rs[1] && rs[1..][j - 1] == rs[j];
      }
      forall i, j | 0 <= i < j < |rs|
        ensures rs[i].rowEnd < rs[j].rowStart
      {
        if i > 0 {
          assert rs[1..][i - 1] == rs[i] && rs[1..][j - 1] == rs[j];
        }
      }
    }
  }

  /** The brand table keeps clear of every column-A table no wider than the
      gender table plus the blank column. */
  lemma BrandBesideColumnA(t: Tables)
    ensures var l := LayoutTab(t);
      forall r :: r in ColumnA(l) && r.column.end <= l.gender.column.end + 1 ==> Disjoint(ToRect(l.brand), ToRect(r))
  {
  }

  function Blank(height: nat, width: nat): Grid {
    seq(height, i => seq(width, j => Text("")))
  }

  /** Column-A tables wider than gender plus one column can run into a tall
      brand table: with one-row tables in column A, a 5-wide gender table,
      an 8-wide owner-brand table and a 30-row brand table, the two overlap. */
  lemma WideOwnerBrandMeetsTallBrand()
    ensures var l := LayoutTab(Tables(Blank(1, 5), Blank(1, 5), Blank(1, 5), Blank(1, 13),
                                      Blank(30, 5), Blank(1, 8), Blank(1, 5), Blank(1, 5)));
      !Disjoint(ToRect(l.brand), ToRect(l.ownerBrand))
  {
  }

  // ---------------------------------------------------------------------
  // The requests of one tab

  /** Every range of the layout has column letters. */
  predicate LettersFit(l: TabLayout) {
    && HasLetters(l.gender) && HasLetters(l.age) && HasLetters(l.region) && HasLetters(l.segment)
    && HasLetters(l.brand) && HasLetters(l.ownerBrand) && HasLetters(l.segmentBooster) && HasLetters(l.evBooster)
  }

  /** Ranges in the order the tables are written. */
  function ValueRanges(l: TabLayout): seq<Range> {
    [l.gender, l.age, l.brand, l.region, l.segment, l.ownerBrand, l.segmentBooster, l.evBooster]
  }

  function ValueTables(t: Tables): seq<Grid> {
    [t.gender, t.age, t.brand, t.region, t.mainSegment, t.ownerBrand, t.segmentBooster, t.evBooster]
  }

  /** Ranges in the order they are styled. */
  function StyleRanges(l: TabLayout): seq<Range> {
    [l.gender, l.age, l.region, l.segment, l.brand, l.ownerBrand, l.segmentBooster, l.evBooster]
  }

  /** The style requests of several ranges, four per range, in order. */
  function StylesFor(sheetId: Option<int>, rs: seq<Range>): (s: seq<StyleRequest>)
    ensures |s| == 4 * |rs|
    ensures forall k :: 0 <= k < |rs| ==> s[4 * k..4 * k + 4] == StyleRequests(sheetId, rs[k])
  {
    if |rs| == 0 then []
    else
      var rest := StylesFor(sheetId, rs[1..]);
      var s := StyleRequests(sheetId, rs[0]) + rest;
      assert forall k :: 1 <= k < |rs| ==> s[4 * k..4 * k + 4] == rest[4 * (k - 1)..4 * (k - 1) + 4];
      s
  }

  /** The 0-based banner row above the segment table: one row high. */
  function BannerRow(l: TabLayout): Span {
    Span(l.segment.row.start - 2, l.segment.row.start - 1)
  }

  datatype TabRequests = TabRequests(values: seq<ValueRequest>, merges: seq<Merge>, styles: seq<StyleRequest>)

  /** The requests of one tab (the body of the reduce): the eight table
      writes and the two banner labels, the two banner merges, and four style
      requests per table.  A tab no sheet is titled with has no sheet id,
      where the source reads a property of `undefined`. */
  function TabRequestsFor(sheets: seq<Sheet>, tab: string, t: Tables): (r: Result<TabRequests, string>)
    requires LettersFit(LayoutTab(t))
    ensures r.Err? <==> !HasTitle(sheets, tab)
    ensures r.Ok? ==>
      var l := LayoutTab(t);
      var sheetId := sheets[SheetWithTitle(sheets, tab).value].sheetId;
      var banner := BannerRow(l);
      && TabValuesWritten(tab, l, t, r.value.values)
      && r.value.merges == [
          Merge(MergeRows, GridRange(sheetId, Rect(banner.start, banner.end, 5, 9))),
          Merge(MergeRows, GridRange(sheetId, Rect(banner.start, banner.end, 9, 13)))]
      && |r.value.styles| == 32
      && forall k :: 0 <= k < 8 ==> r.value.styles[4 * k..4 * k + 4] == StyleRequests(sheetId, StyleRanges(l)[k])
  {
    match SheetWithTitle(sheets, tab)
    case None => Err(tab)
    case Some(i) =>
      var sheetId := sheets[i].sheetId;
      var l := LayoutTab(t);
      var banner := BannerRow(l);
      var merges := [
        Merge(MergeRows, GridRange(sheetId, Rect(banner.start, banner.end, 5, 9))),
        Merge(MergeRows, GridRange(sheetId, Rect(banner.start, banner.end, 9, 13)))];
      Ok(TabRequests(TabValues(tab, l, t), merges, StylesFor(sheetId, StyleRanges(l))))
  }

  /** The value requests of a tab: each of the eight tables written to its
      range on the tab, then the "Owner" and "Intender" labels in columns F
      and J of the banner row, counted from 1. */
  predicate TabValuesWritten(tab: string, l: TabLayout, t: Tables, vs: seq<ValueRequest>)
    requires LettersFit(l)
  {
    var banner := BannerRow(l);
    && |vs| == 10
    && (forall k :: 0 <= k < 8 ==>
          && HasLetters(ValueRanges(l)[k])
          && vs[k] == ValueRequest(tab + "!" + RangeString(ValueRanges(l)[k]), ValueTables(t)[k]))
    && vs[8] == ValueRequest(tab + "!" + A1.CellRef('F', banner.end), [[Text("Owner")]])
    && vs[9] == ValueRequest(tab + "!" + A1.CellRef('J', banner.end), [[Text("Intender")]])
  }

  function TabValues(tab: string, l: TabLayout, t: Tables): (vs: seq<ValueRequest>)
    requires LettersFit(l)
    ensures TabValuesWritten(tab, l, t, vs)
  {
    var vr := ValueRanges(l);
    var vt := ValueTables(t);
    assert forall k :: 0 <= k < 8 ==> HasLetters(vr[k]) by {
      forall k | 0 <= k < 8
        ensures HasLetters(vr[k])
      {
        assert k in {0, 1, 2, 3, 4, 5, 6, 7};
      }
    }
    var writes := seq(8, k requires 0 <= k < 8 => ValueRequestFor(tab, vr[k], vt[k]));
    var labelRow := l.segment.row.start - 1;
    assert tab + "!" + "F" + A1.DecimalInt(labelRow) == tab + "!" + A1.CellRef('F', labelRow);
    assert tab + "!" + "J" + A1.DecimalInt(labelRow) == tab + "!" + A1.CellRef('J', labelRow);
    writes + [
      ValueRequest(tab + "!" + "F" + A1.DecimalInt(labelRow), [[Text("Owner")]]),
      ValueRequest(tab + "!" + "J" + A1.DecimalInt(labelRow), [[Text("Intender")]])]
  }

  /** The banner row lies below the region table with a blank row between
      and directly above the segment table; the two merges tile columns F to
      M of it, and the Owner and Intender labels sit in the first cell of
      each merge. */
  lemma BannerLabelsStartMerges(sheets: seq<Sheet>, tab: string, t: Tables)
    requires LettersFit(LayoutTab(t))
    requires TabRequestsFor(sheets, tab, t).Ok?
    ensures var l := LayoutTab(t);
      var req := TabRequestsFor(sheets, tab, t).value;
      var owner := req.merges[0].range.rect;
      var intender := req.merges[1].range.rect;
      && ToRect(l.region).rowEnd < owner.rowStart
      && owner.rowEnd == ToRect(l.segment).rowStart
      && Disjoint(owner, ToRect(l.region)) && Disjoint(owner, ToRect(l.segment))
      && Disjoint(owner, intender) && owner.colEnd == intender.colStart
      && owner.rowStart == intender.rowStart && owner.rowEnd == intender.rowEnd == owner.rowStart + 1
      && req.values[8].range == tab + "!" + A1.CellRef(Alphabet[owner.colStart], owner.rowStart + 1)
      && req.values[9].range == tab + "!" + A1.CellRef(Alphabet[intender.colStart], intender.rowStart + 1)
  {
    var l := LayoutTab(t);
    var req := TabRequestsFor(sheets, tab, t).value;
    var banner := BannerRow(l);
    assert req.merges[0].range.rect == Rect(banner.start, banner.end, 5, 9);
    assert req.merges[1].range.rect == Rect(banner.start, banner.end, 9, 13);
    assert TabValuesWritten(tab, l, t, req.values);
    assert Alphabet[5] == 'F' && Alphabet[9] == 'J';
  }

  /** The banner merges keep clear of the brand table, which starts at row 1
      right of gender, when the brand table ends above the banner row (it
      has no more rows than the region table's last row plus one) or its
      columns miss F to M; for a brand table with cells, only then. */
  lemma BannerClearOfShortBrand(sheets: seq<Sheet>, tab: string, t: Tables)
    requires LettersFit(LayoutTab(t))
    requires TabRequestsFor(sheets, tab, t).Ok?
    ensures var l := LayoutTab(t);
      var req := TabRequestsFor(sheets, tab, t).value;
      var brand := ToRect(l.brand);
      var clear := Disjoint(req.merges[0].range.rect, brand) && Disjoint(req.merges[1].range.rect, brand);
      && (|t.brand| <= l.region.row.end + 1 || brand.colEnd <= 5 || 13 <= brand.colStart ==> clear)
      && (clear && !brand.IsEmpty() ==> |t.brand| <= l.region.row.end + 1 || brand.colEnd <= 5 || 13 <= brand.colStart)
  {
    var l := LayoutTab(t);
    var req := TabRequestsFor(sheets, tab, t).value;
    var banner := BannerRow(l);
    assert req.merges[0].range.rect == Rect(banner.start, banner.end, 5, 9);
    assert req.merges[1].range.rect == Rect(banner.start, banner.end, 9, 13);
    assert banner.start == l.region.row.end + 1;
  }

  /** A tall brand table runs under the banner: with one-row tables in
      column A and a 30-row brand table in columns G to K, the Owner merge
      covers brand cells. */
  lemma TallBrandMeetsBanner()
    ensures var t := Tables(Blank(1, 5), Blank(1, 5), Blank(1, 5), Blank(1, 13),
                            Blank(30, 5), Blank(1, 5), Blank(1, 5), Blank(1, 5));
      var sheets := [Sheet(Some("tab"), Some(0))];
      && LettersFit(LayoutTab(t))
      && TabRequestsFor(sheets, "tab", t).Ok?
      && !Disjoint(TabRequestsFor(sheets, "tab", t).value.merges[0].range.rect, ToRect(LayoutTab(t).brand))
  {
    var t := Tables(Blank(1, 5), Blank(1, 5), Blank(1, 5), Blank(1, 13),
                    Blank(30, 5), Blank(1, 5), Blank(1, 5), Blank(1, 5));
    var sheets := [Sheet(Some("tab"), Some(0))];
    assert sheets[0].title == Some("tab");
  }
}
