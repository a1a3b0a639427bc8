/** The first-generation data shaping (`index.js`): quota rows are joined with
    completion counts, filtered by dimension, re-counted through conversion
    tables for age and region, grouped by brand for the owner-brand cross-tab,
    and turned into display tables with a totals row. */
module Survey {
  import opened Common

  // ---------------------------------------------------------------------
  // Text helpers for the JavaScript string operations the joins use

  /** `toLowerCase` on the ASCII letters. */
  function LowerChar(c: char): char {
    if 'A' <= c <= 'Z' then (c as int + 32) as char else c
  }

  function Lower(s: string): (r: string)
    ensures |r| == |s|
    ensures forall i :: 0 <= i < |s| ==> r[i] == LowerChar(s[i])
  {
    seq(|s|, i requires 0 <= i < |s| => LowerChar(s[i]))
  }

  predicate StartsWith(s: string, t: string) {
    |t| <= |s| && s[..|t|] == t
  }

  /** `s.includes(t)`: `t` occurs somewhere in `s` (always, when `t` is empty). */
  predicate Contains(s: string, t: string)
    decreases |s|
  {
    StartsWith(s, t) || (|s| > 0 && Contains(s[1..], t))
  }

  /** `t` occurs in `s` starting at position `i`. */
  predicate OccursAt(s: string, t: string, i: int) {
    0 <= i && i + |t| <= |s| && s[i..i + |t|] == t
  }

  lemma {:induction false} ContainsIffOccurs(s: string, t: string)
    ensures Contains(s, t) <==> exists i :: OccursAt(s, t, i)
    decreases |s|
  {
    if StartsWith(s, t) {
      assert OccursAt(s, t, 0);
    }
    if |s| > 0 {
      ContainsIffOccurs(s[1..], t);
      if Contains(s[1..], t) {
        var i :| OccursAt(s[1..], t, i);
        assert s[1..][i..i + |t|] == s[i + 1..i + 1 + |t|];
        assert OccursAt(s, t, i + 1);
      }
      if exists i :: OccursAt(s, t, i) {
        var i :| OccursAt(s, t, i);
        if i > 0 {
          assert s[1..][i - 1..i - 1 + |t|] == s[i..i + |t|];
          assert OccursAt(s[1..], t, i - 1);
        } else {
          assert StartsWith(s, t);
        }
      }
    } else {
      if exists i :: OccursAt(s, t, i) {
        var i :| OccursAt(s, t, i);
        assert |t| == 0 && s[..0] == t;
      }
    }
  }

  // ---------------------------------------------------------------------
  // Rows of the data source

  /** A quota row, plain or per series (owner/intender); counts are already
      numbers. */
  datatype QuotaRow = QuotaRow(
    pkey: string, qid: string, qid2: string, ans: string, answerLabel: string,
    oriCnt: int, comCnt: int, q83: string, qsOrder: string)

  /** A completion-count row. */
  datatype CountRow = CountRow(pkey: string, qid: string, qid2: string, ans: string, q83: string, comCnt: int)

  /** An age or region conversion row: the code (`AGE` or `REGION`) and its count. */
  datatype ConversionRow = ConversionRow(code: string, comCnt: int)

  /** A row of the owner-brand detail feed. */
  datatype OwnDetailRow = OwnDetailRow(brandCd: string, answerLabel: string, cnt: int)

  // ---------------------------------------------------------------------
  // Joining quota rows with completion counts

  /** The plain join matches on market key, question ids and answer; the
      series join also matches the owner/intender dimension. */
  datatype JoinKey = CountryKey | SeriesKey

  predicate KeyMatch(k: JoinKey, r: QuotaRow, c: CountRow) {
    && r.pkey == c.pkey
    && Lower(r.qid) == Lower(c.qid)
    && (k == SeriesKey ==> Lower(r.q83) == Lower(c.q83))
    && Lower(r.qid2) == Lower(c.qid2)
    && r.ans == c.ans
  }

  /** `counts[j]` is the first count row matching `r`. */
  predicate IsFirstMatch(k: JoinKey, r: QuotaRow, counts: seq<CountRow>, j: int) {
    0 <= j < |counts| && KeyMatch(k, r, counts[j]) && forall m :: 0 <= m < j ==> !KeyMatch(k, r, counts[m])
  }

  predicate NoMatch(k: JoinKey, r: QuotaRow, counts: seq<CountRow>) {
    forall m :: 0 <= m < |counts| ==> !KeyMatch(k, r, counts[m])
  }

  /** `counts.find(match)?.COM_CNT ?? 0`. */
  function Completed(k: JoinKey, r: QuotaRow, counts: seq<CountRow>): (n: int)
    ensures forall j :: IsFirstMatch(k, r, counts, j) ==> n == counts[j].comCnt
    ensures NoMatch(k, r, counts) ==> n == 0
  {
    match FirstIndex(counts, (c: CountRow) => KeyMatch(k, r, c))
    case Some(j) => counts[j].comCnt
    case None => 0
  }

  /** `out` is `quota` with each row's achieved count taken from its first
      matching count row, or 0 without one, and nothing else changed. */
  ghost predicate JoinedFrom(k: JoinKey, quota: seq<QuotaRow>, counts: seq<CountRow>, out: seq<QuotaRow>) {
    && |out| == |quota|
    && (forall i :: 0 <= i < |out| ==> out[i].(comCnt := quota[i].comCnt) == quota[i])
    && (forall i, j :: 0 <= i < |out| && IsFirstMatch(k, quota[i], counts, j) ==> out[i].comCnt == counts[j].comCnt)
    && (forall i :: 0 <= i < |out| && NoMatch(k, quota[i], counts) ==> out[i].comCnt == 0)
  }

  function Join(k: JoinKey, quota: seq<QuotaRow>, counts: seq<CountRow>): (out: seq<QuotaRow>)
    ensures JoinedFrom(k, quota, counts, out)
  {
    seq(|quota|, i requires 0 <= i < |quota| => quota[i].(comCnt := Completed(k, quota[i], counts)))
  }

  /** `getCountryWithCount`: the join on market key, QID, QID_2 and ANS. */
  function CountryWithCount(quota: seq<QuotaRow>, counts: seq<CountRow>): (out: seq<QuotaRow>)
    ensures JoinedFrom(CountryKey, quota, counts, out)
  {
    Join(CountryKey, quota, counts)
  }

  /** `getCountryQuotaSeriesWithCount`: the same join, also on Q83_VAL. */
  function SeriesWithCount(quota: seq<QuotaRow>, counts: seq<CountRow>): (out: seq<QuotaRow>)
    ensures JoinedFrom(SeriesKey, quota, counts, out)
  {
    Join(SeriesKey, quota, counts)
  }

  /** The join's description leaves no freedom: it determines the output. */
  lemma JoinedFromIsUnique(k: JoinKey, quota: seq<QuotaRow>, counts: seq<CountRow>, a: seq<QuotaRow>, b: seq<QuotaRow>)
    requires JoinedFrom(k, quota, counts, a) && JoinedFrom(k, quota, counts, b)
    ensures a == b
  {
    forall i | 0 <= i < |a|
      ensures a[i] == b[i]
    {
      match FirstIndex(counts, (c: CountRow) => KeyMatch(k, quota[i], c))
      case Some(j) =>
        assert IsFirstMatch(k, quota[i], counts, j);
      case None =>
        assert NoMatch(k, quota[i], counts);
    }
  }

  // ---------------------------------------------------------------------
  // Dimension filters

  predicate IsBrandRow(r: QuotaRow) { r.qid2 == "Q_Brand" }
  predicate IsGenderRow(r: QuotaRow) { r.qid == "Q3" }
  predicate IsAgeRow(r: QuotaRow) { r.qid == "Q6" }
  predicate IsRegionRow(r: QuotaRow) { r.qid == "Q7" }
  predicate IsSegmentQuotaRow(r: QuotaRow) { r.qid2 == "Q_Seg_Quota" }
  predicate IsOwnerSegmentRow(r: QuotaRow) { r.qid2 == "Q_Seg_Quota" && r.q83 == "1" }
  predicate IsIntenderSegmentRow(r: QuotaRow) { r.qid2 == "Q_Seg_Quota" && r.q83 == "2" }
  predicate IsSegmentBoosterRow(r: QuotaRow) { r.qid2 == "Q_Seg_Booster" }
  predicate IsEvBoosterRow(r: QuotaRow) { r.qsOrder == "6" }
  predicate IsOwnerBrandQuotaRow(r: QuotaRow) { r.qid2 == "Q_Brand" && r.q83 == "1" }

  /** `out` keeps, in their original order, exactly the rows of `rows`
      satisfying `p`, each as often as it occurs. */
  ghost predicate Selects(rows: seq<QuotaRow>, p: QuotaRow -> bool, out: seq<QuotaRow>) {
    && IsSubsequence(out, rows)
    && forall x :: multiset(out)[x] == if p(x) then multiset(rows)[x] else 0
  }

  function BrandData(rows: seq<QuotaRow>): (out: seq<QuotaRow>)
    ensures Selects(rows, IsBrandRow, out)
  {
    Filter(rows, IsBrandRow)
  }

  function GenderData(rows: seq<QuotaRow>): (out: seq<QuotaRow>)
    ensures Selects(rows, IsGenderRow, out)
  {
    Filter(rows, IsGenderRow)
  }

  function MainSegmentTotalData(rows: seq<QuotaRow>): (out: seq<QuotaRow>)
    ensures Selects(rows, IsSegmentQuotaRow, out)
  {
    Filter(rows, IsSegmentQuotaRow)
  }

  function MainSegmentOwnerData(series: seq<QuotaRow>): (out: seq<QuotaRow>)
    ensures Selects(series, IsOwnerSegmentRow, out)
  {
    Filter(series, IsOwnerSegmentRow)
  }

  function MainSegmentIntenderData(series: seq<QuotaRow>): (out: seq<QuotaRow>)
    ensures Selects(series, IsIntenderSegmentRow, out)
  {
    Filter(series, IsIntenderSegmentRow)
  }

  function EvBooster(series: seq<QuotaRow>): (out: seq<QuotaRow>)
    ensures Selects(series, IsEvBoosterRow, out)
  {
    Filter(series, IsEvBoosterRow)
  }

  /** Owner and intender segment rows never share a row, and together they
      are no more than the segment-quota rows of the same input. */
  lemma {:induction false} OwnerIntenderSplit(series: seq<QuotaRow>)
    ensures multiset(MainSegmentOwnerData(series)) * multiset(MainSegmentIntenderData(series)) == multiset{}
    ensures |MainSegmentOwnerData(series)| + |MainSegmentIntenderData(series)| <= |Filter(series, IsSegmentQuotaRow)|
  {
    var o := MainSegmentOwnerData(series);
    var n := MainSegmentIntenderData(series);
    forall x
      ensures (multiset(o) * multiset(n))[x] == 0
    {
      if IsOwnerSegmentRow(x) {
        assert multiset(n)[x] == 0;
      } else {
        assert multiset(o)[x] == 0;
      }
    }
    assert multiset(o) * multiset(n) == multiset{};
    if |series| > 0 {
      OwnerIntenderSplit(series[1..]);
    }
  }

  /** `getSegmentBooster`: the segment-booster rows, each label suffixed
      " - Owner" when Q83_VAL is "6" and " - Intender" otherwise. */
  function SegmentBooster(series: seq<QuotaRow>): (out: seq<QuotaRow>)
    ensures var kept := Filter(series, IsSegmentBoosterRow);
      && |out| == |kept|
      && forall i :: 0 <= i < |out| ==>
        && out[i].(answerLabel := kept[i].answerLabel) == kept[i]
        && IsSegmentBoosterRow(out[i])
        && (if kept[i].q83 == "6" then out[i].answerLabel == kept[i].answerLabel + " - Owner"
            else out[i].answerLabel == kept[i].answerLabel + " - Intender")
  {
    var kept := Filter(series, IsSegmentBoosterRow);
    seq(|kept|, i requires 0 <= i < |kept| =>
      kept[i].(answerLabel := kept[i].answerLabel + if kept[i].q83 == "6" then " - Owner" else " - Intender"))
  }

  // ---------------------------------------------------------------------
  // Age and region achieved counts through the conversion tables

  /** The reduce of `getAgeData`/`getRegionData`: the counts of the
      conversion rows whose code occurs in the answer text. */
  function ConversionSum(ans: string, conv: seq<ConversionRow>): int {
    if |conv| == 0 then 0
    else (if Contains(ans, conv[0].code) then conv[0].comCnt else 0) + ConversionSum(ans, conv[1..])
  }

  function CountsOf(conv: seq<ConversionRow>): seq<int> {
    seq(|conv|, i requires 0 <= i < |conv| => conv[i].comCnt)
  }

  /** The sum is the total count of the matching conversion rows. */
  lemma {:induction false} ConversionSumOfMatches(ans: string, conv: seq<ConversionRow>)
    ensures ConversionSum(ans, conv) == Sum(CountsOf(Filter(conv, (c: ConversionRow) => Contains(ans, c.code))))
  {
    if |conv| > 0 {
      ConversionSumOfMatches(ans, conv[1..]);
      var p := (c: ConversionRow) => Contains(ans, c.code);
      var rest := Filter(conv[1..], p);
      assert Filter(conv, p) == if p(conv[0]) then [conv[0]] + rest else rest;
      if p(conv[0]) {
        SumCountsCons(conv[0], rest);
      }
    }
  }

  lemma SumCountsCons(c: ConversionRow, rest: seq<ConversionRow>)
    ensures Sum(CountsOf([c] + rest)) == c.comCnt + Sum(CountsOf(rest))
  {
    assert CountsOf([c] + rest)[1..] == CountsOf(rest);
  }

  /** No matching code means an achieved count of 0. */
  lemma {:induction false} ConversionSumNoMatch(ans: string, conv: seq<ConversionRow>)
    requires forall i :: 0 <= i < |conv| ==> !Contains(ans, conv[i].code)
    ensures ConversionSum(ans, conv) == 0
  {
    if |conv| > 0 {
      ConversionSumNoMatch(ans, conv[1..]);
    }
  }

  function WithConvertedCounts(rows: seq<QuotaRow>, conv: seq<ConversionRow>): (out: seq<QuotaRow>)
    ensures |out| == |rows|
    ensures forall i :: 0 <= i < |out| ==> out[i].(comCnt := rows[i].comCnt) == rows[i]
    ensures forall i :: 0 <= i < |out| ==> out[i].comCnt == ConversionSum(out[i].ans, conv)
  {
    seq(|rows|, i requires 0 <= i < |rows| => rows[i].(comCnt := ConversionSum(rows[i].ans, conv)))
  }

  /** `getAgeData`: the Q6 rows, achieved counts recomputed from the age
      conversion rows. */
  function AgeData(rows: seq<QuotaRow>, conv: seq<ConversionRow>): (out: seq<QuotaRow>)
    ensures var kept := Filter(rows, IsAgeRow);
      && Selects(rows, IsAgeRow, kept)
      && |out| == |kept|
      && (forall i :: 0 <= i < |out| ==> out[i].(comCnt := kept[i].comCnt) == kept[i])
      && (forall i :: 0 <= i < |out| ==> out[i].qid == "Q6" && out[i].comCnt == ConversionSum(out[i].ans, conv))
  {
    WithConvertedCounts(Filter(rows, IsAgeRow), conv)
  }

  /** `getRegionData`: the Q7 rows, achieved counts recomputed from the
      region conversion rows. */
  function RegionData(rows: seq<QuotaRow>, conv: seq<ConversionRow>): (out: seq<QuotaRow>)
    ensures var kept := Filter(rows, IsRegionRow);
      && Selects(rows, IsRegionRow, kept)
      && |out| == |kept|
      && (forall i :: 0 <= i < |out| ==> out[i].(comCnt := kept[i].comCnt) == kept[i])
      && (forall i :: 0 <= i < |out| ==> out[i].qid == "Q7" && out[i].comCnt == ConversionSum(out[i].ans, conv))
  {
    WithConvertedCounts(Filter(rows, IsRegionRow), conv)
  }

  // ---------------------------------------------------------------------
  // Display tables

  /** Sum of the numbers in column `col` over the rows of a grid. */
  function ColumnSum(g: Grid, col: nat): int {
    if |g| == 0 then 0 else NumAt(g[0], col) + ColumnSum(g[1..], col)
  }

  function QuotaSum(rows: seq<QuotaRow>): int {
    if |rows| == 0 then 0 else rows[0].oriCnt + QuotaSum(rows[1..])
  }

  function AchievedSum(rows: seq<QuotaRow>): int {
    if |rows| == 0 then 0 else rows[0].comCnt + AchievedSum(rows[1..])
  }

  function TableHeader(name: string): seq<Cell> {
    [Text("- " + name), Text("Quota"), Text("Achie.(N)"), Text("Achie.(%)"), Text("Remaining")]
  }

  function TableDataRow(r: QuotaRow): seq<Cell> {
    [Text(r.ans + ". " + r.answerLabel), Num(r.oriCnt), Num(r.comCnt), ToPercent(r.comCnt, r.oriCnt), Num(r.oriCnt - r.comCnt)]
  }

  function TableTotalRow(rows: seq<QuotaRow>): seq<Cell> {
    var q := QuotaSum(rows);
    var a := AchievedSum(rows);
    [Text("Total"), Num(q), Num(a), ToPercent(a, q), Num(q - a)]
  }

  /** The row as displayed: without its first cell when labels are removed. */
  function Strip(row: seq<Cell>, removeFirst: bool): seq<Cell>
    requires |row| > 0
  {
    if removeFirst then row[1..] else row
  }

  /** Column of the quota figure once labels are (or are not) removed. */
  function QuotaColumn(removeFirst: bool): nat {
    if removeFirst then 0 else 1
  }

  function DataRows(rows: seq<QuotaRow>, removeFirst: bool): Grid {
    seq(|rows|, i requires 0 <= i < |rows| => Strip(TableDataRow(rows[i]), removeFirst))
  }

  /** `getTableRows(name, rows, removeFirst)`. */
  function TableRows(name: string, rows: seq<QuotaRow>, removeFirst: bool): (t: Grid)
    ensures |t| == |rows| + 2
    ensures forall i :: 0 <= i < |t| ==> |t[i]| == if removeFirst then 4 else 5
    ensures !removeFirst ==> t[0][0] == Text("- " + name)
    ensures !removeFirst ==> forall i :: 0 <= i < |rows| ==> t[i + 1][0] == Text(rows[i].ans + ". " + rows[i].answerLabel)
    ensures !removeFirst ==> t[|t| - 1][0] == Text("Total")
    ensures var o := QuotaColumn(removeFirst);
      && t[0][o..] == [Text("Quota"), Text("Achie.(N)"), Text("Achie.(%)"), Text("Remaining")]
      && forall i :: 0 <= i < |rows| ==>
        t[i + 1][o..] == [Num(rows[i].oriCnt), Num(rows[i].comCnt),
                          ToPercent(rows[i].comCnt, rows[i].oriCnt), Num(rows[i].oriCnt - rows[i].comCnt)]
  {
    [Strip(TableHeader(name), removeFirst)] + DataRows(rows, removeFirst) + [Strip(TableTotalRow(rows), removeFirst)]
  }

  lemma DataRowsTail(rows: seq<QuotaRow>, removeFirst: bool)
    requires |rows| > 0
    ensures DataRows(rows, removeFirst)[1..] == DataRows(rows[1..], removeFirst)
  {
  }

  lemma {:induction false} QuotaColumnSum(rows: seq<QuotaRow>, removeFirst: bool)
    ensures ColumnSum(DataRows(rows, removeFirst), QuotaColumn(removeFirst)) == QuotaSum(rows)
  {
    if |rows| > 0 {
      DataRowsTail(rows, removeFirst);
      QuotaColumnSum(rows[1..], removeFirst);
    }
  }

  lemma {:induction false} AchievedColumnSum(rows: seq<QuotaRow>, removeFirst: bool)
    ensures ColumnSum(DataRows(rows, removeFirst), QuotaColumn(removeFirst) + 1) == AchievedSum(rows)
  {
    if |rows| > 0 {
      DataRowsTail(rows, removeFirst);
      AchievedColumnSum(rows[1..], removeFirst);
    }
  }

  lemma {:induction false} RemainingColumnSum(rows: seq<QuotaRow>, removeFirst: bool)
    ensures ColumnSum(DataRows(rows, removeFirst), QuotaColumn(removeFirst) + 3) == QuotaSum(rows) - AchievedSum(rows)
  {
    if |rows| > 0 {
      DataRowsTail(rows, removeFirst);
      RemainingColumnSum(rows[1..], removeFirst);
    }
  }

  /** The totals row holds the column sums of the data rows above it, the
      remaining count is the difference of the sums, and the percentage is
      computed from the sums. */
  lemma TotalsAreColumnSums(name: string, rows: seq<QuotaRow>, removeFirst: bool)
    ensures var t := TableRows(name, rows, removeFirst);
      var data := t[1..|t| - 1];
      var o := QuotaColumn(removeFirst);
      && t[|t| - 1][o] == Num(ColumnSum(data, o))
      && t[|t| - 1][o + 1] == Num(ColumnSum(data, o + 1))
      && t[|t| - 1][o + 2] == ToPercent(ColumnSum(data, o + 1), ColumnSum(data, o))
      && t[|t| - 1][o + 3] == Num(ColumnSum(data, o + 3))
      && t[|t| - 1][o + 3] == Num(ColumnSum(data, o) - ColumnSum(data, o + 1))
  {
    var t := TableRows(name, rows, removeFirst);
    assert t[1..|t| - 1] == DataRows(rows, removeFirst);
    QuotaColumnSum(rows, removeFirst);
    AchievedColumnSum(rows, removeFirst);
    RemainingColumnSum(rows, removeFirst);
  }

  /** With `removeFirst` every row loses exactly its first cell. */
  lemma RemoveFirstDropsLabelColumn(name: string, rows: seq<QuotaRow>)
    ensures var a := TableRows(name, rows, true);
      var b := TableRows(name, rows, false);
      |a| == |b| && forall i :: 0 <= i < |a| ==> |b[i]| > 0 && a[i] == b[i][1..]
  {
    var h, tl := TableHeader(name), TableTotalRow(rows);
    var da, db := DataRows(rows, true), DataRows(rows, false);
    assert forall i :: 0 <= i < |da| ==> |db[i]| > 0 && da[i] == db[i][1..];
    ConcatDropsFirst(h[1..], da, tl[1..], h, db, tl);
  }

  /** Dropping the first cell of a header, of each middle row and of a
      closing row drops the first cell of every row of their concatenation. */
  lemma ConcatDropsFirst(ha: seq<Cell>, da: Grid, ta: seq<Cell>, hb: seq<Cell>, db: Grid, tb: seq<Cell>)
    requires |hb| > 0 && |tb| > 0 && ha == hb[1..] && ta == tb[1..]
    requires |da| == |db| && forall i :: 0 <= i < |da| ==> |db[i]| > 0 && da[i] == db[i][1..]
    ensures var a, b := [ha] + da + [ta], [hb] + db + [tb];
      |a| == |b| && forall i :: 0 <= i < |a| ==> |b[i]| > 0 && a[i] == b[i][1..]
  {
    var a, b := [ha] + da + [ta], [hb] + db + [tb];
    forall i | 0 <= i < |a|
      ensures |b[i]| > 0 && a[i] == b[i][1..]
    {
      if i == 0 {
      } else if i <= |da| {
        assert a[i] == da[i - 1] && b[i] == db[i - 1];
      } else {
        assert a[i] == ta && b[i] == tb;
      }
    }
  }

  /** The gender table of a market with 100/40 male and 100/70 female. */
  lemma GenderExample()
    ensures TableRows("Gender", [
        QuotaRow("2023_US", "Q3", "Q_Gender", "1", "Male", 100, 40, "", ""),
        QuotaRow("2023_US", "Q3", "Q_Gender", "2", "Female", 100, 70, "", "")], false)
      == [[Text("- Gender"), Text("Quota"), Text("Achie.(N)"), Text("Achie.(%)"), Text("Remaining")],
          [Text("1. Male"), Num(100), Num(40), Fixed2Percent(40.0), Num(60)],
          [Text("2. Female"), Num(100), Num(70), Fixed2Percent(70.0), Num(30)],
          [Text("Total"), Num(200), Num(110), Fixed2Percent(55.0), Num(90)]]
  {
    var rows := [
        QuotaRow("2023_US", "Q3", "Q_Gender", "1", "Male", 100, 40, "", ""),
        QuotaRow("2023_US", "Q3", "Q_Gender", "2", "Female", 100, 70, "", "")];
    assert "- " + "Gender" == "- Gender";
    assert "1" + ". " + "Male" == "1. Male";
    assert "2" + ". " + "Female" == "2. Female";
    assert QuotaSum(rows) == 200 && AchievedSum(rows) == 110;
    assert ToPercent(40, 100) == Fixed2Percent(40.0);
    assert ToPercent(70, 100) == Fixed2Percent(70.0);
    assert ToPercent(110, 200) == Fixed2Percent(55.0);
    assert DataRows(rows, false) == [
          [Text("1. Male"), Num(100), Num(40), Fixed2Percent(40.0), Num(60)],
          [Text("2. Female"), Num(100), Num(70), Fixed2Percent(70.0), Num(30)]];
  }

  // ---------------------------------------------------------------------
  // Owner-brand cross-tab

  /** `${BRAND_CD}. ${LABEL}`, the grouping key of a detail row. */
  function GroupKey(d: OwnDetailRow): string {
    d.brandCd + ". " + d.answerLabel
  }

  /** Position of the first detail row with key `k`, or `|ds|` without one. */
  function FirstOccurrence(ds: seq<OwnDetailRow>, k: string): (j: nat)
    ensures j <= |ds|
    ensures j < |ds| ==> GroupKey(ds[j]) == k
    ensures forall m :: 0 <= m < j ==> GroupKey(ds[m]) != k
  {
    match FirstIndex(ds, (d: OwnDetailRow) => GroupKey(d) == k)
    case Some(j) => j
    case None => |ds|
  }

  /** The CNT values of the detail rows with key `k`, in order. */
  function CountsFor(ds: seq<OwnDetailRow>, k: string): seq<int> {
    if |ds| == 0 then []
    else CountsFor(ds[..|ds| - 1], k) + if GroupKey(ds[|ds| - 1]) == k then [ds[|ds| - 1].cnt] else []
  }

  /** The quota row of a brand: the first owner brand-quota row whose ANS is the code. */
  function LookupBrandQuota(brandQuotas: seq<QuotaRow>, code: string): (r: Option<QuotaRow>)
    ensures r.Some? ==> r.value in brandQuotas && r.value.ans == code
    ensures r.None? <==> forall i :: 0 <= i < |brandQuotas| ==> brandQuotas[i].ans != code
  {
    match FirstIndex(brandQuotas, (q: QuotaRow) => q.ans == code)
    case Some(j) => Some(brandQuotas[j])
    case None => None
  }

  datatype BrandGroup = BrandGroup(key: string, quota: int, achieved: int, counts: seq<int>)

  function KeysOf(gs: seq<BrandGroup>): seq<string> {
    seq(|gs|, i requires 0 <= i < |gs| => gs[i].key)
  }

  /** Groups are listed in the order their keys first appear among the detail rows. */
  ghost predicate InFirstAppearanceOrder(ds: seq<OwnDetailRow>, gs: seq<BrandGroup>) {
    forall i, j :: 0 <= i < j < |gs| ==> FirstOccurrence(ds, gs[i].key) < FirstOccurrence(ds, gs[j].key)
  }

  /** Every group key is the key of some detail row. */
  ghost predicate KeysOccur(ds: seq<OwnDetailRow>, gs: seq<BrandGroup>) {
    forall i :: 0 <= i < |gs| ==> FirstOccurrence(ds, gs[i].key) < |ds|
  }

  /** Every detail row's key has a group. */
  ghost predicate KeysCovered(ds: seq<OwnDetailRow>, gs: seq<BrandGroup>) {
    forall m :: 0 <= m < |ds| ==> GroupKey(ds[m]) in KeysOf(gs)
  }

  /** Each group collects the counts of all rows with its key, in order. */
  ghost predicate CountsCollected(ds: seq<OwnDetailRow>, gs: seq<BrandGroup>) {
    forall i :: 0 <= i < |gs| ==> gs[i].counts == CountsFor(ds, gs[i].key)
  }

  /** Each group carries the quota and achieved figures of the brand of its
      first row. */
  ghost predicate QuotasLookedUp(ds: seq<OwnDetailRow>, brandQuotas: seq<QuotaRow>, gs: seq<BrandGroup>) {
    forall i :: 0 <= i < |gs| && FirstOccurrence(ds, gs[i].key) < |ds| ==>
      var q := LookupBrandQuota(brandQuotas, ds[FirstOccurrence(ds, gs[i].key)].brandCd);
      q.Some? && gs[i].quota == q.value.oriCnt && gs[i].achieved == q.value.comCnt
  }

  /** `gs` are the groups of `ds`: one per distinct key, ordered by first
      appearance, with the counts of their rows and their brand's figures. */
  ghost predicate GroupsOf(ds: seq<OwnDetailRow>, brandQuotas: seq<QuotaRow>, gs: seq<BrandGroup>) {
    && InFirstAppearanceOrder(ds, gs)
    && KeysOccur(ds, gs)
    && KeysCovered(ds, gs)
    && CountsCollected(ds, gs)
    && QuotasLookedUp(ds, brandQuotas, gs)
  }

  /** Detail row `j` is the first of its group. */
  predicate Leads(ds: seq<OwnDetailRow>, j: int) {
    0 <= j < |ds| && FirstOccurrence(ds, GroupKey(ds[j])) == j
  }

  /** Some group's first row names a brand with no quota row. */
  ghost predicate MissingBrand(ds: seq<OwnDetailRow>, brandQuotas: seq<QuotaRow>, code: string) {
    exists j :: Leads(ds, j) && ds[j].brandCd == code && LookupBrandQuota(brandQuotas, code).None?
  }

  /** The three conditions that pin down the first occurrence. */
  lemma FirstOccurrenceIs(ds: seq<OwnDetailRow>, k: string, j: nat)
    requires j <= |ds|
    requires j < |ds| ==> GroupKey(ds[j]) == k
    requires forall m :: 0 <= m < j ==> GroupKey(ds[m]) != k
    ensures FirstOccurrence(ds, k) == j
  {
  }

  lemma FirstOccurrenceAppend(ds: seq<OwnDetailRow>, d: OwnDetailRow, k: string)
    ensures FirstOccurrence(ds + [d], k) ==
      if FirstOccurrence(ds, k) < |ds| then FirstOccurrence(ds, k)
      else if GroupKey(d) == k then |ds| else |ds| + 1
  {
    var ds' := ds + [d];
    var a := FirstOccurrence(ds, k);
    assert forall m :: 0 <= m < |ds| ==> ds'[m] == ds[m];
    if a < |ds| {
      FirstOccurrenceIs(ds', k, a);
    } else if GroupKey(d) == k {
      FirstOccurrenceIs(ds', k, |ds|);
    } else {
      FirstOccurrenceIs(ds', k, |ds| + 1);
    }
  }

  lemma CountsForAbsent(ds: seq<OwnDetailRow>, k: string)
    requires FirstOccurrence(ds, k) == |ds|
    ensures CountsFor(ds, k) == []
  {
    if |ds| > 0 {
      var p := ds[..|ds| - 1];
      assert forall m :: 0 <= m < |p| ==> p[m] == ds[m];
      FirstOccurrenceIs(p, k, |p|);
      CountsForAbsent(p, k);
    }
  }

  lemma CountsForAppend(ds: seq<OwnDetailRow>, d: OwnDetailRow, k: string)
    ensures CountsFor(ds + [d], k) == CountsFor(ds, k) + if GroupKey(d) == k then [d.cnt] else []
  {
    assert (ds + [d])[..|ds|] == ds;
  }

  /** Appending a row leaves the first occurrence of every existing key in place. */
  lemma AppendKeepsLeaders(ds: seq<OwnDetailRow>, d: OwnDetailRow, gs: seq<BrandGroup>)
    requires KeysOccur(ds, gs)
    ensures forall i :: 0 <= i < |gs| ==> FirstOccurrence(ds + [d], gs[i].key) == FirstOccurrence(ds, gs[i].key)
    ensures forall i :: 0 <= i < |gs| ==> (ds + [d])[FirstOccurrence(ds, gs[i].key)] == ds[FirstOccurrence(ds, gs[i].key)]
  {
    forall i | 0 <= i < |gs|
      ensures FirstOccurrence(ds + [d], gs[i].key) == FirstOccurrence(ds, gs[i].key)
    {
      FirstOccurrenceAppend(ds, d, gs[i].key);
    }
  }

  /** A row whose key already has a group extends that group's counts. */
  lemma ExistingGroupStep(ds: seq<OwnDetailRow>, d: OwnDetailRow, brandQuotas: seq<QuotaRow>, gs: seq<BrandGroup>, i: nat)
    requires GroupsOf(ds, brandQuotas, gs)
    requires i < |gs| && gs[i].key == GroupKey(d)
    ensures GroupsOf(ds + [d], brandQuotas, gs[i := gs[i].(counts := gs[i].counts + [d.cnt])])
  {
    ExistingGroupLeaders(ds, d, brandQuotas, gs, i);
    ExistingGroupCounts(ds, d, gs, i);
    ExistingGroupCovers(ds, d, gs, i);
  }

  lemma ExistingGroupLeaders(ds: seq<OwnDetailRow>, d: OwnDetailRow, brandQuotas: seq<QuotaRow>, gs: seq<BrandGroup>, i: nat)
    requires InFirstAppearanceOrder(ds, gs) && KeysOccur(ds, gs) && QuotasLookedUp(ds, brandQuotas, gs)
    requires i < |gs|
    ensures var gs' := gs[i := gs[i].(counts := gs[i].counts + [d.cnt])];
      InFirstAppearanceOrder(ds + [d], gs') && KeysOccur(ds + [d], gs') && QuotasLookedUp(ds + [d], brandQuotas, gs')
  {
    var gs' := gs[i := gs[i].(counts := gs[i].counts + [d.cnt])];
    AppendKeepsLeaders(ds, d, gs);
    assert forall j :: 0 <= j < |gs| ==> gs'[j].key == gs[j].key && gs'[j].quota == gs[j].quota && gs'[j].achieved == gs[j].achieved;
  }

  lemma ExistingGroupCounts(ds: seq<OwnDetailRow>, d: OwnDetailRow, gs: seq<BrandGroup>, i: nat)
    requires CountsCollected(ds, gs) && InFirstAppearanceOrder(ds, gs) && KeysOccur(ds, gs)
    requires i < |gs| && gs[i].key == GroupKey(d)
    ensures CountsCollected(ds + [d], gs[i := gs[i].(counts := gs[i].counts + [d.cnt])])
  {
    var gs' := gs[i := gs[i].(counts := gs[i].counts + [d.cnt])];
    forall j | 0 <= j < |gs'|
      ensures gs'[j].counts == CountsFor(ds + [d], gs'[j].key)
    {
      CountsForAppend(ds, d, gs[j].key);
      if j != i {
        assert FirstOccurrence(ds, gs[j].key) != FirstOccurrence(ds, gs[i].key);
      }
    }
  }

  lemma ExistingGroupCovers(ds: seq<OwnDetailRow>, d: OwnDetailRow, gs: seq<BrandGroup>, i: nat)
    requires KeysCovered(ds, gs)
    requires i < |gs| && gs[i].key == GroupKey(d)
    ensures KeysCovered(ds + [d], gs[i := gs[i].(counts := gs[i].counts + [d.cnt])])
  {
    var ds' := ds + [d];
    var gs' := gs[i := gs[i].(counts := gs[i].counts + [d.cnt])];
    assert KeysOf(gs') == KeysOf(gs);
    forall m | 0 <= m < |ds'|
      ensures GroupKey(ds'[m]) in KeysOf(gs')
    {
      if m < |ds| {
        assert ds'[m] == ds[m];
      } else {
        assert KeysOf(gs)[i] == GroupKey(d);
      }
    }
  }

  /** A key without a group does not occur among covered rows. */
  lemma NewKeyAbsent(ds: seq<OwnDetailRow>, gs: seq<BrandGroup>, k: string)
    requires KeysCovered(ds, gs)
    requires k !in KeysOf(gs)
    ensures FirstOccurrence(ds, k) == |ds|
  {
  }

  lemma NewGroupCounts(ds: seq<OwnDetailRow>, d: OwnDetailRow, gs: seq<BrandGroup>, g: BrandGroup)
    requires CountsCollected(ds, gs) && KeysCovered(ds, gs)
    requires g.key == GroupKey(d) && g.key !in KeysOf(gs) && g.counts == [d.cnt]
    ensures CountsCollected(ds + [d], gs + [g])
  {
    var gs' := gs + [g];
    NewKeyAbsent(ds, gs, g.key);
    CountsForAbsent(ds, g.key);
    forall j | 0 <= j < |gs'|
      ensures gs'[j].counts == CountsFor(ds + [d], gs'[j].key)
    {
      CountsForAppend(ds, d, gs'[j].key);
      if j < |gs| {
        assert gs[j].key == KeysOf(gs)[j];
      }
    }
  }

  lemma NewGroupCovers(ds: seq<OwnDetailRow>, d: OwnDetailRow, gs: seq<BrandGroup>, g: BrandGroup)
    requires KeysCovered(ds, gs)
    requires g.key == GroupKey(d)
    ensures KeysCovered(ds + [d], gs + [g])
  {
    var ds' := ds + [d];
    assert KeysOf(gs + [g]) == KeysOf(gs) + [g.key];
    forall m | 0 <= m < |ds'|
      ensures GroupKey(ds'[m]) in KeysOf(gs + [g])
    {
      if m < |ds| {
        assert ds'[m] == ds[m];
      }
    }
  }

  lemma NewGroupOrder(ds: seq<OwnDetailRow>, d: OwnDetailRow, gs: seq<BrandGroup>, g: BrandGroup)
    requires InFirstAppearanceOrder(ds, gs) && KeysOccur(ds, gs) && KeysCovered(ds, gs)
    requires g.key == GroupKey(d) && g.key !in KeysOf(gs)
    ensures InFirstAppearanceOrder(ds + [d], gs + [g]) && KeysOccur(ds + [d], gs + [g])
  {
    var ds', gs' := ds + [d], gs + [g];
    NewKeyAbsent(ds, gs, g.key);
    AppendKeepsLeaders(ds, d, gs);
    FirstOccurrenceAppend(ds, d, g.key);
    assert FirstOccurrence(ds', gs'[|gs|].key) == |ds|;
    forall j | 0 <= j < |gs|
      ensures FirstOccurrence(ds', gs'[j].key) == FirstOccurrence(ds, gs[j].key) < |ds|
    {
      assert gs'[j] == gs[j];
    }
    forall i, j | 0 <= i < j < |gs'|
      ensures FirstOccurrence(ds', gs'[i].key) < FirstOccurrence(ds', gs'[j].key)
    {
      if j < |gs| {
        assert FirstOccurrence(ds, gs[i].key) < FirstOccurrence(ds, gs[j].key);
      }
    }
  }

  lemma NewGroupQuotas(ds: seq<OwnDetailRow>, d: OwnDetailRow, brandQuotas: seq<QuotaRow>, gs: seq<BrandGroup>, q: QuotaRow)
    requires QuotasLookedUp(ds, brandQuotas, gs) && KeysOccur(ds, gs) && KeysCovered(ds, gs)
    requires GroupKey(d) !in KeysOf(gs)
    requires LookupBrandQuota(brandQuotas, d.brandCd) == Some(q)
    ensures QuotasLookedUp(ds + [d], brandQuotas, gs + [BrandGroup(GroupKey(d), q.oriCnt, q.comCnt, [d.cnt])])
  {
    var ds' := ds + [d];
    var g := BrandGroup(GroupKey(d), q.oriCnt, q.comCnt, [d.cnt]);
    var gs' := gs + [g];
    NewKeyAbsent(ds, gs, g.key);
    AppendKeepsLeaders(ds, d, gs);
    FirstOccurrenceAppend(ds, d, g.key);
    assert ds'[|ds|] == d;
    forall j | 0 <= j < |gs'| && FirstOccurrence(ds', gs'[j].key) < |ds'|
      ensures var lq := LookupBrandQuota(brandQuotas, ds'[FirstOccurrence(ds', gs'[j].key)].brandCd);
        lq.Some? && gs'[j].quota == lq.value.oriCnt && gs'[j].achieved == lq.value.comCnt
    {
      if j < |gs| {
        assert gs'[j] == gs[j];
      }
    }
  }

  /** A row with a new key whose brand has a quota row opens a new group at the end. */
  lemma NewGroupStep(ds: seq<OwnDetailRow>, d: OwnDetailRow, brandQuotas: seq<QuotaRow>, gs: seq<BrandGroup>, q: QuotaRow)
    requires GroupsOf(ds, brandQuotas, gs)
    requires GroupKey(d) !in KeysOf(gs)
    requires LookupBrandQuota(brandQuotas, d.brandCd) == Some(q)
    ensures GroupsOf(ds + [d], brandQuotas, gs + [BrandGroup(GroupKey(d), q.oriCnt, q.comCnt, [d.cnt])])
  {
    var g := BrandGroup(GroupKey(d), q.oriCnt, q.comCnt, [d.cnt]);
    NewGroupOrder(ds, d, gs, g);
    NewGroupQuotas(ds, d, brandQuotas, gs, q);
    NewGroupCounts(ds, d, gs, g);
    NewGroupCovers(ds, d, gs, g);
  }

  /** A row with a new key whose brand has no quota row is a missing brand. */
  lemma MissingBrandStep(ds: seq<OwnDetailRow>, d: OwnDetailRow, brandQuotas: seq<QuotaRow>, gs: seq<BrandGroup>)
    requires GroupsOf(ds, brandQuotas, gs)
    requires GroupKey(d) !in KeysOf(gs)
    requires LookupBrandQuota(brandQuotas, d.brandCd).None?
    ensures MissingBrand(ds + [d], brandQuotas, d.brandCd)
  {
    var k := GroupKey(d);
    NewKeyAbsent(ds, gs, k);
    FirstOccurrenceAppend(ds, d, k);
    assert (ds + [d])[|ds|] == d;
    assert Leads(ds + [d], |ds|);
  }

  /** The reduce step for one more detail row `d`: extend its group, or open
      a new one with the figures of its brand, or fail on an unknown brand. */
  function AddDetail(gs: seq<BrandGroup>, d: OwnDetailRow, brandQuotas: seq<QuotaRow>): Result<seq<BrandGroup>, string> {
    match FirstIndex(gs, (g: BrandGroup) => g.key == GroupKey(d))
    case Some(i) => Ok(gs[i := gs[i].(counts := gs[i].counts + [d.cnt])])
    case None =>
      match LookupBrandQuota(brandQuotas, d.brandCd)
      case None => Err(d.brandCd)
      case Some(q) => Ok(gs + [BrandGroup(GroupKey(d), q.oriCnt, q.comCnt, [d.cnt])])
  }

  lemma AddDetailStep(ds: seq<OwnDetailRow>, d: OwnDetailRow, brandQuotas: seq<QuotaRow>, gs: seq<BrandGroup>)
    requires GroupsOf(ds, brandQuotas, gs)
    ensures match AddDetail(gs, d, brandQuotas)
      case Ok(gs') => GroupsOf(ds + [d], brandQuotas, gs')
      case Err(code) => MissingBrand(ds + [d], brandQuotas, code)
  {
    match FirstIndex(gs, (g: BrandGroup) => g.key == GroupKey(d))
    case Some(i) =>
      ExistingGroupStep(ds, d, brandQuotas, gs, i);
    case None =>
      assert GroupKey(d) !in KeysOf(gs);
      match LookupBrandQuota(brandQuotas, d.brandCd)
      case None =>
        MissingBrandStep(ds, d, brandQuotas, gs);
      case Some(q) =>
        NewGroupStep(ds, d, brandQuotas, gs, q);
  }

  lemma MissingBrandAppend(ds: seq<OwnDetailRow>, d: OwnDetailRow, brandQuotas: seq<QuotaRow>, code: string)
    requires MissingBrand(ds, brandQuotas, code)
    ensures MissingBrand(ds + [d], brandQuotas, code)
  {
    var j :| Leads(ds, j) && ds[j].brandCd == code && LookupBrandQuota(brandQuotas, code).None?;
    var ds' := ds + [d];
    assert ds'[j] == ds[j];
    FirstOccurrenceAppend(ds, d, GroupKey(ds[j]));
    assert Leads(ds', j);
  }

  /** The reduce of `getOwnerBrandTableRows` over the detail rows, failing
      with the brand code whose quota row the lookup does not find (where the
      source dereferences `undefined`). */
  function GroupByBrand(ds: seq<OwnDetailRow>, brandQuotas: seq<QuotaRow>): (r: Result<seq<BrandGroup>, string>)
    ensures r.Ok? ==> GroupsOf(ds, brandQuotas, r.value)
    ensures r.Err? ==> MissingBrand(ds, brandQuotas, r.error)
  {
    if |ds| == 0 then Ok([])
    else
      var prefix := ds[..|ds| - 1];
      var d := ds[|ds| - 1];
      assert ds == prefix + [d];
      match GroupByBrand(prefix, brandQuotas)
      case Err(e) =>
        MissingBrandAppend(prefix, d, brandQuotas, e);
        Err(e)
      case Ok(gs) =>
        AddDetailStep(prefix, d, brandQuotas, gs);
        AddDetail(gs, d, brandQuotas)
  }

  /** A grouping fails only on a missing brand, and then no grouping exists:
      success is exactly "the first row of every group names a brand with a
      quota row". */
  lemma GroupingSucceedsIffBrandsKnown(ds: seq<OwnDetailRow>, brandQuotas: seq<QuotaRow>)
    ensures GroupByBrand(ds, brandQuotas).Ok? <==>
      forall j :: Leads(ds, j) ==> LookupBrandQuota(brandQuotas, ds[j].brandCd).Some?
  {
    var r := GroupByBrand(ds, brandQuotas);
    if r.Ok? {
      var gs := r.value;
      forall j | Leads(ds, j)
        ensures LookupBrandQuota(brandQuotas, ds[j].brandCd).Some?
      {
        assert GroupKey(ds[j]) in KeysOf(gs);
        var i :| 0 <= i < |gs| && KeysOf(gs)[i] == GroupKey(ds[j]);
        assert gs[i].key == GroupKey(ds[j]);
      }
    }
  }

  function NumCells(xs: seq<int>): (cs: seq<Cell>)
    ensures |cs| == |xs|
    ensures forall i :: 0 <= i < |xs| ==> cs[i] == Num(xs[i])
  {
    seq(|xs|, i requires 0 <= i < |xs| => Num(xs[i]))
  }

  function TextCells(xs: seq<string>): (cs: seq<Cell>)
    ensures |cs| == |xs|
    ensures forall i :: 0 <= i < |xs| ==> cs[i] == Text(xs[i])
  {
    seq(|xs|, i requires 0 <= i < |xs| => Text(xs[i]))
  }

  function LabelsOf(rows: seq<QuotaRow>): seq<string> {
    seq(|rows|, i requires 0 <= i < |rows| => rows[i].answerLabel)
  }

  function AchievedOf(rows: seq<QuotaRow>): seq<int> {
    seq(|rows|, i requires 0 <= i < |rows| => rows[i].comCnt)
  }

  /** `[key, quota, ...counts, achieved, achieved/quota %]`. */
  function GroupRow(g: BrandGroup): seq<Cell> {
    [Text(g.key), Num(g.quota)] + NumCells(g.counts) + [Num(g.achieved), ToPercent(g.achieved, g.quota)]
  }

  function GroupQuotaSum(gs: seq<BrandGroup>): int {
    if |gs| == 0 then 0 else gs[0].quota + GroupQuotaSum(gs[1..])
  }

  function GroupAchievedSum(gs: seq<BrandGroup>): int {
    if |gs| == 0 then 0 else gs[0].achieved + GroupAchievedSum(gs[1..])
  }

  function GroupRows(gs: seq<BrandGroup>): Grid {
    seq(|gs|, i requires 0 <= i < |gs| => GroupRow(gs[i]))
  }

  /** The number in the next-to-last cell of a row, where the brand rows
      and the totals row keep the achieved count. */
  function AchievedCell(row: seq<Cell>): int {
    if |row| >= 2 && row[|row| - 2].Num? then row[|row| - 2].n else 0
  }

  function NextToLastSum(g: Grid): int {
    if |g| == 0 then 0 else AchievedCell(g[0]) + NextToLastSum(g[1..])
  }

  /** The cross-tab of the owner segments and the brand groups. */
  function OwnerBrandGrid(segment: seq<QuotaRow>, gs: seq<BrandGroup>): (t: Grid)
    ensures |t| == |gs| + 2
    ensures |t[0]| == 4 + |segment| && |t[|t| - 1]| == 4 + |segment|
    ensures t[0][0] == Text("- Owner Brand") && t[0][1] == Text("Quota")
    ensures t[0][2..2 + |segment|] == TextCells(LabelsOf(segment))
    ensures t[0][2 + |segment|..] == [Text("Total"), Text("Total(%)")]
    ensures t[|t| - 1][0] == Text("Total")
    ensures t[|t| - 1][2..2 + |segment|] == NumCells(AchievedOf(segment))
    ensures forall i :: 0 <= i < |gs| ==>
      && |t[i + 1]| == 4 + |gs[i].counts|
      && t[i + 1][0] == Text(gs[i].key) && t[i + 1][1] == Num(gs[i].quota)
      && t[i + 1][2..2 + |gs[i].counts|] == NumCells(gs[i].counts)
      && t[i + 1][2 + |gs[i].counts|..] == [Num(gs[i].achieved), ToPercent(gs[i].achieved, gs[i].quota)]
  {
    var header := [Text("- Owner Brand"), Text("Quota")] + TextCells(LabelsOf(segment)) + [Text("Total"), Text("Total(%)")];
    var tq := GroupQuotaSum(gs);
    var ta := GroupAchievedSum(gs);
    var total := [Text("Total"), Num(tq)] + NumCells(AchievedOf(segment)) + [Num(ta), ToPercent(ta, tq)];
    [header] + GroupRows(gs) + [total]
  }

  lemma {:induction false} GroupRowsSums(gs: seq<BrandGroup>)
    ensures ColumnSum(GroupRows(gs), 1) == GroupQuotaSum(gs)
    ensures NextToLastSum(GroupRows(gs)) == GroupAchievedSum(gs)
  {
    if |gs| > 0 {
      GroupRowsSums(gs[1..]);
      assert GroupRows(gs)[1..] == GroupRows(gs[1..]);
      var row := GroupRow(gs[0]);
      assert row[|row| - 2] == Num(gs[0].achieved);
    }
  }

  /** The totals row of the cross-tab sums the brand rows' quota and achieved
      columns and takes its percentage from those sums. */
  lemma OwnerBrandTotalsAreColumnSums(segment: seq<QuotaRow>, gs: seq<BrandGroup>)
    ensures var t := OwnerBrandGrid(segment, gs);
      var body := t[1..|t| - 1];
      var total := t[|t| - 1];
      && total[1] == Num(ColumnSum(body, 1))
      && total[|total| - 2] == Num(NextToLastSum(body))
      && total[|total| - 1] == ToPercent(NextToLastSum(body), ColumnSum(body, 1))
  {
    var t := OwnerBrandGrid(segment, gs);
    assert t[1..|t| - 1] == GroupRows(gs);
    GroupRowsSums(gs);
  }

  /** `getOwnerBrandTableRows`: the owner segment rows give the columns, the
      owner brand-quota rows the brand figures, and the detail rows the
      groups; an unknown brand is an error. */
  function OwnerBrandTable(series: seq<QuotaRow>, ds: seq<OwnDetailRow>): (r: Result<Grid, string>)
    ensures var brandQuotas := Filter(series, IsOwnerBrandQuotaRow);
      && (r.Ok? <==> forall j :: Leads(ds, j) ==> LookupBrandQuota(brandQuotas, ds[j].brandCd).Some?)
      && (r.Err? ==> MissingBrand(ds, brandQuotas, r.error))
      && (r.Ok? ==> exists gs :: GroupsOf(ds, brandQuotas, gs) && r.value == OwnerBrandGrid(Filter(series, IsOwnerSegmentRow), gs))
  {
    var segment := Filter(series, IsOwnerSegmentRow);
    var brandQuotas := Filter(series, IsOwnerBrandQuotaRow);
    GroupingSucceedsIffBrandsKnown(ds, brandQuotas);
    match GroupByBrand(ds, brandQuotas)
    case Err(code) => Err(code)
    case Ok(gs) => Ok(OwnerBrandGrid(segment, gs))
  }

  /** Brand rows of groups in first-appearance order (as every grouping of
      detail rows is) carry pairwise distinct labels. */
  lemma GroupLabelsDistinct(ds: seq<OwnDetailRow>, gs: seq<BrandGroup>, segment: seq<QuotaRow>)
    requires InFirstAppearanceOrder(ds, gs)
    ensures var t := OwnerBrandGrid(segment, gs);
      forall i, j :: 1 <= i < j < |t| - 1 ==> t[i][0] != t[j][0]
  {
    var t := OwnerBrandGrid(segment, gs);
    GroupKeysDistinct(ds, gs);
    forall i | 1 <= i < |t| - 1
      ensures |t[i]| > 0 && t[i][0] == Text(KeysOf(gs)[i - 1])
    {
      assert t[i] == t[(i - 1) + 1];
    }
    FirstCellsDistinct(t, KeysOf(gs));
  }

  /** Rows after a header that start with distinct keys start with distinct cells. */
  lemma FirstCellsDistinct(t: Grid, keys: seq<string>)
    requires |t| == |keys| + 2
    requires forall i :: 1 <= i < |t| - 1 ==> |t[i]| > 0 && t[i][0] == Text(keys[i - 1])
    requires forall i, j :: 0 <= i < j < |keys| ==> keys[i] != keys[j]
    ensures forall i, j :: 1 <= i < j < |t| - 1 ==> t[i][0] != t[j][0]
  {
    forall i, j | 1 <= i < j < |t| - 1
      ensures t[i][0] != t[j][0]
    {
      assert keys[i - 1] != keys[j - 1];
    }
  }

  /** Groups in first-appearance order have distinct keys. */
  lemma GroupKeysDistinct(ds: seq<OwnDetailRow>, gs: seq<BrandGroup>)
    requires InFirstAppearanceOrder(ds, gs)
    ensures forall i, j :: 0 <= i < j < |gs| ==> KeysOf(gs)[i] != KeysOf(gs)[j]
  {
    forall i, j | 0 <= i < j < |gs|
      ensures gs[i].key != gs[j].key
    {
      assert FirstOccurrence(ds, gs[i].key) < FirstOccurrence(ds, gs[j].key);
    }
  }
}
