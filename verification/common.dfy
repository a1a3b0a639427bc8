/** Vocabulary shared by both generations of the reporting pipeline: optional
    values, display cells, rectangles on a sheet, and the sequence helpers the
    JavaScript code gets from `Array.prototype` (`find`, `filter`, `flatMap`). */
module Common {

  datatype Option<+T> = None | Some(value: T)

  datatype Result<+T, +E> = Ok(value: T) | Err(error: E)

  /** One displayed cell of a table.  Numbers are counts, so they are
      integers.  `Fixed2Percent(v)` stands for the text `v.toFixed(2) + "%"`:
      the model keeps the exact percentage `v` and leaves the two-decimal
      rendering abstract.  `PlainPercent(v)` stands for `` `${v}%` `` of a
      percentage the data source already computed. */
  datatype Cell =
    | Text(s: string)
    | Num(n: int)
    | Fixed2Percent(value: real)
    | PlainPercent(value: real)

  /** Rows of cells, as written to the spreadsheet. */
  type Grid = seq<seq<Cell>>

  /** `toPercent(part, whole)`: a zero whole yields the literal text
      "0.00%" and no division happens; otherwise the cell carries the
      percentage `part / whole * 100`. */
  function ToPercent(part: int, whole: int): (c: Cell)
    ensures whole == 0 <==> c == Text("0.00%")
    ensures whole != 0 ==> c.Fixed2Percent? && c.value * (whole as real) == (part as real) * 100.0
  {
    if whole == 0 then Text("0.00%")
    else
      var v := (part as real / whole as real) * 100.0;
      assert v * (whole as real) == (part as real) * 100.0;
      Fixed2Percent(v)
  }

  /** A sanity property of the model's exact percentage, not a promise of
      the source: it depends only on the ratio of its arguments. */
  lemma PercentOfScaledRatio(part: int, whole: int, k: int)
    requires k > 0
    ensures ToPercent(k * part, k * whole) == ToPercent(part, whole)
  {
    if whole != 0 {
      var a := ToPercent(k * part, k * whole);
      var b := ToPercent(part, whole);
      assert (k * whole) as real == (k as real) * (whole as real);
      assert (k * part) as real == (k as real) * (part as real);
      assert a.value * (k as real) * (whole as real) == (k as real) * (part as real) * 100.0;
      assert a.value * (whole as real) == b.value * (whole as real);
    }
  }

  /** An interval of rows or columns; whether `end` is inclusive is fixed per
      generation of the code. */
  datatype Span = Span(start: int, end: int)

  /** A 0-based, half-open rectangle of cells: rows `[rowStart, rowEnd)` and
      columns `[colStart, colEnd)`, as the spreadsheet API's grid ranges. */
  datatype Rect = Rect(rowStart: int, rowEnd: int, colStart: int, colEnd: int) {

    predicate Covers(r: int, c: int) {
      rowStart <= r < rowEnd && colStart <= c < colEnd
    }

    predicate IsEmpty() {
      rowEnd <= rowStart || colEnd <= colStart
    }

    /** Every bound lies within `outer`'s bounds. */
    predicate Within(outer: Rect) {
      && outer.rowStart <= rowStart && rowEnd <= outer.rowEnd
      && outer.colStart <= colStart && colEnd <= outer.colEnd
    }
  }

  /** Two rectangles are separated by a row line or a column line. */
  predicate Disjoint(a: Rect, b: Rect) {
    a.rowEnd <= b.rowStart || b.rowEnd <= a.rowStart || a.colEnd <= b.colStart || b.colEnd <= a.colStart
  }

  predicate PairwiseDisjoint(rs: seq<Rect>) {
    forall i, j :: 0 <= i < j < |rs| ==> Disjoint(rs[i], rs[j])
  }

  /** For non-empty rectangles, being separated by a line is the same as
      sharing no cell. */
  lemma DisjointIffNoSharedCell(a: Rect, b: Rect)
    requires !a.IsEmpty() && !b.IsEmpty()
    ensures Disjoint(a, b) <==> forall r, c :: !(a.Covers(r, c) && b.Covers(r, c))
  {
    if !Disjoint(a, b) {
      var r := if a.rowStart < b.rowStart then b.rowStart else a.rowStart;
      var c := if a.colStart < b.colStart then b.colStart else a.colStart;
      assert a.Covers(r, c) && b.Covers(r, c);
    }
  }

  /** The capital letters the column-letter helpers map onto. */
  const Alphabet: string := "ABCDEFGHIJKLMNOPQRSTUVWXYZ"

  /** The numeric value of cell `col` of a row, 0 when absent or not a number. */
  function NumAt(row: seq<Cell>, col: nat): int {
    if col < |row| && row[col].Num? then row[col].n else 0
  }

  /** A sheet of a spreadsheet as the API describes it; either property may
      be missing. */
  datatype Sheet = Sheet(title: Option<string>, sheetId: Option<int>)

  /** Some sheet of `sheets` has title `name`. */
  predicate HasTitle(sheets: seq<Sheet>, name: string) {
    exists i :: 0 <= i < |sheets| && sheets[i].title == Some(name)
  }

  /** Position of the first sheet titled `name`. */
  function SheetWithTitle(sheets: seq<Sheet>, name: string): (r: Option<nat>)
    ensures r.Some? ==>
      && r.value < |sheets| && sheets[r.value].title == Some(name)
      && forall m :: 0 <= m < r.value ==> sheets[m].title != Some(name)
    ensures r.None? <==> !HasTitle(sheets, name)
  {
    FirstIndex(sheets, (s: Sheet) => s.title == Some(name))
  }

  /** A grid range of a request: a rectangle and the sheet it is on, absent
      until the request is stamped with one. */
  datatype GridRange = GridRange(sheetId: Option<int>, rect: Rect)

  /** `MERGE_ROWS` merges each row of the range on its own; `MERGE_COLUMNS`
      each column. */
  datatype MergeType = MergeRows | MergeColumns

  datatype Merge = Merge(mergeType: MergeType, range: GridRange)

  /** The index `j` is the first position of `xs` satisfying `p`. */
  ghost predicate IsFirst<T>(xs: seq<T>, p: T -> bool, j: int) {
    0 <= j < |xs| && p(xs[j]) && forall m :: 0 <= m < j ==> !p(xs[m])
  }

  /** `Array.prototype.find`/`findIndex`: the first position satisfying `p`. */
  function FirstIndex<T>(xs: seq<T>, p: T -> bool): (r: Option<nat>)
    ensures r.Some? ==> IsFirst(xs, p, r.value)
    ensures r.None? <==> forall m :: 0 <= m < |xs| ==> !p(xs[m])
  {
    FirstIndexFrom(xs, p, 0)
  }

  function FirstIndexFrom<T>(xs: seq<T>, p: T -> bool, i: nat): (r: Option<nat>)
    requires i <= |xs|
    ensures r.Some? ==> i <= r.value < |xs| && p(xs[r.value]) && forall m :: i <= m < r.value ==> !p(xs[m])
    ensures r.None? ==> forall m :: i <= m < |xs| ==> !p(xs[m])
    decreases |xs| - i
  {
    if i == |xs| then None
    else if p(xs[i]) then Some(i)
    else FirstIndexFrom(xs, p, i + 1)
  }

  /** The last position of `xs` satisfying `p`. */
  function LastIndex<T>(xs: seq<T>, p: T -> bool): (r: Option<nat>)
    ensures r.Some? ==> r.value < |xs| && p(xs[r.value]) && forall m :: r.value < m < |xs| ==> !p(xs[m])
    ensures r.None? <==> forall m :: 0 <= m < |xs| ==> !p(xs[m])
  {
    if |xs| == 0 then None
    else if p(xs[|xs| - 1]) then Some(|xs| - 1)
    else LastIndex(xs[..|xs| - 1], p)
  }

  /** `a` can be obtained from `b` by deleting elements. */
  predicate IsSubsequence<T(==)>(a: seq<T>, b: seq<T>)
    decreases |b|
  {
    if |a| == 0 then true
    else if |b| == 0 then false
    else if a[0] == b[0] then IsSubsequence(a[1..], b[1..])
    else IsSubsequence(a, b[1..])
  }

  /** `Array.prototype.filter`: the elements satisfying `p`, in order. */
  function Filter<T(==,!new)>(xs: seq<T>, p: T -> bool): (r: seq<T>)
    ensures forall i :: 0 <= i < |r| ==> p(r[i])
    ensures forall x :: multiset(r)[x] == if p(x) then multiset(xs)[x] else 0
    ensures IsSubsequence(r, xs)
  {
    if |xs| == 0 then []
    else
      assert xs == [xs[0]] + xs[1..];
      var rest := Filter(xs[1..], p);
      if p(xs[0]) then [xs[0]] + rest else rest
  }

  /** Total length of a sequence of sequences. */
  function SumLengths<T>(xss: seq<seq<T>>): nat {
    if |xss| == 0 then 0 else |xss[0]| + SumLengths(xss[1..])
  }

  /** Number of elements that come before `xss[i]` once flattened. */
  function Offset<T>(xss: seq<seq<T>>, i: nat): nat
    requires i <= |xss|
  {
    SumLengths(xss[..i])
  }

  /** Total length depends only on the lengths of the parts. */
  lemma {:induction false} SumLengthsSame<T, U>(xss: seq<seq<T>>, yss: seq<seq<U>>)
    requires |xss| == |yss| && forall k :: 0 <= k < |xss| ==> |xss[k]| == |yss[k]|
    ensures SumLengths(xss) == SumLengths(yss)
  {
    if |xss| > 0 {
      SumLengthsSame(xss[1..], yss[1..]);
    }
  }

  /** So does every offset. */
  lemma OffsetSame<T, U>(xss: seq<seq<T>>, yss: seq<seq<U>>, i: nat)
    requires |xss| == |yss| && forall k :: 0 <= k < |xss| ==> |xss[k]| == |yss[k]|
    requires i <= |xss|
    ensures Offset(xss, i) == Offset(yss, i)
  {
    SumLengthsSame(xss[..i], yss[..i]);
  }

  /** `flatMap` with the identity: the inner sequences, in order, end to end;
      inner sequence `i` occupies the slice starting at `Offset(xss, i)`. */
  function Flatten<T>(xss: seq<seq<T>>): (r: seq<T>)
    ensures |r| == SumLengths(xss)
    ensures forall i :: 0 <= i < |xss| ==>
      Offset(xss, i) + |xss[i]| <= |r| && r[Offset(xss, i)..Offset(xss, i) + |xss[i]|] == xss[i]
  {
    if |xss| == 0 then []
    else
      var rest := Flatten(xss[1..]);
      var r := xss[0] + rest;
      assert forall i :: 0 <= i < |xss| ==>
        Offset(xss, i) + |xss[i]| <= |r| && r[Offset(xss, i)..Offset(xss, i) + |xss[i]|] == xss[i] by {
        forall i | 0 <= i < |xss|
          ensures Offset(xss, i) + |xss[i]| <= |r| && r[Offset(xss, i)..Offset(xss, i) + |xss[i]|] == xss[i]
        {
          if i > 0 {
            var before := xss[1..][..i - 1];
            assert xss[..i] == [xss[0]] + before;
            assert ([xss[0]] + before)[1..] == before;
            assert Offset(xss, i) == |xss[0]| + Offset(xss[1..], i - 1);
            assert xss[1..][i - 1] == xss[i];
            var o := Offset(xss[1..], i - 1);
            assert rest[o..o + |xss[i]|] == xss[i];
            assert r[|xss[0]| + o..|xss[0]| + o + |xss[i]|] == rest[o..o + |xss[i]|];
          } else {
            assert xss[..0] == [];
          }
        }
      }
      r
  }

  /** Sum of a sequence of integers. */
  function Sum(xs: seq<int>): int {
    if |xs| == 0 then 0 else xs[0] + Sum(xs[1..])
  }
}
