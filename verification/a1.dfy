/** Spreadsheet A1 notation as both generations build it: a column letter
    followed by the decimal row number (`F12`), and two such cell references
    joined by a colon (`A1:E5`).  The row number is JavaScript's rendering of
    an integer; the parser below is the reference that shows the rendering
    loses nothing. */
module A1 {
  import opened Common

  predicate IsDigit(c: char) {
    '0' <= c <= '9'
  }

  predicate AllDigits(s: string) {
    forall i :: 0 <= i < |s| ==> IsDigit(s[i])
  }

  function DigitChar(d: nat): (c: char)
    requires d < 10
    ensures IsDigit(c)
  {
    ('0' as int + d) as char
  }

  /** Decimal rendering of a natural number, most significant digit first. */
  function Decimal(n: nat): (s: string)
    ensures |s| >= 1 && AllDigits(s)
  {
    if n < 10 then [DigitChar(n)] else Decimal(n / 10) + [DigitChar(n % 10)]
  }

  /** `` `${n}` `` for an integer `n`: a minus sign, then the digits. */
  function DecimalInt(n: int): (s: string)
    ensures |s| >= 1
    ensures forall i :: 0 <= i < |s| ==> s[i] == '-' || IsDigit(s[i])
  {
    if n < 0 then "-" + Decimal(-n) else Decimal(n)
  }

  /** Value of a string of decimal digits, read most significant first. */
  function DigitsValue(s: string): nat
    requires AllDigits(s)
  {
    if |s| == 0 then 0 else DigitsValue(s[..|s| - 1]) * 10 + (s[|s| - 1] as int - '0' as int)
  }

  /** Reads back an optionally negative decimal integer. */
  function ParseInt(s: string): Option<int> {
    if |s| > 1 && s[0] == '-' && AllDigits(s[1..]) then Some(0 - DigitsValue(s[1..]) as int)
    else if |s| > 0 && AllDigits(s) then Some(DigitsValue(s) as int)
    else None
  }

  lemma {:induction false} DecimalRoundTrip(n: nat)
    ensures DigitsValue(Decimal(n)) == n
  {
    if n >= 10 {
      var s := Decimal(n / 10) + [DigitChar(n % 10)];
      assert s[..|s| - 1] == Decimal(n / 10);
      DecimalRoundTrip(n / 10);
    }
  }

  /** Rendering an integer and parsing it back gives the integer. */
  lemma ParseIntRoundTrip(n: int)
    ensures ParseInt(DecimalInt(n)) == Some(n)
  {
    if n < 0 {
      var s := "-" + Decimal(-n);
      assert s[1..] == Decimal(-n);
      DecimalRoundTrip(-n);
    } else {
      DecimalRoundTrip(n);
      assert IsDigit(Decimal(n)[0]);
    }
  }

  datatype CellAddress = CellAddress(column: char, row: int)

  datatype RangeAddress = RangeAddress(first: CellAddress, last: CellAddress)

  /** A single-cell reference such as `F12`. */
  function CellRef(column: char, row: int): string {
    [column] + DecimalInt(row)
  }

  /** A range reference such as `A1:E5`. */
  function RangeRef(c1: char, r1: int, c2: char, r2: int): string {
    CellRef(c1, r1) + ":" + CellRef(c2, r2)
  }

  function ParseCell(s: string): Option<CellAddress> {
    if |s| == 0 then None
    else match ParseInt(s[1..])
      case Some(row) => Some(CellAddress(s[0], row))
      case None => None
  }

  function ParseRange(s: string): Option<RangeAddress> {
    match FirstIndex(s, (c: char) => c == ':')
    case None => None
    case Some(k) =>
      match (ParseCell(s[..k]), ParseCell(s[k + 1..]))
      case (Some(a), Some(b)) => Some(RangeAddress(a, b))
      case _ => None
  }

  lemma CellRoundTrip(column: char, row: int)
    ensures ParseCell(CellRef(column, row)) == Some(CellAddress(column, row))
  {
    assert CellRef(column, row)[1..] == DecimalInt(row);
    ParseIntRoundTrip(row);
  }

  /** A range reference whose first column letter is not a colon parses back
      to the two cell addresses it was built from. */
  lemma RangeRoundTrip(c1: char, r1: int, c2: char, r2: int)
    requires c1 != ':'
    ensures ParseRange(RangeRef(c1, r1, c2, r2)) == Some(RangeAddress(CellAddress(c1, r1), CellAddress(c2, r2)))
  {
    var left := CellRef(c1, r1);
    var s := RangeRef(c1, r1, c2, r2);
    var isColon := (c: char) => c == ':';
    assert s[|left|] == ':';
    assert forall m :: 0 <= m < |left| ==> s[m] == left[m] && !isColon(s[m]);
    var k := FirstIndex(s, isColon);
    assert k.Some?;
    assert k.value == |left|;
    assert s[..|left|] == left;
    assert s[|left| + 1..] == CellRef(c2, r2);
    CellRoundTrip(c1, r1);
    CellRoundTrip(c2, r2);
  }

  /** A character of a reference: a column letter (or the '@' left of
      column A), a digit, a minus sign, or the colon. */
  predicate IsRefChar(c: char) {
    'A' <= c <= 'Z' || c == '@' || IsDigit(c) || c == '-' || c == ':'
  }

  /** A range reference between two column letters is made of reference characters only. */
  lemma RangeRefChars(c1: char, r1: int, c2: char, r2: int)
    requires IsRefChar(c1) && IsRefChar(c2)
    ensures forall i :: 0 <= i < |RangeRef(c1, r1, c2, r2)| ==> IsRefChar(RangeRef(c1, r1, c2, r2)[i])
  {
    var a, b := CellRef(c1, r1), CellRef(c2, r2);
    assert forall i :: 0 <= i < |a| ==> IsRefChar(a[i]) by {
      assert forall i :: 1 <= i < |a| ==> a[i] == DecimalInt(r1)[i - 1];
    }
    assert forall i :: 0 <= i < |b| ==> IsRefChar(b[i]) by {
      assert forall i :: 1 <= i < |b| ==> b[i] == DecimalInt(r2)[i - 1];
    }
  }

  /** A string with no colon is not a range reference. */
  lemma NoColonNoRange(s: string)
    requires ':' !in s
    ensures ParseRange(s) == None
  {
  }
}
