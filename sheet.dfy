/**
 * Spreadsheet cells as the sheet reader hands them to the views, and the two
 * JavaScript number parsers the import handlers apply to them:
 * `parseInt(cell, 10)` and `parseFloat(cell)`.
 */
module Sheet {
  import opened Optional
  import opened Text

  /** One cell: a number, a text, or an empty cell. */
  datatype Cell = Num(x: real) | Str(s: string) | Blank

  type Row = seq<Cell>

  /** `row[i]`, with `undefined` past the end read as an empty cell. */
  function CellAt(row: Row, i: nat): Cell {
    if i < |row| then row[i] else Blank
  }

  /**
   * Rounding toward zero: what `parseInt` makes of a number whose JavaScript text has
   * no exponent (zero, or a magnitude from 10^-6 up to but not including 10^21).
   */
  function Trunc(x: real): (n: int)
    ensures 0.0 <= x ==> n as real <= x < n as real + 1.0
    ensures x < 0.0 ==> n as real - 1.0 < x <= n as real
  {
    if x >= 0.0 then x.Floor else -((-x).Floor)
  }

  /** JavaScript's white space and line terminators, which both parsers skip at the start. */
  predicate IsSpace(c: char) {
    c == ' ' || c == '\t' || c == '\n' || c == '\r' || c == '\U{000B}' || c == '\U{000C}'
    || c == '\U{00A0}' || c == '\U{FEFF}' || c == '\U{1680}' || ('\U{2000}' <= c <= '\U{200A}')
    || c == '\U{2028}' || c == '\U{2029}' || c == '\U{202F}' || c == '\U{205F}' || c == '\U{3000}'
  }

  /** Leading white space removed. */
  function TrimStart(s: string): (r: string)
    ensures |r| <= |s| && r == s[|s| - |r|..]
    ensures r == [] || !IsSpace(r[0])
    decreases |s|
  {
    if s != [] && IsSpace(s[0]) then TrimStart(s[1..]) else s
  }

  /** Length of the run of decimal digits s starts with. */
  function LeadingDigits(s: string): (k: nat)
    ensures k <= |s| && AllDigits(s[..k])
    ensures k == |s| || !IsDigit(s[k])
  {
    if s != [] && IsDigit(s[0]) then
      var k := LeadingDigits(s[1..]);
      assert s[..k + 1] == [s[0]] + s[1..][..k];
      k + 1
    else 0
  }

  /** An optional leading sign: whether it is '-', and the text after it. */
  function SignOf(t: string): (bool, string) {
    if |t| > 0 && t[0] == '-' then (true, t[1..])
    else if |t| > 0 && t[0] == '+' then (false, t[1..])
    else (false, t)
  }

  /** `parseInt(s, 10)` on a text: `None` is NaN. */
  function ParseIntText(s: string): Option<int> {
    var (negative, u) := SignOf(TrimStart(s));
    var k := LeadingDigits(u);
    if k == 0 then None
    else
      var m: int := DigitsValue(u[..k]);
      Some(if negative then -m else m)
  }

  function Pow10(n: nat): (p: nat)
    ensures p >= 1
  {
    if n == 0 then 1 else 10 * Pow10(n - 1)
  }

  /** m times ten to the power e. */
  function Scale(m: real, e: int): real {
    if e >= 0 then m * Pow10(e) as real else m / Pow10(-e) as real
  }

  /** The exponent `e[+-]digits` s starts with, or 0 when it has none. */
  function ExponentOf(s: string): int {
    if |s| >= 2 && (s[0] == 'e' || s[0] == 'E') then
      var (negative, u) := SignOf(s[1..]);
      var k := LeadingDigits(u);
      if k == 0 then 0
      else
        var e: int := DigitsValue(u[..k]);
        if negative then -e else e
    else 0
  }

  /**
   * The digits `digits[.digits]` (or `.digits`) u starts with: their value and the
   * text after them; `None` when u does not start with a digit or '.' and a digit.
   */
  function DecimalPrefix(u: string): Option<(real, string)> {
    var k := LeadingDigits(u);
    var hasDot := k < |u| && u[k] == '.';
    var f := if hasDot then LeadingDigits(u[k + 1..]) else 0;
    if k == 0 && f == 0 then None
    else if hasDot then
      Some((DigitsValue(u[..k]) as real + DigitsValue(u[k + 1..][..f]) as real / Pow10(f) as real,
            u[k + 1 + f..]))
    else Some((DigitsValue(u[..k]) as real, u[k..]))
  }

  /** `parseFloat(s)` on a text: the longest decimal literal s starts with; `None` is NaN. */
  function ParseFloatText(s: string): Option<real> {
    var (negative, u) := SignOf(TrimStart(s));
    match DecimalPrefix(u)
    case None => None
    case Some((m, rest)) =>
      var x := Scale(m, ExponentOf(rest));
      Some(if negative then -x else x)
  }

  /** `parseInt(cell, 10)`. */
  function ParseInt(c: Cell): Option<int> {
    match c
    case Num(x) => Some(Trunc(x))
    case Str(s) => ParseIntText(s)
    case Blank => None
  }

  /** `parseFloat(cell)`. */
  function ParseFloat(c: Cell): Option<real> {
    match c
    case Num(x) => Some(x)
    case Str(s) => ParseFloatText(s)
    case Blank => None
  }

  /** `parseFloat(cell) || 0`. */
  function FloatOrZero(c: Cell): real {
    ParseFloat(c).GetOr(0.0)
  }

  /** `parseInt(cell, 10) || 0`. */
  function IntOrZero(c: Cell): int {
    ParseInt(c).GetOr(0)
  }

  /** A whole number survives `parseInt` unchanged. */
  lemma TruncOfInt(n: int)
    ensures Trunc(n as real) == n
  {
    if n < 0 {
      assert -(n as real) == (-n) as real;
    }
  }

  lemma LeadingDigitsAll(s: string)
    requires AllDigits(s)
    ensures LeadingDigits(s) == |s|
  {
    if |s| > 0 {
      assert AllDigits(s[1..]);
      LeadingDigitsAll(s[1..]);
    }
  }

  lemma UnsignedStart(s: string)
    requires s != [] && IsDigit(s[0])
    ensures SignOf(TrimStart(s)) == (false, s)
  {
  }

  /** `parseInt` reads back the decimal text of a natural number. */
  lemma ParseIntOfDecimal(n: nat)
    ensures ParseIntText(NatToString(n)) == Some(n)
  {
    var s := NatToString(n);
    UnsignedStart(s);
    LeadingDigitsAll(s);
    assert s[..|s|] == s;
    DigitsValueOfNatToString(n);
  }

  /** `parseFloat` reads back the decimal text of a natural number. */
  lemma ParseFloatOfDecimal(n: nat)
    ensures ParseFloatText(NatToString(n)) == Some(n as real)
  {
    var s := NatToString(n);
    UnsignedStart(s);
    LeadingDigitsAll(s);
    assert s[..|s|] == s;
    assert s[|s|..] == [];
    DigitsValueOfNatToString(n);
    assert DecimalPrefix(s) == Some((n as real, []));
    assert ExponentOf([]) == 0;
  }

  lemma PointFiveDigits()
    ensures LeadingDigits("0.5") == 1 && LeadingDigits("5") == 1
    ensures DigitsValue("0") == 0 && DigitsValue("5") == 5
  {
    assert "0.5"[1..] == ".5";
  }

  lemma PointFivePrefix()
    ensures DecimalPrefix("0.5") == Some((0.5, []))
  {
    PointFiveDigits();
    assert "0.5"[2..] == "5";
    assert "0.5"[..1] == "0";
    assert "5"[..1] == "5";
    assert "0.5"[3..] == [];
  }

  /** An illustration, on one input, of `ParseFloatOfDecimal`: `parseFloat("0.5")` is one half. */
  lemma ParseFloatExample()
    ensures ParseFloatText("0.5") == Some(0.5)
  {
    UnsignedStart("0.5");
    PointFivePrefix();
    assert ExponentOf([]) == 0;
  }

  lemma TwelveDigits()
    ensures LeadingDigits("12.7") == 2 && DigitsValue("12") == 12
  {
    assert "12.7"[1..] == "2.7";
    assert "2.7"[1..] == ".7";
    assert "12"[..1] == "1";
  }

  /** An illustration on one input: `parseInt("12.7", 10)` stops at the point. The general law is `ParseIntOfDecimal`. */
  lemma ParseIntStopsAtPoint()
    ensures ParseIntText("12.7") == Some(12)
  {
    UnsignedStart("12.7");
    TwelveDigits();
    assert "12.7"[..2] == "12";
  }

  lemma FortyTwoDigits()
    ensures LeadingDigits("42px") == 2 && DigitsValue("42") == 42
  {
    assert "42px"[1..] == "2px";
    assert "2px"[1..] == "px";
    assert "42"[..1] == "4";
  }

  lemma FortyTwoTrim()
    ensures TrimStart("  -42px") == "-42px"
  {
    assert IsSpace("  -42px"[0]) && "  -42px"[1..] == " -42px";
    assert IsSpace(" -42px"[0]) && " -42px"[1..] == "-42px";
    assert !IsSpace("-42px"[0]);
    assert TrimStart("-42px") == "-42px";
    assert TrimStart(" -42px") == "-42px";
  }

  /**
   * An illustration on one input: `parseInt("  -42px", 10)` skips leading space, keeps
   * the sign and ignores the tail. The general law is `ParseIntOfDecimal`.
   */
  lemma ParseIntSignAndTail()
    ensures ParseIntText("  -42px") == Some(-42)
  {
    FortyTwoTrim();
    assert SignOf("-42px") == (true, "42px");
    FortyTwoDigits();
    assert "42px"[..2] == "42";
  }

  /** A text without a single decimal digit is NaN to both parsers, so `|| 0` turns it into 0. */
  lemma NoDigitNaN(s: string)
    requires forall i :: 0 <= i < |s| ==> !IsDigit(s[i])
    ensures ParseIntText(s) == None && ParseFloatText(s) == None
    ensures IntOrZero(Str(s)) == 0 && FloatOrZero(Str(s)) == 0.0
  {
    var (negative, u) := SignOf(TrimStart(s));
    assert forall i :: 0 <= i < |u| ==> !IsDigit(u[i]);
    assert LeadingDigits(u) == 0;
    if 0 < |u| && u[0] == '.' {
      var w := u[1..];
      assert forall i :: 0 <= i < |w| ==> !IsDigit(w[i]);
      assert LeadingDigits(w) == 0;
    }
  }
}
