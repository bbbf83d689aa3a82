/**
 * The string operations the views perform on keys and labels: decimal rendering
 * of integers (`String(n)`), `padStart(2, '0')`, `split` on one character and
 * `join`.
 */
module Text {
  import opened Seqs

  predicate IsDigit(c: char) {
    '0' <= c <= '9'
  }

  predicate AllDigits(s: string) {
    forall i :: 0 <= i < |s| ==> IsDigit(s[i])
  }

  function DigitChar(d: nat): (c: char)
    requires d < 10
    ensures IsDigit(c) && c as int - '0' as int == d
  {
    (48 + d) as char
  }

  function DigitValue(c: char): nat
    requires IsDigit(c)
  {
    c as int - '0' as int
  }

  /** `String(n)` for a non-negative integer: its decimal digits, no leading zero. */
  function NatToString(n: nat): (s: string)
    ensures |s| > 0 && AllDigits(s)
    decreases n
  {
    if n < 10 then [DigitChar(n)] else NatToString(n / 10) + [DigitChar(n % 10)]
  }

  /** The number a string of decimal digits denotes. */
  function DigitsValue(s: string): nat
    requires AllDigits(s)
    decreases |s|
  {
    if s == [] then 0 else 10 * DigitsValue(s[..|s| - 1]) + DigitValue(s[|s| - 1])
  }

  /** Reading back the decimal rendering of n gives n. */
  lemma {:induction false} DigitsValueOfNatToString(n: nat)
    ensures DigitsValue(NatToString(n)) == n
    decreases n
  {
    if n >= 10 {
      var s := NatToString(n);
      assert s[..|s| - 1] == NatToString(n / 10);
      DigitsValueOfNatToString(n / 10);
    }
  }

  /** Distinct numbers render as distinct strings. */
  lemma NatToStringInjective(m: nat, n: nat)
    ensures NatToString(m) == NatToString(n) <==> m == n
  {
    DigitsValueOfNatToString(m);
    DigitsValueOfNatToString(n);
  }

  /** `String(n).padStart(2, '0')`. */
  function Pad2(n: nat): (s: string)
    ensures AllDigits(s)
    ensures n < 100 ==> s == [DigitChar(n / 10), DigitChar(n % 10)]
    ensures n >= 10 ==> s == NatToString(n)
  {
    if n < 10 then ['0'] + NatToString(n) else NatToString(n)
  }

  lemma Pad2Injective(m: nat, n: nat)
    requires m < 100 && n < 100
    ensures Pad2(m) == Pad2(n) <==> m == n
  {
    if Pad2(m) == Pad2(n) {
      assert DigitChar(m / 10) == DigitChar(n / 10);
      assert DigitChar(m % 10) == DigitChar(n % 10);
    }
  }

  /** Index of the first occurrence of c in s. */
  function IndexOf(s: string, c: char): (i: nat)
    requires c in s
    ensures i < |s| && s[i] == c && c !in s[..i]
  {
    if s[0] == c then 0
    else
      var j := IndexOf(s[1..], c);
      assert s[..j + 1] == [s[0]] + s[1..][..j];
      j + 1
  }

  /** `s.split(sep)` for a one-character separator. */
  function Split(s: string, sep: char): (parts: seq<string>)
    ensures |parts| > 0
    decreases |s|
  {
    if sep !in s then [s]
    else
      var i := IndexOf(s, sep);
      [s[..i]] + Split(s[i + 1..], sep)
  }

  /** `parts.join(sep)`. */
  function Join(parts: seq<string>, sep: string): string
  {
    if parts == [] then ""
    else if |parts| == 1 then parts[0]
    else parts[0] + sep + Join(parts[1..], sep)
  }

  /** `s.split('T')[0]`: the date part of an ISO 8601 date-time, or s when it has no 'T'. */
  function DatePart(s: string): (r: string)
    ensures 'T' !in s ==> r == s
    ensures 'T' in s ==> r == s[..IndexOf(s, 'T')]
  {
    Split(s, 'T')[0]
  }

  /** Splitting after a separator-free first field peels that field off. */
  lemma SplitFirst(a: string, rest: string, sep: char)
    requires sep !in a
    ensures Split(a + [sep] + rest, sep) == [a] + Split(rest, sep)
  {
    var s := a + [sep] + rest;
    assert s[|a|] == sep;
    var i := IndexOf(s, sep);
    assert s[..i] == a;
    assert s[i + 1..] == rest;
  }

  /** A leading separator splits off an empty first field. */
  lemma SplitLeading(x: string, sep: char)
    ensures Split([sep] + x, sep) == [""] + Split(x, sep)
  {
    var s := [sep] + x;
    assert s[0] == sep;
    assert s[1..] == x;
  }

  /** Three separator-free fields joined by the separator split back into those fields. */
  lemma SplitThree(a: string, b: string, c: string, sep: char)
    requires sep !in a && sep !in b && sep !in c
    ensures Split(a + [sep] + b + [sep] + c, sep) == [a, b, c]
  {
    assert a + [sep] + b + [sep] + c == a + [sep] + (b + [sep] + c);
    SplitFirst(a, b + [sep] + c, sep);
    SplitFirst(b, c, sep);
  }

  lemma DigitsHaveNo(s: string, c: char)
    requires AllDigits(s) && !IsDigit(c)
    ensures c !in s
  {
    assert forall i :: 0 <= i < |s| ==> s[i] != c;
  }
  /** A character in none of the parts and not the separator is not in their join. */
  lemma {:induction false} JoinHasNo(parts: seq<string>, sep: string, c: char)
    requires c !in sep && forall i :: 0 <= i < |parts| ==> c !in parts[i]
    ensures c !in Join(parts, sep)
    decreases |parts|
  {
    if |parts| > 1 {
      JoinHasNo(parts[1..], sep, c);
    }
  }

  /** The join starts with the first part. */
  lemma JoinStartsWith(parts: seq<string>, sep: string)
    requires |parts| > 0
    ensures |Join(parts, sep)| >= |parts[0]| && Join(parts, sep)[..|parts[0]|] == parts[0]
  {
    if |parts| > 1 {
      assert Join(parts, sep) == parts[0] + (sep + Join(parts[1..], sep));
    }
  }

  /** Joining separator-free parts and splitting on the separator gives the parts back. */
  lemma {:induction false} SplitJoin(parts: seq<string>, sep: char)
    requires |parts| > 0 && forall i :: 0 <= i < |parts| ==> sep !in parts[i]
    ensures Split(Join(parts, [sep]), sep) == parts
    decreases |parts|
  {
    if |parts| > 1 {
      var rest := Join(parts[1..], [sep]);
      SplitJoin(parts[1..], sep);
      SplitFirst(parts[0], rest, sep);
      assert Join(parts, [sep]) == parts[0] + [sep] + rest;
      assert [parts[0]] + parts[1..] == parts;
    }
  }
}
