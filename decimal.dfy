// Decimal rendering of non-negative integers, as JavaScript's
// Number.prototype.toString and String.prototype.padStart(2, "0") produce it
// for the integer values the frontend formats (ids, durations, badge counts).

module Decimal {

  predicate IsDigit(c: char) {
    '0' <= c <= '9'
  }

  predicate AllDigits(s: string) {
    forall i :: 0 <= i < |s| ==> IsDigit(s[i])
  }

  function DigitChar(d: nat): (c: char)
    requires d < 10
    ensures IsDigit(c) && (c as int) - ('0' as int) == d
  {
    (('0' as int) + d) as char
  }

  /** Shortest decimal rendering, no leading zeros (except "0" itself). */
  function NatToString(n: nat): (s: string)
    ensures |s| >= 1 && AllDigits(s)
    ensures (n < 10 <==> |s| == 1) && (n < 100 <==> |s| <= 2)
    decreases n
  {
    if n < 10 then [DigitChar(n)] else NatToString(n / 10) + [DigitChar(n % 10)]
  }

  /** The number a string of decimal digits denotes. */
  function DigitsValue(s: string): nat
    requires AllDigits(s)
    decreases |s|
  {
    if s == [] then 0
    else DigitsValue(s[..|s| - 1]) * 10 + ((s[|s| - 1] as int) - ('0' as int))
  }

  lemma {:induction false} NatToStringRoundTrip(n: nat)
    ensures DigitsValue(NatToString(n)) == n
    decreases n
  {
    var s := NatToString(n);
    if n >= 10 {
      NatToStringRoundTrip(n / 10);
      assert s[..|s| - 1] == NatToString(n / 10);
    } else {
      assert s[..|s| - 1] == [];
    }
  }

  lemma NatToStringInjective(m: nat, n: nat)
    requires NatToString(m) == NatToString(n)
    ensures m == n
  {
    NatToStringRoundTrip(m);
    NatToStringRoundTrip(n);
  }

  /** A leading zero does not change the value of a digit string. */
  lemma {:induction false} LeadingZero(s: string)
    requires AllDigits(s)
    ensures AllDigits("0" + s) && DigitsValue("0" + s) == DigitsValue(s)
    decreases |s|
  {
    var t := "0" + s;
    if s != [] {
      assert t[..|t| - 1] == "0" + s[..|s| - 1];
      LeadingZero(s[..|s| - 1]);
    }
  }

  /** padStart(2, "0"). */
  function PadStart2(s: string): (r: string)
    ensures |r| == if |s| < 2 then 2 else |s|
    ensures r[|r| - |s|..] == s
    ensures forall i :: 0 <= i < |r| - |s| ==> r[i] == '0'
  {
    if |s| == 0 then "00" else if |s| == 1 then "0" + s else s
  }

  lemma PadStart2Value(s: string)
    requires AllDigits(s)
    ensures AllDigits(PadStart2(s)) && DigitsValue(PadStart2(s)) == DigitsValue(s)
  {
    if |s| == 0 {
      LeadingZero("0");
      assert DigitsValue("0") == 0;
    } else if |s| == 1 {
      LeadingZero(s);
    }
  }

  /** Splitting at a separator that is not a digit is unambiguous: two
      renderings digits + sep + rest coincide only when their parts do. */
  lemma {:induction false} SplitAtNonDigit(d1: string, r1: string, d2: string, r2: string, sep: char)
    requires AllDigits(d1) && AllDigits(d2) && !IsDigit(sep)
    requires d1 + [sep] + r1 == d2 + [sep] + r2
    ensures d1 == d2 && r1 == r2
  {
    var s := d1 + [sep] + r1;
    assert s == d2 + [sep] + r2;
    assert forall i :: 0 <= i < |d1| ==> IsDigit(s[i]);
    assert forall i :: 0 <= i < |d2| ==> IsDigit(s[i]);
    assert s[|d1|] == sep && s[|d2|] == sep;
    assert |d1| == |d2|;
    assert d1 == s[..|d1|] == d2;
    assert r1 == s[|d1| + 1..] == r2;
  }
}
