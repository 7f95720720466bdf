/** Decimal rendering of naturals as JavaScript's template literals print them,
    and `padStart(2, "0")`. ParseNat is the reading used to state round trips. */
module Text {

  predicate IsDigit(c: char) { '0' <= c <= '9' }

  predicate AllDigits(s: string) { forall i :: 0 <= i < |s| ==> IsDigit(s[i]) }

  function DigitChar(d: nat): (c: char)
    requires d < 10
    ensures IsDigit(c) && DigitValue(c) == d
  {
    ('0' as int + d) as char
  }

  function DigitValue(c: char): (d: nat)
    requires IsDigit(c)
    ensures d < 10
  {
    c as int - '0' as int
  }

  /** `${n}` for a non-negative integer: the digits of n, most significant
      first, with no leading zero. */
  function NatToString(n: nat): (s: string)
    ensures 1 <= |s| && AllDigits(s)
    ensures (|s| == 1) == (n < 10)
    ensures |s| > 1 ==> s[0] != '0'
    decreases n
  {
    if n < 10 then [DigitChar(n)] else NatToString(n / 10) + [DigitChar(n % 10)]
  }

  /** The value of a string of decimal digits (the reading of NatToString). */
  function ParseNat(s: string): nat
    requires AllDigits(s)
  {
    if s == [] then 0 else 10 * ParseNat(s[..|s| - 1]) + DigitValue(s[|s| - 1])
  }

  /** Rendering a natural loses nothing: reading it back gives the number. */
  lemma {:induction false} ParseNatToString(n: nat)
    ensures ParseNat(NatToString(n)) == n
    decreases n
  {
    var s := NatToString(n);
    if n >= 10 {
      assert s[..|s| - 1] == NatToString(n / 10);
      ParseNatToString(n / 10);
    } else {
      assert s[..0] == [];
    }
  }

  /** `s.padStart(2, "0")`: left-pads with '0' up to length 2, never truncates. */
  function PadStart2(s: string): (r: string)
    ensures |r| == if |s| < 2 then 2 else |s|
    ensures r[|r| - |s|..] == s
    ensures forall i :: 0 <= i < |r| - |s| ==> r[i] == '0'
  {
    if |s| == 0 then "00" else if |s| == 1 then "0" + s else s
  }

  /** A number below 100, rendered and padded, is exactly two digits that read
      back as the number. */
  lemma TwoDigits(x: nat)
    requires x < 100
    ensures |PadStart2(NatToString(x))| == 2
    ensures AllDigits(PadStart2(NatToString(x)))
    ensures ParseNat(PadStart2(NatToString(x))) == x
  {
    var s := NatToString(x);
    var r := PadStart2(s);
    ParseNatToString(x);
    if x < 10 {
      assert r == ['0', DigitChar(x)];
      assert r[..1] == "0" && r[..1][..0] == [];
    } else {
      assert NatToString(x / 10) == [DigitChar(x / 10)];
      assert |s| == 2;
    }
  }
}
