/** Station ids: "EN" and the counter in decimal, padded to seven digits. */
module StationIds {
  const FIRST_NUMBER: nat := 1000001
  const WIDTH: nat := 7

  function DigitChar(d: nat): char
    requires d < 10
  {
    "0123456789"[d]
  }

  function DigitValue(c: char): nat {
    if '0' <= c <= '9' then (c - '0') as nat else 0
  }

  function ToDecimal(n: nat): string {
    if n < 10 then [DigitChar(n)] else ToDecimal(n / 10) + [DigitChar(n % 10)]
  }

  function PadStart(s: string, width: nat): string
    decreases width - |s|
  {
    if |s| >= width then s else PadStart("0" + s, width)
  }

  function StationIdOf(n: nat): string {
    "EN" + PadStart(ToDecimal(n), WIDTH)
  }

  /** Reading decimal digits back. */
  function FromDecimal(s: string): nat {
    if s == "" then 0 else 10 * FromDecimal(s[..|s| - 1]) + DigitValue(s[|s| - 1])
  }

  lemma {:induction false} DecimalRoundTrip(n: nat)
    ensures FromDecimal(ToDecimal(n)) == n
  {
    if n < 10 {
      assert FromDecimal([]) == 0;
    } else {
      DecimalRoundTrip(n / 10);
      assert ToDecimal(n)[..|ToDecimal(n)| - 1] == ToDecimal(n / 10);
    }
  }

  lemma {:induction false} LeadingZero(s: string)
    ensures FromDecimal("0" + s) == FromDecimal(s)
  {
    if s == "" {
      assert FromDecimal([]) == 0;
    } else {
      LeadingZero(s[..|s| - 1]);
      assert ("0" + s)[..|s|] == "0" + s[..|s| - 1];
    }
  }

  lemma {:induction false} PaddingKeepsValue(s: string, width: nat)
    ensures FromDecimal(PadStart(s, width)) == FromDecimal(s)
    decreases width - |s|
  {
    if |s| < width {
      LeadingZero(s);
      PaddingKeepsValue("0" + s, width);
    }
  }

  /** The counter can be read back from the id, so different counters give different ids, however large. */
  lemma StationIdRoundTrip(n: nat)
    ensures StationIdOf(n)[..2] == "EN" && FromDecimal(StationIdOf(n)[2..]) == n
  {
    PaddingKeepsValue(ToDecimal(n), WIDTH);
    DecimalRoundTrip(n);
    assert StationIdOf(n)[2..] == PadStart(ToDecimal(n), WIDTH);
  }

  function Pow10(k: nat): nat { if k == 0 then 1 else 10 * Pow10(k - 1) }

  lemma {:induction false} DecimalLength(n: nat, k: nat)
    requires 1 <= k
    ensures |ToDecimal(n)| <= k <==> n < Pow10(k)
  {
    if k == 1 {
      assert Pow10(1) == 10;
      if n >= 10 { assert |ToDecimal(n / 10)| >= 1; }
    } else if n < 10 {
      PowGrows(k);
    } else {
      DecimalLength(n / 10, k - 1);
    }
  }

  lemma {:induction false} PowGrows(k: nat)
    requires 1 <= k
    ensures Pow10(k) >= 10
  {
    if k > 1 { PowGrows(k - 1); }
  }

  lemma {:induction false} PaddedLength(s: string, width: nat)
    ensures |PadStart(s, width)| == if |s| >= width then |s| else width
    decreases width - |s|
  {
    if |s| < width { PaddedLength("0" + s, width); }
  }

  predicate AllDigits(s: string) {
    forall i :: 0 <= i < |s| ==> '0' <= s[i] <= '9'
  }

  lemma {:induction false} DecimalDigits(n: nat)
    ensures AllDigits(ToDecimal(n))
  {
    if n >= 10 { DecimalDigits(n / 10); }
  }

  lemma {:induction false} PaddedDigits(s: string, width: nat)
    requires AllDigits(s)
    ensures AllDigits(PadStart(s, width))
    decreases width - |s|
  {
    if |s| < width { PaddedDigits("0" + s, width); }
  }

  /** The documented form, "EN" and seven digits, holds exactly while the counter is at most 9999999. */
  lemma StationIdForm(n: nat)
    ensures AllDigits(StationIdOf(n)[2..])
    ensures |StationIdOf(n)| == 9 <==> n <= 9999999
  {
    DecimalDigits(n);
    PaddedDigits(ToDecimal(n), WIDTH);
    PaddedLength(ToDecimal(n), WIDTH);
    DecimalLength(n, WIDTH);
    assert Pow10(7) == 10000000 by {
      assert Pow10(2) == 100;
      assert Pow10(4) == 10000;
      assert Pow10(6) == 1000000;
    }
    assert StationIdOf(n)[2..] == PadStart(ToDecimal(n), WIDTH);
  }
}
