/** Decimal rendering of integers. */
module Decimal {

  function Digit(d: nat): char
    requires d < 10
  {
    '0' + d as char
  }

  function FormatNat(n: nat): (s: string)
    ensures s != ""
  {
    if n < 10 then [Digit(n)] else FormatNat(n / 10) + [Digit(n % 10)]
  }

  function FormatInt(n: int): string {
    if n < 0 then "-" + FormatNat(-n) else FormatNat(n)
  }

  /** Different numbers print differently. */
  lemma {:induction false} FormatNatInjective(m: nat, n: nat)
    requires FormatNat(m) == FormatNat(n)
    ensures m == n
    decreases m
  {
    var s, t := FormatNat(m), FormatNat(n);
    assert s[|s| - 1] == Digit(m % 10) && t[|t| - 1] == Digit(n % 10);
    if m >= 10 && n >= 10 {
      assert s[..|s| - 1] == FormatNat(m / 10) && t[..|t| - 1] == FormatNat(n / 10);
      FormatNatInjective(m / 10, n / 10);
    }
  }

  // ---------- Reading back ----------

  predicate IsDigit(c: char) { '0' <= c <= '9' }

  function ReadNat(s: string): nat {
    if s == "" then 0
    else 10 * ReadNat(s[..|s| - 1]) + (if IsDigit(s[|s| - 1]) then (s[|s| - 1] - '0') as nat else 0)
  }

  function ReadInt(s: string): int {
    if s != "" && s[0] == '-' then 0 - ReadNat(s[1..]) else ReadNat(s)
  }

  /** Digits only, no leading zero, and they read as the number. */
  lemma {:induction false} NatReadsBack(n: nat)
    ensures var s := FormatNat(n);
      ReadNat(s) == n && (forall i :: 0 <= i < |s| ==> IsDigit(s[i])) && (n > 0 ==> s[0] != '0')
    decreases n
  {
    if n < 10 {
      assert FormatNat(n)[..0] == "";
    } else {
      NatReadsBack(n / 10);
      var s := FormatNat(n);
      assert s[..|s| - 1] == FormatNat(n / 10) && s[|s| - 1] == Digit(n % 10);
    }
  }

  /** A minus sign for negative numbers only. */
  lemma IntReadsBack(n: int)
    ensures ReadInt(FormatInt(n)) == n && (FormatInt(n)[0] == '-' <==> n < 0)
  {
    if n < 0 {
      NatReadsBack(-n);
      assert FormatInt(n)[1..] == FormatNat(-n);
    } else {
      NatReadsBack(n);
    }
  }
}
