/** Decimal texts of numbers. */
module Numerals {

  function Digit(n: nat): (c: char)
    requires n < 10
    ensures '0' <= c <= '9'
  {
    '0' + n as char
  }

  /** `str(n)` */
  function Decimal(n: nat): (s: string)
    ensures s != "" && forall i | 0 <= i < |s| :: '0' <= s[i] <= '9'
  {
    if n < 10 then [Digit(n)] else Decimal(n / 10) + [Digit(n % 10)]
  }

  function Value(s: string): nat
    requires forall i | 0 <= i < |s| :: '0' <= s[i] <= '9'
  {
    if s == "" then 0 else Value(s[..|s| - 1]) * 10 + (s[|s| - 1] as nat - '0' as nat)
  }

  lemma {:induction false} ValueOfDecimal(n: nat)
    ensures Value(Decimal(n)) == n
  {
    var s := Decimal(n);
    if n >= 10 {
      ValueOfDecimal(n / 10);
      assert s[..|s| - 1] == Decimal(n / 10);
    } else {
      assert s[..|s| - 1] == "";
    }
  }

  /** Different numbers have different texts. */
  lemma DecimalInjective(m: nat, n: nat)
    requires Decimal(m) == Decimal(n)
    ensures m == n
  {
    ValueOfDecimal(m);
    ValueOfDecimal(n);
  }

  function Power10(d: nat): (p: nat)
    ensures p > 0
  {
    if d == 0 then 1 else 10 * Power10(d - 1)
  }

  /** A number below the d-th power of ten has at most d digits. */
  lemma {:induction false} DecimalLength(n: nat, d: nat)
    requires 0 < d && n < Power10(d)
    ensures |Decimal(n)| <= d
  {
    if n >= 10 {
      assert n / 10 < Power10(d - 1);
      DecimalLength(n / 10, d - 1);
    }
  }

  function Zeros(k: nat): (s: string)
    ensures |s| == k && forall i | 0 <= i < k :: s[i] == '0'
  {
    seq(k, _ => '0')
  }

  /** `s.zfill(width)` for a text of digits. */
  function ZeroFill(s: string, width: nat): string {
    if |s| < width then Zeros(width - |s|) + s else s
  }

  lemma {:induction false} ZerosAddNothing(k: nat, s: string)
    requires forall i | 0 <= i < |s| :: '0' <= s[i] <= '9'
    ensures Value(Zeros(k) + s) == Value(s)
    decreases |s|, k
  {
    var t := Zeros(k) + s;
    if s != "" {
      assert t[..|t| - 1] == Zeros(k) + s[..|s| - 1];
      ZerosAddNothing(k, s[..|s| - 1]);
    } else if k > 0 {
      assert t[..k - 1] == Zeros(k - 1) + s;
      ZerosAddNothing(k - 1, s);
    }
  }

  /** A number below the d-th power of ten is written with exactly d digits, and can be read back. */
  lemma ZeroFilled(n: nat, d: nat)
    requires 0 < d && n < Power10(d)
    ensures var s := ZeroFill(Decimal(n), d);
      |s| == d && (forall i | 0 <= i < |s| :: '0' <= s[i] <= '9') && Value(s) == n
  {
    DecimalLength(n, d);
    ValueOfDecimal(n);
    if |Decimal(n)| < d {
      ZerosAddNothing(d - |Decimal(n)|, Decimal(n));
    }
  }
}
