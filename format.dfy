/** Python's `f"{i}"` and `f"{i:0Wd}"` for non-negative integers, with the
    decimal value of a digit string as their inverse. The identifiers
    `PROP-001` and `EXP-00000` are built from these. */
module Format {

  predicate IsDigit(c: char) { '0' <= c <= '9' }

  predicate AllDigits(s: string) { forall i :: 0 <= i < |s| ==> IsDigit(s[i]) }

  function DigitChar(d: nat): (c: char)
    requires d < 10
    ensures IsDigit(c)
  {
    ('0' as int + d) as char
  }

  function DigitValue(c: char): nat
  {
    if IsDigit(c) then c as int - '0' as int else 0
  }

  /** The decimal value of a digit string; leading zeros are allowed. */
  function Value(s: string): nat
  {
    if s == [] then 0 else Value(s[..|s| - 1]) * 10 + DigitValue(s[|s| - 1])
  }

  function Pow10(k: nat): nat
  {
    if k == 0 then 1 else 10 * Pow10(k - 1)
  }

  /** `f"{n}"`: the shortest decimal rendering, with no leading zero. */
  function Decimal(n: nat): (s: string)
    ensures |s| >= 1 && AllDigits(s)
  {
    if n < 10 then [DigitChar(n)] else Decimal(n / 10) + [DigitChar(n % 10)]
  }

  lemma {:induction false} ValueOfDecimal(n: nat)
    ensures Value(Decimal(n)) == n
  {
    if n >= 10 {
      ValueOfDecimal(n / 10);
      var s := Decimal(n);
      assert s[..|s| - 1] == Decimal(n / 10);
    }
  }

  lemma {:induction false} DecimalLength(n: nat, k: nat)
    ensures k >= 1 && n < Pow10(k) ==> |Decimal(n)| <= k
  {
    if n >= 10 && k >= 1 && n < Pow10(k) {
      assert n / 10 < Pow10(k - 1);
      DecimalLength(n / 10, k - 1);
    }
  }

  function Zeros(k: nat): (s: string)
    ensures |s| == k && forall i :: 0 <= i < k ==> s[i] == '0'
  {
    seq(k, _ => '0')
  }

  lemma {:induction false} LeadingZerosAddNothing(k: nat, s: string)
    ensures Value(Zeros(k) + s) == Value(s)
    decreases |s|
  {
    if s == [] {
      ValueOfZeros(k);
      assert Zeros(k) + s == Zeros(k);
    } else {
      var init := s[..|s| - 1];
      LeadingZerosAddNothing(k, init);
      assert (Zeros(k) + s)[..|Zeros(k) + s| - 1] == Zeros(k) + init;
    }
  }

  lemma {:induction false} ValueOfZeros(k: nat)
    ensures Value(Zeros(k)) == 0
  {
    if k > 0 {
      ValueOfZeros(k - 1);
      assert Zeros(k)[..k - 1] == Zeros(k - 1);
    }
  }

  /** `f"{n:0{width}d}"`: at least `width` characters, zero-filled on the
      left, and reading it back gives `n`. */
  function PaddedDecimal(n: nat, width: nat): (s: string)
    ensures AllDigits(s)
    ensures Value(s) == n
    ensures |s| >= width
    ensures width >= 1 && n < Pow10(width) ==> |s| == width
  {
    var d := Decimal(n);
    ValueOfDecimal(n);
    DecimalLength(n, width);
    if |d| >= width then d
    else
      LeadingZerosAddNothing(width - |d|, d);
      Zeros(width - |d|) + d
  }
}
