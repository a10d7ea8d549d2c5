/**
  The pickup code of a sale: `str_pad((string) random_int(0, 999999), 6, '0', STR_PAD_LEFT)`.
  The random number is a parameter of the model.
 */
module PickupCode {
  import opened Digits

  const CODE_LENGTH: nat := 6
  const MAX_CODE: nat := 999999

  /** PHP `(string) $n` for a non-negative integer: its decimal digits, no leading zeros. */
  function DecimalString(n: nat): (s: string)
    ensures |s| >= 1 && AllDigits(s)
  {
    if n < 10 then [DigitChar(n)] else DecimalString(n / 10) + [DigitChar(n % 10)]
  }

  /** `str_pad($s, $width, $pad, STR_PAD_LEFT)`: a string already that long is kept as is. */
  function PadLeft(s: string, width: nat, pad: char): (r: string)
    ensures |s| >= width ==> r == s
    ensures |s| < width ==> |r| == width && r[width - |s|..] == s
    ensures |s| < width ==> forall i :: 0 <= i < width - |s| ==> r[i] == pad
  {
    if |s| >= width then s else Repeat(pad, width - |s|) + s
  }

  function Repeat(c: char, k: nat): (r: string)
    ensures |r| == k && forall i :: 0 <= i < k ==> r[i] == c
  {
    if k == 0 then [] else [c] + Repeat(c, k - 1)
  }

  /** The value of a string of decimal digits (leading zeros allowed). */
  function ParseDecimal(s: string): nat
    requires AllDigits(s)
  {
    if s == [] then 0 else ParseDecimal(s[..|s| - 1]) * 10 + DigitValue(s[|s| - 1])
  }

  /** The code a sale gets for the random number n. */
  function CodeOf(n: nat): string
    requires n <= MAX_CODE
  {
    PadLeft(DecimalString(n), CODE_LENGTH, '0')
  }

  lemma {:induction false} DecimalStringLength(n: nat, width: nat, bound: nat)
    requires width >= 1 && n < bound
    requires bound == Pow10(width)
    ensures |DecimalString(n)| <= width
  {
    if n >= 10 {
      assert Pow10(1) == 10;
      assert width >= 2;
      Pow10Step(width - 1);
      DecimalStringLength(n / 10, width - 1, Pow10(width - 1));
    }
  }

  function Pow10(k: nat): (p: nat)
    ensures p >= 1
  {
    if k == 0 then 1 else 10 * Pow10(k - 1)
  }

  lemma Pow10Step(k: nat)
    ensures Pow10(k + 1) == 10 * Pow10(k)
  {
  }

  lemma {:induction false} ParseDecimalString(n: nat)
    ensures ParseDecimal(DecimalString(n)) == n
  {
    if n >= 10 {
      var s := DecimalString(n);
      assert s[..|s| - 1] == DecimalString(n / 10);
      ParseDecimalString(n / 10);
    }
  }

  /** Leading zeros do not change the parsed value. */
  lemma {:induction false} ParseLeadingZero(s: string)
    requires AllDigits(s)
    ensures ParseDecimal(['0'] + s) == ParseDecimal(s)
    decreases |s|
  {
    if s != [] {
      var z := ['0'] + s;
      assert z[..|z| - 1] == ['0'] + s[..|s| - 1];
      ParseLeadingZero(s[..|s| - 1]);
    }
  }

  lemma {:induction false} ParseZeros(k: nat, s: string)
    requires AllDigits(s)
    ensures AllDigits(Repeat('0', k) + s)
    ensures ParseDecimal(Repeat('0', k) + s) == ParseDecimal(s)
  {
    if k > 0 {
      var tail := Repeat('0', k - 1) + s;
      var padded := Repeat('0', k) + s;
      assert padded == ['0'] + tail;
      ParseZeros(k - 1, s);
      ParseLeadingZero(tail);
      assert ParseDecimal(padded) == ParseDecimal(['0'] + tail);
    } else {
      assert Repeat('0', k) + s == s;
    }
  }

  /**
    Every pickup code is 6 decimal digits and parsing it gives back the
    random number it was made from.
   */
  lemma CodeRoundTrip(n: nat)
    requires n <= MAX_CODE
    ensures |CodeOf(n)| == CODE_LENGTH
    ensures AllDigits(CodeOf(n))
    ensures ParseDecimal(CodeOf(n)) == n
  {
    var s := DecimalString(n);
    assert Pow10(6) == 1000000;
    DecimalStringLength(n, 6, 1000000);
    ParseDecimalString(n);
    if |s| < 6 {
      assert CodeOf(n) == Repeat('0', 6 - |s|) + s;
      ParseZeros(6 - |s|, s);
    }
  }
}
