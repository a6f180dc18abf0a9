/** The integer conversions of printf: `%d` and `%0Nd` (zero-padded to at
    least N characters, never truncated). */
module Printf {
  import opened CLib

  function DigitChar(d: nat): (c: char)
    requires d < 10
    ensures IsDigit(c) && DigitValue(c) == d
  {
    ('0' as int + d) as char
  }

  /** The decimal digits of `n`, without leading zeros. */
  function ShowNat(n: nat): (r: string)
    ensures 1 <= |r| && AllDigits(r) && DigitsValue(r) == n
    ensures r[0] == '0' ==> n == 0
  {
    if n < 10 then [DigitChar(n)]
    else
      var init := ShowNat(n / 10);
      var r := init + [DigitChar(n % 10)];
      assert r[..|r| - 1] == init;
      r
  }

  /** `%d`: an optional minus sign, then the digits of the magnitude. */
  function ShowInt(n: int): string
  {
    if n >= 0 then ShowNat(n) else "-" + ShowNat(-n)
  }

  function Zeros(k: nat): (z: string)
    ensures |z| == k && AllDigits(z)
  {
    if k == 0 then [] else Zeros(k - 1) + ['0']
  }

  lemma {:induction false} ZerosValue(k: nat)
    ensures DigitsValue(Zeros(k)) == 0
  {
    if k > 0 {
      assert Zeros(k)[..k - 1] == Zeros(k - 1);
      ZerosValue(k - 1);
    }
  }

  /** Leading zeros do not change the value of a digit run. */
  lemma {:induction false} LeadingZerosValue(k: nat, ds: string)
    requires AllDigits(ds)
    ensures AllDigits(Zeros(k) + ds) && DigitsValue(Zeros(k) + ds) == DigitsValue(ds)
  {
    if |ds| == 0 {
      assert Zeros(k) + ds == Zeros(k);
      ZerosValue(k);
    } else {
      var init := ds[..|ds| - 1];
      assert (Zeros(k) + ds)[..|Zeros(k) + ds| - 1] == Zeros(k) + init;
      LeadingZerosValue(k, init);
    }
  }

  function Max(a: int, b: int): int { if a < b then b else a }

  /** `%0<width>d`: zeros go between the sign and the digits until the text
      is `width` characters long; a longer number is printed in full. */
  function ZeroPad(n: int, width: nat): string
  {
    var sign := if n < 0 then "-" else "";
    var digits := ShowNat(if n < 0 then -n else n);
    var pad := if width > |sign| + |digits| then width - |sign| - |digits| else 0;
    sign + Zeros(pad) + digits
  }

  /** What `%0<width>d` prints reads back as `n`: a minus sign for a
      negative number, then a digit run whose value is the magnitude. */
  lemma ZeroPadValue(n: int, width: nat)
    ensures |ZeroPad(n, width)| >= 1 && (n < 0 ==> |ZeroPad(n, width)| >= 2)
    ensures n >= 0 ==> AllDigits(ZeroPad(n, width)) && DigitsValue(ZeroPad(n, width)) == n
    ensures n < 0 ==> ZeroPad(n, width)[0] == '-'
    ensures n < 0 ==> AllDigits(ZeroPad(n, width)[1..]) && DigitsValue(ZeroPad(n, width)[1..]) == -n
  {
    var digits := ShowNat(if n < 0 then -n else n);
    var sign := if n < 0 then "-" else "";
    var pad := if width > |sign| + |digits| then width - |sign| - |digits| else 0;
    LeadingZerosValue(pad, digits);
    if n < 0 {
      assert ZeroPad(n, width)[1..] == Zeros(pad) + digits;
    } else {
      assert ZeroPad(n, width) == Zeros(pad) + digits;
    }
  }

  /** `%0<width>d` never truncates: the text is `width` long, or as long as
      plain `%d` when that is longer. */
  lemma ZeroPadLength(n: int, width: nat)
    ensures |ZeroPad(n, width)| == Max(width, |ShowInt(n)|)
  {
  }

  /** The number of digits `%d` prints for a natural number below 1000. */
  lemma ShowNatLength(n: nat)
    ensures n < 10 ==> |ShowNat(n)| == 1
    ensures 10 <= n < 100 ==> |ShowNat(n)| == 2
    ensures 100 <= n < 1000 ==> |ShowNat(n)| == 3
  {
    if n >= 10 {
      ShowNatLength(n / 10);
    }
  }
}
