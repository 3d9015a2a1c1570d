/** Decimal digits, the numbers they denote, and the strings left when characters are removed. */
module Decimals {
  import opened Strings

  function Pow10(k: nat): (p: nat)
    ensures p >= 1
  {
    if k == 0 then 1 else 10 * Pow10(k - 1)
  }

  lemma {:induction false} PowAdd(a: nat, b: nat)
    ensures Pow10(a + b) == Pow10(a) * Pow10(b)
    decreases b
  {
    if b > 0 {
      PowAdd(a, b - 1);
      assert Pow10(a + b) == 10 * (Pow10(a) * Pow10(b - 1));
    }
  }

  /** The number a digit string denotes; the empty string denotes zero. */
  function ToNat(s: string): nat
    requires AllDigits(s)
  {
    if s == "" then 0
    else 10 * ToNat(s[..|s| - 1]) + ((s[|s| - 1] as int) - ('0' as int))
  }

  lemma {:induction false} ToNatConcat(a: string, b: string)
    requires AllDigits(a) && AllDigits(b)
    ensures AllDigits(a + b)
    ensures ToNat(a + b) == ToNat(a) * Pow10(|b|) + ToNat(b)
    decreases |b|
  {
    if b == "" {
      assert a + b == a;
    } else {
      var c := b[..|b| - 1];
      ToNatConcat(a, c);
      assert (a + b)[..|a + b| - 1] == a + c;
      Tenfold(ToNat(a), Pow10(|c|));
    }
  }

  lemma Tenfold(x: nat, p: nat)
    ensures 10 * (x * p) == x * (10 * p)
  {
  }

  lemma {:induction false} ToNatBound(s: string)
    requires AllDigits(s)
    ensures ToNat(s) < Pow10(|s|)
    decreases |s|
  {
    if s != "" {
      ToNatBound(s[..|s| - 1]);
    }
  }

  /** A numeral denotes the number it was printed from. */
  lemma {:induction false} NumeralReads(n: nat)
    ensures ToNat(Numeral(n)) == n
    decreases n
  {
    if n >= 10 {
      NumeralReads(n / 10);
      var s := Numeral(n);
      assert s[..|s| - 1] == Numeral(n / 10);
    }
  }

  predicate AllZeros(s: string) {
    forall i :: 0 <= i < |s| ==> s[i] == '0'
  }

  lemma {:induction false} ZerosAreZero(s: string)
    requires AllZeros(s)
    ensures AllDigits(s) && ToNat(s) == 0
    decreases |s|
  {
    if s != "" {
      ZerosAreZero(s[..|s| - 1]);
    }
  }

  function Zeros(n: nat): (s: string)
    ensures |s| == n && AllZeros(s)
  {
    if n == 0 then "" else "0" + Zeros(n - 1)
  }

  /** `s.replace(/0+$/, "")`. */
  function StripZeros(s: string): string {
    if s != "" && s[|s| - 1] == '0' then StripZeros(s[..|s| - 1]) else s
  }

  /** What is stripped is zeros, and no zero is left at the end. */
  lemma {:induction false} StripZerosSplits(s: string)
    ensures |StripZeros(s)| <= |s| && s == StripZeros(s) + Zeros(|s| - |StripZeros(s)|)
    ensures StripZeros(s) == "" || StripZeros(s)[|StripZeros(s)| - 1] != '0'
    decreases |s|
  {
    if s != "" && s[|s| - 1] == '0' {
      var t := s[..|s| - 1];
      StripZerosSplits(t);
      MoreZeros(|t| - |StripZeros(t)|);
      assert s == t + "0";
    }
  }

  lemma {:induction false} MoreZeros(n: nat)
    ensures Zeros(n) + "0" == Zeros(n + 1)
  {
    if n > 0 {
      MoreZeros(n - 1);
      assert Zeros(n) + "0" == "0" + (Zeros(n - 1) + "0");
    }
  }

  // ---------------------------------------------------------------- floors

  /** The number digits / 10^places. */
  datatype Decimal = Decimal(digits: nat, places: nat)

  /** `u` units of 10^-d are the floor of x to d places. */
  predicate IsFloor(u: nat, d: nat, x: Decimal) {
    u * Pow10(x.places) <= x.digits * Pow10(d) < (u + 1) * Pow10(x.places)
  }

  /** `r` has at most d places and is the floor of `x` to d places. */
  predicate IsFloorOf(r: Decimal, d: nat, x: Decimal) {
    r.places <= d && IsFloor(r.digits * Pow10(d - r.places), d, x)
  }

  function Kept(fracPart: string, maxDecimals: int): string {
    if maxDecimals <= 0 then "" else if maxDecimals < |fracPart| then fracPart[..maxDecimals] else fracPart
  }

  /** Keeping `d` fractional digits floors to `d` places. */
  lemma KeptFloors(intPart: string, fracPart: string, d: nat)
    requires AllDigits(intPart) && AllDigits(fracPart)
    ensures var t := Kept(fracPart, d);
            && AllDigits(t) && |t| <= d
            && IsFloor(ToNat(intPart + t) * Pow10(d - |t|), d, Decimal(ToNat(intPart + fracPart), |fracPart|))
  {
    var t := Kept(fracPart, d);
    var rest := fracPart[|t|..];
    assert fracPart == t + rest;
    if rest == "" {
      assert t == fracPart;
      PowAdd(d - |t|, |t|);
      ExactScale(ToNat(intPart + t), Pow10(d - |t|), Pow10(|t|));
    } else {
      assert intPart + fracPart == (intPart + t) + rest;
      ToNatConcat(intPart + t, rest);
      ToNatBound(rest);
      PowAdd(d, |rest|);
      TruncatedScale(ToNat(intPart + t), ToNat(rest), Pow10(|rest|), Pow10(d));
    }
  }

  lemma ExactScale(x: nat, p: nat, q: nat)
    requires p >= 1 && q >= 1
    ensures x * p * q <= x * (p * q) < (x * p + 1) * q
  {
    assert x * p * q == x * (p * q);
    assert (x * p + 1) * q == x * p * q + q;
  }

  lemma TruncatedScale(x: nat, r: nat, w: nat, p: nat)
    requires r < w && p >= 1
    ensures x * 1 * (p * w) <= (x * w + r) * p < (x * 1 + 1) * (p * w)
  {
    assert (x * w + r) * p == x * (p * w) + r * p;
    assert (x + 1) * (p * w) == x * (p * w) + w * p;
    assert 0 <= r * p < w * p;
  }

  // ---------------------------------------------------------------- removing characters

  /** `s` without the characters of `banned`, the others kept in order. */
  function Without(s: string, banned: set<char>): string {
    if s == "" then ""
    else if s[0] in banned then Without(s[1..], banned)
    else [s[0]] + Without(s[1..], banned)
  }

  lemma {:induction false} WithoutConcat(a: string, b: string, banned: set<char>)
    ensures Without(a + b, banned) == Without(a, banned) + Without(b, banned)
    decreases |a|
  {
    if a == "" {
      assert a + b == b;
    } else {
      WithoutConcat(a[1..], b, banned);
      assert (a + b)[1..] == a[1..] + b;
    }
  }

  lemma WithoutAround(a: string, c: char, b: string, banned: set<char>)
    ensures Without(a + [c] + b, banned) ==
            Without(a, banned) + (if c in banned then "" else [c]) + Without(b, banned)
  {
    WithoutConcat(a + [c], b, banned);
    WithoutConcat(a, [c], banned);
    assert [c][1..] == "";
  }

  lemma {:induction false} WithoutTwice(s: string, first: set<char>, second: set<char>)
    ensures Without(Without(s, first), second) == Without(s, first + second)
    decreases |s|
  {
    if s != "" {
      WithoutTwice(s[1..], first, second);
      if s[0] !in first {
        var r := Without(s[1..], first);
        assert ([s[0]] + r)[1..] == r;
      }
    }
  }

  lemma {:induction false} WithoutChars(s: string, banned: set<char>)
    ensures forall c :: c in Without(s, banned) <==> c in s && c !in banned
    decreases |s|
  {
    if s != "" {
      WithoutChars(s[1..], banned);
      assert s == [s[0]] + s[1..];
    }
  }

  lemma {:induction false} WithoutNone(s: string, banned: set<char>)
    requires forall i :: 0 <= i < |s| ==> s[i] !in banned
    ensures Without(s, banned) == s
    decreases |s|
  {
    if s != "" {
      WithoutNone(s[1..], banned);
    }
  }

  const SPACES: set<char> := set c: char | IsSpace(c)
  const NON_DIGITS: set<char> := set c: char | !IsDigit(c)

  /** The digits of `s`, in order. */
  function Digits(s: string): (d: string)
    ensures AllDigits(d)
  {
    WithoutChars(s, NON_DIGITS);
    assert forall i :: 0 <= i < |Without(s, NON_DIGITS)| ==> Without(s, NON_DIGITS)[i] in Without(s, NON_DIGITS);
    Without(s, NON_DIGITS)
  }

  lemma DigitsOfDigits(s: string)
    requires AllDigits(s)
    ensures Digits(s) == s
  {
    WithoutNone(s, NON_DIGITS);
  }
}
