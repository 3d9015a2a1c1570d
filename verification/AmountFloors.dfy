/** Clamping, trimming and parsing back: a formatted maximum is the exact floor of the balance. */
module AmountFloors {
  import opened Options
  import opened Strings
  import opened Decimals
  import opened AmountInput
  import opened AmountNormalForms

  lemma KeptDigits(fracPart: string, maxDecimals: int)
    requires AllDigits(fracPart)
    ensures AllDigits(StripZeros(Kept(fracPart, maxDecimals)))
  {
    var kept := Kept(fracPart, maxDecimals);
    StripZerosSplits(kept);
    assert forall i :: 0 <= i < |StripZeros(kept)| ==> StripZeros(kept)[i] == kept[i];
  }

  lemma KeptSlice(n: string, intPart: string, fracPart: string, maxDecimals: int)
    requires Reads(n, intPart, fracPart) && fracPart != "" && maxDecimals > 0
    ensures var dot := |intPart|;
            var end := if dot + 1 + maxDecimals <= |n| then dot + 1 + maxDecimals else |n|;
            dot + 1 <= end && n[dot + 1..end] == Kept(fracPart, maxDecimals)
  {
    assert n[|intPart| + 1..] == fracPart;
  }

  /** Clamping keeps the integer part and the leading fractional digits, minus trailing zeros. */
  lemma ClampKeeps(n: string, intPart: string, fracPart: string, maxDecimals: int)
    requires Reads(n, intPart, fracPart)
    ensures Reads(Clamp(n, maxDecimals), OrZero(intPart), StripZeros(Kept(fracPart, maxDecimals)))
  {
    ReadsIndex(n, intPart, fracPart);
    KeptDigits(fracPart, maxDecimals);
    if maxDecimals > 0 && fracPart != "" {
      KeptSlice(n, intPart, fracPart, maxDecimals);
      var frac := StripZeros(Kept(fracPart, maxDecimals));
      assert Clamp(n, maxDecimals) == Show(OrZero(intPart), frac);
    }
  }

  lemma ClampedIsTrimmed(n: string, intPart: string, fracPart: string)
    requires Reads(n, intPart, fracPart)
    requires fracPart != "" ==> fracPart[|fracPart| - 1] != '0'
    ensures TrimTrailingZeros(n) == n
  {
    ReadsIndex(n, intPart, fracPart);
    if fracPart != "" {
      assert n[|n| - 1] == fracPart[|fracPart| - 1];
    }
  }

  // ---------------------------------------------------------------- amounts as numbers

  lemma ReadsDenotes(n: string, intPart: string, fracPart: string)
    requires Reads(n, intPart, fracPart)
    ensures Denoted(n) == Decimal(ToNat(intPart + fracPart), |fracPart|)
  {
    ReadsIndex(n, intPart, fracPart);
    DigitsOfShow(intPart, fracPart);
  }

  lemma LeadingZero(s: string)
    requires AllDigits(s)
    ensures AllDigits("0" + s) && ToNat("0" + s) == ToNat(s)
  {
    ToNatConcat("0", s);
    assert ToNat("0") == 0;
  }

  lemma OrZeroKeepsValue(intPart: string, fracPart: string)
    requires AllDigits(intPart) && AllDigits(fracPart)
    ensures AllDigits(OrZero(intPart) + fracPart) && ToNat(OrZero(intPart) + fracPart) == ToNat(intPart + fracPart)
  {
    if intPart == "" {
      LeadingZero(fracPart);
      assert intPart + fracPart == fracPart;
    }
  }

  lemma ZerosScale(s: string, n: nat)
    requires AllDigits(s)
    ensures AllDigits(s + Zeros(n)) && ToNat(s + Zeros(n)) == ToNat(s) * Pow10(n)
  {
    ZerosAreZero(Zeros(n));
    ToNatConcat(s, Zeros(n));
  }

  lemma StrippedIsDigits(s: string)
    requires AllDigits(s)
    ensures |StripZeros(s)| <= |s| && AllDigits(StripZeros(s)) && s == StripZeros(s) + Zeros(|s| - |StripZeros(s)|)
  {
    StripZerosSplits(s);
    assert forall i :: 0 <= i < |StripZeros(s)| ==> StripZeros(s)[i] == s[i];
  }

  /** Trailing zeros only scale the digits. */
  lemma StrippedZerosScale(intPart: string, fracPart: string)
    requires AllDigits(intPart) && AllDigits(fracPart)
    ensures var f := StripZeros(fracPart);
            && |f| <= |fracPart| && AllDigits(f)
            && ToNat(intPart + fracPart) == ToNat(intPart + f) * Pow10(|fracPart| - |f|)
  {
    var f := StripZeros(fracPart);
    var n := |fracPart| - |f|;
    StrippedIsDigits(fracPart);
    ZerosScale(intPart + f, n);
    assert intPart + fracPart == intPart + f + Zeros(n);
  }

  function Places(maxDecimals: int): nat {
    if maxDecimals < 0 then 0 else maxDecimals
  }

  lemma FormattedReads(n: string, intPart: string, fracPart: string, maxDecimals: int)
    requires Reads(n, intPart, fracPart)
    ensures Reads(FormatNormalized(n, maxDecimals), OrZero(intPart), StripZeros(Kept(fracPart, maxDecimals)))
  {
    var clamped, frac := Clamp(n, maxDecimals), StripZeros(Kept(fracPart, maxDecimals));
    ClampKeeps(n, intPart, fracPart, maxDecimals);
    StripZerosSplits(Kept(fracPart, maxDecimals));
    ClampedIsTrimmed(clamped, OrZero(intPart), frac);
  }

  lemma Regroup(x: nat, p: nat, q: nat)
    ensures x * (p * q) == x * p * q
  {
  }

  /** The digits of a formatted maximum, scaled to `d` places. */
  lemma FormattedUnits(intPart: string, t: string, d: nat)
    requires AllDigits(intPart) && AllDigits(t) && |t| <= d
    ensures var f := StripZeros(t);
            && AllDigits(f) && |f| <= |t|
            && ToNat(OrZero(intPart) + f) * Pow10(d - |f|) == ToNat(intPart + t) * Pow10(d - |t|)
  {
    var f := StripZeros(t);
    StrippedZerosScale(intPart, t);
    OrZeroKeepsValue(intPart, f);
    PowAdd(|t| - |f|, d - |t|);
    Regroup(ToNat(intPart + f), Pow10(|t| - |f|), Pow10(d - |t|));
  }

  lemma FormattedFloors(intPart: string, fracPart: string, d: nat)
    requires AllDigits(intPart) && AllDigits(fracPart)
    ensures var f := StripZeros(Kept(fracPart, d));
            && AllDigits(f)
            && IsFloorOf(Decimal(ToNat(OrZero(intPart) + f), |f|), d, Decimal(ToNat(intPart + fracPart), |fracPart|))
  {
    KeptFloors(intPart, fracPart, d);
    FormattedUnits(intPart, Kept(fracPart, d), d);
  }

  /**
   * The formatted maximum of a balance is in normal form, fits the allowed places, and is the exact
   * floor of the balance to that many places.
   */
  lemma FormatMaxIsFloor(balance: string, n: string, maxDecimals: int)
    requires Normalize(balance) == Some(n)
    ensures var r := FormatMax(balance, maxDecimals);
            && r != "" && Normalize(r) == Some(r) && StripWhitespace(r) == r
            && IsFloorOf(Denoted(r), Places(maxDecimals), Denoted(n))
  {
    AcceptedReads(balance);
    var s := StripWhitespace(balance);
    FormatMaxFloors(balance, n, Digits(Whole(s)), Digits(Fraction(s)), maxDecimals);
  }

  lemma FormatMaxFloors(balance: string, n: string, a: string, b: string, maxDecimals: int)
    requires Normalize(balance) == Some(n) && Reads(n, a, b)
    ensures var r := FormatMax(balance, maxDecimals);
            && r != "" && Normalize(r) == Some(r) && StripWhitespace(r) == r
            && IsFloorOf(Denoted(r), Places(maxDecimals), Denoted(n))
  {
    var r, d := FormatMax(balance, maxDecimals), Places(maxDecimals);
    assert Kept(b, d) == Kept(b, maxDecimals);
    FormattedReads(n, a, b, maxDecimals);
    NormalIsFixed(r, OrZero(a), StripZeros(Kept(b, d)));
    ReadsDenotes(r, OrZero(a), StripZeros(Kept(b, d)));
    ReadsDenotes(n, a, b);
    FormattedFloors(a, b, d);
  }

  // ---------------------------------------------------------------- parsing

  lemma ValuePositive(x: Decimal)
    ensures Value(x) > 0.0 <==> x.digits > 0
  {
    Quotient(x.digits as real, Pow10(x.places) as real);
  }

  lemma Quotient(x: real, p: real)
    requires x >= 0.0 && p > 0.0
    ensures x / p > 0.0 <==> x > 0.0
  {
  }

  /**
   * What judging a typed amount means: nothing typed, not a decimal, too many digits after the
   * rightmost separator (and how many too many), only zeros, or the number itself.
   */
  lemma ParseMeans(raw: string, maxDecimals: int)
    ensures
      var s := StripWhitespace(raw);
      var places := |Digits(Fraction(s))|;
      ParseSellAmount(raw, maxDecimals) ==
      if Trim(raw) == "" then Empty
      else if !Plain(s) then Invalid(NotADecimal)
      else if places > maxDecimals then PrecisionExceeded(places - maxDecimals)
      else if ToNat(Digits(raw)) == 0 then Invalid(NotPositive)
      else Amount(Show(Digits(Whole(s)), Digits(Fraction(s))), ToNat(Digits(raw)) as real / Pow10(places) as real)
  {
    NormalizeMeans(raw);
    if Normalize(raw).Some? {
      NormalizeKeepsTheNumber(raw, Normalize(raw).value);
      ValuePositive(Denoted(Normalize(raw).value));
    }
  }

  lemma FloorPositive(r: Decimal, d: nat, x: Decimal)
    requires IsFloorOf(r, d, x)
    ensures r.digits > 0 <==> Pow10(x.places) <= x.digits * Pow10(d)
  {
    QuotientPositive(r.digits, Pow10(d - r.places), Pow10(x.places), x.digits * Pow10(d));
  }

  lemma QuotientPositive(u: nat, k: nat, q: nat, total: nat)
    requires k >= 1 && q >= 1 && u * k * q <= total < (u * k + 1) * q
    ensures u > 0 <==> q <= total
  {
    if u > 0 {
      Regroup(1, u, k);
      assert u * k >= 1;
      AtLeastOnce(u * k, q);
    }
  }

  lemma AtLeastOnce(m: nat, q: nat)
    requires m >= 1
    ensures m * q >= q
  {
  }

  lemma NormalIsNotBlank(r: string)
    requires r != "" && StripWhitespace(r) == r
    ensures Trim(r) != ""
  {
    WithoutChars(r, SPACES);
    assert r[0] in r && r[|r| - 1] in r;
  }

  /**
   * The maximum a form offers is taken back by the form itself: with no places to exceed it is
   * never too precise, and it is accepted exactly when the balance holds at least one unit of the
   * last allowed place. A negative number of places refuses every maximum.
   */
  lemma FormatThenParse(balance: string, maxDecimals: int)
    ensures var r := FormatMax(balance, maxDecimals);
            ParseSellAmount(r, maxDecimals) ==
            match Normalize(balance)
            case None => Empty
            case Some(n) =>
              if maxDecimals < 0 then PrecisionExceeded(-maxDecimals)
              else if HoldsAUnit(Denoted(n), maxDecimals) then Amount(r, Value(Denoted(r)))
              else Invalid(NotPositive)
  {
    match Normalize(balance)
    case None =>
    case Some(n) =>
      var r := FormatMax(balance, maxDecimals);
      FormatMaxIsFloor(balance, n, maxDecimals);
      ParseOfNormal(r, maxDecimals);
      FloorIsJudged(r, maxDecimals, Denoted(n));
  }

  lemma ParseOfNormal(r: string, maxDecimals: int)
    requires r != "" && Normalize(r) == Some(r) && StripWhitespace(r) == r
    ensures ParseSellAmount(r, maxDecimals) == Judge(Some(r), maxDecimals)
  {
    NormalIsNotBlank(r);
  }

  lemma FloorIsJudged(r: string, maxDecimals: int, x: Decimal)
    requires IsFloorOf(Denoted(r), Places(maxDecimals), x)
    ensures Judge(Some(r), maxDecimals) ==
            if maxDecimals < 0 then PrecisionExceeded(-maxDecimals)
            else if HoldsAUnit(x, maxDecimals) then Amount(r, Value(Denoted(r)))
            else Invalid(NotPositive)
  {
    ValuePositive(Denoted(r));
    FloorPositive(Denoted(r), Places(maxDecimals), x);
  }

  /** At least one unit of the d-th decimal place. */
  predicate HoldsAUnit(x: Decimal, d: nat) {
    Pow10(x.places) <= x.digits * Pow10(d)
  }

  // ---------------------------------------------------------------- trimming

  lemma {:induction false} StripZerosAfter(p: string, b: string)
    requires p != "" && p[|p| - 1] != '0'
    ensures StripZeros(p + b) == p + StripZeros(b)
    decreases |b|
  {
    if b == "" {
      assert p + b == p;
    } else if b[|b| - 1] == '0' {
      StripZerosAfter(p, b[..|b| - 1]);
      assert (p + b)[..|p + b| - 1] == p + b[..|b| - 1];
    }
  }

  lemma PointStays(n: string, intPart: string, fracPart: string)
    requires Reads(n, intPart, fracPart) && fracPart != ""
    ensures '.' in n && StripZeros(n) == intPart + "." + StripZeros(fracPart)
  {
    assert n[|intPart|] == '.';
    assert n == (intPart + ".") + fracPart;
    StripZerosAfter(intPart + ".", fracPart);
  }

  lemma DropsPoint(n: string, head: string)
    requires |head| + 1 < |n|
    ensures DropPoint(n, head + ".") == head
  {
    var stripped := head + ".";
    assert stripped[|stripped| - 1] == '.' && stripped[..|stripped| - 1] == head;
  }

  lemma KeepsPoint(n: string, head: string, f: string)
    requires AllDigits(f) && f != ""
    ensures DropPoint(n, head + "." + f) == head + "." + f
  {
    var stripped := head + "." + f;
    assert stripped[|stripped| - 1] == f[|f| - 1];
  }

  lemma TrimShows(n: string, intPart: string, fracPart: string)
    requires Reads(n, intPart, fracPart) && fracPart != ""
    ensures var f := StripZeros(fracPart);
            TrimTrailingZeros(n) == if f == "" then OrZero(intPart) else Show(intPart, f)
  {
    var f := StripZeros(fracPart);
    PointStays(n, intPart, fracPart);
    StrippedIsDigits(fracPart);
    if f == "" {
      assert intPart + "." + f == intPart + ".";
      DropsPoint(n, intPart);
    } else {
      KeepsPoint(n, intPart, f);
    }
  }

  function TrimmedWhole(intPart: string, f: string): string {
    if f == "" then OrZero(intPart) else intPart
  }

  lemma TrimReads(n: string, intPart: string, fracPart: string)
    requires Reads(n, intPart, fracPart)
    ensures var f := StripZeros(fracPart);
            Reads(TrimTrailingZeros(n), TrimmedWhole(intPart, f), f)
  {
    if fracPart != "" {
      TrimShows(n, intPart, fracPart);
      StrippedIsDigits(fracPart);
    } else {
      ReadsIndex(n, intPart, fracPart);
    }
  }

  lemma TrimmedWholeKeepsValue(intPart: string, f: string)
    requires AllDigits(intPart) && AllDigits(f)
    ensures AllDigits(TrimmedWhole(intPart, f) + f) && ToNat(TrimmedWhole(intPart, f) + f) == ToNat(intPart + f)
  {
    OrZeroKeepsValue(intPart, f);
  }

  /** Trimming a normal form only removes fractional zeros: the same number, none left at the end. */
  lemma TrimKeepsValue(n: string, intPart: string, fracPart: string)
    requires Reads(n, intPart, fracPart)
    ensures var t := TrimTrailingZeros(n);
            && Normalize(t) == Some(t)
            && Denoted(t).places == |StripZeros(fracPart)| <= |fracPart|
            && Denoted(n).digits == Denoted(t).digits * Pow10(Denoted(n).places - Denoted(t).places)
  {
    var f, t := StripZeros(fracPart), TrimTrailingZeros(n);
    TrimReads(n, intPart, fracPart);
    NormalIsFixed(t, TrimmedWhole(intPart, f), f);
    ReadsDenotes(t, TrimmedWhole(intPart, f), f);
    ReadsDenotes(n, intPart, fracPart);
    StrippedZerosScale(intPart, fracPart);
    TrimmedWholeKeepsValue(intPart, f);
  }
}
