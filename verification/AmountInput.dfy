/**
 * Sell amounts typed or pasted by a user: normalisation, precision, clamping
 * (frontend/lib/amount-input.ts).
 */
module AmountInput {
  import opened Options
  import opened Strings
  import opened Decimals

  function StripWhitespace(raw: string): string {
    Without(raw, SPACES)
  }

  predicate Scientific(s: string) {
    exists i :: 0 <= i < |s| - 1 && s[i] in "eE"
      && (IsDigit(s[i + 1]) || (s[i + 1] in "+-" && i + 2 < |s| && IsDigit(s[i + 2])))
  }

  /** `s.replace(from, to)` with a string pattern: only the first occurrence changes. */
  function ReplaceFirst(s: string, from: char, to: char): string {
    var k := IndexOf(s, from);
    if k < 0 then s else s[..k] + [to] + s[k + 1..]
  }

  /** The input with its decimal mark turned into a point and its thousands separators removed. */
  function Repunctuated(s: string): string {
    var lastComma := LastIndexOf(s, ',');
    var lastDot := LastIndexOf(s, '.');
    if lastComma >= 0 && lastDot >= 0 then
      if lastComma > lastDot then ReplaceFirst(Without(s, {'.'}), ',', '.') else Without(s, {','})
    else if lastComma >= 0 then ReplaceFirst(s, ',', '.')
    else s
  }

  function Assembled(work: string): Option<string> {
    var parts := Split(work, '.');
    if |parts| > 2 then None
    else
      var intPart := parts[0];
      var fracPart := if |parts| == 2 then parts[1] else "";
      if !AllDigits(intPart) || !AllDigits(fracPart) || (intPart == "" && fracPart == "") then None
      else Some(Show(intPart, fracPart))
  }

  function Normalize(raw: string): Option<string> {
    var s := StripWhitespace(raw);
    if s == "" || Scientific(s) then None
    else
      var work := Repunctuated(s);
      if Scientific(work) then None else Assembled(work)
  }

  function Show(intPart: string, fracPart: string): string {
    if fracPart == "" then intPart else intPart + "." + fracPart
  }

  function FractionalDigitCount(n: string): nat {
    var dot := IndexOf(n, '.');
    if dot < 0 then 0 else |n| - dot - 1
  }

  function TrimTrailingZeros(n: string): string {
    if '.' !in n then n else OrZero(DropPoint(n, StripZeros(n)))
  }

  /** A point goes with the zeros that followed it, if there were any. */
  function DropPoint(n: string, stripped: string): string {
    if stripped != n && stripped != "" && stripped[|stripped| - 1] == '.' then stripped[..|stripped| - 1] else stripped
  }

  function OrZero(s: string): string {
    if s == "" then "0" else s
  }

  function Clamp(n: string, maxDecimals: int): string {
    if maxDecimals <= 0 then OrZero(Split(n, '.')[0])
    else
      var dot := IndexOf(n, '.');
      if dot < 0 then n
      else
        var end := if dot + 1 + maxDecimals <= |n| then dot + 1 + maxDecimals else |n|;
        var frac := StripZeros(n[dot + 1..end]);
        if frac == "" then OrZero(n[..dot]) else OrZero(n[..dot]) + "." + frac
  }

  function FormatMax(balance: string, maxDecimals: int): string {
    match Normalize(balance)
    case None => ""
    case Some(n) => FormatNormalized(n, maxDecimals)
  }

  function FormatNormalized(n: string, maxDecimals: int): string {
    TrimTrailingZeros(Clamp(n, maxDecimals))
  }

  /** What a normal form denotes. */
  function Denoted(n: string): Decimal {
    Decimal(ToNat(Digits(n)), FractionalDigitCount(n))
  }

  /** `Number(n)`, exactly. */
  function Value(x: Decimal): real {
    x.digits as real / Pow10(x.places) as real
  }

  datatype Fault = NotADecimal | NotPositive

  datatype Parsed =
    | Empty
    | Invalid(fault: Fault)
    | PrecisionExceeded(exceededBy: int)
    | Amount(normalized: string, numeric: real)

  function ParseSellAmount(raw: string, maxDecimals: int): Parsed {
    if Trim(raw) == "" then Empty else Judge(Normalize(raw), maxDecimals)
  }

  function Judge(normalized: Option<string>, maxDecimals: int): Parsed {
    match normalized
    case None => Invalid(NotADecimal)
    case Some(n) =>
      var fracDigits := FractionalDigitCount(n);
      if fracDigits > maxDecimals then PrecisionExceeded(fracDigits - maxDecimals)
      else if Value(Denoted(n)) <= 0.0 then Invalid(NotPositive)
      else Amount(n, Value(Denoted(n)))
  }
}
