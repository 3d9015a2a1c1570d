/** What normalising a typed amount means, and the normal forms it produces. */
module AmountNormalForms {
  import opened Options
  import opened Strings
  import opened Decimals
  import opened AmountInput

  predicate IsSeparator(c: char) {
    c == ',' || c == '.'
  }

  /** Where the decimal mark is: the rightmost comma or point. */
  function MarkOf(s: string): (m: int)
    ensures -1 <= m < |s|
    ensures m >= 0 ==> IsSeparator(s[m])
    ensures forall i :: m < i < |s| ==> !IsSeparator(s[i])
  {
    if s == "" then -1
    else if IsSeparator(s[|s| - 1]) then |s| - 1
    else MarkOf(s[..|s| - 1])
  }

  function Whole(s: string): string {
    if MarkOf(s) < 0 then s else s[..MarkOf(s)]
  }

  function Fraction(s: string): string {
    s[if MarkOf(s) < 0 then |s| else MarkOf(s) + 1..]
  }

  /** Digits and separators only, at least one digit, and the decimal mark used once. */
  predicate Plain(s: string) {
    && (forall i :: 0 <= i < |s| ==> IsDigit(s[i]) || IsSeparator(s[i]))
    && Digits(s) != ""
    && (MarkOf(s) >= 0 ==> s[MarkOf(s)] !in Whole(s))
  }

  lemma ReplaceAt(a: string, c: char, b: string, to: char)
    requires c !in a
    ensures ReplaceFirst(a + [c] + b, c, to) == a + [to] + b
  {
    FirstOf(a, c, b);
    var s := a + [c] + b;
    assert s[..|a|] == a && s[|a| + 1..] == b;
  }

  predicate DigitsOr(s: string, others: set<char>) {
    forall i :: 0 <= i < |s| ==> IsDigit(s[i]) || s[i] in others
  }

  lemma NotScientific(s: string)
    requires DigitsOr(s, {',', '.'})
    ensures !Scientific(s)
  {
  }

  /** Removing `c` leaves digits exactly when there was nothing but digits and `c`. */
  lemma RemovalLeavesDigits(s: string, c: char)
    requires !IsDigit(c)
    ensures AllDigits(Without(s, {c})) <==> DigitsOr(s, {c})
    ensures DigitsOr(s, {c}) ==> Without(s, {c}) == Digits(s)
  {
    var r := Without(s, {c});
    WithoutChars(s, {c});
    if DigitsOr(s, {c}) {
      assert forall i :: 0 <= i < |r| ==> r[i] in r;
      assert AllDigits(r);
      WithoutTwice(s, {c}, NON_DIGITS);
      assert {c} + NON_DIGITS == NON_DIGITS;
      DigitsOfDigits(r);
    } else {
      var i :| 0 <= i < |s| && !IsDigit(s[i]) && s[i] != c;
      assert s[i] in r;
    }
  }

  lemma AssembledTwo(a: string, b: string)
    requires '.' !in a && '.' !in b
    ensures Assembled(a + "." + b) ==
            if AllDigits(a) && AllDigits(b) && a + b != "" then Some(Show(a, b)) else None
  {
    SplitAt(a, '.', b);
    SplitAbsent(b, '.');
  }

  /** A second comma before the decimal comma survives, so the fraction is not a number. */
  lemma SecondCommaIsRejected(a: string, b: string)
    requires ',' in a && '.' !in a && '.' !in b
    ensures Assembled(ReplaceFirst(a + "," + b, ',', '.')) == None
  {
    var k := IndexOf(a, ',');
    var x, y := a[..k], a[k + 1..];
    assert a == x + "," + y;
    assert a + "," + b == x + "," + (y + "," + b);
    ReplaceAt(x, ',', y + "," + b, '.');
    AssembledTwo(x, y + "," + b);
    assert (y + "," + b)[|y|] == ',';
  }

  lemma SecondPointIsRejected(a: string, b: string)
    requires '.' in a
    ensures Assembled(a + "." + b) == None
  {
    var k := IndexOf(a, '.');
    var x, y := a[..k], a[k + 1..];
    assert a == x + "." + y;
    assert a + "." + b == x + "." + (y + "." + b);
    SplitAt(x, '.', y + "." + b);
    var rest := y + "." + b;
    assert rest[|y|] == '.';
    assert IndexOf(rest, '.') >= 0;
  }

  lemma RightmostComma(s: string)
    requires LastIndexOf(s, ',') > LastIndexOf(s, '.')
    ensures Repunctuated(s) == ReplaceFirst(Without(s, {'.'}), ',', '.')
  {
    if LastIndexOf(s, '.') < 0 {
      WithoutNone(s, {'.'});
    }
  }

  lemma RightmostPoint(s: string)
    requires LastIndexOf(s, '.') > LastIndexOf(s, ',')
    ensures Repunctuated(s) == Without(s, {','})
  {
    if LastIndexOf(s, ',') < 0 {
      WithoutNone(s, {','});
    }
  }

  lemma CommaRepunctuated(s: string, a: string, b: string)
    requires s == a + [','] + b && forall c :: c in b ==> !IsSeparator(c)
    ensures Repunctuated(s) == ReplaceFirst(Without(a, {'.'}) + [','] + b, ',', '.')
  {
    LastSeparator(a, ',', b);
    RightmostComma(s);
    WithoutAround(a, ',', b, {'.'});
    assert forall i :: 0 <= i < |b| ==> b[i] in b;
    WithoutNone(b, {'.'});
  }

  lemma PointRepunctuated(s: string, a: string, b: string)
    requires s == a + ['.'] + b && forall c :: c in b ==> !IsSeparator(c)
    ensures Repunctuated(s) == Without(a, {','}) + ['.'] + b
  {
    LastSeparator(a, '.', b);
    RightmostPoint(s);
    WithoutAround(a, '.', b, {','});
    assert forall i :: 0 <= i < |b| ==> b[i] in b;
    WithoutNone(b, {','});
  }

  lemma LastSeparator(a: string, mark: char, b: string)
    requires IsSeparator(mark)
    requires forall c :: c in b ==> !IsSeparator(c)
    ensures var s := a + [mark] + b; LastIndexOf(s, mark) == |a| == MarkOf(s)
    ensures var s := a + [mark] + b; forall c :: IsSeparator(c) && c != mark ==> LastIndexOf(s, c) < |a|
  {
    var s := a + [mark] + b;
    assert s[|a|] == mark;
    assert forall i :: |a| < i < |s| ==> s[i] == b[i - |a| - 1] && s[i] in b;
  }

  /** Comma as the decimal mark. */
  lemma CommaCase(a: string, b: string)
    requires forall c :: c in b ==> !IsSeparator(c)
    ensures Assembled(Repunctuated(a + "," + b)) ==
            if ',' !in a && DigitsOr(a, {'.'}) && AllDigits(b) && Digits(a) + b != ""
            then Some(Show(Digits(a), b)) else None
  {
    var w := Without(a, {'.'});
    CommaRepunctuated(a + "," + b, a, b);
    WithoutChars(a, {'.'});
    RemovalLeavesDigits(a, '.');
    if ',' in a {
      SecondCommaIsRejected(w, b);
    } else {
      ReplaceAt(w, ',', b, '.');
      AssembledTwo(w, b);
    }
  }

  /** Point as the decimal mark. */
  lemma PointCase(a: string, b: string)
    requires forall c :: c in b ==> !IsSeparator(c)
    ensures Assembled(Repunctuated(a + "." + b)) ==
            if '.' !in a && DigitsOr(a, {','}) && AllDigits(b) && Digits(a) + b != ""
            then Some(Show(Digits(a), b)) else None
  {
    var w := Without(a, {','});
    PointRepunctuated(a + "." + b, a, b);
    WithoutChars(a, {','});
    RemovalLeavesDigits(a, ',');
    if '.' in a {
      SecondPointIsRejected(w, b);
    } else {
      AssembledTwo(w, b);
    }
  }

  lemma PartsOf(a: string, mark: char, b: string)
    requires IsSeparator(mark)
    requires forall c :: c in b ==> !IsSeparator(c)
    ensures var s := a + [mark] + b; MarkOf(s) == |a| && Whole(s) == a && Fraction(s) == b
  {
    var s := a + [mark] + b;
    LastSeparator(a, mark, b);
    assert s[..|a|] == a && s[|a| + 1..] == b;
  }

  lemma CharsOf(a: string, mark: char, b: string)
    requires IsSeparator(mark)
    ensures DigitsOr(a + [mark] + b, {',', '.'}) <==> DigitsOr(a, {',', '.'}) && DigitsOr(b, {',', '.'})
  {
    var s := a + [mark] + b;
    assert forall i :: 0 <= i < |a| ==> s[i] == a[i];
    assert forall i :: 0 <= i < |b| ==> s[|a| + 1 + i] == b[i];
    assert s[|a|] == mark;
  }

  lemma DigitsAround(a: string, mark: char, b: string)
    requires IsSeparator(mark) && AllDigits(b)
    ensures Digits(a + [mark] + b) == Digits(a) + b
  {
    WithoutAround(a, mark, b, NON_DIGITS);
    DigitsOfDigits(b);
  }

  lemma DigitsOrNarrows(a: string, mark: char)
    requires IsSeparator(mark) && mark !in a
    ensures DigitsOr(a, {',', '.'}) <==> DigitsOr(a, {',', '.'} - {mark})
  {
    assert forall i :: 0 <= i < |a| ==> a[i] in a;
  }

  lemma DigitsOrUnmarked(b: string)
    requires forall c :: c in b ==> !IsSeparator(c)
    ensures AllDigits(b) <==> DigitsOr(b, {',', '.'})
  {
    assert forall i :: 0 <= i < |b| ==> b[i] in b;
  }

  /** `Plain`, told from the two sides of the decimal mark. */
  lemma PlainParts(s: string, a: string, mark: char, b: string)
    requires IsSeparator(mark) && s == a + [mark] + b
    requires forall c :: c in b ==> !IsSeparator(c)
    ensures Plain(s) <==> mark !in a && DigitsOr(a, {',', '.'} - {mark}) && AllDigits(b) && Digits(a) + b != ""
    ensures Plain(s) ==> Digits(s) == Digits(a) + b
  {
    PartsOf(a, mark, b);
    CharsOf(a, mark, b);
    DigitsOrUnmarked(b);
    if AllDigits(b) {
      DigitsAround(a, mark, b);
    }
    if mark !in a {
      DigitsOrNarrows(a, mark);
    }
    assert Plain(s) <==> DigitsOr(s, {',', '.'}) && Digits(s) != "" && mark !in a;
  }

  lemma NoMarkRepunctuated(s: string)
    requires MarkOf(s) < 0
    ensures Repunctuated(s) == s && '.' !in s && ',' !in s
  {
    assert forall i :: 0 <= i < |s| ==> !IsSeparator(s[i]);
  }

  lemma AssembledOne(s: string)
    requires '.' !in s
    ensures Assembled(s) == if AllDigits(s) && s != "" then Some(s) else None
  {
    SplitAbsent(s, '.');
  }

  lemma NoMarkPlain(s: string)
    requires MarkOf(s) < 0
    ensures Plain(s) <==> AllDigits(s) && s != ""
    ensures Plain(s) ==> Digits(s) == s
  {
    assert forall i :: 0 <= i < |s| ==> !IsSeparator(s[i]);
    if AllDigits(s) {
      DigitsOfDigits(s);
    }
  }

  lemma NoMarkCase(s: string)
    requires MarkOf(s) < 0
    ensures Assembled(Repunctuated(s)) == if Plain(s) then Some(s) else None
    ensures Plain(s) ==> AllDigits(s) && Digits(s) == s
  {
    NoMarkRepunctuated(s);
    AssembledOne(s);
    NoMarkPlain(s);
  }

  lemma MarkCase(s: string, a: string, mark: char, b: string)
    requires IsSeparator(mark) && s == a + [mark] + b
    requires forall c :: c in b ==> !IsSeparator(c)
    ensures Assembled(Repunctuated(s)) == if Plain(s) then Some(Show(Digits(a), b)) else None
  {
    PlainParts(s, a, mark, b);
    if mark == ',' {
      CommaCase(a, b);
      assert {',', '.'} - {mark} == {'.'};
    } else {
      PointCase(a, b);
      assert {',', '.'} - {mark} == {','};
    }
  }

  lemma AcceptedIsPlain(s: string)
    ensures Assembled(Repunctuated(s)) == if Plain(s) then Some(Show(Digits(Whole(s)), Fraction(s))) else None
    ensures Plain(s) ==> AllDigits(Fraction(s)) && Digits(Whole(s)) + Fraction(s) == Digits(s)
  {
    var m := MarkOf(s);
    if m < 0 {
      NoMarkCase(s);
    } else {
      var a, mark, b := s[..m], s[m], s[m + 1..];
      assert s == a + [mark] + b;
      PartsOf(a, mark, b);
      PlainParts(s, a, mark, b);
      MarkCase(s, a, mark, b);
    }
  }

  /**
   * What normalisation means: exactly the plain decimals are accepted, and an accepted one is its
   * digits in order with a point where the rightmost separator was.
   */
  lemma NormalizeMeans(raw: string)
    ensures var s := StripWhitespace(raw);
            Normalize(raw) == if Plain(s) then Some(Show(Digits(Whole(s)), Digits(Fraction(s)))) else None
  {
    var s := StripWhitespace(raw);
    AcceptedIsPlain(s);
    if Plain(s) {
      DigitsOfDigits(Fraction(s));
      NotScientific(s);
      RepunctuatedIsPlain(s);
    }
  }

  lemma RepunctuatedIsPlain(s: string)
    requires DigitsOr(s, {',', '.'})
    ensures !Scientific(Repunctuated(s))
  {
    WithoutChars(s, {'.'});
    WithoutChars(s, {','});
    var dotless, commaless := Without(s, {'.'}), Without(s, {','});
    assert forall i :: 0 <= i < |dotless| ==> dotless[i] in dotless;
    assert forall i :: 0 <= i < |commaless| ==> commaless[i] in commaless;
    NotScientific(Repunctuated(s));
  }

  // ---------------------------------------------------------------- normal forms

  /** `n` is `intPart.fracPart` in normal form. */
  predicate Reads(n: string, intPart: string, fracPart: string) {
    AllDigits(intPart) && AllDigits(fracPart) && intPart + fracPart != "" && n == Show(intPart, fracPart)
  }

  lemma ReadsIndex(n: string, intPart: string, fracPart: string)
    requires Reads(n, intPart, fracPart)
    ensures IndexOf(n, '.') == (if fracPart == "" then -1 else |intPart|)
    ensures FractionalDigitCount(n) == |fracPart|
    ensures fracPart != "" ==> n[..|intPart|] == intPart && n[|intPart| + 1..] == fracPart
  {
    if fracPart != "" {
      assert forall i :: 0 <= i < |intPart| ==> IsDigit(intPart[i]);
      FirstOf(intPart, '.', fracPart);
    }
  }

  lemma PointedIsPlain(n: string, intPart: string, fracPart: string)
    requires AllDigits(intPart) && AllDigits(fracPart) && fracPart != "" && n == intPart + ['.'] + fracPart
    ensures Plain(n) && Whole(n) == intPart && Fraction(n) == fracPart
  {
    forall c | c in fracPart ensures !IsSeparator(c) {
      var i :| 0 <= i < |fracPart| && fracPart[i] == c;
    }
    DigitsOfDigits(intPart);
    PartsOf(intPart, '.', fracPart);
    PlainParts(n, intPart, '.', fracPart);
  }

  lemma DigitsArePlain(n: string)
    requires AllDigits(n) && n != ""
    ensures Plain(n) && Whole(n) == n && Fraction(n) == ""
  {
    assert MarkOf(n) < 0;
    NoMarkPlain(n);
  }

  lemma NormalHasNoSpace(n: string, intPart: string, fracPart: string)
    requires Reads(n, intPart, fracPart)
    ensures StripWhitespace(n) == n
  {
    assert forall i :: 0 <= i < |n| ==> IsDigit(n[i]) || n[i] == '.';
    WithoutNone(n, SPACES);
  }

  /** A normal form is not changed by normalising it. */
  lemma NormalIsFixed(n: string, intPart: string, fracPart: string)
    requires Reads(n, intPart, fracPart)
    ensures Normalize(n) == Some(n)
    ensures StripWhitespace(n) == n
  {
    NormalHasNoSpace(n, intPart, fracPart);
    NormalizeMeans(n);
    DigitsOfDigits(intPart);
    DigitsOfDigits(fracPart);
    if fracPart != "" {
      PointedIsPlain(n, intPart, fracPart);
    } else {
      DigitsArePlain(n);
    }
  }

  lemma DigitsOfStripped(raw: string)
    ensures Digits(StripWhitespace(raw)) == Digits(raw)
  {
    WithoutTwice(raw, SPACES, NON_DIGITS);
    assert SPACES + NON_DIGITS == NON_DIGITS;
  }

  lemma AcceptedReads(raw: string)
    requires Normalize(raw).Some?
    ensures var s := StripWhitespace(raw);
            && Reads(Normalize(raw).value, Digits(Whole(s)), Digits(Fraction(s)))
            && Digits(Whole(s)) + Digits(Fraction(s)) == Digits(raw)
  {
    var s := StripWhitespace(raw);
    NormalizeMeans(raw);
    AcceptedIsPlain(s);
    DigitsOfDigits(Fraction(s));
    DigitsOfStripped(raw);
  }

  /**
   * An accepted normalisation has all the digits of the input in order, as many fractional digits
   * as follow its rightmost separator, and is a fixed point of normalisation.
   */
  lemma NormalizeKeepsTheNumber(raw: string, n: string)
    requires Normalize(raw) == Some(n)
    ensures Digits(n) == Digits(raw)
    ensures FractionalDigitCount(n) == |Digits(Fraction(StripWhitespace(raw)))|
    ensures Normalize(n) == Some(n)
  {
    var s := StripWhitespace(raw);
    AcceptedReads(raw);
    ReadsIndex(n, Digits(Whole(s)), Digits(Fraction(s)));
    NormalIsFixed(n, Digits(Whole(s)), Digits(Fraction(s)));
    DigitsOfShow(Digits(Whole(s)), Digits(Fraction(s)));
  }

  lemma DigitsOfShow(intPart: string, fracPart: string)
    requires AllDigits(intPart) && AllDigits(fracPart)
    ensures Digits(Show(intPart, fracPart)) == intPart + fracPart
  {
    DigitsOfDigits(intPart);
    if fracPart != "" {
      DigitsAround(intPart, '.', fracPart);
    }
  }
}
