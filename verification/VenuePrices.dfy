/**
 * Best prices per pair and fixed-point amounts, as the health scheduler feeds them to the venue
 * scorer (crates/api/src/health_scheduler.rs).
 */
module VenuePrices {
  import opened Options
  import opened Strings
  import opened Decimals

  const I64_MAX: int := 9223372036854775807
  const I64_MIN: int := -9223372036854775808

  type Price = p: int | I64_MIN <= p <= I64_MAX

  type AssetId = nat

  /** One SDEX offer. */
  datatype Offer = Offer(venueRef: string, selling: AssetId, buying: AssetId, price: Price, amount: Price)

  type Book = map<(AssetId, AssetId), Price>

  // ---------------------------------------------------------------- best prices

  /** `p` is the lowest price at which `selling` is offered for `buying`. */
  ghost predicate IsBest(offers: seq<Offer>, selling: AssetId, buying: AssetId, p: Price) {
    && (exists i :: 0 <= i < |offers| && Quotes(offers[i], selling, buying) && offers[i].price == p)
    && (forall i :: 0 <= i < |offers| && Quotes(offers[i], selling, buying) ==> p <= offers[i].price)
  }

  predicate Quotes(o: Offer, selling: AssetId, buying: AssetId) {
    o.selling == selling && o.buying == buying
  }

  /** The map holds exactly the quoted pairs, each with its lowest price. */
  ghost predicate IsAskBook(offers: seq<Offer>, asks: Book) {
    && (forall i :: 0 <= i < |offers| ==> (offers[i].selling, offers[i].buying) in asks)
    && (forall pair :: pair in asks ==> IsBest(offers, pair.0, pair.1, asks[pair]))
  }

  /** The same, each pair the other way round. */
  ghost predicate IsReverseBook(offers: seq<Offer>, reverse: Book) {
    && (forall i :: 0 <= i < |offers| ==> (offers[i].buying, offers[i].selling) in reverse)
    && (forall pair :: pair in reverse ==> IsBest(offers, pair.1, pair.0, reverse[pair]))
  }

  function Lowered(book: Book, pair: (AssetId, AssetId), price: Price): Book {
    var entry := if pair in book then book[pair] else I64_MAX;
    book[pair := if price < entry then price else entry]
  }

  lemma BestGrows(offers: seq<Offer>, o: Offer, selling: AssetId, buying: AssetId, p: Price)
    requires IsBest(offers, selling, buying, p)
    ensures Quotes(o, selling, buying) ==>
              IsBest(offers + [o], selling, buying, if o.price < p then o.price else p)
    ensures !Quotes(o, selling, buying) ==> IsBest(offers + [o], selling, buying, p)
  {
    var more := offers + [o];
    var i :| 0 <= i < |offers| && Quotes(offers[i], selling, buying) && offers[i].price == p;
    assert more[i] == offers[i] && more[|offers|] == o;
  }

  lemma BestStarts(offers: seq<Offer>, o: Offer)
    requires forall i :: 0 <= i < |offers| ==> !Quotes(offers[i], o.selling, o.buying)
    ensures IsBest(offers + [o], o.selling, o.buying, o.price)
  {
    var more := offers + [o];
    assert more[|offers|] == o;
    assert forall i :: 0 <= i < |offers| ==> more[i] == offers[i];
  }

  lemma AskBookGrows(offers: seq<Offer>, asks: Book, o: Offer)
    requires IsAskBook(offers, asks)
    ensures IsAskBook(offers + [o], Lowered(asks, (o.selling, o.buying), o.price))
  {
    var next := Lowered(asks, (o.selling, o.buying), o.price);
    forall pair | pair in next ensures IsBest(offers + [o], pair.0, pair.1, next[pair]) {
      if pair in asks {
        BestGrows(offers, o, pair.0, pair.1, asks[pair]);
      } else {
        BestStarts(offers, o);
      }
    }
  }

  lemma ReverseBookGrows(offers: seq<Offer>, reverse: Book, o: Offer)
    requires IsReverseBook(offers, reverse)
    ensures IsReverseBook(offers + [o], Lowered(reverse, (o.buying, o.selling), o.price))
  {
    var next := Lowered(reverse, (o.buying, o.selling), o.price);
    forall pair | pair in next ensures IsBest(offers + [o], pair.1, pair.0, next[pair]) {
      if pair in reverse {
        BestGrows(offers, o, pair.1, pair.0, reverse[pair]);
      } else {
        BestStarts(offers, o);
      }
    }
  }

  /** The entry of a pair, created at the largest price and lowered to `price` if that is less. */
  method LowerEntry(book: Book, pair: (AssetId, AssetId), price: Price) returns (next: Book)
    ensures next == Lowered(book, pair, price)
  {
    var entry := if pair in book then book[pair] else I64_MAX;
    next := book[pair := entry];
    if price < entry {
      next := next[pair := price];
    }
  }

  lemma AskBookGrowsTo(offers: seq<Offer>, i: nat, book: Book)
    requires i < |offers| && IsAskBook(offers[..i], book)
    ensures var o := offers[i]; IsAskBook(offers[..i + 1], Lowered(book, (o.selling, o.buying), o.price))
  {
    AskBookGrows(offers[..i], book, offers[i]);
    assert offers[..i + 1] == offers[..i] + [offers[i]];
  }

  method BestAsks(offers: seq<Offer>) returns (asks: Book)
    ensures IsAskBook(offers, asks)
  {
    asks := map[];
    for i := 0 to |offers|
      invariant IsAskBook(offers[..i], asks)
    {
      AskBookGrowsTo(offers, i, asks);
      asks := LowerEntry(asks, (offers[i].selling, offers[i].buying), offers[i].price);
    }
    assert offers[..|offers|] == offers;
  }

  lemma ReverseBookGrowsTo(offers: seq<Offer>, i: nat, book: Book)
    requires i < |offers| && IsReverseBook(offers[..i], book)
    ensures var o := offers[i]; IsReverseBook(offers[..i + 1], Lowered(book, (o.buying, o.selling), o.price))
  {
    ReverseBookGrows(offers[..i], book, offers[i]);
    assert offers[..i + 1] == offers[..i] + [offers[i]];
  }

  method BestReverseAsks(offers: seq<Offer>) returns (reverse: Book)
    ensures IsReverseBook(offers, reverse)
  {
    reverse := map[];
    for i := 0 to |offers|
      invariant IsReverseBook(offers[..i], reverse)
    {
      ReverseBookGrowsTo(offers, i, reverse);
      reverse := LowerEntry(reverse, (offers[i].buying, offers[i].selling), offers[i].price);
    }
    assert offers[..|offers|] == offers;
  }

  lemma BestIsUnique(offers: seq<Offer>, selling: AssetId, buying: AssetId, p: Price, q: Price)
    requires IsBest(offers, selling, buying, p) && IsBest(offers, selling, buying, q)
    ensures p == q
  {
  }

  /** The two books, built separately, are transposes of each other. */
  lemma BooksAreTransposes(offers: seq<Offer>, asks: Book, reverse: Book, selling: AssetId, buying: AssetId)
    requires IsAskBook(offers, asks) && IsReverseBook(offers, reverse)
    ensures (selling, buying) in asks <==> (buying, selling) in reverse
    ensures (selling, buying) in asks ==> asks[(selling, buying)] == reverse[(buying, selling)]
  {
    if (selling, buying) in asks {
      assert IsBest(offers, selling, buying, asks[(selling, buying)]);
    }
    if (buying, selling) in reverse {
      assert IsBest(offers, selling, buying, reverse[(buying, selling)]);
    }
    if (selling, buying) in asks && (buying, selling) in reverse {
      BestIsUnique(offers, selling, buying, asks[(selling, buying)], reverse[(buying, selling)]);
    }
  }

  // ---------------------------------------------------------------- inverting a price

  /** The scale in the code; its comment derives 10^14. */
  const CODE_SCALE: nat := 10000000000000000
  const E7_SCALE: nat := 100000000000000

  function Inverted(scale: nat, p: Price): nat {
    if p > 0 then scale / p else 0
  }

  /** Truncating division, pinned down. */
  lemma InversionTruncates(scale: nat, p: Price)
    requires p > 0
    ensures Inverted(scale, p) * p <= scale < (Inverted(scale, p) + 1) * p
  {
  }

  /** The bid is no higher than the ask exactly when scale < (ask + 1) * p. */
  lemma BidBelowAskIff(scale: nat, ask: Price, p: Price)
    requires p > 0
    ensures Inverted(scale, p) <= ask <==> scale < (ask + 1) * p
  {
    var bid := Inverted(scale, p);
    InversionTruncates(scale, p);
    if bid <= ask {
      Monotone(bid + 1, ask + 1, p);
    } else {
      Monotone(ask + 1, bid, p);
    }
  }

  lemma Monotone(x: int, y: int, p: int)
    requires x <= y && p > 0
    ensures x * p <= y * p
  {
  }

  /** Prices that do not cross at a scale are not inverted into a crossed pair at that scale. */
  lemma UncrossedBidBelowAsk(scale: nat, ask: Price, p: Price)
    requires p > 0 && ask * p >= scale
    ensures Inverted(scale, p) <= ask
  {
    assert (ask + 1) * p == ask * p + p;
    BidBelowAskIff(scale, ask, p);
  }

  /** At the scale of the code it does, even with both sides at a price of exactly one. */
  lemma CodeScaleCrosses()
    ensures var one: Price := 10000000; one * one >= E7_SCALE && Inverted(CODE_SCALE, one) > one
  {
  }

  /** The quotient always fits the 64-bit integer it is cast to. */
  lemma InversionFits(p: Price)
    ensures Inverted(CODE_SCALE, p) <= I64_MAX
  {
    if p > 0 {
      InversionTruncates(CODE_SCALE, p);
      Monotone(1, p, Inverted(CODE_SCALE, p) + 1);
    }
  }

  datatype ScorerInput = ScorerInput(venueRef: string, bestBid: int, bestAsk: int, depth: int)

  /**
   * What the scorer is told about one offer: its pair's lowest ask, and the inverse of the lowest
   * ask of the reverse pair, or of its own price when nobody quotes the reverse.
   */
  ghost predicate Scores(offers: seq<Offer>, scale: nat, o: Offer, input: ScorerInput) {
    && input.venueRef == o.venueRef && input.depth == o.amount
    && (exists ask: Price :: input.bestAsk == ask && IsBest(offers, o.selling, o.buying, ask))
    && (exists rev: Price :: input.bestBid == Inverted(scale, rev) && IsReversePrice(offers, o, rev))
  }

  ghost predicate IsReversePrice(offers: seq<Offer>, o: Offer, rev: Price) {
    if exists i :: 0 <= i < |offers| && Quotes(offers[i], o.buying, o.selling)
    then IsBest(offers, o.buying, o.selling, rev)
    else rev == o.price
  }

  function InputOf(o: Offer, asks: Book, reverse: Book, scale: nat): ScorerInput {
    var pair := (o.selling, o.buying);
    var ask := if pair in asks then asks[pair] else o.price;
    var rev := if pair in reverse then reverse[pair] else o.price;
    ScorerInput(o.venueRef, Inverted(scale, rev), ask, o.amount)
  }

  lemma ScoresOf(offers: seq<Offer>, asks: Book, reverse: Book, scale: nat, i: nat)
    requires IsAskBook(offers, asks) && IsReverseBook(offers, reverse) && i < |offers|
    ensures Scores(offers, scale, offers[i], InputOf(offers[i], asks, reverse, scale))
  {
    var o := offers[i];
    var pair := (o.selling, o.buying);
    var rev := if pair in reverse then reverse[pair] else o.price;
    assert IsReversePrice(offers, o, rev) by {
      if pair in reverse {
        assert IsBest(offers, o.buying, o.selling, reverse[pair]);
      } else {
        assert forall k :: 0 <= k < |offers| ==> (offers[k].buying, offers[k].selling) in reverse;
      }
    }
    assert IsBest(offers, o.selling, o.buying, asks[pair]);
  }

  method VenueInputs(offers: seq<Offer>, scale: nat) returns (inputs: seq<ScorerInput>)
    ensures |inputs| == |offers|
    ensures forall i :: 0 <= i < |offers| ==> Scores(offers, scale, offers[i], inputs[i])
  {
    var asks := BestAsks(offers);
    var reverse := BestReverseAsks(offers);
    inputs := [];
    for i := 0 to |offers|
      invariant |inputs| == i
      invariant forall k :: 0 <= k < i ==> inputs[k] == InputOf(offers[k], asks, reverse, scale)
    {
      inputs := inputs + [InputOf(offers[i], asks, reverse, scale)];
    }
    forall i | 0 <= i < |offers| ensures Scores(offers, scale, offers[i], inputs[i]) {
      ScoresOf(offers, asks, reverse, scale, i);
    }
  }

  /** The reverse price an offer is scored with is a function of the offers. */
  lemma ReversePriceIsUnique(offers: seq<Offer>, o: Offer, p: Price, q: Price)
    requires IsReversePrice(offers, o, p) && IsReversePrice(offers, o, q)
    ensures p == q
  {
    if exists i :: 0 <= i < |offers| && Quotes(offers[i], o.buying, o.selling) {
      BestIsUnique(offers, o.buying, o.selling, p, q);
    }
  }

  /**
   * At any scale, the code's included, an offer is scored with a bid no higher than its ask exactly
   * when scale < (ask + 1) * rev, or, with no positive reverse price to invert, when the ask is not negative.
   */
  lemma ScoredBidBelowAskIff(offers: seq<Offer>, scale: nat, o: Offer, input: ScorerInput, ask: Price, rev: Price)
    requires Scores(offers, scale, o, input)
    requires IsBest(offers, o.selling, o.buying, ask) && IsReversePrice(offers, o, rev)
    ensures input.bestBid <= input.bestAsk <==> if rev > 0 then scale < (ask + 1) * rev else ask >= 0
  {
    var a: Price :| input.bestAsk == a && IsBest(offers, o.selling, o.buying, a);
    var r: Price :| input.bestBid == Inverted(scale, r) && IsReversePrice(offers, o, r);
    BestIsUnique(offers, o.selling, o.buying, a, ask);
    ReversePriceIsUnique(offers, o, r, rev);
    if rev > 0 {
      BidBelowAskIff(scale, ask, rev);
    }
  }

  /** At this scale, no offer of the pair could trade against an offer of the reverse pair. */
  ghost predicate Uncrossed(offers: seq<Offer>, scale: nat, selling: AssetId, buying: AssetId) {
    forall i, j | 0 <= i < |offers| && 0 <= j < |offers| && Quotes(offers[i], selling, buying)
                  && Quotes(offers[j], buying, selling) ::
      offers[i].price > 0 && offers[j].price > 0 && offers[i].price * offers[j].price >= scale
  }

  /**
   * Whatever the offers and the scale, a pair that is quoted on both sides and uncrossed at that
   * scale is scored with a bid no higher than its ask.
   */
  lemma UncrossedBookScoresUncrossed(offers: seq<Offer>, scale: nat, o: Offer, input: ScorerInput, j: nat)
    requires Scores(offers, scale, o, input) && Uncrossed(offers, scale, o.selling, o.buying)
    requires j < |offers| && Quotes(offers[j], o.buying, o.selling)
    ensures input.bestBid <= input.bestAsk
  {
    var ask: Price :| input.bestAsk == ask && IsBest(offers, o.selling, o.buying, ask);
    var rev: Price :| input.bestBid == Inverted(scale, rev) && IsReversePrice(offers, o, rev);
    assert IsBest(offers, o.buying, o.selling, rev);
    var x :| 0 <= x < |offers| && Quotes(offers[x], o.selling, o.buying) && offers[x].price == ask;
    var y :| 0 <= y < |offers| && Quotes(offers[y], o.buying, o.selling) && offers[y].price == rev;
    UncrossedBidBelowAsk(scale, ask, rev);
  }

  /** With nobody quoting the reverse pair, the bid is the offer's own inverse and can exceed the ask. */
  lemma OneSidedBookCrosses(ref: string, amount: Price)
    ensures var offers := [Offer(ref, 1, 2, 5000000, amount)];
            && IsBest(offers, 1, 2, 5000000) && IsReversePrice(offers, offers[0], 5000000)
            && Inverted(E7_SCALE, 5000000) > 5000000
  {
    var offers := [Offer(ref, 1, 2, 5000000, amount)];
    assert Quotes(offers[0], 1, 2) && !Quotes(offers[0], 2, 1);
  }

  // ---------------------------------------------------------------- fixed point

  const I128_MAX: int := 170141183460469231731687303715884105727
  const I128_MIN: int := -170141183460469231731687303715884105728

  /** Rust's `str::parse::<i128>`: an optional sign and at least one digit, in range. */
  function ParseI128(s: string): Option<int> {
    var signed := s != "" && (s[0] == '+' || s[0] == '-');
    var digits := if signed then s[1..] else s;
    if digits == "" || !AllDigits(digits) then None
    else
      var n: int := if s[0] == '-' then -(ToNat(digits) as int) else ToNat(digits);
      if I128_MIN <= n <= I128_MAX then Some(n) else None
  }

  function OrZero(n: Option<int>): int {
    if n.Some? then n.value else 0
  }

  /** A result of i128 arithmetic; None is an overflow, which panics or wraps depending on the build. */
  function Checked(n: int): Option<int> {
    if I128_MIN <= n <= I128_MAX then Some(n) else None
  }

  function CheckedSum(a: Option<int>, b: int): Option<int> {
    if a.Some? then Checked(a.value + b) else None
  }

  /** `{:0<7}` of at most seven characters. */
  function Padded(digits: string): string {
    if |digits| <= 7 then digits + Zeros(7 - |digits|) else digits[..7]
  }

  /** The integer part and the first seven fraction characters, each parsed on its own. */
  function AtPoint(intPart: string, fracPart: string): Option<int> {
    CheckedSum(Checked(OrZero(ParseI128(intPart)) * 10000000), OrZero(ParseI128(Padded(Kept(fracPart, 7)))))
  }

  function NumericToE7(val: string): Option<int> {
    var dot := IndexOf(val, '.');
    if dot >= 0 then
      AtPoint(val[..dot], val[dot + 1..])
    else Checked(OrZero(ParseI128(val)) * 10000000)
  }

  lemma DigitsParse(s: string)
    requires AllDigits(s)
    ensures OrZero(ParseI128(s)) == if ToNat(s) <= I128_MAX then ToNat(s) else 0
  {
  }

  lemma SevenDigitsParse(s: string)
    requires AllDigits(s) && |s| == 7
    ensures OrZero(ParseI128(s)) == ToNat(s) < 10000000
  {
    ToNatBound(s);
    Pow7();
  }

  lemma Pow38()
    ensures Pow10(38) == 100000000000000000000000000000000000000
  {
    PowAdd(19, 19);
    Pow19();
  }

  lemma Pow19()
    ensures Pow10(19) == 10000000000000000000
  {
    PowAdd(9, 10);
    PowAdd(5, 5);
    PowAdd(4, 5);
    assert Pow10(4) == 10000 && Pow10(5) == 100000;
  }

  lemma Pow7()
    ensures Pow10(7) == 10000000
  {
    assert Pow10(4) == 10000;
    PowAdd(4, 3);
  }

  lemma {:induction false} PowMonotone(a: nat, b: nat)
    requires a <= b
    ensures Pow10(a) <= Pow10(b)
    decreases b - a
  {
    if a < b {
      PowMonotone(a + 1, b);
    }
  }

  lemma PaddedReads(t: string)
    requires AllDigits(t) && |t| <= 7
    ensures AllDigits(Padded(t)) && |Padded(t)| == 7 && ToNat(Padded(t)) == ToNat(t) * Pow10(7 - |t|)
  {
    ZerosAreZero(Zeros(7 - |t|));
    ToNatConcat(t, Zeros(7 - |t|));
  }

  lemma ScaleParts(whole: nat, t: nat, p: nat, q: nat)
    ensures (whole * p + t) * q == whole * (p * q) + t * q
  {
  }

  lemma KeptIsDigits(fracPart: string)
    requires AllDigits(fracPart)
    ensures AllDigits(Kept(fracPart, 7)) && |Kept(fracPart, 7)| <= 7
  {
  }

  /** The seven kept fraction digits, padded, as a number. */
  function FractionE7(fracPart: string): nat
    requires AllDigits(fracPart)
  {
    KeptIsDigits(fracPart);
    PaddedReads(Kept(fracPart, 7));
    ToNat(Padded(Kept(fracPart, 7)))
  }

  lemma FractionParses(fracPart: string)
    requires AllDigits(fracPart)
    ensures OrZero(ParseI128(Padded(Kept(fracPart, 7)))) == FractionE7(fracPart) < 10000000
  {
    KeptIsDigits(fracPart);
    PaddedReads(Kept(fracPart, 7));
    SevenDigitsParse(Padded(Kept(fracPart, 7)));
  }

  lemma E7Split(intPart: string, fracPart: string)
    requires '.' !in intPart
    ensures NumericToE7(intPart + ['.'] + fracPart) == AtPoint(intPart, fracPart)
  {
    var val := intPart + ['.'] + fracPart;
    FirstOf(intPart, '.', fracPart);
    assert val[..|intPart|] == intPart && val[|intPart| + 1..] == fracPart;
  }

  /** The exact value in units of 10^-7, fraction digits beyond the seventh dropped. */
  function Exact(intPart: string, fracPart: string): nat
    requires AllDigits(intPart) && AllDigits(fracPart)
  {
    ToNat(intPart) * 10000000 + FractionE7(fracPart)
  }

  lemma E7Arithmetic(whole: nat, part: nat, k: nat)
    requires k <= 7
    ensures whole * 10000000 + part * Pow10(7 - k) == (whole * Pow10(k) + part) * Pow10(7 - k)
  {
    Pow7();
    PowAdd(k, 7 - k);
    ScaleParts(whole, part, Pow10(k), Pow10(7 - k));
  }

  lemma ExactUnits(intPart: string, fracPart: string)
    requires AllDigits(intPart) && AllDigits(fracPart)
    ensures var t := Kept(fracPart, 7);
            && AllDigits(t) && |t| <= 7
            && Exact(intPart, fracPart) == ToNat(intPart + t) * Pow10(7 - |t|)
  {
    KeptIsDigits(fracPart);
    var t := Kept(fracPart, 7);
    PaddedReads(t);
    E7Arithmetic(ToNat(intPart), ToNat(t), |t|);
    ToNatConcat(intPart, t);
  }

  lemma SameFloor(e7: nat, u: nat, x: Decimal)
    requires e7 == u && IsFloor(u, 7, x)
    ensures IsFloor(e7, 7, x)
  {
  }

  function Written(intPart: string, fracPart: string): Decimal
    requires AllDigits(intPart) && AllDigits(fracPart)
  {
    Decimal(ToNat(intPart + fracPart), |fracPart|)
  }

  lemma ExactIsFloor(intPart: string, fracPart: string)
    requires AllDigits(intPart) && AllDigits(fracPart)
    ensures IsFloor(Exact(intPart, fracPart), 7, Written(intPart, fracPart))
  {
    ExactUnits(intPart, fracPart);
    KeptFloors(intPart, fracPart, 7);
    var t := Kept(fracPart, 7);
    SameFloor(Exact(intPart, fracPart), ToNat(intPart + t) * Pow10(7 - |t|), Written(intPart, fracPart));
  }

  /** The code's arithmetic on an integer part and a fraction. */
  function Combined(whole: nat, part: nat): Option<int> {
    CheckedSum(Checked((if whole <= I128_MAX then whole else 0) * 10000000), part)
  }

  lemma PositiveSplit(intPart: string, fracPart: string)
    requires AllDigits(intPart) && AllDigits(fracPart)
    ensures AtPoint(intPart, fracPart) == Combined(ToNat(intPart), FractionE7(fracPart))
    ensures FractionE7(fracPart) < 10000000
  {
    var whole, part := OrZero(ParseI128(intPart)), OrZero(ParseI128(Padded(Kept(fracPart, 7))));
    assert whole == if ToNat(intPart) <= I128_MAX then ToNat(intPart) else 0 by {
      DigitsParse(intPart);
    }
    assert part == FractionE7(fracPart) < 10000000 by {
      FractionParses(fracPart);
    }
  }

  lemma CombinedIsExactIff(whole: nat, part: nat)
    requires part < 10000000
    ensures Combined(whole, part) == Some(whole * 10000000 + part) <==> whole * 10000000 + part <= I128_MAX
    ensures whole * 10000000 + part > I128_MAX ==> Combined(whole, part) == if whole <= I128_MAX then None else Some(part)
  {
  }

  lemma ExactAtPoint(intPart: string, fracPart: string)
    requires AllDigits(intPart) && AllDigits(fracPart)
    ensures AtPoint(intPart, fracPart) == Some(Exact(intPart, fracPart)) <==> Exact(intPart, fracPart) <= I128_MAX
    ensures Exact(intPart, fracPart) > I128_MAX ==>
      AtPoint(intPart, fracPart) == if ToNat(intPart) <= I128_MAX then None else Some(FractionE7(fracPart))
  {
    PositiveSplit(intPart, fracPart);
    CombinedIsExactIff(ToNat(intPart), FractionE7(fracPart));
  }

  /** What the code returns is the exact value or, when that leaves 128 bits, something else. */
  lemma NumericIsExactIff(intPart: string, fracPart: string)
    requires AllDigits(intPart) && AllDigits(fracPart)
    ensures NumericToE7(intPart + ['.'] + fracPart) == Some(Exact(intPart, fracPart))
            <==> Exact(intPart, fracPart) <= I128_MAX
  {
    ExactAtPoint(intPart, fracPart);
    E7Split(intPart, fracPart);
  }

  lemma {:induction false} FloorIsUnique(u: nat, v: nat, d: nat, x: Decimal)
    requires IsFloor(u, d, x) && IsFloor(v, d, x)
    ensures u == v
  {
    if u < v {
      Monotone(u + 1, v, Pow10(x.places));
    } else if v < u {
      Monotone(v + 1, u, Pow10(x.places));
    }
  }

  ghost predicate ReturnsFloor(result: Option<int>, x: Decimal) {
    result.Some? && result.value >= 0 && IsFloor(result.value, 7, x)
  }

  /**
   * For every string of digits with a point, of any length on either side, the result is the floor of
   * the value times 10^7 exactly when that floor fits an i128.
   */
  lemma NumericIsFloorIff(intPart: string, fracPart: string)
    requires AllDigits(intPart) && AllDigits(fracPart)
    ensures ReturnsFloor(NumericToE7(intPart + ['.'] + fracPart), Written(intPart, fracPart))
            <==> Exact(intPart, fracPart) <= I128_MAX
    ensures IsFloor(Exact(intPart, fracPart), 7, Written(intPart, fracPart))
  {
    ExactIsFloor(intPart, fracPart);
    NumericIsExactIff(intPart, fracPart);
    OnlyFloor(NumericToE7(intPart + ['.'] + fracPart), Exact(intPart, fracPart), Written(intPart, fracPart));
  }

  lemma OnlyFloor(result: Option<int>, u: nat, x: Decimal)
    requires IsFloor(u, 7, x)
    ensures ReturnsFloor(result, x) <==> result == Some(u)
  {
    if ReturnsFloor(result, x) {
      FloorIsUnique(result.value, u, 7, x);
    }
  }

  /** Without a point the conversion is exact under the same condition. */
  lemma IntegerIsExactIff(val: string)
    requires AllDigits(val)
    ensures NumericToE7(val) == Some(ToNat(val) * 10000000) <==> ToNat(val) * 10000000 <= I128_MAX
  {
    DigitsParse(val);
  }

  lemma BelowPower(whole: nat, part: nat, p: nat)
    requires whole < p && part < 10000000
    ensures whole * 10000000 + part < p * 10000000
  {
  }

  lemma ExactIsBounded(intPart: string, fracPart: string)
    requires AllDigits(intPart) && AllDigits(fracPart)
    ensures Exact(intPart, fracPart) < Pow10(|intPart| + 7)
  {
    ToNatBound(intPart);
    FractionParses(fracPart);
    BelowPower(ToNat(intPart), FractionE7(fracPart), Pow10(|intPart|));
    PowAdd(|intPart|, 7);
    Pow7();
  }

  /** At most n integer digits give less than 10^(n + 7), so up to n = 31 the result is always the floor. */
  lemma NumericIsBounded(intPart: string, fracPart: string)
    requires AllDigits(intPart) && AllDigits(fracPart)
    ensures Exact(intPart, fracPart) < Pow10(|intPart| + 7)
    ensures |intPart| <= 31 ==> NumericToE7(intPart + ['.'] + fracPart) == Some(Exact(intPart, fracPart))
  {
    ExactIsBounded(intPart, fracPart);
    NumericIsExactIff(intPart, fracPart);
    if |intPart| <= 31 {
      PowMonotone(|intPart| + 7, 38);
      Pow38();
    }
  }

  /**
   * What happens otherwise: an integer part that fits but whose result does not overflows, and one
   * that does not fit counts as zero, so only the fraction is left.
   */
  lemma NumericOtherwise(intPart: string, fracPart: string)
    requires AllDigits(intPart) && AllDigits(fracPart) && Exact(intPart, fracPart) > I128_MAX
    ensures NumericToE7(intPart + ['.'] + fracPart) ==
            if ToNat(intPart) <= I128_MAX then None else Some(FractionE7(fracPart))
  {
    ExactAtPoint(intPart, fracPart);
    E7Split(intPart, fracPart);
  }

  lemma NegativeParses(val: string, intPart: string)
    requires val == ['-'] + intPart && AllDigits(intPart) && intPart != "" && ToNat(intPart) <= I128_MAX
    ensures OrZero(ParseI128(val)) == -(ToNat(intPart) as int)
  {
    assert val[1..] == intPart;
  }

  /** The code's arithmetic on a negated integer part and a fraction. */
  function NegativeCombined(whole: nat, part: nat): Option<int> {
    CheckedSum(Checked(-(whole as int) * 10000000), part)
  }

  lemma NegativeSplit(val: string, intPart: string, fracPart: string)
    requires val == ['-'] + intPart && AllDigits(intPart) && intPart != "" && AllDigits(fracPart)
    requires ToNat(intPart) <= I128_MAX
    ensures AtPoint(val, fracPart) == NegativeCombined(ToNat(intPart), FractionE7(fracPart))
  {
    var whole, part := OrZero(ParseI128(val)), OrZero(ParseI128(Padded(Kept(fracPart, 7))));
    assert whole == -(ToNat(intPart) as int) by {
      NegativeParses(val, intPart);
    }
    assert part == FractionE7(fracPart) by {
      FractionParses(fracPart);
    }
  }

  lemma NegativeSum(whole: nat, part: nat)
    requires part < 10000000 && whole * 10000000 + part <= I128_MAX
    ensures NegativeCombined(whole, part) == Some(-((whole * 10000000 + part) as int)) <==> part == 0
  {
  }

  lemma NegativeAtPoint(val: string, intPart: string, fracPart: string)
    requires val == ['-'] + intPart && AllDigits(intPart) && intPart != "" && AllDigits(fracPart)
    requires Exact(intPart, fracPart) <= I128_MAX
    ensures AtPoint(val, fracPart) == Some(-(Exact(intPart, fracPart) as int)) <==> FractionE7(fracPart) == 0
  {
    var whole, part := ToNat(intPart), FractionE7(fracPart);
    assert part < 10000000 by {
      FractionParses(fracPart);
    }
    NegativeSum(whole, part);
    NegativeSplit(val, intPart, fracPart);
  }

  lemma NoPoint(val: string, intPart: string)
    requires val == ['-'] + intPart && AllDigits(intPart)
    ensures '.' !in val
  {
  }

  /**
   * Where the conversion is right, the negative of an amount is converted to the negative result
   * exactly when no kept fraction digit is set.
   */
  lemma NegativeIsTruncatedIff(intPart: string, fracPart: string)
    requires AllDigits(intPart) && intPart != "" && AllDigits(fracPart) && Exact(intPart, fracPart) <= I128_MAX
    ensures NumericToE7(['-'] + intPart + ['.'] + fracPart) == Some(-(Exact(intPart, fracPart) as int))
            <==> FractionE7(fracPart) == 0
  {
    var val := ['-'] + intPart;
    NoPoint(val, intPart);
    NegativeAtPoint(val, intPart, fracPart);
    E7Split(val, fracPart);
  }

  lemma PlusParses(val: string, intPart: string)
    requires val == ['+'] + intPart && AllDigits(intPart) && intPart != ""
    ensures ParseI128(val) == ParseI128(intPart) && '.' !in val && '.' !in intPart
  {
    assert val[1..] == intPart;
    assert !(intPart[0] == '+') && !(intPart[0] == '-');
  }

  /** A plus sign changes nothing. */
  lemma PlusIsIgnored(intPart: string, fracPart: string)
    requires AllDigits(intPart) && intPart != ""
    ensures NumericToE7(['+'] + intPart + ['.'] + fracPart) == NumericToE7(intPart + ['.'] + fracPart)
  {
    PlusParses(['+'] + intPart, intPart);
    E7Split(['+'] + intPart, fracPart);
    E7Split(intPart, fracPart);
  }
}
