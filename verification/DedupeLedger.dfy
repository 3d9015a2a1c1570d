/**
 * The ledger that answers repeated quote requests from a recorded response
 * (crates/api/src/exactlyonce.rs, with `normalize_asset` of crates/routing/src/lib.rs).
 */
module DedupeLedger {
  import opened Options
  import opened Strings
  import opened Decimals

  datatype Identity = Identity(baseAsset: string, quoteAsset: string, amount: string, slippageBps: nat, quoteType: string)

  type Bytes = seq<bv8>

  datatype Entry = Entry(identity: Identity, response: Bytes, createdAt: nat, ttlSecs: nat)

  /** The case mappings of the platform. */
  datatype Casing = Casing(lower: string -> string, upper: string -> string)

  // ---------------------------------------------------------------- canonical keys

  function NormalizeAsset(casing: Casing, asset: string): string {
    var lower := casing.lower(asset);
    if lower == "xlm" || lower == "native" then "native" else casing.upper(lower)
  }

  function CanonicalKey(casing: Casing, id: Identity): string {
    KeyOf(NormalizeAsset(casing, id.baseAsset), NormalizeAsset(casing, id.quoteAsset), id.amount, id.slippageBps,
          id.quoteType)
  }

  function KeyOf(base: string, quote: string, amount: string, slippageBps: nat, quoteType: string): string {
    base + ['/'] + (quote + [':'] + amount + [':'] + Numeral(slippageBps) + [':'] + quoteType)
  }

  /** Equal in lower case, or both a name of the native asset. */
  predicate SpelledAlike(casing: Casing, a: string, b: string) {
    var x, y := casing.lower(a), casing.lower(b);
    x == y || ((x == "xlm" || x == "native") && (y == "xlm" || y == "native"))
  }

  lemma SpellingsOfAsset(casing: Casing, a: string, b: string)
    requires SpelledAlike(casing, a, b)
    ensures NormalizeAsset(casing, a) == NormalizeAsset(casing, b)
  {
  }

  /** Requests that differ in the spelling of their assets only share a key. */
  lemma SpellingsAgree(casing: Casing, a: Identity, b: Identity)
    requires SpelledAlike(casing, a.baseAsset, b.baseAsset) && SpelledAlike(casing, a.quoteAsset, b.quoteAsset)
    requires a.amount == b.amount && a.slippageBps == b.slippageBps && a.quoteType == b.quoteType
    ensures CanonicalKey(casing, a) == CanonicalKey(casing, b)
  {
    SpellingsOfAsset(casing, a.baseAsset, b.baseAsset);
    SpellingsOfAsset(casing, a.quoteAsset, b.quoteAsset);
  }

  /** The same request: trade direction, amount, slippage and type, assets compared in normal form. */
  predicate SameRequest(casing: Casing, a: Identity, b: Identity) {
    && NormalizeAsset(casing, a.baseAsset) == NormalizeAsset(casing, b.baseAsset)
    && NormalizeAsset(casing, a.quoteAsset) == NormalizeAsset(casing, b.quoteAsset)
    && a.amount == b.amount && a.slippageBps == b.slippageBps && a.quoteType == b.quoteType
  }

  /** No separator of the key where the key could not be cut again. The quote asset may hold any. */
  predicate Separable(casing: Casing, id: Identity) {
    '/' !in NormalizeAsset(casing, id.baseAsset) && ':' !in id.amount && ':' !in id.quoteType
  }

  lemma NumeralHasNoColon(n: nat)
    ensures ':' !in Numeral(n)
  {
  }

  lemma NumeralIsInjective(m: nat, n: nat)
    requires Numeral(m) == Numeral(n)
    ensures m == n
  {
    NumeralReads(m);
    NumeralReads(n);
  }

  /** Two requests share a key exactly when they are the same request. */
  lemma KeyIsFaithful(casing: Casing, a: Identity, b: Identity)
    requires Separable(casing, a) && Separable(casing, b)
    ensures CanonicalKey(casing, a) == CanonicalKey(casing, b) <==> SameRequest(casing, a, b)
  {
    if CanonicalKey(casing, a) == CanonicalKey(casing, b) {
      var qa, qb := NormalizeAsset(casing, a.quoteAsset), NormalizeAsset(casing, b.quoteAsset);
      var sa, sb := Numeral(a.slippageBps), Numeral(b.slippageBps);
      NumeralHasNoColon(a.slippageBps);
      NumeralHasNoColon(b.slippageBps);
      CutIsUnique(NormalizeAsset(casing, a.baseAsset), qa + [':'] + a.amount + [':'] + sa + [':'] + a.quoteType,
                  NormalizeAsset(casing, b.baseAsset), qb + [':'] + b.amount + [':'] + sb + [':'] + b.quoteType, '/');
      LastCutIsUnique(qa + [':'] + a.amount + [':'] + sa, a.quoteType, qb + [':'] + b.amount + [':'] + sb, b.quoteType, ':');
      LastCutIsUnique(qa + [':'] + a.amount, sa, qb + [':'] + b.amount, sb, ':');
      LastCutIsUnique(qa, a.amount, qb, b.amount, ':');
      NumeralIsInjective(a.slippageBps, b.slippageBps);
    }
  }

  /** A colon in the amount lets two different requests share a key. */
  lemma ColonsCollide(casing: Casing)
    requires casing.lower("A") == "a" && casing.lower("B") == "b" && casing.lower("B:1") == "b:1"
    requires casing.upper("a") == "A" && casing.upper("b") == "B" && casing.upper("b:1") == "B:1"
    ensures var x := Identity("A", "B", "1:2", 5, "sell");
            var y := Identity("A", "B:1", "2", 5, "sell");
            CanonicalKey(casing, x) == CanonicalKey(casing, y) && !SameRequest(casing, x, y)
            && !Separable(casing, x) && Separable(casing, y)
  {
    assert "B" + [':'] + "1:2" == "B:1" + [':'] + "2";
    assert "1:2"[1] == ':' && "B:1" != "B";
  }

  // ---------------------------------------------------------------- the ledger and its log

  /** The ledger's own test, on a saturating difference of unsigned times. */
  predicate Expired(e: Entry, now: nat) {
    (if now >= e.createdAt then now - e.createdAt else 0) > e.ttlSecs
  }

  /** What the test is for: an entry lives up to and including `createdAt + ttlSecs`. */
  predicate Fresh(e: Entry, now: nat) {
    now <= e.createdAt + e.ttlSecs
  }

  /** What the ledger knows about a key. */
  function Find(entries: map<string, Entry>, key: string, now: nat): Option<Bytes> {
    if key in entries && !Expired(entries[key], now) then Some(entries[key].response) else None
  }

  /** A record as it went into the ledger. */
  datatype Recorded = Recorded(key: string, entry: Entry)

  /** The most recent record of a key in a log that is never cleaned. */
  function Latest(log: seq<Recorded>, key: string): Option<Entry> {
    if log == [] then None
    else if log[|log| - 1].key == key then Some(log[|log| - 1].entry)
    else Latest(log[..|log| - 1], key)
  }

  function FindInLog(log: seq<Recorded>, key: string, now: nat): Option<Bytes> {
    match Latest(log, key)
    case None => None
    case Some(e) => if Fresh(e, now) then Some(e.response) else None
  }

  /** The ledger holds latest records, and every latest record it does not hold has expired. */
  ghost predicate Represents(entries: map<string, Entry>, log: seq<Recorded>, clock: nat) {
    forall key :: Represented(entries, log, clock, key)
  }

  ghost predicate Represented(entries: map<string, Entry>, log: seq<Recorded>, clock: nat, key: string) {
    if key in entries then Latest(log, key) == Some(entries[key])
    else Latest(log, key).Some? ==> !Fresh(Latest(log, key).value, clock)
  }

  /** `e` is the last record of the key. */
  ghost predicate IsLatest(log: seq<Recorded>, key: string, e: Entry) {
    exists i :: 0 <= i < |log| && log[i] == Recorded(key, e) && forall j :: i < j < |log| ==> log[j].key != key
  }

  ghost predicate NeverRecorded(log: seq<Recorded>, key: string) {
    forall i :: 0 <= i < |log| ==> log[i].key != key
  }

  lemma {:induction false} LatestMeans(log: seq<Recorded>, key: string)
    ensures Latest(log, key).None? ==> NeverRecorded(log, key)
    ensures Latest(log, key).Some? ==> IsLatest(log, key, Latest(log, key).value)
    decreases |log|
  {
    if log != [] {
      var n := |log| - 1;
      if log[n].key == key {
        assert log[n] == Recorded(key, log[n].entry);
      } else {
        LatestMeans(log[..n], key);
        if Latest(log[..n], key).Some? {
          var e := Latest(log[..n], key).value;
          var i :| 0 <= i < n && log[..n][i] == Recorded(key, e) && forall j :: i < j < n ==> log[..n][j].key != key;
          assert log[i] == Recorded(key, e) && forall j :: i < j < n ==> log[..n][j] == log[j];
        } else {
          assert forall j :: 0 <= j < n ==> log[..n][j] == log[j];
        }
      }
    }
  }

  lemma LatestIsUnique(log: seq<Recorded>, key: string, e: Entry, f: Entry)
    requires IsLatest(log, key, e) && IsLatest(log, key, f)
    ensures e == f
  {
    var i :| 0 <= i < |log| && log[i] == Recorded(key, e) && forall j :: i < j < |log| ==> log[j].key != key;
    var k :| 0 <= k < |log| && log[k] == Recorded(key, f) && forall j :: k < j < |log| ==> log[j].key != key;
    assert i == k;
  }

  lemma RecordKeeps(entries: map<string, Entry>, log: seq<Recorded>, clock: nat, key: string, e: Entry)
    requires Represents(entries, log, clock)
    ensures Represents(entries[key := e], log + [Recorded(key, e)], clock)
  {
    var after, longer := entries[key := e], log + [Recorded(key, e)];
    assert longer[..|longer| - 1] == log;
    forall k ensures Represented(after, longer, clock, k) {
      assert Represented(entries, log, clock, k);
    }
  }

  lemma TimeKeeps(entries: map<string, Entry>, log: seq<Recorded>, earlier: nat, now: nat)
    requires Represents(entries, log, earlier) && earlier <= now
    ensures Represents(entries, log, now)
  {
    forall k ensures Represented(entries, log, now, k) {
      assert Represented(entries, log, earlier, k);
    }
  }

  /** A clean-up may remove any entries that are no longer fresh. */
  ghost predicate Cleaned(before: map<string, Entry>, after: map<string, Entry>, now: nat) {
    && (forall k :: k in after ==> k in before && after[k] == before[k])
    && (forall k :: k in before && k !in after ==> !Fresh(before[k], now))
  }

  lemma CleanupKeeps(before: map<string, Entry>, after: map<string, Entry>, log: seq<Recorded>, clock: nat, now: nat)
    requires Represents(before, log, clock) && clock <= now && Cleaned(before, after, now)
    ensures Represents(after, log, now)
  {
    forall k ensures Represented(after, log, now, k) {
      assert Represented(before, log, clock, k);
    }
  }

  /** Cleaning up cannot be observed: the ledger answers what the whole log would. */
  lemma LedgerAnswersAsLog(entries: map<string, Entry>, log: seq<Recorded>, clock: nat, key: string, now: nat)
    requires Represents(entries, log, clock) && clock <= now
    ensures Find(entries, key, now) == FindInLog(log, key, now)
  {
    assert Represented(entries, log, clock, key);
  }

  // ---------------------------------------------------------------- whole traces

  /** One operation: a record (stamped whenever), a lookup, or a clean-up that leaves `kept`. */
  datatype Event =
    | Record(recorded: Recorded)
    | Lookup(key: string, now: nat)
    | Cleanup(kept: map<string, Entry>, now: nat)

  function After(entries: map<string, Entry>, e: Event): map<string, Entry> {
    match e
    case Record(r) => entries[r.key := r.entry]
    case Lookup(_, _) => entries
    case Cleanup(kept, _) => kept
  }

  function Replay(events: seq<Event>): map<string, Entry> {
    if events == [] then map[] else After(Replay(events[..|events| - 1]), events[|events| - 1])
  }

  /** What an append-only log keeps of a trace. */
  function LogOf(events: seq<Event>): seq<Recorded> {
    if events == [] then []
    else
      var earlier := LogOf(events[..|events| - 1]);
      match events[|events| - 1]
      case Record(r) => earlier + [r]
      case Lookup(_, _) => earlier
      case Cleanup(_, _) => earlier
  }

  function ClockOf(events: seq<Event>): nat {
    if events == [] then 0
    else
      match events[|events| - 1]
      case Record(_) => ClockOf(events[..|events| - 1])
      case Lookup(_, now) => now
      case Cleanup(_, now) => now
  }

  /** The clock never goes back, and clean-ups remove entries that are no longer fresh. */
  ghost predicate IsTrace(events: seq<Event>) {
    events == [] ||
    (var before := events[..|events| - 1];
     && IsTrace(before)
     && match events[|events| - 1]
        case Record(_) => true
        case Lookup(_, now) => ClockOf(before) <= now
        case Cleanup(kept, now) => ClockOf(before) <= now && Cleaned(Replay(before), kept, now))
  }

  lemma {:induction false} TraceRepresents(events: seq<Event>)
    requires IsTrace(events)
    ensures Represents(Replay(events), LogOf(events), ClockOf(events))
    decreases |events|
  {
    if events == [] {
      forall key ensures Represented(map[], [], 0, key) {
      }
    } else {
      var before := events[..|events| - 1];
      TraceRepresents(before);
      match events[|events| - 1]
      case Record(r) => RecordKeeps(Replay(before), LogOf(before), ClockOf(before), r.key, r.entry);
      case Lookup(_, now) => TimeKeeps(Replay(before), LogOf(before), ClockOf(before), now);
      case Cleanup(kept, now) => CleanupKeeps(Replay(before), kept, LogOf(before), ClockOf(before), now);
    }
  }

  /**
   * After any trace of records, lookups and clean-ups, a lookup returns the latest record of its
   * key if that has not expired, and nothing otherwise.
   */
  lemma {:induction false} LookupRefinesLog(events: seq<Event>, key: string, now: nat)
    requires IsTrace(events) && ClockOf(events) <= now
    ensures Find(Replay(events), key, now) == FindInLog(LogOf(events), key, now)
  {
    TraceRepresents(events);
    LedgerAnswersAsLog(Replay(events), LogOf(events), ClockOf(events), key, now);
  }

  /**
   * After any such trace a lookup answers `e.response` exactly while `e` is the last record of the
   * key and its time has not run out, and nothing when the key was never recorded or its time has.
   */
  lemma {:induction false} LookupMeans(events: seq<Event>, key: string, e: Entry, now: nat)
    requires IsTrace(events) && ClockOf(events) <= now
    ensures IsLatest(LogOf(events), key, e) ==>
              Find(Replay(events), key, now) == if now <= e.createdAt + e.ttlSecs then Some(e.response) else None
    ensures NeverRecorded(LogOf(events), key) ==> Find(Replay(events), key, now) == None
  {
    var log := LogOf(events);
    LookupRefinesLog(events, key, now);
    LatestMeans(log, key);
    if Latest(log, key).Some? && IsLatest(log, key, e) {
      LatestIsUnique(log, key, e, Latest(log, key).value);
    }
  }

  /** Whatever clean-ups ran and whatever the clock reads at the lookup, an answer is the last record, still fresh. */
  lemma {:induction false} AnswersAreCurrent(events: seq<Event>, key: string, now: nat)
    requires IsTrace(events) && Find(Replay(events), key, now).Some?
    ensures exists e :: IsLatest(LogOf(events), key, e) && now <= e.createdAt + e.ttlSecs
              && Find(Replay(events), key, now) == Some(e.response)
  {
    TraceRepresents(events);
    assert Represented(Replay(events), LogOf(events), ClockOf(events), key);
    LatestMeans(LogOf(events), key);
  }

  /** With a clock that goes back, a clean-up is observable: the entry is gone before its time. */
  lemma ClockMustNotGoBack(e: Entry)
    requires e.createdAt == 0 && e.ttlSecs == 5
    ensures var events := [Record(Recorded("k", e)), Cleanup(map[], 6)];
            && IsTrace(events)
            && Find(Replay(events), "k", 3) == None
            && FindInLog(LogOf(events), "k", 3) == Some(e.response)
  {
    var r := Recorded("k", e);
    var first := [Record(r)];
    var events := [Record(r), Cleanup(map[], 6)];
    assert events[..1] == first && first[..0] == [];
    assert Replay(first) == map["k" := e];
    assert LogOf(first) == LogOf(first[..0]) + [r] == [r];
    assert Latest(LogOf(events), "k") == Some(e);
    assert Cleaned(Replay(first), map[], 6);
  }

  // ---------------------------------------------------------------- the ledger itself

  class Ledger {
    var entries: map<string, Entry>
    const casing: Casing

    /** Every record ever made, and the latest time a clean-up has seen. */
    ghost var log: seq<Recorded>
    ghost var clock: nat

    ghost predicate Valid()
      reads this
    {
      Represents(entries, log, clock)
    }

    constructor (casing: Casing)
      ensures Valid() && log == [] && clock == 0 && this.casing == casing
    {
      this.casing := casing;
      entries := map[];
      log := [];
      clock := 0;
      new;
      forall key ensures Represented(entries, log, clock, key) {
      }
    }

    /** The time stamp is read before the lock is taken, so it may be older than the clock. */
    method RecordResponse(identity: Identity, response: Bytes, ttlSecs: nat, stamp: nat)
      requires Valid()
      modifies this
      ensures Valid() && clock == old(clock)
      ensures log == old(log) + [Recorded(CanonicalKey(casing, identity), Entry(identity, response, stamp, ttlSecs))]
    {
      var key := CanonicalKey(casing, identity);
      var entry := Entry(identity, response, stamp, ttlSecs);
      RecordKeeps(entries, log, clock, key, entry);
      entries := entries[key := entry];
      log := log + [Recorded(key, entry)];
    }

    /** Whatever the clock says; if it has not gone back since a clean-up, the answer is the log's. */
    method LookUp(identity: Identity, now: nat) returns (response: Option<Bytes>)
      requires Valid()
      ensures response.Some? ==>
        exists e :: IsLatest(log, CanonicalKey(casing, identity), e) && Fresh(e, now) && response == Some(e.response)
      ensures clock <= now ==> response == FindInLog(log, CanonicalKey(casing, identity), now)
    {
      var key := CanonicalKey(casing, identity);
      response := Find(entries, key, now);
      assert Represented(entries, log, clock, key);
      LatestMeans(log, key);
      if clock <= now {
        LedgerAnswersAsLog(entries, log, clock, key, now);
      }
    }

    /** `retain`, one entry after another, the clock read anew for each. */
    method CleanUp(ticks: nat -> nat)
      requires Valid()
      modifies this
      ensures Valid() && log == old(log) && clock >= old(clock)
      ensures Cleaned(old(entries), entries, clock)
      ensures forall k :: k in entries ==> exists i :: 0 <= i < |old(entries)| && Fresh(entries[k], ticks(i))
    {
      var todo := entries.Keys;
      var i := 0;
      ghost var latest := clock;
      while todo != {}
        invariant i + |todo| == |old(entries)|
        invariant todo <= entries.Keys && todo <= old(entries).Keys
        invariant log == old(log) && clock == old(clock) <= latest
        invariant Cleaned(old(entries), entries, latest)
        invariant forall k :: k in entries && k !in todo ==> exists j :: 0 <= j < i && Fresh(entries[k], ticks(j))
        decreases |todo|
      {
        var key :| key in todo;
        var now := ticks(i);
        if Expired(entries[key], now) {
          entries := entries - {key};
        }
        latest := if now > latest then now else latest;
        todo := todo - {key};
        i := i + 1;
      }
      CleanupKeeps(old(entries), entries, log, clock, latest);
      clock := latest;
    }
  }
}
