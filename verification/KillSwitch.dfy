/**
 * Kill switches: an in-memory state per server, replicated through one Redis cell
 * (crates/api/src/kill_switch.rs, with `ProviderPolicy` of crates/routing/src/cross_chain.rs and the
 * override checks of crates/routing/src/health/policy.rs).
 */
module KillSwitch {
  import opened Options

  datatype VenueType = Sdex | Amm

  datatype Directive = ForceInclude | ForceExclude

  datatype KillState = KillState(
    sources: map<VenueType, Directive>,
    venues: map<string, Directive>,
    providers: map<string, Directive>)

  const DEFAULT_STATE := KillState(map[], map[], map[])

  // ---------------------------------------------------------------- one server

  datatype ProviderPolicy = ProviderPolicy(allowlist: seq<string>, denylist: seq<string>, killSwitches: map<string, bool>)

  datatype OverrideRegistry = OverrideRegistry(venueEntries: map<string, Directive>, sourceEntries: map<VenueType, Directive>)

  predicate IsProviderAllowed(policy: ProviderPolicy, provider: Option<string>) {
    match provider
    case None => true
    case Some(p) =>
      if p in policy.killSwitches && policy.killSwitches[p] then false
      else if policy.allowlist != [] && p !in policy.allowlist then false
      else p !in policy.denylist
  }

  /** A provider is shut out by its kill switch, by the denylist, or by an allowlist without it; an unnamed one never is. */
  lemma ShutOutMeans(policy: ProviderPolicy, provider: Option<string>)
    ensures !IsProviderAllowed(policy, provider) <==>
      && provider.Some?
      && var p := provider.value;
        || (p in policy.killSwitches && policy.killSwitches[p])
        || p in policy.denylist
        || (policy.allowlist != [] && p !in policy.allowlist)
  {
  }

  /** What the overrides decide about a venue before its health is looked at. */
  datatype OverrideVerdict = Excluded | Included | Undecided

  function Directed<K>(entries: map<K, Directive>, key: K): Option<Directive> {
    if key in entries then Some(entries[key]) else None
  }

  /** The source is checked first, then source and venue together. */
  function VerdictOn(registry: OverrideRegistry, venue: string, source: VenueType): OverrideVerdict {
    var bySource := Directed(registry.sourceEntries, source);
    var byVenue := Directed(registry.venueEntries, venue);
    if bySource == Some(ForceExclude) then Excluded
    else if byVenue == Some(ForceInclude) || bySource == Some(ForceInclude) then Included
    else if byVenue == Some(ForceExclude) || bySource == Some(ForceExclude) then Excluded
    else Undecided
  }

  /** A venue is off when its source is, or when the venue itself is and its source is left alone. */
  predicate SwitchedOff(s: KillState, venue: string, source: VenueType) {
    || Directed(s.sources, source) == Some(ForceExclude)
    || (Directed(s.venues, venue) == Some(ForceExclude) && source !in s.sources)
  }

  /** So forcing a source in overrules the kill switches of its venues. */
  lemma VerdictMeans(s: KillState, venue: string, source: VenueType)
    ensures var verdict := VerdictOn(OverrideRegistry(s.venues, s.sources), venue, source);
            && (verdict == Excluded <==> SwitchedOff(s, venue, source))
            && (verdict == Undecided <==> venue !in s.venues && source !in s.sources)
  {
    if source in s.sources {
      match s.sources[source] {
        case ForceInclude =>
        case ForceExclude =>
      }
    }
    if venue in s.venues {
      match s.venues[venue] {
        case ForceInclude =>
        case ForceExclude =>
      }
    }
  }

  /** How a write to Redis can end; an error may come after the write took effect. */
  datatype Persist = Stored | FailedApplied | FailedLost

  /** The one key all servers share. */
  class RedisCell {
    var stored: Option<KillState>

    constructor ()
      ensures stored == None
    {
      stored := None;
    }
  }

  class KillSwitchManager {
    const cache: Option<RedisCell>
    var state: KillState

    constructor (cache: Option<RedisCell>)
      ensures this.cache == cache && state == DEFAULT_STATE
    {
      this.cache := cache;
      state := DEFAULT_STATE;
    }

    /** A hit replaces the whole state; a miss or an unreachable Redis changes nothing. */
    method Load(reachable: bool)
      modifies this
      ensures state == if cache.Some? && reachable && cache.value.stored.Some? then cache.value.stored.value
                       else old(state)
    {
      if cache.Some? && reachable {
        match cache.value.stored
        case Some(loaded) => state := loaded;
        case None =>
      }
    }

    /** Memory first, then Redis; memory keeps the new state even when Redis refuses it. */
    method UpdateState(newState: KillState, reply: Persist) returns (ok: bool)
      modifies this, if cache.Some? then {cache.value} else {}
      ensures state == newState
      ensures ok <==> cache.None? || reply.Stored?
      ensures cache.Some? ==> cache.value.stored == if reply.FailedLost? then old(cache.value.stored) else Some(newState)
    {
      state := newState;
      ok := true;
      if cache.Some? {
        if !reply.FailedLost? {
          cache.value.stored := Some(newState);
        }
        ok := reply.Stored?;
      }
    }

    /** The registry excludes exactly the venues the state switches off. */
    method GetOverrideRegistry() returns (registry: OverrideRegistry)
      ensures forall venue, source :: VerdictOn(registry, venue, source) == Excluded <==> SwitchedOff(state, venue, source)
    {
      registry := OverrideRegistry(state.venues, state.sources);
      forall venue, source
        ensures VerdictOn(registry, venue, source) == Excluded <==> SwitchedOff(state, venue, source)
      {
        VerdictMeans(state, venue, source);
      }
    }

    /** The policy shuts out exactly the providers whose directive is to exclude them. */
    method GetProviderPolicy() returns (policy: ProviderPolicy)
      ensures policy.allowlist == [] && policy.denylist == []
      ensures forall p :: p in policy.killSwitches <==> p in state.providers && state.providers[p] == ForceExclude
      ensures forall p :: IsProviderAllowed(policy, Some(p))
                          <==> !(p in state.providers && state.providers[p] == ForceExclude)
    {
      var killSwitches: map<string, bool> := map[];
      var todo := state.providers.Keys;
      while todo != {}
        invariant todo <= state.providers.Keys
        invariant forall p :: p in killSwitches
                              <==> p in state.providers && p !in todo && state.providers[p] == ForceExclude
        invariant forall p :: p in killSwitches ==> killSwitches[p]
        decreases |todo|
      {
        var provider :| provider in todo;
        if state.providers[provider] == ForceExclude {
          killSwitches := killSwitches[provider := true];
        }
        todo := todo - {provider};
      }
      policy := ProviderPolicy([], [], killSwitches);
    }
  }

  // ---------------------------------------------------------------- many servers

  /** The cache lock of a server: free, or held by a load that has read but not yet applied. */
  datatype Lock = Free | Loading(read: Option<KillState>)

  /** A server: its memory, the updates it still has to write to Redis, and its cache lock. */
  datatype Replica = Replica(memory: KillState, unwritten: seq<KillState>, lock: Lock)

  datatype Cluster = Cluster(redis: Option<KillState>, replicas: seq<Replica>)

  datatype Event =
    | Update(server: nat, state: KillState)
    | Write(server: nat, which: nat, reply: Persist)
    | LoadRead(server: nat, reachable: bool)
    | LoadApply(server: nat)

  predicate Enabled(c: Cluster, e: Event) {
    && e.server < |c.replicas|
    && var r := c.replicas[e.server];
      match e
      case Update(_, _) => true
      case Write(_, which, _) => which < |r.unwritten| && r.lock.Free?
      case LoadRead(_, _) => r.lock.Free?
      case LoadApply(_) => r.lock.Loading?
  }

  function Put(c: Cluster, server: nat, r: Replica): Cluster
    requires server < |c.replicas|
  {
    c.(replicas := c.replicas[server := r])
  }

  function Step(c: Cluster, e: Event): Cluster
    requires Enabled(c, e)
  {
    var r := c.replicas[e.server];
    match e
    case Update(server, s) => Put(c, server, r.(memory := s, unwritten := r.unwritten + [s]))
    case Write(server, which, reply) =>
      var rest := r.unwritten[..which] + r.unwritten[which + 1..];
      var written := Put(c, server, r.(unwritten := rest));
      if reply.FailedLost? then written else written.(redis := Some(r.unwritten[which]))
    case LoadRead(server, reachable) => Put(c, server, r.(lock := Loading(if reachable then c.redis else None)))
    case LoadApply(server) =>
      Put(c, server, r.(memory := if r.lock.read.Some? then r.lock.read.value else r.memory, lock := Free))
  }

  predicate CanRun(c: Cluster, events: seq<Event>)
    decreases |events|
  {
    events == [] || (Enabled(c, events[0]) && CanRun(Step(c, events[0]), events[1..]))
  }

  function Run(c: Cluster, events: seq<Event>): Cluster
    requires CanRun(c, events)
    decreases |events|
  {
    if events == [] then c else Run(Step(c, events[0]), events[1..])
  }

  // ---------------------------------------------------------------- whole states only

  /** The states updates supplied, in any order. */
  function Supplied(events: seq<Event>): set<KillState> {
    if events == [] then {}
    else (if events[0].Update? then {events[0].state} else {}) + Supplied(events[1..])
  }

  ghost predicate WholeReplica(r: Replica, supplied: set<KillState>) {
    && r.memory in supplied + {DEFAULT_STATE}
    && (forall s :: s in r.unwritten ==> s in supplied)
    && (r.lock.Loading? && r.lock.read.Some? ==> r.lock.read.value in supplied)
  }

  /** Every memory is the default or one whole supplied state; Redis is empty or holds one. */
  ghost predicate Whole(c: Cluster, supplied: set<KillState>) {
    && (c.redis.Some? ==> c.redis.value in supplied)
    && (forall i :: 0 <= i < |c.replicas| ==> WholeReplica(c.replicas[i], supplied))
  }

  lemma StepKeepsWhole(c: Cluster, e: Event, supplied: set<KillState>)
    requires Enabled(c, e) && Whole(c, supplied)
    requires e.Update? ==> e.state in supplied
    ensures Whole(Step(c, e), supplied)
  {
    assert WholeReplica(c.replicas[e.server], supplied);
  }

  /** No interleaving ever mixes two states, whatever is lost or fails. */
  lemma {:induction false} WholeStatesOnly(c: Cluster, events: seq<Event>, earlier: set<KillState>)
    requires CanRun(c, events) && Whole(c, earlier)
    ensures Whole(Run(c, events), earlier + Supplied(events))
    decreases |events|
  {
    if events != [] {
      var e := events[0];
      var more := earlier + (if e.Update? then {e.state} else {});
      assert Whole(c, more) by {
        assert forall i :: 0 <= i < |c.replicas| ==> WholeReplica(c.replicas[i], earlier);
      }
      StepKeepsWhole(c, e, more);
      WholeStatesOnly(Step(c, e), events[1..], more);
      assert more + Supplied(events[1..]) == earlier + Supplied(events);
    } else {
      assert earlier + Supplied(events) == earlier;
    }
  }

  // ---------------------------------------------------------------- convergence

  predicate IsLoad(e: Event) {
    e.LoadRead? || e.LoadApply?
  }

  predicate OnlyLoads(events: seq<Event>) {
    forall i :: 0 <= i < |events| ==> IsLoad(events[i])
  }

  /** The server holds what Redis holds, and no load under way will change that. */
  predicate Synced(c: Cluster, server: nat) {
    && server < |c.replicas| && c.redis.Some?
    && c.replicas[server].memory == c.redis.value
    && (c.replicas[server].lock.Loading? && c.replicas[server].lock.read.Some? ==>
          c.replicas[server].lock.read == c.redis)
  }

  /** A load of the current value is under way. */
  predicate Syncing(c: Cluster, server: nat) {
    server < |c.replicas| && c.redis.Some? && c.replicas[server].lock == Loading(c.redis)
  }

  lemma LoadsKeepRedis(c: Cluster, e: Event)
    requires Enabled(c, e) && IsLoad(e)
    ensures Step(c, e).redis == c.redis && |Step(c, e).replicas| == |c.replicas|
  {
  }

  lemma LoadKeepsSynced(c: Cluster, e: Event, server: nat)
    requires Enabled(c, e) && IsLoad(e)
    ensures Synced(c, server) ==> Synced(Step(c, e), server)
    ensures Syncing(c, server) ==> if e == LoadApply(server) then Synced(Step(c, e), server) else Syncing(Step(c, e), server)
    ensures e == LoadRead(server, true) && c.redis.Some? ==> Syncing(Step(c, e), server)
  {
  }

  lemma {:induction false} SyncedStays(c: Cluster, events: seq<Event>, server: nat)
    requires CanRun(c, events) && OnlyLoads(events) && Synced(c, server)
    ensures Synced(Run(c, events), server) && Run(c, events).redis == c.redis
    decreases |events|
  {
    if events != [] {
      LoadsKeepRedis(c, events[0]);
      LoadKeepsSynced(c, events[0], server);
      SyncedStays(Step(c, events[0]), events[1..], server);
    }
  }

  /** A load of the current value that is under way, once applied, leaves its server in step. */
  lemma {:induction false} SyncingEnds(c: Cluster, events: seq<Event>, server: nat, applied: nat)
    requires CanRun(c, events) && OnlyLoads(events) && Syncing(c, server)
    requires applied < |events| && events[applied] == LoadApply(server)
    ensures Synced(Run(c, events), server) && Run(c, events).redis == c.redis
    decreases |events|
  {
    var next := Step(c, events[0]);
    LoadsKeepRedis(c, events[0]);
    LoadKeepsSynced(c, events[0], server);
    if events[0] == LoadApply(server) {
      SyncedStays(next, events[1..], server);
    } else {
      SyncingEnds(next, events[1..], server, applied - 1);
    }
  }

  /** A load that begins and is applied in the run leaves its server in step with Redis. */
  lemma {:induction false} LoadSyncs(c: Cluster, events: seq<Event>, server: nat, began: nat, applied: nat)
    requires CanRun(c, events) && OnlyLoads(events) && c.redis.Some?
    requires began < applied < |events|
    requires events[began] == LoadRead(server, true) && events[applied] == LoadApply(server)
    ensures Synced(Run(c, events), server) && Run(c, events).redis == c.redis
    decreases |events|
  {
    var next := Step(c, events[0]);
    LoadsKeepRedis(c, events[0]);
    LoadKeepsSynced(c, events[0], server);
    if began == 0 {
      SyncingEnds(next, events[1..], server, applied - 1);
    } else {
      LoadSyncs(next, events[1..], server, began - 1, applied - 1);
    }
  }

  /** Every server has one load that begins after `c`, finds a value, and is applied. */
  ghost predicate EveryServerLoads(c: Cluster, events: seq<Event>) {
    forall server: nat :: server < |c.replicas| ==> Loads(events, server)
  }

  ghost predicate Loads(events: seq<Event>, server: nat) {
    exists began: nat, applied: nat :: began < applied < |events|
      && events[began] == LoadRead(server, true) && events[applied] == LoadApply(server)
  }

  lemma {:induction false} ServersStay(c: Cluster, events: seq<Event>)
    requires CanRun(c, events)
    ensures |Run(c, events).replicas| == |c.replicas|
    decreases |events|
  {
    if events != [] {
      ServersStay(Step(c, events[0]), events[1..]);
    }
  }

  /**
   * Once updates have stopped, one finished load per server that began afterwards makes every
   * memory equal to Redis, and whatever is loaded later keeps it so.
   */
  lemma Convergence(c: Cluster, events: seq<Event>, later: seq<Event>)
    requires c.redis.Some? && CanRun(c, events) && OnlyLoads(events) && EveryServerLoads(c, events)
    requires CanRun(Run(c, events), later) && OnlyLoads(later)
    ensures var end := Run(Run(c, events), later);
            && end.redis == c.redis
            && |end.replicas| == |c.replicas|
            && forall i :: 0 <= i < |end.replicas| ==> end.replicas[i].memory == c.redis.value
  {
    var mid := Run(c, events);
    var end := Run(mid, later);
    ServersStay(c, events);
    ServersStay(mid, later);
    RedisStays(c, events);
    RedisStays(mid, later);
    forall i | 0 <= i < |end.replicas| ensures end.replicas[i].memory == c.redis.value {
      assert Loads(events, i);
      var began: nat, applied: nat :| began < applied < |events|
        && events[began] == LoadRead(i, true) && events[applied] == LoadApply(i);
      LoadSyncs(c, events, i, began, applied);
      SyncedStays(mid, later, i);
    }
  }

  lemma {:induction false} RedisStays(c: Cluster, events: seq<Event>)
    requires CanRun(c, events) && OnlyLoads(events)
    ensures Run(c, events).redis == c.redis
    decreases |events|
  {
    if events != [] {
      LoadsKeepRedis(c, events[0]);
      RedisStays(Step(c, events[0]), events[1..]);
    }
  }

  // ---------------------------------------------------------------- overlapping updates

  predicate Reaches(c: Cluster, events: seq<Event>, end: Cluster) {
    CanRun(c, events) && Run(c, events) == end
  }

  lemma Chain(c: Cluster, e: Event, rest: seq<Event>, end: Cluster)
    requires Enabled(c, e) && Reaches(Step(c, e), rest, end)
    ensures Reaches(c, [e] + rest, end)
  {
    assert ([e] + rest)[1..] == rest;
  }

  function Alone(redis: Option<KillState>, memory: KillState, unwritten: seq<KillState>, lock: Lock): Cluster {
    Cluster(redis, [Replica(memory, unwritten, lock)])
  }

  lemma SoleUpdate(redis: Option<KillState>, memory: KillState, unwritten: seq<KillState>, s: KillState, more: seq<KillState>)
    requires more == unwritten + [s]
    ensures var c := Alone(redis, memory, unwritten, Free);
            Enabled(c, Update(0, s)) && Step(c, Update(0, s)) == Alone(redis, s, more, Free)
  {
  }

  lemma SoleWrite(redis: Option<KillState>, memory: KillState, unwritten: seq<KillState>, which: nat, rest: seq<KillState>)
    requires which < |unwritten| && rest == unwritten[..which] + unwritten[which + 1..]
    ensures var c := Alone(redis, memory, unwritten, Free);
            Enabled(c, Write(0, which, Stored))
            && Step(c, Write(0, which, Stored)) == Alone(Some(unwritten[which]), memory, rest, Free)
  {
  }

  /** Uninterrupted, the two steps of a load are what `Load` does. */
  lemma LoadInSteps(redis: Option<KillState>, memory: KillState, reachable: bool)
    ensures Reaches(Alone(redis, memory, [], Free), [LoadRead(0, reachable)] + ([LoadApply(0)] + []),
                    Alone(redis, if reachable && redis.Some? then redis.value else memory, [], Free))
  {
    var read := if reachable then redis else None;
    var end := Alone(redis, if read.Some? then read.value else memory, [], Free);
    Chain(Alone(redis, memory, [], Loading(read)), LoadApply(0), [], end);
    Chain(Alone(redis, memory, [], Free), LoadRead(0, reachable), [LoadApply(0)] + [], end);
  }

  /** Uninterrupted, the two steps of an update are what `UpdateState` does. */
  lemma UpdateInSteps(redis: Option<KillState>, memory: KillState, s: KillState, reply: Persist)
    ensures Reaches(Alone(redis, memory, [], Free), [Update(0, s)] + ([Write(0, 0, reply)] + []),
                    Alone(if reply.FailedLost? then redis else Some(s), s, [], Free))
  {
    var end := Alone(if reply.FailedLost? then redis else Some(s), s, [], Free);
    SoleUpdate(redis, memory, [], s, [s]);
    var updated := Alone(redis, s, [s], Free);
    assert [s][..0] + [s][1..] == [];
    assert Step(updated, Write(0, 0, reply)) == end;
    Chain(updated, Write(0, 0, reply), [], end);
    Chain(Alone(redis, memory, [], Free), Update(0, s), [Write(0, 0, reply)] + [], end);
  }

  /**
   * Two updates that overlap on one server can reach Redis in the other order: both succeed, the
   * server shows the later one, and Redis holds the earlier.
   */
  lemma OverlappingUpdatesReorder(s: KillState, t: KillState)
    ensures Reaches(Alone(None, DEFAULT_STATE, [], Free),
                    [Update(0, s)] + ([Update(0, t)] + ([Write(0, 1, Stored)] + ([Write(0, 0, Stored)] + []))),
                    Alone(Some(s), t, [], Free))
  {
    SoleUpdate(None, DEFAULT_STATE, [], s, [s]);
    SoleUpdate(None, s, [s], t, [s, t]);
    SoleWrite(None, t, [s, t], 1, [s]);
    SoleWrite(Some(t), t, [s], 0, []);
    var end := Alone(Some(s), t, [], Free);
    Chain(Alone(Some(t), t, [s], Free), Write(0, 0, Stored), [], end);
    Chain(Alone(None, t, [s, t], Free), Write(0, 1, Stored), [Write(0, 0, Stored)] + [], end);
    Chain(Alone(None, s, [s], Free), Update(0, t), [Write(0, 1, Stored)] + ([Write(0, 0, Stored)] + []), end);
    Chain(Alone(None, DEFAULT_STATE, [], Free), Update(0, s),
          [Update(0, t)] + ([Write(0, 1, Stored)] + ([Write(0, 0, Stored)] + [])), end);
  }

  function Pair(redis: Option<KillState>, first: Replica, second: Replica): Cluster {
    Cluster(redis, [first, second])
  }

  lemma PairSteps(redis: Option<KillState>, first: Replica, second: Replica, s: KillState)
    ensures var c := Pair(redis, first, second);
            && Step(c, Update(0, s)) == Pair(redis, first.(memory := s, unwritten := first.unwritten + [s]), second)
            && Step(c, Update(1, s)) == Pair(redis, first, second.(memory := s, unwritten := second.unwritten + [s]))
    ensures var c := Pair(redis, first, second);
            && (first.unwritten == [s] && first.lock.Free? ==>
                  Step(c, Write(0, 0, Stored)) == Pair(Some(s), first.(unwritten := []), second))
            && (second.unwritten == [s] && second.lock.Free? ==>
                  Step(c, Write(1, 0, Stored)) == Pair(Some(s), first, second.(unwritten := [])))
  {
    assert [s][..0] + [s][1..] == [];
  }

  /** So can one update on each of two servers: the later one is accepted and then lost everywhere. */
  lemma TwoServersReorder(s: KillState, t: KillState)
    ensures var none := Replica(DEFAULT_STATE, [], Free);
            Reaches(Pair(None, none, none),
                    [Update(0, s)] + ([Update(1, t)] + ([Write(1, 0, Stored)] + ([Write(0, 0, Stored)] + []))),
                    Pair(Some(s), Replica(s, [], Free), Replica(t, [], Free)))
  {
    var none := Replica(DEFAULT_STATE, [], Free);
    var first, second := Replica(s, [s], Free), Replica(t, [t], Free);
    var end := Pair(Some(s), Replica(s, [], Free), Replica(t, [], Free));
    PairSteps(None, none, none, s);
    PairSteps(None, first, none, t);
    PairSteps(None, first, second, t);
    PairSteps(Some(t), first, second.(unwritten := []), s);
    assert none.unwritten + [s] == [s] && none.unwritten + [t] == [t];
    Chain(Pair(Some(t), first, second.(unwritten := [])), Write(0, 0, Stored), [], end);
    Chain(Pair(None, first, second), Write(1, 0, Stored), [Write(0, 0, Stored)] + [], end);
    Chain(Pair(None, first, none), Update(1, t), [Write(1, 0, Stored)] + ([Write(0, 0, Stored)] + []), end);
    Chain(Pair(None, none, none), Update(0, s),
          [Update(1, t)] + ([Write(1, 0, Stored)] + ([Write(0, 0, Stored)] + [])), end);
  }

  /**
   * Without any overlap of updates, a load that read before the update and is applied after it hides
   * the update: the call reports success while the server shows the old state.
   */
  lemma StaleLoadHidesUpdate(was: KillState, s: KillState)
    ensures Reaches(Alone(Some(was), was, [], Free),
                    [LoadRead(0, true)] + ([Update(0, s)] + ([LoadApply(0)] + ([Write(0, 0, Stored)] + []))),
                    Alone(Some(s), was, [], Free))
  {
    var end := Alone(Some(s), was, [], Free);
    SoleWrite(Some(was), was, [s], 0, []);
    assert [] + [s] == [s];
    assert Step(Alone(Some(was), was, [], Loading(Some(was))), Update(0, s)) == Alone(Some(was), s, [s], Loading(Some(was)));
    assert Step(Alone(Some(was), was, [], Free), LoadRead(0, true)) == Alone(Some(was), was, [], Loading(Some(was)));
    Chain(Alone(Some(was), was, [s], Free), Write(0, 0, Stored), [], end);
    Chain(Alone(Some(was), s, [s], Loading(Some(was))), LoadApply(0), [Write(0, 0, Stored)] + [], end);
    Chain(Alone(Some(was), was, [], Loading(Some(was))), Update(0, s), [LoadApply(0)] + ([Write(0, 0, Stored)] + []), end);
    Chain(Alone(Some(was), was, [], Free), LoadRead(0, true),
          [Update(0, s)] + ([LoadApply(0)] + ([Write(0, 0, Stored)] + [])), end);
  }

  // ---------------------------------------------------------------- when an accepted update stays

  function Loaded(c: Cluster, server: nat): Cluster
    requires Enabled(c, LoadRead(server, true))
  {
    Step(Step(c, LoadRead(server, true)), LoadApply(server))
  }

  /**
   * Whatever the other servers do, a write that was accepted survives the server's next load exactly
   * when what was written is still what the server holds.
   */
  lemma AcceptedUpdateStaysIff(c: Cluster, server: nat, which: nat)
    requires Enabled(c, Write(server, which, Stored))
    ensures var written := Step(c, Write(server, which, Stored));
            && Enabled(written, LoadRead(server, true))
            && (Loaded(written, server).replicas[server].memory == c.replicas[server].memory
                <==> c.replicas[server].unwritten[which] == c.replicas[server].memory)
  {
  }

  predicate Settled(c: Cluster) {
    forall i :: 0 <= i < |c.replicas| ==> c.replicas[i].unwritten == []
  }

  /** Updates begin only while no server still has one to write. */
  predicate OneAtATime(c: Cluster, events: seq<Event>)
    requires CanRun(c, events)
    decreases |events|
  {
    events == [] || ((events[0].Update? ==> Settled(c)) && OneAtATime(Step(c, events[0]), events[1..]))
  }

  /** What Redis should hold: the latest supplied state whose write took effect. */
  function LatestWritten(redis: Option<KillState>, supplied: Option<KillState>, events: seq<Event>): Option<KillState>
    decreases |events|
  {
    if events == [] then redis
    else
      match events[0]
      case Update(_, s) => LatestWritten(redis, Some(s), events[1..])
      case Write(_, _, reply) =>
        LatestWritten(if reply.FailedLost? then redis else supplied, supplied, events[1..])
      case _ => LatestWritten(redis, supplied, events[1..])
  }

  /** Whatever is still to be written is the state supplied last. */
  predicate OnlyLatest(c: Cluster, supplied: Option<KillState>) {
    forall i, k :: 0 <= i < |c.replicas| && 0 <= k < |c.replicas[i].unwritten| ==>
      supplied == Some(c.replicas[i].unwritten[k])
  }

  lemma StepKeepsLatest(c: Cluster, e: Event, supplied: Option<KillState>)
    requires Enabled(c, e) && OnlyLatest(c, supplied) && (e.Update? ==> Settled(c))
    ensures OnlyLatest(Step(c, e), if e.Update? then Some(e.state) else supplied)
    ensures Step(c, e).redis == if e.Write? && !e.reply.FailedLost? then supplied else c.redis
  {
    if e.Write? {
      var was := c.replicas[e.server].unwritten;
      var now := Step(c, e).replicas[e.server].unwritten;
      assert forall k :: 0 <= k < |now| ==> now[k] == was[if k < e.which then k else k + 1];
    }
  }

  /**
   * In every run whose updates do not overlap, whatever is loaded, lost or fails, Redis holds the
   * latest supplied state whose write took effect.
   */
  lemma {:induction false} SerialUpdatesStick(c: Cluster, events: seq<Event>, supplied: Option<KillState>)
    requires CanRun(c, events) && OneAtATime(c, events) && OnlyLatest(c, supplied)
    ensures Run(c, events).redis == LatestWritten(c.redis, supplied, events)
    decreases |events|
  {
    if events != [] {
      var e := events[0];
      StepKeepsLatest(c, e, supplied);
      SerialUpdatesStick(Step(c, e), events[1..], if e.Update? then Some(e.state) else supplied);
    }
  }

  /** After such a run, one finished load per server brings every memory to that state. */
  lemma SerialUpdatesConverge(c: Cluster, events: seq<Event>, loads: seq<Event>)
    requires Settled(c) && CanRun(c, events) && OneAtATime(c, events) && Run(c, events).redis.Some?
    requires var mid := Run(c, events);
             CanRun(mid, loads) && OnlyLoads(loads) && EveryServerLoads(mid, loads)
    ensures var end := Run(Run(c, events), loads);
            forall i :: 0 <= i < |end.replicas| ==> Some(end.replicas[i].memory) == LatestWritten(c.redis, None, events)
  {
    SerialUpdatesStick(c, events, None);
    Convergence(Run(c, events), loads, []);
  }

  // ---------------------------------------------------------------- when Redis refuses every write

  predicate WritesRefused(events: seq<Event>) {
    forall i :: 0 <= i < |events| && events[i].Write? ==> events[i].reply == FailedLost
  }

  predicate UpdatesElsewhere(events: seq<Event>, server: nat) {
    forall i :: 0 <= i < |events| && events[i].Update? ==> events[i].server != server
  }

  /** No load under way can change what the server holds. */
  predicate Undisturbed(c: Cluster, server: nat) {
    server < |c.replicas| && (c.replicas[server].lock.Loading? ==> c.replicas[server].lock.read.None?)
  }

  /**
   * If every write is refused and Redis is empty, no update ever leaves its server: the memory of any
   * other server stays what it was.
   */
  lemma {:induction false} RefusedUpdatesStayLocal(c: Cluster, events: seq<Event>, server: nat)
    requires CanRun(c, events) && WritesRefused(events) && UpdatesElsewhere(events, server)
    requires c.redis.None? && Undisturbed(c, server)
    ensures Run(c, events).redis.None? && Undisturbed(Run(c, events), server)
    ensures Run(c, events).replicas[server].memory == c.replicas[server].memory
    decreases |events|
  {
    if events != [] {
      var e := events[0];
      var next := Step(c, e);
      assert e.Write? ==> e.reply == FailedLost;
      assert next.redis.None? && Undisturbed(next, server);
      assert next.replicas[server].memory == c.replicas[server].memory;
      RefusedUpdatesStayLocal(next, events[1..], server);
    }
  }
}
