/** What the quote socket does do: connects, gives up on a silent socket, reconnects, keeps its map. */
module QuoteSocketProgress {
  import opened Options
  import opened QuoteSocket
  import opened QuoteSocketProofs

  // --- Connecting ------------------------------------------------------------------------

  /** A reconnect timer that was not pending before, and that the client holds. */
  predicate NewlyScheduled(c: Client, r: Client, t: nat) {
    t !in c.reconnectTimers && t in r.reconnectTimers && r.reconnectTimeout == Some(t) && r.attempts == c.attempts + 1
  }

  /**
    A closing socket schedules a reconnect exactly when it is the current one, the client wants to
    reconnect and attempts are left.
   */
  lemma CloseSchedulesIff(c: Client, k: nat, cfg: Config)
    requires Valid(c) && Possible(c, SocketCloses(k))
    ensures (exists t :: NewlyScheduled(c, Step(c, SocketCloses(k), cfg), t))
            <==> c.ws == Some(k) && c.shouldReconnect && c.attempts < cfg.maxAttempts
    ensures c.ws == Some(k) ==> Step(c, SocketCloses(k), cfg).state == Disconnected
  {
    if c.ws == Some(k) && c.shouldReconnect && c.attempts < cfg.maxAttempts {
      assert NewlyScheduled(c, Step(c, SocketCloses(k), cfg), c.nextTimer);
    }
  }

  /** A new socket is being opened, watched by a timer of its own. */
  predicate Opens(c: Client, r: Client) {
    && r.state == Connecting && r.shouldReconnect && r.ws == Some(|c.sockets|) && |r.sockets| == |c.sockets| + 1
    && r.sockets[|c.sockets|] == Socket(Opening, [])
    && r.connectionTimeout.Some? && r.connectionTimeout.value in r.connectionTimers
    && r.connectionTimers[r.connectionTimeout.value] == |c.sockets|
    && r.subs == c.subs
  }

  lemma ConnectOpens(c: Client)
    requires Valid(c) && c.state == Disconnected
    ensures Opens(c, Connect(c, true))
    ensures var r := Connect(c, false);
            r.state == Disconnected && r.sockets == c.sockets && r.shouldReconnect && r.connectionTimeout.None?
  {
  }

  /** Opening the current socket connects the client and sends every subscription of the map, in order. */
  lemma OpenConnects(c: Client, k: nat, cfg: Config)
    requires Valid(c) && Possible(c, SocketOpens(k)) && c.ws == Some(k) && c.sockets[k].sent == []
    ensures
      var r := Step(c, SocketOpens(k), cfg);
      && IsConnected(r) && r.ws == Some(k) && r.attempts == 0 && r.subs == c.subs
      && r.sockets[k].sent == Subscribes(c.subs)
  {
    OpenShape(c, k);
  }

  /**
    After the current socket is lost, the scheduled reconnect and the opening of its socket give a
    connected client whose new socket carries every subscription of the map.
   */
  lemma ReconnectRestores(c: Client, k: nat, cfg: Config)
    requires Valid(c) && Possible(c, SocketCloses(k))
    requires c.ws == Some(k) && c.shouldReconnect && c.attempts < cfg.maxAttempts
    ensures
      var lost := Step(c, SocketCloses(k), cfg);
      && lost.reconnectTimeout.Some? && Possible(lost, ReconnectTimer(lost.reconnectTimeout.value, true))
      && var again := Step(lost, ReconnectTimer(lost.reconnectTimeout.value, true), cfg);
      && Possible(again, SocketOpens(|c.sockets|))
      && var r := Step(again, SocketOpens(|c.sockets|), cfg);
      && IsConnected(r) && r.ws == Some(|c.sockets|) && r.attempts == 0 && r.subs == c.subs
      && r.sockets[|c.sockets|].sent == Subscribes(c.subs)
  {
    var lost := Step(c, SocketCloses(k), cfg);
    var fired := lost.(reconnectTimers := lost.reconnectTimers - {lost.reconnectTimeout.value});
    ConnectOpens(fired);
    OpenConnects(Connect(fired, true), |c.sockets|, cfg);
  }

  /** A socket that does not open in time is closed, so that its close event can schedule a reconnect. */
  lemma TimeoutCloses(c: Client, t: nat, cfg: Config)
    requires Valid(c) && Possible(c, ConnectionTimer(t))
    ensures
      var k := c.connectionTimers[t];
      var r := Step(c, ConnectionTimer(t), cfg);
      && t !in r.connectionTimers
      && (r.sockets != c.sockets ==> c.ws == Some(k) && c.sockets[k].ready in {Opening, Closing})
      && (c.ws == Some(k) && c.sockets[k].ready == Opening ==> r.sockets[k].ready == Closing)
  {
  }

  /** Disconnecting closes the socket, drops both held timers and forgets the subscriptions. */
  lemma DisconnectMeans(c: Client)
    requires Valid(c)
    ensures
      var r := Disconnect(c);
      && r.state == Disconnected && r.ws.None? && r.subs == [] && !r.shouldReconnect
      && (c.ws.Some? ==> r.sockets[c.ws.value].ready in {Closing, Closed})
      && (c.reconnectTimeout.Some? ==> c.reconnectTimeout.value !in r.reconnectTimers)
      && (c.connectionTimeout.Some? ==> c.connectionTimeout.value !in r.connectionTimers)
  {
  }

  /** An error or a close of the current socket stops its connection timer. */
  lemma LossStopsTimer(c: Client, k: nat, cfg: Config)
    requires Valid(c) && c.ws == Some(k) && c.connectionTimeout.Some?
    ensures c.connectionTimeout.value !in Step(c, SocketErrs(k), cfg).connectionTimers
    ensures Possible(c, SocketCloses(k)) ==>
      c.connectionTimeout.value !in Step(c, SocketCloses(k), cfg).connectionTimers
  {
  }

  // --- The delays -----------------------------------------------------------------------------

  function Capped(d: real, cap: real): real {
    if d < cap then d else cap
  }

  /** Each delay is the one before it times the multiplier, up to the cap. */
  lemma DelaysMultiply(cfg: Config, n: nat)
    requires n > 0 && cfg.multiplier >= 1.0 && cfg.initialBackoff >= 0.0
    ensures Backoff(cfg, 1) == Capped(cfg.initialBackoff, cfg.maxBackoff)
    ensures Backoff(cfg, n + 1) ==
            if Backoff(cfg, n) < cfg.maxBackoff then Capped(cfg.multiplier * Backoff(cfg, n), cfg.maxBackoff)
            else cfg.maxBackoff
  {
    FirstPower(cfg);
    var d := cfg.initialBackoff * Pow(cfg.multiplier, n - 1);
    NextPower(cfg, n);
    BackoffGrows(cfg, n, n + 1);
    assert Backoff(cfg, n) == Capped(d, cfg.maxBackoff);
  }

  lemma FirstPower(cfg: Config)
    ensures Backoff(cfg, 1) == Capped(cfg.initialBackoff, cfg.maxBackoff)
  {
    assert Pow(cfg.multiplier, 0) == 1.0;
  }

  lemma NextPower(cfg: Config, n: nat)
    requires n > 0
    ensures cfg.initialBackoff * Pow(cfg.multiplier, n) ==
            cfg.multiplier * (cfg.initialBackoff * Pow(cfg.multiplier, n - 1))
  {
    var a, b, p := cfg.initialBackoff, cfg.multiplier, Pow(cfg.multiplier, n - 1);
    Swap(a, b, p);
  }

  lemma Swap(a: real, b: real, p: real)
    ensures a * (b * p) == b * (a * p)
  {
  }

  // --- The subscription map --------------------------------------------------------------------

  /** What the map holds under an id. */
  function Get(subs: seq<Entry>, id: string): Option<Subscription> {
    if Has(subs, id) then Some(subs[Find(subs, id)].sub) else None
  }

  predicate DistinctIds(subs: seq<Entry>) {
    forall i, j :: 0 <= i < j < |subs| ==> subs[i].id != subs[j].id
  }

  lemma FindIs(subs: seq<Entry>, i: nat)
    requires DistinctIds(subs) && i < |subs|
    ensures Find(subs, subs[i].id) == i
  {
  }

  lemma AbsentIs(subs: seq<Entry>, id: string)
    requires forall i :: 0 <= i < |subs| ==> subs[i].id != id
    ensures !Has(subs, id)
  {
  }

  /** Storing under an id changes that id alone, and keeps ids distinct. */
  lemma PutGets(subs: seq<Entry>, id: string, sub: Subscription, other: string)
    requires DistinctIds(subs)
    ensures DistinctIds(Put(subs, id, sub))
    ensures Get(Put(subs, id, sub), other) == if other == id then Some(sub) else Get(subs, other)
  {
    var i, after := Find(subs, id), Put(subs, id, sub);
    if other == id {
      FindIs(after, i);
    } else if Has(subs, other) {
      FindIs(after, Find(subs, other));
    } else {
      AbsentIs(after, other);
    }
  }

  /** Deleting an id removes that id alone. */
  lemma DeleteGets(subs: seq<Entry>, id: string, other: string)
    requires DistinctIds(subs)
    ensures DistinctIds(Delete(subs, id))
    ensures Get(Delete(subs, id), other) == if other == id then None else Get(subs, other)
  {
    var i, after := Find(subs, id), Delete(subs, id);
    if i < |subs| {
      assert forall j :: 0 <= j < |after| ==> after[j] == subs[if j < i then j else j + 1];
      if other == id {
        AbsentIs(after, other);
      } else if Has(subs, other) {
        var k := Find(subs, other);
        FindIs(after, if k < i then k else k - 1);
      } else {
        AbsentIs(after, other);
      }
    }
  }

  lemma StepKeepsDistinct(c: Client, e: Event, cfg: Config)
    requires Valid(c) && Possible(c, e) && DistinctIds(c.subs)
    ensures DistinctIds(Step(c, e, cfg).subs)
  {
    match e
    case CallSubscribe(id, sub) => PutGets(c.subs, id, sub, id);
    case CallUnsubscribe(id) => DeleteGets(c.subs, id, id);
    case CallUnsubscribeAll => UnsubscribeAllEmpties(c);
    case _ =>
  }

  lemma {:induction false} UnsubscribeAllEmpties(c: Client)
    requires Valid(c)
    ensures UnsubscribeAll(c).subs == []
    decreases |c.subs|
  {
    if c.subs != [] {
      assert Find(c.subs, c.subs[0].id) == 0;
      UnsubscribeAllEmpties(UnsubscribeFrom(c, c.subs[0].id));
    }
  }

  lemma {:induction false} RunKeepsDistinct(clients: seq<Client>, events: seq<Event>, cfg: Config, n: nat)
    requires IsRunFrom(NEW_CLIENT, clients, events, cfg) && n <= |events|
    ensures DistinctIds(clients[n].subs)
  {
    if n > 0 {
      RunKeepsDistinct(clients, events, cfg, n - 1);
      StepKeepsDistinct(clients[n - 1], events[n - 1], cfg);
    }
  }

  /** In every run, connected or not, the map answers for each id what was last done with that id. */
  lemma MapFollowsCalls(clients: seq<Client>, events: seq<Event>, cfg: Config, n: nat, other: string)
    requires IsRunFrom(NEW_CLIENT, clients, events, cfg) && n < |events|
    ensures
      var before, after := Get(clients[n].subs, other), Get(clients[n + 1].subs, other);
      match events[n]
      case CallSubscribe(id, sub) => after == if other == id then Some(sub) else before
      case CallUnsubscribe(id) => after == if other == id then None else before
      case CallUnsubscribeAll => after == None
      case CallDisconnect => after == None
      case _ => after == before
  {
    RunKeepsDistinct(clients, events, cfg, n);
    var c := clients[n];
    match events[n]
    case CallSubscribe(id, sub) => PutGets(c.subs, id, sub, other);
    case CallUnsubscribe(id) => DeleteGets(c.subs, id, other);
    case CallUnsubscribeAll => UnsubscribeAllEmpties(c);
    case _ =>
  }
}
