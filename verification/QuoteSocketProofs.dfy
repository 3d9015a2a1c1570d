/** What every run of the reconnecting quote socket keeps. */
module QuoteSocketProofs {
  import opened Options
  import opened QuoteSocket

  // --- What the server believes is subscribed ---------------------------------------

  function Subscribed(sent: seq<Message>): multiset<Subscription> {
    if sent == [] then multiset{}
    else
      var before := Subscribed(sent[..|sent| - 1]);
      match sent[|sent| - 1]
      case Subscribe(sub) => before + multiset{sub}
      case Unsubscribe(_) => before
  }

  function Unsubscribed(sent: seq<Message>): multiset<Subscription> {
    if sent == [] then multiset{}
    else
      var before := Unsubscribed(sent[..|sent| - 1]);
      match sent[|sent| - 1]
      case Unsubscribe(sub) => before + multiset{sub}
      case Subscribe(_) => before
  }

  /** The subscribes sent on a socket are its unsubscribes plus what the map holds. */
  ghost predicate Matches(sent: seq<Message>, subs: seq<Entry>) {
    Subscribed(sent) == Unsubscribed(sent) + multiset(Values(subs))
  }

  lemma SentOne(sent: seq<Message>, m: Message)
    ensures Subscribed(sent + [m]) == Subscribed(sent) + (if m.Subscribe? then multiset{m.sub} else multiset{})
    ensures Unsubscribed(sent + [m]) == Unsubscribed(sent) + (if m.Unsubscribe? then multiset{m.sub} else multiset{})
  {
    assert (sent + [m])[..|sent|] == sent;
  }

  /** Resubscribing everything on a fresh socket makes it match. */
  lemma {:induction false} Resubscribed(subs: seq<Entry>)
    ensures Matches(Subscribes(subs), subs)
    ensures Unsubscribed(Subscribes(subs)) == multiset{}
  {
    if subs == [] {
      assert Values(subs) == [];
    } else {
      var n := |subs| - 1;
      var rest := subs[..n];
      Resubscribed(rest);
      assert Subscribes(subs) == Subscribes(rest) + [Subscribe(subs[n].sub)];
      SentOne(Subscribes(rest), Subscribe(subs[n].sub));
      assert Values(subs) == Values(rest) + [subs[n].sub];
    }
  }

  lemma PutFresh(subs: seq<Entry>, id: string, sub: Subscription)
    requires !Has(subs, id)
    ensures multiset(Values(Put(subs, id, sub))) == multiset(Values(subs)) + multiset{sub}
  {
    assert Values(Put(subs, id, sub)) == Values(subs) + [sub];
  }

  lemma PutAgain(subs: seq<Entry>, id: string, sub: Subscription)
    requires Has(subs, id)
    ensures multiset(Values(Put(subs, id, sub))) + multiset{subs[Find(subs, id)].sub} == multiset(Values(subs)) + multiset{sub}
  {
    var i := Find(subs, id);
    assert Values(Put(subs, id, sub)) == Values(subs)[i := sub];
  }

  lemma RemoveAt(v: seq<Subscription>, i: nat)
    requires i < |v|
    ensures multiset(v[..i] + v[i + 1..]) + multiset{v[i]} == multiset(v)
  {
    assert v == v[..i] + [v[i]] + v[i + 1..];
  }

  lemma ValuesWithout(subs: seq<Entry>, i: nat)
    requires i < |subs|
    ensures Values(subs[..i] + subs[i + 1..]) == Values(subs)[..i] + Values(subs)[i + 1..]
  {
  }

  lemma DeleteOne(subs: seq<Entry>, id: string)
    requires Has(subs, id)
    ensures multiset(Values(Delete(subs, id))) + multiset{subs[Find(subs, id)].sub} == multiset(Values(subs))
  {
    var i := Find(subs, id);
    ValuesWithout(subs, i);
    RemoveAt(Values(subs), i);
  }

  // --- Subscription agreement -----------------------------------------------------------

  ghost predicate Agreement(c: Client)
    requires Valid(c)
  {
    IsConnected(c) ==> Matches(c.sockets[c.ws.value].sent, c.subs)
  }

  /** A socket that has not opened carried nothing, and a connected client's socket has opened. */
  ghost predicate Agrees(c: Client) {
    && Valid(c)
    && (forall k | 0 <= k < |c.sockets| :: c.sockets[k].ready == Opening ==> c.sockets[k].sent == [])
    && (c.state == Connected ==> c.ws.Some? && c.sockets[c.ws.value].ready != Opening)
    && Agreement(c)
  }

  lemma SubscribeKeeps(c: Client, id: string, sub: Subscription)
    requires Agrees(c) && !Has(c.subs, id)
    ensures Agrees(SubscribeTo(c, id, sub))
  {
    PutFresh(c.subs, id, sub);
    if IsConnected(c) { SentOne(c.sockets[c.ws.value].sent, Subscribe(sub)); }
  }

  lemma UnsubscribeKeeps(c: Client, id: string)
    requires Agrees(c)
    ensures Agrees(UnsubscribeFrom(c, id))
    ensures Has(c.subs, id) ==> |UnsubscribeFrom(c, id).subs| == |c.subs| - 1
  {
    if Has(c.subs, id) {
      DeleteOne(c.subs, id);
      if IsConnected(c) { SentOne(c.sockets[c.ws.value].sent, Unsubscribe(c.subs[Find(c.subs, id)].sub)); }
    }
  }

  lemma {:induction false} UnsubscribeAllKeeps(c: Client)
    requires Agrees(c)
    ensures Agrees(UnsubscribeAll(c)) && UnsubscribeAll(c).subs == []
    decreases |c.subs|
  {
    if c.subs != [] {
      UnsubscribeKeeps(c, c.subs[0].id);
      UnsubscribeAllKeeps(UnsubscribeFrom(c, c.subs[0].id));
    }
  }

  /** What opening the current socket changes: it is connected and carries every subscription. */
  lemma OpenShape(c: Client, k: nat)
    requires Valid(c) && k < |c.sockets| && c.sockets[k].sent == [] && c.ws == Some(k)
    ensures var r := OnOpen(c, k);
            && r.ws == c.ws && r.subs == c.subs && r.state == Connected
            && r.sockets == c.sockets[k := Socket(Open, Subscribes(c.subs))]
  {
    assert [] + Subscribes(c.subs) == Subscribes(c.subs);
  }

  lemma OpenKeeps(c: Client, k: nat)
    requires Agrees(c) && k < |c.sockets| && c.sockets[k].ready == Opening
    ensures Agrees(OnOpen(c, k))
  {
    if c.ws == Some(k) {
      OpenShape(c, k);
      Resubscribed(c.subs);
    }
  }

  lemma ConnectKeeps(c: Client, created: bool)
    requires Agrees(c)
    ensures Agrees(Connect(c, created))
  {
  }

  lemma DisconnectKeeps(c: Client)
    requires Agrees(c)
    ensures Agrees(Disconnect(c))
  {
  }

  /** A socket that breaks or closes leaves nothing to agree on. */
  lemma LossKeeps(c: Client, k: nat, cfg: Config)
    requires Agrees(c) && k < |c.sockets|
    ensures Agrees(SetReady(c, k, Closing)) && Agrees(OnClose(c, k, cfg))
  {
  }

  lemma ReconnectKeeps(c: Client, t: nat, created: bool)
    requires Agrees(c) && t in c.reconnectTimers
    ensures Agrees(OnReconnectTimeout(c, t, created))
  {
  }

  lemma AgreementKept(c: Client, e: Event, cfg: Config)
    requires Agrees(c) && Possible(c, e)
    requires e.CallSubscribe? ==> !Has(c.subs, e.id)
    ensures Agrees(Step(c, e, cfg))
  {
    match e
    case CallSubscribe(id, sub) => SubscribeKeeps(c, id, sub);
    case CallUnsubscribe(id) => UnsubscribeKeeps(c, id);
    case CallUnsubscribeAll => UnsubscribeAllKeeps(c);
    case SocketOpens(k) => OpenKeeps(c, k);
    case SocketErrs(_) | ConnectionTimer(_) =>
    case CallConnect(created) => ConnectKeeps(c, created);
    case CallDisconnect => DisconnectKeeps(c);
    case SocketBreaks(k) => LossKeeps(c, k, cfg);
    case SocketCloses(k) => LossKeeps(c, k, cfg);
    case ReconnectTimer(timer, created) => ReconnectKeeps(c, timer, created);
  }

  ghost predicate FreshIds(clients: seq<Client>, events: seq<Event>) {
    |clients| > |events|
    && forall i :: 0 <= i < |events| && events[i].CallSubscribe? ==> !Has(clients[i].subs, events[i].id)
  }

  /**
    Subscription agreement: when every subscription uses a fresh id, then in every state of
    every run a connected client's socket has carried, net of unsubscribes, exactly the
    subscriptions of the map, however many drops and reconnects came before.
   */
  lemma {:induction false} SubscriptionAgreement(clients: seq<Client>, events: seq<Event>, cfg: Config, n: nat)
    requires IsRunFrom(NEW_CLIENT, clients, events, cfg) && FreshIds(clients, events) && n <= |events|
    ensures Agrees(clients[n])
  {
    if n > 0 {
      SubscriptionAgreement(clients, events, cfg, n - 1);
      AgreementKept(clients[n - 1], events[n - 1], cfg);
    }
  }

  /** Freshness is exactly what is needed: reusing a live id while connected always breaks the agreement. */
  lemma AgreementNeedsFreshId(c: Client, id: string, sub: Subscription)
    requires Agrees(c) && IsConnected(c)
    ensures Agreement(SubscribeTo(c, id, sub)) <==> !Has(c.subs, id)
  {
    if Has(c.subs, id) {
      PutAgain(c.subs, id, sub);
      var sent := c.sockets[c.ws.value].sent;
      SentOne(sent, Subscribe(sub));
      var gone := c.subs[Find(c.subs, id)].sub;
      var put := multiset(Values(Put(c.subs, id, sub)));
      assert Subscribed(sent + [Subscribe(sub)]) == Unsubscribed(sent) + (multiset(Values(c.subs)) + multiset{sub});
      assert (Unsubscribed(sent) + (put + multiset{gone}))[gone] != (Unsubscribed(sent) + put)[gone];
    } else {
      SubscribeKeeps(c, id, sub);
    }
  }

  // --- Reconnect accounting ---------------------------------------------------------------

  /** The delays scheduled since the last open. */
  function SinceOpen(marks: seq<Mark>): seq<real> {
    if marks == [] then []
    else
      match marks[|marks| - 1]
      case Opened => []
      case Scheduled(d) => SinceOpen(marks[..|marks| - 1]) + [d]
  }

  /** The first n backoff delays. */
  function Delays(cfg: Config, n: nat): (d: seq<real>)
    ensures |d| == n
    ensures forall i :: 0 <= i < n ==> d[i] == Backoff(cfg, i + 1)
  {
    if n == 0 then [] else Delays(cfg, n - 1) + [Backoff(cfg, n)]
  }

  predicate Accounted(c: Client, cfg: Config) {
    && SinceOpen(c.marks) == Delays(cfg, c.attempts)
    && (c.attempts > 0 ==> c.attempts <= cfg.maxAttempts)
  }

  lemma MarkOne(marks: seq<Mark>, m: Mark)
    ensures SinceOpen(marks + [m]) == if m.Opened? then [] else SinceOpen(marks) + [m.delay]
  {
    assert (marks + [m])[..|marks|] == marks;
  }

  lemma {:induction false} UnsubscribeAllFrame(c: Client)
    requires Valid(c)
    ensures var r := UnsubscribeAll(c);
            && r.marks == c.marks && r.attempts == c.attempts && r.state == c.state && r.ws == c.ws
            && r.reconnectTimers == c.reconnectTimers && r.reconnectTimeout == c.reconnectTimeout
            && r.connectionTimers == c.connectionTimers && r.connectionTimeout == c.connectionTimeout
            && |r.sockets| == |c.sockets| && r.nextTimer == c.nextTimer
            && forall k | 0 <= k < |c.sockets| :: r.sockets[k].ready == c.sockets[k].ready
    decreases |c.subs|
  {
    if c.subs != [] { UnsubscribeAllFrame(UnsubscribeFrom(c, c.subs[0].id)); }
  }

  lemma OpenAccounts(c: Client, k: nat, cfg: Config)
    requires Valid(c) && k < |c.sockets| && Accounted(c, cfg)
    ensures Accounted(OnOpen(c, k), cfg)
  {
    MarkOne(c.marks, Opened);
  }

  lemma CloseAccounts(c: Client, k: nat, cfg: Config)
    requires Valid(c) && k < |c.sockets| && Accounted(c, cfg)
    ensures Accounted(OnClose(c, k, cfg), cfg)
  {
    MarkOne(c.marks, Scheduled(Backoff(cfg, c.attempts + 1)));
  }

  lemma OthersAccount(c: Client, e: Event, cfg: Config)
    requires Valid(c) && Possible(c, e) && !e.SocketOpens? && !e.SocketCloses?
    ensures Step(c, e, cfg).marks == c.marks && Step(c, e, cfg).attempts == c.attempts
  {
    if e.CallUnsubscribeAll? { UnsubscribeAllFrame(c); }
  }

  lemma AccountingKept(c: Client, e: Event, cfg: Config)
    requires Valid(c) && Possible(c, e) && Accounted(c, cfg)
    ensures Accounted(Step(c, e, cfg), cfg)
  {
    match e
    case SocketOpens(k) => OpenAccounts(c, k, cfg);
    case SocketCloses(k) => CloseAccounts(c, k, cfg);
    case _ => OthersAccount(c, e, cfg);
  }

  lemma {:induction false} PowGrows(b: real, n: nat)
    requires b >= 1.0
    ensures 1.0 <= Pow(b, n) <= Pow(b, n + 1)
  {
    if n > 0 { PowGrows(b, n - 1); }
    assert (b - 1.0) * Pow(b, n) >= 0.0;
  }

  lemma BackoffGrows(cfg: Config, m: nat, n: nat)
    requires cfg.multiplier >= 1.0 && cfg.initialBackoff >= 0.0 && 0 < m <= n
    ensures Backoff(cfg, m) <= Backoff(cfg, n) <= cfg.maxBackoff
    decreases n - m
  {
    if m < n {
      PowGrows(cfg.multiplier, m - 1);
      var lo, hi := Pow(cfg.multiplier, m - 1), Pow(cfg.multiplier, m);
      assert cfg.initialBackoff * lo <= cfg.initialBackoff * hi;
      BackoffGrows(cfg, m + 1, n);
    }
  }

  /**
    Reconnect accounting: in every state of every run, `attempts` counts the reconnects
    scheduled since the last open and never exceeds the limit; their delays follow the backoff,
    so with a multiplier of at least one they never shrink and never pass the cap.
   */
  lemma {:induction false} ReconnectAccounting(clients: seq<Client>, events: seq<Event>, cfg: Config, n: nat)
    requires IsRunFrom(NEW_CLIENT, clients, events, cfg) && n <= |events|
    ensures Accounted(clients[n], cfg)
    ensures
      var delays := SinceOpen(clients[n].marks);
      cfg.multiplier >= 1.0 && cfg.initialBackoff >= 0.0 ==>
        forall i, j :: 0 <= i <= j < |delays| ==> delays[i] <= delays[j] <= cfg.maxBackoff
  {
    if n > 0 {
      ReconnectAccounting(clients, events, cfg, n - 1);
      AccountingKept(clients[n - 1], events[n - 1], cfg);
    }
    var delays := SinceOpen(clients[n].marks);
    if cfg.multiplier >= 1.0 && cfg.initialBackoff >= 0.0 {
      forall i, j | 0 <= i <= j < |delays|
        ensures delays[i] <= delays[j] <= cfg.maxBackoff
      {
        BackoffGrows(cfg, i + 1, j + 1);
      }
    }
  }

  lemma ProductShrinks(a: real, b: real)
    requires a > 0.0 && b < 1.0
    ensures a * b < a
  {
    assert a * (1.0 - b) > 0.0;
  }

  lemma FirstDelays(cfg: Config)
    requires cfg.initialBackoff <= cfg.maxBackoff
    ensures Backoff(cfg, 1) == cfg.initialBackoff
    ensures Backoff(cfg, 2) <= cfg.initialBackoff * cfg.multiplier
  {
    var m := cfg.multiplier;
    assert Pow(m, 1) == m * Pow(m, 0) == m;
  }

  lemma SmallMultiplierShrinks(cfg: Config)
    requires 0.0 < cfg.initialBackoff <= cfg.maxBackoff && cfg.multiplier < 1.0
    ensures Backoff(cfg, 2) < Backoff(cfg, 1)
  {
    FirstDelays(cfg);
    ProductShrinks(cfg.initialBackoff, cfg.multiplier);
  }

  /** A multiplier of at least one is exactly what keeps the delays from shrinking. */
  lemma GrowthNeedsMultiplier(cfg: Config)
    requires 0.0 < cfg.initialBackoff <= cfg.maxBackoff
    ensures (forall n: nat :: n > 0 ==> Backoff(cfg, n) <= Backoff(cfg, n + 1)) <==> cfg.multiplier >= 1.0
  {
    if cfg.multiplier >= 1.0 {
      forall n: nat | n > 0 ensures Backoff(cfg, n) <= Backoff(cfg, n + 1) { BackoffGrows(cfg, n, n + 1); }
    } else {
      SmallMultiplierShrinks(cfg);
      assert Backoff(cfg, 1) > Backoff(cfg, 1 + 1);
    }
  }

  // --- Timers and disconnecting ----------------------------------------------------------

  /** Every pending reconnect timer is the one the client can still cancel. */
  predicate Cancellable(c: Client) {
    forall t | t in c.reconnectTimers :: c.reconnectTimeout == Some(t)
  }

  /** A pending reconnect means the client is down and its socket is done with. */
  predicate Patient(c: Client) {
    && Valid(c)
    && Cancellable(c)
    && (c.reconnectTimers != {} ==>
          c.state == Disconnected && (c.ws.Some? ==> c.sockets[c.ws.value].ready == Closed))
  }

  lemma PatienceKept(c: Client, e: Event, cfg: Config)
    requires Patient(c) && Possible(c, e)
    requires e.CallConnect? ==> c.reconnectTimers == {}
    ensures Patient(Step(c, e, cfg))
  {
    if e.CallUnsubscribeAll? { UnsubscribeAllFrame(c); }
  }

  /** Runs whose caller never connects while a reconnect is pending have at most one such timer. */
  lemma {:induction false} OneReconnectTimer(clients: seq<Client>, events: seq<Event>, cfg: Config, n: nat)
    requires IsRunFrom(NEW_CLIENT, clients, events, cfg) && n <= |events|
    requires forall i :: 0 <= i < |events| && events[i].CallConnect? ==> clients[i].reconnectTimers == {}
    ensures Patient(clients[n]) && |clients[n].reconnectTimers| <= 1
  {
    if n > 0 {
      OneReconnectTimer(clients, events, cfg, n - 1);
      PatienceKept(clients[n - 1], events[n - 1], cfg);
    }
    var c := clients[n];
    if c.reconnectTimers != {} {
      assert c.reconnectTimers == {c.reconnectTimeout.value};
    }
  }

  /** Pending connection timers are cancellable too, and a client that is down has none. */
  ghost predicate Watched(c: Client) {
    && Valid(c)
    && (forall t | t in c.connectionTimers :: c.connectionTimeout == Some(t))
    && (c.state == Disconnected ==> c.connectionTimers == map[])
  }

  lemma WatchKept(c: Client, e: Event, cfg: Config)
    requires Watched(c) && Possible(c, e)
    ensures Watched(Step(c, e, cfg))
  {
    if e.CallUnsubscribeAll? { UnsubscribeAllFrame(c); }
  }

  /** In every run at most one connection timer is pending, and none while the client is down. */
  lemma {:induction false} OneConnectionTimer(clients: seq<Client>, events: seq<Event>, cfg: Config, n: nat)
    requires IsRunFrom(NEW_CLIENT, clients, events, cfg) && n <= |events|
    ensures Watched(clients[n])
  {
    if n > 0 {
      OneConnectionTimer(clients, events, cfg, n - 1);
      WatchKept(clients[n - 1], events[n - 1], cfg);
    }
  }

  ghost predicate Down(c: Client) {
    Valid(c) && c.state == Disconnected && c.ws.None? && c.reconnectTimers == {}
  }

  lemma DownKept(c: Client, e: Event, cfg: Config)
    requires Down(c) && Possible(c, e) && !e.CallConnect?
    ensures Down(Step(c, e, cfg))
  {
    if e.CallUnsubscribeAll? { UnsubscribeAllFrame(c); }
  }

  lemma {:induction false} DownStaysDown(c: Client, clients: seq<Client>, events: seq<Event>, cfg: Config, n: nat)
    requires Down(c) && IsRunFrom(c, clients, events, cfg) && n <= |events|
    requires forall e | e in events :: !e.CallConnect?
    ensures Down(clients[n])
  {
    if n > 0 {
      DownStaysDown(c, clients, events, cfg, n - 1);
      DownKept(clients[n - 1], events[n - 1], cfg);
    }
  }

  /** No run without a further connect() leaves the disconnected state. */
  ghost predicate StaysDown(c: Client, cfg: Config) {
    forall clients: seq<Client>, events: seq<Event> ::
      IsRunFrom(c, clients, events, cfg) && (forall e | e in events :: !e.CallConnect?)
      ==> clients[|events|].state == Disconnected
  }

  /** After disconnect() the client stays down exactly when its pending reconnects were cancellable. */
  lemma DisconnectIsFinalIff(c: Client, cfg: Config)
    requires Valid(c)
    ensures StaysDown(Disconnect(c), cfg) <==> Cancellable(c)
  {
    var d := Disconnect(c);
    if Cancellable(c) {
      forall clients: seq<Client>, events: seq<Event> | IsRunFrom(d, clients, events, cfg) && forall e | e in events :: !e.CallConnect?
        ensures clients[|events|].state == Disconnected
      {
        DownStaysDown(d, clients, events, cfg, |events|);
      }
    } else {
      var t :| t in c.reconnectTimers && c.reconnectTimeout != Some(t);
      var clients, events := [d, Step(d, ReconnectTimer(t, true), cfg)], [ReconnectTimer(t, true)];
      assert IsRunFrom(d, clients, events, cfg);
    }
  }

  /**
    connect() does not clear a pending reconnect. Calling it while one is pending, and losing
    the new socket too, leaves a timer that disconnect() cannot cancel.
   */
  lemma ImpatientConnectLeaks(c: Client, cfg: Config)
    requires Patient(c) && c.reconnectTimers != {} && c.attempts + 1 <= cfg.maxAttempts
    ensures
      var c1 := Connect(c, true);
      var c2 := OnClose(c1, |c.sockets|, cfg);
      !Cancellable(c2) && !StaysDown(Disconnect(c2), cfg)
  {
    var c1 := Connect(c, true);
    var c2 := OnClose(c1, |c.sockets|, cfg);
    var t :| t in c.reconnectTimers;
    assert t in c2.reconnectTimers && c2.reconnectTimeout != Some(t);
    DisconnectIsFinalIff(c2, cfg);
  }
}
