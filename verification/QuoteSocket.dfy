/**
  The reconnecting quote socket of `sdk-js/src/websocket.ts`.

  The client's fields are modelled together with what its environment holds for it: the
  sockets it created (their ready state and what was sent on them) and the timers pending
  on its clock. A socket opens at most once and closes at most once, when it likes; it may
  stop being open before its close event arrives. Listeners do not call back.
 */
module QuoteSocket {
  import opened Options

  datatype ConnState = Connecting | Connected | Disconnected
  datatype Kind = QuoteFeed | OrderbookFeed
  datatype Subscription = Subscription(kind: Kind, base: string, quote: string)
  datatype Message = Subscribe(sub: Subscription) | Unsubscribe(sub: Subscription)

  /** The socket's readyState, 0 to 3, and the messages sent on it. */
  datatype ReadyState = Opening | Open | Closing | Closed
  datatype Socket = Socket(ready: ReadyState, sent: seq<Message>)

  /** One entry of the subscription map; the map is kept in insertion order. */
  datatype Entry = Entry(id: string, sub: Subscription)

  datatype Config = Config(maxAttempts: int, initialBackoff: real, maxBackoff: real, multiplier: real)

  datatype Mark = Opened | Scheduled(delay: real)

  datatype Client = Client(
    ws: Option<nat>,                  // index of the current socket
    state: ConnState,
    subs: seq<Entry>,
    attempts: nat,
    reconnectTimeout: Option<nat>,    // timer handles
    connectionTimeout: Option<nat>,
    shouldReconnect: bool,
    sockets: seq<Socket>,             // the environment
    reconnectTimers: set<nat>,
    connectionTimers: map<nat, nat>,  // pending connection timers and the socket they watch
    nextTimer: nat,
    marks: seq<Mark>)                 // every open and every scheduled reconnect so far

  /** References point at sockets that exist. */
  predicate Valid(c: Client) {
    && (c.ws.Some? ==> c.ws.value < |c.sockets|)
    && (forall t | t in c.connectionTimers :: c.connectionTimers[t] < |c.sockets|)
    && (forall t | t in c.connectionTimers :: t < c.nextTimer)
    && (forall t | t in c.reconnectTimers :: t < c.nextTimer)
  }

  const NEW_CLIENT: Client := Client(None, Disconnected, [], 0, None, None, true, [], {}, map[], 0, [])

  // --- The subscription map -----------------------------------------------------

  /** The position of an id, or the length when it is absent. */
  function Find(subs: seq<Entry>, id: string): (i: nat)
    ensures i <= |subs|
    ensures i < |subs| ==> subs[i].id == id
    ensures forall j :: 0 <= j < i ==> subs[j].id != id
  {
    if subs == [] || subs[0].id == id then 0 else 1 + Find(subs[1..], id)
  }

  predicate Has(subs: seq<Entry>, id: string) { Find(subs, id) < |subs| }

  function Put(subs: seq<Entry>, id: string, sub: Subscription): seq<Entry> {
    var i := Find(subs, id);
    if i < |subs| then subs[i := Entry(id, sub)] else subs + [Entry(id, sub)]
  }

  function Delete(subs: seq<Entry>, id: string): seq<Entry> {
    var i := Find(subs, id);
    if i < |subs| then subs[..i] + subs[i + 1..] else subs
  }

  function Values(subs: seq<Entry>): seq<Subscription> {
    seq(|subs|, i requires 0 <= i < |subs| => subs[i].sub)
  }

  // --- Private methods -------------------------------------------------------------

  predicate IsConnected(c: Client)
    requires Valid(c)
  {
    c.state == Connected && c.ws.Some? && c.sockets[c.ws.value].ready == Open
  }

  function Send(c: Client, m: seq<Message>): (r: Client)
    requires Valid(c)
    ensures Valid(r)
  {
    if c.ws.Some? && c.sockets[c.ws.value].ready == Open then
      var k := c.ws.value;
      c.(sockets := c.sockets[k := c.sockets[k].(sent := c.sockets[k].sent + m)])
    else c
  }

  function SetReady(c: Client, k: nat, ready: ReadyState): (r: Client)
    requires Valid(c) && k < |c.sockets|
    ensures Valid(r)
  {
    c.(sockets := c.sockets[k := c.sockets[k].(ready := ready)])
  }

  /** `socket.close()`: the close event follows later. */
  function CloseSocket(c: Client, k: nat): (r: Client)
    requires Valid(c) && k < |c.sockets|
    ensures Valid(r)
  {
    if c.sockets[k].ready == Closed then c else SetReady(c, k, Closing)
  }

  function ClearConnectionTimeout(c: Client): (r: Client)
    requires Valid(c)
    ensures Valid(r)
  {
    if c.connectionTimeout.None? then c
    else c.(connectionTimers := c.connectionTimers - {c.connectionTimeout.value}, connectionTimeout := None)
  }

  function ClearReconnectTimeout(c: Client): (r: Client)
    requires Valid(c)
    ensures Valid(r)
  {
    if c.reconnectTimeout.None? then c
    else c.(reconnectTimers := c.reconnectTimers - {c.reconnectTimeout.value}, reconnectTimeout := None)
  }

  function Pow(b: real, n: nat): real {
    if n == 0 then 1.0 else b * Pow(b, n - 1)
  }

  /** The delay before the n-th reconnect in a row. */
  function Backoff(cfg: Config, n: nat): real
    requires n > 0
  {
    var d := cfg.initialBackoff * Pow(cfg.multiplier, n - 1);
    if d < cfg.maxBackoff then d else cfg.maxBackoff
  }

  function ScheduleReconnect(c: Client, cfg: Config): (r: Client)
    requires Valid(c)
    ensures Valid(r)
  {
    c.(attempts := c.attempts + 1,
       reconnectTimeout := Some(c.nextTimer),
       reconnectTimers := c.reconnectTimers + {c.nextTimer},
       nextTimer := c.nextTimer + 1,
       marks := c.marks + [Scheduled(Backoff(cfg, c.attempts + 1))])
  }

  function Subscribes(subs: seq<Entry>): seq<Message> {
    seq(|subs|, i requires 0 <= i < |subs| => Subscribe(subs[i].sub))
  }

  // --- Public methods and callbacks ---------------------------------------------------

  /** `created` is false when the socket factory throws. */
  function Connect(c: Client, created: bool): (r: Client)
    requires Valid(c)
    ensures Valid(r)
  {
    if c.state == Connected || c.state == Connecting then c
    else if !created then ClearConnectionTimeout(c.(shouldReconnect := true, state := Disconnected))
    else
      c.(shouldReconnect := true, state := Connecting,
         ws := Some(|c.sockets|), sockets := c.sockets + [Socket(Opening, [])],
         connectionTimeout := Some(c.nextTimer),
         connectionTimers := c.connectionTimers[c.nextTimer := |c.sockets|],
         nextTimer := c.nextTimer + 1)
  }

  function Disconnect(c: Client): (r: Client)
    requires Valid(c)
    ensures Valid(r)
  {
    var c1 := ClearConnectionTimeout(ClearReconnectTimeout(c.(shouldReconnect := false)));
    var c2 := if c1.ws.Some? then CloseSocket(c1, c1.ws.value).(ws := None) else c1;
    c2.(state := Disconnected, subs := [])
  }

  function OnOpen(c: Client, k: nat): (r: Client)
    requires Valid(c) && k < |c.sockets|
    ensures Valid(r)
  {
    var c1 := SetReady(c, k, Open);
    if c.ws != Some(k) then c1
    else
      var c2 := ClearConnectionTimeout(c1).(state := Connected, attempts := 0, marks := c.marks + [Opened]);
      Send(c2, Subscribes(c2.subs))
  }

  function OnClose(c: Client, k: nat, cfg: Config): (r: Client)
    requires Valid(c) && k < |c.sockets|
    ensures Valid(r)
  {
    var c1 := SetReady(c, k, Closed);
    if c.ws != Some(k) then c1
    else
      var c2 := ClearConnectionTimeout(c1).(state := Disconnected);
      if c.shouldReconnect && c.attempts < cfg.maxAttempts then ScheduleReconnect(c2, cfg) else c2
  }

  function OnError(c: Client, k: nat): (r: Client)
    requires Valid(c)
    ensures Valid(r)
  {
    if c.ws != Some(k) then c else ClearConnectionTimeout(c)
  }

  function OnConnectionTimeout(c: Client, t: nat): (r: Client)
    requires Valid(c) && t in c.connectionTimers
    ensures Valid(r)
  {
    var k := c.connectionTimers[t];
    var c1 := c.(connectionTimers := c.connectionTimers - {t});
    if c.ws == Some(k) && c.sockets[k].ready != Open then CloseSocket(c1, k) else c1
  }

  function OnReconnectTimeout(c: Client, t: nat, created: bool): (r: Client)
    requires Valid(c)
    ensures Valid(r)
  {
    Connect(c.(reconnectTimers := c.reconnectTimers - {t}), created)
  }

  function SubscribeTo(c: Client, id: string, sub: Subscription): (r: Client)
    requires Valid(c)
    ensures Valid(r)
  {
    var c1 := c.(subs := Put(c.subs, id, sub));
    if IsConnected(c1) then Send(c1, [Subscribe(sub)]) else c1
  }

  function UnsubscribeFrom(c: Client, id: string): (r: Client)
    requires Valid(c)
    ensures Valid(r)
  {
    var i := Find(c.subs, id);
    if i == |c.subs| then c
    else
      var c1 := if IsConnected(c) then Send(c, [Unsubscribe(c.subs[i].sub)]) else c;
      c1.(subs := Delete(c.subs, id))
  }

  function UnsubscribeAll(c: Client): (r: Client)
    requires Valid(c)
    ensures Valid(r)
    decreases |c.subs|
  {
    if c.subs == [] then c else UnsubscribeAll(UnsubscribeFrom(c, c.subs[0].id))
  }

  // --- Runs ----------------------------------------------------------------------------

  datatype Event =
    | CallConnect(created: bool)
    | CallDisconnect
    | CallSubscribe(id: string, sub: Subscription)
    | CallUnsubscribe(id: string)
    | CallUnsubscribeAll
    | SocketOpens(k: nat)
    | SocketBreaks(k: nat)           // no longer open, close event still to come
    | SocketCloses(k: nat)
    | SocketErrs(k: nat)
    | ConnectionTimer(t: nat)
    | ReconnectTimer(t: nat, created: bool)

  predicate Possible(c: Client, e: Event) {
    match e
    case SocketOpens(k) => k < |c.sockets| && c.sockets[k].ready == Opening
    case SocketBreaks(k) => k < |c.sockets| && c.sockets[k].ready != Closed
    case SocketCloses(k) => k < |c.sockets| && c.sockets[k].ready != Closed
    case ConnectionTimer(t) => t in c.connectionTimers
    case ReconnectTimer(t, _) => t in c.reconnectTimers
    case _ => true
  }

  function Step(c: Client, e: Event, cfg: Config): (r: Client)
    requires Valid(c) && Possible(c, e)
    ensures Valid(r)
  {
    match e
    case CallConnect(created) => Connect(c, created)
    case CallDisconnect => Disconnect(c)
    case CallSubscribe(id, sub) => SubscribeTo(c, id, sub)
    case CallUnsubscribe(id) => UnsubscribeFrom(c, id)
    case CallUnsubscribeAll => UnsubscribeAll(c)
    case SocketOpens(k) => OnOpen(c, k)
    case SocketBreaks(k) => SetReady(c, k, Closing)
    case SocketCloses(k) => OnClose(c, k, cfg)
    case SocketErrs(k) => OnError(c, k)
    case ConnectionTimer(t) => OnConnectionTimeout(c, t)
    case ReconnectTimer(t, created) => OnReconnectTimeout(c, t, created)
  }

  /** The clients a run passes through, from c on. */
  predicate IsRunFrom(c: Client, clients: seq<Client>, events: seq<Event>, cfg: Config) {
    && |clients| == |events| + 1
    && clients[0] == c
    && (forall i :: 0 <= i <= |events| ==> Valid(clients[i]))
    && forall i :: 0 <= i < |events| ==>
         Possible(clients[i], events[i]) && clients[i + 1] == Step(clients[i], events[i], cfg)
  }

  lemma RunGrows(c: Client, clients: seq<Client>, events: seq<Event>, cfg: Config, e: Event)
    requires IsRunFrom(c, clients, events, cfg) && Possible(clients[|events|], e)
    ensures IsRunFrom(c, clients + [Step(clients[|events|], e, cfg)], events + [e], cfg)
  {
    var clients', events' := clients + [Step(clients[|events|], e, cfg)], events + [e];
    forall i | 0 <= i < |events'|
      ensures Possible(clients'[i], events'[i]) && clients'[i + 1] == Step(clients'[i], events'[i], cfg)
    {
      if i < |events| {
        assert clients'[i] == clients[i] && clients'[i + 1] == clients[i + 1] && events'[i] == events[i];
      }
    }
  }
}
