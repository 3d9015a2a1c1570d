/** The client object of `sdk-js/src/websocket.ts`, each method proved against its step. */
module QuoteSocketClient {
  import opened Options
  import opened QuoteSocket
  import Steps = QuoteSocket

  class StellarRouteWebSocket {
    const cfg: Config

    var ws: Option<nat>
    var state: ConnState
    var subscriptions: seq<Entry>
    var reconnectAttempts: nat
    var reconnectTimeout: Option<nat>
    var connectionTimeout: Option<nat>
    var shouldReconnect: bool

    // What the socket factory and the clock hold for this client.
    var sockets: seq<Socket>
    var reconnectTimers: set<nat>
    var connectionTimers: map<nat, nat>
    var nextTimer: nat
    ghost var marks: seq<Mark>

    ghost function Snapshot(): Client
      reads this
    {
      Client(ws, state, subscriptions, reconnectAttempts, reconnectTimeout, connectionTimeout, shouldReconnect,
             sockets, reconnectTimers, connectionTimers, nextTimer, marks)
    }

    ghost predicate Ok()
      reads this
    {
      Valid(Snapshot())
    }

    constructor (cfg: Config)
      ensures Snapshot() == NEW_CLIENT && this.cfg == cfg
    {
      this.cfg := cfg;
      ws, state, subscriptions := None, Disconnected, [];
      reconnectAttempts, reconnectTimeout, connectionTimeout, shouldReconnect := 0, None, None, true;
      sockets, reconnectTimers, connectionTimers, nextTimer := [], {}, map[], 0;
      marks := [];
    }

    method ClearConnectionTimeout()
      requires Ok()
      modifies this
      ensures Snapshot() == Steps.ClearConnectionTimeout(old(Snapshot()))
    {
      if connectionTimeout.Some? {
        connectionTimers := connectionTimers - {connectionTimeout.value};
        connectionTimeout := None;
      }
    }

    method ClearReconnectTimeout()
      requires Ok()
      modifies this
      ensures Snapshot() == Steps.ClearReconnectTimeout(old(Snapshot()))
    {
      if reconnectTimeout.Some? {
        reconnectTimers := reconnectTimers - {reconnectTimeout.value};
        reconnectTimeout := None;
      }
    }

    method SendMessage(m: Message)
      requires Ok()
      modifies this
      ensures Snapshot() == Send(old(Snapshot()), [m])
    {
      if ws.Some? && sockets[ws.value].ready == Open {
        var k := ws.value;
        sockets := sockets[k := sockets[k].(sent := sockets[k].sent + [m])];
      }
    }

    method CloseSocket(k: nat)
      requires Ok() && k < |sockets|
      modifies this
      ensures Snapshot() == Steps.CloseSocket(old(Snapshot()), k)
    {
      if sockets[k].ready != Closed {
        sockets := sockets[k := sockets[k].(ready := Closing)];
      }
    }

    method ScheduleReconnect()
      requires Ok()
      modifies this
      ensures Snapshot() == Steps.ScheduleReconnect(old(Snapshot()), cfg)
    {
      reconnectAttempts := reconnectAttempts + 1;
      marks := marks + [Scheduled(Backoff(cfg, reconnectAttempts))];
      reconnectTimeout := Some(nextTimer);
      reconnectTimers := reconnectTimers + {nextTimer};
      nextTimer := nextTimer + 1;
    }

    /** Sends one subscribe per entry of the map, in insertion order. */
    method ResubscribeAll()
      requires Ok()
      modifies this
      ensures Snapshot() == Send(old(Snapshot()), Subscribes(old(Snapshot()).subs))
    {
      ghost var start := Snapshot();
      var i := 0;
      assert Subscribes(start.subs[..0]) == [];
      SendNothing(start);
      while i < |subscriptions|
        invariant 0 <= i <= |subscriptions|
        invariant subscriptions == start.subs
        invariant Snapshot() == Send(start, Subscribes(start.subs[..i]))
      {
        SendTwice(start, Subscribes(start.subs[..i]), Message.Subscribe(subscriptions[i].sub));
        assert Subscribes(start.subs[..i + 1]) == Subscribes(start.subs[..i]) + [Message.Subscribe(start.subs[i].sub)];
        SendMessage(Message.Subscribe(subscriptions[i].sub));
        i := i + 1;
      }
      assert start.subs[..i] == start.subs;
    }

    method Connect(created: bool)
      requires Ok()
      modifies this
      ensures Snapshot() == Steps.Connect(old(Snapshot()), created)
    {
      if state == Connected || state == Connecting { return; }
      shouldReconnect := true;
      state := Connecting;
      if !created {
        ClearConnectionTimeout();
        state := Disconnected;
        return;
      }
      ws := Some(|sockets|);
      connectionTimers := connectionTimers[nextTimer := |sockets|];
      sockets := sockets + [Socket(Opening, [])];
      connectionTimeout := Some(nextTimer);
      nextTimer := nextTimer + 1;
    }

    method Disconnect()
      requires Ok()
      modifies this
      ensures Snapshot() == Steps.Disconnect(old(Snapshot()))
    {
      shouldReconnect := false;
      ClearReconnectTimeout();
      ClearConnectionTimeout();
      if ws.Some? {
        CloseSocket(ws.value);
        ws := None;
      }
      state := Disconnected;
      subscriptions := [];
    }

    method OnOpen(k: nat)
      requires Ok() && k < |sockets|
      modifies this
      ensures Snapshot() == Steps.OnOpen(old(Snapshot()), k)
    {
      sockets := sockets[k := sockets[k].(ready := Open)];
      if ws != Some(k) { return; }
      ClearConnectionTimeout();
      state := Connected;
      reconnectAttempts := 0;
      marks := marks + [Opened];
      ResubscribeAll();
    }

    method OnClose(k: nat)
      requires Ok() && k < |sockets|
      modifies this
      ensures Snapshot() == Steps.OnClose(old(Snapshot()), k, cfg)
    {
      sockets := sockets[k := sockets[k].(ready := Closed)];
      if ws != Some(k) { return; }
      ClearConnectionTimeout();
      state := Disconnected;
      if shouldReconnect && reconnectAttempts < cfg.maxAttempts {
        ScheduleReconnect();
      }
    }

    method OnError(k: nat)
      requires Ok()
      modifies this
      ensures Snapshot() == Steps.OnError(old(Snapshot()), k)
    {
      if ws == Some(k) { ClearConnectionTimeout(); }
    }

    method OnConnectionTimeout(t: nat)
      requires Ok() && t in connectionTimers
      modifies this
      ensures Snapshot() == Steps.OnConnectionTimeout(old(Snapshot()), t)
    {
      var k := connectionTimers[t];
      connectionTimers := connectionTimers - {t};
      if ws == Some(k) && sockets[k].ready != Open { CloseSocket(k); }
    }

    method OnReconnectTimeout(t: nat, created: bool)
      requires Ok()
      modifies this
      ensures Snapshot() == Steps.OnReconnectTimeout(old(Snapshot()), t, created)
    {
      reconnectTimers := reconnectTimers - {t};
      Connect(created);
    }

    method CheckConnected() returns (yes: bool)
      requires Ok()
      ensures yes == IsConnected(Snapshot())
    {
      yes := state == Connected && ws.Some? && sockets[ws.value].ready == Open;
    }

    method Subscribe(id: string, sub: Subscription)
      requires Ok()
      modifies this
      ensures Snapshot() == SubscribeTo(old(Snapshot()), id, sub)
    {
      subscriptions := Put(subscriptions, id, sub);
      var connected := CheckConnected();
      if connected { SendMessage(Message.Subscribe(sub)); }
    }

    method Unsubscribe(id: string)
      requires Ok()
      modifies this
      ensures Snapshot() == UnsubscribeFrom(old(Snapshot()), id)
    {
      var i := Find(subscriptions, id);
      if i == |subscriptions| { return; }
      var connected := CheckConnected();
      if connected { SendMessage(Message.Unsubscribe(subscriptions[i].sub)); }
      subscriptions := Delete(subscriptions, id);
    }

    method UnsubscribeAll()
      requires Ok()
      modifies this
      ensures Snapshot() == Steps.UnsubscribeAll(old(Snapshot()))
    {
      while subscriptions != []
        invariant Ok()
        invariant Steps.UnsubscribeAll(Snapshot()) == Steps.UnsubscribeAll(old(Snapshot()))
        decreases |subscriptions|
      {
        Unsubscribe(subscriptions[0].id);
      }
    }

    /** A socket stops being open; its close event is still to come. */
    method SocketBreaks(k: nat)
      requires Ok() && k < |sockets|
      modifies this
      ensures Snapshot() == SetReady(old(Snapshot()), k, Closing)
    {
      sockets := sockets[k := sockets[k].(ready := Closing)];
    }

    /** Any event that can happen in the current state. */
    method Handle(e: Event)
      requires Ok() && Possible(Snapshot(), e)
      modifies this
      ensures Snapshot() == Step(old(Snapshot()), e, cfg)
    {
      match e
      case CallConnect(created) => Connect(created);
      case CallDisconnect => Disconnect();
      case CallSubscribe(id, sub) => Subscribe(id, sub);
      case CallUnsubscribe(id) => Unsubscribe(id);
      case CallUnsubscribeAll => UnsubscribeAll();
      case SocketOpens(k) => OnOpen(k);
      case SocketBreaks(k) => SocketBreaks(k);
      case SocketCloses(k) => OnClose(k);
      case SocketErrs(k) => OnError(k);
      case ConnectionTimer(t) => OnConnectionTimeout(t);
      case ReconnectTimer(t, created) => OnReconnectTimeout(t, created);
    }
  }

  lemma SendNothing(c: Client)
    requires Valid(c)
    ensures Send(c, []) == c
  {
    if c.ws.Some? {
      var k := c.ws.value;
      assert c.sockets[k].sent + [] == c.sockets[k].sent;
      assert c.sockets[k := c.sockets[k]] == c.sockets;
    }
  }

  lemma SendTwice(c: Client, first: seq<Message>, m: Message)
    requires Valid(c)
    ensures Send(Send(c, first), [m]) == Send(c, first + [m])
  {
    if c.ws.Some? && c.sockets[c.ws.value].ready == Open {
      var k := c.ws.value;
      assert (c.sockets[k].sent + first) + [m] == c.sockets[k].sent + (first + [m]);
      assert Send(Send(c, first), [m]).sockets == Send(c, first + [m]).sockets;
    }
  }
}
