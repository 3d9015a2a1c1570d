/** The quote socket client as an object, driven by any script of calls, socket events and timers. */
module QuoteSocketDriver {
  import opened Options
  import opened QuoteSocket
  import opened QuoteSocketClient
  import Proofs = QuoteSocketProofs

  /** What a careful caller does: subscribe under fresh ids, and not connect while a reconnect is pending. */
  datatype Habits = Habits(freshIds: bool, patient: bool)

  predicate Allowed(c: Client, e: Event, habits: Habits) {
    && Possible(c, e)
    && (habits.freshIds && e.CallSubscribe? ==> !Has(c.subs, e.id))
    && (habits.patient && e.CallConnect? ==> c.reconnectTimers == {})
  }

  /** What becomes of a script: events that are not allowed when they come are skipped. */
  function Taken(c: Client, script: seq<Event>, cfg: Config, habits: Habits): seq<Event>
    requires Valid(c)
    decreases |script|
  {
    if script == [] then []
    else if Allowed(c, script[0], habits) then [script[0]] + Taken(Step(c, script[0], cfg), script[1..], cfg, habits)
    else Taken(c, script[1..], cfg, habits)
  }

  lemma TakenSplits(c: Client, script: seq<Event>, cfg: Config, habits: Habits, i: nat)
    requires Valid(c) && i < |script|
    ensures Taken(c, script[i..], cfg, habits) ==
            if Allowed(c, script[i], habits)
            then [script[i]] + Taken(Step(c, script[i], cfg), script[i + 1..], cfg, habits)
            else Taken(c, script[i + 1..], cfg, habits)
  {
    assert script[i..][1..] == script[i + 1..];
  }

  /** The run kept to the caller's habits. */
  ghost predicate Habitual(clients: seq<Client>, events: seq<Event>, habits: Habits) {
    && |clients| > |events|
    && (habits.freshIds ==> Proofs.FreshIds(clients, events))
    && (habits.patient ==>
          forall i :: 0 <= i < |events| && events[i].CallConnect? ==> clients[i].reconnectTimers == {})
  }

  lemma Grows(clients: seq<Client>, taken: seq<Event>, cfg: Config, habits: Habits, e: Event)
    requires IsRunFrom(NEW_CLIENT, clients, taken, cfg) && Habitual(clients, taken, habits)
    requires Allowed(clients[|taken|], e, habits)
    ensures var clients', taken' := clients + [Step(clients[|taken|], e, cfg)], taken + [e];
            && IsRunFrom(NEW_CLIENT, clients', taken', cfg) && Habitual(clients', taken', habits)
            && clients'[|taken'|] == Step(clients[|taken|], e, cfg)
  {
    RunGrows(NEW_CLIENT, clients, taken, cfg, e);
  }

  /** Whether the event is allowed, decided from the client's fields. */
  method Allows(client: StellarRouteWebSocket, e: Event, habits: Habits) returns (ok: bool)
    ensures ok == Allowed(client.Snapshot(), e, habits)
  {
    var seen := Client(client.ws, client.state, client.subscriptions, client.reconnectAttempts, client.reconnectTimeout,
                       client.connectionTimeout, client.shouldReconnect, client.sockets, client.reconnectTimers,
                       client.connectionTimers, client.nextTimer, []);
    ok := Allowed(seen, e, habits);
  }

  /**
    Drives a new client through a script. Whatever the script, the reconnect counter is right and at most
    one connection timer is pending. With fresh ids a connected socket carries exactly the subscriptions
    of the map; with a patient caller at most one reconnect timer is pending, and disconnecting is final.
   */
  method Drive(cfg: Config, habits: Habits, script: seq<Event>)
    returns (client: StellarRouteWebSocket, ghost clients: seq<Client>, ghost taken: seq<Event>)
    ensures fresh(client) && client.Ok()
    ensures taken == Taken(NEW_CLIENT, script, cfg, habits)
    ensures IsRunFrom(NEW_CLIENT, clients, taken, cfg) && clients[|taken|] == client.Snapshot()
    ensures Proofs.Accounted(client.Snapshot(), cfg) && Proofs.Watched(client.Snapshot())
    ensures habits.freshIds ==> Proofs.Agreement(client.Snapshot())
    ensures habits.patient ==> |client.reconnectTimers| <= 1 && Proofs.StaysDown(Disconnect(client.Snapshot()), cfg)
  {
    client := new StellarRouteWebSocket(cfg);
    clients, taken := [NEW_CLIENT], [];
    for i := 0 to |script|
      invariant fresh(client) && client.cfg == cfg && client.Ok()
      invariant IsRunFrom(NEW_CLIENT, clients, taken, cfg) && clients[|taken|] == client.Snapshot()
      invariant Habitual(clients, taken, habits)
      invariant Taken(NEW_CLIENT, script, cfg, habits) == taken + Taken(client.Snapshot(), script[i..], cfg, habits)
    {
      var e := script[i];
      var ok := Allows(client, e, habits);
      TakenSplits(client.Snapshot(), script, cfg, habits, i);
      if ok {
        Grows(clients, taken, cfg, habits, e);
        clients, taken := clients + [Step(clients[|taken|], e, cfg)], taken + [e];
        client.Handle(e);
      }
    }
    Theorems(clients, taken, cfg, habits);
  }

  lemma Theorems(clients: seq<Client>, taken: seq<Event>, cfg: Config, habits: Habits)
    requires IsRunFrom(NEW_CLIENT, clients, taken, cfg) && Habitual(clients, taken, habits)
    ensures var c := clients[|taken|];
            && Proofs.Accounted(c, cfg) && Proofs.Watched(c)
            && (habits.freshIds ==> Proofs.Agreement(c))
            && (habits.patient ==> |c.reconnectTimers| <= 1 && Proofs.StaysDown(Disconnect(c), cfg))
  {
    Proofs.ReconnectAccounting(clients, taken, cfg, |taken|);
    Proofs.OneConnectionTimer(clients, taken, cfg, |taken|);
    if habits.freshIds {
      Proofs.SubscriptionAgreement(clients, taken, cfg, |taken|);
    }
    if habits.patient {
      Proofs.OneReconnectTimer(clients, taken, cfg, |taken|);
      Proofs.DisconnectIsFinalIff(clients[|taken|], cfg);
    }
  }
}
