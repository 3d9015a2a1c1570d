/** The runs of the burn/mint saga that the results speak about. */
module CctpSagaRuns {
  import opened Options
  import opened CctpSaga

  /** The server prepares the transfer it was asked for. */
  predicate Answered(s: Saga, e: Event) {
    match e
    case BurnPrepReply(Ok(p)) => Captured(s.task).Some? && p.transfer == Captured(s.task).value.transfer
    case MintPrepReply(Some(m), _) =>
      Captured(s.task).Some? && m.transfer == Captured(s.task).value.transfer
    case _ => true
  }

  /** Payloads with equal bytes carry equal approval flags. */
  predicate Flagged(e: Event, approvals: set<string>) {
    e.BurnPrepReply? && e.burnPrep.Ok? ==>
      e.burnPrep.value.approval == (Fingerprint(e.burnPrep.value.payload) in approvals)
  }

  /** No quote is requested while an auto-reconcile is in flight, and none starts during a quote. */
  predicate Apart(s: Saga, e: Event) {
    && (e.Begin? && e.action == DoQuote ==> s.auto.None?)
    && (e.AutoEffect? ==> !s.task.QuoteCall?)
  }

  /** The user only presses the offered button. */
  predicate Driven(s: Saga, e: Event) {
    e.Begin? ==> e.action == PrimaryAction(s)
  }

  datatype Rules = Rules(apart: bool, driven: bool, fair: bool, approvals: set<string>)

  /** Quotes and auto-reconciles stay apart, and flags are consistent. */
  predicate Tied(rules: Rules) {
    rules.apart && rules.fair
  }

  predicate Legal(s: Saga, e: Event, rules: Rules) {
    && Possible(s, e)
    && Answered(s, e)
    && (rules.fair ==> Flagged(e, rules.approvals))
    && (rules.apart ==> Apart(s, e))
    && (rules.driven ==> Driven(s, e))
  }

  /** The states a run passes through, one per event, starting with s. */
  predicate IsRun(states: seq<Saga>, events: seq<Event>, rules: Rules) {
    && |states| == |events| + 1
    && states[0] == Init(states[0].inputs)
    && forall i :: 0 <= i < |events| ==>
         Legal(states[i], events[i], rules) && states[i + 1] == Step(states[i], events[i])
  }

  lemma RunGrows(states: seq<Saga>, events: seq<Event>, rules: Rules, e: Event)
    requires IsRun(states, events, rules) && Legal(states[|events|], e, rules)
    ensures IsRun(states + [Step(states[|events|], e)], events + [e], rules)
  {
    var states', events' := states + [Step(states[|events|], e)], events + [e];
    forall i | 0 <= i < |events'|
      ensures Legal(states'[i], events'[i], rules) && states'[i + 1] == Step(states'[i], events'[i])
    {
      if i < |events| {
        assert states'[i] == states[i] && states'[i + 1] == states[i + 1] && events'[i] == events[i];
      }
    }
  }

  /** What becomes of a script: events that are not legal when they come are skipped. */
  function Taken(s: Saga, script: seq<Event>, rules: Rules): seq<Event>
    decreases |script|
  {
    if script == [] then []
    else if Legal(s, script[0], rules) then [script[0]] + Taken(Step(s, script[0]), script[1..], rules)
    else Taken(s, script[1..], rules)
  }

  function Captured(t: Task): Option<Record> {
    if t.NoTask? || t.QuoteCall? then None else Some(t.rec)
  }

  function AutoRecord(s: Saga): Option<Record> {
    if s.auto.Some? then Some(s.auto.value.rec) else None
  }
}
