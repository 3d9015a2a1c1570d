/** The saga hook as an object, driven by any script of events: the run theorems hold of the object itself. */
module CctpSagaDriver {
  import opened Options
  import opened CctpSaga
  import opened CctpSagaRuns
  import opened CctpSagaHook
  import Coherence = CctpSagaCoherence
  import Pending = CctpSagaPending
  import Provenance = CctpSagaProvenance

  /** Whether the event can come now, decided from the hook's fields. */
  method Allows(hook: UseCctpSaga, e: Event, rules: Rules) returns (ok: bool)
    ensures ok == Legal(hook.Snapshot(), e, rules)
  {
    var seen := Saga(hook.now, hook.inputs, hook.bridgeReady, hook.vault, hook.stage, hook.session, hook.burnPrepareStep,
                     hook.preparedPayload, hook.preparedFingerprint, hook.transferStatus,
                     hook.autoReconciledRevisionRef, hook.task, hook.auto, []);
    LegalIgnoresLog(hook.Snapshot(), e, rules);
    ok := Legal(seen, e, rules);
  }

  lemma LegalIgnoresLog(s: Saga, e: Event, rules: Rules)
    ensures Legal(s.(log := []), e, rules) == Legal(s, e, rules)
  {
  }

  lemma TakenSplits(s: Saga, script: seq<Event>, rules: Rules, i: nat)
    requires i < |script|
    ensures Taken(s, script[i..], rules) ==
            if Legal(s, script[i], rules) then [script[i]] + Taken(Step(s, script[i]), script[i + 1..], rules)
            else Taken(s, script[i + 1..], rules)
  {
    assert script[i..][1..] == script[i + 1..];
  }

  /**
    Drives a new hook through a script. Whatever the script, the hook goes through a run of the
    transition system; so every hash it submits came from an execution in the right role, no recorded
    pending transaction is raced or replaced, and what it offers to sign is backed by a fitting payload.
   */
  method Drive(inputs: string, rules: Rules, script: seq<Event>)
    returns (hook: UseCctpSaga, ghost states: seq<Saga>, ghost taken: seq<Event>)
    ensures fresh(hook)
    ensures taken == Taken(Init(inputs), script, rules)
    ensures IsRun(states, taken, rules) && states[0] == Init(inputs) && states[|taken|] == hook.Snapshot()
    ensures forall i :: 0 <= i < |hook.log| ==> Provenance.Sourced(hook.log, i, Tied(rules))
    ensures Tied(rules) ==> Coherence.Backed(hook.Snapshot())
    ensures rules.driven ==> forall n :: 0 <= n < |taken| ==> Pending.SafeStep(states[n], taken[n], states[n + 1])
  {
    hook := new UseCctpSaga(inputs);
    states, taken := [Init(inputs)], [];
    for i := 0 to |script|
      invariant fresh(hook)
      invariant IsRun(states, taken, rules) && states[0] == Init(inputs) && states[|taken|] == hook.Snapshot()
      invariant Taken(Init(inputs), script, rules) == taken + Taken(hook.Snapshot(), script[i..], rules)
    {
      var e := script[i];
      var ok := Allows(hook, e, rules);
      TakenSplits(hook.Snapshot(), script, rules, i);
      if ok {
        RunGrows(states, taken, rules, e);
        states, taken := states + [Step(states[|taken|], e)], taken + [e];
        hook.Handle(e);
      }
    }
    Theorems(states, taken, rules);
  }

  lemma Theorems(states: seq<Saga>, taken: seq<Event>, rules: Rules)
    requires IsRun(states, taken, rules)
    ensures var end := states[|taken|];
            && (forall i :: 0 <= i < |end.log| ==> Provenance.Sourced(end.log, i, Tied(rules)))
            && (Tied(rules) ==> Coherence.Backed(end))
    ensures rules.driven ==> forall n :: 0 <= n < |taken| ==> Pending.SafeStep(states[n], taken[n], states[n + 1])
  {
    var end := states[|taken|];
    forall i | 0 <= i < |end.log| ensures Provenance.Sourced(end.log, i, Tied(rules)) {
      Provenance.HashProvenance(states, taken, rules, |taken|, i);
    }
    if Tied(rules) {
      Coherence.PayloadCoherence(states, taken, rules, |taken|);
    }
    if rules.driven {
      forall n | 0 <= n < |taken| ensures Pending.SafeStep(states[n], taken[n], states[n + 1]) {
        Pending.PendingSafety(states, taken, rules, n);
      }
    }
  }
}
