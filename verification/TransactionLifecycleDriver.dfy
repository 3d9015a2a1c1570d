/** The lifecycle hook as an object, driven by any script of events. */
module TransactionLifecycleDriver {
  import opened Options
  import opened TransactionLifecycle
  import opened TransactionLifecycleHook
  import Proofs = TransactionLifecycleProofs
  import Progress = TransactionLifecycleProgress

  /** The event can come now; `apart` asks that nothing starts while a run is in flight. */
  predicate Allowed(l: Life, e: Event, apart: bool) {
    Possible(l, e) && (apart && Starts(l, e) ==> l.runs == map[])
  }

  /** What becomes of a script: events that are not allowed when they come are skipped. */
  function Taken(l: Life, script: seq<Event>, cfg: Config, apart: bool): seq<Event>
    decreases |script|
  {
    if script == [] then []
    else if Allowed(l, script[0], apart) then [script[0]] + Taken(Step(l, script[0], cfg), script[1..], cfg, apart)
    else Taken(l, script[1..], cfg, apart)
  }

  lemma TakenSplits(l: Life, script: seq<Event>, cfg: Config, apart: bool, i: nat)
    requires i < |script|
    ensures Taken(l, script[i..], cfg, apart) ==
            if Allowed(l, script[i], apart)
            then [script[i]] + Taken(Step(l, script[i], cfg), script[i + 1..], cfg, apart)
            else Taken(l, script[i + 1..], cfg, apart)
  {
    assert script[i..][1..] == script[i + 1..];
  }

  lemma Grows(lives: seq<Life>, taken: seq<Event>, cfg: Config, apart: bool, e: Event)
    requires IsRun(lives, taken, cfg) && (apart ==> Apart(lives, taken)) && Allowed(lives[|taken|], e, apart)
    ensures var lives', taken' := lives + [Step(lives[|taken|], e, cfg)], taken + [e];
            && IsRun(lives', taken', cfg) && (apart ==> Apart(lives', taken'))
            && lives'[|taken'|] == Step(lives[|taken|], e, cfg)
  {
    RunGrows(lives, taken, cfg, e);
  }

  /** Whether the event is allowed, decided from the hook's fields. */
  method Allows(hook: Lifecycle, e: Event, apart: bool) returns (ok: bool)
    ensures ok == Allowed(hook.Snapshot(), e, apart)
  {
    var seen := Life(hook.status, hook.txHash, hook.error, hook.tradeParams, hook.cancelledRef, hook.lastSignedXdrRef,
                     hook.deadlineTimerRef, hook.timers, hook.nextTimer, hook.runs, hook.nextRun, hook.swap, []);
    ok := Allowed(seen, e, apart);
  }

  /**
    Drives a new hook through a script. Whatever the script, confirmed comes with an accepted hash; and
    if nothing starts while a run is in flight, every swap asks once, is signed once, sends one envelope and
    sends nothing after it was accepted.
   */
  method Drive(cfg: Config, apart: bool, script: seq<Event>)
    returns (hook: Lifecycle, ghost lives: seq<Life>, ghost taken: seq<Event>)
    ensures fresh(hook)
    ensures taken == Taken(NEW_LIFE, script, cfg, apart)
    ensures IsRun(lives, taken, cfg) && lives[|taken|] == hook.Snapshot()
    ensures Proofs.ConfirmedOk(hook.Snapshot())
    ensures apart ==>
      forall i, j :: 0 <= i < |hook.log| && 0 <= j < |hook.log| ==> Proofs.OnceAndSame(hook.log, i, j)
    ensures apart ==> Progress.SentBeforeAccepted(hook.log)
  {
    hook := new Lifecycle(cfg);
    lives, taken := [NEW_LIFE], [];
    for i := 0 to |script|
      invariant fresh(hook) && hook.cfg == cfg
      invariant IsRun(lives, taken, cfg) && lives[|taken|] == hook.Snapshot()
      invariant apart ==> Apart(lives, taken)
      invariant Taken(NEW_LIFE, script, cfg, apart) == taken + Taken(hook.Snapshot(), script[i..], cfg, apart)
    {
      var e := script[i];
      var ok := Allows(hook, e, apart);
      TakenSplits(hook.Snapshot(), script, cfg, apart, i);
      if ok {
        Grows(lives, taken, cfg, apart, e);
        lives, taken := lives + [Step(lives[|taken|], e, cfg)], taken + [e];
        hook.Handle(e);
      }
    }
    Theorems(lives, taken, cfg, apart);
  }

  lemma Theorems(lives: seq<Life>, taken: seq<Event>, cfg: Config, apart: bool)
    requires IsRun(lives, taken, cfg) && (apart ==> Apart(lives, taken))
    ensures Proofs.ConfirmedOk(lives[|taken|])
    ensures var log := lives[|taken|].log;
            apart ==> forall i, j :: 0 <= i < |log| && 0 <= j < |log| ==> Proofs.OnceAndSame(log, i, j)
    ensures apart ==> Progress.SentBeforeAccepted(lives[|taken|].log)
  {
    Proofs.ConfirmedHasHash(lives, taken, cfg, |taken|);
    if apart {
      Progress.ClosedRun(lives, taken, cfg, |taken|);
      var log := lives[|taken|].log;
      forall i, j | 0 <= i < |log| && 0 <= j < |log| ensures Proofs.OnceAndSame(log, i, j) {
        Proofs.SignOnceSendSame(lives, taken, cfg, |taken|, i, j);
      }
    }
  }
}
