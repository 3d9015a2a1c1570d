/** The hook object of `frontend/hooks/useTransactionLifecycle.ts`, each handler proved against its step. */
module TransactionLifecycleHook {
  import opened Options
  import opened TransactionLifecycle
  import Steps = TransactionLifecycle

  class Lifecycle {
    const cfg: Config

    var status: Status
    var txHash: Option<string>
    var error: Option<Fault>
    var tradeParams: Option<Params>
    var cancelledRef: bool
    var lastSignedXdrRef: Option<string>
    var deadlineTimerRef: Option<nat>

    // Pending timers, runs in flight, and what was asked of builder, wallet and network.
    var timers: set<nat>
    var nextTimer: nat
    var runs: map<nat, Wait>
    var nextRun: nat
    var swap: nat
    ghost var log: seq<Act>

    ghost function Snapshot(): Life
      reads this
    {
      Life(status, txHash, error, tradeParams, cancelledRef, lastSignedXdrRef, deadlineTimerRef, timers, nextTimer,
           runs, nextRun, swap, log)
    }

    constructor (cfg: Config)
      ensures Snapshot() == NEW_LIFE && this.cfg == cfg
    {
      this.cfg := cfg;
      status, txHash, error, tradeParams := Review, None, None, None;
      cancelledRef, lastSignedXdrRef, deadlineTimerRef := false, None, None;
      timers, nextTimer, runs, nextRun := {}, 0, map[], 0;
      swap, log := 0, [];
    }

    method ClearDeadlineTimer()
      modifies this
      ensures Snapshot() == ClearTimer(old(Snapshot()))
    {
      if deadlineTimerRef.Some? {
        timers := timers - {deadlineTimerRef.value};
        deadlineTimerRef := None;
      }
    }

    method ClearError()
      modifies this`error
      ensures error == None
    {
      error := None;
    }

    method Fail(f: Fault)
      modifies this
      ensures Snapshot() == FailWith(old(Snapshot()), f)
    {
      error := Some(f);
      status := Failed;
    }

    /** Announces the submit, arms the deadline and sends the envelope. */
    method BeginSubmit(s: nat, envelope: string)
      modifies this
      ensures Snapshot() == StartSubmit(old(Snapshot()), s, envelope)
    {
      status := Submitted;
      deadlineTimerRef := Some(nextTimer);
      timers := timers + {nextTimer};
      nextTimer := nextTimer + 1;
      log := log + [Sent(s, envelope)];
    }

    method CheckConfiguration(p: Params) returns (misconfigured: bool)
      ensures misconfigured == Misconfigured(p, cfg)
    {
      if p.wallet {
        if !cfg.hasBuilder { return true; }
        if cfg.defaultSign { return true; }
        if cfg.defaultSubmit { return true; }
      }
      return false;
    }

    method OpenRun(w: Wait)
      modifies this`runs, this`nextRun
      ensures Snapshot() == Open(old(Snapshot()), w)
    {
      runs := runs[nextRun := w];
      nextRun := nextRun + 1;
    }

    method Renew(p: Params)
      modifies this
      ensures Snapshot() == Renewed(old(Snapshot()), p)
    {
      cancelledRef := false;
      lastSignedXdrRef := None;
      tradeParams := Some(p);
      txHash := None;
      swap := swap + 1;
      ClearError();
    }

    method BeginRun()
      modifies this
      ensures Snapshot() == Steps.BeginRun(old(Snapshot()), cfg)
    {
      status := Pending;
      if cfg.hasBuilder {
        log := log + [AskedBuild(swap)];
        OpenRun(Building(swap));
      } else {
        log := log + [AskedSign(swap)];
        OpenRun(Signing(swap));
      }
    }

    method InitiateSwap(p: Params)
      modifies this
      ensures Snapshot() == Steps.InitiateSwap(old(Snapshot()), p, cfg)
    {
      Renew(p);
      var misconfigured := CheckConfiguration(p);
      if misconfigured {
        Fail(Fault(false));
        return;
      }
      BeginRun();
    }

    method OnBuilt(r: nat, reply: Result<(), Fault>)
      requires r in runs && runs[r].Building?
      modifies this
      ensures Snapshot() == Steps.OnBuilt(old(Snapshot()), r, reply)
    {
      var s := runs[r].swap;
      match reply {
        case Err(f) =>
          runs := runs - {r};
          if cancelledRef { return; }
          Fail(f);
        case Ok(_) =>
          if cancelledRef { runs := runs - {r}; return; }
          log := log + [AskedSign(s)];
          runs := runs[r := Signing(s)];
      }
    }

    method OnSigned(r: nat, reply: Result<string, Fault>)
      requires r in runs && runs[r].Signing?
      modifies this
      ensures Snapshot() == Steps.OnSigned(old(Snapshot()), r, reply)
    {
      var s := runs[r].swap;
      match reply {
        case Err(f) =>
          runs := runs - {r};
          if cancelledRef { return; }
          lastSignedXdrRef := None;
          Fail(f);
        case Ok(envelope) =>
          lastSignedXdrRef := Some(envelope);
          log := log + [Signed(s, envelope)];
          if cancelledRef { runs := runs - {r}; return; }
          BeginSubmit(s, envelope);
          runs := runs[r := Submitting(s, envelope)];
      }
    }

    method OnSubmitted(r: nat, reply: Result<string, Fault>)
      requires r in runs && runs[r].Submitting?
      modifies this
      ensures Snapshot() == Steps.OnSubmitted(old(Snapshot()), r, reply)
    {
      var s := runs[r].swap;
      runs := runs - {r};
      ClearDeadlineTimer();
      match reply {
        case Err(f) =>
          if cancelledRef { return; }
          Fail(f);
        case Ok(hash) =>
          log := log + [Accepted(s, hash)];
          if cancelledRef { return; }
          txHash := Some(hash);
          status := Confirmed;
      }
    }

    method Cancel()
      modifies this
      ensures Snapshot() == Steps.Cancel(old(Snapshot()))
    {
      if status == Pending {
        cancelledRef := true;
        ClearDeadlineTimer();
        status := Review;
        ClearError();
      }
    }

    method HoldsReconcilable() returns (yes: bool)
      ensures yes == Reconcilable(Snapshot())
    {
      yes := status == Failed && error == Some(Fault(true)) && lastSignedXdrRef.Some? && lastSignedXdrRef.value != "";
    }

    method Resubmit()
      modifies this
      ensures Snapshot() == Steps.Resubmit(old(Snapshot()), cfg)
    {
      var reconcilable := HoldsReconcilable();
      if reconcilable && tradeParams.Some? {
        cancelledRef := false;
        ClearError();
        ClearDeadlineTimer();
        var envelope := lastSignedXdrRef.value;
        BeginSubmit(swap, envelope);
        OpenRun(Submitting(swap, envelope));
        return;
      }
      if status == Dropped && tradeParams.Some? {
        InitiateSwap(tradeParams.value);
      }
    }

    method TryAgain()
      modifies this
      ensures Snapshot() == Steps.TryAgain(old(Snapshot()), cfg)
    {
      var reconcilable := HoldsReconcilable();
      if reconcilable {
        Resubmit();
        return;
      }
      lastSignedXdrRef := None;
      ClearDeadlineTimer();
      status := Review;
      ClearError();
      txHash := None;
    }

    method Dismiss()
      modifies this
      ensures Snapshot() == Steps.Dismiss(old(Snapshot()))
    {
      ClearDeadlineTimer();
      status := Review;
      ClearError();
      txHash := None;
      tradeParams := None;
      lastSignedXdrRef := None;
    }

    method OnDeadline(t: nat)
      modifies this
      ensures Snapshot() == Steps.OnDeadline(old(Snapshot()), t)
    {
      timers := timers - {t};
      if status == Submitted { status := Dropped; }
    }

    /** Any event that can happen in the current state. */
    method Handle(e: Event)
      requires Possible(Snapshot(), e)
      modifies this
      ensures Snapshot() == Step(old(Snapshot()), e, cfg)
    {
      match e
      case CallInitiate(p) => InitiateSwap(p);
      case CallCancel => Cancel();
      case CallResubmit => Resubmit();
      case CallTryAgain => TryAgain();
      case CallDismiss => Dismiss();
      case BuildReply(r, reply) => OnBuilt(r, reply);
      case SignReply(r, reply) => OnSigned(r, reply);
      case SubmitReply(r, reply) => OnSubmitted(r, reply);
      case Deadline(t) => OnDeadline(t);
    }
  }
}
