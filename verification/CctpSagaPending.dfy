/** A recorded pending transaction is neither raced by another wallet request nor overwritten. */
module CctpSagaPending {
  import opened Options
  import opened CctpSaga
  import opened CctpSagaRuns

  /** The pending transaction of the recovery record. */
  function Remembered(s: Saga): Option<Pending> {
    if s.vault.Some? then s.vault.value.pending else None
  }

  function Shown(s: Saga): Option<Pending> {
    if s.session.Some? then s.session.value.pending else None
  }

  /** Waits of actions that are only offered while no pending transaction is shown. */
  predicate Committing(task: Task) {
    !task.NoTask? && !task.ReconcileReceipt? && !task.ReconcileSubmit? && !task.ReconcileStatus?
    && !task.ResumeStatus? && !task.ReattestCall?
  }

  /** What the vault remembers is shown, and no action that could replace it is under way. */
  predicate Guarded(s: Saga) {
    Remembered(s).Some? ==> Shown(s) == Remembered(s) && !Committing(s.task)
  }

  /** Forgetting takes a cleared record or an expired entry. */
  predicate Kept(s: Saga, s': Saga) {
    Remembered(s).Some? ==>
      || s'.vault.None?
      || Remembered(s') == Remembered(s)
      || (Remembered(s').None? && Remembered(s).value.expiresAt <= s.now)
  }

  /** One step does right by a remembered transaction; only an accepted reconcile may forget it early. */
  predicate Careful(s: Saga, s': Saga) {
    && Guarded(s')
    && Kept(s, s')
    && (s'.log == s.log || Remembered(s).None?)
  }

  // The effects and the blocks the handlers are built from.

  lemma LoadCareful(s: Saga)
    requires Guarded(s)
    ensures Careful(s, s.(vault := Load(s.vault, s.now)))
  {
  }

  lemma StatusCareful(s: Saga, st: TransferStatus)
    requires Guarded(s)
    ensures Careful(s, HandleStatus(s, st)) && Careful(s, FetchStatus(s, st))
  {
  }

  lemma ResolvedCareful(s: Saga, r: Record, prepared: Option<BurnPrep>, fp: Option<string>)
    requires Guarded(s)
    ensures Careful(s, ApplyResolved(s, r, prepared, fp))
  {
  }

  lemma Chained(s: Saga, s1: Saga, s2: Saga)
    requires Careful(s, s1) && Careful(s1, s2) && s1.now == s.now
    requires s1.log == s.log && s2.log == s1.log
    requires s1.vault.None? ==> s2.vault.None?
    requires Remembered(s1).None? ==> Remembered(s2).None?
    ensures Careful(s, s2)
  {
  }

  lemma ClearedCareful(s: Saga, f: Failure, inputs: string, ready: bool)
    requires Guarded(s)
    ensures Careful(s, Reset(s)) && Careful(s, LostAuthorization(s)) && Careful(s, AbortExpiredQuote(s))
    ensures Careful(s, ChangeInputs(s, inputs, ready)) && Careful(s, SignFailed(s, f))
  {
  }

  lemma AutoStartCareful(s: Saga)
    requires Guarded(s)
    ensures Careful(s, AutoStart(s))
  {
    var loaded := Load(s.vault, s.now);
    LoadCareful(s);
    if loaded.Some? {
      var s1 := Sync(s.(vault := loaded), loaded.value);
      ResolvedCareful(s1, loaded.value, s.prepared, s.fp);
      Chained(s, s1, ApplyResolved(s1, loaded.value, s.prepared, s.fp));
    }
  }

  lemma AutoReplyCareful(s: Saga, reply: Option<TransferStatus>)
    requires Guarded(s) && s.auto.Some?
    ensures Careful(s, OnAuto(s, reply))
  {
    if reply.Some? {
      var s1 := FetchStatus(s.(auto := None), reply.value);
      StatusCareful(s.(auto := None), reply.value);
      LoadCareful(s1);
      var active := ActiveRecord(s1.vault, s.now, s.auto.value.rec);
      var s2 := Sync(s1.(vault := Load(s1.vault, s.now)), active);
      Chained(s, s1, s2);
      ResolvedCareful(s2, active, s.auto.value.prepared, s.auto.value.fp);
      Chained(s, s2, Adopt(s1, s.auto.value));
    }
  }

  lemma ReloadCareful(s: Saga)
    requires Guarded(s)
    ensures Careful(s, Reload(s))
  {
    LoadCareful(s);
  }

  // The actions, as far as the user interface offers them.

  lemma BeginCareful(s: Saga, ok: bool)
    requires Guarded(s) && s.task.NoTask?
    ensures Careful(s, Start(s, PrimaryAction(s), ok))
    ensures Shown(s).Some? ==> Start(s, PrimaryAction(s), ok).log == s.log
  {
    LoadCareful(s);
    if PrimaryAction(s) == DoResume { ResumeCareful(s); }
  }

  lemma ResumeCareful(s: Saga)
    requires Guarded(s) && s.task.NoTask?
    ensures Careful(s, BeginResume(s)) && BeginResume(s).log == s.log
  {
    var loaded := Load(s.vault, s.now);
    LoadCareful(s);
    if loaded.Some? {
      var s1 := Sync(s.(vault := loaded), loaded.value);
      ResolvedCareful(s1, loaded.value, s.prepared, s.fp);
      Chained(s, s1, ApplyResolved(s1, loaded.value, s.prepared, s.fp));
    }
  }

  lemma BurnReplyCareful(s: Saga, e: Event)
    requires Guarded(s) && Possible(s, e)
    requires e.BurnPrepReply? || e.BurnWalletReply? || e.BurnSubmitReply?
    ensures Careful(s, Step(s, e))
  {
  }

  lemma ApproveStatusCareful(s: Saga, reply: Result<TransferStatus, Failure>)
    requires Guarded(s) && s.task.ApproveStatus?
    ensures Careful(s, OnApproveStatus(s, reply))
  {
  }

  lemma MintReplyCareful(s: Saga, e: Event)
    requires Guarded(s) && Possible(s, e)
    requires e.MintPrepReply? || e.MintWalletReply? || e.MintSubmitReply? || e.QuoteReply?
    ensures Careful(s, Step(s, e))
  {
  }

  lemma StatusReplyCareful(s: Saga, reply: Option<TransferStatus>)
    requires Guarded(s) && (s.task.ReconcileStatus? || s.task.ReattestCall?)
    ensures Careful(s, Step(s, StatusReply(reply)))
  {
    if reply.Some? { StatusCareful(s, reply.value); }
  }

  lemma ResumeReplyCareful(s: Saga, reply: Option<TransferStatus>)
    requires Guarded(s) && s.task.ResumeStatus?
    ensures Careful(s, OnResumeStatus(s, reply))
  {
    if reply.Some? {
      var s1 := FetchStatus(s.(task := NoTask), reply.value);
      StatusCareful(s.(task := NoTask), reply.value);
      ResolvedCareful(s1, s.task.rec, s.task.prepared, s.task.fp);
      Chained(s, s1, ApplyResolved(s1, s.task.rec, s.task.prepared, s.task.fp));
    }
  }

  /** The step only adds to the log, and nothing it adds asks the wallet for anything. */
  predicate NoWalletRequest(s: Saga, s': Saga) {
    s.log <= s'.log && forall a | a in s'.log[|s.log|..] :: !a.WalletRequest?
  }

  lemma PendingKept(s: Saga, e: Event)
    requires Guarded(s) && Possible(s, e) && Driven(s, e)
    ensures Guarded(Step(s, e))
    ensures Kept(s, Step(s, e)) || (e == ReconcileSubmitReply(true) && Remembered(Step(s, e)).None?)
    ensures Remembered(s).Some? ==> NoWalletRequest(s, Step(s, e))
    ensures e.Begin? && Shown(s).Some? ==> Step(s, e).log == s.log
  {
    match e
    case Begin(a, ok) => BeginCareful(s, ok);
    case AutoEffect => AutoStartCareful(s);
    case AutoReply(reply) => AutoReplyCareful(s, reply);
    case Reloaded => ReloadCareful(s);
    case Polled(st) => StatusCareful(s, st);
    case ResetPressed => ClearedCareful(s, OtherFailure, "", true);
    case InputsChanged(inputs, ready) => ClearedCareful(s, OtherFailure, inputs, ready);
    case BurnPrepReply(_) | BurnWalletReply(_) | BurnSubmitReply(_) => BurnReplyCareful(s, e);
    case MintPrepReply(_, _) | MintWalletReply(_) | MintSubmitReply(_) | QuoteReply(_) => MintReplyCareful(s, e);
    case ApproveStatusReply(reply) => ApproveStatusCareful(s, reply);
    case StatusReply(reply) =>
      if s.task.ResumeStatus? { ResumeReplyCareful(s, reply); } else { StatusReplyCareful(s, reply); }
    case Tick(_) | ReceiptReply(_) | ReconcileSubmitReply(_) =>
  }

  lemma {:induction false} GuardedRun(states: seq<Saga>, events: seq<Event>, rules: Rules, n: nat)
    requires IsRun(states, events, rules) && rules.driven && n <= |events|
    ensures Guarded(states[n])
  {
    if n == 0 {
      assert states[0] == Init(states[0].inputs);
    } else {
      GuardedRun(states, events, rules, n - 1);
      PendingKept(states[n - 1], events[n - 1]);
    }
  }

  /**
    While a pending transaction is remembered the step asks the wallet for nothing and does not replace
    the hash, which goes only by expiry, a cleared record or an accepted reconcile; and no action
    started while one is shown does anything the outside world sees.
   */
  predicate SafeStep(s: Saga, e: Event, s': Saga) {
    && (Remembered(s).Some? ==>
          && NoWalletRequest(s, s')
          && (Remembered(s').Some? ==> Remembered(s') == Remembered(s))
          && (Remembered(s').None? ==>
                s'.vault.None? || Remembered(s).value.expiresAt <= s.now || e == ReconcileSubmitReply(true)))
    && (e.Begin? && Shown(s).Some? ==> s'.log == s.log)
  }

  /**
    Pending safety: along every run driven by the offered button, while the recovery record
    remembers a pending transaction no step asks the wallet for anything, no action started
    while one is shown does either, and the remembered hash is never replaced by another: it
    stays until it expires, the record is cleared, or its reconcile is accepted.
   */
  lemma PendingSafety(states: seq<Saga>, events: seq<Event>, rules: Rules, n: nat)
    requires IsRun(states, events, rules) && rules.driven && n < |events|
    ensures SafeStep(states[n], events[n], states[n + 1])
  {
    GuardedRun(states, events, rules, n);
    PendingKept(states[n], events[n]);
  }

  /** A reconcile whose submit was accepted: a burn or mint is done, an approval still asks for its status. */
  function Reconciled(s: Saga, waited: nat, st: TransferStatus): Saga
    requires s.task.ReconcileSubmit?
  {
    var acked := OnReconcileSubmit(s, true);
    if acked.task.ReconcileStatus? then OnReconcileStatus(acked.(now := acked.now + waited), Some(st)) else acked
  }

  lemma LiveVaultStays(s: Saga)
    requires s.session.Some? && s.vault.Some? && Load(s.vault, s.now) == s.vault && s.vault.value.pending.None?
    ensures BeginReconcile(s) == s
  {
  }

  lemma EmptyVaultRetries(s: Saga)
    requires Shown(s).Some? && s.vault.None?
    ensures BeginReconcile(s).task == ReconcileReceipt(s.session.value, Shown(s).value)
  {
  }

  lemma PatchedIsLive(vault: Option<Record>, now: nat, step: BurnStep)
    ensures var cleared := SetPending(vault, now, None);
            && Load(cleared, now) == cleared && (cleared.Some? ==> cleared.value.pending.None?)
    ensures var patched := SetStep(vault, now, step);
            && Load(patched, now) == patched
  {
  }

  lemma PendingStaysCleared(vault: Option<Record>, later: nat, step: BurnStep)
    requires vault.Some? ==> vault.value.pending.None?
    ensures var patched := SetStep(vault, later, step); patched.Some? ==> patched.value.pending.None?
  {
  }

  /**
    An accepted reconcile, whatever it was for, clears the vault but not the session in memory. Unless
    the transfer turns out completed, the only offered action then is another reconcile; and that does
    nothing exactly while the record is still in the vault.
   */
  lemma ReconciledIsStillShown(s: Saga, waited: nat, st: TransferStatus)
    requires s.task.ReconcileSubmit? && s.bridgeReady && Shown(s).Some?
    ensures
      var end := Reconciled(s, waited, st);
      && end.task.NoTask? && Remembered(end).None?
      && (PrimaryAction(end) == DoReconcile <==> s.task.pending.role != Approval || st != Done)
      && (PrimaryAction(end) == DoReconcile ==> (BeginReconcile(end) == end <==> end.vault.Some?))
  {
    var acked := OnReconcileSubmit(s, true);
    var end := Reconciled(s, waited, st);
    PatchedIsLive(s.vault, s.now, Unknown);
    if s.task.pending.role == Approval {
      var handled := HandleStatus(acked.(now := acked.now + waited), st);
      PatchedIsLive(handled.vault, handled.now, Unknown);
      PendingStaysCleared(handled.vault, handled.now, Unknown);
    }
    if st != Done || s.task.pending.role != Approval {
      if end.vault.Some? {
        LiveVaultStays(end);
      } else {
        EmptyVaultRetries(end);
      }
    }
  }
}
