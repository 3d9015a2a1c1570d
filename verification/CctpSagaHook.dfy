/**
 * The saga hook as an object (frontend/hooks/useCctpSaga.ts): its state setters, refs and storage
 * cell are fields, and every stretch of code between two awaits is a method that is proved to do
 * what the transition system of `CctpSaga` says.
 */
module CctpSagaHook {
  import opened Options
  import opened CctpSaga

  class UseCctpSaga {
    var now: nat
    var inputs: string
    var bridgeReady: bool
    var vault: Option<Record>
    var stage: Stage
    var session: Option<Record>
    var burnPrepareStep: BurnStep
    var preparedPayload: Option<BurnPrep>
    var preparedFingerprint: Option<string>
    var transferStatus: Option<TransferStatus>
    var autoReconciledRevisionRef: Option<Revision>
    var task: Task
    var auto: Option<Reconcile>
    ghost var log: seq<Act>

    ghost function Snapshot(): Saga
      reads this
    {
      Saga(now, inputs, bridgeReady, vault, stage, session, burnPrepareStep, preparedPayload, preparedFingerprint,
           transferStatus, autoReconciledRevisionRef, task, auto, log)
    }

    constructor (inputs: string)
      ensures Snapshot() == Init(inputs)
    {
      now, bridgeReady, vault, stage, session := 0, true, None, Idle, None;
      this.inputs := inputs;
      burnPrepareStep, preparedPayload, preparedFingerprint, transferStatus := Unknown, None, None, None;
      autoReconciledRevisionRef, task, auto, log := None, NoTask, None, [];
    }

    // ------------------------------------------------------------ the session vault

    /** `loadCctpSession`: drops what has expired from the cell and returns the rest. */
    method LoadSession() returns (loaded: Option<Record>)
      modifies this
      ensures loaded == Load(old(vault), now)
      ensures Snapshot() == old(Snapshot()).(vault := loaded)
    {
      loaded := Load(vault, now);
      vault := loaded;
    }

    method PatchStep(step: BurnStep) returns (patched: Option<Record>)
      modifies this
      ensures patched == SetStep(old(vault), now, step)
      ensures Snapshot() == old(Snapshot()).(vault := patched)
    {
      var loaded := LoadSession();
      patched := if loaded.Some? then Some(loaded.value.(step := Some(step))) else None;
      vault := patched;
    }

    method PatchPrepare(step: BurnStep, fp: Option<string>) returns (patched: Option<Record>)
      modifies this
      ensures patched == SetPrepare(old(vault), now, step, fp)
      ensures Snapshot() == old(Snapshot()).(vault := patched)
    {
      var loaded := LoadSession();
      patched := if loaded.Some? then Some(loaded.value.(step := Some(step), fp := fp)) else None;
      vault := patched;
    }

    method PatchPending(pending: Option<Pending>) returns (patched: Option<Record>)
      modifies this
      ensures patched == SetPending(old(vault), now, pending)
      ensures Snapshot() == old(Snapshot()).(vault := patched)
    {
      var loaded := LoadSession();
      patched := if loaded.Some? then Some(loaded.value.(pending := pending)) else None;
      vault := patched;
    }

    // ------------------------------------------------------------ shared state changes

    method SyncSession(r: Record)
      modifies this
      ensures Snapshot() == Sync(old(Snapshot()), r)
    {
      session := Some(r);
      if r.pending.Some? {
        stage := PendingReconcile;
      }
      if r.fp.Some? {
        preparedFingerprint := r.fp;
      }
    }

    method ApplyResolvedBurnStep(r: Record, prepared: Option<BurnPrep>, fp: Option<string>)
      modifies this
      ensures Snapshot() == ApplyResolved(old(Snapshot()), r, prepared, fp)
    {
      var resolved := ResolveVaultStep(r.step, prepared, Or(r.fp, fp), now);
      burnPrepareStep := resolved;
      if resolved == ReprepareRequired && r.step != Some(ReprepareRequired) {
        var patched := PatchStep(ReprepareRequired);
        if patched.Some? {
          session := patched;
        }
      }
    }

    method HandleTransferStatus(st: TransferStatus)
      modifies this
      ensures Snapshot() == HandleStatus(old(Snapshot()), st)
    {
      transferStatus := Some(st);
      stage := StageOf(st, stage);
      if Terminal(st) {
        vault := None;
      }
      if st == Done {
        session := None;
        burnPrepareStep := Unknown;
      }
    }

    method FetchTransferStatus(st: TransferStatus)
      modifies this
      ensures Snapshot() == FetchStatus(old(Snapshot()), st)
    {
      HandleTransferStatus(st);
      if st == Done {
        preparedPayload := None;
        preparedFingerprint := None;
      }
    }

    method AbortQuote()
      modifies this
      ensures Snapshot() == AbortExpiredQuote(old(Snapshot()))
    {
      vault, session, transferStatus := None, None, None;
      preparedPayload, preparedFingerprint := None, None;
      burnPrepareStep := Unknown;
      stage := Idle;
    }

    method PersistBurnPrepare(p: BurnPrep)
      modifies this
      ensures Snapshot() == PersistPrepare(old(Snapshot()), p)
    {
      var step := if p.approval then ApprovalReady else BurnReady;
      preparedFingerprint := Some(Fingerprint(p.payload));
      preparedPayload := Some(p);
      burnPrepareStep := step;
      var patched := PatchPrepare(step, preparedFingerprint);
      if patched.Some? {
        session := patched;
      }
    }

    method CommitPendingEvmTx(hash: string, role: Role)
      modifies this
      ensures Snapshot() == CommitPending(old(Snapshot()), hash, role)
    {
      var patched := PatchPending(Some(Pending(hash, role, now + PENDING_TTL_MS)));
      task := NoTask;
      if patched.Some? {
        SyncSession(patched.value);
        autoReconciledRevisionRef := Some(RevisionOf(patched.value));
      }
      stage := PendingReconcile;
    }

    method RequireReprepare()
      modifies this
      ensures Snapshot() == SignFailed(old(Snapshot()), StaleSequence)
    {
      preparedPayload, preparedFingerprint := None, None;
      burnPrepareStep := ReprepareRequired;
      var _ := PatchPrepare(ReprepareRequired, None);
      stage := Quoted;
      task := NoTask;
    }

    method OnSignFailure(f: Failure)
      modifies this
      ensures Snapshot() == SignFailed(old(Snapshot()), f)
    {
      match f
      case StaleSequence => RequireReprepare();
      case QuoteExpired =>
        task := NoTask;
        AbortQuote();
      case OtherFailure =>
        task := NoTask;
        stage := Failed;
    }

    method Finish(end: Stage)
      modifies this
      ensures Snapshot() == old(Snapshot()).(stage := end, task := NoTask)
    {
      stage := end;
      task := NoTask;
    }

    // ------------------------------------------------------------ actions, up to their first await

    method RequestQuote(built: bool)
      modifies this
      ensures Snapshot() == BeginQuote(old(Snapshot()), built)
    {
      if !bridgeReady {
        stage := Unavailable;
        return;
      }
      stage := Quoting;
      burnPrepareStep := Unknown;
      if !built {
        stage := Failed;
        return;
      }
      task := QuoteCall(inputs);
    }

    method PrepareSourceBurn(rolesOk: bool)
      modifies this
      ensures Snapshot() == BeginPrepare(old(Snapshot()), rolesOk)
    {
      if session.Some? && rolesOk {
        task := Task.PrepareCall(session.value);
      }
    }

    /** The guard both source-chain signing steps share. */
    method GuardSigning(role: Role) returns (ok: bool)
      requires role == Approval || role == Burn
      ensures ok == MaySign(Snapshot(), role)
    {
      if session.None? || preparedPayload.None? {
        return false;
      }
      var effective := EffectiveStep(burnPrepareStep, preparedPayload, preparedFingerprint, now);
      ok := preparedPayload.value.approval == (role == Approval)
            && effective == (if role == Approval then ApprovalReady else BurnReady);
    }

    method SignApprovalStep(rolesOk: bool)
      modifies this
      ensures Snapshot() == BeginApprove(old(Snapshot()), rolesOk)
    {
      var allowed := GuardSigning(Approval);
      if !rolesOk || !allowed {
        return;
      }
      stage := SignApproval;
      log := log + [WalletRequest(Approval, preparedPayload.value.transfer)];
      task := ApproveWallet(session.value, preparedPayload.value);
    }

    method SignBurnStep(rolesOk: bool)
      modifies this
      ensures Snapshot() == BeginBurn(old(Snapshot()), rolesOk)
    {
      var allowed := GuardSigning(Burn);
      if !rolesOk || !allowed {
        return;
      }
      stage := SignBurn;
      log := log + [WalletRequest(Burn, preparedPayload.value.transfer)];
      task := BurnWallet(session.value, preparedPayload.value);
    }

    method SignPreparedMintStep()
      modifies this
      ensures Snapshot() == BeginMint(old(Snapshot()))
    {
      if session.Some? {
        task := MintPrepare(session.value);
      }
    }

    method Reattest(cooled: bool)
      modifies this
      ensures Snapshot() == BeginReattest(old(Snapshot()), cooled)
    {
      if session.Some? && cooled {
        task := ReattestCall(session.value);
      }
    }

    method ReconcilePendingEvmTx()
      modifies this
      ensures Snapshot() == BeginReconcile(old(Snapshot()))
    {
      var loaded := LoadSession();
      var pending := if loaded.Some? then loaded.value.pending
                     else if session.Some? then session.value.pending else None;
      if session.None? || pending.None? {
        return;
      }
      task := ReconcileReceipt(session.value, pending.value);
    }

    method ResumeTransfer()
      modifies this
      ensures Snapshot() == BeginResume(old(Snapshot()))
    {
      var prepared, fp := preparedPayload, preparedFingerprint;
      var loaded := LoadSession();
      if loaded.None? {
        return;
      }
      SyncSession(loaded.value);
      if loaded.value.inputs != inputs {
        ApplyResolvedBurnStep(loaded.value, prepared, fp);
        stage := ResumePending;
        return;
      }
      task := ResumeStatus(loaded.value, prepared, fp);
      auto := None;
    }

    /** `runPrimaryAction`: whatever the user interface offers, nothing when it offers nothing. */
    method RunPrimaryAction(ok: bool)
      modifies this
      ensures Snapshot() == Start(old(Snapshot()), PrimaryAction(old(Snapshot())), ok)
    {
      var action := OfferedAction();
      StartAction(action, ok);
    }

    method OfferedAction() returns (action: Action)
      ensures action == PrimaryAction(Snapshot())
    {
      var recorded := if session.Some? then session.value.fp else None;
      var effective := EffectiveStep(burnPrepareStep, preparedPayload, Or(preparedFingerprint, recorded), now);
      if !bridgeReady {
        return NoAction;
      }
      if stage == PendingReconcile || (session.Some? && session.value.pending.Some?) {
        return DoReconcile;
      }
      if stage == ResumePending {
        return DoResume;
      }
      if stage == Completed || transferStatus == Some(Done) {
        return NoAction;
      }
      if transferStatus in {Some(AttestationReady), Some(MintPrepared), Some(MintFailedRetryable)} {
        return DoMint;
      }
      if stage == Idle || stage == Failed {
        return DoQuote;
      }
      if stage == Quoted {
        return match effective case ApprovalReady => DoApprove case BurnReady => DoBurn case _ => DoPrepare;
      }
      action := if transferStatus == Some(AttestationFailed) then DoReattest else NoAction;
    }

    // ------------------------------------------------------------ continuations

    method QuoteArrives(reply: Option<QuoteData>)
      requires task.QuoteCall?
      modifies this
      ensures Snapshot() == OnQuote(old(Snapshot()), reply)
    {
      match reply
      case None => Finish(Failed);
      case Some(q) =>
        var r := Record(q.transfer, q.key, q.expiresAt, task.inputs, Some(Unknown), None, None);
        vault := Some(r);
        SyncSession(r);
        Finish(Quoted);
    }

    method BurnPrepareAnswers(reply: Result<BurnPrep, Failure>)
      requires task.PrepareCall? || task.ApprovePrepare?
      modifies this
      ensures Snapshot() == OnBurnPrep(old(Snapshot()), reply)
    {
      match reply
      case Ok(p) =>
        PersistBurnPrepare(p);
        Finish(Quoted);
      case Err(f) =>
        if task.ApprovePrepare? {
          OnSignFailure(f);
        } else {
          task := NoTask;
          if f == QuoteExpired {
            AbortQuote();
          }
        }
    }

    method BurnWalletAnswers(reply: Result<Execution, Failure>)
      requires task.ApproveWallet? || task.BurnWallet?
      modifies this
      ensures Snapshot() == OnBurnWallet(old(Snapshot()), reply)
    {
      match reply
      case Err(f) => OnSignFailure(f);
      case Ok(x) =>
        var role := if task.ApproveWallet? then Approval else Burn;
        log := log + [Executed(role, task.prep.transfer, task.prep.payload, false, x.hash)];
        if !x.ready {
          CommitPendingEvmTx(x.hash, role);
          return;
        }
        log := log + [SubmittedBurn(task.rec.transfer, x.hash)];
        task := if role == Approval then ApproveSubmit(task.rec) else BurnSubmit(task.rec);
    }

    method BurnSubmitAnswers(reply: Result<(), Failure>)
      requires task.ApproveSubmit? || task.BurnSubmit?
      modifies this
      ensures Snapshot() == OnBurnSubmit(old(Snapshot()), reply)
    {
      match reply
      case Err(f) => OnSignFailure(f);
      case Ok(_) =>
        var _ := PatchPending(None);
        if task.ApproveSubmit? {
          task := ApproveStatus(task.rec);
          return;
        }
        preparedPayload := None;
        burnPrepareStep := Unknown;
        var _ := PatchStep(Unknown);
        Finish(AwaitingAttestation);
    }

    method ApprovalConfirmed(reply: Result<TransferStatus, Failure>)
      requires task.ApproveStatus?
      modifies this
      ensures Snapshot() == OnApproveStatus(old(Snapshot()), reply)
    {
      match reply
      case Err(f) => OnSignFailure(f);
      case Ok(st) =>
        HandleTransferStatus(st);
        preparedPayload, preparedFingerprint := None, None;
        burnPrepareStep := Unknown;
        var _ := PatchPrepare(Unknown, None);
        task := ApprovePrepare(task.rec);
    }

    method MintPrepareAnswers(reply: Option<MintPrep>, rolesOk: bool)
      requires task.MintPrepare? || task.MintReprepare?
      modifies this
      ensures Snapshot() == OnMintPrep(old(Snapshot()), reply, rolesOk)
    {
      if reply.None? || (task.MintReprepare? && reply.value.trustline) {
        Finish(Failed);
        return;
      }
      var m := reply.value;
      if !rolesOk {
        task := NoTask;
      } else if m.trustline && m.payload.StellarXdr? {
        stage := SignTrustline;
        log := log + [WalletRequest(Trustline, m.transfer)];
        task := TrustlineWallet(task.rec, m);
      } else {
        stage := SignMint;
        log := log + [WalletRequest(Mint, m.transfer)];
        task := MintWallet(task.rec, m);
      }
    }

    method MintWalletAnswers(reply: Option<Execution>)
      requires task.TrustlineWallet? || task.MintWallet?
      modifies this
      ensures Snapshot() == OnMintWallet(old(Snapshot()), reply)
    {
      if reply.None? {
        Finish(Failed);
        return;
      }
      var x, m := reply.value, task.mint;
      if task.TrustlineWallet? {
        log := log + [Executed(Trustline, m.transfer, m.payload, m.trustline, x.hash)];
        if x.ready {
          task := MintReprepare(task.rec);
        } else {
          Finish(Failed);
        }
        return;
      }
      log := log + [Executed(Mint, m.transfer, m.payload, m.trustline, x.hash)];
      if x.ready {
        log := log + [SubmittedMint(task.rec.transfer, x.hash)];
        task := MintSubmit(task.rec);
      } else {
        CommitPendingEvmTx(x.hash, Mint);
      }
    }

    method MintSubmitAnswers(accepted: bool)
      requires task.MintSubmit?
      modifies this
      ensures Snapshot() == OnMintSubmit(old(Snapshot()), accepted)
    {
      if !accepted {
        Finish(Failed);
        return;
      }
      var _ := PatchPending(None);
      task := NoTask;
    }

    method ReceiptArrives(reply: Option<bool>)
      requires task.ReconcileReceipt?
      modifies this
      ensures Snapshot() == OnReceipt(old(Snapshot()), reply)
    {
      if reply.None? {
        Finish(Failed);
      } else if !reply.value {
        Finish(PendingReconcile);
      } else {
        var hash, transfer := task.pending.hash, task.rec.transfer;
        log := log + [if task.pending.role == Mint then SubmittedMint(transfer, hash) else SubmittedBurn(transfer, hash)];
        task := ReconcileSubmit(task.rec, task.pending);
      }
    }

    method ReconcileSubmitAnswers(accepted: bool)
      requires task.ReconcileSubmit?
      modifies this
      ensures Snapshot() == OnReconcileSubmit(old(Snapshot()), accepted)
    {
      if !accepted {
        Finish(Failed);
        return;
      }
      var _ := PatchPending(None);
      if task.pending.role == Approval {
        task := ReconcileStatus(task.rec);
        return;
      }
      if task.pending.role == Burn {
        stage := AwaitingAttestation;
      }
      task := NoTask;
    }

    method ReconcileConfirmed(reply: Option<TransferStatus>)
      requires task.ReconcileStatus?
      modifies this
      ensures Snapshot() == OnReconcileStatus(old(Snapshot()), reply)
    {
      if reply.None? {
        Finish(Failed);
        return;
      }
      HandleTransferStatus(reply.value);
      burnPrepareStep := Unknown;
      var _ := PatchStep(Unknown);
      Finish(Quoted);
    }

    method LoseAuthorization()
      modifies this
      ensures Snapshot() == LostAuthorization(old(Snapshot()))
    {
      vault, session := None, None;
      stage := Idle;
      autoReconciledRevisionRef := None;
    }

    method ResumeConfirmed(reply: Option<TransferStatus>)
      requires task.ResumeStatus?
      modifies this
      ensures Snapshot() == OnResumeStatus(old(Snapshot()), reply)
    {
      var ResumeStatus(r, prepared, fp) := task;
      task := NoTask;
      if reply.None? {
        LoseAuthorization();
        return;
      }
      FetchTransferStatus(reply.value);
      ApplyResolvedBurnStep(r, prepared, fp);
      if r.pending.Some? {
        stage := PendingReconcile;
      } else if !Terminal(reply.value) {
        stage := Quoted;
      }
    }

    method ReattestAnswers(reply: Option<TransferStatus>)
      requires task.ReattestCall?
      modifies this
      ensures Snapshot() == OnReattest(old(Snapshot()), reply)
    {
      task := NoTask;
      if reply.Some? {
        HandleTransferStatus(reply.value);
      }
    }

    // ------------------------------------------------------------ effects beside the actions

    method AutoReconcileOnce()
      modifies this
      ensures Snapshot() == AutoStart(old(Snapshot()))
    {
      if !bridgeReady || session.None? {
        return;
      }
      var prepared, fp := preparedPayload, preparedFingerprint;
      var loaded := LoadSession();
      if loaded.None? || autoReconciledRevisionRef == Some(RevisionOf(loaded.value)) {
        return;
      }
      if loaded.value.inputs != inputs {
        SyncSession(loaded.value);
        ApplyResolvedBurnStep(loaded.value, prepared, fp);
        stage := ResumePending;
        return;
      }
      autoReconciledRevisionRef := Some(RevisionOf(loaded.value));
      auto := Some(Reconcile(loaded.value, prepared, fp));
      if task.ResumeStatus? {
        task := NoTask;
      }
    }

    method AdoptActiveRecord(captured: Reconcile) returns (active: Record)
      modifies this
      ensures active == ActiveRecord(old(vault), old(now), captured.rec)
      ensures Snapshot() == Adopt(old(Snapshot()), captured)
    {
      var loaded := LoadSession();
      active := if loaded.Some? then loaded.value else captured.rec;
      SyncSession(active);
      ApplyResolvedBurnStep(active, captured.prepared, captured.fp);
    }

    method AutoReconcileAnswers(reply: Option<TransferStatus>)
      requires auto.Some?
      modifies this
      ensures Snapshot() == OnAuto(old(Snapshot()), reply)
    {
      var captured := auto.value;
      auto := None;
      if reply.None? {
        LoseAuthorization();
        return;
      }
      FetchTransferStatus(reply.value);
      var active := AdoptActiveRecord(captured);
      if active.pending.Some? {
        stage := PendingReconcile;
      } else if !Terminal(reply.value) && stage != Failed {
        stage := Quoted;
      }
    }

    method InputsChange(newInputs: string, ready: bool)
      modifies this
      ensures Snapshot() == ChangeInputs(old(Snapshot()), newInputs, ready)
    {
      var locked := session.Some? && stage !in {Idle, Completed, Failed, Unavailable};
      if newInputs != inputs && !locked {
        burnPrepareStep := Unknown;
        if stage == Quoted {
          stage := Idle;
        }
      }
      inputs := newInputs;
      bridgeReady := ready;
    }

    method ResetSaga()
      modifies this
      ensures Snapshot() == Reset(old(Snapshot()))
    {
      AbortQuote();
      autoReconciledRevisionRef := None;
      auto := None;
      if task.ResumeStatus? {
        task := NoTask;
      }
    }

    method Forget()
      modifies this
      ensures Snapshot() == Init(inputs).(now := old(now), inputs := old(inputs), bridgeReady := old(bridgeReady),
                                          vault := old(vault), log := old(log))
    {
      stage, session := Idle, None;
      burnPrepareStep, preparedPayload, preparedFingerprint, transferStatus := Unknown, None, None, None;
      autoReconciledRevisionRef, task, auto := None, NoTask, None;
    }

    /** A page reload: only the vault is left, and mounting the hook loads it. */
    method Remount()
      modifies this
      ensures Snapshot() == Reload(old(Snapshot()))
    {
      Forget();
      var loaded := LoadSession();
      if loaded.None? {
        return;
      }
      SyncSession(loaded.value);
      ApplyResolvedBurnStep(loaded.value, None, None);
      stage := if loaded.value.inputs == inputs && loaded.value.pending.Some? then PendingReconcile else ResumePending;
    }

    // ------------------------------------------------------------ the whole hook

    method Tick(ms: nat)
      modifies this
      ensures Snapshot() == old(Snapshot()).(now := old(now) + ms)
    {
      now := now + ms;
    }

    method StartAction(action: Action, ok: bool)
      modifies this
      ensures Snapshot() == Start(old(Snapshot()), action, ok)
    {
      match action
      case NoAction =>
      case DoQuote => RequestQuote(ok);
      case DoPrepare => PrepareSourceBurn(ok);
      case DoApprove => SignApprovalStep(ok);
      case DoBurn => SignBurnStep(ok);
      case DoMint => SignPreparedMintStep();
      case DoReattest => Reattest(ok);
      case DoReconcile => ReconcilePendingEvmTx();
      case DoResume => ResumeTransfer();
    }

    method StatusAnswers(reply: Option<TransferStatus>)
      requires task.ReconcileStatus? || task.ResumeStatus? || task.ReattestCall?
      modifies this
      ensures Snapshot() == Step(old(Snapshot()), StatusReply(reply))
    {
      if task.ReconcileStatus? {
        ReconcileConfirmed(reply);
      } else if task.ResumeStatus? {
        ResumeConfirmed(reply);
      } else {
        ReattestAnswers(reply);
      }
    }

    /** Any event that can happen in the current state. */
    method Handle(e: Event)
      requires Possible(Snapshot(), e)
      modifies this
      ensures Snapshot() == Step(old(Snapshot()), e)
    {
      match e
      case Tick(ms) => Tick(ms);
      case InputsChanged(inputs, ready) => InputsChange(inputs, ready);
      case ResetPressed => ResetSaga();
      case Reloaded => Remount();
      case Polled(st) => HandleTransferStatus(st);
      case AutoEffect => AutoReconcileOnce();
      case AutoReply(reply) => AutoReconcileAnswers(reply);
      case Begin(action, ok) => StartAction(action, ok);
      case QuoteReply(reply) => QuoteArrives(reply);
      case BurnPrepReply(reply) => BurnPrepareAnswers(reply);
      case BurnWalletReply(reply) => BurnWalletAnswers(reply);
      case BurnSubmitReply(reply) => BurnSubmitAnswers(reply);
      case ApproveStatusReply(reply) => ApprovalConfirmed(reply);
      case MintPrepReply(reply, roles) => MintPrepareAnswers(reply, roles);
      case MintWalletReply(reply) => MintWalletAnswers(reply);
      case MintSubmitReply(ack) => MintSubmitAnswers(ack);
      case ReceiptReply(reply) => ReceiptArrives(reply);
      case ReconcileSubmitReply(ack) => ReconcileSubmitAnswers(ack);
      case StatusReply(reply) => StatusAnswers(reply);
    }
  }
}
