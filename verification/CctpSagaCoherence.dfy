/**
  Payload coherence of the burn/mint saga.

  `approvals` holds the fingerprints of approval payloads: two prepare answers with the
  same bytes to sign carry the same flag.
 */
module CctpSagaCoherence {
  import opened Options
  import opened CctpSaga
  import opened CctpSagaRuns

  predicate HasFp(r: Option<Record>) { r.Some? && r.value.fp.Some? }

  predicate Of(r: Option<Record>, t: string) { r.Some? ==> r.value.transfer == t }

  /** A record whose burn step is ready remembers a fingerprint of the right kind. */
  predicate RecordOk(r: Option<Record>, approvals: set<string>) {
    r.Some? && r.value.step.Some? && r.value.step.value.Ready() ==>
      r.value.fp.Some? && (r.value.fp.value in approvals) == (r.value.step.value == ApprovalReady)
  }

  function Resuming(s: Saga): Option<Record> {
    if s.task.ResumeStatus? then Some(s.task.rec) else None
  }

  /** The places that may hold a piece of a transfer. */
  datatype Place = InVault | InSession | InAuto | InTask | InMemory

  /**
    What each place holds fits transfer t: records are of that transfer; a payload is too as
    soon as a record or a ready step vouches for it; and a ready step shares one fingerprint,
    of its own kind, with the vault.
   */
  predicate Fits(place: Place, s: Saga, t: string, approvals: set<string>) {
    match place
    case InVault => Of(s.vault, t) && RecordOk(s.vault, approvals)
    case InSession => Of(s.session, t)
    case InAuto => Of(AutoRecord(s), t) && RecordOk(AutoRecord(s), approvals)
    case InTask =>
      && Of(Captured(s.task), t) && RecordOk(Resuming(s), approvals)
      && (s.task.QuoteCall? ==> !s.step.Ready() && s.auto.None?)
      && (s.task.ResumeStatus? ==> s.auto.None? && (s.vault.Some? ==> s.vault.value.fp == s.task.rec.fp))
    case InMemory =>
      s.prepared.Some? ==>
        var p := s.prepared.value;
        && p.approval == (Fingerprint(p.payload) in approvals)
        && (HasFp(s.vault) || HasFp(AutoRecord(s)) || HasFp(Resuming(s)) || (s.step.Ready() && s.session.Some?)
            ==> p.transfer == t)
        && (HasFp(Resuming(s)) ==> s.fp == s.task.rec.fp)
        && (s.step.Ready() ==>
              && s.fp.Some?
              && (s.fp.value in approvals) == (s.step == ApprovalReady)
              && (s.vault.Some? ==> s.vault.value.fp == s.fp))
  }

  ghost predicate Coherence(s: Saga, t: string, approvals: set<string>) {
    forall place :: Fits(place, s, t, approvals)
  }

  lemma Everywhere(s: Saga, t: string, approvals: set<string>)
    requires Coherence(s, t, approvals)
    ensures Fits(InVault, s, t, approvals) && Fits(InSession, s, t, approvals) && Fits(InAuto, s, t, approvals)
    ensures Fits(InTask, s, t, approvals) && Fits(InMemory, s, t, approvals)
  {
  }

  lemma TaskFits(s: Saga, t: string, approvals: set<string>)
    requires Coherence(s, t, approvals)
    ensures Of(Captured(s.task), t)
  {
    assert Fits(InTask, s, t, approvals);
  }

  // Each block of state changes keeps coherence; the handlers are built from them.

  lemma LoadKeeps(s: Saga, t: string, approvals: set<string>)
    requires Coherence(s, t, approvals)
    ensures Coherence(s.(vault := Load(s.vault, s.now)), t, approvals)
  {
    Everywhere(s, t, approvals);
  }

  /** Anything but the records, the payload, the fingerprint and the burn step may change. */
  lemma FrameKeeps(s: Saga, s': Saga, t: string, approvals: set<string>)
    requires Coherence(s, t, approvals)
    requires s'.vault == s.vault && s'.session == s.session && s'.auto == s.auto
    requires s'.step == s.step && s'.prepared == s.prepared && s'.fp == s.fp
    requires s'.task != s.task ==> !s'.task.QuoteCall? && !s'.task.ResumeStatus? && Of(Captured(s'.task), t)
    ensures Coherence(s', t, approvals)
  {
    Everywhere(s, t, approvals);
  }

  lemma StatusKeeps(s: Saga, st: TransferStatus, t: string, approvals: set<string>)
    requires Coherence(s, t, approvals)
    ensures Coherence(HandleStatus(s, st), t, approvals)
    ensures Coherence(FetchStatus(s, st), t, approvals)
  {
    Everywhere(s, t, approvals);
  }

  lemma ClearingKeeps(s: Saga, f: Failure, t: string, approvals: set<string>)
    requires Coherence(s, t, approvals)
    ensures Coherence(SignFailed(s, f), t, approvals)
    ensures Coherence(AbortExpiredQuote(s), t, approvals)
    ensures Coherence(LostAuthorization(s), t, approvals)
    ensures Coherence(Reset(s), t, approvals)
  {
    Everywhere(s, t, approvals);
  }

  lemma PendingKeeps(s: Saga, pending: Option<Pending>, t: string, approvals: set<string>)
    requires Coherence(s, t, approvals)
    ensures Coherence(s.(vault := SetPending(s.vault, s.now, pending)), t, approvals)
  {
    Everywhere(s, t, approvals);
  }

  lemma UnknownKeeps(s: Saga, t: string, approvals: set<string>)
    requires Coherence(s, t, approvals)
    ensures Coherence(s.(vault := SetStep(s.vault, s.now, Unknown), step := Unknown), t, approvals)
  {
    Everywhere(s, t, approvals);
  }

  lemma ReprepareKeeps(s: Saga, t: string, approvals: set<string>)
    requires Coherence(s, t, approvals)
    ensures var patched := SetStep(s.vault, s.now, ReprepareRequired);
            Coherence(s.(step := ReprepareRequired, vault := patched, session := Or(patched, s.session)), t, approvals)
  {
    Everywhere(s, t, approvals);
  }

  lemma SyncKeeps(s: Saga, r: Record, t: string, approvals: set<string>)
    requires Coherence(s, t, approvals) && s.vault == Some(r)
    ensures Coherence(Sync(s, r), t, approvals)
  {
    Everywhere(s, t, approvals);
  }

  lemma PersistKeeps(s: Saga, p: BurnPrep, t: string, approvals: set<string>)
    requires Coherence(s, t, approvals) && Captured(s.task).Some?
    requires p.transfer == s.task.rec.transfer && p.approval == (Fingerprint(p.payload) in approvals)
    ensures Coherence(PersistPrepare(s.(task := NoTask), p), t, approvals)
  {
    Everywhere(s, t, approvals);
  }

  lemma CommitKeeps(s: Saga, hash: string, role: Role, t: string, approvals: set<string>)
    requires Coherence(s, t, approvals)
    ensures Coherence(CommitPending(s, hash, role), t, approvals)
  {
    var pending := Some(Pending(hash, role, s.now + PENDING_TTL_MS));
    var s1 := s.(task := NoTask);
    FrameKeeps(s, s1, t, approvals);
    PendingKeeps(s1, pending, t, approvals);
    var s2 := s1.(vault := SetPending(s.vault, s.now, pending));
    if s2.vault.Some? {
      SyncKeeps(s2, s2.vault.value, t, approvals);
      FrameKeeps(Sync(s2, s2.vault.value), CommitPending(s, hash, role), t, approvals);
    } else {
      FrameKeeps(s2, CommitPending(s, hash, role), t, approvals);
    }
  }

  lemma ResolveKeeps(s: Saga, r: Record, prepared: Option<BurnPrep>, fp: Option<string>, t: string, approvals: set<string>)
    requires Coherence(s, t, approvals) && !s.task.QuoteCall?
    requires RecordOk(Some(r), approvals)
    requires r.fp.Some? && s.prepared.Some? ==> s.prepared.value.transfer == t && s.fp == r.fp
    requires s.vault.Some? ==> s.vault.value.fp == r.fp
    ensures Coherence(ApplyResolved(s, r, prepared, fp), t, approvals)
  {
    Everywhere(s, t, approvals);
    ReprepareKeeps(s, t, approvals);
  }

  lemma FreshKeeps(s: Saga, r: Record, prepared: Option<BurnPrep>, fp: Option<string>, t: string, approvals: set<string>)
    requires Coherence(s, t, approvals) && s.vault == Some(r) && !s.task.QuoteCall?
    ensures Coherence(ApplyResolved(Sync(s, r), r, prepared, fp), t, approvals)
  {
    Everywhere(s, t, approvals);
    SyncKeeps(s, r, t, approvals);
    ResolveKeeps(Sync(s, r), r, prepared, fp, t, approvals);
  }

  /** The fallback to the captured record when the vault has gone. */
  lemma StaleKeeps(s: Saga, r: Record, prepared: Option<BurnPrep>, fp: Option<string>, t: string, approvals: set<string>)
    requires Coherence(s, t, approvals) && s.vault.None? && !s.task.QuoteCall? && !s.task.ResumeStatus?
    requires RecordOk(Some(r), approvals) && r.transfer == t
    requires r.fp.Some? && s.prepared.Some? ==> s.prepared.value.transfer == t
    ensures Coherence(ApplyResolved(Sync(s, r), r, prepared, fp), t, approvals)
  {
    Everywhere(s, t, approvals);
  }

  lemma AdoptKeeps(s: Saga, auto: Reconcile, t: string, approvals: set<string>)
    requires Coherence(s, t, approvals) && !s.task.QuoteCall? && !s.task.ResumeStatus?
    requires RecordOk(Some(auto.rec), approvals) && auto.rec.transfer == t
    requires auto.rec.fp.Some? && s.prepared.Some? ==> s.prepared.value.transfer == t
    ensures Coherence(Adopt(s, auto), t, approvals)
  {
    var s1 := s.(vault := Load(s.vault, s.now));
    LoadKeeps(s, t, approvals);
    if s1.vault.Some? {
      FreshKeeps(s1, s1.vault.value, auto.prepared, auto.fp, t, approvals);
    } else {
      StaleKeeps(s1, auto.rec, auto.prepared, auto.fp, t, approvals);
    }
  }

  // The handlers.

  lemma BeginKeeps(s: Saga, a: Action, ok: bool, t: string, approvals: set<string>)
    requires Coherence(s, t, approvals) && s.task.NoTask? && (a == DoQuote ==> s.auto.None?)
    ensures Coherence(Start(s, a, ok), t, approvals)
  {
    Everywhere(s, t, approvals);
    match a
    case DoResume => ResumeKeeps(s, t, approvals);
    case DoReconcile =>
      LoadKeeps(s, t, approvals);
      FrameKeeps(s.(vault := Load(s.vault, s.now)), BeginReconcile(s), t, approvals);
    case DoQuote =>
    case _ => FrameKeeps(s, Start(s, a, ok), t, approvals);
  }

  lemma ResumeKeeps(s: Saga, t: string, approvals: set<string>)
    requires Coherence(s, t, approvals) && s.task.NoTask?
    ensures Coherence(BeginResume(s), t, approvals)
  {
    var s1 := s.(vault := Load(s.vault, s.now));
    LoadKeeps(s, t, approvals);
    if s1.vault.Some? {
      var r := s1.vault.value;
      if r.inputs != s.inputs {
        FreshKeeps(s1, r, s.prepared, s.fp, t, approvals);
        FrameKeeps(ApplyResolved(Sync(s1, r), r, s.prepared, s.fp), BeginResume(s), t, approvals);
      } else {
        SyncKeeps(s1, r, t, approvals);
        Everywhere(Sync(s1, r), t, approvals);
      }
    }
  }

  lemma AutoKeeps(s: Saga, t: string, approvals: set<string>)
    requires Coherence(s, t, approvals) && !s.task.QuoteCall?
    ensures Coherence(AutoStart(s), t, approvals)
  {
    var s1 := s.(vault := Load(s.vault, s.now));
    LoadKeeps(s, t, approvals);
    if s1.vault.Some? {
      var r := s1.vault.value;
      if r.inputs != s.inputs {
        FreshKeeps(s1, r, s.prepared, s.fp, t, approvals);
        FrameKeeps(ApplyResolved(Sync(s1, r), r, s.prepared, s.fp),
                   ApplyResolved(Sync(s1, r), r, s.prepared, s.fp).(stage := ResumePending), t, approvals);
      } else {
        Everywhere(s1, t, approvals);
      }
    }
  }

  lemma DropAutoKeeps(s: Saga, t: string, approvals: set<string>)
    requires Coherence(s, t, approvals) && s.auto.Some?
    ensures Coherence(s.(auto := None), t, approvals) && !s.task.QuoteCall? && !s.task.ResumeStatus?
    ensures RecordOk(Some(s.auto.value.rec), approvals) && s.auto.value.rec.transfer == t
    ensures s.auto.value.rec.fp.Some? && s.prepared.Some? ==> s.prepared.value.transfer == t
  {
    Everywhere(s, t, approvals);
  }

  lemma AutoReplyKeeps(s: Saga, st: TransferStatus, t: string, approvals: set<string>)
    requires Coherence(s, t, approvals) && s.auto.Some?
    ensures Coherence(OnAuto(s, Some(st)), t, approvals)
  {
    var s0 := s.(auto := None);
    DropAutoKeeps(s, t, approvals);
    StatusKeeps(s0, st, t, approvals);
    AdoptKeeps(FetchStatus(s0, st), s.auto.value, t, approvals);
    FrameKeeps(Adopt(FetchStatus(s0, st), s.auto.value), OnAuto(s, Some(st)), t, approvals);
  }

  lemma LostKeeps(s: Saga, t: string, approvals: set<string>)
    requires Coherence(s, t, approvals)
    ensures s.auto.Some? ==> Coherence(OnAuto(s, None), t, approvals)
    ensures s.task.ResumeStatus? ==> Coherence(OnResumeStatus(s, None), t, approvals)
  {
    Everywhere(s, t, approvals);
  }

  function Resolved(s: Saga, st: TransferStatus): Saga
    requires s.task.ResumeStatus?
  {
    ApplyResolved(FetchStatus(s.(task := NoTask), st), s.task.rec, s.task.prepared, s.task.fp)
  }

  lemma ResolvedKeeps(s: Saga, st: TransferStatus, t: string, approvals: set<string>)
    requires Coherence(s, t, approvals) && s.task.ResumeStatus?
    ensures Coherence(Resolved(s, st), t, approvals)
  {
    Everywhere(s, t, approvals);
    var s0 := s.(task := NoTask);
    FrameKeeps(s, s0, t, approvals);
    StatusKeeps(s0, st, t, approvals);
    ResolveKeeps(FetchStatus(s0, st), s.task.rec, s.task.prepared, s.task.fp, t, approvals);
  }

  lemma ResumeReplyKeeps(s: Saga, st: TransferStatus, t: string, approvals: set<string>)
    requires Coherence(s, t, approvals) && s.task.ResumeStatus?
    ensures Coherence(OnResumeStatus(s, Some(st)), t, approvals)
  {
    ResolvedKeeps(s, st, t, approvals);
    FrameKeeps(Resolved(s, st), OnResumeStatus(s, Some(st)), t, approvals);
  }

  lemma ReattestKeeps(s: Saga, st: TransferStatus, t: string, approvals: set<string>)
    requires Coherence(s, t, approvals) && s.task.ReattestCall?
    ensures Coherence(OnReattest(s, Some(st)), t, approvals)
  {
    FrameKeeps(s, s.(task := NoTask), t, approvals);
    StatusKeeps(s.(task := NoTask), st, t, approvals);
  }

  lemma ReconciledKeeps(s: Saga, st: TransferStatus, t: string, approvals: set<string>)
    requires Coherence(s, t, approvals) && s.task.ReconcileStatus?
    ensures Coherence(OnReconcileStatus(s, Some(st)), t, approvals)
  {
    StatusKeeps(s, st, t, approvals);
    var s1 := HandleStatus(s, st);
    UnknownKeeps(s1, t, approvals);
    FrameKeeps(s1.(vault := SetStep(s1.vault, s1.now, Unknown), step := Unknown), OnReconcileStatus(s, Some(st)), t, approvals);
  }

  lemma ApprovedKeeps(s: Saga, st: TransferStatus, t: string, approvals: set<string>)
    requires Coherence(s, t, approvals) && s.task.ApproveStatus?
    ensures Coherence(OnApproveStatus(s, Ok(st)), t, approvals)
  {
    StatusKeeps(s, st, t, approvals);
    Everywhere(HandleStatus(s, st), t, approvals);
  }

  lemma SignedKeeps(s: Saga, x: Execution, t: string, approvals: set<string>)
    requires Coherence(s, t, approvals) && (s.task.ApproveWallet? || s.task.BurnWallet?)
    ensures Coherence(OnBurnWallet(s, Ok(x)), t, approvals)
  {
    Everywhere(s, t, approvals);
    if x.ready {
      FrameKeeps(s, OnBurnWallet(s, Ok(x)), t, approvals);
    } else {
      var role := if s.task.ApproveWallet? then Approval else Burn;
      var s1 := Note(s, Executed(role, s.task.prep.transfer, s.task.prep.payload, false, x.hash));
      FrameKeeps(s, s1, t, approvals);
      CommitKeeps(s1, x.hash, role, t, approvals);
    }
  }

  lemma BurnAckedKeeps(s: Saga, t: string, approvals: set<string>)
    requires Coherence(s, t, approvals) && (s.task.ApproveSubmit? || s.task.BurnSubmit?)
    ensures Coherence(OnBurnSubmit(s, Ok(())), t, approvals)
  {
    PendingKeeps(s, None, t, approvals);
    Everywhere(s.(vault := SetPending(s.vault, s.now, None)), t, approvals);
  }

  lemma MintSignedKeeps(s: Saga, x: Execution, t: string, approvals: set<string>)
    requires Coherence(s, t, approvals) && (s.task.TrustlineWallet? || s.task.MintWallet?)
    ensures Coherence(OnMintWallet(s, Some(x)), t, approvals)
  {
    Everywhere(s, t, approvals);
    if s.task.MintWallet? && !x.ready {
      var s1 := Note(s, Executed(Mint, s.task.mint.transfer, s.task.mint.payload, s.task.mint.trustline, x.hash));
      FrameKeeps(s, s1, t, approvals);
      CommitKeeps(s1, x.hash, Mint, t, approvals);
    } else {
      FrameKeeps(s, OnMintWallet(s, Some(x)), t, approvals);
    }
  }

  lemma AckKeeps(s: Saga, ack: bool, t: string, approvals: set<string>)
    requires Coherence(s, t, approvals)
    ensures s.task.MintSubmit? ==> Coherence(OnMintSubmit(s, ack), t, approvals)
    ensures s.task.ReconcileSubmit? ==> Coherence(OnReconcileSubmit(s, ack), t, approvals)
  {
    Everywhere(s, t, approvals);
    PendingKeeps(s, None, t, approvals);
    var s1 := if ack then s.(vault := SetPending(s.vault, s.now, None)) else s;
    if s.task.MintSubmit? { FrameKeeps(s1, OnMintSubmit(s, ack), t, approvals); }
    if s.task.ReconcileSubmit? { FrameKeeps(s1, OnReconcileSubmit(s, ack), t, approvals); }
  }

  lemma ReloadKeeps(s: Saga, t: string, approvals: set<string>)
    requires Coherence(s, t, approvals)
    ensures Coherence(Reload(s), t, approvals)
  {
    LoadKeeps(s, t, approvals);
    var loaded := Load(s.vault, s.now);
    Everywhere(s.(vault := loaded), t, approvals);
    var s0 := Init(s.inputs).(now := s.now, bridgeReady := s.bridgeReady, log := s.log, vault := loaded);
    assert Coherence(s0, t, approvals);
    if loaded.Some? {
      FreshKeeps(s0, loaded.value, None, None, t, approvals);
      FrameKeeps(ApplyResolved(Sync(s0, loaded.value), loaded.value, None, None), Reload(s), t, approvals);
    }
  }

  lemma QuoteKeeps(s: Saga, reply: Option<QuoteData>, t: string, approvals: set<string>)
    requires Coherence(s, t, approvals) && s.task.QuoteCall?
    ensures Coherence(OnQuote(s, reply), if reply.Some? then reply.value.transfer else t, approvals)
  {
    Everywhere(s, t, approvals);
  }

  lemma InputsKeep(s: Saga, inputs: string, ready: bool, t: string, approvals: set<string>)
    requires Coherence(s, t, approvals)
    ensures Coherence(ChangeInputs(s, inputs, ready), t, approvals)
  {
    Everywhere(s, t, approvals);
  }

  lemma OtherKeeps(s: Saga, e: Event, t: string, approvals: set<string>)
    requires Coherence(s, t, approvals) && Possible(s, e)
    requires e.Tick? || e.MintPrepReply? || e.ReceiptReply? || e.MintWalletReply? || e.StatusReply?
    requires e.MintWalletReply? ==> e.mintExec.None?
    requires e.StatusReply? ==> e.reply.None? && !s.task.ResumeStatus?
    ensures Coherence(Step(s, e), t, approvals)
  {
    TaskFits(s, t, approvals);
    match e
    case MintPrepReply(reply, roles) => FrameKeeps(s, OnMintPrep(s, reply, roles), t, approvals);
    case ReceiptReply(reply) => FrameKeeps(s, OnReceipt(s, reply), t, approvals);
    case MintWalletReply(_) => FrameKeeps(s, OnMintWallet(s, None), t, approvals);
    case StatusReply(_) =>
      FrameKeeps(s, s.(task := NoTask), t, approvals);
      FrameKeeps(s, s.(stage := Failed, task := NoTask), t, approvals);
    case Tick(ms) => FrameKeeps(s, s.(now := s.now + ms), t, approvals);
  }

  lemma BurnReplyKeeps(s: Saga, e: Event, t: string, approvals: set<string>)
    requires Coherence(s, t, approvals)
    requires e.BurnPrepReply? || e.BurnWalletReply? || e.BurnSubmitReply? || e.ApproveStatusReply?
    requires Possible(s, e) && Answered(s, e) && Flagged(e, approvals)
    ensures Coherence(Step(s, e), t, approvals)
  {
    match e
    case BurnPrepReply(Ok(p)) =>
      PersistKeeps(s, p, t, approvals);
      FrameKeeps(PersistPrepare(s.(task := NoTask), p), Step(s, e), t, approvals);
    case BurnWalletReply(Ok(x)) => SignedKeeps(s, x, t, approvals);
    case BurnSubmitReply(Ok(_)) => BurnAckedKeeps(s, t, approvals);
    case ApproveStatusReply(Ok(st)) => ApprovedKeeps(s, st, t, approvals);
    case BurnPrepReply(Err(f)) =>
      ClearingKeeps(s, f, t, approvals);
      FrameKeeps(s, s.(task := NoTask), t, approvals);
      ClearingKeeps(s.(task := NoTask), f, t, approvals);
    case BurnWalletReply(Err(f)) => ClearingKeeps(s, f, t, approvals);
    case BurnSubmitReply(Err(f)) => ClearingKeeps(s, f, t, approvals);
    case ApproveStatusReply(Err(f)) => ClearingKeeps(s, f, t, approvals);
  }

  /** The transfer at hand after an event. */
  function TransferAfter(t: string, e: Event): string {
    if e.QuoteReply? && e.quote.Some? then e.quote.value.transfer else t
  }

  lemma CoherenceKept(s: Saga, e: Event, t: string, approvals: set<string>)
    requires Coherence(s, t, approvals)
    requires Possible(s, e) && Answered(s, e) && Flagged(e, approvals) && Apart(s, e)
    ensures Coherence(Step(s, e), TransferAfter(t, e), approvals)
  {
    match e
    case Begin(a, ok) => BeginKeeps(s, a, ok, t, approvals);
    case AutoEffect => AutoKeeps(s, t, approvals);
    case AutoReply(Some(st)) => AutoReplyKeeps(s, st, t, approvals);
    case AutoReply(None) => LostKeeps(s, t, approvals);
    case Polled(st) => StatusKeeps(s, st, t, approvals);
    case ResetPressed => ClearingKeeps(s, OtherFailure, t, approvals);
    case Reloaded => ReloadKeeps(s, t, approvals);
    case QuoteReply(reply) => QuoteKeeps(s, reply, t, approvals);
    case InputsChanged(inputs, ready) => InputsKeep(s, inputs, ready, t, approvals);
    case MintWalletReply(Some(x)) => MintSignedKeeps(s, x, t, approvals);
    case MintSubmitReply(ack) => AckKeeps(s, ack, t, approvals);
    case ReconcileSubmitReply(ack) => AckKeeps(s, ack, t, approvals);
    case StatusReply(Some(st)) =>
      if s.task.ResumeStatus? { ResumeReplyKeeps(s, st, t, approvals); }
      else if s.task.ReattestCall? { ReattestKeeps(s, st, t, approvals); }
      else { ReconciledKeeps(s, st, t, approvals); }
    case StatusReply(None) =>
      if s.task.ResumeStatus? { LostKeeps(s, t, approvals); } else { OtherKeeps(s, e, t, approvals); }
    case BurnPrepReply(_) | BurnWalletReply(_) | BurnSubmitReply(_) | ApproveStatusReply(_) =>
      BurnReplyKeeps(s, e, t, approvals);
    case _ => OtherKeeps(s, e, t, approvals);
  }

  /** In every state of a run that keeps quotes and auto-reconciles apart. */
  lemma {:induction false} CoherentRun(states: seq<Saga>, events: seq<Event>, rules: Rules, n: nat) returns (t: string)
    requires IsRun(states, events, rules) && Tied(rules) && n <= |events|
    ensures Coherence(states[n], t, rules.approvals)
  {
    if n == 0 {
      t := "";
      assert states[0] == Init(states[0].inputs);
    } else {
      t := CoherentRun(states, events, rules, n - 1);
      CoherenceKept(states[n - 1], events[n - 1], t, rules.approvals);
      t := TransferAfter(t, events[n - 1]);
    }
  }

  /** What a step shown as ready rests on, and when an offered signature passes its own guard. */
  predicate Backed(s: Saga) {
    && (BurnStepOf(s).Ready() ==>
          && s.prepared.Some?
          && s.now / 1000 < s.prepared.value.expiresAt
          && s.fp == Some(Fingerprint(s.prepared.value.payload))
          && s.prepared.value.approval == (BurnStepOf(s) == ApprovalReady)
          && (s.session.Some? ==> s.prepared.value.transfer == s.session.value.transfer))
    && (PrimaryAction(s) == DoApprove ==> (MaySign(s, Approval) <==> s.session.Some?))
    && (PrimaryAction(s) == DoBurn ==> (MaySign(s, Burn) <==> s.session.Some?))
  }

  /**
    Payload coherence: a step shown as ready is backed by an unexpired payload of the current
    transfer whose fingerprint and approval flag match, so an offered approve or burn passes
    the signing guard exactly when there still is a session.
   */
  lemma PayloadCoherence(states: seq<Saga>, events: seq<Event>, rules: Rules, n: nat)
    requires IsRun(states, events, rules) && Tied(rules) && n <= |events|
    ensures Backed(states[n])
  {
    var t := CoherentRun(states, events, rules, n);
    Everywhere(states[n], t, rules.approvals);
  }
}
