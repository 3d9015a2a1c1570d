/**
  The cross-chain burn/mint saga: `frontend/hooks/useCctpSaga.ts` with the
  recovery record of `frontend/lib/cctp/session-vault.ts`.

  Every handler of the hook is cut at its `await`s. One `Event` is one stretch of
  code that runs without giving up the event loop: a user action up to its first
  await, or the continuation that runs when a reply arrives. What the remaining
  code of an action still needs (the captured session and payload) is kept in a
  `Task`. Poll results, the auto-reconcile effect, resets, reloads and the clock
  may come between any two of them. Wallet, API and chain answer as they like.
 */
module CctpSaga {
  import opened Options
  import opened Strings

  // --- What the server and the wallet exchange ---------------------------------

  datatype Payload =
    | StellarXdr(passphrase: string, xdr: string)
      // chain id, lower-cased recipient, call data, value and the gas fields
    | EvmTransaction(fields: seq<string>)

  datatype BurnPrep = BurnPrep(transfer: string, payload: Payload, expiresAt: nat, approval: bool)
  datatype MintPrep = MintPrep(transfer: string, payload: Payload, trustline: bool)

  function Fingerprint(p: Payload): string {
    match p
    case StellarXdr(passphrase, xdr) => "stellar:" + passphrase + ":" + xdr
    case EvmTransaction(fields) => Join(["evm"] + fields, "|")
  }

  datatype Role = Approval | Burn | Trustline | Mint

  datatype TransferStatus =
    | Created | BurnPrepared | BurnSubmitted | Attesting | AttestationReady | MintPrepared
    | MintSubmitted | Done | AttestationFailed | MintFailedRetryable | Cancelled | ProviderKilled

  datatype Failure = QuoteExpired | StaleSequence | OtherFailure

  // --- The recovery record and its single storage cell --------------------------

  datatype BurnStep = Unknown | ApprovalReady | BurnReady | ReprepareRequired {
    predicate Ready() { this == ApprovalReady || this == BurnReady }
  }

  datatype Pending = Pending(hash: string, role: Role, expiresAt: nat)

  datatype Record = Record(
    transfer: string, key: string, expiresAt: nat, inputs: string,
    step: Option<BurnStep>, fp: Option<string>, pending: Option<Pending>)

  const PENDING_TTL_MS: nat := 30 * 60 * 1000

  /** `loadCctpSession`: the loaded record, which is also what the cell holds afterwards. */
  function Load(vault: Option<Record>, now: nat): Option<Record> {
    match vault
    case None => None
    case Some(r) =>
      if r.expiresAt <= now then None
      else if r.pending.Some? && r.pending.value.expiresAt <= now then Some(r.(pending := None))
      else vault
  }

  /** A later load sees the same whether or not an earlier one has already cleaned the cell. */
  lemma LoadingIsUnobservable(vault: Option<Record>, earlier: nat, now: nat)
    requires earlier <= now
    ensures Load(Load(vault, earlier), now) == Load(vault, now)
  {
  }

  /** What is loaded is live: the stored record, unexpired, with its pending entry if that is unexpired too. */
  lemma LoadedIsLive(vault: Option<Record>, now: nat)
    ensures Load(vault, now).Some? <==> vault.Some? && now < vault.value.expiresAt
    ensures Load(vault, now).Some? ==>
      var r := Load(vault, now).value;
      && r == vault.value.(pending := r.pending)
      && (r.pending.Some? <==> vault.value.pending.Some? && now < vault.value.pending.value.expiresAt)
      && (r.pending.Some? ==> r.pending == vault.value.pending)
  {
  }

  // The patches the hook applies to a record; a patch of a missing record is dropped.

  function SetStep(vault: Option<Record>, now: nat, step: BurnStep): Option<Record> {
    match Load(vault, now)
    case None => None
    case Some(r) => Some(r.(step := Some(step)))
  }

  function SetPrepare(vault: Option<Record>, now: nat, step: BurnStep, fp: Option<string>): Option<Record> {
    match Load(vault, now)
    case None => None
    case Some(r) => Some(r.(step := Some(step), fp := fp))
  }

  function SetPending(vault: Option<Record>, now: nat, pending: Option<Pending>): Option<Record> {
    match Load(vault, now)
    case None => None
    case Some(r) => Some(r.(pending := pending))
  }

  datatype Revision = Revision(transfer: string, key: string, hash: string)

  function RevisionOf(r: Record): Revision {
    Revision(r.transfer, r.key, if r.pending.Some? then r.pending.value.hash else "")
  }

  // --- The state of the hook ---------------------------------------------------

  datatype Stage =
    | Idle | Quoting | Quoted | SignApproval | SignBurn | SignTrustline | SignMint
    | AwaitingAttestation | Completed | Failed | Unavailable | ResumePending | PendingReconcile

  /** Where a busy action waits; `rec` is the session its closure captured. */
  datatype Task =
    | NoTask
    | QuoteCall(inputs: string)
    | PrepareCall(rec: Record)
    | ApproveWallet(rec: Record, prep: BurnPrep)
    | ApproveSubmit(rec: Record)
    | ApproveStatus(rec: Record)
    | ApprovePrepare(rec: Record)
    | BurnWallet(rec: Record, prep: BurnPrep)
    | BurnSubmit(rec: Record)
    | MintPrepare(rec: Record)
    | TrustlineWallet(rec: Record, mint: MintPrep)
    | MintReprepare(rec: Record)
    | MintWallet(rec: Record, mint: MintPrep)
    | MintSubmit(rec: Record)
    | ReconcileReceipt(rec: Record, pending: Pending)
    | ReconcileSubmit(rec: Record, pending: Pending)
    | ReconcileStatus(rec: Record)
    | ResumeStatus(rec: Record, prepared: Option<BurnPrep>, fp: Option<string>)
    | ReattestCall(rec: Record)

  /** An auto-reconcile in flight, with what its closure captured. */
  datatype Reconcile = Reconcile(rec: Record, prepared: Option<BurnPrep>, fp: Option<string>)

  /** What the outside world observes. */
  datatype Act =
    | WalletRequest(role: Role, transfer: string)
    | Executed(role: Role, transfer: string, payload: Payload, trustline: bool, hash: string)
    | SubmittedBurn(transfer: string, hash: string)
    | SubmittedMint(transfer: string, hash: string)

  datatype Saga = Saga(
    now: nat,                       // milliseconds
    inputs: string,                 // chains, amount and recipient of the form
    bridgeReady: bool,
    vault: Option<Record>,          // survives a reload; everything below does not
    stage: Stage,
    session: Option<Record>,
    step: BurnStep,
    prepared: Option<BurnPrep>,
    fp: Option<string>,
    status: Option<TransferStatus>,
    seen: Option<Revision>,
    task: Task,
    auto: Option<Reconcile>,
    log: seq<Act>)

  function Init(inputs: string): Saga {
    Saga(0, inputs, true, None, Idle, None, Unknown, None, None, None, None, NoTask, None, [])
  }

  // --- Payload usability and burn steps (pure helpers) ---------------------------

  predicate Usable(prepared: Option<BurnPrep>, expected: Option<string>, now: nat) {
    && prepared.Some?
    && now / 1000 < prepared.value.expiresAt
    && (expected.Some? ==> Fingerprint(prepared.value.payload) == expected.value)
  }

  function ResolveVaultStep(step: Option<BurnStep>, prepared: Option<BurnPrep>, fp: Option<string>, now: nat): BurnStep {
    match step
    case None => Unknown
    case Some(b) => EffectiveStep(b, prepared, fp, now)
  }

  function EffectiveStep(step: BurnStep, prepared: Option<BurnPrep>, fp: Option<string>, now: nat): BurnStep {
    if step.Ready() && !Usable(prepared, fp, now) then ReprepareRequired else step
  }

  /** The step the user interface acts on. */
  function BurnStepOf(s: Saga): BurnStep {
    EffectiveStep(s.step, s.prepared,
                  Or(s.fp, if s.session.Some? then s.session.value.fp else None),
                  s.now)
  }

  function StageOf(st: TransferStatus, stage: Stage): Stage {
    match st
    case Done => Completed
    case Attesting | BurnSubmitted => AwaitingAttestation
    case AttestationReady | MintPrepared | MintFailedRetryable => SignMint
    case AttestationFailed => Failed
    case ProviderKilled => Unavailable
    case _ => stage
  }

  predicate Terminal(st: TransferStatus) {
    st == Done || st == Cancelled || st == ProviderKilled
  }

  // --- State changes shared by several handlers ----------------------------------

  function Sync(s: Saga, r: Record): Saga {
    s.(session := Some(r),
       stage := if r.pending.Some? then PendingReconcile else s.stage,
       fp := Or(r.fp, s.fp))
  }

  function ApplyResolved(s: Saga, r: Record, prepared: Option<BurnPrep>, fp: Option<string>): Saga {
    var resolved := ResolveVaultStep(r.step, prepared, Or(r.fp, fp), s.now);
    if resolved == ReprepareRequired && r.step != Some(ReprepareRequired) then
      var patched := SetStep(s.vault, s.now, ReprepareRequired);
      s.(step := resolved, vault := patched, session := Or(patched, s.session))
    else
      s.(step := resolved)
  }

  function HandleStatus(s: Saga, st: TransferStatus): Saga {
    var s1 := s.(status := Some(st), stage := StageOf(st, s.stage),
                 vault := if Terminal(st) then None else s.vault);
    if st == Done then s1.(session := None, step := Unknown) else s1
  }

  function FetchStatus(s: Saga, st: TransferStatus): Saga {
    var s1 := HandleStatus(s, st);
    if st == Done then s1.(prepared := None, fp := None) else s1
  }

  function AbortExpiredQuote(s: Saga): Saga {
    s.(vault := None, session := None, status := None, prepared := None, fp := None,
       step := Unknown, stage := Idle)
  }

  function PersistPrepare(s: Saga, p: BurnPrep): Saga {
    var step := if p.approval then ApprovalReady else BurnReady;
    var fp := Some(Fingerprint(p.payload));
    var patched := SetPrepare(s.vault, s.now, step, fp);
    s.(fp := fp, prepared := Some(p), step := step, vault := patched,
       session := Or(patched, s.session))
  }

  function CommitPending(s: Saga, hash: string, role: Role): Saga {
    var patched := SetPending(s.vault, s.now, Some(Pending(hash, role, s.now + PENDING_TTL_MS)));
    var s1 := s.(vault := patched, task := NoTask);
    if patched.Some? then
      Sync(s1, patched.value).(seen := Some(RevisionOf(patched.value)), stage := PendingReconcile)
    else
      s1.(stage := PendingReconcile)
  }

  /** The catch clause of both source-chain signing steps. */
  function SignFailed(s: Saga, f: Failure): Saga {
    var s1 := s.(task := NoTask);
    match f
    case StaleSequence =>
      s1.(prepared := None, fp := None, step := ReprepareRequired, stage := Quoted,
          vault := SetPrepare(s.vault, s.now, ReprepareRequired, None))
    case QuoteExpired => AbortExpiredQuote(s1)
    case OtherFailure => s1.(stage := Failed)
  }

  function Note(s: Saga, a: Act): Saga { s.(log := s.log + [a]) }

  // --- User actions, up to their first await -------------------------------------

  function BeginQuote(s: Saga, built: bool): Saga {
    if !s.bridgeReady then s.(stage := Unavailable)
    else if !built then s.(stage := Failed, step := Unknown)
    else s.(stage := Quoting, step := Unknown, task := QuoteCall(s.inputs))
  }

  function BeginPrepare(s: Saga, rolesOk: bool): Saga {
    if s.session.None? || !rolesOk then s else s.(task := PrepareCall(s.session.value))
  }

  /** The signing step's own guard. */
  predicate MaySign(s: Saga, role: Role) {
    && s.session.Some? && s.prepared.Some?
    && (role == Approval || role == Burn)
    && s.prepared.value.approval == (role == Approval)
    && EffectiveStep(s.step, s.prepared, s.fp, s.now) == (if role == Approval then ApprovalReady else BurnReady)
  }

  function BeginApprove(s: Saga, rolesOk: bool): Saga {
    if !rolesOk || !MaySign(s, Approval) then s
    else Note(s.(stage := SignApproval, task := ApproveWallet(s.session.value, s.prepared.value)),
              WalletRequest(Approval, s.prepared.value.transfer))
  }

  function BeginBurn(s: Saga, rolesOk: bool): Saga {
    if !rolesOk || !MaySign(s, Burn) then s
    else Note(s.(stage := SignBurn, task := BurnWallet(s.session.value, s.prepared.value)),
              WalletRequest(Burn, s.prepared.value.transfer))
  }

  function BeginMint(s: Saga): Saga {
    if s.session.None? then s else s.(task := MintPrepare(s.session.value))
  }

  /** `cooled` is false while the last re-attestation is too recent. */
  function BeginReattest(s: Saga, cooled: bool): Saga {
    if s.session.None? || !cooled then s else s.(task := ReattestCall(s.session.value))
  }

  function BeginReconcile(s: Saga): Saga {
    var loaded := Load(s.vault, s.now);
    var s1 := s.(vault := loaded);
    var pending := if loaded.Some? then loaded.value.pending
                   else if s.session.Some? then s.session.value.pending else None;
    if s.session.None? || pending.None? then s1
    else s1.(task := ReconcileReceipt(s.session.value, pending.value))
  }

  function BeginResume(s: Saga): Saga {
    match Load(s.vault, s.now)
    case None => s.(vault := None)
    case Some(r) =>
      var s1 := Sync(s.(vault := Some(r)), r);
      if r.inputs != s.inputs then
        ApplyResolved(s1, r, s.prepared, s.fp).(stage := ResumePending)
      else
        s1.(task := ResumeStatus(r, s.prepared, s.fp), auto := None)
  }

  // --- Continuations ---------------------------------------------------------------

  datatype QuoteData = QuoteData(transfer: string, key: string, expiresAt: nat)

  function OnQuote(s: Saga, reply: Option<QuoteData>): Saga
    requires s.task.QuoteCall?
  {
    match reply
    case None => s.(stage := Failed, task := NoTask)
    case Some(q) =>
      var r := Record(q.transfer, q.key, q.expiresAt, s.task.inputs, Some(Unknown), None, None);
      Sync(s.(vault := Some(r), task := NoTask), r).(stage := Quoted)
  }

  function OnBurnPrep(s: Saga, reply: Result<BurnPrep, Failure>): Saga
    requires s.task.PrepareCall? || s.task.ApprovePrepare?
  {
    match reply
    case Ok(p) => PersistPrepare(s.(task := NoTask), p).(stage := Quoted)
    case Err(f) =>
      if s.task.ApprovePrepare? then SignFailed(s, f)
      else if f == QuoteExpired then AbortExpiredQuote(s.(task := NoTask))
      else s.(task := NoTask)
  }

  datatype Execution = Execution(hash: string, ready: bool)

  function OnBurnWallet(s: Saga, reply: Result<Execution, Failure>): Saga
    requires s.task.ApproveWallet? || s.task.BurnWallet?
  {
    var role := if s.task.ApproveWallet? then Approval else Burn;
    match reply
    case Err(f) => SignFailed(s, f)
    case Ok(x) =>
      var s1 := Note(s, Executed(role, s.task.prep.transfer, s.task.prep.payload, false, x.hash));
      if !x.ready then CommitPending(s1, x.hash, role)
      else Note(s1, SubmittedBurn(s.task.rec.transfer, x.hash))
           .(task := if role == Approval then ApproveSubmit(s.task.rec) else BurnSubmit(s.task.rec))
  }

  function OnBurnSubmit(s: Saga, reply: Result<(), Failure>): Saga
    requires s.task.ApproveSubmit? || s.task.BurnSubmit?
  {
    match reply
    case Err(f) => SignFailed(s, f)
    case Ok(_) =>
      var cleared := SetPending(s.vault, s.now, None);
      if s.task.ApproveSubmit? then
        s.(vault := cleared, task := ApproveStatus(s.task.rec))
      else
        s.(vault := SetStep(cleared, s.now, Unknown), prepared := None, step := Unknown,
           stage := AwaitingAttestation, task := NoTask)
  }

  function OnApproveStatus(s: Saga, reply: Result<TransferStatus, Failure>): Saga
    requires s.task.ApproveStatus?
  {
    match reply
    case Err(f) => SignFailed(s, f)
    case Ok(st) =>
      var s1 := HandleStatus(s, st);
      s1.(prepared := None, fp := None, step := Unknown,
          vault := SetPrepare(s1.vault, s.now, Unknown, None),
          task := ApprovePrepare(s.task.rec))
  }

  function OnMintPrep(s: Saga, reply: Option<MintPrep>, rolesOk: bool): Saga
    requires s.task.MintPrepare? || s.task.MintReprepare?
  {
    match reply
    case None => s.(stage := Failed, task := NoTask)
    case Some(m) =>
      if s.task.MintReprepare? && m.trustline then s.(stage := Failed, task := NoTask)
      else if !rolesOk then s.(task := NoTask)
      else if m.trustline && m.payload.StellarXdr? then
        Note(s.(stage := SignTrustline, task := TrustlineWallet(s.task.rec, m)), WalletRequest(Trustline, m.transfer))
      else
        Note(s.(stage := SignMint, task := MintWallet(s.task.rec, m)), WalletRequest(Mint, m.transfer))
  }

  function OnMintWallet(s: Saga, reply: Option<Execution>): Saga
    requires s.task.TrustlineWallet? || s.task.MintWallet?
  {
    var role := if s.task.TrustlineWallet? then Trustline else Mint;
    match reply
    case None => s.(stage := Failed, task := NoTask)
    case Some(x) =>
      var m := s.task.mint;
      var s1 := Note(s, Executed(role, m.transfer, m.payload, m.trustline, x.hash));
      if role == Trustline then
        if x.ready then s1.(task := MintReprepare(s.task.rec)) else s1.(stage := Failed, task := NoTask)
      else if x.ready then
        Note(s1, SubmittedMint(s.task.rec.transfer, x.hash)).(task := MintSubmit(s.task.rec))
      else
        CommitPending(s1, x.hash, Mint)
  }

  function OnMintSubmit(s: Saga, accepted: bool): Saga
    requires s.task.MintSubmit?
  {
    if accepted then s.(vault := SetPending(s.vault, s.now, None), task := NoTask)
    else s.(stage := Failed, task := NoTask)
  }

  /** `reply` is None when the transaction reverted or the receipt poll threw. */
  function OnReceipt(s: Saga, reply: Option<bool>): Saga
    requires s.task.ReconcileReceipt?
  {
    var Pending(hash, role, _) := s.task.pending;
    match reply
    case None => s.(stage := Failed, task := NoTask)
    case Some(ready) =>
      if !ready then s.(stage := PendingReconcile, task := NoTask)
      else
        Note(s, if role == Mint then SubmittedMint(s.task.rec.transfer, hash)
                else SubmittedBurn(s.task.rec.transfer, hash))
        .(task := ReconcileSubmit(s.task.rec, s.task.pending))
  }

  function OnReconcileSubmit(s: Saga, accepted: bool): Saga
    requires s.task.ReconcileSubmit?
  {
    if !accepted then s.(stage := Failed, task := NoTask)
    else
      var s1 := s.(vault := SetPending(s.vault, s.now, None), task := NoTask);
      match s.task.pending.role
      case Approval => s1.(task := ReconcileStatus(s.task.rec))
      case Burn => s1.(stage := AwaitingAttestation)
      case _ => s1
  }

  function OnReconcileStatus(s: Saga, reply: Option<TransferStatus>): Saga
    requires s.task.ReconcileStatus?
  {
    match reply
    case None => s.(stage := Failed, task := NoTask)
    case Some(st) =>
      var s1 := HandleStatus(s, st);
      s1.(step := Unknown, vault := SetStep(s1.vault, s.now, Unknown), stage := Quoted, task := NoTask)
  }

  function LostAuthorization(s: Saga): Saga {
    s.(vault := None, session := None, stage := Idle, seen := None)
  }

  function OnResumeStatus(s: Saga, reply: Option<TransferStatus>): Saga
    requires s.task.ResumeStatus?
  {
    var ResumeStatus(r, prepared, fp) := s.task;
    match reply
    case None => LostAuthorization(s.(task := NoTask))
    case Some(st) =>
      var s1 := ApplyResolved(FetchStatus(s.(task := NoTask), st), r, prepared, fp);
      if r.pending.Some? then s1.(stage := PendingReconcile)
      else if !Terminal(st) then s1.(stage := Quoted)
      else s1
  }

  function OnReattest(s: Saga, reply: Option<TransferStatus>): Saga
    requires s.task.ReattestCall?
  {
    var s1 := s.(task := NoTask);
    if reply.Some? then HandleStatus(s1, reply.value) else s1
  }

  // --- Effects that run beside the actions -----------------------------------------

  function AutoStart(s: Saga): Saga {
    if !s.bridgeReady || s.session.None? then s else
    match Load(s.vault, s.now)
    case None => s.(vault := None)
    case Some(r) =>
      var s1 := s.(vault := Some(r));
      if s.seen == Some(RevisionOf(r)) then s1
      else if r.inputs != s.inputs then
        ApplyResolved(Sync(s1, r), r, s.prepared, s.fp).(stage := ResumePending)
      else
        s1.(seen := Some(RevisionOf(r)), auto := Some(Reconcile(r, s.prepared, s.fp)),
            task := if s.task.ResumeStatus? then NoTask else s.task)
  }

  /** The freshly loaded record, or the captured one when the vault no longer has any. */
  function ActiveRecord(vault: Option<Record>, now: nat, captured: Record): Record {
    var loaded := Load(vault, now);
    if loaded.Some? then loaded.value else captured
  }

  function Adopt(s: Saga, auto: Reconcile): Saga {
    var active := ActiveRecord(s.vault, s.now, auto.rec);
    ApplyResolved(Sync(s.(vault := Load(s.vault, s.now)), active), active, auto.prepared, auto.fp)
  }

  function OnAuto(s: Saga, reply: Option<TransferStatus>): Saga
    requires s.auto.Some?
  {
    match reply
    case None => LostAuthorization(s.(auto := None))
    case Some(st) =>
      var s1 := FetchStatus(s.(auto := None), st);
      var s2 := Adopt(s1, s.auto.value);
      if ActiveRecord(s1.vault, s.now, s.auto.value.rec).pending.Some? then s2.(stage := PendingReconcile)
      else if !Terminal(st) && s2.stage != Failed then s2.(stage := Quoted)
      else s2
  }

  predicate InputsLocked(s: Saga) {
    s.session.Some? && s.stage !in {Idle, Completed, Failed, Unavailable}
  }

  function ChangeInputs(s: Saga, inputs: string, ready: bool): Saga {
    var s1 := s.(inputs := inputs, bridgeReady := ready);
    if inputs != s.inputs && !InputsLocked(s) then
      s1.(step := Unknown, stage := if s.stage == Quoted then Idle else s.stage)
    else s1
  }

  function Reset(s: Saga): Saga {
    s.(vault := None, session := None, status := None, stage := Idle, step := Unknown,
       fp := None, prepared := None, seen := None, auto := None,
       task := if s.task.ResumeStatus? then NoTask else s.task)
  }

  /** A page reload keeps only the vault; mounting the hook loads it. */
  function Reload(s: Saga): Saga {
    var s0 := Init(s.inputs).(now := s.now, bridgeReady := s.bridgeReady, log := s.log);
    match Load(s.vault, s.now)
    case None => s0
    case Some(r) =>
      var s1 := ApplyResolved(Sync(s0.(vault := Some(r)), r), r, None, None);
      s1.(stage := if r.inputs == s.inputs && r.pending.Some? then PendingReconcile else ResumePending)
  }

  // --- The transition system ---------------------------------------------------------

  datatype Action = NoAction | DoQuote | DoPrepare | DoApprove | DoBurn | DoMint | DoReattest | DoReconcile | DoResume

  datatype Event =
    | Tick(ms: nat)
    | InputsChanged(inputs: string, ready: bool)
    | ResetPressed
    | Reloaded
    | Polled(polled: TransferStatus)
    | AutoEffect
    | AutoReply(status: Option<TransferStatus>)
    | Begin(action: Action, ok: bool)
    | QuoteReply(quote: Option<QuoteData>)
    | BurnPrepReply(burnPrep: Result<BurnPrep, Failure>)
    | BurnWalletReply(burnExec: Result<Execution, Failure>)
    | BurnSubmitReply(burnAck: Result<(), Failure>)
    | ApproveStatusReply(approveStatus: Result<TransferStatus, Failure>)
    | MintPrepReply(mintPrep: Option<MintPrep>, roles: bool)
    | MintWalletReply(mintExec: Option<Execution>)
    | MintSubmitReply(mintAck: bool)
    | ReceiptReply(receipt: Option<bool>)
    | ReconcileSubmitReply(reconcileAck: bool)
    | StatusReply(reply: Option<TransferStatus>)

  function Start(s: Saga, a: Action, ok: bool): Saga {
    match a
    case NoAction => s
    case DoQuote => BeginQuote(s, ok)
    case DoPrepare => BeginPrepare(s, ok)
    case DoApprove => BeginApprove(s, ok)
    case DoBurn => BeginBurn(s, ok)
    case DoMint => BeginMint(s)
    case DoReattest => BeginReattest(s, ok)
    case DoReconcile => BeginReconcile(s)
    case DoResume => BeginResume(s)
  }

  /** Replies meant for another wait, and actions started while busy, never happen. */
  predicate Possible(s: Saga, e: Event) {
    match e
    case Begin(_, _) => s.task.NoTask?
    case AutoReply(_) => s.auto.Some?
    case QuoteReply(_) => s.task.QuoteCall?
    case BurnPrepReply(_) => s.task.PrepareCall? || s.task.ApprovePrepare?
    case BurnWalletReply(_) => s.task.ApproveWallet? || s.task.BurnWallet?
    case BurnSubmitReply(_) => s.task.ApproveSubmit? || s.task.BurnSubmit?
    case ApproveStatusReply(_) => s.task.ApproveStatus?
    case MintPrepReply(_, _) => s.task.MintPrepare? || s.task.MintReprepare?
    case MintWalletReply(_) => s.task.TrustlineWallet? || s.task.MintWallet?
    case MintSubmitReply(_) => s.task.MintSubmit?
    case ReceiptReply(_) => s.task.ReconcileReceipt?
    case ReconcileSubmitReply(_) => s.task.ReconcileSubmit?
    case StatusReply(_) => s.task.ReconcileStatus? || s.task.ResumeStatus? || s.task.ReattestCall?
    case _ => true
  }

  function Step(s: Saga, e: Event): Saga
    requires Possible(s, e)
  {
    match e
    case Tick(ms) => s.(now := s.now + ms)
    case InputsChanged(inputs, ready) => ChangeInputs(s, inputs, ready)
    case ResetPressed => Reset(s)
    case Reloaded => Reload(s)
    case Polled(st) => HandleStatus(s, st)
    case AutoEffect => AutoStart(s)
    case AutoReply(reply) => OnAuto(s, reply)
    case Begin(a, ok) => Start(s, a, ok)
    case QuoteReply(reply) => OnQuote(s, reply)
    case BurnPrepReply(reply) => OnBurnPrep(s, reply)
    case BurnWalletReply(reply) => OnBurnWallet(s, reply)
    case BurnSubmitReply(reply) => OnBurnSubmit(s, reply)
    case ApproveStatusReply(reply) => OnApproveStatus(s, reply)
    case MintPrepReply(reply, roles) => OnMintPrep(s, reply, roles)
    case MintWalletReply(reply) => OnMintWallet(s, reply)
    case MintSubmitReply(ack) => OnMintSubmit(s, ack)
    case ReceiptReply(reply) => OnReceipt(s, reply)
    case ReconcileSubmitReply(ack) => OnReconcileSubmit(s, ack)
    case StatusReply(reply) =>
      if s.task.ReconcileStatus? then OnReconcileStatus(s, reply)
      else if s.task.ResumeStatus? then OnResumeStatus(s, reply)
      else OnReattest(s, reply)
  }

  /** `primaryAction`: the one action the user interface offers, NoAction when it is disabled. */
  function PrimaryAction(s: Saga): Action {
    if !s.bridgeReady then NoAction
    else if s.stage == PendingReconcile || (s.session.Some? && s.session.value.pending.Some?) then DoReconcile
    else if s.stage == ResumePending then DoResume
    else if s.stage == Completed || s.status == Some(Done) then NoAction
    else if s.status in {Some(AttestationReady), Some(MintPrepared), Some(MintFailedRetryable)} then DoMint
    else if s.stage == Idle || s.stage == Failed then DoQuote
    else if s.stage == Quoted then
      match BurnStepOf(s)
      case ApprovalReady => DoApprove
      case BurnReady => DoBurn
      case _ => DoPrepare
    else if s.status == Some(AttestationFailed) then DoReattest
    else NoAction
  }
}
