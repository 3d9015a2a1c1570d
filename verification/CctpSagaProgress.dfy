/**
  What the offered button does and where friendly answers lead: from a quote to the submitted mint.

  Every statement is about the state and the log after a press, never about which action is offered.
 */
module CctpSagaProgress {
  import opened Options
  import opened CctpSaga
  import opened CctpSagaPending

  /** The user presses the offered button. */
  function Press(s: Saga, ok: bool): Saga
    requires s.task.NoTask?
  {
    Step(s, Begin(PrimaryAction(s), ok))
  }

  predicate MintDue(status: Option<TransferStatus>) {
    status in {Some(AttestationReady), Some(MintPrepared), Some(MintFailedRetryable)}
  }

  /** Nothing is under way, the bridge is there, and no pending transaction is shown. */
  predicate AtRest(s: Saga) {
    s.task.NoTask? && s.bridgeReady && Shown(s).None?
  }

  /** The transfer is neither completed nor waiting for its mint. */
  predicate BeforeMint(s: Saga) {
    s.status != Some(Done) && !MintDue(s.status)
  }

  // --- What a press does --------------------------------------------------------------

  /** With the bridge away, or after completion, or while the attestation is awaited, it does nothing. */
  lemma PressIsInert(s: Saga, ok: bool)
    requires s.task.NoTask?
    requires
      || !s.bridgeReady
      || (AtRest(s) && s.stage !in {PendingReconcile, ResumePending} && (s.stage == Completed || s.status == Some(Done)))
      || (AtRest(s) && s.stage == AwaitingAttestation
          && s.status in {None, Some(Created), Some(BurnSubmitted), Some(Attesting)})
    ensures Press(s, ok) == s
  {
  }

  /** Idle or failed, it requests a quote for the current inputs. */
  lemma PressQuotes(s: Saga)
    requires AtRest(s) && s.stage in {Idle, Failed} && BeforeMint(s)
    ensures Press(s, true) == s.(stage := Quoting, step := Unknown, task := QuoteCall(s.inputs))
    ensures Press(s, false) == s.(stage := Failed, step := Unknown)
  {
  }

  /** Quoted with nothing prepared, it prepares the session's transfer. */
  lemma PressPrepares(s: Saga)
    requires AtRest(s) && s.stage == Quoted && s.session.Some? && BeforeMint(s)
    requires s.prepared.None? || !s.step.Ready()
    ensures Press(s, true) == s.(task := PrepareCall(s.session.value)) && Press(s, false) == s
  {
  }

  /** Quoted with a fitting payload, it asks the wallet for that payload's signature, in its own role. */
  lemma PressSigns(s: Saga, p: BurnPrep)
    requires AtRest(s) && s.stage == Quoted && s.session.Some? && BeforeMint(s)
    requires s.prepared == Some(p) && s.fp == Some(Fingerprint(p.payload)) && s.now / 1000 < p.expiresAt
    requires s.step == if p.approval then ApprovalReady else BurnReady
    ensures
      var s' := Press(s, true);
      && s'.log == s.log + [WalletRequest(if p.approval then Approval else Burn, p.transfer)]
      && s'.task == (if p.approval then ApproveWallet(s.session.value, p) else BurnWallet(s.session.value, p))
      && s'.vault == s.vault && s'.session == s.session && s'.now == s.now
    ensures Press(s, false) == s
  {
  }

  /** Once the attestation is there, it prepares the mint of the session's transfer. */
  lemma PressMints(s: Saga, ok: bool)
    requires AtRest(s) && s.session.Some? && MintDue(s.status) && s.stage !in {PendingReconcile, ResumePending, Completed}
    ensures Press(s, ok) == s.(task := MintPrepare(s.session.value))
  {
  }

  /** While a pending transaction is shown, it asks for the receipt of the recorded one, else of the shown one. */
  lemma PressReconciles(s: Saga, ok: bool)
    requires s.task.NoTask? && s.bridgeReady && Shown(s).Some?
    ensures
      var loaded := Load(s.vault, s.now);
      var pending := if loaded.Some? then loaded.value.pending else Shown(s);
      Press(s, ok) ==
        if pending.Some? then s.(vault := loaded, task := ReconcileReceipt(s.session.value, pending.value))
        else s.(vault := loaded)
  {
  }

  /** A saved transfer of the same inputs is resumed from the vault. */
  lemma PressResumes(s: Saga, ok: bool, r: Record)
    requires AtRest(s) && s.stage == ResumePending && Load(s.vault, s.now) == Some(r) && r.inputs == s.inputs
    ensures
      var s' := Press(s, ok);
      && s'.task == ResumeStatus(r, s.prepared, s.fp) && s'.session == Some(r) && s'.vault == Some(r)
      && s'.auto.None? && s'.log == s.log && s'.stage == (if r.pending.Some? then PendingReconcile else ResumePending)
  {
  }

  /** A failed attestation is asked for again, from the stages that do not offer anything else. */
  lemma PressReattests(s: Saga)
    requires AtRest(s) && s.session.Some? && s.status == Some(AttestationFailed)
    requires s.stage !in {PendingReconcile, ResumePending, Completed, Idle, Failed, Quoted}
    ensures Press(s, true) == s.(task := ReattestCall(s.session.value)) && Press(s, false) == s
  {
  }

  /** But learning of the failure is itself a stage that offers a new quote: the retry is not offered then. */
  lemma FailedAttestationOffersQuote(s: Saga)
    requires AtRest(s)
    ensures var s' := Press(Step(s, Polled(AttestationFailed)), true); s'.task == QuoteCall(s.inputs)
  {
    PressQuotes(Step(s, Polled(AttestationFailed)));
  }

  // --- Where answers lead --------------------------------------------------------------

  function RecordOf(q: QuoteData, inputs: string): Record {
    Record(q.transfer, q.key, q.expiresAt, inputs, Some(Unknown), None, None)
  }

  /** A quote becomes the session and the record, and the next press prepares it. */
  lemma QuoteLeadsToPrepare(s: Saga, q: QuoteData)
    requires s.task.QuoteCall? && s.bridgeReady && !s.step.Ready() && BeforeMint(s)
    ensures
      var s1 := Step(s, QuoteReply(Some(q)));
      var r := RecordOf(q, s.task.inputs);
      && s1.session == Some(r) && s1.vault == Some(r) && s1.stage == Quoted && s1.fp == s.fp && AtRest(s1)
      && Press(s1, true) == s1.(task := PrepareCall(r))
  {
    PressPrepares(Step(s, QuoteReply(Some(q))));
  }

  /** The vault holds this live record, with nothing pending. */
  predicate Stored(s: Saga, r: Record) {
    s.vault == Some(r) && r.pending.None? && s.now < r.expiresAt
  }

  /** It is the session too. */
  predicate Saved(s: Saga, r: Record) {
    Stored(s, r) && s.session == Some(r)
  }

  function PreparedRecord(r: Record, p: BurnPrep): Record {
    r.(step := Some(if p.approval then ApprovalReady else BurnReady), fp := Some(Fingerprint(p.payload)))
  }

  lemma PrepareSaves(s: Saga, r: Record, p: BurnPrep)
    requires (s.task.PrepareCall? || s.task.ApprovePrepare?) && Stored(s, r)
    ensures
      var s1 := Step(s, BurnPrepReply(Ok(p)));
      && Saved(s1, PreparedRecord(r, p)) && s1.stage == Quoted && s1.task.NoTask?
      && s1.prepared == Some(p) && s1.fp == Some(Fingerprint(p.payload))
      && s1.step == (if p.approval then ApprovalReady else BurnReady)
      && s1.log == s.log && s1.now == s.now && s1.bridgeReady == s.bridgeReady && s1.status == s.status
  {
  }

  /** A prepared payload is held and recorded, and the next press asks the wallet to sign just that. */
  lemma PrepareLeadsToSignature(s: Saga, r: Record, p: BurnPrep)
    requires (s.task.PrepareCall? || s.task.ApprovePrepare?) && Stored(s, r)
    requires s.bridgeReady && BeforeMint(s) && s.now / 1000 < p.expiresAt
    ensures
      var s2 := Press(Step(s, BurnPrepReply(Ok(p))), true);
      && s2.log == s.log + [WalletRequest(if p.approval then Approval else Burn, p.transfer)]
      && s2.task == (if p.approval then ApproveWallet(PreparedRecord(r, p), p) else BurnWallet(PreparedRecord(r, p), p))
      && Saved(s2, PreparedRecord(r, p))
  {
    PrepareSaves(s, r, p);
    PressSigns(Step(s, BurnPrepReply(Ok(p))), p);
  }

  /** A confirmed execution is submitted to the transfer it was started for. */
  lemma SignatureIsSubmitted(s: Saga, hash: string)
    requires s.task.ApproveWallet? || s.task.BurnWallet?
    ensures
      var role := if s.task.ApproveWallet? then Approval else Burn;
      var s' := Step(s, BurnWalletReply(Ok(Execution(hash, true))));
      && s'.log == s.log + [Executed(role, s.task.prep.transfer, s.task.prep.payload, false, hash)]
                   + [SubmittedBurn(s.task.rec.transfer, hash)]
      && s'.task == (if s.task.ApproveWallet? then ApproveSubmit(s.task.rec) else BurnSubmit(s.task.rec))
      && s'.vault == s.vault && s'.session == s.session && s'.status == s.status
  {
  }

  /** The role of the wallet request that is under way. */
  function Signing(task: Task): Option<Role> {
    match task
    case ApproveWallet(_, _) => Some(Approval)
    case BurnWallet(_, _) => Some(Burn)
    case TrustlineWallet(_, _) => Some(Trustline)
    case MintWallet(_, _) => Some(Mint)
    case _ => None
  }

  /** The wallet returns this execution. */
  function WalletAnswer(task: Task, x: Execution): Event {
    if task.ApproveWallet? || task.BurnWallet? then BurnWalletReply(Ok(x)) else MintWalletReply(Some(x))
  }

  /**
    An unconfirmed approval, burn or mint is recorded for half an hour and shown; the auto-reconcile leaves
    it alone, and the next press asks for its receipt.
   */
  lemma UnconfirmedIsRecorded(s: Saga, r: Record, role: Role, hash: string)
    requires Signing(s.task) == Some(role) && role != Trustline && Saved(s, r) && s.bridgeReady
    ensures
      var pending := Pending(hash, role, s.now + 1800000);
      var s1 := Step(s, WalletAnswer(s.task, Execution(hash, false)));
      && Remembered(s1) == Some(pending) && Shown(s1) == Some(pending) && s1.task.NoTask?
      && Step(s1, AutoEffect) == s1
      && Press(s1, true).task == ReconcileReceipt(r.(pending := Some(pending)), pending)
  {
    RecordedIs(s, r, role, hash);
    PressReconciles(Step(s, WalletAnswer(s.task, Execution(hash, false))), true);
  }

  lemma RecordedIs(s: Saga, r: Record, role: Role, hash: string)
    requires Signing(s.task) == Some(role) && role != Trustline && Saved(s, r)
    ensures
      var recorded := r.(pending := Some(Pending(hash, role, s.now + 1800000)));
      var s1 := Step(s, WalletAnswer(s.task, Execution(hash, false)));
      && s1.vault == s1.session == Some(recorded) && s1.seen == Some(RevisionOf(recorded))
      && s1.task.NoTask? && s1.now == s.now && s1.bridgeReady == s.bridgeReady
  {
  }

  /** A mined pending transaction is submitted once, in the role it was recorded for, and then forgotten. */
  lemma ReceiptIsSubmitted(s: Saga)
    requires s.task.ReconcileReceipt? && s.task.pending.role != Trustline
    ensures
      var Pending(hash, role, _) := s.task.pending;
      var s1 := Step(s, ReceiptReply(Some(true)));
      && s1.log == s.log + [if role == Mint then SubmittedMint(s.task.rec.transfer, hash)
                            else SubmittedBurn(s.task.rec.transfer, hash)]
      && Remembered(Step(s1, ReconcileSubmitReply(true))).None?
      && Step(s1, ReconcileSubmitReply(true)).log == s1.log
  {
  }

  /** An accepted burn drops its payload and waits, with nothing offered. */
  lemma AcceptedBurnWaits(s: Saga, ok: bool)
    requires s.task.BurnSubmit? && s.bridgeReady && Shown(s).None? && s.status in {None, Some(Created), Some(BurnSubmitted)}
    ensures
      var s' := Step(s, BurnSubmitReply(Ok(())));
      && s'.task.NoTask? && s'.prepared.None? && Remembered(s').None? && s'.log == s.log && s'.session == s.session
      && (s'.vault.Some? ==> s'.vault.value.step == Some(Unknown))
      && Press(s', ok) == s'
  {
    PressIsInert(Step(s, BurnSubmitReply(Ok(()))), ok);
  }

  /** A confirmed approval leads on to the burn of the same transfer. */
  lemma ApprovalLeadsToBurn(s: Saga, r: Record, st: TransferStatus, p: BurnPrep)
    requires s.task.ApproveSubmit? && Saved(s, r) && s.bridgeReady
    requires st in {Created, BurnPrepared} && !p.approval && s.now / 1000 < p.expiresAt
    ensures
      var s1 := Step(s, BurnSubmitReply(Ok(())));
      && s1.task.ApproveStatus?
      && var s2 := Step(s1, ApproveStatusReply(Ok(st)));
      && s2.task.ApprovePrepare? && s2.prepared.None?
      && var s4 := Press(Step(s2, BurnPrepReply(Ok(p))), true);
      && s4.log == s.log + [WalletRequest(Burn, p.transfer)]
      && s4.task == BurnWallet(PreparedRecord(r.(step := Some(Unknown), fp := None), p), p)
  {
    var s2 := Step(Step(s, BurnSubmitReply(Ok(()))), ApproveStatusReply(Ok(st)));
    assert Stored(s2, r.(step := Some(Unknown), fp := None));
    PrepareLeadsToSignature(s2, r.(step := Some(Unknown), fp := None), p);
  }

  /** Whatever was shown, learning that the attestation is there makes the next press prepare the mint. */
  lemma PollLeadsToMint(s: Saga, st: TransferStatus, ok: bool)
    requires AtRest(s) && s.session.Some? && MintDue(Some(st))
    ensures var s' := Step(s, Polled(st));
            && s'.log == s.log
            && Press(s', ok) == s'.(task := MintPrepare(s.session.value))
  {
    PressMints(Step(s, Polled(st)), ok);
  }

  /** The mint of a prepared payload: requested, executed and submitted to the session's transfer. */
  lemma MintIsSubmitted(s: Saga, m: MintPrep, hash: string)
    requires (s.task.MintPrepare? || s.task.MintReprepare?) && !m.trustline
    ensures
      var s1 := Step(s, MintPrepReply(Some(m), true));
      && s1.task.MintWallet?
      && Step(s1, MintWalletReply(Some(Execution(hash, true)))).log ==
         s.log + [WalletRequest(Mint, m.transfer)] + [Executed(Mint, m.transfer, m.payload, false, hash)]
         + [SubmittedMint(s.task.rec.transfer, hash)]
  {
  }

  /** A missing trustline is opened first, and its hash submitted nowhere; then the mint goes on as above. */
  lemma TrustlineLeadsToMint(s: Saga, t: MintPrep, lineHash: string, m: MintPrep, hash: string)
    requires s.task.MintPrepare? && t.trustline && t.payload.StellarXdr? && !m.trustline
    ensures
      var s1 := Step(s, MintPrepReply(Some(t), true));
      && s1.task.TrustlineWallet?
      && var s2 := Step(s1, MintWalletReply(Some(Execution(lineHash, true))));
      && s2.task == MintReprepare(s.task.rec)
      && var s3 := Step(s2, MintPrepReply(Some(m), true));
      && s3.task.MintWallet?
      && Step(s3, MintWalletReply(Some(Execution(hash, true)))).log ==
         s.log + [WalletRequest(Trustline, t.transfer)] + [Executed(Trustline, t.transfer, t.payload, true, lineHash)]
         + [WalletRequest(Mint, m.transfer)] + [Executed(Mint, m.transfer, m.payload, false, hash)]
         + [SubmittedMint(s.task.rec.transfer, hash)]
  {
    var s2 := Step(Step(s, MintPrepReply(Some(t), true)), MintWalletReply(Some(Execution(lineHash, true))));
    MintIsSubmitted(s2, m, hash);
  }

  /** Pressing once the attestation is there, then friendly answers: the mint is submitted. */
  lemma PressedMintGoesThrough(s: Saga, ok: bool, m: MintPrep, hash: string)
    requires AtRest(s) && s.session.Some? && MintDue(s.status) && s.stage !in {PendingReconcile, ResumePending, Completed}
    requires !m.trustline
    ensures
      var s1 := Press(s, ok);
      && s1.task.MintPrepare?
      && var s2 := Step(s1, MintPrepReply(Some(m), true));
      && s2.task.MintWallet?
      && Step(s2, MintWalletReply(Some(Execution(hash, true)))).log ==
         s.log + [WalletRequest(Mint, m.transfer)] + [Executed(Mint, m.transfer, m.payload, false, hash)]
         + [SubmittedMint(s.session.value.transfer, hash)]
  {
    PressMints(s, ok);
    MintIsSubmitted(Press(s, ok), m, hash);
  }

  // --- Where failures and endings lead ------------------------------------------------------

  /** The source-chain step that is under way fails: in the wallet, at a submit, or on the way to the burn. */
  function SourceFailure(task: Task, f: Failure): Option<Event> {
    match task
    case ApproveWallet(_, _) => Some(BurnWalletReply(Err(f)))
    case BurnWallet(_, _) => Some(BurnWalletReply(Err(f)))
    case ApproveSubmit(_) => Some(BurnSubmitReply(Err(f)))
    case BurnSubmit(_) => Some(BurnSubmitReply(Err(f)))
    case ApproveStatus(_) => Some(ApproveStatusReply(Err(f)))
    case ApprovePrepare(_) => Some(BurnPrepReply(Err(f)))
    case _ => None
  }

  /** A stale sequence drops the payload, in memory and in the record, and the next press prepares again. */
  lemma StaleSequenceLeadsToPrepare(s: Saga)
    requires SourceFailure(s.task, StaleSequence).Some?
    requires s.bridgeReady && s.session.Some? && Shown(s).None? && BeforeMint(s)
    ensures
      var s' := Step(s, SourceFailure(s.task, StaleSequence).value);
      && s'.prepared.None? && s'.fp.None? && s'.log == s.log
      && (s'.vault.Some? ==> s'.vault.value.fp.None? && s'.vault.value.step == Some(ReprepareRequired))
      && Press(s', true).task == PrepareCall(s.session.value)
  {
    PressPrepares(Step(s, SourceFailure(s.task, StaleSequence).value));
  }

  /** What an expired quote leaves: the form and the log, as after a reset. */
  function Aborted(s: Saga): Saga {
    Init(s.inputs).(now := s.now, bridgeReady := s.bridgeReady, seen := s.seen, auto := s.auto, log := s.log)
  }

  /** An expired quote leaves nothing behind, any other failure keeps the session; both offer a new quote. */
  lemma SourceFailureLeadsToQuote(s: Saga, f: Failure)
    requires SourceFailure(s.task, f).Some? && f != StaleSequence
    requires s.bridgeReady && Shown(s).None? && BeforeMint(s)
    ensures
      var s' := Step(s, SourceFailure(s.task, f).value);
      && s' == (if f == QuoteExpired then Aborted(s) else s.(stage := Failed, task := NoTask))
      && Press(s', true).task == QuoteCall(s.inputs) && Press(s', true).log == s.log
  {
    PressQuotes(Step(s, SourceFailure(s.task, f).value));
  }

  /** The first prepare fails more quietly: unless the quote expired, the next press tries it again. */
  lemma PrepareFailureLeadsToPrepare(s: Saga, f: Failure)
    requires s.task.PrepareCall? && s.bridgeReady && s.stage == Quoted && s.session.Some? && Shown(s).None?
    requires BeforeMint(s) && (s.prepared.None? || !s.step.Ready())
    ensures
      var s' := Step(s, BurnPrepReply(Err(f)));
      if f == QuoteExpired then s' == Aborted(s)
      else s' == s.(task := NoTask) && Press(s', true).task == PrepareCall(s.session.value)
  {
    if f != QuoteExpired {
      PressPrepares(Step(s, BurnPrepReply(Err(f))));
    }
  }

  /** The mint that is under way fails: before the wallet, in it, at the submit, or on the way through a trustline. */
  predicate MintFails(task: Task, e: Event) {
    match task
    case MintPrepare(_) => e == MintPrepReply(None, true)
    case TrustlineWallet(_, _) => e == MintWalletReply(None)
    case MintReprepare(_) => e.MintPrepReply? && (e.mintPrep.None? || e.mintPrep.value.trustline)
    case MintWallet(_, _) => e == MintWalletReply(None)
    case MintSubmit(_) => e == MintSubmitReply(false)
    case _ => false
  }

  /** A failed mint keeps what is due, so the next press prepares the mint again, not a new quote. */
  lemma MintFailureLeadsToMint(s: Saga, e: Event)
    requires MintFails(s.task, e) && s.bridgeReady && s.session.Some? && Shown(s).None? && MintDue(s.status)
    ensures
      && Possible(s, e)
      && var s' := Step(s, e);
        s' == s.(stage := Failed, task := NoTask) && Press(s', true).task == MintPrepare(s.session.value)
  {
    PressMints(Step(s, e), true);
  }

  /** A trustline that is not confirmed is not built upon. */
  lemma UnconfirmedTrustlineFails(s: Saga, hash: string)
    requires s.task.TrustlineWallet?
    ensures
      var s' := Step(s, MintWalletReply(Some(Execution(hash, false))));
      s'.task.NoTask? && s'.stage == Failed && s'.vault == s.vault && |s'.log| == |s.log| + 1
  {
  }

  /** Without the wallets its roles need, a prepared mint is dropped unsigned. */
  lemma MintNeedsRoles(s: Saga, m: MintPrep)
    requires s.task.MintPrepare?
    ensures Step(s, MintPrepReply(Some(m), false)) == s.(task := NoTask)
  {
  }

  /** An accepted mint is no longer pending anywhere. */
  lemma AcceptedMintIsForgotten(s: Saga)
    requires s.task.MintSubmit?
    ensures
      var s' := Step(s, MintSubmitReply(true));
      s'.task.NoTask? && Remembered(s').None? && s'.stage == s.stage && s'.session == s.session && s'.log == s.log
  {
  }

  /** A quote that cannot be had is a failure; without the bridge none is asked for. */
  lemma QuoteFailureLeadsToQuote(s: Saga, ok: bool)
    requires s.task.QuoteCall? && s.bridgeReady && Shown(s).None? && BeforeMint(s)
    ensures
      var s' := Step(s, QuoteReply(None));
      s' == s.(stage := Failed, task := NoTask) && Press(s', true).task == QuoteCall(s.inputs)
    ensures
      var s' := Step(s, QuoteReply(None)).(bridgeReady := false);
      Step(s', Begin(DoQuote, ok)) == s'.(stage := Unavailable)
  {
    PressQuotes(Step(s, QuoteReply(None)));
  }

  /** Completion clears session and record, and nothing is offered any more. */
  lemma CompletionEnds(s: Saga, ok: bool)
    requires s.task.NoTask?
    ensures
      var s' := Step(s, Polled(Done));
      s'.session.None? && s'.vault.None? && Press(s', ok) == s'
  {
    PressIsInert(Step(s, Polled(Done)), ok);
  }

  // --- A whole transfer -------------------------------------------------------------------

  /** The events lead from one state to the other, pressing nothing but the offered button. */
  predicate Leads(s: Saga, events: seq<Event>, end: Saga)
    decreases |events|
  {
    if events == [] then s == end
    else
      && Possible(s, events[0])
      && (events[0].Begin? ==> events[0].action == PrimaryAction(s))
      && Leads(Step(s, events[0]), events[1..], end)
  }

  lemma {:induction false} LeadsOn(s: Saga, events: seq<Event>, mid: Saga, e: Event)
    requires Leads(s, events, mid) && Possible(mid, e) && (e.Begin? ==> e.action == PrimaryAction(mid))
    ensures Leads(s, events + [e], Step(mid, e))
    decreases |events|
  {
    if events == [] {
      assert ([e])[1..] == [];
      assert events + [e] == [e];
    } else {
      LeadsOn(Step(s, events[0]), events[1..], mid, e);
      assert (events + [e])[1..] == events[1..] + [e];
    }
  }

  lemma QuoteGoesThrough(s: Saga, q: QuoteData) returns (end: Saga, events: seq<Event>)
    requires AtRest(s) && s.stage in {Idle, Failed} && BeforeMint(s) && s.now < q.expiresAt
    ensures Leads(s, events, end) && end.log == s.log && end.now == s.now && end.status == s.status && end.bridgeReady
    ensures end.task.PrepareCall? && Saved(end, RecordOf(q, s.inputs))
  {
    PressQuotes(s);
    var asked := Press(s, true);
    QuoteLeadsToPrepare(asked, q);
    var quoted := Step(asked, QuoteReply(Some(q)));
    end := Press(quoted, true);
    events := [];
    LeadsOn(s, events, s, Begin(PrimaryAction(s), true));
    events := events + [Begin(PrimaryAction(s), true)];
    LeadsOn(s, events, asked, QuoteReply(Some(q)));
    events := events + [QuoteReply(Some(q))];
    LeadsOn(s, events, quoted, Begin(PrimaryAction(quoted), true));
    events := events + [Begin(PrimaryAction(quoted), true)];
  }

  lemma BurnGoesThrough(s: Saga, start: seq<Event>, mid: Saga, r: Record, p: BurnPrep, hash: string)
    returns (end: Saga, events: seq<Event>)
    requires Leads(s, start, mid) && mid.task.PrepareCall? && Saved(mid, r) && mid.bridgeReady
    requires !p.approval && mid.now / 1000 < p.expiresAt && mid.status in {None, Some(Created), Some(BurnSubmitted)}
    ensures Leads(s, events, end) && AtRest(end)
    ensures end.session.Some? && end.session.value.transfer == r.transfer
    ensures end.log == mid.log + [WalletRequest(Burn, p.transfer)]
                       + [Executed(Burn, p.transfer, p.payload, false, hash)] + [SubmittedBurn(r.transfer, hash)]
  {
    PrepareSaves(mid, r, p);
    PrepareLeadsToSignature(mid, r, p);
    var ready := Step(mid, BurnPrepReply(Ok(p)));
    var signing := Press(ready, true);
    var sent := Step(signing, BurnWalletReply(Ok(Execution(hash, true))));
    SignatureIsSubmitted(signing, hash);
    SigningKeeps(ready, hash);
    AcceptedBurnWaits(sent, true);
    end := Step(sent, BurnSubmitReply(Ok(())));
    LeadsOn(s, start, mid, BurnPrepReply(Ok(p)));
    events := start + [BurnPrepReply(Ok(p))];
    LeadsOn(s, events, ready, Begin(PrimaryAction(ready), true));
    events := events + [Begin(PrimaryAction(ready), true)];
    LeadsOn(s, events, signing, BurnWalletReply(Ok(Execution(hash, true))));
    events := events + [BurnWalletReply(Ok(Execution(hash, true)))];
    LeadsOn(s, events, sent, BurnSubmitReply(Ok(())));
    events := events + [BurnSubmitReply(Ok(()))];
  }

  lemma SigningKeeps(s: Saga, hash: string)
    requires s.task.NoTask? && Press(s, true).task.BurnWallet?
    ensures var sent := Step(Press(s, true), BurnWalletReply(Ok(Execution(hash, true))));
            sent.bridgeReady == s.bridgeReady && sent.session == s.session && sent.status == s.status
  {
  }

  /**
    From any resting state that offers a quote, pressing the offered button and getting friendly answers
    takes one transfer all the way: its burn and then its mint are requested, executed and submitted,
    each once, and nothing else reaches the outside world.
   */
  lemma TransferGoesThrough(s: Saga, q: QuoteData, p: BurnPrep, burned: string, m: MintPrep, minted: string)
    returns (end: Saga, events: seq<Event>)
    requires AtRest(s) && s.stage in {Idle, Failed} && s.status in {None, Some(Created), Some(BurnSubmitted)}
    requires s.now < q.expiresAt && !p.approval && s.now / 1000 < p.expiresAt && !m.trustline
    ensures Leads(s, events, end)
    ensures end.log == s.log + [WalletRequest(Burn, p.transfer)] + [Executed(Burn, p.transfer, p.payload, false, burned)]
                       + [SubmittedBurn(q.transfer, burned)] + [WalletRequest(Mint, m.transfer)]
                       + [Executed(Mint, m.transfer, m.payload, false, minted)] + [SubmittedMint(q.transfer, minted)]
  {
    var mid, start := QuoteGoesThrough(s, q);
    var waiting, before := BurnGoesThrough(s, start, mid, RecordOf(q, s.inputs), p, burned);
    end, events := AttestedMintGoesThrough(s, before, waiting, m, minted);
  }

  lemma AttestedMintGoesThrough(s: Saga, start: seq<Event>, mid: Saga, m: MintPrep, hash: string)
    returns (end: Saga, events: seq<Event>)
    requires Leads(s, start, mid) && AtRest(mid) && mid.session.Some? && !m.trustline
    ensures Leads(s, events, end)
    ensures end.log == mid.log + [WalletRequest(Mint, m.transfer)] + [Executed(Mint, m.transfer, m.payload, false, hash)]
                       + [SubmittedMint(mid.session.value.transfer, hash)]
  {
    PollLeadsToMint(mid, AttestationReady, true);
    var attested := Step(mid, Polled(AttestationReady));
    var preparing := Press(attested, true);
    MintIsSubmitted(preparing, m, hash);
    var signing := Step(preparing, MintPrepReply(Some(m), true));
    end := Step(signing, MintWalletReply(Some(Execution(hash, true))));
    LeadsOn(s, start, mid, Polled(AttestationReady));
    events := start + [Polled(AttestationReady)];
    LeadsOn(s, events, attested, Begin(PrimaryAction(attested), true));
    events := events + [Begin(PrimaryAction(attested), true)];
    LeadsOn(s, events, preparing, MintPrepReply(Some(m), true));
    events := events + [MintPrepReply(Some(m), true)];
    LeadsOn(s, events, signing, MintWalletReply(Some(Execution(hash, true))));
    events := events + [MintWalletReply(Some(Execution(hash, true)))];
  }
}
