/**
  Where recovery leads: status polls, reconciling, resuming, reloading, resetting, and the
  auto-reconcile that runs beside them. As in `CctpSagaProgress`, what is stated is what the
  next press does.
 */
module CctpSagaRecovery {
  import opened Options
  import opened CctpSaga
  import opened CctpSagaPending
  import opened CctpSagaProgress

  // --- What a poll reports --------------------------------------------------------------

  /** A submitted or attesting burn is waited for: nothing is offered, whatever was before. */
  lemma AttestingIsAwaited(s: Saga, st: TransferStatus, ok: bool)
    requires AtRest(s) && st in {BurnSubmitted, Attesting}
    ensures
      var s' := Step(s, Polled(st));
      s' == s.(status := Some(st), stage := AwaitingAttestation) && Press(s', ok) == s'
  {
    PressIsInert(Step(s, Polled(st)), ok);
  }

  /** A killed provider ends the transfer: the record is gone and nothing is offered. */
  lemma KilledProviderEnds(s: Saga, ok: bool)
    requires AtRest(s)
    ensures
      var s' := Step(s, Polled(ProviderKilled));
      s'.vault.None? && Press(s', ok) == s'
  {
  }

  /** A cancelled transfer loses its record; the other reports change nothing but the status. */
  lemma OtherReports(s: Saga, st: TransferStatus)
    requires st in {Created, BurnPrepared, MintSubmitted, Cancelled}
    ensures Step(s, Polled(st)) == s.(status := Some(st), vault := if st == Cancelled then None else s.vault)
  {
  }

  // --- Reconciling a pending transaction -------------------------------------------------

  /** A transaction that is not mined yet, or whose receipt cannot be had, stays recorded; its receipt is asked for again. */
  lemma UnminedStaysRecorded(s: Saga, reply: Option<bool>)
    requires s.task.ReconcileReceipt? && s.bridgeReady && reply != Some(true)
    requires Shown(s) == Remembered(s) == Some(s.task.pending) && Load(s.vault, s.now) == s.vault
    ensures
      var s' := Step(s, ReceiptReply(reply));
      && s' == s.(stage := if reply.None? then Failed else PendingReconcile, task := NoTask)
      && Press(s', true).task == ReconcileReceipt(s.session.value, s.task.pending)
  {
    PressReconciles(Step(s, ReceiptReply(reply)), true);
  }

  /** So does one whose submit is refused. */
  lemma RefusedStaysRecorded(s: Saga)
    requires s.task.ReconcileSubmit?
    ensures Step(s, ReconcileSubmitReply(false)) == s.(stage := Failed, task := NoTask)
  {
  }

  /** A reconciled transaction is forgotten: a burn then waits for its attestation, a mint for its completion. */
  lemma ReconciledGoesOn(s: Saga)
    requires s.task.ReconcileSubmit? && s.task.pending.role != Approval
    ensures
      var s' := Step(s, ReconcileSubmitReply(true));
      && Remembered(s').None? && s'.task.NoTask? && s'.log == s.log && s'.session == s.session
      && s'.stage == if s.task.pending.role == Burn then AwaitingAttestation else s.stage
  {
  }

  /** A reconciled approval goes back to be prepared: its payload is used up. */
  lemma ReconciledApprovalGoesBack(s: Saga, st: TransferStatus)
    requires s.task.ReconcileSubmit? && s.task.pending.role == Approval
    ensures
      var s1 := Step(s, ReconcileSubmitReply(true));
      && s1.task.ReconcileStatus? && Remembered(s1).None?
      && var s2 := Step(s1, StatusReply(Some(st)));
      && s2.task.NoTask? && s2.stage == Quoted && s2.step == Unknown && s2.status == Some(st) && s2.log == s.log
      && (s2.vault.Some? ==> s2.vault.value.step == Some(Unknown))
  {
  }

  // --- Reloading and resuming -----------------------------------------------------------

  /** The record a reload finds again: a payload that was ready is gone, so it has to be prepared anew. */
  function Reread(r: Record): Record {
    if r.step in {Some(ApprovalReady), Some(BurnReady)} then r.(step := Some(ReprepareRequired)) else r
  }

  lemma RereadFits(s: Saga, r: Record)
    requires Load(s.vault, s.now) == Some(r)
    ensures var s' := Step(s, Reloaded);
            && s'.vault == Some(Reread(r)) && s'.session == Some(Reread(r))
            && s'.step == (if r.step.Some? then Reread(r).step.value else Unknown)
  {
  }

  /** A reload finds the record again, and nothing else. */
  lemma ReloadRestores(s: Saga, r: Record)
    requires Load(s.vault, s.now) == Some(r)
    ensures
      var s' := Step(s, Reloaded);
      && s'.vault == s'.session == Some(Reread(r)) && s'.prepared.None?
      && s'.stage == (if r.inputs == s.inputs && r.pending.Some? then PendingReconcile else ResumePending)
      && s'.task.NoTask? && s'.log == s.log && s'.inputs == s.inputs && s'.bridgeReady == s.bridgeReady && s'.now == s.now
      && s'.status.None? && s'.fp == r.fp && s'.auto.None?
  {
    RereadFits(s, r);
  }

  /** After a reload, the next press asks for the receipt of what was pending, whatever the inputs. */
  lemma ReloadReconciles(s: Saga, r: Record, ok: bool)
    requires Load(s.vault, s.now) == Some(r) && r.pending.Some? && s.bridgeReady
    ensures Press(Step(s, Reloaded), ok).task == ReconcileReceipt(Reread(r), r.pending.value)
  {
    ReloadRestores(s, r);
    PressReconciles(Step(s, Reloaded), ok);
  }

  /** With nothing pending, it resumes the recorded transfer of the same inputs. */
  lemma ReloadResumes(s: Saga, r: Record, ok: bool)
    requires Load(s.vault, s.now) == Some(r) && r.pending.None? && r.inputs == s.inputs && s.bridgeReady
    ensures Press(Step(s, Reloaded), ok).task == ResumeStatus(Reread(r), None, r.fp)
  {
    ReloadRestores(s, r);
    PressResumes(Step(s, Reloaded), ok, Reread(r));
  }

  /** Of other inputs, it waits for those: no call is made. */
  lemma OtherInputsWait(s: Saga, r: Record, ok: bool)
    requires AtRest(s) && s.stage == ResumePending && Load(s.vault, s.now) == Some(r) && r.inputs != s.inputs
    ensures
      var s' := Press(s, ok);
      && s'.task.NoTask? && s'.stage == ResumePending && s'.log == s.log
      && s'.session.Some? && s'.session.value.transfer == r.transfer && s'.session.value.pending == r.pending
  {
  }

  /** With no live record a reload starts over. */
  lemma ReloadStartsOver(s: Saga)
    requires Load(s.vault, s.now).None?
    ensures Step(s, Reloaded) == Init(s.inputs).(now := s.now, bridgeReady := s.bridgeReady, log := s.log)
  {
  }

  /**
    A resumed transfer goes on where the server says it is: to a new prepare of the same transfer, since the
    payload did not survive, or, once attested, to its mint.
   */
  lemma ResumeGoesOn(s: Saga, r: Record, st: TransferStatus)
    requires s.task == ResumeStatus(r, None, r.fp) && Saved(s, r) && s.bridgeReady && !s.step.Ready() && s.prepared.None?
    requires st in {Created, BurnPrepared} || MintDue(Some(st))
    ensures
      var s' := Press(Step(s, StatusReply(Some(st))), true);
      && s'.log == s.log
      && if MintDue(Some(st)) then s'.task.MintPrepare? && s'.task.rec.transfer == r.transfer
         else s'.task.PrepareCall? && s'.task.rec.transfer == r.transfer
  {
    var s1 := Step(s, StatusReply(Some(st)));
    if MintDue(Some(st)) {
      PressMints(s1, true);
    } else {
      PressPrepares(s1);
    }
  }

  /** A pending transaction found while resuming is shown, not signed over. */
  lemma ResumeShowsPending(s: Saga, st: TransferStatus)
    requires s.task.ResumeStatus? && s.task.rec.pending.Some?
    requires s.vault == s.session == Some(s.task.rec) && Load(s.vault, s.now) == s.vault && !Terminal(st)
    ensures
      var s' := Step(s, StatusReply(Some(st)));
      s'.stage == PendingReconcile && Shown(s') == Remembered(s') == s.task.rec.pending
  {
    ResolvedShows(FetchStatus(s.(task := NoTask), st), s.task.rec, s.task.prepared, s.task.fp);
  }

  lemma ResolvedShows(s: Saga, r: Record, prepared: Option<BurnPrep>, fp: Option<string>)
    requires s.vault == s.session == Some(r) && Load(s.vault, s.now) == s.vault
    ensures var s' := ApplyResolved(s, r, prepared, fp); Shown(s') == Remembered(s') == r.pending && s'.stage == s.stage
  {
  }

  /** A transfer that turns out to be done leaves neither record nor session nor payload. */
  lemma ResumeFindsDone(s: Saga)
    requires s.task.ResumeStatus?
    ensures
      var s' := Step(s, StatusReply(Some(Done)));
      s'.vault.None? && s'.session.None? && s'.prepared.None? && s'.fp.None? && s'.task.NoTask?
  {
  }

  /** A status that is refused means the authorization is lost: record and session go, and a quote is offered. */
  lemma LostAuthorizationLeadsToQuote(s: Saga)
    requires s.bridgeReady && BeforeMint(s)
    ensures s.task.ResumeStatus? ==>
      var s' := Step(s, StatusReply(None));
      s'.vault.None? && s'.session.None? && Press(s', true).task == QuoteCall(s.inputs)
    ensures s.auto.Some? && s.task.NoTask? ==>
      var s' := Step(s, AutoReply(None));
      s'.vault.None? && s'.session.None? && s'.auto.None? && Press(s', true).task == QuoteCall(s.inputs)
  {
    if s.task.ResumeStatus? {
      PressQuotes(Step(s, StatusReply(None)));
    }
    if s.auto.Some? && s.task.NoTask? {
      PressQuotes(Step(s, AutoReply(None)));
    }
  }

  /** A re-attestation tells the new status, or nothing. */
  lemma ReattestTells(s: Saga, reply: Option<TransferStatus>)
    requires s.task.ReattestCall?
    ensures
      var rested := s.(task := NoTask);
      Step(s, StatusReply(reply)) == if reply.None? then rested else Step(rested, Polled(reply.value))
  {
  }

  /** A reset forgets everything but the form: what follows, even a reload, starts from the beginning. */
  lemma ResetForgets(s: Saga)
    requires s.task.NoTask?
    ensures Step(s, ResetPressed) == Init(s.inputs).(now := s.now, bridgeReady := s.bridgeReady, log := s.log)
    ensures Step(Step(s, ResetPressed), Reloaded) == Step(s, ResetPressed)
  {
  }

  // --- The auto-reconcile ------------------------------------------------------------------

  /** A record not yet looked at is looked at, and only once: a second run of the effect does nothing. */
  lemma AutoRunsOnce(s: Saga, r: Record)
    requires s.bridgeReady && s.session.Some? && Load(s.vault, s.now) == Some(r) && r.inputs == s.inputs
    requires s.seen != Some(RevisionOf(r))
    ensures
      var s' := Step(s, AutoEffect);
      && s'.auto == Some(Reconcile(r, s.prepared, s.fp)) && s'.stage == s.stage && s'.session == s.session
      && s'.log == s.log && Step(s', AutoEffect) == s'
  {
  }

  /** Without the bridge, a session or a record there is nothing to look at. */
  lemma AutoNeedsRecord(s: Saga)
    requires !s.bridgeReady || s.session.None? || Load(s.vault, s.now).None?
    ensures var s' := Step(s, AutoEffect); s' == s.(vault := s'.vault) && (s'.vault == s.vault || s'.vault.None?)
  {
  }

  /** A record of other inputs is offered for resuming instead. */
  lemma AutoOfOtherInputs(s: Saga, r: Record)
    requires s.bridgeReady && s.session.Some? && Load(s.vault, s.now) == Some(r) && r.inputs != s.inputs
    requires s.seen != Some(RevisionOf(r))
    ensures var s' := Step(s, AutoEffect);
            s'.stage == ResumePending && s'.auto == s.auto && s'.session.Some? && s'.session.value.transfer == r.transfer
  {
  }

  /** The answer: the record is the session again, with whatever it has pending. */
  lemma AutoAdopts(s: Saga, r: Record, st: TransferStatus)
    requires s.auto.Some? && Load(s.vault, s.now) == Some(r) && !Terminal(st)
    ensures
      var s' := Step(s, AutoReply(Some(st)));
      && s'.auto.None? && s'.status == Some(st) && s'.log == s.log
      && Shown(s') == r.pending == Remembered(s') && s'.session.value.transfer == r.transfer
  {
    AdoptShows(FetchStatus(s.(auto := None), st), s.auto.value, r);
  }

  lemma AdoptShows(s: Saga, auto: Reconcile, r: Record)
    requires Load(s.vault, s.now) == Some(r)
    ensures
      var s' := Adopt(s, auto);
      && s'.auto == s.auto && s'.status == s.status && s'.log == s.log
      && Shown(s') == r.pending == Remembered(s') && s'.session.value.transfer == r.transfer
  {
  }

  /** A pending transaction is shown; else, unless the transfer has failed, what is left is quoted again. */
  lemma AutoAnswers(s: Saga, r: Record, st: TransferStatus)
    requires s.auto.Some? && Load(s.vault, s.now) == Some(r) && !Terminal(st)
    ensures
      Step(s, AutoReply(Some(st))).stage ==
      if r.pending.Some? then PendingReconcile
      else if st == AttestationFailed || (s.stage == Failed && st in {Created, BurnPrepared, MintSubmitted}) then Failed
      else Quoted
  {
  }

  /** A payload that was ready stays ready exactly while it still fits the record; else the record says to prepare again. */
  lemma AutoKeepsPayloadIff(s: Saga, r: Record, st: TransferStatus, p: BurnPrep, fp: string)
    requires s.auto.Some? && s.auto.value.prepared == Some(p) && Load(s.vault, s.now) == Some(r)
    requires !Terminal(st) && r.step in {Some(ApprovalReady), Some(BurnReady)} && r.fp == Some(fp)
    ensures
      var s' := Step(s, AutoReply(Some(st)));
      if s.now / 1000 < p.expiresAt && Fingerprint(p.payload) == fp
      then Some(s'.step) == r.step && s'.vault == Some(r)
      else s'.step == ReprepareRequired && s'.vault == Some(r.(step := Some(ReprepareRequired))) && s'.session == s'.vault
  {
    var s1 := FetchStatus(s.(auto := None), st);
    ResolvedIff(Sync(s1.(vault := Some(r)), r), r, p, fp, s.auto.value.fp);
  }

  lemma ResolvedIff(s: Saga, r: Record, p: BurnPrep, fp: string, captured: Option<string>)
    requires s.vault == Some(r) && Load(s.vault, s.now) == s.vault
    requires r.step in {Some(ApprovalReady), Some(BurnReady)} && r.fp == Some(fp)
    ensures
      var s' := ApplyResolved(s, r, Some(p), captured);
      if s.now / 1000 < p.expiresAt && Fingerprint(p.payload) == fp
      then Some(s'.step) == r.step && s'.vault == Some(r)
      else s'.step == ReprepareRequired && s'.vault == Some(r.(step := Some(ReprepareRequired))) && s'.session == s'.vault
  {
  }

  /** A finished transfer takes its payload with it, also here. */
  lemma AutoFindsDone(s: Saga)
    requires s.auto.Some?
    ensures var s' := Step(s, AutoReply(Some(Done))); s'.vault.None? && s'.prepared.None? && s'.status == Some(Done)
  {
  }

  // --- Changing the inputs --------------------------------------------------------------------

  /** The form is locked by a session under way: only the inputs themselves change. */
  lemma LockedInputs(s: Saga, inputs: string, ready: bool)
    requires inputs == s.inputs || (s.session.Some? && s.stage !in {Idle, Completed, Failed, Unavailable})
    ensures Step(s, InputsChanged(inputs, ready)) == s.(inputs := inputs, bridgeReady := ready)
  {
  }

  /** Otherwise a change forgets the step, and a quote without a session. */
  lemma FreeInputs(s: Saga, inputs: string, ready: bool)
    requires inputs != s.inputs && (s.session.None? || s.stage in {Idle, Completed, Failed, Unavailable})
    ensures Step(s, InputsChanged(inputs, ready)) ==
      s.(inputs := inputs, bridgeReady := ready, step := Unknown, stage := if s.stage == Quoted then Idle else s.stage)
  {
  }

  // --- Recovering a whole transfer ---------------------------------------------------------------

  /** The resumed transfer is attested: what the next press starts from. */
  lemma AttestedResume(s: Saga, r: Record)
    requires s.task == ResumeStatus(r, None, r.fp) && Saved(s, r) && s.bridgeReady
    ensures
      var s' := Step(s, StatusReply(Some(AttestationReady)));
      && AtRest(s') && s'.session.Some? && s'.session.value.transfer == r.transfer && s'.log == s.log
      && s'.stage == Quoted && MintDue(s'.status)
  {
  }

  /**
    Wherever the page is reloaded, whatever was under way: once the transfer of the live record is attested,
    pressing the offered button and getting friendly answers mints it, and does nothing else.
   */
  lemma RecoveredMintGoesThrough(s: Saga, start: seq<Event>, mid: Saga, r: Record, m: MintPrep, hash: string)
    returns (end: Saga, events: seq<Event>)
    requires Leads(s, start, mid) && Load(mid.vault, mid.now) == Some(r) && r.pending.None? && r.inputs == mid.inputs
    requires mid.bridgeReady && !m.trustline
    ensures Leads(s, events, end)
    ensures end.log == mid.log + [WalletRequest(Mint, m.transfer)] + [Executed(Mint, m.transfer, m.payload, false, hash)]
                       + [SubmittedMint(r.transfer, hash)]
  {
    var reloaded := Step(mid, Reloaded);
    ReloadRestores(mid, r);
    PressResumes(reloaded, true, Reread(r));
    var resuming := Press(reloaded, true);
    assert resuming.bridgeReady && resuming.now == mid.now by {
      ResumeKeeps(reloaded);
    }
    AttestedResume(resuming, Reread(r));
    var attested := Step(resuming, StatusReply(Some(AttestationReady)));
    PressMints(attested, true);
    LeadsOn(s, start, mid, Reloaded);
    events := start + [Reloaded];
    LeadsOn(s, events, reloaded, Begin(PrimaryAction(reloaded), true));
    events := events + [Begin(PrimaryAction(reloaded), true)];
    LeadsOn(s, events, resuming, StatusReply(Some(AttestationReady)));
    events := events + [StatusReply(Some(AttestationReady))];
    LeadsOn(s, events, attested, Begin(PrimaryAction(attested), true));
    events := events + [Begin(PrimaryAction(attested), true)];
    end, events := PreparedMintGoesThrough(s, events, Press(attested, true), m, hash);
  }

  lemma ResumeKeeps(s: Saga)
    requires s.task.NoTask?
    ensures var s' := Press(s, true); s'.now == s.now && (s'.task.ResumeStatus? ==> s'.bridgeReady == s.bridgeReady)
  {
  }

  lemma PreparedMintGoesThrough(s: Saga, start: seq<Event>, mid: Saga, m: MintPrep, hash: string)
    returns (end: Saga, events: seq<Event>)
    requires Leads(s, start, mid) && mid.task.MintPrepare? && !m.trustline
    ensures Leads(s, events, end)
    ensures end.log == mid.log + [WalletRequest(Mint, m.transfer)] + [Executed(Mint, m.transfer, m.payload, false, hash)]
                       + [SubmittedMint(mid.task.rec.transfer, hash)]
  {
    MintIsSubmitted(mid, m, hash);
    var signing := Step(mid, MintPrepReply(Some(m), true));
    end := Step(signing, MintWalletReply(Some(Execution(hash, true))));
    LeadsOn(s, start, mid, MintPrepReply(Some(m), true));
    events := start + [MintPrepReply(Some(m), true)];
    LeadsOn(s, events, signing, MintWalletReply(Some(Execution(hash, true))));
    events := events + [MintWalletReply(Some(Execution(hash, true)))];
  }

  /** What is left of the record once its pending transaction has been submitted. */
  function Submitted(r: Record): Record {
    Reread(r).(pending := None)
  }

  lemma ReloadAsks(s: Saga, r: Record) returns (end: Saga, events: seq<Event>)
    requires Load(s.vault, s.now) == Some(r) && r.pending.Some? && s.bridgeReady
    ensures Leads(s, events, end) && end.task == ReconcileReceipt(Reread(r), r.pending.value)
    ensures end.vault == Some(Reread(r)) && Load(end.vault, end.now) == end.vault
    ensures end.log == s.log && end.now == s.now && end.inputs == s.inputs && end.bridgeReady
  {
    var reloaded := Step(s, Reloaded);
    ReloadRestores(s, r);
    PressReconciles(reloaded, true);
    end := Press(reloaded, true);
    events := [];
    LeadsOn(s, events, s, Reloaded);
    events := events + [Reloaded];
    LeadsOn(s, events, reloaded, Begin(PrimaryAction(reloaded), true));
    events := events + [Begin(PrimaryAction(reloaded), true)];
  }

  /** A reload, a press and friendly answers submit the recorded transaction, exactly once. */
  lemma PendingIsSubmitted(s: Saga, r: Record) returns (end: Saga, events: seq<Event>)
    requires Load(s.vault, s.now) == Some(r) && r.pending.Some? && r.pending.value.role == Burn && s.bridgeReady
    ensures Leads(s, events, end) && end.log == s.log + [SubmittedBurn(r.transfer, r.pending.value.hash)]
    ensures end.vault == Some(Submitted(r)) && end.now == s.now && end.inputs == s.inputs && end.bridgeReady
  {
    var asking;
    asking, events := ReloadAsks(s, r);
    ReceiptKeeps(asking, Reread(r));
    var sending := Step(asking, ReceiptReply(Some(true)));
    end := Step(sending, ReconcileSubmitReply(true));
    LeadsOn(s, events, asking, ReceiptReply(Some(true)));
    events := events + [ReceiptReply(Some(true))];
    LeadsOn(s, events, sending, ReconcileSubmitReply(true));
    events := events + [ReconcileSubmitReply(true)];
  }

  lemma ReceiptKeeps(s: Saga, r: Record)
    requires s.task.ReconcileReceipt? && s.task.pending.role == Burn && Load(s.vault, s.now) == Some(r)
    ensures
      var s1 := Step(s, ReceiptReply(Some(true)));
      && s1.task.ReconcileSubmit?
      && var s2 := Step(s1, ReconcileSubmitReply(true));
      && s2.log == s.log + [SubmittedBurn(s.task.rec.transfer, s.task.pending.hash)]
      && s2.vault == Some(r.(pending := None)) && s2.now == s.now && s2.inputs == s.inputs && s2.bridgeReady == s.bridgeReady
  {
  }

  /**
    A burn whose page was reloaded before its receipt is not lost: reloading, pressing the offered button and
    getting friendly answers submits that burn, and then mints the same transfer, each once.
   */
  lemma PendingBurnGoesThrough(s: Saga, r: Record, m: MintPrep, hash: string) returns (end: Saga, events: seq<Event>)
    requires Load(s.vault, s.now) == Some(r) && r.pending.Some? && r.pending.value.role == Burn
    requires r.inputs == s.inputs && s.bridgeReady && !m.trustline
    ensures Leads(s, events, end)
    ensures end.log == s.log + [SubmittedBurn(r.transfer, r.pending.value.hash)] + [WalletRequest(Mint, m.transfer)]
                       + [Executed(Mint, m.transfer, m.payload, false, hash)] + [SubmittedMint(r.transfer, hash)]
  {
    var mid, start := PendingIsSubmitted(s, r);
    end, events := RecoveredMintGoesThrough(s, start, mid, Submitted(r), m, hash);
  }
}
