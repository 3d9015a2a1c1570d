/** Runs that show which hypotheses of the saga's results are needed. */
module CctpSagaWitnesses {
  import opened Options
  import opened CctpSaga
  import opened CctpSagaRuns

  // The old transfer's approval payload and the record at its successive stages.
  const OLD: BurnPrep := BurnPrep("T1", EvmTransaction([]), 10000, true)
  const PRINT: string := Fingerprint(OLD.payload)
  const FRESH: Record := Record("T1", "k1", 9000000, "form", Some(Unknown), None, None)
  const PREPARED: Record := FRESH.(step := Some(ApprovalReady), fp := Some(PRINT))
  const WAITING: Record := PREPARED.(pending := Some(Pending("h1", Approval, PENDING_TTL_MS)))
  const NEW: Record := Record("T2", "k2", 9000000, "form", Some(Unknown), None, None)
  const SENT: Act := Executed(Approval, "T1", OLD.payload, false, "h1")

  function Asked(): Saga { Init("form").(stage := Quoting, task := QuoteCall("form")) }
  function Answer(): Saga { Init("form").(vault := Some(FRESH), session := Some(FRESH), stage := Quoted) }
  function Preparing(): Saga { Answer().(task := PrepareCall(FRESH)) }
  function Ready(): Saga {
    Answer().(vault := Some(PREPARED), session := Some(PREPARED), fp := Some(PRINT), prepared := Some(OLD), step := ApprovalReady)
  }
  function Signing(): Saga {
    Ready().(stage := SignApproval, task := ApproveWallet(PREPARED, OLD), log := [WalletRequest(Approval, "T1")])
  }
  function Unconfirmed(): Saga {
    Ready().(vault := Some(WAITING), session := Some(WAITING), stage := PendingReconcile,
             seen := Some(RevisionOf(WAITING)), log := [WalletRequest(Approval, "T1"), SENT])
  }
  function Later(): Saga { Unconfirmed().(now := PENDING_TTL_MS) }
  function Checking(): Saga {
    Later().(vault := Some(PREPARED), seen := Some(RevisionOf(PREPARED)),
             auto := Some(Reconcile(PREPARED, Some(OLD), Some(PRINT))))
  }
  function Requoting(): Saga { Checking().(stage := Quoting, step := Unknown, task := QuoteCall("form")) }
  function Restored(): Saga {
    Requoting().(auto := None, status := Some(Cancelled), vault := None, session := Some(PREPARED), step := ApprovalReady)
  }
  function Mixed(): Saga { Restored().(vault := Some(NEW), session := Some(NEW), stage := Quoted, task := NoTask) }

  ghost predicate Reachable(s: Saga, rules: Rules) {
    exists states, events :: IsRun(states, events, rules) && states[|events|] == s
  }

  lemma Next(s: Saga, e: Event, rules: Rules)
    requires Reachable(s, rules) && Legal(s, e, rules)
    ensures Reachable(Step(s, e), rules)
  {
    var states, events :| IsRun(states, events, rules) && states[|events|] == s;
    RunGrows(states, events, rules, e);
    assert (states + [Step(s, e)])[|events + [e]|] == Step(s, e);
  }

  lemma QuoteAnswered(rules: Rules)
    ensures Reachable(Answer(), rules)
  {
    assert IsRun([Init("form")], [], rules);
    Next(Init("form"), Begin(DoQuote, true), rules);
    Next(Asked(), QuoteReply(Some(QuoteData("T1", "k1", 9000000))), rules);
  }

  lemma ApprovalPrepared(rules: Rules)
    requires rules.approvals == {PRINT}
    ensures Reachable(Ready(), rules)
  {
    QuoteAnswered(rules);
    Next(Answer(), Begin(DoPrepare, true), rules);
    Next(Preparing(), BurnPrepReply(Ok(OLD)), rules);
  }

  lemma ApprovalAsked(rules: Rules)
    requires rules.approvals == {PRINT} && !rules.driven
    ensures Reachable(Signing(), rules)
  {
    ApprovalPrepared(rules);
    Next(Ready(), Begin(DoApprove, true), rules);
  }

  lemma HashRecorded(rules: Rules)
    requires rules.approvals == {PRINT} && !rules.driven
    ensures Reachable(Unconfirmed(), rules)
  {
    ApprovalAsked(rules);
    Next(Signing(), BurnWalletReply(Ok(Execution("h1", false))), rules);
  }

  lemma ApprovalUnconfirmed(rules: Rules)
    requires rules.approvals == {PRINT} && !rules.driven
    ensures Reachable(Later(), rules)
  {
    HashRecorded(rules);
    Next(Unconfirmed(), Tick(PENDING_TTL_MS), rules);
  }

  /** The bridge going away and coming back is what runs the auto-reconcile effect again. */
  lemma BridgeReturns(rules: Rules)
    requires rules.approvals == {PRINT} && !rules.driven
    ensures Reachable(Later(), rules)
  {
    ApprovalUnconfirmed(rules);
    Next(Later(), InputsChanged("form", false), rules);
    Next(Later().(bridgeReady := false), InputsChanged("form", true), rules);
  }

  lemma ExpiryChecked(rules: Rules)
    requires rules.approvals == {PRINT} && !rules.driven
    ensures Reachable(Checking(), rules)
  {
    BridgeReturns(rules);
    Next(Later(), AutoEffect, rules);
  }

  lemma QuoteOverlaps(rules: Rules)
    requires rules.approvals == {PRINT} && !rules.driven && !rules.apart
    ensures Reachable(Requoting(), rules)
  {
    ExpiryChecked(rules);
    Next(Checking(), Begin(DoQuote, true), rules);
  }

  lemma LateReply()
    ensures OnAuto(Requoting(), Some(Cancelled)) == Restored()
  {
    assert ActiveRecord(None, PENDING_TTL_MS, PREPARED) == PREPARED;
    assert Usable(Some(OLD), Some(PRINT), PENDING_TTL_MS);
  }

  lemma TransferRestored(rules: Rules)
    requires rules.approvals == {PRINT} && !rules.driven && !rules.apart
    ensures Reachable(Restored(), rules)
  {
    QuoteOverlaps(rules);
    LateReply();
    Next(Requoting(), AutoReply(Some(Cancelled)), rules);
  }

  /**
    Without keeping quotes and auto-reconciles apart, a late auto-reconcile of the old transfer
    makes the new session offer, and the signing guard accept, the old transfer's payload.
   */
  lemma QuoteDuringAutoReconcile() returns (s: Saga)
    ensures Reachable(s, Rules(false, false, true, {PRINT}))
    ensures PrimaryAction(s) == DoApprove && MaySign(s, Approval)
    ensures s.session.Some? && s.prepared.Some? && s.prepared.value.transfer != s.session.value.transfer
  {
    var rules := Rules(false, false, true, {PRINT});
    TransferRestored(rules);
    Next(Restored(), QuoteReply(Some(QuoteData("T2", "k2", 9000000))), rules);
    s := Mixed();
  }

  function Watching(): Saga {
    Ready().(seen := Some(RevisionOf(PREPARED)), auto := Some(Reconcile(PREPARED, Some(OLD), Some(PRINT))))
  }
  function Pressed(): Saga {
    Watching().(stage := SignApproval, task := ApproveWallet(PREPARED, OLD), log := [WalletRequest(Approval, "T1")])
  }
  function Declined(): Saga { Pressed().(stage := Failed, task := NoTask) }
  function AskedAgain(): Saga { Declined().(stage := Quoting, step := Unknown, task := QuoteCall("form")) }
  function Overtaken(): Saga { AskedAgain().(auto := None, status := Some(Cancelled), vault := None, step := ApprovalReady) }
  function Crossed(): Saga { Overtaken().(vault := Some(NEW), session := Some(NEW), stage := Quoted, task := NoTask) }

  lemma ReconcileWatches(rules: Rules)
    requires rules.approvals == {PRINT}
    ensures Reachable(Watching(), rules)
  {
    ApprovalPrepared(rules);
    Next(Ready(), AutoEffect, rules);
  }

  lemma ApprovePressed(rules: Rules)
    requires rules.approvals == {PRINT}
    ensures Reachable(Pressed(), rules)
  {
    ReconcileWatches(rules);
    Next(Watching(), Begin(DoApprove, true), rules);
  }

  lemma ApprovalDeclined(rules: Rules)
    requires rules.approvals == {PRINT}
    ensures Reachable(Declined(), rules)
  {
    ApprovePressed(rules);
    Next(Pressed(), BurnWalletReply(Err(OtherFailure)), rules);
  }

  lemma QuotePressed(rules: Rules)
    requires rules.approvals == {PRINT} && !rules.apart
    ensures Reachable(AskedAgain(), rules)
  {
    ApprovalDeclined(rules);
    Next(Declined(), Begin(DoQuote, true), rules);
  }

  lemma OvertakingReply()
    ensures OnAuto(AskedAgain(), Some(Cancelled)) == Overtaken()
  {
    assert ActiveRecord(None, 0, PREPARED) == PREPARED;
    assert Usable(Some(OLD), Some(PRINT), 0);
  }

  lemma QuoteOvertaken(rules: Rules)
    requires rules.approvals == {PRINT} && !rules.apart
    ensures Reachable(Overtaken(), rules)
  {
    QuotePressed(rules);
    OvertakingReply();
    Next(AskedAgain(), AutoReply(Some(Cancelled)), rules);
  }

  /** The same by pressing offered buttons only, when the auto-reconcile effect runs after the prepare. */
  lemma OfferedQuoteDuringAutoReconcile() returns (s: Saga)
    ensures Reachable(s, Rules(false, true, true, {PRINT}))
    ensures PrimaryAction(s) == DoApprove && MaySign(s, Approval)
    ensures s.session.Some? && s.prepared.Some? && s.prepared.value.transfer != s.session.value.transfer
  {
    var rules := Rules(false, true, true, {PRINT});
    QuoteOvertaken(rules);
    Next(Overtaken(), QuoteReply(Some(QuoteData("T2", "k2", 9000000))), rules);
    s := Crossed();
  }

  // The old payload's bytes once more, without the approval flag.
  const TWIN: BurnPrep := BurnPrep("T1", EvmTransaction([]), 10000, false)

  function Repreparing(): Saga { Watching().(task := PrepareCall(PREPARED)) }
  function Reflagged(): Saga {
    var r := PREPARED.(step := Some(BurnReady));
    Watching().(vault := Some(r), session := Some(r), prepared := Some(TWIN), step := BurnReady)
  }
  function Confused(): Saga {
    Reflagged().(auto := None, status := Some(Cancelled), vault := None, session := Some(PREPARED), step := ApprovalReady)
  }

  lemma FlagChanges(rules: Rules)
    requires rules.approvals == {PRINT} && !rules.driven && !rules.fair
    ensures Reachable(Reflagged(), rules)
  {
    ReconcileWatches(rules);
    Next(Watching(), Begin(DoPrepare, true), rules);
    Next(Repreparing(), BurnPrepReply(Ok(TWIN)), rules);
  }

  lemma StaleFlagReply()
    ensures OnAuto(Reflagged(), Some(Cancelled)) == Confused()
  {
    assert ActiveRecord(None, 0, PREPARED) == PREPARED;
    assert Usable(Some(OLD), Some(PRINT), 0);
  }

  /**
    A server that flags the same bytes first as an approval and then not makes the hook, session and
    all, offer an approval that its own signing guard refuses.
   */
  lemma UnfairFlagsConfuse() returns (s: Saga)
    ensures Reachable(s, Rules(true, false, false, {PRINT}))
    ensures BurnStepOf(s) == ApprovalReady && s.prepared.Some? && !s.prepared.value.approval
    ensures PrimaryAction(s) == DoApprove && s.session.Some? && !MaySign(s, Approval)
  {
    var rules := Rules(true, false, false, {PRINT});
    FlagChanges(rules);
    StaleFlagReply();
    Next(Reflagged(), AutoReply(Some(Cancelled)), rules);
    s := Confused();
  }

  function Looking(): Saga {
    Answer().(seen := Some(RevisionOf(FRESH)), auto := Some(Reconcile(FRESH, None, None)))
  }
  function Busy(): Saga { Looking().(task := PrepareCall(FRESH)) }
  function Lost(): Saga { Busy().(auto := None, vault := None, session := None, stage := Idle, seen := None) }
  function Orphan(): Saga {
    Lost().(task := NoTask, stage := Quoted, fp := Some(PRINT), prepared := Some(OLD), step := ApprovalReady)
  }

  lemma LookupStarts(rules: Rules)
    ensures Reachable(Looking(), rules)
  {
    QuoteAnswered(rules);
    Next(Answer(), AutoEffect, rules);
  }

  lemma PrepareDuringLookup(rules: Rules)
    ensures Reachable(Busy(), rules)
  {
    LookupStarts(rules);
    Next(Looking(), Begin(DoPrepare, true), rules);
  }

  lemma LookupLost(rules: Rules)
    ensures Reachable(Lost(), rules)
  {
    PrepareDuringLookup(rules);
    Next(Busy(), AutoReply(None), rules);
  }

  /** Even on the strictest runs an approval may be offered after the session is gone. */
  lemma OfferedWithoutSession() returns (s: Saga)
    ensures Reachable(s, Rules(true, true, true, {PRINT}))
    ensures PrimaryAction(s) == DoApprove && !MaySign(s, Approval) && s.session.None?
  {
    var rules := Rules(true, true, true, {PRINT});
    LookupLost(rules);
    Next(Lost(), BurnPrepReply(Ok(OLD)), rules);
    s := Orphan();
  }

  /** A trustline flag on an EVM payload is not honoured: the payload is executed and submitted as the mint. */
  lemma FlaggedEvmPayloadIsMinted(s: Saga, m: MintPrep, hash: string)
    requires s.task.MintPrepare? && m.trustline && m.payload.EvmTransaction?
    ensures
      var s1 := OnMintPrep(s, Some(m), true);
      && s1.task.MintWallet?
      && OnMintWallet(s1, Some(Execution(hash, true))).log
         == s.log + [WalletRequest(Mint, m.transfer), Executed(Mint, m.transfer, m.payload, true, hash),
                     SubmittedMint(s.task.rec.transfer, hash)]
  {
    var s1 := OnMintPrep(s, Some(m), true);
    var log := OnMintWallet(s1, Some(Execution(hash, true))).log;
    assert log == ((s.log + [WalletRequest(Mint, m.transfer)])
                   + [Executed(Mint, m.transfer, m.payload, true, hash)]) + [SubmittedMint(s.task.rec.transfer, hash)];
  }
}
