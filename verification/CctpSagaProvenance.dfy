/** Where the transaction hashes given to the bridge come from. */
module CctpSagaProvenance {
  import opened Options
  import opened CctpSaga
  import opened CctpSagaRuns
  import Coherence = CctpSagaCoherence

  /** An execution in this role that returned this hash; `strict` also asks for the same transfer. */
  predicate RanAs(a: Act, role: Role, t: string, hash: string, strict: bool) {
    && a.Executed? && a.role == role && a.hash == hash
    && (a.trustline ==> a.payload.EvmTransaction?)
    && (strict ==> a.transfer == t)
  }

  ghost predicate Ran(log: seq<Act>, role: Role, t: string, hash: string, strict: bool) {
    exists a :: a in log && RanAs(a, role, t, hash, strict)
  }

  /** What the i-th act submits was executed before, in the role that submit is for. */
  ghost predicate Explained(log: seq<Act>, i: nat, strict: bool)
    requires i < |log|
  {
    match log[i]
    case SubmittedMint(t, hash) => Ran(log[..i], Mint, t, hash, strict)
    case SubmittedBurn(t, hash) => Ran(log[..i], Approval, t, hash, strict) || Ran(log[..i], Burn, t, hash, strict)
    case _ => true
  }

  ghost predicate LogOk(log: seq<Act>, strict: bool) {
    forall i :: 0 <= i < |log| ==> Explained(log, i, strict)
  }

  ghost predicate PendingOk(log: seq<Act>, p: Pending, t: string, strict: bool) {
    p.role != Trustline && Ran(log, p.role, t, p.hash, strict)
  }

  ghost predicate RecordExplained(log: seq<Act>, r: Option<Record>, strict: bool) {
    r.Some? && r.value.pending.Some? ==> PendingOk(log, r.value.pending.value, r.value.transfer, strict)
  }

  ghost predicate TaskExplained(log: seq<Act>, task: Task, strict: bool) {
    match task
    case ApproveWallet(r, p) => strict ==> p.transfer == r.transfer
    case BurnWallet(r, p) => strict ==> p.transfer == r.transfer
    case MintWallet(r, m) => (m.trustline ==> m.payload.EvmTransaction?) && (strict ==> m.transfer == r.transfer)
    case ReconcileReceipt(r, p) => PendingOk(log, p, r.transfer, strict)
    case _ => true
  }

  ghost predicate Provenance(s: Saga, strict: bool) {
    && LogOk(s.log, strict)
    && TaskExplained(s.log, s.task, strict)
    && RecordExplained(s.log, s.vault, strict)
    && RecordExplained(s.log, s.session, strict)
    && RecordExplained(s.log, AutoRecord(s), strict)
  }

  lemma {:induction false} LogGrows(log: seq<Act>, more: seq<Act>, strict: bool)
    requires LogOk(log, strict)
    requires forall i :: |log| <= i < |log + more| ==> Explained(log + more, i, strict)
    ensures LogOk(log + more, strict)
  {
    forall i | 0 <= i < |log + more|
      ensures Explained(log + more, i, strict)
    {
      if i < |log| {
        assert (log + more)[..i] == log[..i];
        assert Explained(log, i, strict);
      }
    }
  }

  // --- Steps that leave the log alone ---------------------------------------------------

  predicate Like(r: Record, other: Option<Record>) {
    other.Some? && other.value.transfer == r.transfer && other.value.pending == r.pending
  }

  /** A record with a pending hash is a copy of one the state already had. */
  predicate From(r: Option<Record>, s: Saga) {
    r.Some? && r.value.pending.Some? ==>
      Like(r.value, s.vault) || Like(r.value, s.session) || Like(r.value, AutoRecord(s))
  }

  /** A wait that neither holds a payload for the wallet nor a pending hash. */
  predicate Plain(task: Task) {
    !task.ApproveWallet? && !task.BurnWallet? && !task.MintWallet? && !task.ReconcileReceipt?
  }

  /** The log is the same, and no place of s' remembers a payload or pending hash that s did not. */
  predicate Inherits(s: Saga, s': Saga) {
    && s'.log == s.log
    && (s'.task == s.task || Plain(s'.task))
    && From(s'.vault, s) && From(s'.session, s) && From(AutoRecord(s'), s)
  }

  lemma QuietKeeps(s: Saga, s': Saga, strict: bool)
    requires Provenance(s, strict) && Inherits(s, s')
    ensures Provenance(s', strict)
  {
  }

  lemma ResolvedInherits(s: Saga, r: Record, prepared: Option<BurnPrep>, fp: Option<string>)
    ensures Inherits(s, ApplyResolved(s, r, prepared, fp))
  {
  }

  lemma StatusInherits(s: Saga, st: TransferStatus)
    ensures Inherits(s, HandleStatus(s, st)) && Inherits(s, FetchStatus(s, st))
  {
  }

  lemma Transitive(s0: Saga, s1: Saga, s2: Saga)
    requires Inherits(s0, s1) && Inherits(s1, s2)
    ensures Inherits(s0, s2)
  {
  }

  /** The events that only move records around. */
  predicate Quiet(e: Event) {
    !e.BurnWalletReply? && !e.MintWalletReply? && !e.MintPrepReply? && !e.ReceiptReply? && !e.Begin?
  }

  lemma AutoInherits(s: Saga, reply: Option<TransferStatus>)
    requires s.auto.Some?
    ensures Inherits(s, OnAuto(s, reply))
  {
    if reply.Some? {
      var s1 := FetchStatus(s.(auto := None), reply.value);
      StatusInherits(s.(auto := None), reply.value);
      var active := ActiveRecord(s1.vault, s.now, s.auto.value.rec);
      var s2 := Sync(s1.(vault := Load(s1.vault, s.now)), active);
      assert Inherits(s, s2);
      ResolvedInherits(s2, active, s.auto.value.prepared, s.auto.value.fp);
      Transitive(s, s2, Adopt(s1, s.auto.value));
    }
  }

  lemma RestagedInherits(s: Saga, s': Saga, stage: Stage)
    requires Inherits(s, s')
    ensures Inherits(s, s'.(stage := stage))
  {
  }

  lemma ResumedInherits(s: Saga, st: TransferStatus)
    requires s.task.ResumeStatus?
    ensures Inherits(s, Coherence.Resolved(s, st))
  {
    var s0 := s.(task := NoTask);
    var s1 := FetchStatus(s0, st);
    StatusInherits(s0, st);
    Transitive(s, s0, s1);
    ResolvedInherits(s1, s.task.rec, s.task.prepared, s.task.fp);
    Transitive(s, s1, Coherence.Resolved(s, st));
  }

  lemma ResumeReplyInherits(s: Saga, reply: Option<TransferStatus>)
    requires s.task.ResumeStatus?
    ensures Inherits(s, OnResumeStatus(s, reply))
  {
    if reply.Some? {
      ResumedInherits(s, reply.value);
      RestagedInherits(s, Coherence.Resolved(s, reply.value), OnResumeStatus(s, reply).stage);
    }
  }

  lemma MismatchInherits(s: Saga, r: Record)
    requires Load(s.vault, s.now) == Some(r)
    ensures Inherits(s, ApplyResolved(Sync(s.(vault := Some(r)), r), r, s.prepared, s.fp))
  {
    var s1 := Sync(s.(vault := Some(r)), r);
    ResolvedInherits(s1, r, s.prepared, s.fp);
    Transitive(s, s1, ApplyResolved(s1, r, s.prepared, s.fp));
  }

  lemma AutoStartInherits(s: Saga)
    ensures Inherits(s, AutoStart(s))
  {
    if s.bridgeReady && s.session.Some? && Load(s.vault, s.now).Some? {
      var r := Load(s.vault, s.now).value;
      if s.seen != Some(RevisionOf(r)) && r.inputs != s.inputs {
        MismatchInherits(s, r);
        RestagedInherits(s, ApplyResolved(Sync(s.(vault := Some(r)), r), r, s.prepared, s.fp), ResumePending);
      }
    }
  }

  lemma ReloadInherits(s: Saga)
    ensures Inherits(s, Reload(s))
  {
  }

  lemma ResumeInherits(s: Saga)
    ensures Inherits(s, BeginResume(s))
  {
    if Load(s.vault, s.now).Some? {
      var r := Load(s.vault, s.now).value;
      var s1 := Sync(s.(vault := Some(r)), r);
      ResolvedInherits(s1, r, s.prepared, s.fp);
      Transitive(s, s1, ApplyResolved(s1, r, s.prepared, s.fp));
    }
  }

  lemma FailureInherits(s: Saga, f: Failure)
    ensures Inherits(s, SignFailed(s, f))
  {
  }

  lemma BurnPrepInherits(s: Saga, reply: Result<BurnPrep, Failure>)
    requires s.task.PrepareCall? || s.task.ApprovePrepare?
    ensures Inherits(s, OnBurnPrep(s, reply))
  {
    if reply.Err? { FailureInherits(s, reply.error); }
  }

  lemma BurnSubmitInherits(s: Saga, reply: Result<(), Failure>)
    requires s.task.ApproveSubmit? || s.task.BurnSubmit?
    ensures Inherits(s, OnBurnSubmit(s, reply))
  {
    if reply.Err? { FailureInherits(s, reply.error); }
  }

  lemma ApproveStatusInherits(s: Saga, reply: Result<TransferStatus, Failure>)
    requires s.task.ApproveStatus?
    ensures Inherits(s, OnApproveStatus(s, reply))
  {
    if reply.Err? {
      FailureInherits(s, reply.error);
    } else {
      StatusInherits(s, reply.value);
      Transitive(s, HandleStatus(s, reply.value), OnApproveStatus(s, reply));
    }
  }

  lemma StatusReplyInherits(s: Saga, reply: Option<TransferStatus>)
    requires s.task.ReconcileStatus? || s.task.ReattestCall?
    ensures Inherits(s, Step(s, StatusReply(reply)))
  {
    if reply.Some? {
      StatusInherits(s, reply.value);
      Transitive(s, HandleStatus(s, reply.value), Step(s, StatusReply(reply)));
    }
  }

  lemma ClearedInherits(s: Saga, inputs: string, ready: bool)
    ensures Inherits(s, Reset(s)) && Inherits(s, ChangeInputs(s, inputs, ready))
  {
  }

  lemma QuoteInherits(s: Saga, reply: Option<QuoteData>)
    requires s.task.QuoteCall?
    ensures Inherits(s, OnQuote(s, reply))
  {
  }

  lemma AckInherits(s: Saga, ack: bool)
    ensures s.task.MintSubmit? ==> Inherits(s, OnMintSubmit(s, ack))
    ensures s.task.ReconcileSubmit? ==> Inherits(s, OnReconcileSubmit(s, ack))
  {
  }

  lemma QuietInherits(s: Saga, e: Event)
    requires Possible(s, e) && Quiet(e)
    ensures Inherits(s, Step(s, e))
  {
    match e
    case AutoEffect => AutoStartInherits(s);
    case AutoReply(reply) => AutoInherits(s, reply);
    case Reloaded => ReloadInherits(s);
    case Polled(st) => StatusInherits(s, st);
    case StatusReply(reply) =>
      if s.task.ResumeStatus? { ResumeReplyInherits(s, reply); } else { StatusReplyInherits(s, reply); }
    case BurnPrepReply(reply) => BurnPrepInherits(s, reply);
    case BurnSubmitReply(reply) => BurnSubmitInherits(s, reply);
    case ApproveStatusReply(reply) => ApproveStatusInherits(s, reply);
    case QuoteReply(reply) => QuoteInherits(s, reply);
    case ResetPressed => ClearedInherits(s, "", true);
    case InputsChanged(inputs, ready) => ClearedInherits(s, inputs, ready);
    case MintSubmitReply(ack) => AckInherits(s, ack);
    case ReconcileSubmitReply(ack) => AckInherits(s, ack);
    case _ =>
  }

  // --- Steps that extend the log ----------------------------------------------------------

  lemma NoteKeeps(s: Saga, a: Act, strict: bool)
    requires Provenance(s, strict) && Explained(s.log + [a], |s.log|, strict)
    ensures Provenance(Note(s, a), strict)
  {
    LogGrows(s.log, [a], strict);
    assert forall x :: x in s.log ==> x in s.log + [a];
  }

  lemma CommitKeeps(s: Saga, hash: string, role: Role, strict: bool)
    requires Provenance(s, strict) && role != Trustline
    requires s.vault.Some? ==> Ran(s.log, role, s.vault.value.transfer, hash, strict)
    ensures Provenance(CommitPending(s, hash, role), strict)
  {
  }

  /** With strict provenance every record at hand is of one transfer. */
  ghost predicate OneTransfer(s: Saga, strict: bool) {
    strict ==> exists t, approvals :: Coherence.Coherence(s, t, approvals)
  }

  lemma SameTransfer(s: Saga, strict: bool)
    requires OneTransfer(s, strict) && strict
    ensures s.vault.Some? && s.session.Some? ==> s.vault.value.transfer == s.session.value.transfer
    ensures s.vault.Some? && Captured(s.task).Some? ==> s.vault.value.transfer == s.task.rec.transfer
    ensures s.step.Ready() && s.session.Some? && s.prepared.Some? ==> s.prepared.value.transfer == s.session.value.transfer
  {
    var t, approvals :| Coherence.Coherence(s, t, approvals);
    Coherence.Everywhere(s, t, approvals);
  }

  lemma SignKeeps(s: Saga, rolesOk: bool, strict: bool)
    requires Provenance(s, strict) && OneTransfer(s, strict)
    ensures Provenance(BeginApprove(s, rolesOk), strict) && Provenance(BeginBurn(s, rolesOk), strict)
  {
    if strict { SameTransfer(s, strict); }
    if s.prepared.Some? {
      NoteKeeps(s, WalletRequest(Approval, s.prepared.value.transfer), strict);
      NoteKeeps(s, WalletRequest(Burn, s.prepared.value.transfer), strict);
    }
  }

  lemma ReconcileKeeps(s: Saga, strict: bool)
    requires Provenance(s, strict) && OneTransfer(s, strict)
    ensures Provenance(BeginReconcile(s), strict)
  {
    if strict { SameTransfer(s, strict); }
  }

  lemma BeginKeeps(s: Saga, a: Action, ok: bool, strict: bool)
    requires Provenance(s, strict) && OneTransfer(s, strict) && s.task.NoTask?
    ensures Provenance(Start(s, a, ok), strict)
  {
    match a
    case DoApprove => SignKeeps(s, ok, strict);
    case DoBurn => SignKeeps(s, ok, strict);
    case DoReconcile => ReconcileKeeps(s, strict);
    case DoResume => ResumeInherits(s); QuietKeeps(s, BeginResume(s), strict);
    case _ => QuietKeeps(s, Start(s, a, ok), strict);
  }

  lemma BurnWalletKeeps(s: Saga, reply: Result<Execution, Failure>, strict: bool)
    requires Provenance(s, strict) && OneTransfer(s, strict) && (s.task.ApproveWallet? || s.task.BurnWallet?)
    ensures Provenance(OnBurnWallet(s, reply), strict)
  {
    match reply
    case Err(f) => FailureInherits(s, f); QuietKeeps(s, SignFailed(s, f), strict);
    case Ok(x) =>
      var role := if s.task.ApproveWallet? then Approval else Burn;
      var a := Executed(role, s.task.prep.transfer, s.task.prep.payload, false, x.hash);
      NoteKeeps(s, a, strict);
      var s1 := Note(s, a);
      assert RanAs(a, role, s.task.rec.transfer, x.hash, strict) && a in s1.log;
      if x.ready {
        var b := SubmittedBurn(s.task.rec.transfer, x.hash);
        assert (s1.log + [b])[..|s1.log|] == s1.log;
        NoteKeeps(s1, b, strict);
      } else {
        if strict { SameTransfer(s, strict); }
        CommitKeeps(s1, x.hash, role, strict);
      }
  }

  lemma MintWalletKeeps(s: Saga, reply: Option<Execution>, strict: bool)
    requires Provenance(s, strict) && OneTransfer(s, strict) && (s.task.TrustlineWallet? || s.task.MintWallet?)
    ensures Provenance(OnMintWallet(s, reply), strict)
  {
    match reply
    case None => QuietKeeps(s, OnMintWallet(s, None), strict);
    case Some(x) =>
      var role := if s.task.TrustlineWallet? then Trustline else Mint;
      var m := s.task.mint;
      var a := Executed(role, m.transfer, m.payload, m.trustline, x.hash);
      NoteKeeps(s, a, strict);
      var s1 := Note(s, a);
      if s.task.MintWallet? {
        assert RanAs(a, Mint, s.task.rec.transfer, x.hash, strict) && a in s1.log;
        if x.ready {
          var b := SubmittedMint(s.task.rec.transfer, x.hash);
          assert (s1.log + [b])[..|s1.log|] == s1.log;
          NoteKeeps(s1, b, strict);
        } else {
          if strict { SameTransfer(s, strict); }
          CommitKeeps(s1, x.hash, Mint, strict);
        }
      }
  }

  lemma MintPrepKeeps(s: Saga, reply: Option<MintPrep>, roles: bool, strict: bool)
    requires Provenance(s, strict) && (s.task.MintPrepare? || s.task.MintReprepare?)
    requires reply.Some? ==> reply.value.transfer == s.task.rec.transfer
    ensures Provenance(OnMintPrep(s, reply, roles), strict)
  {
    if reply.Some? {
      NoteKeeps(s, WalletRequest(Trustline, reply.value.transfer), strict);
      NoteKeeps(s, WalletRequest(Mint, reply.value.transfer), strict);
    }
  }

  lemma ReceiptKeeps(s: Saga, reply: Option<bool>, strict: bool)
    requires Provenance(s, strict) && s.task.ReconcileReceipt?
    ensures Provenance(OnReceipt(s, reply), strict)
  {
    var Pending(hash, role, _) := s.task.pending;
    var t := s.task.rec.transfer;
    var a := if role == Mint then SubmittedMint(t, hash) else SubmittedBurn(t, hash);
    assert (s.log + [a])[..|s.log|] == s.log;
    NoteKeeps(s, a, strict);
  }

  lemma ProvenanceKept(s: Saga, e: Event, strict: bool)
    requires Provenance(s, strict) && OneTransfer(s, strict)
    requires Possible(s, e) && Answered(s, e)
    ensures Provenance(Step(s, e), strict)
  {
    match e
    case Begin(a, ok) => BeginKeeps(s, a, ok, strict);
    case BurnWalletReply(reply) => BurnWalletKeeps(s, reply, strict);
    case MintWalletReply(reply) => MintWalletKeeps(s, reply, strict);
    case MintPrepReply(reply, roles) => MintPrepKeeps(s, reply, roles, strict);
    case ReceiptReply(reply) => ReceiptKeeps(s, reply, strict);
    case _ => QuietInherits(s, e); QuietKeeps(s, Step(s, e), strict);
  }

  lemma {:induction false} ProvenRun(states: seq<Saga>, events: seq<Event>, rules: Rules, n: nat)
    requires IsRun(states, events, rules) && n <= |events|
    ensures Provenance(states[n], Tied(rules))
  {
    if n == 0 {
      assert states[0] == Init(states[0].inputs);
    } else {
      ProvenRun(states, events, rules, n - 1);
      if Tied(rules) {
        var t := Coherence.CoherentRun(states, events, rules, n - 1);
      }
      ProvenanceKept(states[n - 1], events[n - 1], Tied(rules));
    }
  }

  /** A submitted hash came back from an earlier execution in the role the submit is for. */
  ghost predicate Sourced(log: seq<Act>, i: nat, strict: bool)
    requires i < |log|
  {
    var a := log[i];
    && (a.SubmittedMint? ==> exists j :: 0 <= j < i && RanAs(log[j], Mint, a.transfer, a.hash, strict))
    && (a.SubmittedBurn? ==>
          exists j :: 0 <= j < i &&
            (RanAs(log[j], Approval, a.transfer, a.hash, strict) || RanAs(log[j], Burn, a.transfer, a.hash, strict)))
  }

  /**
    Hash provenance: in every run, whatever is submitted as a mint was returned by executing
    a mint payload, never the trustline one, and whatever is submitted as a burn by executing
    an approval or burn payload. When quotes and auto-reconciles stay apart the executed
    payload was moreover prepared for the very transfer the hash is submitted to.
   */
  lemma HashProvenance(states: seq<Saga>, events: seq<Event>, rules: Rules, n: nat, i: nat)
    requires IsRun(states, events, rules) && n <= |events| && i < |states[n].log|
    ensures Sourced(states[n].log, i, Tied(rules))
  {
    ProvenRun(states, events, rules, n);
    var log := states[n].log;
    assert Explained(log, i, Tied(rules));
    match log[i]
    case SubmittedMint(t, hash) =>
      var x :| x in log[..i] && RanAs(x, Mint, t, hash, Tied(rules));
      var j :| 0 <= j < i && log[j] == x;
    case SubmittedBurn(t, hash) =>
      var x :| x in log[..i] && (RanAs(x, Approval, t, hash, Tied(rules)) || RanAs(x, Burn, t, hash, Tied(rules)));
      var j :| 0 <= j < i && log[j] == x;
    case _ =>
  }
}
