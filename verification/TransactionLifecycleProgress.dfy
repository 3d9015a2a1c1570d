/** What the swap lifecycle does do: where each reply leads, and that an accepted swap is not sent again. */
module TransactionLifecycleProgress {
  import opened Options
  import opened TransactionLifecycle
  import opened TransactionLifecycleProofs

  // --- Where each reply leads ------------------------------------------------------------

  /** A submit's answer settles an uncancelled run: confirmed with the hash, or failed with the error. */
  lemma SubmitAnswered(l: Life, r: nat, reply: Result<string, Fault>, cfg: Config)
    requires Possible(l, SubmitReply(r, reply)) && !l.cancelled
    ensures
      var l' := Step(l, SubmitReply(r, reply), cfg);
      && r !in l'.runs && l'.timerRef.None? && (l.timerRef.Some? ==> l.timerRef.value !in l'.timers)
      && match reply
         case Ok(hash) =>
           l'.status == Confirmed && l'.txHash == Some(hash) && l'.log == l.log + [Accepted(l.runs[r].swap, hash)]
         case Err(f) => l'.status == Failed && l'.error == Some(f) && l'.log == l.log && l'.lastSigned == l.lastSigned
  {
  }

  /** A built envelope goes to the wallet; a failed build fails the swap. */
  lemma BuildAnswered(l: Life, r: nat, reply: Result<(), Fault>, cfg: Config)
    requires Possible(l, BuildReply(r, reply)) && !l.cancelled
    ensures
      var l' := Step(l, BuildReply(r, reply), cfg);
      match reply
      case Ok(_) =>
        && r in l'.runs && l'.runs[r] == Signing(l.runs[r].swap)
        && l'.log == l.log + [AskedSign(l.runs[r].swap)] && l'.status == l.status
      case Err(f) => r !in l'.runs && l'.status == Failed && l'.error == Some(f) && l'.log == l.log
  {
  }

  /** A signature is held and sent at once, under a deadline; a refusal fails the swap and holds nothing. */
  lemma SignAnswered(l: Life, r: nat, reply: Result<string, Fault>, cfg: Config)
    requires Possible(l, SignReply(r, reply)) && !l.cancelled
    ensures
      var l' := Step(l, SignReply(r, reply), cfg);
      var swap := l.runs[r].swap;
      match reply
      case Ok(envelope) =>
        && r in l'.runs && l'.runs[r] == Submitting(swap, envelope) && l'.status == Submitted
        && l'.lastSigned == Some(envelope) && l'.log == l.log + [Signed(swap, envelope)] + [Sent(swap, envelope)]
        && l'.timerRef.Some? && l'.timerRef.value in l'.timers
      case Err(f) =>
        r !in l'.runs && l'.status == Failed && l'.error == Some(f) && l'.log == l.log && l'.lastSigned.None?
  {
  }

  /** A cancelled run is dropped at its next answer, without a trace in the status. */
  lemma CancelledIsDropped(l: Life, r: nat, cfg: Config, built: Result<(), Fault>, signed: Result<string, Fault>)
    requires l.cancelled && r in l.runs
    ensures l.runs[r].Building? ==>
      var l' := Step(l, BuildReply(r, built), cfg); r !in l'.runs && l'.status == l.status && l'.log == l.log
    ensures l.runs[r].Signing? ==>
      var l' := Step(l, SignReply(r, signed), cfg); r !in l'.runs && l'.status == l.status && l'.timers == l.timers
  {
  }

  /** A deadline that passes drops a swap that is still submitted, and changes nothing else. */
  lemma DeadlinePasses(l: Life, t: nat, cfg: Config)
    requires Possible(l, Deadline(t))
    ensures
      var l' := Step(l, Deadline(t), cfg);
      && l'.status == (if l.status == Submitted then Dropped else l.status)
      && t !in l'.timers && l'.runs == l.runs && l'.log == l.log && l'.txHash == l.txHash && l'.error == l.error
  {
  }

  /** The swap failed with its outcome unknown, and its envelope is held. */
  predicate Unresolved(l: Life) {
    l.status == Failed && l.error == Some(Fault(true)) && l.lastSigned.Some? && l.lastSigned.value != ""
  }

  /** Retrying an unresolved swap, either way, sends the held envelope again, under the same swap and a new deadline. */
  lemma UnresolvedIsResent(l: Life, cfg: Config)
    requires Unresolved(l) && l.params.Some?
    ensures
      var l' := Step(l, CallResubmit, cfg);
      && l' == Step(l, CallTryAgain, cfg)
      && l'.status == Submitted && !l'.cancelled && l'.error.None? && l'.swap == l.swap
      && l'.log == l.log + [Sent(l.swap, l.lastSigned.value)]
      && l'.runs == l.runs[l.nextRun := Submitting(l.swap, l.lastSigned.value)]
      && l'.timerRef.Some? && l'.timerRef.value in l'.timers && l'.lastSigned == l.lastSigned
  {
  }

  /** Resubmitting a dropped swap starts a new one with the same trade; in any other case it does nothing. */
  lemma ResubmitOtherwise(l: Life, cfg: Config)
    requires !Unresolved(l) || l.params.None?
    ensures Step(l, CallResubmit, cfg) ==
      if l.status == Dropped && l.params.Some? then Step(l, CallInitiate(l.params.value), cfg) else l
  {
  }

  /** Otherwise trying again returns to review and keeps the trade; dismissing drops the trade too. */
  lemma BackToReview(l: Life, cfg: Config)
    ensures !Unresolved(l) ==>
      var l' := Step(l, CallTryAgain, cfg);
      && l'.status == Review && l'.lastSigned.None? && l'.error.None? && l'.txHash.None? && l'.params == l.params
      && l'.log == l.log && l'.runs == l.runs && (l.timerRef.Some? ==> l.timerRef.value !in l'.timers)
    ensures
      var l' := Step(l, CallDismiss, cfg);
      && l'.status == Review && l'.lastSigned.None? && l'.error.None? && l'.txHash.None? && l'.params.None?
      && l'.log == l.log && l'.runs == l.runs && (l.timerRef.Some? ==> l.timerRef.value !in l'.timers)
  {
  }

  /** Cancelling acts on a pending swap only. */
  lemma CancelMeans(l: Life, cfg: Config)
    ensures
      var l' := Step(l, CallCancel, cfg);
      if l.status == Pending then l'.cancelled && l'.status == Review && l'.error.None? && l'.log == l.log else l' == l
  {
  }

  /** A swap starts clean: it asks for its envelope, or, misconfigured, fails without asking anyone. */
  lemma SwapStarts(l: Life, p: Params, cfg: Config)
    ensures
      var l' := Step(l, CallInitiate(p), cfg);
      && l'.params == Some(p) && l'.lastSigned.None? && l'.txHash.None? && !l'.cancelled
      && if p.wallet && (!cfg.hasBuilder || cfg.defaultSign || cfg.defaultSubmit)
         then l'.status == Failed && l'.error == Some(Fault(false)) && l'.log == l.log && l'.runs == l.runs
         else
           && l'.status == Pending && l'.log == l.log + [FirstAsk(cfg, l.swap + 1)] && l'.swap == l.swap + 1
           && l'.runs == l.runs[l.nextRun := if cfg.hasBuilder then Building(l.swap + 1) else Signing(l.swap + 1)]
  {
  }

  /** With a builder, a wallet and a network that answer, a swap is built, signed, sent and confirmed, each once. */
  lemma SwapGoesThrough(l: Life, p: Params, cfg: Config, envelope: string, hash: string)
    requires cfg.hasBuilder && !Misconfigured(p, cfg)
    ensures
      var r, swap := l.nextRun, l.swap + 1;
      var l1 := Step(l, CallInitiate(p), cfg);
      && Possible(l1, BuildReply(r, Ok(())))
      && var l2 := Step(l1, BuildReply(r, Ok(())), cfg);
      && Possible(l2, SignReply(r, Ok(envelope)))
      && var l3 := Step(l2, SignReply(r, Ok(envelope)), cfg);
      && Possible(l3, SubmitReply(r, Ok(hash)))
      && var l4 := Step(l3, SubmitReply(r, Ok(hash)), cfg);
      && l4.status == Confirmed && l4.txHash == Some(hash)
      && l4.log == l.log + [AskedBuild(swap)] + [AskedSign(swap)] + [Signed(swap, envelope)] + [Sent(swap, envelope)]
                   + [Accepted(swap, hash)]
  {
    var r := l.nextRun;
    var l1 := Step(l, CallInitiate(p), cfg);
    SwapStarts(l, p, cfg);
    BuildAnswered(l1, r, Ok(()), cfg);
    var l2 := Step(l1, BuildReply(r, Ok(())), cfg);
    BuildKeeps(l1, r, cfg);
    SignAnswered(l2, r, Ok(envelope), cfg);
    var l3 := Step(l2, SignReply(r, Ok(envelope)), cfg);
    SubmitAnswered(l3, r, Ok(hash), cfg);
  }

  lemma BuildKeeps(l: Life, r: nat, cfg: Config)
    requires Possible(l, BuildReply(r, Ok(()))) && !l.cancelled
    ensures !Step(l, BuildReply(r, Ok(())), cfg).cancelled
  {
  }

  // --- An accepted swap is not sent again ---------------------------------------------------

  /** Nothing of a swap is sent after that swap was accepted. */
  ghost predicate SentBeforeAccepted(log: seq<Act>) {
    forall i, j :: 0 <= i < j < |log| && log[i].Accepted? && log[j].Sent? ==> log[i].swap != log[j].swap
  }

  ghost predicate WasAccepted(l: Life) {
    exists i :: 0 <= i < |l.log| && l.log[i].Accepted? && l.log[i].swap == l.swap
  }

  /** Once its latest swap is accepted, nothing is in flight and nothing can be retried. */
  ghost predicate Closed(l: Life) {
    && SentBeforeAccepted(l.log)
    && (WasAccepted(l) ==> l.runs == map[] && l.status in {Review, Confirmed})
  }

  lemma OneMore(log: seq<Act>, a: Act)
    requires SentBeforeAccepted(log)
    requires a.Sent? ==> forall i :: 0 <= i < |log| && log[i].Accepted? ==> log[i].swap != a.swap
    ensures SentBeforeAccepted(log + [a])
  {
  }

  lemma SameLogClosed(l: Life, l': Life)
    requires Closed(l) && l'.log == l.log && l'.swap == l.swap
    requires WasAccepted(l) ==> l'.runs == map[] && l'.status in {Review, Confirmed}
    ensures Closed(l')
  {
  }

  lemma InitiateClosed(l: Life, p: Params, cfg: Config)
    requires Closed(l) && LogOk(l)
    ensures Closed(InitiateSwap(l, p, cfg))
  {
    var l' := InitiateSwap(l, p, cfg);
    OneMore(l.log, FirstAsk(cfg, l.swap + 1));
    forall i | 0 <= i < |l'.log| && l'.log[i].Accepted? ensures l'.log[i].swap != l'.swap {
      assert l'.log[i] == l.log[i] && l.log[i] in l.log;
    }
  }

  lemma Notes(l: Life, a: Act)
    requires !WasAccepted(l) && !a.Accepted?
    ensures !WasAccepted(l.(log := l.log + [a]))
  {
  }

  lemma BuiltClosed(l: Life, r: nat, reply: Result<(), Fault>)
    requires Closed(l) && r in l.runs && l.runs[r].Building?
    ensures Closed(OnBuilt(l, r, reply))
  {
    OneMore(l.log, AskedSign(l.runs[r].swap));
    Notes(l, AskedSign(l.runs[r].swap));
  }

  lemma SignedClosed(l: Life, r: nat, reply: Result<string, Fault>)
    requires Closed(l) && RunsOk(l) && r in l.runs && l.runs[r].Signing?
    ensures Closed(OnSigned(l, r, reply))
  {
    if reply.Ok? {
      var signed, sent := Signed(l.swap, reply.value), Sent(l.swap, reply.value);
      OneMore(l.log, signed);
      Notes(l, signed);
      var l1 := l.(log := l.log + [signed]);
      OneMore(l1.log, sent);
      Notes(l1, sent);
    }
  }

  lemma SubmittedClosed(l: Life, r: nat, reply: Result<string, Fault>)
    requires Closed(l) && RunsOk(l) && Held(l) && r in l.runs && l.runs[r].Submitting?
    ensures Closed(OnSubmitted(l, r, reply))
  {
    if reply.Ok? {
      OneMore(l.log, Accepted(l.swap, reply.value));
      assert l.runs - {r} == map[];
      assert !WasAccepted(l);
      assert l.status == Review || !l.cancelled;
    }
  }

  lemma RetryClosed(l: Life, cfg: Config)
    requires Closed(l) && Reconcilable(l) && l.params.Some?
    ensures Closed(Resubmit(l, cfg))
  {
    assert !WasAccepted(l);
    OneMore(l.log, Sent(l.swap, l.lastSigned.value));
    Notes(l, Sent(l.swap, l.lastSigned.value));
  }

  lemma ClosedKept(l: Life, e: Event, cfg: Config)
    requires Tidy(l) && Held(l) && Closed(l) && Possible(l, e)
    ensures Closed(Step(l, e, cfg))
  {
    match e
    case CallInitiate(p) => InitiateClosed(l, p, cfg);
    case BuildReply(r, reply) => BuiltClosed(l, r, reply);
    case SignReply(r, reply) => SignedClosed(l, r, reply);
    case SubmitReply(r, reply) => SubmittedClosed(l, r, reply);
    case CallResubmit => ResubmitClosed(l, cfg);
    case CallTryAgain =>
      if Reconcilable(l) { ResubmitClosed(l, cfg); } else { SameLogClosed(l, TryAgain(l, cfg)); }
    case CallCancel => SameLogClosed(l, Cancel(l));
    case CallDismiss => SameLogClosed(l, Dismiss(l));
    case Deadline(t) => SameLogClosed(l, OnDeadline(l, t));
  }

  lemma ResubmitClosed(l: Life, cfg: Config)
    requires Closed(l) && LogOk(l)
    ensures Closed(Resubmit(l, cfg))
  {
    if Reconcilable(l) && l.params.Some? {
      RetryClosed(l, cfg);
    } else if l.status == Dropped && l.params.Some? {
      InitiateClosed(l, l.params.value, cfg);
    }
  }

  lemma {:induction false} ClosedRun(lives: seq<Life>, events: seq<Event>, cfg: Config, n: nat)
    requires IsRun(lives, events, cfg) && Apart(lives, events) && n <= |events|
    ensures Closed(lives[n])
  {
    if n > 0 {
      ClosedRun(lives, events, cfg, n - 1);
      TidyRun(lives, events, cfg, n - 1);
      HeldRun(lives, events, cfg, n - 1);
      ClosedKept(lives[n - 1], events[n - 1], cfg);
    }
  }

  /** In a run whose starts stay apart, nothing of a swap is sent after that swap was accepted. */
  lemma AcceptedIsNotSentAgain(lives: seq<Life>, events: seq<Event>, cfg: Config, n: nat, i: nat, j: nat)
    requires IsRun(lives, events, cfg) && Apart(lives, events) && n <= |events|
    requires i < j < |lives[n].log| && lives[n].log[i].Accepted? && lives[n].log[j].Sent?
    ensures lives[n].log[i].swap != lives[n].log[j].swap
  {
    ClosedRun(lives, events, cfg, n);
  }
}
