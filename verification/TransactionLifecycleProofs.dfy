/** What every run of the swap lifecycle keeps. */
module TransactionLifecycleProofs {
  import opened Options
  import opened TransactionLifecycle

  // --- Confirmed means accepted (every run) ------------------------------------------

  ghost predicate ConfirmedOk(l: Life) {
    l.status == Confirmed ==> l.txHash.Some? && exists swap :: Accepted(swap, l.txHash.value) in l.log
  }

  lemma ConfirmedKept(l: Life, e: Event, cfg: Config)
    requires ConfirmedOk(l) && Possible(l, e)
    ensures ConfirmedOk(Step(l, e, cfg))
  {
    var l' := Step(l, e, cfg);
    if e.SubmitReply? && e.submitted.Ok? {
      assert Accepted(l.runs[e.r].swap, e.submitted.value) in l'.log;
    } else if l.status == Confirmed {
      var swap :| Accepted(swap, l.txHash.value) in l.log;
      assert l'.status == Confirmed ==> Accepted(swap, l.txHash.value) in l'.log;
    }
  }

  /** In every state of every run, confirmed comes with the hash of an accepted submit. */
  lemma {:induction false} ConfirmedHasHash(lives: seq<Life>, events: seq<Event>, cfg: Config, n: nat)
    requires IsRun(lives, events, cfg) && n <= |events|
    ensures ConfirmedOk(lives[n])
  {
    if n > 0 {
      ConfirmedHasHash(lives, events, cfg, n - 1);
      ConfirmedKept(lives[n - 1], events[n - 1], cfg);
    }
  }

  // --- Sign once, send only that (runs that stay apart) --------------------------------

  /** Two acts of one kind that must not both happen for one swap. */
  predicate Repeats(a: Act, b: Act) {
    a.swap == b.swap && ((a.AskedBuild? && b.AskedBuild?) || (a.AskedSign? && b.AskedSign?) || (a.Signed? && b.Signed?))
  }

  predicate NoRepeat(log: seq<Act>) {
    forall i, j :: 0 <= i < j < |log| ==> !Repeats(log[i], log[j])
  }

  /** Everything sent was signed before, for the same swap. */
  ghost predicate SentWasSigned(log: seq<Act>) {
    forall i :: 0 <= i < |log| && log[i].Sent? ==> Signed(log[i].swap, log[i].envelope) in log[..i]
  }

  /** The latest swap has not asked for, or got, the later steps yet. */
  predicate WaitOk(w: Wait, l: Life) {
    && w.swap == l.swap
    && match w
       case Building(s) => forall a | a in l.log :: a.swap == s ==> !a.AskedSign? && !a.Signed?
       case Signing(s) => forall a | a in l.log :: a.swap == s ==> !a.Signed?
       case Submitting(s, envelope) => Signed(s, envelope) in l.log
  }

  ghost predicate LogOk(l: Life) {
    && NoRepeat(l.log)
    && SentWasSigned(l.log)
    && (forall a | a in l.log :: a.swap <= l.swap)
    && (l.lastSigned.Some? ==> Signed(l.swap, l.lastSigned.value) in l.log)
  }

  /** At most one run, waiting as its swap's log allows. */
  ghost predicate RunsOk(l: Life) {
    && (forall r | r in l.runs :: r < l.nextRun && WaitOk(l.runs[r], l))
    && (forall r, r' | r in l.runs && r' in l.runs :: r == r')
  }

  /** A submit under way or dropped is uncancelled and unanswered; its deadline is the only timer. */
  ghost predicate DeadlineOk(l: Life) {
    && (l.status == Submitted || l.status == Dropped ==> !l.cancelled && exists r :: r in l.runs && l.runs[r].Submitting?)
    && (l.timers != {} ==> exists r :: r in l.runs && l.runs[r].Submitting?)
    && (forall t | t in l.timers :: l.timerRef == Some(t))
  }

  lemma NoteLog(log: seq<Act>, a: Act)
    requires NoRepeat(log) && SentWasSigned(log)
    requires forall b | b in log :: !Repeats(b, a)
    requires a.Sent? ==> Signed(a.swap, a.envelope) in log
    ensures NoRepeat(log + [a]) && SentWasSigned(log + [a])
  {
    var log' := log + [a];
    forall i, j | 0 <= i < j < |log'|
      ensures !Repeats(log'[i], log'[j])
    {
      if j == |log| { assert log[i] in log; } else { assert log'[i] == log[i] && log'[j] == log[j]; }
    }
    forall i | 0 <= i < |log'| && log'[i].Sent?
      ensures Signed(log'[i].swap, log'[i].envelope) in log'[..i]
    {
      assert log'[..i] == if i < |log| then log[..i] else log;
    }
  }

  ghost predicate Tidy(l: Life) {
    LogOk(l) && RunsOk(l) && DeadlineOk(l)
  }

  /** Nothing is in flight, and the log has nothing of the latest swap yet. */
  ghost predicate Blank(l: Life) {
    LogOk(l) && l.runs == map[] && l.timers == {} && forall a | a in l.log :: a.swap < l.swap
  }

  lemma RenewedIsBlank(l: Life, p: Params)
    requires Tidy(l) && l.runs == map[]
    ensures Blank(Renewed(l, p))
  {
  }

  lemma FirstAskTidy(l: Life, a: Act, w: Wait)
    requires Blank(l) && l.status == Pending
    requires (a == AskedBuild(l.swap) && w == Building(l.swap)) || (a == AskedSign(l.swap) && w == Signing(l.swap))
    ensures Tidy(Open(Note(l, a), w))
  {
    NoteLog(l.log, a);
  }

  lemma InitiateTidy(l: Life, p: Params, cfg: Config)
    requires Tidy(l) && l.runs == map[]
    ensures Tidy(InitiateSwap(l, p, cfg))
  {
    RenewedIsBlank(l, p);
    var renewed := Renewed(l, p).(status := Pending);
    FirstAskTidy(renewed, AskedBuild(renewed.swap), Building(renewed.swap));
    FirstAskTidy(renewed, AskedSign(renewed.swap), Signing(renewed.swap));
  }

  lemma BuiltTidy(l: Life, r: nat, reply: Result<(), Fault>)
    requires Tidy(l) && r in l.runs && l.runs[r].Building?
    ensures Tidy(OnBuilt(l, r, reply))
  {
    NoteLog(l.log, AskedSign(l.swap));
  }

  lemma SignedLog(l: Life, r: nat, envelope: string)
    requires Tidy(l) && r in l.runs && l.runs[r].Signing?
    ensures LogOk(OnSigned(l, r, Ok(envelope)))
  {
    NoteLog(l.log, Signed(l.swap, envelope));
    var log := l.log + [Signed(l.swap, envelope)];
    assert Signed(l.swap, envelope) in log;
    NoteLog(log, Sent(l.swap, envelope));
  }

  lemma SignedTidy(l: Life, r: nat, envelope: string)
    requires Tidy(l) && r in l.runs && l.runs[r].Signing?
    ensures Tidy(OnSigned(l, r, Ok(envelope)))
  {
    SignedLog(l, r, envelope);
    var l' := OnSigned(l, r, Ok(envelope));
    assert !l.cancelled ==> r in l'.runs && l'.runs[r].Submitting?;
  }

  lemma SubmittedTidy(l: Life, r: nat, reply: Result<string, Fault>)
    requires Tidy(l) && r in l.runs && l.runs[r].Submitting?
    ensures Tidy(OnSubmitted(l, r, reply))
  {
    if reply.Ok? { NoteLog(l.log, Accepted(l.swap, reply.value)); }
  }

  lemma RetryTidy(l: Life, cfg: Config)
    requires Tidy(l) && Reconcilable(l) && l.params.Some? && l.runs == map[]
    ensures Tidy(Resubmit(l, cfg))
  {
    NoteLog(l.log, Sent(l.swap, l.lastSigned.value));
    var l' := Resubmit(l, cfg);
    assert l.nextRun in l'.runs && l'.runs[l.nextRun].Submitting?;
  }

  /** Cancelling, dismissing, trying again from scratch, a rejected signature and a passed deadline. */
  lemma OtherTidy(l: Life, e: Event, cfg: Config)
    requires Tidy(l) && Possible(l, e) && !Starts(l, e)
    requires !e.BuildReply? && !e.SubmitReply? && (e.SignReply? ==> e.signed.Err?)
    ensures Tidy(Step(l, e, cfg))
  {
    var l' := Step(l, e, cfg);
    assert l'.log == l.log && l'.swap == l.swap;
    if r :| r in l.runs && l.runs[r].Submitting? {
      assert l'.runs == l.runs;
    }
  }

  lemma TidyKept(l: Life, e: Event, cfg: Config)
    requires Tidy(l) && Possible(l, e) && (Starts(l, e) ==> l.runs == map[])
    ensures Tidy(Step(l, e, cfg))
  {
    match e
    case CallInitiate(p) => InitiateTidy(l, p, cfg);
    case BuildReply(r, reply) => BuiltTidy(l, r, reply);
    case SubmitReply(r, reply) => SubmittedTidy(l, r, reply);
    case SignReply(r, Ok(envelope)) => SignedTidy(l, r, envelope);
    case CallTryAgain =>
      if Starts(l, e) { RetryTidy(l, cfg); } else { OtherTidy(l, e, cfg); }
    case CallResubmit =>
      if !Starts(l, e) { OtherTidy(l, e, cfg); }
      else if Reconcilable(l) { RetryTidy(l, cfg); }
      else { assert false; }  // a dropped swap is still in flight
    case _ => OtherTidy(l, e, cfg);
  }

  lemma {:induction false} TidyRun(lives: seq<Life>, events: seq<Event>, cfg: Config, n: nat)
    requires IsRun(lives, events, cfg) && Apart(lives, events) && n <= |events|
    ensures Tidy(lives[n])
  {
    if n > 0 {
      TidyRun(lives, events, cfg, n - 1);
      TidyKept(lives[n - 1], events[n - 1], cfg);
    }
  }

  /** What is sent was signed before; no ask and no signature is repeated; one swap sends one envelope. */
  ghost predicate OnceAndSame(log: seq<Act>, i: nat, j: nat)
    requires i < |log| && j < |log|
  {
    var a, b := log[i], log[j];
    && (a.Sent? ==> exists k :: 0 <= k < i && log[k] == Signed(a.swap, a.envelope))
    && (i != j ==> !Repeats(a, b))
    && (a.Sent? && b.Sent? && a.swap == b.swap ==> a.envelope == b.envelope)
  }

  /**
    Sign once, send only that: in a run whose starts stay apart, each swap asks for at most one
    build and one signature, and whatever is sent for it, first try or reconcile retry, is the
    one envelope that signature returned.
   */
  lemma SignOnceSendSame(lives: seq<Life>, events: seq<Event>, cfg: Config, n: nat, i: nat, j: nat)
    requires IsRun(lives, events, cfg) && Apart(lives, events) && n <= |events|
    requires i < |lives[n].log| && j < |lives[n].log|
    ensures OnceAndSame(lives[n].log, i, j)
  {
    TidyRun(lives, events, cfg, n);
    var log := lives[n].log;
    if i != j { Unrepeated(log, i, j); }
    if log[i].Sent? {
      var k := Signature(log, i);
      if log[j].Sent? && log[i].swap == log[j].swap {
        var m := Signature(log, j);
        if k != m { Unrepeated(log, k, m); }
      }
    }
  }

  lemma Unrepeated(log: seq<Act>, i: nat, j: nat)
    requires NoRepeat(log) && i < |log| && j < |log| && i != j
    ensures !Repeats(log[i], log[j])
  {
    var lo, hi := if i < j then i else j, if i < j then j else i;
    assert !Repeats(log[lo], log[hi]);
  }

  lemma Signature(log: seq<Act>, i: nat) returns (k: nat)
    requires SentWasSigned(log) && i < |log| && log[i].Sent?
    ensures k < i && log[k] == Signed(log[i].swap, log[i].envelope)
  {
    assert Signed(log[i].swap, log[i].envelope) in log[..i];
    k :| 0 <= k < i && log[..i][k] == Signed(log[i].swap, log[i].envelope);
  }

  // --- What is held and what is in flight has been sent -----------------------------------

  /** A cancelled swap is back in review; whatever else is held, or waits for its submit, was sent. */
  ghost predicate Held(l: Life) {
    && (l.cancelled ==> l.status == Review)
    && (l.lastSigned.Some? ==> l.cancelled || Sent(l.swap, l.lastSigned.value) in l.log)
    && (forall r | r in l.runs && l.runs[r].Submitting? :: Sent(l.runs[r].swap, l.runs[r].envelope) in l.log)
  }

  lemma SignedHeld(l: Life, r: nat, reply: Result<string, Fault>)
    requires Tidy(l) && Held(l) && r in l.runs && l.runs[r].Signing?
    ensures Held(OnSigned(l, r, reply))
  {
    if reply.Ok? && !l.cancelled {
      var log := OnSigned(l, r, reply).log;
      assert log[|log| - 1] == Sent(l.swap, reply.value);
    }
  }

  lemma RetryHeld(l: Life, cfg: Config)
    requires Held(l)
    ensures Held(Resubmit(l, cfg)) && Held(TryAgain(l, cfg))
  {
  }

  lemma HeldKept(l: Life, e: Event, cfg: Config)
    requires Tidy(l) && Held(l) && Possible(l, e)
    ensures Held(Step(l, e, cfg))
  {
    match e
    case SignReply(r, reply) => SignedHeld(l, r, reply);
    case CallResubmit => RetryHeld(l, cfg);
    case CallTryAgain => RetryHeld(l, cfg);
    case _ =>
  }

  lemma {:induction false} HeldRun(lives: seq<Life>, events: seq<Event>, cfg: Config, n: nat)
    requires IsRun(lives, events, cfg) && Apart(lives, events) && n <= |events|
    ensures Held(lives[n])
  {
    if n > 0 {
      HeldRun(lives, events, cfg, n - 1);
      TidyRun(lives, events, cfg, n - 1);
      HeldKept(lives[n - 1], events[n - 1], cfg);
    }
  }

  /**
    In a run whose starts stay apart, a reconcile retry sends the very envelope that the wallet signed
    for the failed swap and that was sent for it before, and asks neither builder nor wallet.
   */
  lemma RetrySendsHeldEnvelope(lives: seq<Life>, events: seq<Event>, cfg: Config, n: nat)
    requires IsRun(lives, events, cfg) && Apart(lives, events) && n <= |events|
    requires Reconcilable(lives[n]) && lives[n].params.Some?
    ensures
      var l := lives[n];
      var envelope := l.lastSigned.value;
      && Signed(l.swap, envelope) in l.log && Sent(l.swap, envelope) in l.log
      && Resubmit(l, cfg).log == l.log + [Sent(l.swap, envelope)]
      && TryAgain(l, cfg) == Resubmit(l, cfg)
  {
    TidyRun(lives, events, cfg, n);
    HeldRun(lives, events, cfg, n);
  }

  // --- Dropped swaps ------------------------------------------------------------------------

  /** The swap's submit is under way: its envelope was sent and no answer has come. */
  ghost predicate InFlight(l: Life, r: nat, swap: nat, envelope: string) {
    r in l.runs && l.runs[r] == Submitting(swap, envelope) && Sent(swap, envelope) in l.log
  }

  lemma DroppedInFlight(lives: seq<Life>, events: seq<Event>, cfg: Config, n: nat) returns (r: nat, envelope: string)
    requires IsRun(lives, events, cfg) && Apart(lives, events) && n <= |events| && lives[n].status == Dropped
    ensures InFlight(lives[n], r, lives[n].swap, envelope) && r < lives[n].nextRun
  {
    TidyRun(lives, events, cfg, n);
    HeldRun(lives, events, cfg, n);
    r :| r in lives[n].runs && lives[n].runs[r].Submitting?;
    envelope := lives[n].runs[r].envelope;
  }

  function FirstAsk(cfg: Config, swap: nat): Act {
    if cfg.hasBuilder then AskedBuild(swap) else AskedSign(swap)
  }

  /**
    In a run whose starts stay apart, a dropped swap has its envelope sent and unanswered. Resubmitting
    it leaves that as it is and, unless the configuration refuses, asks for a second envelope beside it.
   */
  lemma DroppedIsUnanswered(lives: seq<Life>, events: seq<Event>, cfg: Config, n: nat) returns (r: nat, envelope: string)
    requires IsRun(lives, events, cfg) && Apart(lives, events) && n <= |events| && lives[n].status == Dropped
    ensures InFlight(lives[n], r, lives[n].swap, envelope) && r < lives[n].nextRun
    ensures
      var l := lives[n];
      var l' := Resubmit(l, cfg);
      l.params.Some? ==>
        && InFlight(l', r, l.swap, envelope)
        && if Misconfigured(l.params.value, cfg) then l'.log == l.log && l'.runs == l.runs
           else l'.log == l.log + [FirstAsk(cfg, l.swap + 1)] && l'.runs.Keys == l.runs.Keys + {l.nextRun}
  {
    r, envelope := DroppedInFlight(lives, events, cfg, n);
  }

  lemma PrefixIsRun(lives: seq<Life>, events: seq<Event>, cfg: Config, n: nat)
    requires IsRun(lives, events, cfg) && n <= |events|
    ensures IsRun(lives[..n + 1], events[..n], cfg)
  {
  }

  /** The wallet's answer to the latest run is sent while everything in flight stays so. */
  lemma SecondIsSent(l: Life, r: nat, swap: nat, first: string, latest: nat, second: string)
    requires InFlight(l, r, swap, first) && r != latest && !l.cancelled
    requires latest in l.runs && l.runs[latest] == Signing(swap + 1)
    ensures var l' := OnSigned(l, latest, Ok(second));
            InFlight(l', r, swap, first) && InFlight(l', latest, swap + 1, second)
  {
    var log := OnSigned(l, latest, Ok(second)).log;
    assert log[|log| - 1] == Sent(swap + 1, second);
  }

  /** The second run waits for the wallet while the first is still in flight. */
  ghost predicate AsksAgain(l: Life, end: Life, r: nat, first: string) {
    && InFlight(end, r, l.swap, first) && r < l.nextRun && !end.cancelled && end.params == l.params
    && l.nextRun in end.runs && end.runs[l.nextRun] == Signing(l.swap + 1)
  }

  lemma BuiltAgain(l: Life, asked: Life, r: nat, first: string)
    requires InFlight(asked, r, l.swap, first) && r < l.nextRun && !asked.cancelled && asked.params == l.params
    requires l.nextRun in asked.runs && asked.runs[l.nextRun] == Building(l.swap + 1)
    ensures AsksAgain(l, OnBuilt(asked, l.nextRun, Ok(())), r, first)
  {
  }

  lemma DroppedAsksAgain(lives: seq<Life>, events: seq<Event>, cfg: Config, n: nat)
    returns (more: seq<Life>, steps: seq<Event>, r: nat, first: string)
    requires IsRun(lives, events, cfg) && Apart(lives, events) && n <= |events| && lives[n].status == Dropped
    requires lives[n].params.Some? && !Misconfigured(lives[n].params.value, cfg)
    ensures IsRun(more, steps, cfg) && events[..n] <= steps && lives[..n + 1] <= more
    ensures AsksAgain(lives[n], more[|steps|], r, first)
  {
    var l := lives[n];
    r, first := DroppedIsUnanswered(lives, events, cfg, n);
    PrefixIsRun(lives, events, cfg, n);
    more, steps := lives[..n + 1], events[..n];
    RunGrows(more, steps, cfg, CallResubmit);
    var asked := Resubmit(l, cfg);
    more, steps := more + [asked], steps + [CallResubmit];
    if cfg.hasBuilder {
      BuiltAgain(l, asked, r, first);
      RunGrows(more, steps, cfg, BuildReply(l.nextRun, Ok(())));
      more, steps := more + [OnBuilt(asked, l.nextRun, Ok(()))], steps + [BuildReply(l.nextRun, Ok(()))];
    }
  }

  /**
    Every run that has dropped a swap can be continued to two envelopes, the second whatever the wallet
    then signs, both sent for the same trade while neither submit is answered.
   */
  lemma DroppedSendsTwice(lives: seq<Life>, events: seq<Event>, cfg: Config, n: nat, second: string)
    returns (more: seq<Life>, steps: seq<Event>, r: nat, first: string)
    requires IsRun(lives, events, cfg) && Apart(lives, events) && n <= |events| && lives[n].status == Dropped
    requires lives[n].params.Some? && !Misconfigured(lives[n].params.value, cfg)
    ensures IsRun(more, steps, cfg) && events[..n] <= steps && lives[..n + 1] <= more
    ensures var l, end := lives[n], more[|steps|];
            && InFlight(end, r, l.swap, first) && InFlight(end, l.nextRun, l.swap + 1, second)
            && end.params == l.params
  {
    var l := lives[n];
    more, steps, r, first := DroppedAsksAgain(lives, events, cfg, n);
    var signing := more[|steps|];
    SecondIsSent(signing, r, l.swap, first, l.nextRun, second);
    RunGrows(more, steps, cfg, SignReply(l.nextRun, Ok(second)));
    more, steps := more + [OnSigned(signing, l.nextRun, Ok(second))], steps + [SignReply(l.nextRun, Ok(second))];
  }

  // --- Cancelling ---------------------------------------------------------------------------

  /** The step sends nothing and asks for nothing. */
  predicate SendsNothing(l: Life, l': Life) {
    l.log <= l'.log && forall a | a in l'.log[|l.log|..] :: a.Signed? || a.Accepted?
  }

  predicate Silent(l: Life) { l.cancelled && l.status == Review }

  lemma SilenceKept(l: Life, e: Event, cfg: Config)
    requires Silent(l) && Possible(l, e) && !Starts(l, e)
    ensures Silent(Step(l, e, cfg)) && SendsNothing(l, Step(l, e, cfg))
  {
  }

  lemma {:induction false} SilentUntilStart(lives: seq<Life>, events: seq<Event>, cfg: Config, i: nat, j: nat)
    requires IsRun(lives, events, cfg) && i < j <= |events|
    requires events[i] == CallCancel && lives[i].status == Pending
    requires forall m :: i < m < j ==> !Starts(lives[m], events[m])
    ensures Silent(lives[j])
  {
    if j > i + 1 {
      SilentUntilStart(lives, events, cfg, i, j - 1);
      SilenceKept(lives[j - 1], events[j - 1], cfg);
    }
  }

  predicate Concerns(e: Event, r: nat) { (e.BuildReply? || e.SignReply? || e.SubmitReply?) && e.r == r }

  lemma GoneStaysGone(l: Life, e: Event, cfg: Config, r: nat)
    requires Possible(l, e) && r !in l.runs && r < l.nextRun
    ensures r !in Step(l, e, cfg).runs && r < Step(l, e, cfg).nextRun
  {
  }

  lemma {:induction false} GoneForGood(lives: seq<Life>, events: seq<Event>, cfg: Config, r: nat, m: nat, j: nat)
    requires IsRun(lives, events, cfg) && m <= j <= |events| && r !in lives[m].runs && r < lives[m].nextRun
    ensures r !in lives[j].runs && r < lives[j].nextRun
  {
    if j > m {
      GoneForGood(lives, events, cfg, r, m, j - 1);
      GoneStaysGone(lives[j - 1], events[j - 1], cfg, r);
    }
  }

  lemma NextRunGrows(l: Life, e: Event, cfg: Config)
    requires Possible(l, e)
    ensures l.nextRun <= Step(l, e, cfg).nextRun
  {
  }

  lemma NextRunAfter(lives: seq<Life>, events: seq<Event>, cfg: Config, k: nat)
    requires IsRun(lives, events, cfg) && k < |events|
    ensures lives[k].nextRun <= lives[k + 1].nextRun
  {
    NextRunGrows(lives[k], events[k], cfg);
  }

  lemma {:induction false} NextRunNeverShrinks(lives: seq<Life>, events: seq<Event>, cfg: Config, i: nat, j: nat)
    requires IsRun(lives, events, cfg) && i <= j <= |events|
    ensures lives[i].nextRun <= lives[j].nextRun
  {
    if i < j {
      NextRunNeverShrinks(lives, events, cfg, i, j - 1);
      NextRunAfter(lives, events, cfg, j - 1);
    }
  }

  /**
    Cancelling is final: in a run whose starts stay apart, once a pending swap is cancelled no
    later reply to any run then in flight sends anything, asks for anything or changes the status.
   */
  lemma CancelIsFinal(lives: seq<Life>, events: seq<Event>, cfg: Config, i: nat, r: nat, j: nat)
    requires IsRun(lives, events, cfg) && Apart(lives, events) && i < j < |events|
    requires events[i] == CallCancel && lives[i].status == Pending && r in lives[i].runs
    requires Concerns(events[j], r)
    ensures SendsNothing(lives[j], lives[j + 1]) && lives[j + 1].status == lives[j].status
  {
    TidyRun(lives, events, cfg, i);
    if m :| i < m < j && Starts(lives[m], events[m]) {
      NextRunNeverShrinks(lives, events, cfg, i, m);
      GoneForGood(lives, events, cfg, r, m, j);
      assert false;
    }
    SilentUntilStart(lives, events, cfg, i, j);
    SilenceKept(lives[j], events[j], cfg);
  }

  /**
    Staying apart is needed, for every cancelled signature: the shared cancel flag is cleared by
    the next swap, after which the cancelled run sends its envelope. It does so exactly when a
    swap started in between.
   */
  lemma CancelledRunIsRevived(l: Life, r: nat, p: Params, cfg: Config, envelope: string)
    requires l.status == Pending && r in l.runs && l.runs[r].Signing? && r < l.nextRun
    ensures
      var cancelled := Cancel(l);
      var again := InitiateSwap(cancelled, p, cfg);
      && OnSigned(cancelled, r, Ok(envelope)).log == l.log + [Signed(l.runs[r].swap, envelope)]
      && r in again.runs && again.runs[r].Signing?
      && Sent(l.runs[r].swap, envelope) in OnSigned(again, r, Ok(envelope)).log
  {
    var again := InitiateSwap(Cancel(l), p, cfg);
    var log := OnSigned(again, r, Ok(envelope)).log;
    assert log[|log| - 1] == Sent(l.runs[r].swap, envelope);
  }

  /** Dismissing, unlike cancelling, does not stop a pending swap: its signature is still sent. */
  lemma DismissedRunStillSends(l: Life, r: nat, envelope: string)
    requires l.status == Pending && !l.cancelled && r in l.runs && l.runs[r].Signing?
    ensures Dismiss(l).status == Review
    ensures OnSigned(Dismiss(l), r, Ok(envelope)).status == Submitted
    ensures Sent(l.runs[r].swap, envelope) in OnSigned(Dismiss(l), r, Ok(envelope)).log
  {
    var log := OnSigned(Dismiss(l), r, Ok(envelope)).log;
    assert log[|log| - 1] == Sent(l.runs[r].swap, envelope);
  }
}
