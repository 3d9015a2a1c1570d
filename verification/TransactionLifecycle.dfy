/**
  The swap lifecycle of `frontend/hooks/useTransactionLifecycle.ts`, cut at its awaits.

  Each call of `initiateSwap` opens a new swap; a reconcile retry belongs to the swap whose
  envelope it sends again. Builder, wallet and network answer when and what they like, and
  several runs may be in flight at once because nothing in the hook forbids it.
 */
module TransactionLifecycle {
  import opened Options

  datatype Status = Review | Pending | Submitted | Confirmed | Failed | Dropped
  datatype Params = Params(wallet: bool, trade: string)
  datatype Config = Config(hasBuilder: bool, defaultSign: bool, defaultSubmit: bool)

  /** The error kinds that matter: whether its status is `pending_reconcile`. */
  datatype Fault = Fault(reconcile: bool)

  /** Where a run waits. */
  datatype Wait =
    | Building(swap: nat)
    | Signing(swap: nat)
    | Submitting(swap: nat, envelope: string)

  datatype Act =
    | AskedBuild(swap: nat)
    | AskedSign(swap: nat)
    | Signed(swap: nat, envelope: string)
    | Sent(swap: nat, envelope: string)
    | Accepted(swap: nat, hash: string)

  datatype Life = Life(
    status: Status,
    txHash: Option<string>,
    error: Option<Fault>,
    params: Option<Params>,
    cancelled: bool,               // cancelledRef
    lastSigned: Option<string>,    // lastSignedXdrRef
    timerRef: Option<nat>,         // deadlineTimerRef
    timers: set<nat>,              // pending deadline timers
    nextTimer: nat,
    runs: map<nat, Wait>,          // runs in flight
    nextRun: nat,
    swap: nat,                     // the latest swap
    log: seq<Act>)

  const NEW_LIFE: Life := Life(Review, None, None, None, false, None, None, {}, 0, map[], 0, 0, [])

  function ClearTimer(l: Life): Life {
    if l.timerRef.None? then l else l.(timers := l.timers - {l.timerRef.value}, timerRef := None)
  }

  function FailWith(l: Life, f: Fault): Life { l.(error := Some(f), status := Failed) }

  function Note(l: Life, a: Act): Life { l.(log := l.log + [a]) }

  function Open(l: Life, w: Wait): Life { l.(runs := l.runs[l.nextRun := w], nextRun := l.nextRun + 1) }

  function Move(l: Life, r: nat, w: Wait): Life { l.(runs := l.runs[r := w]) }

  function End(l: Life, r: nat): Life { l.(runs := l.runs - {r}) }

  /** Announces a submit and arms its deadline. */
  function StartSubmit(l: Life, swap: nat, envelope: string): Life {
    Note(l.(status := Submitted, timerRef := Some(l.nextTimer), timers := l.timers + {l.nextTimer},
            nextTimer := l.nextTimer + 1), Sent(swap, envelope))
  }

  /** A new swap forgets what the previous one left behind. */
  function Renewed(l: Life, p: Params): Life {
    l.(cancelled := false, lastSigned := None, params := Some(p), txHash := None, error := None, swap := l.swap + 1)
  }

  /** Asks for the envelope, or, without a builder, straight for the signature. */
  function BeginRun(l: Life, cfg: Config): Life {
    if cfg.hasBuilder then Open(Note(l.(status := Pending), AskedBuild(l.swap)), Building(l.swap))
    else Open(Note(l.(status := Pending), AskedSign(l.swap)), Signing(l.swap))
  }

  /** A connected wallet needs a builder and a real signer and submitter. */
  predicate Misconfigured(p: Params, cfg: Config) {
    p.wallet && (!cfg.hasBuilder || cfg.defaultSign || cfg.defaultSubmit)
  }

  function InitiateSwap(l: Life, p: Params, cfg: Config): Life {
    if Misconfigured(p, cfg) then FailWith(Renewed(l, p), Fault(false))
    else BeginRun(Renewed(l, p), cfg)
  }

  function OnBuilt(l: Life, r: nat, reply: Result<(), Fault>): Life
    requires r in l.runs && l.runs[r].Building?
  {
    if l.cancelled then End(l, r)
    else match reply
      case Ok(_) => Move(Note(l, AskedSign(l.runs[r].swap)), r, Signing(l.runs[r].swap))
      case Err(f) => FailWith(End(l, r), f)
  }

  function OnSigned(l: Life, r: nat, reply: Result<string, Fault>): Life
    requires r in l.runs && l.runs[r].Signing?
  {
    var swap := l.runs[r].swap;
    match reply
    case Ok(envelope) =>
      var l1 := Note(l.(lastSigned := Some(envelope)), Signed(swap, envelope));
      if l.cancelled then End(l1, r) else Move(StartSubmit(l1, swap, envelope), r, Submitting(swap, envelope))
    case Err(f) =>
      if l.cancelled then End(l, r) else FailWith(End(l, r).(lastSigned := None), f)
  }

  function OnSubmitted(l: Life, r: nat, reply: Result<string, Fault>): Life
    requires r in l.runs && l.runs[r].Submitting?
  {
    var l1 := ClearTimer(End(l, r));
    match reply
    case Ok(hash) =>
      var l2 := Note(l1, Accepted(l.runs[r].swap, hash));
      if l.cancelled then l2 else l2.(txHash := Some(hash), status := Confirmed)
    case Err(f) =>
      if l.cancelled then l1 else FailWith(l1, f)
  }

  function Cancel(l: Life): Life {
    if l.status == Pending then ClearTimer(l).(cancelled := true, status := Review, error := None) else l
  }

  /** A failed swap whose outcome is unknown and whose envelope is still held. */
  predicate Reconcilable(l: Life) {
    l.status == Failed && l.error == Some(Fault(true)) && l.lastSigned.Some? && l.lastSigned.value != ""
  }

  function Resubmit(l: Life, cfg: Config): Life {
    if Reconcilable(l) && l.params.Some? then
      var envelope := l.lastSigned.value;
      var l1 := ClearTimer(l.(cancelled := false, error := None));
      Open(StartSubmit(l1, l.swap, envelope), Submitting(l.swap, envelope))
    else if l.status == Dropped && l.params.Some? then InitiateSwap(l, l.params.value, cfg)
    else l
  }

  function TryAgain(l: Life, cfg: Config): Life {
    if Reconcilable(l) then Resubmit(l, cfg)
    else ClearTimer(l.(lastSigned := None)).(status := Review, error := None, txHash := None)
  }

  function Dismiss(l: Life): Life {
    ClearTimer(l).(status := Review, error := None, txHash := None, params := None, lastSigned := None)
  }

  function OnDeadline(l: Life, t: nat): Life {
    var l1 := l.(timers := l.timers - {t});
    if l.status == Submitted then l1.(status := Dropped) else l1
  }

  // --- Runs -----------------------------------------------------------------------------

  datatype Event =
    | CallInitiate(params: Params)
    | CallCancel
    | CallResubmit
    | CallTryAgain
    | CallDismiss
    | BuildReply(r: nat, built: Result<(), Fault>)
    | SignReply(r: nat, signed: Result<string, Fault>)
    | SubmitReply(r: nat, submitted: Result<string, Fault>)
    | Deadline(t: nat)

  predicate Possible(l: Life, e: Event) {
    match e
    case BuildReply(r, _) => r in l.runs && l.runs[r].Building?
    case SignReply(r, _) => r in l.runs && l.runs[r].Signing?
    case SubmitReply(r, _) => r in l.runs && l.runs[r].Submitting?
    case Deadline(t) => t in l.timers
    case _ => true
  }

  function Step(l: Life, e: Event, cfg: Config): Life
    requires Possible(l, e)
  {
    match e
    case CallInitiate(p) => InitiateSwap(l, p, cfg)
    case CallCancel => Cancel(l)
    case CallResubmit => Resubmit(l, cfg)
    case CallTryAgain => TryAgain(l, cfg)
    case CallDismiss => Dismiss(l)
    case BuildReply(r, reply) => OnBuilt(l, r, reply)
    case SignReply(r, reply) => OnSigned(l, r, reply)
    case SubmitReply(r, reply) => OnSubmitted(l, r, reply)
    case Deadline(t) => OnDeadline(l, t)
  }

  /** The event starts a build or a submit. */
  predicate Starts(l: Life, e: Event) {
    match e
    case CallInitiate(_) => true
    case CallResubmit => l.params.Some? && (Reconcilable(l) || l.status == Dropped)
    case CallTryAgain => l.params.Some? && Reconcilable(l)
    case _ => false
  }

  predicate IsRun(lives: seq<Life>, events: seq<Event>, cfg: Config) {
    && |lives| == |events| + 1
    && lives[0] == NEW_LIFE
    && forall i :: 0 <= i < |events| ==>
         Possible(lives[i], events[i]) && lives[i + 1] == Step(lives[i], events[i], cfg)
  }

  lemma RunGrows(lives: seq<Life>, events: seq<Event>, cfg: Config, e: Event)
    requires IsRun(lives, events, cfg) && Possible(lives[|events|], e)
    ensures IsRun(lives + [Step(lives[|events|], e, cfg)], events + [e], cfg)
  {
    var lives', events' := lives + [Step(lives[|events|], e, cfg)], events + [e];
    forall i | 0 <= i < |events'|
      ensures Possible(lives'[i], events'[i]) && lives'[i + 1] == Step(lives'[i], events'[i], cfg)
    {
      if i < |events| {
        assert lives'[i] == lives[i] && lives'[i + 1] == lives[i + 1] && events'[i] == events[i];
      }
    }
  }

  /** Nothing starts before the previous run's promises have settled. */
  predicate Apart(lives: seq<Life>, events: seq<Event>) {
    |lives| > |events| && forall i :: 0 <= i < |events| && Starts(lives[i], events[i]) ==> lives[i].runs == map[]
  }
}
