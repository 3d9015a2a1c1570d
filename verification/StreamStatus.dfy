/**
 * The connection status a quote view shows, debounced so that short recoveries do not flicker
 * (frontend/hooks/useQuoteStreamStatus.ts).
 *
 * Times are real milliseconds. A timeout may fire at any time from its deadline on.
 */
module StreamStatus {
  import opened Options

  datatype Connection = Connected | Reconnecting | Disconnected

  function DeriveRawStatus(isRecovering: bool, isOnline: bool): Connection {
    if !isOnline then Disconnected else if isRecovering then Reconnecting else Connected
  }

  const DEFAULT_GRACE_PERIOD_MS := 3000.0

  function GraceOf(option: Option<real>): (grace: real)
    ensures grace > 0.0
  {
    if option.Some? && option.value > 0.0 then option.value else DEFAULT_GRACE_PERIOD_MS
  }

  /**
   * The hook between two events. `timeouts` are those the platform still holds, with their
   * deadlines; `since` is when the effect last ran, that is, when the raw status or the grace
   * period last changed.
   */
  datatype Hook = Hook(
    raw: Connection,
    grace: real,
    status: Connection,
    timerRef: Option<nat>,
    timeouts: map<nat, real>,
    nextTimer: nat,
    now: real,
    since: real)

  // ---------------------------------------------------------------- the effect

  function ClearTimer(h: Hook): Hook {
    if h.timerRef.Some? then h.(timeouts := h.timeouts - {h.timerRef.value}, timerRef := None) else h
  }

  function Effect(h: Hook): Hook {
    var cleared := ClearTimer(h);
    match h.raw
    case Disconnected => cleared.(status := Disconnected, since := h.now)
    case Connected => cleared.(status := Connected, since := h.now)
    case Reconnecting =>
      cleared.(timerRef := Some(h.nextTimer), timeouts := cleared.timeouts[h.nextTimer := h.now + h.grace],
               nextTimer := h.nextTimer + 1, since := h.now)
  }

  function Mounted(raw: Connection, grace: real, now: real): Hook {
    Effect(Hook(raw, grace, Connected, None, map[], 0, now, now))
  }

  /** The effect's own clean-up exists only after a run that started a timeout. */
  function CleanUp(h: Hook): Hook {
    if h.raw.Reconnecting? then ClearTimer(h) else h
  }

  function Render(h: Hook, raw: Connection, grace: real): Hook {
    if raw == h.raw && grace == h.grace then h else Effect(CleanUp(h).(raw := raw, grace := grace))
  }

  function Fire(h: Hook, id: nat): Hook {
    h.(timeouts := h.timeouts - {id}, timerRef := None, status := Reconnecting)
  }

  // ---------------------------------------------------------------- runs

  datatype Event = Rerender(isRecovering: bool, isOnline: bool, option: Option<real>) | Wait(until: real) | TimeOut(id: nat)

  predicate Enabled(h: Hook, e: Event) {
    match e
    case Rerender(_, _, _) => true
    case Wait(until) => until >= h.now
    case TimeOut(id) => id in h.timeouts && h.now >= h.timeouts[id]
  }

  function Step(h: Hook, e: Event): Hook
    requires Enabled(h, e)
  {
    match e
    case Rerender(isRecovering, isOnline, option) => Render(h, DeriveRawStatus(isRecovering, isOnline), GraceOf(option))
    case Wait(until) => h.(now := until)
    case TimeOut(id) => Fire(h, id)
  }

  predicate IsRun(states: seq<Hook>, events: seq<Event>) {
    && |states| == |events| + 1
    && states[0].grace > 0.0
    && states[0] == Mounted(states[0].raw, states[0].grace, states[0].now)
    && forall k :: 0 <= k < |events| ==> Enabled(states[k], events[k]) && states[k + 1] == Step(states[k], events[k])
  }

  // ---------------------------------------------------------------- the hook itself

  class QuoteStreamStatus {
    var rawStatus: Connection
    var gracePeriodMs: real
    var status: Connection
    var timerRef: Option<nat>

    /** The platform: its pending timeouts and its clock. */
    var timeouts: map<nat, real>
    var nextTimer: nat
    var now: real
    ghost var since: real

    ghost function Snapshot(): Hook
      reads this
    {
      Hook(rawStatus, gracePeriodMs, status, timerRef, timeouts, nextTimer, now, since)
    }

    constructor (raw: Connection, option: Option<real>, now: real)
      ensures Snapshot() == Mounted(raw, GraceOf(option), now)
    {
      rawStatus := raw;
      gracePeriodMs := GraceOf(option);
      status := Connected;
      timerRef := None;
      timeouts := map[];
      nextTimer := 0;
      this.now := now;
      since := now;
      new;
      RunEffect();
    }

    method ClearPending()
      modifies this
      ensures Snapshot() == ClearTimer(old(Snapshot()))
    {
      if timerRef.Some? {
        timeouts := timeouts - {timerRef.value};
        timerRef := None;
      }
    }

    method RunEffect()
      modifies this
      ensures Snapshot() == Effect(old(Snapshot()))
    {
      ClearPending();
      since := now;
      match rawStatus
      case Disconnected => status := Disconnected;
      case Connected => status := Connected;
      case Reconnecting =>
        timeouts := timeouts[nextTimer := now + gracePeriodMs];
        timerRef := Some(nextTimer);
        nextTimer := nextTimer + 1;
    }

    method OnRender(isRecovering: bool, isOnline: bool, option: Option<real>)
      modifies this
      ensures Snapshot() == Render(old(Snapshot()), DeriveRawStatus(isRecovering, isOnline), GraceOf(option))
    {
      var raw := DeriveRawStatus(isRecovering, isOnline);
      if raw == rawStatus && GraceOf(option) == gracePeriodMs {
        return;
      }
      if rawStatus.Reconnecting? {
        ClearPending();
      }
      rawStatus := raw;
      gracePeriodMs := GraceOf(option);
      RunEffect();
    }

    method OnTimeOut(id: nat)
      modifies this
      ensures Snapshot() == Fire(old(Snapshot()), id)
    {
      timeouts := timeouts - {id};
      timerRef := None;
      status := Reconnecting;
    }
  }

  // ---------------------------------------------------------------- what every run keeps

  ghost predicate Inv(h: Hook) {
    && h.grace > 0.0 && h.since <= h.now
    && (h.timerRef.Some? ==> h.timerRef.value < h.nextTimer && h.raw.Reconnecting?)
    && h.timeouts == (if h.timerRef.Some? then map[h.timerRef.value := h.since + h.grace] else map[])
    && (!h.raw.Reconnecting? ==> h.status == h.raw)
    && (h.raw.Reconnecting? && h.timerRef.None? ==> h.status == Reconnecting && h.now >= h.since + h.grace)
  }

  lemma EffectKeeps(h: Hook)
    requires h.grace > 0.0 && h.timeouts.Keys == if h.timerRef.Some? then {h.timerRef.value} else {}
    ensures Inv(Effect(h))
  {
    assert ClearTimer(h).timeouts == map[];
  }

  lemma RenderKeeps(h: Hook, raw: Connection, grace: real)
    requires Inv(h) && grace > 0.0
    ensures Inv(Render(h, raw, grace))
  {
    if raw != h.raw || grace != h.grace {
      assert ClearTimer(h).timeouts == map[];
      EffectKeeps(CleanUp(h).(raw := raw, grace := grace));
    }
  }

  lemma StepKeeps(h: Hook, e: Event)
    requires Inv(h) && Enabled(h, e)
    ensures Inv(Step(h, e))
  {
    match e
    case Rerender(isRecovering, isOnline, option) =>
      RenderKeeps(h, DeriveRawStatus(isRecovering, isOnline), GraceOf(option));
    case Wait(_) =>
    case TimeOut(id) => assert h.timeouts - {id} == map[];
  }

  lemma {:induction false} RunKeeps(states: seq<Hook>, events: seq<Event>, k: nat)
    requires IsRun(states, events) && k < |states|
    ensures Inv(states[k])
    decreases k
  {
    if k == 0 {
      EffectKeeps(Hook(states[0].raw, states[0].grace, Connected, None, map[], 0, states[0].now, states[0].now));
    } else {
      RunKeeps(states, events, k - 1);
      StepKeeps(states[k - 1], events[k - 1]);
    }
  }

  /** At most one timeout is ever pending, and only while the raw status is reconnecting. */
  lemma OneTimeout(states: seq<Hook>, events: seq<Event>, k: nat)
    requires IsRun(states, events) && k < |states|
    ensures |states[k].timeouts| <= 1
    ensures states[k].timeouts != map[] ==> states[k].raw == Reconnecting
  {
    RunKeeps(states, events, k);
    var h := states[k];
    if h.timerRef.Some? {
      assert h.timeouts.Keys == {h.timerRef.value};
    }
  }

  /** Going offline and recovering are shown at once. */
  lemma OfflineAndRecoveryAreImmediate(states: seq<Hook>, events: seq<Event>, k: nat)
    requires IsRun(states, events) && k < |states| && states[k].raw != Reconnecting
    ensures states[k].status == states[k].raw
  {
    RunKeeps(states, events, k);
  }

  /** The raw status and the grace period did not change from `i` to `k`. */
  predicate Steady(states: seq<Hook>, i: nat, k: nat)
    requires i <= k < |states|
  {
    forall j :: i <= j <= k ==> states[j].raw == states[k].raw && states[j].grace == states[k].grace
  }

  lemma {:induction false} SteadySince(states: seq<Hook>, events: seq<Event>, k: nat) returns (i: nat)
    requires IsRun(states, events) && k < |states|
    ensures i <= k && Steady(states, i, k) && states[i].now == states[k].since
    decreases k
  {
    if k == 0 {
      i := 0;
    } else {
      i := SteadySince(states, events, k - 1);
      if states[k].raw != states[k - 1].raw || states[k].grace != states[k - 1].grace {
        i := k;
      }
    }
  }

  /**
   * Whenever reconnecting starts to be shown, the raw status had been reconnecting without a break,
   * under the same grace period, for at least that period.
   */
  lemma ReconnectingWaitsOutTheGrace(states: seq<Hook>, events: seq<Event>, k: nat) returns (i: nat)
    requires IsRun(states, events) && k < |events|
    requires states[k].status != Reconnecting && states[k + 1].status == Reconnecting
    ensures i <= k && Steady(states, i, k) && states[k].raw == Reconnecting
    ensures states[k].now >= states[i].now + states[k].grace
  {
    RunKeeps(states, events, k);
    RunKeeps(states, events, k + 1);
    i := SteadySince(states, events, k);
  }

  lemma {:induction false} SinceIsKept(states: seq<Hook>, events: seq<Event>, i: nat, k: nat)
    requires IsRun(states, events) && i <= k < |states| && Steady(states, i, k)
    ensures states[k].since == states[i].since
    decreases k
  {
    if i < k {
      assert states[k - 1].raw == states[k].raw && states[k - 1].grace == states[k].grace;
      SinceIsKept(states, events, i, k - 1);
    }
  }

  /** A raw status held for the grace period is what is shown, as soon as no timeout is overdue. */
  lemma HeldStatusIsShown(states: seq<Hook>, events: seq<Event>, i: nat, k: nat)
    requires IsRun(states, events) && i <= k < |states| && Steady(states, i, k)
    requires states[k].now >= states[i].now + states[k].grace
    requires forall id :: id in states[k].timeouts ==> states[k].now < states[k].timeouts[id]
    ensures states[k].status == states[k].raw
  {
    RunKeeps(states, events, i);
    RunKeeps(states, events, k);
    SinceIsKept(states, events, i, k);
    if states[k].timerRef.Some? {
      PendingIsOverdue(states[k]);
    }
  }

  lemma PendingIsOverdue(h: Hook)
    requires Inv(h) && h.timerRef.Some? && h.now >= h.since + h.grace
    ensures exists id :: id in h.timeouts && h.timeouts[id] <= h.now
  {
    assert h.timerRef.value in h.timeouts;
  }

  /** Unmounting leaves no timeout behind. */
  lemma UnmountClears(states: seq<Hook>, events: seq<Event>, k: nat)
    requires IsRun(states, events) && k < |states|
    ensures CleanUp(states[k]).timeouts == map[]
  {
    RunKeeps(states, events, k);
  }

  // ---------------------------------------------------------------- what each render shows

  /** Offline is shown at once, recovering or not, and no timeout is left to change it. */
  lemma OfflineIsShown(states: seq<Hook>, events: seq<Event>, k: nat, isRecovering: bool, option: Option<real>)
    requires IsRun(states, events) && k < |states|
    ensures
      var h := Step(states[k], Rerender(isRecovering, false, option));
      h.status == Disconnected && h.timeouts == map[]
  {
    RunKeeps(states, events, k);
    StepKeeps(states[k], Rerender(isRecovering, false, option));
  }

  /** Online and not recovering is shown as connected at once, and no timeout is left to change it. */
  lemma OnlineIsShown(states: seq<Hook>, events: seq<Event>, k: nat, option: Option<real>)
    requires IsRun(states, events) && k < |states|
    ensures
      var h := Step(states[k], Rerender(false, true, option));
      h.status == Connected && h.timeouts == map[]
  {
    RunKeeps(states, events, k);
    StepKeeps(states[k], Rerender(false, true, option));
  }

  /**
   * Starting to recover while online keeps what is shown and waits one grace period: the option if
   * it is positive, three seconds otherwise.
   */
  lemma RecoveryWaits(states: seq<Hook>, events: seq<Event>, k: nat, option: Option<real>)
    requires IsRun(states, events) && k < |states| && states[k].raw != Reconnecting
    ensures
      var before, after := states[k], Step(states[k], Rerender(true, true, option));
      var grace := if option.Some? && option.value > 0.0 then option.value else 3000.0;
      && after.status == before.status && after.timerRef.Some?
      && after.timeouts == map[after.timerRef.value := before.now + grace]
  {
    RunKeeps(states, events, k);
    StepKeeps(states[k], Rerender(true, true, option));
  }

  /** A grace period that runs out shows reconnecting. */
  lemma GraceRunsOut(h: Hook, id: nat)
    requires Enabled(h, TimeOut(id))
    ensures Step(h, TimeOut(id)).status == Reconnecting && id !in Step(h, TimeOut(id)).timeouts
  {
  }
}
