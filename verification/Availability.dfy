/**
 Whether a lane may be sent to (src/chat/lane-availability.ts): the record of one lane and its transitions.

 The failure texts are not modelled: a failure comes classified as exhausted, needs-auth or neither. Times are
 epoch milliseconds.
 */
module Availability {
  import opened Options

  const FALLBACK_COOLDOWN_MS: int := 900_000
  const MAX_PROBE_WAIT_MS: int := 21_600_000

  datatype Cause = Exhausted | NeedsAuth

  datatype State = Ready | Dead(cause: Cause) | LocalBlocked | Retrying

  datatype Availability = Availability(
    state: State,
    cause: Option<Cause>,
    resetsAtMs: Option<int>,   // only ever an instant the vendor reported
    probeAtMs: Option<int>,    // absent on a record an earlier build wrote
    updatedMs: int)

  function InitialAvailability(nowMs: int): Availability {
    Availability(Ready, None, None, None, nowMs)
  }

  predicate IsBlocked(a: Availability)
    ensures IsBlocked(a) <==> !a.state.Ready? && !a.state.Retrying?
  {
    a.state.Dead? || a.state.LocalBlocked?
  }

  function Min(a: int, b: int): int {
    if a <= b then a else b
  }

  function OrElse(first: Option<int>, second: Option<int>): Option<int> {
    if first.Some? then first else second
  }

  /** When a probe comes due, if ever: the deadline, or six hours after the last update. */
  function ProbeDue(a: Availability): Option<int> {
    match OrElse(a.probeAtMs, a.resetsAtMs)
    case None => None
    case Some(due) => Some(Min(due, a.updatedMs + MAX_PROBE_WAIT_MS))
  }

  predicate PlausiblyReset(a: Availability, nowMs: int) {
    !a.state.Ready? && ProbeDue(a).Some? && nowMs >= ProbeDue(a).value
  }

  /** A rate window says when a quota comes back, and only while it is still ahead. */
  function UsableResetWindow(cause: Cause, resetsAtMs: Option<int>, nowMs: int): Option<int> {
    if cause.Exhausted? && resetsAtMs.Some? && resetsAtMs.value > nowMs then resetsAtMs else None
  }

  function ProbeAt(window: Option<int>, nowMs: int): int {
    if window.Some? then window.value else nowMs + FALLBACK_COOLDOWN_MS
  }

  /** An unclassified failure is no evidence; any other makes the lane dead, to be probed when the vendor says. */
  function OnDispatchFailure(prev: Availability, kind: Option<Cause>, nowMs: int, resetsAtMs: Option<int>)
    : (next: Availability)
    ensures kind.None? ==> next == prev
    ensures kind.Some? ==> next.state == Dead(kind.value) && next.cause == kind && next.updatedMs == nowMs
    ensures kind == Some(Exhausted) && resetsAtMs.Some? && resetsAtMs.value > nowMs ==>
      next.resetsAtMs == next.probeAtMs == resetsAtMs
    ensures kind.Some? && (kind.value.NeedsAuth? || resetsAtMs.None? || resetsAtMs.value <= nowMs) ==>
      next.resetsAtMs.None? && next.probeAtMs == Some(nowMs + FALLBACK_COOLDOWN_MS)
  {
    if kind.None? then prev
    else
      var window := UsableResetWindow(kind.value, resetsAtMs, nowMs);
      Availability(Dead(kind.value), kind, window, Some(ProbeAt(window, nowMs)), nowMs)
  }

  function OnBlockedSend(prev: Availability, nowMs: int): Availability {
    if IsBlocked(prev) then prev.(state := LocalBlocked, updatedMs := nowMs) else prev
  }

  function OnRetry(prev: Availability, nowMs: int): Availability {
    if prev.state.Ready? then prev else prev.(state := Retrying, updatedMs := nowMs)
  }

  function SurvivingVendorReset(prev: Availability, nowMs: int, known: Option<int>): Option<int> {
    if prev.cause != Some(Exhausted) then None
    else if known.Some? && known.value > nowMs + FALLBACK_COOLDOWN_MS then known
    else if prev.resetsAtMs.Some? && prev.resetsAtMs.value > nowMs then prev.resetsAtMs
    else None
  }

  /**
   A failed recovery puts the lane back to what it was dead of. Of a spent quota it shows the window known by now
   when that is beyond the cooldown, else the one it showed while that is ahead; it probes then, or after a cooldown.
   */
  function OnRetryFailed(prev: Availability, nowMs: int, known: Option<int>): (next: Availability)
    ensures !prev.state.Retrying? ==> next == prev
    ensures prev.state.Retrying? ==>
      && next.cause == prev.cause && next.updatedMs == nowMs && IsBlocked(next)
      && (next.state.Dead? ==> prev.cause == Some(next.state.cause)) && (prev.cause.Some? ==> next.state.Dead?)
    ensures prev.state.Retrying? && next.resetsAtMs.Some? ==> next.probeAtMs == next.resetsAtMs
    ensures prev.state.Retrying? && next.resetsAtMs.None? ==> next.probeAtMs == Some(nowMs + FALLBACK_COOLDOWN_MS)
    ensures prev.state.Retrying? && prev.cause != Some(Exhausted) ==> next.resetsAtMs.None?
    ensures prev.state.Retrying? && prev.cause == Some(Exhausted) && known.Some? &&
            known.value > nowMs + FALLBACK_COOLDOWN_MS ==>
      next.resetsAtMs == known
    ensures prev.state.Retrying? && prev.cause == Some(Exhausted) &&
            (known.None? || known.value <= nowMs + FALLBACK_COOLDOWN_MS) ==>
      next.resetsAtMs == if prev.resetsAtMs.Some? && prev.resetsAtMs.value > nowMs then prev.resetsAtMs else None
  {
    if !prev.state.Retrying? then prev
    else
      var window := SurvivingVendorReset(prev, nowMs, known);
      var state := if prev.cause.Some? then Dead(prev.cause.value) else LocalBlocked;
      Availability(state, prev.cause, window, Some(ProbeAt(window, nowMs)), nowMs)
  }

  function OnDispatchSuccess(nowMs: int): Availability {
    InitialAvailability(nowMs)
  }

  // The gate and the recorder, for one lane (src/chat/lane-gate.ts).

  datatype Verdict = Stopped | Blocked | Dispatch(retrying: bool)

  datatype Outcome = Cancelled | Succeeded | Failed(kind: Option<Cause>)

  /** A stop wins; only a blocked lane is ever held back, and then until its deadline or six hours of silence. */
  function GateVerdict(a: Availability, nowMs: int, aborted: bool): (verdict: Verdict)
    ensures verdict.Stopped? <==> aborted
    ensures verdict == Dispatch(false) <==> !aborted && (a.state.Ready? || a.state.Retrying?)
    ensures verdict == Dispatch(true) ==> IsBlocked(a) && (a.probeAtMs.Some? || a.resetsAtMs.Some?)
    ensures !aborted && IsBlocked(a) && a.probeAtMs.Some? ==>
      (verdict == Dispatch(true) <==> nowMs >= a.probeAtMs.value || nowMs >= a.updatedMs + MAX_PROBE_WAIT_MS)
    ensures !aborted && IsBlocked(a) && a.probeAtMs.None? && a.resetsAtMs.Some? ==>
      (verdict == Dispatch(true) <==> nowMs >= a.resetsAtMs.value || nowMs >= a.updatedMs + MAX_PROBE_WAIT_MS)
  {
    if aborted then Stopped
    else if !IsBlocked(a) then Dispatch(false)
    else if PlausiblyReset(a, nowMs) then Dispatch(true)
    else Blocked
  }

  /** The gate moves only a blocked lane, and of it only the state and the time of the update. */
  function AfterGate(a: Availability, nowMs: int, aborted: bool): (next: Availability)
    ensures aborted || a.state.Ready? || a.state.Retrying? ==> next == a
    ensures !aborted && IsBlocked(a) ==>
      && next.updatedMs == nowMs
      && next.state == (if GateVerdict(a, nowMs, aborted).Blocked? then LocalBlocked else Retrying)
      && next.cause == a.cause && next.resetsAtMs == a.resetsAtMs && next.probeAtMs == a.probeAtMs
  {
    match GateVerdict(a, nowMs, aborted)
    case Stopped => a
    case Blocked => OnBlockedSend(a, nowMs)
    case Dispatch(retrying) => if retrying then OnRetry(a, nowMs) else a
  }

  /** A cancel says nothing; a success clears everything; a failure counts when it is classified or was a recovery. */
  function AfterResult(a: Availability, window: Option<int>, outcome: Outcome, nowMs: int): (next: Availability)
    ensures outcome.Cancelled? ==> next == a
    ensures outcome.Succeeded? && a.state.Ready? ==> next == a
    ensures outcome.Succeeded? && !a.state.Ready? ==>
      && next.state.Ready? && next.updatedMs == nowMs
      && next.cause.None? && next.resetsAtMs.None? && next.probeAtMs.None?
    ensures outcome == Failed(None) && !a.state.Retrying? ==> next == a
  {
    match outcome
    case Cancelled => a
    case Succeeded => if a.state.Ready? then a else OnDispatchSuccess(nowMs)
    case Failed(kind) =>
      if kind.Some? then OnDispatchFailure(a, kind, nowMs, window) else OnRetryFailed(a, nowMs, window)
  }

  /** Whether the gate, or the recorder, has anything to write. */
  predicate GateRecords(verdict: Verdict) {
    verdict.Blocked? || verdict == Dispatch(true)
  }

  predicate ResultRecords(a: Availability, outcome: Outcome) {
    match outcome
    case Cancelled => false
    case Succeeded => !a.state.Ready?
    case Failed(kind) => kind.Some? || a.state.Retrying?
  }

  // What the transitions keep.

  /**
   A ready record is bare; any other has a cause and a probe deadline, and shows a reset instant only for a
   spent quota, only one of `reported`, and only the one it will probe at.
   */
  ghost predicate WellKept(a: Availability, reported: set<int>) {
    if a.state.Ready? then a.cause.None? && a.resetsAtMs.None? && a.probeAtMs.None?
    else
      && a.cause.Some?
      && a.probeAtMs.Some?
      && (a.state.Dead? ==> a.cause == Some(a.state.cause))
      && (a.resetsAtMs.Some? ==>
            a.cause == Some(Exhausted) && a.resetsAtMs == a.probeAtMs && a.resetsAtMs.value in reported)
  }

  lemma GateKeeps(a: Availability, nowMs: int, aborted: bool, reported: set<int>)
    requires WellKept(a, reported)
    ensures WellKept(AfterGate(a, nowMs, aborted), reported)
  {
  }

  lemma ResultKeeps(a: Availability, window: Option<int>, outcome: Outcome, nowMs: int, reported: set<int>)
    requires WellKept(a, reported) && (window.Some? ==> window.value in reported)
    ensures WellKept(AfterResult(a, window, outcome, nowMs), reported)
  {
  }

  /** A blocked send moves neither the deadline nor what it was made of. */
  lemma BlockedSendKeepsDeadline(a: Availability, nowMs: int)
    requires GateVerdict(a, nowMs, false).Blocked?
    ensures var a' := AfterGate(a, nowMs, false);
      IsBlocked(a') && a'.probeAtMs == a.probeAtMs && a'.resetsAtMs == a.resetsAtMs && a'.cause == a.cause
  {
  }

  /** From any blocked record, old ones included, a send at or after its deadline is the recovery attempt. */
  lemma DeadlineAlwaysAdmits(a: Availability, nowMs: int)
    requires IsBlocked(a) && OrElse(a.probeAtMs, a.resetsAtMs).Some?
    requires nowMs >= OrElse(a.probeAtMs, a.resetsAtMs).value
    ensures GateVerdict(a, nowMs, false) == Dispatch(true)
  {
  }

  /** A window so close that the next probe would not wait out the cooldown. */
  predicate IsNear(window: Option<int>, nowMs: int) {
    window.Some? && nowMs < window.value < nowMs + FALLBACK_COOLDOWN_MS
  }

  predicate NearWindow(a: Availability, window: Option<int>, kind: Option<Cause>, nowMs: int) {
    if kind.Some? then kind == Some(Exhausted) && IsNear(window, nowMs)
    else
      && a.cause == Some(Exhausted)
      && !(window.Some? && window.value > nowMs + FALLBACK_COOLDOWN_MS)
      && IsNear(a.resetsAtMs, nowMs)
  }

  /** After a failed recovery the lane rests for the whole cooldown, unless a nearer vendor window ends it. */
  lemma FailureRestsExactly(a: Availability, window: Option<int>, kind: Option<Cause>, nowMs: int)
    requires a.state.Retrying?
    ensures var a' := AfterResult(a, window, Failed(kind), nowMs);
      && IsBlocked(a')
      && ProbeDue(a').Some?
      && (ProbeDue(a').value >= nowMs + FALLBACK_COOLDOWN_MS <==> !NearWindow(a, window, kind, nowMs))
  {
  }
}
