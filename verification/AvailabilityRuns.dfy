/** What holds of one lane's availability over every run, and how often a dead lane is probed. */
module AvailabilityRuns {
  import opened Options
  import opened Availability

  /**
   One lane: its record, the last reset instant the usage stream reported, the mirror on disk, every instant
   ever reported, and the clock.
   */
  datatype World = World(
    lane: Availability,
    window: Option<int>,
    file: Availability,
    reported: set<int>,
    nowMs: int)

  const INIT := World(InitialAvailability(0), None, InitialAvailability(0), {}, 0)

  /** Turns run side by side: a gate and the result of what it let through are events of their own. */
  datatype Event =
    | Gate(atMs: int, aborted: bool, written: bool)
    | Result(atMs: int, outcome: Outcome, written: bool)
    | Report(atMs: int, resetsAtMs: int)
    | Restart(atMs: int)

  predicate CanStep(w: World, ev: Event) {
    ev.atMs >= w.nowMs
  }

  function Write(w: World, next: Availability, written: bool): World {
    w.(lane := next, file := if written then next else w.file)
  }

  function StepGate(w: World, atMs: int, aborted: bool, written: bool): World {
    if GateRecords(GateVerdict(w.lane, atMs, aborted)) then Write(w, AfterGate(w.lane, atMs, aborted), written) else w
  }

  function StepResult(w: World, atMs: int, outcome: Outcome, written: bool): World {
    if ResultRecords(w.lane, outcome) then Write(w, AfterResult(w.lane, w.window, outcome, atMs), written) else w
  }

  function Step(w: World, ev: Event): World {
    var w := w.(nowMs := ev.atMs);
    match ev
    case Gate(atMs, aborted, written) => StepGate(w, atMs, aborted, written)
    case Result(atMs, outcome, written) => StepResult(w, atMs, outcome, written)
    case Report(_, resetsAtMs) => w.(window := Some(resetsAtMs), reported := w.reported + {resetsAtMs})
    case Restart(_) => w.(lane := w.file, window := None)
  }

  predicate Runs(w: World, evs: seq<Event>)
    decreases |evs|
  {
    evs == [] || (CanStep(w, evs[0]) && Runs(Step(w, evs[0]), evs[1..]))
  }

  function Run(w: World, evs: seq<Event>): World
    decreases |evs|
  {
    if evs == [] then w else Run(Step(w, evs[0]), evs[1..])
  }

  ghost predicate Inv(w: World) {
    && WellKept(w.lane, w.reported) && WellKept(w.file, w.reported)
    && (w.window.Some? ==> w.window.value in w.reported)
    && w.lane.updatedMs <= w.nowMs && w.file.updatedMs <= w.nowMs
  }

  lemma StepKeeps(w: World, ev: Event)
    requires Inv(w) && CanStep(w, ev)
    ensures Inv(Step(w, ev))
  {
    if ev.Gate? {
      GateKeeps(w.lane, ev.atMs, ev.aborted, w.reported);
    } else if ev.Result? {
      ResultKeeps(w.lane, w.window, ev.outcome, ev.atMs, w.reported);
    }
  }

  lemma {:induction false} RunKeeps(w: World, evs: seq<Event>)
    requires Inv(w) && Runs(w, evs)
    ensures Inv(Run(w, evs))
    decreases |evs|
  {
    if evs != [] {
      StepKeeps(w, evs[0]);
      RunKeeps(Step(w, evs[0]), evs[1..]);
    }
  }

  /**
   Over every run: a lane that is not ready says why and when it will be probed, so it is never locked out for
   good, and any reset instant it shows is one the vendor reported for a spent quota.
   */
  lemma AlwaysWellKept(evs: seq<Event>)
    requires Runs(INIT, evs)
    ensures var w := Run(INIT, evs);
      && WellKept(w.lane, w.reported)
      && (IsBlocked(w.lane) ==>
            w.lane.probeAtMs.Some? &&
            forall atMs | atMs >= w.lane.probeAtMs.value :: GateVerdict(w.lane, atMs, false) == Dispatch(true))
  {
    RunKeeps(INIT, evs);
  }

  /** The last reset instant reported to this process; `before` is what it knew before these events. */
  function LastReport(evs: seq<Event>, before: Option<int>): Option<int>
    decreases |evs|
  {
    if evs == [] then before
    else
      LastReport(evs[1..], if evs[0].Report? then Some(evs[0].resetsAtMs) else if evs[0].Restart? then None else before)
  }

  lemma {:induction false} WindowIsLastReport(w: World, evs: seq<Event>)
    ensures Run(w, evs).window == LastReport(evs, w.window)
    decreases |evs|
  {
    if evs != [] {
      WindowIsLastReport(Step(w, evs[0]), evs[1..]);
    }
  }

  /** When the next send is the recovery attempt: at `dueMs`, or after six hours without an update. */
  ghost predicate AdmitsFrom(a: Availability, dueMs: int) {
    && IsBlocked(a)
    && forall sendMs ::
         GateVerdict(a, sendMs, false) == Dispatch(true) <==>
           sendMs >= dueMs || sendMs >= a.updatedMs + MAX_PROBE_WAIT_MS
  }

  /**
   Over every run: a classified failure leaves the lane dead of it. A spent quota whose last reported reset is ahead
   shows that instant and admits the next send from it on; every other death shows none and admits after the cooldown.
   */
  lemma FailureAdmitsExactly(evs: seq<Event>, atMs: int, kind: Cause, written: bool)
    requires Runs(INIT, evs) && CanStep(Run(INIT, evs), Result(atMs, Failed(Some(kind)), written))
    ensures var a := Step(Run(INIT, evs), Result(atMs, Failed(Some(kind)), written)).lane;
      var last := LastReport(evs, None);
      && a.state == Dead(kind) && a.updatedMs == atMs
      && if kind.Exhausted? && last.Some? && last.value > atMs
         then a.resetsAtMs == last && AdmitsFrom(a, last.value)
         else a.resetsAtMs.None? && AdmitsFrom(a, atMs + FALLBACK_COOLDOWN_MS)
  {
    WindowIsLastReport(INIT, evs);
  }

  /**
   Over every run: a recovery that failed without a reason leaves the lane dead of what it was. It admits after the
   cooldown, or from a vendor's reset: the last reported one when that is beyond the cooldown, else the one shown.
   */
  lemma FailedRecoveryAdmitsExactly(evs: seq<Event>, atMs: int, written: bool)
    requires Runs(INIT, evs) && CanStep(Run(INIT, evs), Result(atMs, Failed(None), written))
    requires Run(INIT, evs).lane.state.Retrying?
    ensures var before := Run(INIT, evs).lane;
      var a := Step(Run(INIT, evs), Result(atMs, Failed(None), written)).lane;
      var last := LastReport(evs, None);
      && before.cause.Some? && a.state == Dead(before.cause.value) && a.updatedMs == atMs
      && if before.cause == Some(Exhausted) && last.Some? && last.value > atMs + FALLBACK_COOLDOWN_MS
         then a.resetsAtMs == last && AdmitsFrom(a, last.value)
         else if before.resetsAtMs.Some? && before.resetsAtMs.value > atMs
         then a.resetsAtMs == before.resetsAtMs && AdmitsFrom(a, before.resetsAtMs.value)
         else a.resetsAtMs.None? && AdmitsFrom(a, atMs + FALLBACK_COOLDOWN_MS)
  {
    RunKeeps(INIT, evs);
    WindowIsLastReport(INIT, evs);
  }

  /** A lane that is not ready is so next if and only if a dispatch succeeded, or a restart reads a ready mirror. */
  lemma ReadyOnlyAfterSuccess(w: World, ev: Event)
    requires !w.lane.state.Ready?
    ensures Step(w, ev).lane.state.Ready? <==>
      (ev.Result? && ev.outcome.Succeeded?) || (ev.Restart? && w.file.state.Ready?)
  {
  }

  predicate AlwaysWritten(evs: seq<Event>) {
    forall i | 0 <= i < |evs| :: (evs[i].Gate? ==> evs[i].written) && (evs[i].Result? ==> evs[i].written)
  }

  predicate HasSuccess(evs: seq<Event>) {
    exists i | 0 <= i < |evs| :: evs[i].Result? && evs[i].outcome.Succeeded?
  }

  /** A death of either kind at `diedMs` that the disk refuses to record, and a restart. */
  function DeathForgotten(kind: Cause, diedMs: int, restartMs: int): seq<Event> {
    [Result(diedMs, Failed(Some(kind)), false)] + [Restart(restartMs)]
  }

  /** Without the write a dead lane comes back ready with no success, from the very first failure on. */
  lemma FailedWriteForgetsDeath(kind: Cause, diedMs: nat, restartMs: nat)
    requires diedMs <= restartMs
    ensures var evs := DeathForgotten(kind, diedMs, restartMs);
      && Runs(INIT, evs) && !HasSuccess(evs)
      && IsBlocked(Step(INIT, evs[0]).lane)
      && Run(INIT, evs).lane.state.Ready?
  {
    var evs := DeathForgotten(kind, diedMs, restartMs);
    var dead := Step(INIT, evs[0]);
    assert evs[1..] == [Restart(restartMs)] && evs[1..][1..] == [];
    assert Runs(Step(dead, Restart(restartMs)), []);
    assert Run(dead, evs[1..]) == Step(dead, Restart(restartMs));
  }

  /** With every write through, the mirror is the lane, so a lane that died stays dead across restarts. */
  lemma {:induction false} DeadUntilSuccess(w: World, evs: seq<Event>)
    requires !w.lane.state.Ready? && w.file == w.lane && AlwaysWritten(evs)
    ensures Run(w, evs).file == Run(w, evs).lane
    ensures Run(w, evs).lane.state.Ready? ==> HasSuccess(evs)
    decreases |evs|
  {
    if evs != [] {
      if Step(w, evs[0]).lane.state.Ready? {
        ReadyOnlyAfterSuccess(w, evs[0]);
        MirrorHolds(Step(w, evs[0]), evs[1..]);
      } else {
        DeadUntilSuccess(Step(w, evs[0]), evs[1..]);
        if HasSuccess(evs[1..]) {
          var i :| 0 <= i < |evs| - 1 && evs[1..][i].Result? && evs[1..][i].outcome.Succeeded?;
          assert evs[i + 1].Result? && evs[i + 1].outcome.Succeeded?;
        }
      }
    }
  }

  lemma {:induction false} MirrorHolds(w: World, evs: seq<Event>)
    requires w.file == w.lane && AlwaysWritten(evs)
    ensures Run(w, evs).file == Run(w, evs).lane
    decreases |evs|
  {
    if evs != [] {
      MirrorHolds(Step(w, evs[0]), evs[1..]);
    }
  }

  predicate IsCancel(ev: Event) {
    (ev.Gate? && ev.aborted) || (ev.Result? && ev.outcome.Cancelled?)
  }

  function Uncancelled(evs: seq<Event>): seq<Event> {
    if evs == [] then [] else (if IsCancel(evs[0]) then [] else [evs[0]]) + Uncancelled(evs[1..])
  }

  /** A cancel is evidence in neither direction: a run and the same run without its cancels record the same. */
  lemma {:induction false} CancelsRecordNothing(w: World, v: World, evs: seq<Event>)
    requires w.lane == v.lane && w.window == v.window && w.file == v.file
    ensures Run(w, evs).lane == Run(v, Uncancelled(evs)).lane
    ensures Run(w, evs).window == Run(v, Uncancelled(evs)).window
    decreases |evs|
  {
    if evs != [] {
      if IsCancel(evs[0]) {
        CancelsRecordNothing(Step(w, evs[0]), v, evs[1..]);
        assert [] + Uncancelled(evs[1..]) == Uncancelled(evs[1..]);
      } else {
        CancelsRecordNothing(Step(w, evs[0]), Step(v, evs[0]), evs[1..]);
        assert ([evs[0]] + Uncancelled(evs[1..]))[1..] == Uncancelled(evs[1..]);
      }
    }
  }

  // How often a dead lane is probed.

  /** One send after another: each that is let through ends, in a failure, before the next arrives. */
  datatype Round = Send(atMs: int, endMs: int, kind: Option<Cause>) | Hear(atMs: int, resetsAtMs: int)

  predicate LetThrough(w: World, round: Round) {
    round.Send? && GateVerdict(w.lane, round.atMs, false).Dispatch?
  }

  function AfterRound(w: World, round: Round): World {
    match round
    case Hear(atMs, resetsAtMs) => Step(w, Report(atMs, resetsAtMs))
    case Send(atMs, endMs, kind) =>
      var gated := Step(w, Gate(atMs, false, true));
      if LetThrough(w, round) then Step(gated, Result(endMs, Failed(kind), true)) else gated
  }

  /** In clock order, and no failure finds a vendor window nearer than the cooldown. */
  predicate Orderly(w: World, rounds: seq<Round>)
    decreases |rounds|
  {
    rounds == [] ||
    (&& rounds[0].atMs >= w.nowMs
     && (LetThrough(w, rounds[0]) ==>
           && rounds[0].endMs >= rounds[0].atMs
           && !NearWindow(Step(w, Gate(rounds[0].atMs, false, true)).lane, w.window, rounds[0].kind, rounds[0].endMs))
     && Orderly(AfterRound(w, rounds[0]), rounds[1..]))
  }

  function Dispatches(w: World, rounds: seq<Round>): seq<int>
    decreases |rounds|
  {
    if rounds == [] then []
    else
      (if LetThrough(w, rounds[0]) then [rounds[0].atMs] else []) + Dispatches(AfterRound(w, rounds[0]), rounds[1..])
  }

  ghost predicate IsDead(w: World) {
    IsBlocked(w.lane) && ProbeDue(w.lane).Some? && w.lane.updatedMs <= w.nowMs
  }

  lemma RoundRests(w: World, rounds: seq<Round>)
    requires IsDead(w) && rounds != [] && Orderly(w, rounds)
    ensures var w' := AfterRound(w, rounds[0]);
      && IsDead(w')
      && ProbeDue(w'.lane).value >=
           if LetThrough(w, rounds[0]) then rounds[0].atMs + FALLBACK_COOLDOWN_MS else ProbeDue(w.lane).value
  {
    if LetThrough(w, rounds[0]) {
      var gated := Step(w, Gate(rounds[0].atMs, false, true));
      FailureRestsExactly(gated.lane, w.window, rounds[0].kind, rounds[0].endMs);
    }
  }

  /** The first no earlier than `dueMs`, each next one at least a cooldown later. */
  predicate SpacedFrom(dueMs: int, ds: seq<int>)
    decreases |ds|
  {
    ds == [] || (dueMs <= ds[0] && SpacedFrom(ds[0] + FALLBACK_COOLDOWN_MS, ds[1..]))
  }

  lemma {:induction false} ProbesAreSpaced(w: World, rounds: seq<Round>)
    requires IsDead(w) && Orderly(w, rounds)
    ensures SpacedFrom(ProbeDue(w.lane).value, Dispatches(w, rounds))
    decreases |rounds|
  {
    if rounds != [] {
      var w' := AfterRound(w, rounds[0]);
      RoundRests(w, rounds);
      ProbesAreSpaced(w', rounds[1..]);
      var rest := Dispatches(w', rounds[1..]);
      if LetThrough(w, rounds[0]) {
        assert Dispatches(w, rounds)[1..] == rest;
      } else {
        assert Dispatches(w, rounds) == rest;
      }
    }
  }

  lemma {:induction false} SpacedApart(dueMs: int, ds: seq<int>, i: nat, j: nat)
    requires SpacedFrom(dueMs, ds) && i <= j < |ds|
    ensures ds[i] >= dueMs && ds[j] >= ds[i] + (j - i) * FALLBACK_COOLDOWN_MS
    decreases |ds|
  {
    if i > 0 {
      SpacedApart(ds[0] + FALLBACK_COOLDOWN_MS, ds[1..], i - 1, j - 1);
    } else if j > 0 {
      SpacedApart(ds[0] + FALLBACK_COOLDOWN_MS, ds[1..], 0, j - 1);
    }
  }

  /** However many sends arrive, at most 1 + T / 15 min of them reach a dead lane in any stretch of T ms. */
  lemma ProbeRateBounded(w: World, rounds: seq<Round>, i: nat, j: nat, spanMs: nat)
    requires IsDead(w) && Orderly(w, rounds)
    requires var ds := Dispatches(w, rounds); i <= j < |ds| && ds[j] - ds[i] <= spanMs
    ensures j - i + 1 <= 1 + spanMs / FALLBACK_COOLDOWN_MS
  {
    ProbesAreSpaced(w, rounds);
    SpacedApart(ProbeDue(w.lane).value, Dispatches(w, rounds), i, j);
  }

  // The six-hour ceiling.

  /** Before its deadline a lane is probed exactly when nothing touched its record for six hours. */
  lemma CeilingCountsFromLastUpdate(a: Availability, nowMs: int)
    requires IsBlocked(a) && a.probeAtMs.Some? && nowMs < a.probeAtMs.value
    ensures GateVerdict(a, nowMs, false) == Dispatch(true) <==> nowMs >= a.updatedMs + MAX_PROBE_WAIT_MS
  {
  }

  function AfterSends(a: Availability, sends: seq<int>): Availability
    decreases |sends|
  {
    if sends == [] then a else AfterSends(AfterGate(a, sends[0], false), sends[1..])
  }

  predicate Impatient(updatedMs: int, sends: seq<int>)
    decreases |sends|
  {
    sends == [] || (updatedMs <= sends[0] < updatedMs + MAX_PROBE_WAIT_MS && Impatient(sends[0], sends[1..]))
  }

  /**
   A blocked send restarts the ceiling: sends less than six hours apart keep a lane blocked right up to its
   deadline, however far away that is.
   */
  lemma {:induction false} ImpatienceStarvesTheCeiling(a: Availability, sends: seq<int>)
    requires IsBlocked(a) && a.probeAtMs.Some? && Impatient(a.updatedMs, sends)
    requires forall i | 0 <= i < |sends| :: sends[i] < a.probeAtMs.value
    ensures IsBlocked(AfterSends(a, sends)) && AfterSends(a, sends).probeAtMs == a.probeAtMs
    ensures forall i | 0 <= i < |sends| :: GateVerdict(AfterSends(a, sends[..i]), sends[i], false).Blocked?
    decreases |sends|
  {
    if sends != [] {
      var a' := AfterGate(a, sends[0], false);
      BlockedSendKeepsDeadline(a, sends[0]);
      ImpatienceStarvesTheCeiling(a', sends[1..]);
      forall i | 0 <= i < |sends|
        ensures GateVerdict(AfterSends(a, sends[..i]), sends[i], false).Blocked?
      {
        if i > 0 {
          assert sends[..i][1..] == sends[1..][..i - 1];
          assert sends[i] == sends[1..][i - 1];
        }
      }
    }
  }
}
