/**
 The process registry of lane availability and its durable mirror (src/chat/lane-availability-store.ts), and
 the gate and recorder that drive it (src/chat/lane-gate.ts).
 */
module AvailabilityStore {
  import opened Options
  import opened Availability

  type Agent = nat

  function Lookup(registry: map<Agent, Availability>, agent: Agent): Availability {
    if agent in registry then registry[agent] else InitialAvailability(0)
  }

  function Window(windows: map<Agent, int>, agent: Agent): Option<int> {
    if agent in windows then Some(windows[agent]) else None
  }

  class LaneAvailabilityStore {
    var registry: map<Agent, Availability>
    var knownResetWindow: map<Agent, int>
    var file: map<Agent, Availability>

    /** A process bound to a project: the mirror is read once. */
    constructor (persisted: map<Agent, Availability>)
      ensures registry == file == persisted && knownResetWindow == map[]
    {
      registry, file, knownResetWindow := persisted, persisted, map[];
    }

    ghost function Of(agent: Agent): Availability
      reads this
    {
      Lookup(registry, agent)
    }

    /** What every write does: this agent's record, the mirror if the write went through, nothing else. */
    twostate predicate Wrote(agent: Agent, next: Availability, written: bool)
      reads this
    {
      && registry == old(registry)[agent := next]
      && file == (if written then registry else old(file))
      && knownResetWindow == old(knownResetWindow)
    }

    method Mutate(agent: Agent, next: Availability, written: bool)
      modifies this
      ensures Wrote(agent, next, written)
      ensures registry == old(registry)[agent := next] && unchanged(`knownResetWindow)
      ensures file == if written then registry else old(file)
    {
      registry := registry[agent := next];
      if written {
        file := registry;
      }
    }

    method EvaluateSend(agent: Agent, nowMs: int) returns (allow: bool, retrying: bool)
      ensures GateVerdict(Of(agent), nowMs, false) == if allow then Dispatch(retrying) else Blocked
      ensures allow && !retrying <==> Of(agent).state.Ready? || Of(agent).state.Retrying?
      ensures retrying ==> allow
    {
      var availability := Lookup(registry, agent);
      if !IsBlocked(availability) {
        return true, false;
      }
      if PlausiblyReset(availability, nowMs) {
        return true, true;
      }
      return false, false;
    }

    method NoteLaneResetWindow(agent: Agent, resetsAtMs: int)
      modifies `knownResetWindow
      ensures knownResetWindow == old(knownResetWindow)[agent := resetsAtMs]
    {
      knownResetWindow := knownResetWindow[agent := resetsAtMs];
    }

    method NoteLaneFailure(agent: Agent, kind: Option<Cause>, nowMs: int, resetsAtMs: Option<int>, written: bool)
      modifies this
      ensures Wrote(agent, OnDispatchFailure(old(Of(agent)), kind, nowMs,
                                             OrElse(resetsAtMs, Window(old(knownResetWindow), agent))), written)
      ensures registry == old(registry)[agent := Of(agent)] && unchanged(`knownResetWindow)
      ensures file == if written then registry else old(file)
      ensures kind.None? ==> Of(agent) == old(Of(agent))
      ensures kind.Some? ==>
        && Of(agent).state == Dead(kind.value) && Of(agent).cause == kind && Of(agent).updatedMs == nowMs
        && Of(agent).probeAtMs.Some?
      ensures kind == Some(Exhausted) && resetsAtMs.Some? && resetsAtMs.value > nowMs ==>
        Of(agent).resetsAtMs == Of(agent).probeAtMs == resetsAtMs
      ensures kind == Some(Exhausted) && resetsAtMs.None? && agent in knownResetWindow &&
              knownResetWindow[agent] > nowMs ==>
        Of(agent).resetsAtMs == Of(agent).probeAtMs == Some(knownResetWindow[agent])
      ensures kind.Some? && Of(agent).resetsAtMs.None? ==> Of(agent).probeAtMs.value == nowMs + FALLBACK_COOLDOWN_MS
      ensures kind.Some? && Of(agent).resetsAtMs.Some? ==>
        && kind.value.Exhausted? && Of(agent).resetsAtMs.value > nowMs
        && Of(agent).resetsAtMs ==
             (if resetsAtMs.Some? then resetsAtMs
              else if agent in knownResetWindow then Some(knownResetWindow[agent]) else None)
    {
      var reset := OrElse(resetsAtMs, Window(knownResetWindow, agent));
      Mutate(agent, OnDispatchFailure(Lookup(registry, agent), kind, nowMs, reset), written);
    }

    /** `gateLaneOrBlock`: a dead lane's send is refused here, before anything is spawned. */
    method GateLaneOrBlock(agent: Agent, nowMs: int, aborted: bool, written: bool) returns (verdict: Verdict)
      modifies this
      ensures verdict == GateVerdict(old(Of(agent)), nowMs, aborted)
      ensures if GateRecords(verdict)
              then Wrote(agent, AfterGate(old(Of(agent)), nowMs, aborted), written)
              else unchanged(this) && Of(agent) == AfterGate(old(Of(agent)), nowMs, aborted)
      ensures verdict.Stopped? || verdict == Dispatch(false) ==> unchanged(this)
      ensures verdict.Blocked? || verdict == Dispatch(true) ==>
        && registry == old(registry)[agent := Of(agent)] && unchanged(`knownResetWindow)
        && file == if written then registry else old(file)
      ensures verdict.Stopped? <==> aborted
      ensures verdict == Dispatch(false) <==>
        !aborted && (old(Of(agent)).state.Ready? || old(Of(agent)).state.Retrying?)
      ensures !aborted && IsBlocked(old(Of(agent))) ==>
        && Of(agent).state == (if verdict.Blocked? then LocalBlocked else Retrying) && Of(agent).updatedMs == nowMs
        && Of(agent).cause == old(Of(agent)).cause && Of(agent).probeAtMs == old(Of(agent)).probeAtMs
        && Of(agent).resetsAtMs == old(Of(agent)).resetsAtMs
    {
      if aborted {
        return Stopped;
      }
      var allow, retrying := EvaluateSend(agent, nowMs);
      if allow {
        if retrying {
          Mutate(agent, OnRetry(Lookup(registry, agent), nowMs), written);
        }
        return Dispatch(retrying);
      }
      Mutate(agent, OnBlockedSend(Lookup(registry, agent), nowMs), written);
      verdict := Blocked;
    }

    method RecordLaneDispatchResult(agent: Agent, outcome: Outcome, nowMs: int, written: bool)
      modifies this
      ensures var a := old(Of(agent));
        var next := AfterResult(a, Window(old(knownResetWindow), agent), outcome, nowMs);
        if ResultRecords(a, outcome) then Wrote(agent, next, written) else unchanged(this) && Of(agent) == next
      ensures outcome.Cancelled? ==> unchanged(this)
      ensures unchanged(`knownResetWindow)
      ensures registry == old(registry) || registry == old(registry)[agent := Of(agent)]
      ensures file == old(file) || file == registry
      ensures outcome.Succeeded? ==> if old(Of(agent)).state.Ready? then unchanged(this) else Of(agent).state.Ready?
      ensures outcome.Failed? && outcome.kind.Some? ==> Of(agent).state == Dead(outcome.kind.value)
      ensures outcome.Failed? && outcome.kind.None? ==>
        if old(Of(agent)).state.Retrying? then IsBlocked(Of(agent)) && Of(agent).cause == old(Of(agent)).cause
        else unchanged(this)
    {
      if outcome.Cancelled? {
        return;
      }
      var prev := Lookup(registry, agent);
      if outcome.Succeeded? {
        if !prev.state.Ready? {
          Mutate(agent, OnDispatchSuccess(nowMs), written);
        }
        return;
      }
      if outcome.kind.Some? {
        NoteLaneFailure(agent, outcome.kind, nowMs, None, written);
        return;
      }
      if prev.state.Retrying? {
        Mutate(agent, OnRetryFailed(prev, nowMs, Window(knownResetWindow, agent)), written);
      }
    }

    /** A dispatch that escaped with a throw: the turn's signal says whether it was a stop or a failure. */
    method HandleEscapedLaneError(agent: Agent, aborted: bool, kind: Option<Cause>, nowMs: int, written: bool)
      returns (rethrown: bool)
      modifies this
      ensures rethrown <==> !aborted
      ensures aborted ==> unchanged(this)
      ensures Of(agent) == AfterResult(old(Of(agent)), Window(old(knownResetWindow), agent),
                                       if aborted then Cancelled else Failed(kind), nowMs)
    {
      RecordLaneDispatchResult(agent, if aborted then Cancelled else Failed(kind), nowMs, written);
      rethrown := !aborted;
    }
  }
}
