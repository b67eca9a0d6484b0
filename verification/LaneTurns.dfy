/**
 Turns acquiring a session on one lane and sending on it (src/chat/lane-acquire.ts, lane-carrier.ts), in
 every interleaving with the connection of `LaneHoldWorld` and with cancels.

 `AcquireCache` is the single-flight entry of one lane: keys never interact. `Lane` adds the durable row,
 the acquisitions in flight and the turns; a `LaneEvent` is one atomic segment of one of them. `effects`
 records what a turn did that the outside can see.
 */
module LaneTurns {
  import opened Options
  import opened LaneHold
  import opened LaneHoldWorld

  type Turn = nat

  type AcquireId = nat

  // The single-flight cache.

  datatype CacheState = CacheState(inFlight: Option<AcquireId>, superseded: set<AcquireId>)

  function Register(c: CacheState, a: AcquireId): CacheState {
    c.(inFlight := Some(a))
  }

  /** The budget branch: the attempt it joined stands down, and the entry goes whoever it names. */
  function StandDown(c: CacheState, joined: AcquireId): CacheState {
    CacheState(None, c.superseded + {joined})
  }

  /** The `finally` of an attempt clears the entry only if it is still its own. */
  function Release(c: CacheState, a: AcquireId): CacheState {
    if c.inFlight == Some(a) then c.(inFlight := None) else c
  }

  class AcquireCache {
    var inFlight: Option<AcquireId>
    var superseded: set<AcquireId>

    ghost function View(): CacheState
      reads this
    {
      CacheState(inFlight, superseded)
    }

    constructor ()
      ensures View() == CacheState(None, {})
    {
      inFlight, superseded := None, {};
    }

    method Enter(a: AcquireId)
      modifies this
      ensures View() == Register(old(View()), a)
      ensures inFlight == Some(a) && unchanged(`superseded)
    {
      inFlight := Some(a);
    }

    method Supersede(joined: AcquireId)
      modifies this
      ensures View() == StandDown(old(View()), joined)
      ensures inFlight.None? && superseded == old(superseded) + {joined}
    {
      superseded := superseded + {joined};
      inFlight := None;
    }

    method Leave(a: AcquireId)
      modifies this
      ensures View() == Release(old(View()), a)
      ensures inFlight == (if old(inFlight) == Some(a) then None else old(inFlight)) && unchanged(`superseded)
    {
      if inFlight == Some(a) {
        inFlight := None;
      }
    }
  }

  // The lane.

  datatype Row = Row(sessionId: SessionId, generation: nat)

  /** `epoch` is the ticket of the `start` call that answered. */
  datatype Outcome = Acquired(row: Row, epoch: nat) | Rejected

  datatype AcquirePhase =
    | AwaitResume(epoch: nat, stored: Row)
    | AwaitCreate(epoch: nat)
    | Decided(outcome: Outcome)      // settled, its `finally` still to run
    | Published(outcome: Outcome)    // what everyone awaiting the promise sees

  datatype Acquire = Acquire(owner: Turn, phase: AcquirePhase)

  datatype TurnPhase =
    | Joining(acquire: AcquireId)      // awaiting a promise, its own or one it joined
    | Parked(acquire: AcquireId)       // racing someone else's against the budget and the cancel
    | BudgetSpent(acquire: AcquireId)
    | Sending
    | Over

  /** `foreground`: a real turn; otherwise the boot-time open, which joins without a budget and never sends. */
  datatype TurnState = TurnState(foreground: bool, aborted: bool, sent: bool, phase: TurnPhase)

  datatype Effect =
    | StartCalled(turn: Turn, acquire: AcquireId, epoch: nat)
    | RowTouched(turn: Turn, acquire: AcquireId)
    | RowWritten(turn: Turn, acquire: AcquireId, row: Row)
    | AttemptWritten(turn: Turn)
    | PromptSent(turn: Turn)
    | AttemptMarked(turn: Turn)
    | CursorAdvanced(turn: Turn)

  datatype Lane = Lane(
    world: World,
    row: Option<Row>,
    cache: CacheState,
    acquires: map<AcquireId, Acquire>,
    turns: map<Turn, TurnState>,
    issuer: map<nat, Turn>,
    effects: seq<Effect>)

  const INIT_LANE := Lane(INIT, None, CacheState(None, {}), map[], map[], map[], [])

  datatype LaneEvent =
    | Hold(ev: Event)
    | Call(turn: Turn, foreground: bool, aborted: bool, forceFresh: bool, bindingMatches: bool, acquire: AcquireId)
    | Abort(turn: Turn)
    | ParkWon(turn: Turn)
    | ParkEnded(turn: Turn)
    | TakeOver(turn: Turn, acquire: AcquireId)
    | Continue(acquire: AcquireId)
    | Publish(acquire: AcquireId)
    | Proceed(turn: Turn)
    | SendReturned(turn: Turn, accepted: bool)

  predicate InPhase(l: Lane, turn: Turn, phase: TurnPhase) {
    turn in l.turns && l.turns[turn].phase == phase
  }

  predicate AwaitsStart(phase: AcquirePhase) {
    phase.AwaitResume? || phase.AwaitCreate?
  }

  predicate IsPublished(l: Lane, a: AcquireId) {
    a in l.acquires && l.acquires[a].phase.Published?
  }

  /** `start` is only ever called by an acquisition, so it is no event of its own. */
  predicate CanStep(l: Lane, ev: LaneEvent) {
    match ev
    case Hold(e) => !e.Start? && Enabled(l.world, e) && FreshId(l.world, e)
    case Call(turn, _, _, _, _, a) => turn !in l.turns && a !in l.acquires && a !in l.cache.superseded
    case Abort(turn) => turn in l.turns
    case ParkWon(turn) =>
      turn in l.turns && l.turns[turn].phase.Parked? && IsPublished(l, l.turns[turn].phase.acquire) &&
      l.acquires[l.turns[turn].phase.acquire].phase.outcome.Acquired?
    case ParkEnded(turn) => turn in l.turns && l.turns[turn].phase.Parked?
    case TakeOver(turn, a) =>
      turn in l.turns && l.turns[turn].phase.BudgetSpent? && a !in l.acquires && a !in l.cache.superseded
    case Continue(a) =>
      a in l.acquires && AwaitsStart(l.acquires[a].phase) && l.acquires[a].phase.epoch in l.world.settled &&
      l.acquires[a].owner in l.turns
    case Publish(a) => a in l.acquires && l.acquires[a].phase.Decided?
    case Proceed(turn) =>
      turn in l.turns && l.turns[turn].phase.Joining? && IsPublished(l, l.turns[turn].phase.acquire)
    case SendReturned(turn, _) => InPhase(l, turn, Sending)
  }

  function Move(l: Lane, turn: Turn, phase: TurnPhase): Lane
    requires turn in l.turns
  {
    l.(turns := l.turns[turn := l.turns[turn].(phase := phase)])
  }

  function Decide(l: Lane, a: AcquireId, outcome: Outcome): Lane
    requires a in l.acquires
  {
    l.(acquires := l.acquires[a := l.acquires[a].(phase := Decided(outcome))])
  }

  /** One `transport.start` on behalf of acquisition `a`. */
  function IssueStartFor(l: Lane, turn: Turn, a: AcquireId, sessionId: Option<SessionId>): Lane {
    var world := StepStart(l.world, sessionId);
    var epoch := world.hold.startSeq;
    l.(world := world,
       acquires := l.acquires[a := Acquire(turn, if sessionId.Some? && l.row.Some?
                                                 then AwaitResume(epoch, l.row.value) else AwaitCreate(epoch))],
       issuer := l.issuer[epoch := turn],
       effects := l.effects + [StartCalled(turn, a, epoch)])
  }

  /** `startAcquire`: resume the stored row when it may, else create, asking the signal once more first. */
  function StartAcquire(l: Lane, turn: Turn, a: AcquireId, forceFresh: bool, bindingMatches: bool): Lane
    requires turn in l.turns
  {
    var begun :=
      if !forceFresh && l.row.Some? && bindingMatches then
        IssueStartFor(l, turn, a, Some(l.row.value.sessionId))
      else if l.turns[turn].aborted then
        l.(acquires := l.acquires[a := Acquire(turn, Decided(Rejected))])
      else
        IssueStartFor(l, turn, a, None);
    Move(begun.(cache := Register(begun.cache, a)), turn, Joining(a))
  }

  function StepCall(l: Lane, ev: LaneEvent): Lane
    requires ev.Call?
  {
    var entered := l.(turns := l.turns[ev.turn := TurnState(ev.foreground, ev.aborted, false, Over)]);
    if ev.aborted then
      entered
    else if l.cache.inFlight.Some? then
      Move(entered, ev.turn,
           if ev.foreground then Parked(l.cache.inFlight.value) else Joining(l.cache.inFlight.value))
    else
      StartAcquire(entered, ev.turn, ev.acquire, ev.forceFresh, ev.bindingMatches)
  }

  /** After a `start` returned: cancelled and superseded attempts stop before they write or open anything. */
  function StepContinue(l: Lane, a: AcquireId): Lane
    requires CanStep(l, Continue(a))
  {
    var acquire := l.acquires[a];
    var result := l.world.settled[acquire.phase.epoch];
    if result.Threw? || l.turns[acquire.owner].aborted || a in l.cache.superseded then
      Decide(l, a, Rejected)
    else if acquire.phase.AwaitResume? && result.Resumed? then
      var row := acquire.phase.stored;
      Decide(l.(effects := l.effects + [RowTouched(acquire.owner, a)]), a, Acquired(row, acquire.phase.epoch))
    else if acquire.phase.AwaitResume? then
      IssueStartFor(l, acquire.owner, a, None)
    else if result.Created? then
      var row := Row(result.sessionId, (if l.row.Some? then l.row.value.generation else 0) + 1);
      Decide(l.(row := Some(row), effects := l.effects + [RowWritten(acquire.owner, a, row)]),
             a, Acquired(row, acquire.phase.epoch))
    else
      Decide(l, a, Rejected)
  }

  /** The turn has its session: the last look at the signal, then the attempt row and the prompt together. */
  function StepProceed(l: Lane, turn: Turn): Lane
    requires CanStep(l, Proceed(turn))
  {
    var t := l.turns[turn];
    if !t.foreground || t.aborted || l.acquires[t.phase.acquire].phase.outcome.Rejected? then
      Move(l, turn, Over)
    else
      l.(turns := l.turns[turn := t.(sent := true, phase := Sending)],
         effects := l.effects + [AttemptWritten(turn), PromptSent(turn)])
  }

  function StepSendReturned(l: Lane, turn: Turn, accepted: bool): Lane
    requires turn in l.turns
  {
    var marked := if accepted && l.turns[turn].aborted then [AttemptMarked(turn)] else [];
    var advanced := if accepted then [CursorAdvanced(turn)] else [];
    Move(l.(effects := l.effects + marked + advanced), turn, Over)
  }

  function StepTakeOver(l: Lane, turn: Turn, a: AcquireId): Lane
    requires CanStep(l, TakeOver(turn, a))
  {
    StartAcquire(l.(cache := StandDown(l.cache, l.turns[turn].phase.acquire)), turn, a, true, false)
  }

  function StepPublish(l: Lane, a: AcquireId): Lane
    requires CanStep(l, Publish(a))
  {
    var acquire := l.acquires[a];
    l.(cache := Release(l.cache, a),
       acquires := l.acquires[a := acquire.(phase := Published(acquire.phase.outcome))])
  }

  function LaneStep(l: Lane, ev: LaneEvent): Lane
    requires CanStep(l, ev)
  {
    match ev
    case Hold(e) => l.(world := Step(l.world, e))
    case Call(_, _, _, _, _, _) => StepCall(l, ev)
    case Abort(turn) => l.(turns := l.turns[turn := l.turns[turn].(aborted := true)])
    case ParkWon(turn) =>
      Move(l, turn, if l.turns[turn].aborted then Over else Joining(l.turns[turn].phase.acquire))
    case ParkEnded(turn) =>
      Move(l, turn, if l.turns[turn].aborted then Over else BudgetSpent(l.turns[turn].phase.acquire))
    case TakeOver(turn, a) => StepTakeOver(l, turn, a)
    case Continue(a) => StepContinue(l, a)
    case Publish(a) => StepPublish(l, a)
    case Proceed(turn) => StepProceed(l, turn)
    case SendReturned(turn, accepted) => StepSendReturned(l, turn, accepted)
  }

  predicate LaneRuns(l: Lane, evs: seq<LaneEvent>)
    decreases |evs|
  {
    evs == [] || (CanStep(l, evs[0]) && LaneRuns(LaneStep(l, evs[0]), evs[1..]))
  }

  function LaneRun(l: Lane, evs: seq<LaneEvent>): Lane
    requires LaneRuns(l, evs)
    decreases |evs|
  {
    if evs == [] then l else LaneRun(LaneStep(l, evs[0]), evs[1..])
  }
}
