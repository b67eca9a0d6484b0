/** What every interleaving of turns, cancels and connections on one lane guarantees. */
module LaneTurnRuns {
  import opened Options
  import opened LaneHold
  import opened LaneHoldWorld
  import opened LaneHoldSteps
  import opened LaneHoldRuns
  import opened LaneTurns

  // Every ticket has an issuer.

  ghost predicate TicketsIssued(l: Lane) {
    && (forall epoch | epoch in l.issuer :: epoch <= l.world.hold.startSeq)
    && (forall epoch | epoch in l.world.starts :: epoch in l.issuer)
    && (l.world.hold.held.Some? ==> l.world.hold.held.value.epoch in l.issuer)
  }

  ghost predicate LaneInv(l: Lane) {
    Inv(l.world) && TicketsIssued(l)
  }

  /** What one segment of a turn does to the connection, seen from there: at most one event. */
  function WorldEvent(l: Lane, ev: LaneEvent): Option<Event>
    requires CanStep(l, ev)
  {
    match ev
    case Hold(e) => Some(e)
    case Call(_, _, aborted, forceFresh, bindingMatches, _) =>
      if aborted || l.cache.inFlight.Some? then None
      else if !forceFresh && l.row.Some? && bindingMatches then Some(Start(Some(l.row.value.sessionId)))
      else Some(Start(None))
    case TakeOver(turn, _) => if l.turns[turn].aborted then None else Some(Start(None))
    case Continue(a) =>
      var acquire := l.acquires[a];
      var result := l.world.settled[acquire.phase.epoch];
      if acquire.phase.AwaitResume? && !result.Resumed? && !result.Threw? && !l.turns[acquire.owner].aborted &&
         a !in l.cache.superseded then Some(Start(None))
      else None
    case _ => None
  }

  lemma TurnsMoveTheWorldByEvents(l: Lane, ev: LaneEvent)
    requires CanStep(l, ev)
    ensures WorldEvent(l, ev).None? ==> LaneStep(l, ev).world == l.world
    ensures WorldEvent(l, ev).Some? ==>
      var e := WorldEvent(l, ev).value;
      Enabled(l.world, e) && FreshId(l.world, e) && LaneStep(l, ev).world == Step(l.world, e)
  {
  }

  predicate IsStart(e: Option<Event>) {
    e.Some? && e.value.Start?
  }

  /** What a segment may do to the issuers: nothing, or record the next ticket. */
  ghost predicate Records(l: Lane, l': Lane, started: bool) {
    l'.issuer.Keys == l.issuer.Keys + if started then {l.world.hold.startSeq + 1} else {}
  }

  lemma StartAcquireRecords(l: Lane, turn: Turn, a: AcquireId, forceFresh: bool, bindingMatches: bool)
    requires turn in l.turns
    ensures var resumes := !forceFresh && l.row.Some? && bindingMatches;
      Records(l, StartAcquire(l, turn, a, forceFresh, bindingMatches), resumes || !l.turns[turn].aborted)
  {
  }

  lemma ContinueRecords(l: Lane, a: AcquireId)
    requires CanStep(l, Continue(a))
    ensures Records(l, StepContinue(l, a), IsStart(WorldEvent(l, Continue(a))))
  {
  }

  lemma CallRecords(l: Lane, ev: LaneEvent)
    requires ev.Call? && CanStep(l, ev)
    ensures Records(l, StepCall(l, ev), IsStart(WorldEvent(l, ev)))
  {
    StartAcquireRecords(l.(turns := l.turns[ev.turn := TurnState(ev.foreground, ev.aborted, false, Over)]),
                        ev.turn, ev.acquire, ev.forceFresh, ev.bindingMatches);
  }

  lemma TakeOverRecords(l: Lane, turn: Turn, a: AcquireId)
    requires CanStep(l, TakeOver(turn, a))
    ensures Records(l, StepTakeOver(l, turn, a), IsStart(WorldEvent(l, TakeOver(turn, a))))
  {
    StartAcquireRecords(l.(cache := StandDown(l.cache, l.turns[turn].phase.acquire)), turn, a, true, false);
  }

  /** Only a `start` issues a ticket, and it issues the next one. */
  lemma TicketsRecorded(l: Lane, ev: LaneEvent)
    requires CanStep(l, ev)
    ensures LaneStep(l, ev).issuer.Keys ==
      l.issuer.Keys + if IsStart(WorldEvent(l, ev)) then {l.world.hold.startSeq + 1} else {}
  {
    if ev.Call? {
      CallRecords(l, ev);
    } else if ev.TakeOver? {
      TakeOverRecords(l, ev.turn, ev.acquire);
    } else if ev.Continue? {
      ContinueRecords(l, ev.acquire);
    } else {
      assert LaneStep(l, ev).issuer == l.issuer;
    }
  }

  lemma WorldKeepsTickets(w: World, ev: Event)
    requires EpochsOrdered(w) && Enabled(w, ev)
    ensures Step(w, ev).hold.startSeq >= w.hold.startSeq + if ev.Start? then 1 else 0
    ensures forall epoch | epoch in Step(w, ev).starts :: epoch in w.starts || (ev.Start? && epoch == w.hold.startSeq + 1)
    ensures Step(w, ev).hold.held.Some? ==>
      Step(w, ev).hold.held == w.hold.held || Step(w, ev).hold.held.value.epoch in w.starts
  {
  }

  lemma LaneStepKeeps(l: Lane, ev: LaneEvent)
    requires LaneInv(l) && CanStep(l, ev)
    ensures LaneInv(LaneStep(l, ev))
  {
    TurnsMoveTheWorldByEvents(l, ev);
    TicketsRecorded(l, ev);
    if WorldEvent(l, ev).Some? {
      StepKeeps(l.world, WorldEvent(l, ev).value);
      WorldKeepsTickets(l.world, WorldEvent(l, ev).value);
    }
    TicketsKept(l, LaneStep(l, ev), WorldEvent(l, ev));
  }

  lemma TicketsKept(l: Lane, l': Lane, e: Option<Event>)
    requires TicketsIssued(l)
    requires l'.issuer.Keys == l.issuer.Keys + if IsStart(e) then {l.world.hold.startSeq + 1} else {}
    requires l'.world.hold.startSeq >= l.world.hold.startSeq + if IsStart(e) then 1 else 0
    requires forall epoch | epoch in l'.world.starts ::
      epoch in l.world.starts || (IsStart(e) && epoch == l.world.hold.startSeq + 1)
    requires l'.world.hold.held.Some? ==>
      l'.world.hold.held == l.world.hold.held || l'.world.hold.held.value.epoch in l.world.starts
    ensures TicketsIssued(l')
  {
  }

  lemma {:induction false} LaneRunKeeps(l: Lane, evs: seq<LaneEvent>)
    requires LaneInv(l) && LaneRuns(l, evs)
    ensures LaneInv(LaneRun(l, evs))
    decreases |evs|
  {
    if evs != [] {
      LaneStepKeeps(l, evs[0]);
      LaneRunKeeps(LaneStep(l, evs[0]), evs[1..]);
    }
  }

  // Cancelling.

  /** The turn's signal fired before its prompt left. */
  ghost predicate Stopped(l: Lane, turn: Turn) {
    turn in l.turns && l.turns[turn].aborted && !l.turns[turn].sent && l.turns[turn].phase != Sending
  }

  /** From `l` to `l'` the turn did nothing, and opened nothing new. */
  ghost predicate Inert(l: Lane, l': Lane, turn: Turn) {
    && l.effects <= l'.effects
    && (forall i | |l.effects| <= i < |l'.effects| :: l'.effects[i].turn != turn)
    && (forall epoch | epoch in l'.issuer && l'.issuer[epoch] == turn :: epoch in l.issuer)
    && (forall epoch | epoch in l.issuer :: epoch in l'.issuer && l'.issuer[epoch] == l.issuer[epoch])
  }

  lemma OthersStart(l: Lane, turn: Turn, a: AcquireId, forceFresh: bool, bindingMatches: bool, stopped: Turn)
    requires TicketsIssued(l) && turn in l.turns && Stopped(l, stopped) && turn != stopped
    ensures var l' := StartAcquire(l, turn, a, forceFresh, bindingMatches); Stopped(l', stopped) && Inert(l, l', stopped)
  {
  }

  lemma StoppedTakesNothingOver(l: Lane, a: AcquireId, turn: Turn)
    requires CanStep(l, TakeOver(turn, a)) && Stopped(l, turn)
    ensures var l' := StepTakeOver(l, turn, a); Stopped(l', turn) && Inert(l, l', turn)
  {
  }

  lemma StoppedOwnerDecides(l: Lane, a: AcquireId, turn: Turn)
    requires TicketsIssued(l) && CanStep(l, Continue(a)) && Stopped(l, turn)
    ensures var l' := StepContinue(l, a); Stopped(l', turn) && Inert(l, l', turn)
  {
  }

  lemma StoppedStep(l: Lane, ev: LaneEvent, turn: Turn)
    requires TicketsIssued(l) && CanStep(l, ev) && Stopped(l, turn)
    ensures Stopped(LaneStep(l, ev), turn) && Inert(l, LaneStep(l, ev), turn)
  {
    if ev.Call? {
      OthersStart(l.(turns := l.turns[ev.turn := TurnState(ev.foreground, ev.aborted, false, Over)]),
                  ev.turn, ev.acquire, ev.forceFresh, ev.bindingMatches, turn);
    } else if ev.TakeOver? {
      if ev.turn == turn {
        StoppedTakesNothingOver(l, ev.acquire, turn);
      } else {
        OthersStart(l.(cache := StandDown(l.cache, l.turns[ev.turn].phase.acquire)),
                    ev.turn, ev.acquire, true, false, turn);
      }
    } else if ev.Continue? {
      StoppedOwnerDecides(l, ev.acquire, turn);
    } else {
      QuietStep(l, ev, turn);
    }
  }

  lemma QuietStep(l: Lane, ev: LaneEvent, turn: Turn)
    requires CanStep(l, ev) && Stopped(l, turn) && !ev.Call? && !ev.TakeOver? && !ev.Continue?
    ensures Stopped(LaneStep(l, ev), turn) && Inert(l, LaneStep(l, ev), turn)
  {
    var l' := LaneStep(l, ev);
    if ev.Proceed? {
      assert l' == StepProceed(l, ev.turn);
    } else if ev.SendReturned? {
      assert ev.turn != turn && l' == StepSendReturned(l, ev.turn, ev.accepted);
    } else {
      assert l'.effects == l.effects;
    }
    SuffixIsInert(l, l', turn);
  }

  lemma SuffixIsInert(l: Lane, l': Lane, turn: Turn)
    requires l.effects <= l'.effects && l'.issuer == l.issuer
    requires forall i | |l.effects| <= i < |l'.effects| :: l'.effects[i].turn != turn
    ensures Inert(l, l', turn)
  {
  }

  /**
   A turn stopped before its send never again calls `start` or `send`, writes an attempt or touches the
   lane row: whatever the run goes on to do, every later effect is another turn's.
   */
  lemma {:induction false} CancelledTurnIsInert(l: Lane, turn: Turn, evs: seq<LaneEvent>)
    requires LaneInv(l) && Stopped(l, turn) && LaneRuns(l, evs)
    ensures Stopped(LaneRun(l, evs), turn) && Inert(l, LaneRun(l, evs), turn)
    decreases |evs|
  {
    if evs != [] {
      StoppedStep(l, evs[0], turn);
      LaneStepKeeps(l, evs[0]);
      CancelledTurnIsInert(LaneStep(l, evs[0]), turn, evs[1..]);
    }
  }

  lemma {:induction false} SupersessionOutlastsRun(l: Lane, evs: seq<LaneEvent>)
    requires LaneInv(l) && LaneRuns(l, evs)
    ensures l.world.hold.closedThrough <= LaneRun(l, evs).world.hold.closedThrough
    decreases |evs|
  {
    if evs != [] {
      var l' := LaneStep(l, evs[0]);
      TurnsMoveTheWorldByEvents(l, evs[0]);
      if WorldEvent(l, evs[0]).Some? {
        StepRemembers(l.world, WorldEvent(l, evs[0]).value);
      }
      LaneStepKeeps(l, evs[0]);
      SupersessionOutlastsRun(l', evs[1..]);
    }
  }

  /**
   The cancel across all three layers: a turn is stopped, its hold is dropped any time later, and no
   connection a `start` of that turn opened is held at any point after.
   */
  lemma CancelledTurnHoldsNothing(l: Lane, turn: Turn, before: seq<LaneEvent>, after: seq<LaneEvent>)
    requires LaneInv(l) && Stopped(l, turn) && LaneRuns(l, before)
    requires LaneRuns(LaneStep(LaneRun(l, before), Hold(Drop)), after)
    ensures var last := LaneRun(LaneStep(LaneRun(l, before), Hold(Drop)), after);
      var held := last.world.hold.held;
      held.Some? ==> held.value.epoch in last.issuer && last.issuer[held.value.epoch] != turn
  {
    var atDrop := LaneRun(l, before);
    var dropped := LaneStep(atDrop, Hold(Drop));
    CancelledTurnIsInert(l, turn, before);
    LaneRunKeeps(l, before);
    LaneStepKeeps(atDrop, Hold(Drop));
    StoppedStep(atDrop, Hold(Drop), turn);
    CancelledTurnIsInert(dropped, turn, after);
    LaneRunKeeps(dropped, after);
    SupersessionOutlastsRun(dropped, after);
    SupersedeBurnsTicket(atDrop.world, Drop);
  }

  // Standing down.

  ghost predicate ByAcquire(e: Effect, a: AcquireId) {
    (e.StartCalled? || e.RowTouched? || e.RowWritten?) && e.acquire == a
  }

  ghost predicate StoodDown(l: Lane, a: AcquireId) {
    a in l.cache.superseded && l.cache.inFlight != Some(a)
  }

  /** What a superseded attempt leaves alone: the row, the connection, and its replacement's cache entry. */
  ghost predicate LeavesAlone(l: Lane, l': Lane, a: AcquireId) {
    && StoodDown(l', a)
    && l.effects <= l'.effects
    && (forall i | |l.effects| <= i < |l'.effects| :: !ByAcquire(l'.effects[i], a))
  }

  /** The two segments an attempt has left once it awaits its `start`. */
  predicate IsItsOwn(ev: LaneEvent, a: AcquireId) {
    ev == Continue(a) || ev == Publish(a)
  }

  /** Nothing the attempt does in the run, its `finally` included, moves the cache. */
  ghost predicate NeverEvicts(l: Lane, evs: seq<LaneEvent>, a: AcquireId)
    requires LaneRuns(l, evs)
    decreases |evs|
  {
    evs != [] ==>
      && (IsItsOwn(evs[0], a) ==> LaneStep(l, evs[0]).cache == l.cache)
      && NeverEvicts(LaneStep(l, evs[0]), evs[1..], a)
  }

  lemma OthersStartLeavesAlone(l: Lane, turn: Turn, b: AcquireId, forceFresh: bool, bindingMatches: bool, a: AcquireId)
    requires turn in l.turns && StoodDown(l, a) && a != b
    ensures LeavesAlone(l, StartAcquire(l, turn, b, forceFresh, bindingMatches), a)
  {
  }

  lemma StoodDownStep(l: Lane, ev: LaneEvent, a: AcquireId)
    requires StoodDown(l, a) && CanStep(l, ev)
    ensures LeavesAlone(l, LaneStep(l, ev), a)
    ensures IsItsOwn(ev, a) ==> LaneStep(l, ev).cache == l.cache
  {
    if ev.Call? {
      OthersStartLeavesAlone(l.(turns := l.turns[ev.turn := TurnState(ev.foreground, ev.aborted, false, Over)]),
                             ev.turn, ev.acquire, ev.forceFresh, ev.bindingMatches, a);
    } else if ev.TakeOver? {
      OthersStartLeavesAlone(l.(cache := StandDown(l.cache, l.turns[ev.turn].phase.acquire)),
                             ev.turn, ev.acquire, true, false, a);
    } else if ev.Continue? {
      assert LaneStep(l, ev) == StepContinue(l, ev.acquire);
    }
  }

  /** A superseded attempt never writes the row, starts a session or evicts the entry that replaced it. */
  lemma {:induction false} SupersededAcquireIsInert(l: Lane, a: AcquireId, evs: seq<LaneEvent>)
    requires StoodDown(l, a) && LaneRuns(l, evs)
    ensures LeavesAlone(l, LaneRun(l, evs), a) && NeverEvicts(l, evs, a)
    decreases |evs|
  {
    if evs != [] {
      StoodDownStep(l, evs[0], a);
      SupersededAcquireIsInert(LaneStep(l, evs[0]), a, evs[1..]);
    }
  }
}
