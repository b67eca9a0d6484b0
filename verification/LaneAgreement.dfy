/**
 Single flight, and what an acquired session is worth: the durable row and the held connection both name it.

 The budget branch clears the cache entry without looking whose it is (src/chat/lane-acquire.ts:259), so
 single flight survives exactly the take-overs that clear the entry they joined (`FlightKeptExactly`). One
 foreground call at a time, with no background call opening anything while it is parked, is enough for that
 (`DisciplinedRunsAreClean`); `LaneDisagreement` has runs without either half.
 */
module LaneAgreement {
  import opened Options
  import opened LaneHold
  import opened LaneHoldWorld
  import opened LaneHoldSteps
  import opened LaneTurns
  import opened LaneTurnRuns

  ghost predicate Live(l: Lane, a: AcquireId) {
    a in l.acquires && !l.acquires[a].phase.Published? && a !in l.cache.superseded
  }

  ghost predicate SingleFlight(l: Lane) {
    && (forall a: AcquireId | Live(l, a) :: l.cache.inFlight == Some(a))
    && (l.cache.inFlight.Some? ==> Live(l, l.cache.inFlight.value))
  }

  ghost predicate Racing(l: Lane, turn: Turn) {
    turn in l.turns && (l.turns[turn].phase.Parked? || l.turns[turn].phase.BudgetSpent?)
  }

  /** A budget branch that clears nobody's entry but the one of the attempt it joined. */
  ghost predicate ClearsItsOwn(l: Lane, ev: LaneEvent) {
    ev.TakeOver? && Racing(l, ev.turn) ==>
      l.cache.inFlight.None? || l.cache.inFlight == Some(l.turns[ev.turn].phase.acquire)
  }

  ghost predicate AttemptsKnown(l: Lane) {
    && (forall t | Racing(l, t) :: l.turns[t].phase.acquire in l.acquires)
    && (forall a | a in l.cache.superseded :: a in l.acquires)
  }

  lemma StartKeepsSingleFlight(l: Lane, turn: Turn, a: AcquireId, forceFresh: bool, bindingMatches: bool)
    requires turn in l.turns && a !in l.acquires && a !in l.cache.superseded
    requires forall b :: !Live(l, b)
    ensures SingleFlight(StartAcquire(l, turn, a, forceFresh, bindingMatches))
  {
    var l' := StartAcquire(l, turn, a, forceFresh, bindingMatches);
    assert forall b :: Live(l', b) <==> Live(l, b) || b == a;
  }

  lemma TakeOverKeepsFlightExactly(l: Lane, turn: Turn, a: AcquireId)
    requires SingleFlight(l) && AttemptsKnown(l) && CanStep(l, TakeOver(turn, a))
    ensures SingleFlight(StepTakeOver(l, turn, a)) <==> ClearsItsOwn(l, TakeOver(turn, a))
  {
    assert Racing(l, turn);
    var joined := l.turns[turn].phase.acquire;
    var down := l.(cache := StandDown(l.cache, joined));
    if l.cache.inFlight.None? || l.cache.inFlight == Some(joined) {
      assert forall b | Live(down, b) :: Live(l, b) && b != joined;
      StartKeepsSingleFlight(down, turn, a, true, false);
    } else {
      assert Live(StepTakeOver(l, turn, a), l.cache.inFlight.value);
    }
  }

  lemma ContinueKeepsFlight(l: Lane, a: AcquireId)
    requires SingleFlight(l) && CanStep(l, Continue(a))
    ensures SingleFlight(StepContinue(l, a))
  {
    var l' := StepContinue(l, a);
    assert l'.cache == l.cache;
    assert forall b :: Live(l', b) <==> Live(l, b);
  }

  lemma PublishKeepsFlight(l: Lane, a: AcquireId)
    requires SingleFlight(l) && CanStep(l, Publish(a))
    ensures SingleFlight(StepPublish(l, a))
  {
    var l' := StepPublish(l, a);
    assert forall b :: Live(l', b) <==> Live(l, b) && b != a;
  }

  lemma CallKeepsFlight(l: Lane, ev: LaneEvent)
    requires SingleFlight(l) && ev.Call? && CanStep(l, ev)
    ensures SingleFlight(StepCall(l, ev))
  {
    var entered := l.(turns := l.turns[ev.turn := TurnState(ev.foreground, ev.aborted, false, Over)]);
    assert forall b :: Live(entered, b) <==> Live(l, b);
    if !ev.aborted && l.cache.inFlight.None? {
      StartKeepsSingleFlight(entered, ev.turn, ev.acquire, ev.forceFresh, ev.bindingMatches);
    } else {
      assert forall b :: Live(StepCall(l, ev), b) <==> Live(l, b);
    }
  }

  /** Single flight survives a step exactly when the step is not a take-over that clears another's entry. */
  lemma FlightKeptExactly(l: Lane, ev: LaneEvent)
    requires SingleFlight(l) && AttemptsKnown(l) && CanStep(l, ev)
    ensures SingleFlight(LaneStep(l, ev)) <==> ClearsItsOwn(l, ev)
  {
    if ev.Call? {
      CallKeepsFlight(l, ev);
    } else if ev.TakeOver? {
      TakeOverKeepsFlightExactly(l, ev.turn, ev.acquire);
    } else if ev.Continue? {
      ContinueKeepsFlight(l, ev.acquire);
    } else if ev.Publish? {
      PublishKeepsFlight(l, ev.acquire);
    } else {
      var l' := LaneStep(l, ev);
      assert l'.cache == l.cache && l'.acquires == l.acquires;
      assert forall b :: Live(l', b) <==> Live(l, b);
    }
  }

  lemma StartAcquireRemembers(l: Lane, turn: Turn, a: AcquireId, forceFresh: bool, bindingMatches: bool)
    requires turn in l.turns
    ensures var l' := StartAcquire(l, turn, a, forceFresh, bindingMatches);
      l.acquires.Keys <= l'.acquires.Keys && l'.cache.superseded == l.cache.superseded
  {
  }

  lemma ContinueRemembers(l: Lane, a: AcquireId)
    requires CanStep(l, Continue(a))
    ensures var l' := StepContinue(l, a); l.acquires.Keys <= l'.acquires.Keys && l'.cache == l.cache
  {
  }

  lemma AttemptsRemain(l: Lane, ev: LaneEvent)
    requires CanStep(l, ev)
    ensures l.acquires.Keys <= LaneStep(l, ev).acquires.Keys
    ensures LaneStep(l, ev).cache.superseded ==
      l.cache.superseded + if ev.TakeOver? then {l.turns[ev.turn].phase.acquire} else {}
  {
    if ev.Call? {
      StartAcquireRemembers(l.(turns := l.turns[ev.turn := TurnState(ev.foreground, ev.aborted, false, Over)]),
                            ev.turn, ev.acquire, ev.forceFresh, ev.bindingMatches);
    } else if ev.TakeOver? {
      StartAcquireRemembers(l.(cache := StandDown(l.cache, l.turns[ev.turn].phase.acquire)),
                            ev.turn, ev.acquire, true, false);
    } else if ev.Continue? {
      ContinueRemembers(l, ev.acquire);
    }
  }

  lemma CallRacesWhatItFound(l: Lane, ev: LaneEvent, turn: Turn)
    requires ev.Call? && CanStep(l, ev) && Racing(StepCall(l, ev), turn)
    ensures Raced(l, turn, StepCall(l, ev).turns[turn].phase.acquire)
  {
    if !ev.aborted && l.cache.inFlight.None? {
      StartAcquireFrame(l.(turns := l.turns[ev.turn := TurnState(ev.foreground, ev.aborted, false, Over)]),
                        ev.turn, ev.acquire, ev.forceFresh, ev.bindingMatches);
    }
  }

  /** An attempt the turn raced already, or the one in flight. */
  ghost predicate Raced(l: Lane, turn: Turn, a: AcquireId) {
    (Racing(l, turn) && l.turns[turn].phase.acquire == a) || l.cache.inFlight == Some(a)
  }

  lemma RacesWhatItFound(l: Lane, ev: LaneEvent, turn: Turn)
    requires CanStep(l, ev) && Racing(LaneStep(l, ev), turn)
    ensures Raced(l, turn, LaneStep(l, ev).turns[turn].phase.acquire)
  {
    if ev.Call? {
      CallRacesWhatItFound(l, ev, turn);
    } else if ev.TakeOver? {
      StartAcquireFrame(l.(cache := StandDown(l.cache, l.turns[ev.turn].phase.acquire)), ev.turn, ev.acquire, true, false);
    } else if ev.Continue? {
      assert LaneStep(l, ev).turns == l.turns;
    }
  }

  lemma AttemptsStayKnown(l: Lane, ev: LaneEvent)
    requires SingleFlight(l) && AttemptsKnown(l) && CanStep(l, ev)
    ensures AttemptsKnown(LaneStep(l, ev))
  {
    AttemptsRemain(l, ev);
    if ev.TakeOver? {
      assert Racing(l, ev.turn);
    }
    forall t | Racing(LaneStep(l, ev), t)
      ensures LaneStep(l, ev).turns[t].phase.acquire in LaneStep(l, ev).acquires
    {
      RacesWhatItFound(l, ev, t);
    }
  }

  // A discipline of the callers that is enough.

  /** A foreground call that has not resolved yet. */
  ghost predicate InCall(l: Lane, turn: Turn) {
    turn in l.turns && l.turns[turn].foreground && !l.turns[turn].phase.Sending? && !l.turns[turn].phase.Over?
  }

  ghost predicate Disciplined(l: Lane, ev: LaneEvent) {
    ev.Call? ==>
      if ev.foreground then forall turn :: !InCall(l, turn)
      else l.cache.inFlight.None? ==> forall turn :: !Racing(l, turn)
  }

  ghost predicate CallersOrdered(l: Lane) {
    && (forall t, u | InCall(l, t) && InCall(l, u) :: t == u)
    && (forall t | Racing(l, t) ::
          && InCall(l, t)
          && (l.cache.inFlight.None? || l.cache.inFlight == Some(l.turns[t].phase.acquire)))
  }

  /** A call that finds an attempt in flight, or is cancelled at the door. */
  lemma JoinKeepsCallers(l: Lane, ev: LaneEvent)
    requires CallersOrdered(l) && ev.Call? && CanStep(l, ev) && Disciplined(l, ev)
    requires ev.aborted || l.cache.inFlight.Some?
    ensures CallersOrdered(StepCall(l, ev))
  {
    var l' := StepCall(l, ev);
    assert l'.cache == l.cache && l'.acquires == l.acquires;
    assert forall t: Turn | t != ev.turn && t in l'.turns :: t in l.turns && l'.turns[t] == l.turns[t];
    assert forall t | InCall(l', t) :: t == ev.turn || InCall(l, t);
    assert forall t | Racing(l', t) :: t == ev.turn || Racing(l, t);
  }

  lemma NobodyRaces(l: Lane, ev: LaneEvent)
    requires CallersOrdered(l) && ev.Call? && Disciplined(l, ev) && l.cache.inFlight.None?
    ensures forall t :: !Racing(l, t)
  {
    assert forall t | Racing(l, t) :: InCall(l, t);
  }

  lemma StartAcquireFrame(l: Lane, turn: Turn, a: AcquireId, forceFresh: bool, bindingMatches: bool)
    requires turn in l.turns
    ensures var l' := StartAcquire(l, turn, a, forceFresh, bindingMatches);
      && l'.turns == l.turns[turn := l.turns[turn].(phase := Joining(a))]
      && l'.cache == Register(l.cache, a)
  {
  }

  /** A turn that opens for itself, when no other turn is racing. */
  lemma OpenerKeepsCallers(l: Lane, l': Lane, turn: Turn, a: AcquireId)
    requires CallersOrdered(l)
    requires forall t :: !Racing(l, t)
    requires turn in l'.turns && l'.turns[turn].phase == Joining(a)
    requires forall t: Turn | t != turn && t in l'.turns :: t in l.turns && l'.turns[t] == l.turns[t]
    requires InCall(l', turn) ==> forall t :: !InCall(l, t)
    ensures CallersOrdered(l')
  {
    forall t | Racing(l', t)
      ensures false
    {
      assert Racing(l, t);
    }
    forall t, u | InCall(l', t) && InCall(l', u)
      ensures t == u
    {
      assert t != turn ==> InCall(l, t);
      assert u != turn ==> InCall(l, u);
    }
  }

  lemma OpenKeepsCallers(l: Lane, ev: LaneEvent)
    requires CallersOrdered(l) && ev.Call? && CanStep(l, ev) && Disciplined(l, ev)
    requires !ev.aborted && l.cache.inFlight.None?
    ensures CallersOrdered(StepCall(l, ev))
  {
    NobodyRaces(l, ev);
    StartAcquireFrame(l.(turns := l.turns[ev.turn := TurnState(ev.foreground, ev.aborted, false, Over)]),
                      ev.turn, ev.acquire, ev.forceFresh, ev.bindingMatches);
    OpenerKeepsCallers(l, StepCall(l, ev), ev.turn, ev.acquire);
  }

  lemma TakeOverKeepsCallers(l: Lane, turn: Turn, a: AcquireId)
    requires CallersOrdered(l) && CanStep(l, TakeOver(turn, a))
    ensures CallersOrdered(StepTakeOver(l, turn, a))
  {
    var l' := StepTakeOver(l, turn, a);
    StartAcquireFrame(l.(cache := StandDown(l.cache, l.turns[turn].phase.acquire)), turn, a, true, false);
    assert Racing(l, turn);
    assert forall t: Turn | t != turn && t in l'.turns :: t in l.turns && l'.turns[t] == l.turns[t];
    assert forall t | InCall(l', t) :: InCall(l, t);
    assert forall t | Racing(l', t) :: Racing(l, t) && t != turn;
  }

  /** An event after which the cache entry is what it was or gone, and no turn raced or joined anew. */
  lemma QuietKeepsCallers(l: Lane, l': Lane)
    requires CallersOrdered(l)
    requires l'.cache.inFlight == l.cache.inFlight || l'.cache.inFlight.None?
    requires forall t | InCall(l', t) :: InCall(l, t)
    requires forall t | Racing(l', t) :: Racing(l, t) && l'.turns[t].phase.acquire == l.turns[t].phase.acquire
    requires forall t | Racing(l', t) :: InCall(l', t)
    ensures CallersOrdered(l')
  {
  }

  lemma CallersKept(l: Lane, ev: LaneEvent)
    requires CallersOrdered(l) && CanStep(l, ev) && Disciplined(l, ev)
    ensures CallersOrdered(LaneStep(l, ev))
  {
    if ev.Call? {
      if ev.aborted || l.cache.inFlight.Some? {
        JoinKeepsCallers(l, ev);
      } else {
        OpenKeepsCallers(l, ev);
      }
    } else if ev.TakeOver? {
      TakeOverKeepsCallers(l, ev.turn, ev.acquire);
    } else {
      var l' := LaneStep(l, ev);
      forall t | Racing(l', t)
        ensures Racing(l, t) && l'.turns[t].phase.acquire == l.turns[t].phase.acquire && InCall(l', t)
      {
        assert Racing(l, t) && InCall(l, t);
      }
      QuietKeepsCallers(l, l');
    }
  }

  // What an acquired session names.

  /** Each attempt awaits a `start` asked for what it expects. */
  ghost predicate QuestionsAsked(l: Lane) {
    forall a | a in l.acquires && AwaitsStart(l.acquires[a].phase) ::
      var phase := l.acquires[a].phase;
      && phase.epoch in l.world.asked
      && phase.epoch <= l.world.hold.startSeq
      && l.world.asked[phase.epoch] == if phase.AwaitResume? then Some(phase.stored.sessionId) else None
  }

  /** The attempt came back with `row`, on the ticket `epoch`. */
  predicate HasAcquired(l: Lane, a: AcquireId, row: Row, epoch: nat) {
    a in l.acquires &&
    match l.acquires[a].phase
    case Decided(outcome) => outcome == Acquired(row, epoch)
    case Published(outcome) => outcome == Acquired(row, epoch)
    case AwaitResume(_, _) => false
    case AwaitCreate(_) => false
  }

  ghost predicate AnswersNamed(l: Lane) {
    forall a: AcquireId, row: Row, epoch: nat | HasAcquired(l, a, row, epoch) ::
      && epoch in l.world.settled
      && Opened(l.world.settled[epoch])
      && l.world.settled[epoch].sessionId == row.sessionId
  }

  /** While an attempt that can still write is out, every answer so far is on an older ticket. */
  ghost predicate WriterIsNewest(l: Lane) {
    forall a | Live(l, a) && AwaitsStart(l.acquires[a].phase) ::
      && (l.acquires[a].phase.AwaitResume? ==> l.row == Some(l.acquires[a].phase.stored))
      && (forall b: AcquireId, row: Row, epoch: nat | HasAcquired(l, b, row, epoch) :: epoch < l.acquires[a].phase.epoch)
  }

  ghost predicate NewestAnswerIsRow(l: Lane) {
    forall a: AcquireId, row: Row | HasAcquired(l, a, row, l.world.hold.startSeq) :: l.row == Some(row)
  }

  ghost predicate Agrees(l: Lane) {
    QuestionsAsked(l) && AnswersNamed(l) && WriterIsNewest(l) && NewestAnswerIsRow(l)
  }

  /** What the connection remembers across one of its events. */
  lemma WorldKeepsAnswers(w: World, ev: Event)
    requires EpochsOrdered(w) && Enabled(w, ev)
    ensures Step(w, ev).hold.startSeq >= w.hold.startSeq
    ensures forall epoch | epoch in w.asked && epoch <= w.hold.startSeq ::
      epoch in Step(w, ev).asked && Step(w, ev).asked[epoch] == w.asked[epoch]
    ensures forall epoch | epoch in w.settled ::
      epoch in Step(w, ev).settled && Step(w, ev).settled[epoch] == w.settled[epoch]
  {
  }

  lemma AnswersAreOld(l: Lane, a: AcquireId, row: Row, epoch: nat)
    requires EpochsOrdered(l.world) && AnswersNamed(l) && HasAcquired(l, a, row, epoch)
    ensures epoch <= l.world.hold.startSeq
  {
  }

  /** An event of the connection, or of a turn that leaves the attempts alone. */
  lemma BystanderAgrees(l: Lane, l': Lane)
    requires Agrees(l) && EpochsOrdered(l.world)
    requires l'.acquires == l.acquires && l'.row == l.row && l'.cache == l.cache
    requires l'.world.hold.startSeq >= l.world.hold.startSeq
    requires forall epoch | epoch in l.world.asked && epoch <= l.world.hold.startSeq ::
      epoch in l'.world.asked && l'.world.asked[epoch] == l.world.asked[epoch]
    requires forall epoch | epoch in l.world.settled ::
      epoch in l'.world.settled && l'.world.settled[epoch] == l.world.settled[epoch]
    ensures Agrees(l')
  {
    assert forall a :: Live(l', a) <==> Live(l, a);
    assert forall a: AcquireId, row: Row, epoch: nat :: HasAcquired(l', a, row, epoch) <==> HasAcquired(l, a, row, epoch);
    forall a: AcquireId, row: Row | HasAcquired(l', a, row, l'.world.hold.startSeq)
      ensures l'.row == Some(row)
    {
      AnswersAreOld(l, a, row, l'.world.hold.startSeq);
    }
  }

  lemma StartAgrees(l: Lane, turn: Turn, a: AcquireId, sessionId: Option<SessionId>)
    requires Agrees(l) && EpochsOrdered(l.world)
    requires forall b :: Live(l, b) && AwaitsStart(l.acquires[b].phase) ==> b == a
    requires a in l.acquires ==> AwaitsStart(l.acquires[a].phase)
    requires sessionId.Some? ==> l.row.Some? && l.row.value.sessionId == sessionId.value
    ensures Agrees(IssueStartFor(l, turn, a, sessionId))
  {
    var l' := IssueStartFor(l, turn, a, sessionId);
    assert forall b: AcquireId, row: Row, epoch: nat :: HasAcquired(l', b, row, epoch) <==> HasAcquired(l, b, row, epoch);
    forall b: AcquireId, row: Row, epoch: nat | HasAcquired(l, b, row, epoch)
      ensures epoch <= l.world.hold.startSeq
    {
      AnswersAreOld(l, b, row, epoch);
    }
    assert forall b | Live(l', b) && b != a :: Live(l, b);
  }

  lemma StartAcquireAgrees(l: Lane, turn: Turn, a: AcquireId, forceFresh: bool, bindingMatches: bool)
    requires Agrees(l) && EpochsOrdered(l.world)
    requires turn in l.turns && a !in l.acquires && a !in l.cache.superseded
    requires forall b :: !Live(l, b)
    ensures Agrees(StartAcquire(l, turn, a, forceFresh, bindingMatches))
  {
    var l' := StartAcquire(l, turn, a, forceFresh, bindingMatches);
    if !forceFresh && l.row.Some? && bindingMatches {
      var begun := IssueStartFor(l, turn, a, Some(l.row.value.sessionId));
      StartAgrees(l, turn, a, Some(l.row.value.sessionId));
      EntryAgrees(begun, l');
    } else if l.turns[turn].aborted {
      var begun := l.(acquires := l.acquires[a := Acquire(turn, Decided(Rejected))]);
      RejectedAgrees(l, a, turn);
      EntryAgrees(begun, l');
    } else {
      var begun := IssueStartFor(l, turn, a, None);
      StartAgrees(l, turn, a, None);
      EntryAgrees(begun, l');
    }
  }

  /** The cache entry and the turns are not part of the agreement; who has stood down is. */
  lemma EntryAgrees(l: Lane, l': Lane)
    requires Agrees(l)
    requires l'.world == l.world && l'.row == l.row && l'.acquires == l.acquires
    requires l.cache.superseded <= l'.cache.superseded
    ensures Agrees(l')
  {
    assert forall b | Live(l', b) :: Live(l, b);
    assert forall a: AcquireId, row: Row, epoch: nat :: HasAcquired(l', a, row, epoch) <==> HasAcquired(l, a, row, epoch);
  }

  lemma RejectedAgrees(l: Lane, a: AcquireId, owner: Turn)
    requires Agrees(l)
    requires a in l.acquires ==> AwaitsStart(l.acquires[a].phase)
    ensures Agrees(l.(acquires := l.acquires[a := Acquire(owner, Decided(Rejected))]))
  {
    var l' := l.(acquires := l.acquires[a := Acquire(owner, Decided(Rejected))]);
    assert forall b: AcquireId, row: Row, epoch: nat :: HasAcquired(l', b, row, epoch) <==> HasAcquired(l, b, row, epoch);
    assert forall b | Live(l', b) && b != a :: Live(l, b);
  }

  lemma PublishAgrees(l: Lane, a: AcquireId)
    requires Agrees(l) && CanStep(l, Publish(a))
    ensures Agrees(StepPublish(l, a))
  {
    var l' := StepPublish(l, a);
    assert forall b: AcquireId, row: Row, epoch: nat :: HasAcquired(l', b, row, epoch) <==> HasAcquired(l, b, row, epoch);
    assert forall b | Live(l', b) :: Live(l, b) && b != a;
  }

  /** The attempt that writes: the row now names its session, and it was the newest answer. */
  lemma AcquiredAgrees(l: Lane, a: AcquireId, row: Row, epoch: nat)
    requires SingleFlight(l) && Agrees(l) && EpochsOrdered(l.world)
    requires Live(l, a) && AwaitsStart(l.acquires[a].phase) && l.acquires[a].phase.epoch == epoch
    requires epoch in l.world.settled && Opened(l.world.settled[epoch]) && l.world.settled[epoch].sessionId == row.sessionId
    ensures Agrees(Decide(l.(row := Some(row)), a, Acquired(row, epoch)))
  {
    var l' := Decide(l.(row := Some(row)), a, Acquired(row, epoch));
    assert forall b: AcquireId, r: Row, e: nat :: HasAcquired(l', b, r, e) <==>
      if b == a then r == row && e == epoch else HasAcquired(l, b, r, e);
    forall b | Live(l', b)
      ensures b == a
    {
      assert Live(l, b);
    }
  }

  /** A `start` that answered an attempt still allowed to write. */
  lemma AnswerAgrees(l: Lane, a: AcquireId)
    requires AnswersAsked(l.world) && EpochsOrdered(l.world) && SingleFlight(l) && Agrees(l)
    requires CanStep(l, Continue(a)) && Live(l, a) && !l.turns[l.acquires[a].owner].aborted
    requires Opened(l.world.settled[l.acquires[a].phase.epoch])
    ensures Agrees(StepContinue(l, a))
  {
    var phase := l.acquires[a].phase;
    var result := l.world.settled[phase.epoch];
    var l' := StepContinue(l, a);
    assert HasResult(l.world, phase.epoch, result);
    if phase.AwaitResume? {
      assert result == Resumed(phase.stored.sessionId) && l.row == Some(phase.stored);
      AcquiredAgrees(l, a, phase.stored, phase.epoch);
      EntryAgrees(Decide(l.(row := l.row), a, Acquired(phase.stored, phase.epoch)), l');
    } else {
      assert result.Created?;
      var row := l'.row.value;
      AcquiredAgrees(l, a, row, phase.epoch);
      EntryAgrees(Decide(l.(row := Some(row)), a, Acquired(row, phase.epoch)), l');
    }
  }

  lemma ContinueAgrees(l: Lane, a: AcquireId)
    requires AnswersAsked(l.world) && EpochsOrdered(l.world) && SingleFlight(l) && Agrees(l) && CanStep(l, Continue(a))
    ensures Agrees(StepContinue(l, a))
  {
    var acquire := l.acquires[a];
    var result := l.world.settled[acquire.phase.epoch];
    if result.Threw? || l.turns[acquire.owner].aborted || a in l.cache.superseded {
      RejectedAgrees(l, a, acquire.owner);
    } else {
      assert Live(l, a);
      if Opened(result) {
        AnswerAgrees(l, a);
      } else if acquire.phase.AwaitResume? {
        assert forall b | Live(l, b) :: b == a;
        StartAgrees(l, acquire.owner, a, None);
      } else {
        RejectedAgrees(l, a, acquire.owner);
      }
    }
  }

  lemma CallAgrees(l: Lane, ev: LaneEvent)
    requires EpochsOrdered(l.world) && SingleFlight(l) && Agrees(l) && ev.Call? && CanStep(l, ev)
    ensures Agrees(StepCall(l, ev))
  {
    var entered := l.(turns := l.turns[ev.turn := TurnState(ev.foreground, ev.aborted, false, Over)]);
    BystanderAgrees(l, entered);
    if ev.aborted || l.cache.inFlight.Some? {
      EntryAgrees(entered, StepCall(l, ev));
    } else {
      assert forall b :: Live(entered, b) ==> Live(l, b);
      StartAcquireAgrees(entered, ev.turn, ev.acquire, ev.forceFresh, ev.bindingMatches);
    }
  }

  lemma TakeOverAgrees(l: Lane, turn: Turn, a: AcquireId)
    requires EpochsOrdered(l.world) && SingleFlight(l) && AttemptsKnown(l) && Agrees(l)
    requires CanStep(l, TakeOver(turn, a)) && ClearsItsOwn(l, TakeOver(turn, a))
    ensures Agrees(StepTakeOver(l, turn, a))
  {
    var joined := l.turns[turn].phase.acquire;
    var down := l.(cache := StandDown(l.cache, joined));
    assert Racing(l, turn);
    EntryAgrees(l, down);
    forall b
      ensures !Live(down, b)
    {
      assert Live(down, b) ==> Live(l, b) && b != joined;
    }
    StartAcquireAgrees(down, turn, a, true, false);
  }

  ghost predicate AgreementInv(l: Lane) {
    LaneInv(l) && SingleFlight(l) && AttemptsKnown(l) && Agrees(l)
  }

  lemma StepAgrees(l: Lane, ev: LaneEvent)
    requires AgreementInv(l) && CanStep(l, ev) && ClearsItsOwn(l, ev)
    ensures Agrees(LaneStep(l, ev))
  {
    if ev.Call? {
      CallAgrees(l, ev);
    } else if ev.TakeOver? {
      TakeOverAgrees(l, ev.turn, ev.acquire);
    } else if ev.Continue? {
      ContinueAgrees(l, ev.acquire);
    } else if ev.Publish? {
      PublishAgrees(l, ev.acquire);
    } else {
      if ev.Hold? {
        WorldKeepsAnswers(l.world, ev.ev);
      }
      BystanderAgrees(l, LaneStep(l, ev));
    }
  }

  /** A run in which no take-over clears another attempt's entry. */
  ghost predicate CleanRuns(l: Lane, evs: seq<LaneEvent>)
    decreases |evs|
  {
    LaneRuns(l, evs) &&
    (evs != [] ==> ClearsItsOwn(l, evs[0]) && CleanRuns(LaneStep(l, evs[0]), evs[1..]))
  }

  ghost predicate DisciplinedRuns(l: Lane, evs: seq<LaneEvent>)
    decreases |evs|
  {
    LaneRuns(l, evs) &&
    (evs != [] ==> Disciplined(l, evs[0]) && DisciplinedRuns(LaneStep(l, evs[0]), evs[1..]))
  }

  /** One foreground caller at a time is enough. */
  lemma {:induction false} DisciplinedRunsAreClean(l: Lane, evs: seq<LaneEvent>)
    requires CallersOrdered(l) && DisciplinedRuns(l, evs)
    ensures CleanRuns(l, evs)
    decreases |evs|
  {
    if evs != [] {
      CallersKept(l, evs[0]);
      DisciplinedRunsAreClean(LaneStep(l, evs[0]), evs[1..]);
    }
  }

  lemma {:induction false} CleanRunKeeps(l: Lane, evs: seq<LaneEvent>)
    requires AgreementInv(l) && CleanRuns(l, evs)
    ensures AgreementInv(LaneRun(l, evs))
    decreases |evs|
  {
    if evs != [] {
      LaneStepKeeps(l, evs[0]);
      FlightKeptExactly(l, evs[0]);
      AttemptsStayKnown(l, evs[0]);
      StepAgrees(l, evs[0]);
      CleanRunKeeps(LaneStep(l, evs[0]), evs[1..]);
    }
  }

  /** At most one attempt is out that could still write, and it is the one a new caller would join. */
  lemma AtMostOneWriter(evs: seq<LaneEvent>)
    requires CleanRuns(INIT_LANE, evs)
    ensures SingleFlight(LaneRun(INIT_LANE, evs))
  {
    StartsAgreed();
    CleanRunKeeps(INIT_LANE, evs);
  }

  lemma StartsAgreed()
    ensures AgreementInv(INIT_LANE) && CallersOrdered(INIT_LANE)
  {
    assert |INIT_LANE.world.starts| == 0;
  }

  /**
   Acquire agreement: while the ticket an acquisition came back on is the newest, the durable row is the row it
   returned, and its session is the one held if and only if no failed prompt released the hold since that ticket
   was decided.
   */
  lemma AcquireAgrees(evs: seq<LaneEvent>, a: AcquireId, row: Row)
    requires CleanRuns(INIT_LANE, evs)
    requires var l := LaneRun(INIT_LANE, evs); HasAcquired(l, a, row, l.world.hold.startSeq)
    ensures var l := LaneRun(INIT_LANE, evs);
      && l.row == Some(row)
      && (Holds(l.world, row.sessionId) <==> l.world.healedAt < l.world.hold.startSeq)
  {
    StartsAgreed();
    CleanRunKeeps(INIT_LANE, evs);
    NewestAnswerAgrees(LaneRun(INIT_LANE, evs), a, row);
  }

  lemma NewestAnswerAgrees(l: Lane, a: AcquireId, row: Row)
    requires EpochsOrdered(l.world) && ResultsHeld(l.world) && Agrees(l)
    requires HasAcquired(l, a, row, l.world.hold.startSeq)
    ensures l.row == Some(row)
    ensures Holds(l.world, row.sessionId) <==> l.world.healedAt < l.world.hold.startSeq
  {
    var result := l.world.settled[l.world.hold.startSeq];
    assert HasResult(l.world, l.world.hold.startSeq, result);
  }
}
