/** What every run of one lane's connection guarantees. */
module LaneHoldRuns {
  import opened Options
  import opened LaneHold
  import opened LaneHoldWorld
  import opened LaneHoldSteps

  lemma {:induction false} RunKeeps(w: World, evs: seq<Event>)
    requires Inv(w) && Runs(w, evs)
    ensures Inv(Run(w, evs))
    decreases |evs|
  {
    if evs != [] {
      StepKeeps(w, evs[0]);
      RunKeeps(Step(w, evs[0]), evs[1..]);
    }
  }

  /** What is held is newer than every drop and close, was the last to be installed, and tickets are counted. */
  ghost predicate HoldSafe(w: World) {
    && (w.hold.held.Some? ==> w.hold.closedThrough < w.hold.held.value.epoch <= w.hold.startSeq)
    && (forall i, j | 0 <= i < j < |w.installs| :: w.installs[i] < w.installs[j])
    && (w.hold.held.Some? ==> |w.installs| > 0 && w.hold.held.value.epoch == w.installs[|w.installs| - 1])
    && w.hold.pendingStarts == |w.starts|
  }

  lemma OrderedIsSafe(w: World)
    requires EpochsOrdered(w) && InstallsIncrease(w)
    ensures HoldSafe(w)
  {
  }

  /** Hold safety, over every run from the start. */
  lemma HoldSafety(evs: seq<Event>)
    requires Runs(INIT, evs)
    ensures HoldSafe(Run(INIT, evs))
  {
    StartsSound();
    RunKeeps(INIT, evs);
    OrderedIsSafe(Run(INIT, evs));
  }

  lemma StartsSound()
    ensures Inv(INIT)
  {
    assert |INIT.starts| == 0;
    forall conn: Conn
      ensures PlacedAt(INIT, conn)
    {
    }
  }

  /**
   The places never overlap, no live connection is outside them, `opening` holds nothing but what an
   unsuperseded handshake still owns, and every orphan was surfaced.
   */
  ghost predicate Conserved(w: World) {
    && NoneLost(w)
    && (forall conn | conn in w.hold.opening :: !IsHeld(w.hold, conn) && !IsLeaving(w, conn))
    && (forall conn | IsHeld(w.hold, conn) :: !IsLeaving(w, conn))
    && (forall conn | conn in w.hold.opening ::
          conn in w.openedBy && IsHandshake(w, w.openedBy[conn]) && w.starts[w.openedBy[conn]].conn == conn)
    && w.reported == w.hold.orphanPids + w.returned
  }

  lemma PlacedNotLost(w: World)
    requires Placed(w)
    ensures NoneLost(w)
  {
    forall conn | conn in w.alive
      ensures conn in w.hold.opening || IsHeld(w.hold, conn) || IsLeaving(w, conn)
    {
      assert PlacedAt(w, conn);
    }
  }

  lemma PlacedIsConserved(w: World)
    requires Placed(w) && OpeningExact(w)
    ensures Conserved(w)
  {
    PlacedNotLost(w);
    forall conn | conn in w.hold.opening
      ensures !IsHeld(w.hold, conn) && !IsLeaving(w, conn)
    {
      assert PlacedAt(w, conn);
    }
    forall conn | IsHeld(w.hold, conn)
      ensures !IsLeaving(w, conn)
    {
      assert PlacedAt(w, conn);
    }
  }

  /** Connection conservation, over every run from the start. */
  lemma ConnectionsConserved(evs: seq<Event>)
    requires Runs(INIT, evs)
    ensures Conserved(Run(INIT, evs))
  {
    StartsSound();
    RunKeeps(INIT, evs);
    PlacedIsConserved(Run(INIT, evs));
  }

  /** No start, ladder or close is under way. */
  ghost predicate AtRest(w: World) {
    |w.starts| == 0 && w.ladders == {} && |w.legs| == 0
  }

  /** Once nothing is in flight, a live connection is held or was reported: nothing leaks. */
  lemma NothingLeaksAtRest(evs: seq<Event>)
    requires Runs(INIT, evs) && AtRest(Run(INIT, evs))
    ensures var w := Run(INIT, evs);
      && w.hold.opening == {}
      && (forall conn | conn in w.alive :: IsHeld(w.hold, conn) || conn in w.reported)
  {
    StartsSound();
    RunKeeps(INIT, evs);
    RestIsClean(Run(INIT, evs));
  }

  lemma RestIsClean(w: World)
    requires OpeningExact(w) && Placed(w) && AtRest(w)
    ensures w.hold.opening == {}
    ensures forall conn | conn in w.alive :: IsHeld(w.hold, conn) || conn in w.reported
  {
    PlacedNotLost(w);
    assert forall e: nat :: !IsHandshake(w, e);
    assert forall conn :: conn !in w.hold.opening && conn !in w.legs;
  }

  /** One step never lowers the supersession mark, and never forgets which start opened a connection. */
  lemma StepRemembers(w: World, ev: Event)
    requires EpochsOrdered(w) && OpeningExact(w) && Enabled(w, ev)
    ensures w.hold.closedThrough <= Step(w, ev).hold.closedThrough
    ensures forall conn | conn in w.openedBy ::
      conn in Step(w, ev).openedBy && Step(w, ev).openedBy[conn] == w.openedBy[conn]
  {
  }

  lemma {:induction false} RunRemembers(w: World, evs: seq<Event>)
    requires Inv(w) && Runs(w, evs)
    ensures w.hold.closedThrough <= Run(w, evs).hold.closedThrough
    ensures forall conn | conn in w.openedBy ::
      conn in Run(w, evs).openedBy && Run(w, evs).openedBy[conn] == w.openedBy[conn]
    decreases |evs|
  {
    if evs != [] {
      StepKeeps(w, evs[0]);
      StepRemembers(w, evs[0]);
      RunRemembers(Step(w, evs[0]), evs[1..]);
    }
  }

  // What becomes of one start.

  /**
   A start answers from the hold if and only if it asks for the session of a held connection that is alive. Any
   other start opens a connection, on a ticket nothing had before; and either way nothing else moves.
   */
  ghost predicate AnswersExactly(w: World, sessionId: Option<SessionId>) {
    var w' := Step(w, Start(sessionId));
    var ticket := w.hold.startSeq + 1;
    && ticket !in w.starts && ticket !in w.settled && ticket in w'.starts
    && (forall id :: w'.starts[ticket] == Settling(Resumed(id)) <==>
          && sessionId == Some(id)
          && w.hold.held.Some? && w.hold.held.value.sessionId == id && w.hold.held.value.conn in w.alive)
    && ((exists id :: w'.starts[ticket] == Settling(Resumed(id))) || w'.starts[ticket] == AwaitingOpener(sessionId))
    && w'.hold.held == w.hold.held && w'.hold.opening == w.hold.opening && w'.ladders == w.ladders
  }

  lemma StartAnswers(w: World, sessionId: Option<SessionId>)
    requires EpochsOrdered(w)
    ensures AnswersExactly(w, sessionId)
  {
    var w' := Step(w, Start(sessionId));
    StartAddsOne(w, sessionId);
    if !w'.starts[w.hold.startSeq + 1].AwaitingOpener? {
      assert w'.starts[w.hold.startSeq + 1] == Settling(Resumed(sessionId.value));
    }
  }

  lemma StartAnswersExactly(evs: seq<Event>, sessionId: Option<SessionId>)
    requires Runs(INIT, evs)
    ensures AnswersExactly(Run(INIT, evs), sessionId)
  {
    StartsSound();
    RunKeeps(INIT, evs);
    StartAnswers(Run(INIT, evs), sessionId);
  }

  /** A connection an opener delivers is shaken hands with if and only if no drop or close overtook its start. */
  lemma OpenerKeptExactly(w: World, epoch: nat, conn: Conn)
    requires OpeningExact(w) && EpochsOrdered(w) && Placed(w) && Enabled(w, OpenerReturned(epoch, conn))
    ensures var w' := Step(w, OpenerReturned(epoch, conn));
      && conn in w'.alive && conn in w'.spawned && w'.openedBy[conn] == epoch
      && (w'.starts[epoch] == Handshaking(w.starts[epoch].sessionId, conn) <==> epoch > w.hold.closedThrough)
      && (conn in w'.hold.opening <==> epoch > w.hold.closedThrough)
      && (epoch <= w.hold.closedThrough ==> w'.starts[epoch] == Settling(Threw) && conn in w'.ladders)
  {
    assert PlacedAt(w, conn);
  }

  /** A failed opener throws. A failed handshake throws too, unless it was a resume: that one reports its failure. */
  lemma FailuresAnswer(w: World, epoch: nat)
    requires AnswersAsked(w)
    ensures Enabled(w, OpenerFailed(epoch)) ==> HasResult(Step(w, OpenerFailed(epoch)), epoch, Threw)
    ensures Enabled(w, HandshakeFailed(epoch)) ==>
      && epoch in w.asked
      && HasResult(Step(w, HandshakeFailed(epoch)), epoch, if w.asked[epoch].Some? then ResumeFailed else Threw)
  {
    if Enabled(w, HandshakeFailed(epoch)) {
      assert IsUndecided(w, epoch);
    }
  }

  /** A handshake that finishes after a newer ticket reports a failed resume, and its connection is closed. */
  lemma RefusedExactly(w: World, epoch: nat, newId: SessionId)
    requires EpochsOrdered(w) && Enabled(w, HandshakeDone(epoch, newId))
    ensures var w' := Step(w, HandshakeDone(epoch, newId));
      && (HasResult(w', epoch, ResumeFailed) <==> epoch != w.hold.startSeq)
      && (epoch != w.hold.startSeq && w.starts[epoch].conn in w.alive ==> w.starts[epoch].conn in w'.ladders)
      && w.starts[epoch].conn !in w'.hold.opening
  {
  }

  /** A start delivers what it decided, once, and only then is it no longer counted. */
  lemma SettledDelivers(w: World, epoch: nat)
    requires EpochsOrdered(w) && Enabled(w, StartSettled(epoch))
    ensures var w' := Step(w, StartSettled(epoch));
      && epoch in w'.settled && w'.settled[epoch] == w.starts[epoch].result && epoch !in w'.starts
      && w'.hold.pendingStarts == w.hold.pendingStarts - 1
  {
  }

  /**
   A ladder leaves its connection dead or, if that survived it, reports it as an orphan; and lets go of it unless a
   second ladder is on it.
   */
  lemma LadderEndsExactly(w: World, conn: Conn, survived: bool, another: bool)
    requires Placed(w) && Enabled(w, LadderEnded(conn, survived, another))
    ensures var w' := Step(w, LadderEnded(conn, survived, another));
      && (conn in w'.ladders <==> another)
      && (conn in w'.alive <==> survived)
      && (survived ==> conn in w'.reported && (conn in w'.hold.orphanPids || conn in w'.returned))
      && (!survived ==> w'.reported == w.reported && w'.hold == w.hold)
      && (forall other | other != conn ::
            (other in w'.ladders <==> other in w.ladders) && (other in w'.alive <==> other in w.alive))
  {
  }

  /** The same of a ladder of a `close`, whose survivors wait for its report. */
  lemma CloseLadderEndsExactly(w: World, id: nat, conn: Conn, survived: bool)
    requires Enabled(w, CloseLadderEnded(id, conn, survived))
    ensures var w' := Step(w, CloseLadderEnded(id, conn, survived));
      && (conn in w'.alive <==> survived)
      && (conn in w'.legs <==> survived) && (survived ==> w'.legs[conn] == CloseLeg(id, true))
      && w'.hold == w.hold && w'.reported == w.reported && w'.ladders == w.ladders
      && (forall other | other != conn ::
            (other in w'.legs <==> other in w.legs) && (other in w'.alive <==> other in w.alive))
  {
  }

  /** A `close` that is over hands back its survivors and every orphan recorded so far, and records none any more. */
  lemma CloseReturnsExactly(w: World, id: nat, conn: Conn)
    requires Enabled(w, CloseReturned(id))
    ensures var w' := Step(w, CloseReturned(id));
      && id !in w'.closes && w'.hold == w.hold.(orphanPids := {})
      && (conn in w'.legs <==> conn in w.legs && w.legs[conn].id != id)
      && (conn in w'.reported <==> conn in w.reported || (conn in w.legs && w.legs[conn].id == id))
      && (conn in w'.returned <==>
            conn in w.returned || conn in w.hold.orphanPids || (conn in w.legs && w.legs[conn].id == id))
  {
  }

  /** A self-heal releases whatever is held and closes it if it lives; a death is no more than that. */
  lemma HealAndDeathExactly(w: World, conn: Conn)
    requires conn in w.alive
    ensures var w' := Step(w, SelfHeal);
      && w'.hold == w.hold.(held := None) && w'.alive == w.alive && w'.starts == w.starts
      && (conn in w'.ladders <==> conn in w.ladders || (w.hold.held.Some? && w.hold.held.value.conn == conn))
    ensures Step(w, Die(conn)) == w.(alive := w.alive - {conn})
  {
  }

  /**
   A drop puts what is open or held and alive on a ladder; a close takes all of it, dead or alive, on ladders of its
   own.
   */
  lemma SupersedingClosesExactly(w: World, id: nat, conn: Conn)
    requires Placed(w)
    ensures var w' := Step(w, Drop);
      && (conn in w'.ladders <==>
            conn in w.ladders || (conn in w.alive && (conn in w.hold.opening || IsHeld(w.hold, conn))))
      && w'.legs == w.legs && w'.closes == w.closes && w'.starts == w.starts && w'.alive == w.alive
    ensures Enabled(w, CloseBegan(id)) ==>
      var w' := Step(w, CloseBegan(id));
      && id in w'.closes && w'.ladders == w.ladders && w'.starts == w.starts && w'.alive == w.alive
      && (conn in w'.legs <==> conn in w.legs || conn in w.hold.opening || IsHeld(w.hold, conn))
      && (conn in w.hold.opening || IsHeld(w.hold, conn) ==> w'.legs[conn] == CloseLeg(id, false))
      && w'.hold.held.None? && w'.hold.opening == {}
  {
    assert PlacedAt(w, conn);
  }

  predicate Supersedes(ev: Event) {
    ev.Drop? || ev.CloseBegan?
  }

  /** Nothing issued, and no connection opened, before a drop or close is ever held after it. */
  lemma SupersededNeverHeld(w: World, ev: Event, evs: seq<Event>)
    requires Inv(w) && Supersedes(ev) && Enabled(w, ev) && Runs(Step(w, ev), evs)
    ensures var after := Run(Step(w, ev), evs).hold.held;
      after.Some? ==>
        && after.value.epoch > w.hold.startSeq
        && after.value.epoch !in w.starts
        && after.value.conn !in w.spawned
  {
    var w' := Step(w, ev);
    SupersedeBurnsTicket(w, ev);
    StepKeeps(w, ev);
    RunRemembers(w', evs);
    RunKeeps(w', evs);
    HeldIsRecent(w, Run(w', evs));
  }

  lemma SupersedeBurnsTicket(w: World, ev: Event)
    requires Supersedes(ev) && Enabled(w, ev)
    ensures Step(w, ev).hold.closedThrough == w.hold.startSeq + 1
    ensures Step(w, ev).openedBy == w.openedBy
  {
  }

  lemma HeldIsRecent(w: World, later: World)
    requires EpochsOrdered(w) && OpeningExact(w) && EpochsOrdered(later) && OpeningExact(later)
    requires later.hold.closedThrough > w.hold.startSeq
    requires forall conn | conn in w.openedBy :: conn in later.openedBy && later.openedBy[conn] == w.openedBy[conn]
    ensures later.hold.held.Some? ==>
      && later.hold.held.value.epoch > w.hold.startSeq
      && later.hold.held.value.epoch !in w.starts
      && later.hold.held.value.conn !in w.spawned
  {
  }

  /** `start`, `dropHold` and `close` are the calls that take a ticket. */
  predicate TakesTicket(ev: Event) {
    ev.Start? || Supersedes(ev)
  }

  function Tickets(evs: seq<Event>): nat {
    if evs == [] then 0 else (if TakesTicket(evs[0]) then 1 else 0) + Tickets(evs[1..])
  }

  lemma {:induction false} TicketsCounted(w: World, evs: seq<Event>)
    requires Runs(w, evs)
    ensures Run(w, evs).hold.startSeq == w.hold.startSeq + Tickets(evs)
    decreases |evs|
  {
    if evs != [] {
      TicketsCounted(Step(w, evs[0]), evs[1..]);
    }
  }

  /** A start that finishes its handshake is installed if and only if nothing took a ticket after it. */
  lemma InstallsExactlyWhenNewest(w: World, evs: seq<Event>, newId: SessionId)
    requires Inv(w) && IsUndecided(w, w.hold.startSeq) && Runs(w, evs)
    requires Enabled(Run(w, evs), HandshakeDone(w.hold.startSeq, newId))
    ensures var before := Run(w, evs);
      var epoch := w.hold.startSeq;
      var id := OpenedId(before.starts[epoch], newId);
      var after := StepHandshakeDone(before, epoch, newId);
      && (Tickets(evs) == 0 <==> after.hold.held == Some(Held(before.starts[epoch].conn, id, epoch)))
      && (Tickets(evs) == 0 <==> HasResult(after, epoch, OpenedAs(before.starts[epoch], newId)))
      && (Tickets(evs) != 0 ==> after.hold.held == before.hold.held && after.installs == before.installs)
  {
    TicketsCounted(w, evs);
    RunKeeps(w, evs);
    assert IsHandshake(Run(w, evs), w.hold.startSeq);
  }

  /** A cancel that answers `false` reached nothing: no hold, no open, no start in flight. */
  lemma DropAnswersTruthfully(evs: seq<Event>)
    requires Runs(INIT, evs)
    ensures var w := Run(INIT, evs);
      DropReaches(w.hold) <==> w.hold.held.Some? || w.starts != map[]
  {
    StartsSound();
    RunKeeps(INIT, evs);
    CountedIsTruthful(Run(INIT, evs));
  }

  lemma CountedIsTruthful(w: World)
    requires EpochsOrdered(w) && OpeningExact(w)
    ensures DropReaches(w.hold) <==> w.hold.held.Some? || w.starts != map[]
  {
    assert w.hold.opening != {} ==> exists conn :: conn in w.hold.opening && IsHandshake(w, w.openedBy[conn]);
    assert w.starts == map[] <==> |w.starts| == 0;
  }

  /** The bridge hands a create on the newest ticket the id of the session still held alive. */
  predicate RepeatsHeldId(w: World, epoch: nat, newId: SessionId)
    requires Enabled(w, HandshakeDone(epoch, newId))
  {
    epoch == w.hold.startSeq && w.starts[epoch].sessionId.None? && w.hold.held.Some? &&
    w.hold.held.value.conn in w.alive && w.hold.held.value.sessionId == newId
  }

  lemma RepeatedIdLosesHeld(w: World, epoch: nat, newId: SessionId)
    requires OpeningExact(w) && Placed(w) && Enabled(w, HandshakeDone(epoch, newId)) && RepeatsHeldId(w, epoch, newId)
    ensures !NoneLost(StepHandshakeDone(w, epoch, newId))
  {
    var w' := StepHandshakeDone(w, epoch, newId);
    var prior := w.hold.held.value.conn;
    assert IsHandshake(w, epoch) && PlacedAt(w, prior);
    assert IsHeld(w.hold, prior) && !IsLeaving(w, prior) && prior !in w'.hold.opening;
    assert w'.hold.held.value.conn == w.starts[epoch].conn && !IsHeld(w'.hold, prior) && !IsLeaving(w', prior);
  }

  lemma OtherIdLosesNone(w: World, epoch: nat, newId: SessionId)
    requires EpochsOrdered(w) && OpeningExact(w) && Placed(w) && ResumesReplaceDead(w)
    requires Enabled(w, HandshakeDone(epoch, newId)) && !RepeatsHeldId(w, epoch, newId)
    ensures NoneLost(StepHandshakeDone(w, epoch, newId))
  {
    var w' := StepHandshakeDone(w, epoch, newId);
    assert IsHandshake(w, epoch) && IsUndecided(w, epoch);
    SupersededIsLeaving(w, epoch);
    forall conn | conn in w'.alive
      ensures conn in w'.hold.opening || IsHeld(w'.hold, conn) || IsLeaving(w', conn)
    {
      assert PlacedAt(w, conn);
    }
  }

  /**
   The early return of a replacement loses a live connection in exactly one case: the bridge handed a create
   the id of the session still held alive. `FreshId` rules that case out, and a resume never meets it.
   */
  lemma LosesLiveExactlyOnRepeatedId(w: World, epoch: nat, newId: SessionId)
    requires Inv(w) && Enabled(w, HandshakeDone(epoch, newId))
    ensures NoneLost(StepHandshakeDone(w, epoch, newId)) <==> !RepeatsHeldId(w, epoch, newId)
  {
    if RepeatsHeldId(w, epoch, newId) {
      RepeatedIdLosesHeld(w, epoch, newId);
    } else {
      OtherIdLosesNone(w, epoch, newId);
    }
  }
}
