/** Every atomic segment keeps the invariant of `LaneHoldWorld`. */
module LaneHoldSteps {
  import opened Options
  import opened LaneHold
  import opened LaneHoldWorld

  /** A step that leaves `starts` and `settled` alone leaves everything read from them alone. */
  lemma StartsFramed(w: World, w': World)
    requires w'.starts == w.starts && w'.settled == w.settled
    ensures forall e: nat :: IsHandshake(w', e) <==> IsHandshake(w, e)
    ensures forall e: nat :: IsUndecided(w', e) <==> IsUndecided(w, e)
    ensures forall e, r :: HasResult(w', e, r) <==> HasResult(w, e, r)
  {
  }

  lemma SettlingFramed(w: World, epoch: nat)
    requires Enabled(w, StartSettled(epoch))
    ensures var w' := StepStartSettled(w, epoch);
      && (forall e: nat :: IsHandshake(w', e) <==> IsHandshake(w, e))
      && (forall e: nat | IsUndecided(w, e) || IsUndecided(w', e) ::
            e in w.starts && e in w'.starts && w'.starts[e] == w.starts[e])
      && (forall e: nat :: IsUndecided(w', e) <==> IsUndecided(w, e))
      && (forall e, r | HasResult(w', e, r) :: HasResult(w, e, r))
  {
  }

  /** A step that decides start `epoch`, or moves it on, leaves every other start as it was. */
  lemma DecidingFramed(w: World, w': World, epoch: nat)
    requires epoch in w'.starts && IsUndecided(w, epoch)
    requires w'.starts == w.starts[epoch := w'.starts[epoch]] && w'.settled == w.settled
    ensures forall e: nat | IsUndecided(w', e) :: IsUndecided(w, e) && (e != epoch ==> w'.starts[e] == w.starts[e])
    ensures forall e, r | HasResult(w', e, r) :: HasResult(w, e, r) || e == epoch
    ensures forall e: nat | e != epoch :: IsHandshake(w', e) <==> IsHandshake(w, e)
  {
  }

  // Tickets.

  lemma EpochsFramed(w: World, w': World)
    requires EpochsOrdered(w)
    requires w'.starts == w.starts && w'.settled == w.settled && w'.openedBy == w.openedBy
    requires w'.hold.pendingStarts == w.hold.pendingStarts
    requires w'.hold.held == w.hold.held || w'.hold.held.None?
    requires w'.healedAt <= w'.hold.startSeq
    requires || (w'.hold.startSeq == w.hold.startSeq && w'.hold.closedThrough == w.hold.closedThrough)
             || (w'.hold.startSeq == w'.hold.closedThrough == w.hold.startSeq + 1 && w'.hold.held.None?)
    ensures EpochsOrdered(w')
  {
  }

  lemma DecidingKeepsEpochs(w: World, w': World, epoch: nat)
    requires EpochsOrdered(w) && IsUndecided(w, epoch)
    requires epoch in w'.starts && w'.starts == w.starts[epoch := w'.starts[epoch]] && w'.settled == w.settled
    requires w'.hold.pendingStarts == w.hold.pendingStarts && w'.healedAt == w.healedAt
    requires w'.hold.startSeq == w.hold.startSeq && w'.hold.closedThrough == w.hold.closedThrough
    requires w'.hold.held == w.hold.held || (w'.hold.held.Some? && w'.hold.held.value.epoch == epoch == w.hold.startSeq)
    requires forall conn | conn in w'.openedBy :: w'.openedBy[conn] == epoch || (conn in w.openedBy && w'.openedBy[conn] == w.openedBy[conn])
    ensures EpochsOrdered(w')
  {
    assert w'.starts.Keys == w.starts.Keys;
    assert |w'.starts| == |w'.starts.Keys|;
  }

  /** A new ticket is the only new start, and the only one that can have a new result. */
  lemma StartAddsOne(w: World, sessionId: Option<SessionId>)
    requires EpochsOrdered(w)
    ensures var w' := StepStart(w, sessionId);
      var ticket := w.hold.startSeq + 1;
      && ticket !in w.starts && ticket !in w.settled
      && ticket in w'.starts && w'.starts == w.starts[ticket := w'.starts[ticket]]
      && (w'.starts[ticket] == AwaitingOpener(sessionId) ||
          (sessionId.Some? && w'.starts[ticket] == Settling(Resumed(sessionId.value))))
  {
  }

  lemma AddedOne<V>(m: map<nat, V>, key: nat, value: V)
    requires key !in m
    ensures |m[key := value]| == |m| + 1
  {
    assert m[key := value].Keys == m.Keys + {key};
    assert |m[key := value]| == |m[key := value].Keys| && |m| == |m.Keys|;
  }

  lemma StartKeepsEpochs(w: World, sessionId: Option<SessionId>)
    requires EpochsOrdered(w)
    ensures EpochsOrdered(StepStart(w, sessionId))
  {
    var w' := StepStart(w, sessionId);
    var ticket := w.hold.startSeq + 1;
    StartAddsOne(w, sessionId);
    AddedOne(w.starts, ticket, w'.starts[ticket]);
    forall epoch | epoch in w'.starts
      ensures 0 < epoch <= w'.hold.startSeq
    {
      assert epoch == ticket || epoch in w.starts;
    }
  }

  lemma SettlingKeepsEpochs(w: World, epoch: nat)
    requires Enabled(w, StartSettled(epoch)) && EpochsOrdered(w)
    ensures EpochsOrdered(StepStartSettled(w, epoch))
  {
    assert (w.starts - {epoch}).Keys == w.starts.Keys - {epoch};
  }

  lemma InstallsFramed(w: World, w': World)
    requires InstallsIncrease(w)
    requires w'.installs == w.installs && w'.hold.startSeq >= w.hold.startSeq
    requires forall e: nat | IsUndecided(w', e) :: IsUndecided(w, e) || e > w.hold.startSeq
    requires w'.hold.held == w.hold.held || w'.hold.held.None?
    ensures InstallsIncrease(w')
  {
  }

  lemma InstallKeepsOrder(w: World, epoch: nat, newId: SessionId)
    requires Enabled(w, HandshakeDone(epoch, newId)) && InstallsIncrease(w)
    ensures InstallsIncrease(StepHandshakeDone(w, epoch, newId))
  {
    var w' := StepHandshakeDone(w, epoch, newId);
    assert IsUndecided(w, epoch);
    assert forall e | IsUndecided(w', e) :: IsUndecided(w, e) && e != epoch;
    if epoch == w.hold.startSeq {
      assert w'.installs == w.installs + [epoch];
    }
  }

  // Opening.

  lemma OpeningFramed(w: World, w': World)
    requires OpeningExact(w)
    requires forall e: nat :: IsHandshake(w', e) <==> IsHandshake(w, e)
    requires forall e: nat | IsHandshake(w, e) :: e in w'.starts && w'.starts[e] == w.starts[e]
    requires w'.openedBy == w.openedBy && w'.spawned == w.spawned
    requires w'.hold.opening == w.hold.opening && w'.hold.closedThrough == w.hold.closedThrough
    requires w'.hold.held == w.hold.held || w'.hold.held.None?
    ensures OpeningExact(w')
  {
  }

  lemma OpenerKeepsOpening(w: World, epoch: nat, conn: Conn)
    requires Enabled(w, OpenerReturned(epoch, conn)) && OpeningExact(w)
    ensures OpeningExact(StepOpenerReturned(w, epoch, conn))
  {
    var w' := StepOpenerReturned(w, epoch, conn);
    assert forall e: nat | IsHandshake(w', e) :: IsHandshake(w, e) || e == epoch;
  }

  lemma InstallKeepsOpening(w: World, epoch: nat, newId: SessionId)
    requires Enabled(w, HandshakeDone(epoch, newId)) && OpeningExact(w)
    ensures OpeningExact(StepHandshakeDone(w, epoch, newId))
  {
    var w' := StepHandshakeDone(w, epoch, newId);
    assert IsHandshake(w, epoch);
    assert forall e: nat :: IsHandshake(w', e) <==> IsHandshake(w, e) && e != epoch;
  }

  lemma FailureKeepsOpening(w: World, epoch: nat)
    requires Enabled(w, HandshakeFailed(epoch)) && OpeningExact(w)
    ensures OpeningExact(StepHandshakeFailed(w, epoch))
  {
    var w' := StepHandshakeFailed(w, epoch);
    assert IsHandshake(w, epoch);
    assert forall e: nat :: IsHandshake(w', e) <==> IsHandshake(w, e) && e != epoch;
  }

  lemma SupersedeKeepsOpening(w: World, w': World)
    requires EpochsOrdered(w) && OpeningExact(w)
    requires w'.starts == w.starts && w'.openedBy == w.openedBy && w'.spawned == w.spawned
    requires w'.hold.held.None? && w'.hold.opening == {} && w'.hold.closedThrough == w.hold.startSeq + 1
    ensures OpeningExact(w')
  {
    assert forall e: nat :: IsHandshake(w', e) <==> IsHandshake(w, e);
  }

  // Places, one connection at a time.

  lemma PlacesFramed(w: World, w': World)
    requires Placed(w)
    requires w'.hold.opening == w.hold.opening && w'.hold.held == w.hold.held && w'.spawned == w.spawned
    requires w'.hold.orphanPids == w.hold.orphanPids && w'.returned == w.returned && w'.alive <= w.alive
    requires w'.ladders == w.ladders && w'.legs == w.legs && w'.reported == w.reported
    ensures Placed(w')
  {
    forall c: Conn
      ensures PlacedAt(w', c)
    {
      assert PlacedAt(w, c);
    }
  }

  lemma OpenerKeepsPlaces(w: World, epoch: nat, conn: Conn)
    requires Enabled(w, OpenerReturned(epoch, conn)) && Placed(w)
    ensures Placed(StepOpenerReturned(w, epoch, conn))
  {
    var w' := StepOpenerReturned(w, epoch, conn);
    forall c: Conn
      ensures PlacedAt(w', c)
    {
      assert PlacedAt(w, c);
    }
  }

  lemma InstallKeepsPlaces(w: World, epoch: nat, newId: SessionId)
    requires Enabled(w, HandshakeDone(epoch, newId)) && FreshId(w, HandshakeDone(epoch, newId))
    requires EpochsOrdered(w) && OpeningExact(w) && Placed(w) && ResumesReplaceDead(w)
    ensures Placed(StepHandshakeDone(w, epoch, newId))
  {
    var w' := StepHandshakeDone(w, epoch, newId);
    var conn := w.starts[epoch].conn;
    assert IsHandshake(w, epoch) && IsUndecided(w, epoch) && PlacedAt(w, conn);
    SupersededIsLeaving(w, epoch);
    forall c: Conn
      ensures PlacedAt(w', c)
    {
      assert PlacedAt(w, c);
    }
  }

  /** The connection of a handshake is opening, or a drop or close has it on its way out. */
  lemma SupersededIsLeaving(w: World, epoch: nat)
    requires OpeningExact(w) && Placed(w) && IsHandshake(w, epoch)
    ensures var conn := w.starts[epoch].conn;
      && conn in w.spawned && !IsHeld(w.hold, conn)
      && (conn in w.alive ==> conn in w.hold.opening || IsLeaving(w, conn))
  {
    assert PlacedAt(w, w.starts[epoch].conn);
  }

  lemma FailureKeepsPlaces(w: World, epoch: nat)
    requires Enabled(w, HandshakeFailed(epoch)) && OpeningExact(w) && Placed(w)
    ensures Placed(StepHandshakeFailed(w, epoch))
  {
    var w' := StepHandshakeFailed(w, epoch);
    assert IsHandshake(w, epoch);
    SupersededIsLeaving(w, epoch);
    forall c: Conn
      ensures PlacedAt(w', c)
    {
      assert PlacedAt(w, c);
    }
  }

  lemma LadderKeepsPlaces(w: World, conn: Conn, survived: bool, another: bool)
    requires Enabled(w, LadderEnded(conn, survived, another)) && Placed(w)
    ensures Placed(StepLadderEnded(w, conn, survived, another))
  {
    var w' := StepLadderEnded(w, conn, survived, another);
    forall c: Conn
      ensures PlacedAt(w', c)
    {
      assert PlacedAt(w, c);
    }
  }

  lemma DropKeepsPlaces(w: World)
    requires Placed(w)
    ensures Placed(StepDrop(w))
  {
    var w' := StepDrop(w);
    forall c: Conn
      ensures PlacedAt(w', c)
    {
      assert PlacedAt(w, c);
    }
  }

  lemma HealKeepsPlaces(w: World)
    requires Placed(w)
    ensures Placed(StepSelfHeal(w))
  {
    var w' := StepSelfHeal(w);
    forall c: Conn
      ensures PlacedAt(w', c)
    {
      assert PlacedAt(w, c);
    }
  }

  lemma CloseKeepsPlaces(w: World, id: nat)
    requires Placed(w)
    ensures Placed(StepCloseBegan(w, id))
  {
    var w' := StepCloseBegan(w, id);
    forall c: Conn
      ensures PlacedAt(w', c)
    {
      assert PlacedAt(w, c);
    }
  }

  lemma CloseLadderKeepsPlaces(w: World, id: nat, conn: Conn, survived: bool)
    requires Enabled(w, CloseLadderEnded(id, conn, survived)) && Placed(w)
    ensures Placed(StepCloseLadderEnded(w, id, conn, survived))
  {
    var w' := StepCloseLadderEnded(w, id, conn, survived);
    forall c: Conn
      ensures PlacedAt(w', c)
    {
      assert PlacedAt(w, c);
    }
  }

  lemma CloseReturnKeepsPlaces(w: World, id: nat)
    requires Enabled(w, CloseReturned(id)) && Placed(w)
    ensures Placed(StepCloseReturned(w, id))
  {
    var w' := StepCloseReturned(w, id);
    forall c: Conn
      ensures PlacedAt(w', c)
    {
      assert PlacedAt(w, c);
    }
  }

  // Sessions and results.

  lemma ResumesFramed(w: World, w': World)
    requires ResumesReplaceDead(w)
    requires w'.hold.held == w.hold.held || w'.hold.held.None?
    requires forall conn | conn in w'.alive :: conn in w'.spawned && (IsHeld(w'.hold, conn) ==> conn in w.alive)
    requires w.usedIds <= w'.usedIds
    requires w'.hold.held.Some? && IsUndecided(w', w'.hold.startSeq) ==>
      && w'.hold.startSeq == w.hold.startSeq
      && IsUndecided(w, w.hold.startSeq)
      && w'.starts[w.hold.startSeq].sessionId == w.starts[w.hold.startSeq].sessionId
    ensures ResumesReplaceDead(w')
  {
  }

  lemma InstallKeepsResumes(w: World, epoch: nat, newId: SessionId)
    requires Enabled(w, HandshakeDone(epoch, newId)) && ResumesReplaceDead(w)
    ensures ResumesReplaceDead(StepHandshakeDone(w, epoch, newId))
  {
  }

  lemma StartKeepsResumes(w: World, sessionId: Option<SessionId>)
    requires ResumesReplaceDead(w)
    ensures ResumesReplaceDead(StepStart(w, sessionId))
  {
  }

  lemma AnswersFramed(w: World, w': World)
    requires AnswersAsked(w)
    requires w'.asked == w.asked
    requires forall e | IsUndecided(w', e) :: IsUndecided(w, e) && w'.starts[e].sessionId == w.starts[e].sessionId
    requires forall e, r | HasResult(w', e, r) :: HasResult(w, e, r)
    ensures AnswersAsked(w')
  {
  }

  lemma DecidingKeepsAnswers(w: World, w': World, epoch: nat)
    requires EpochsOrdered(w) && AnswersAsked(w) && IsUndecided(w, epoch)
    requires w'.asked == w.asked && w'.settled == w.settled
    requires epoch in w'.starts && w'.starts == w.starts[epoch := w'.starts[epoch]]
    requires !w'.starts[epoch].Settling? ==> w'.starts[epoch].sessionId == w.starts[epoch].sessionId
    requires w'.starts[epoch].Settling? && Opened(w'.starts[epoch].result) ==>
      w.starts[epoch].sessionId ==
        if w'.starts[epoch].result.Resumed? then Some(w'.starts[epoch].result.sessionId) else None
    ensures AnswersAsked(w')
  {
    assert forall e | IsUndecided(w', e) :: IsUndecided(w, e);
    assert forall e, r | HasResult(w', e, r) && e != epoch :: HasResult(w, e, r);
  }

  lemma StartKeepsAnswers(w: World, sessionId: Option<SessionId>)
    requires EpochsOrdered(w) && AnswersAsked(w)
    ensures AnswersAsked(StepStart(w, sessionId))
  {
    var w' := StepStart(w, sessionId);
    var ticket := w.hold.startSeq + 1;
    StartAddsOne(w, sessionId);
    forall e, r | HasResult(w', e, r) && Opened(r)
      ensures e in w'.asked && w'.asked[e] == if r.Resumed? then Some(r.sessionId) else None
    {
      if e != ticket {
        assert HasResult(w, e, r);
      }
    }
    forall e | IsUndecided(w', e)
      ensures e in w'.asked && w'.starts[e].sessionId == w'.asked[e]
    {
      if e != ticket {
        assert IsUndecided(w, e);
      }
    }
  }

  lemma ResultsFramed(w: World, w': World)
    requires ResultsHeld(w)
    requires w'.hold.startSeq == w.hold.startSeq && w'.hold.held == w.hold.held && w.healedAt == w'.healedAt
    requires NewestDecided(w) ==> NewestDecided(w')
    requires forall r | HasResult(w', w'.hold.startSeq, r) && Opened(r) :: HasResult(w, w'.hold.startSeq, r)
    ensures ResultsHeld(w')
  {
  }

  lemma HealKeepsResults(w: World)
    requires EpochsOrdered(w) && ResultsHeld(w)
    ensures ResultsHeld(StepSelfHeal(w))
  {
    var w' := StepSelfHeal(w);
    if w.hold.held.Some? && !NewestDecided(w) {
      assert forall r :: !HasResult(w', w'.hold.startSeq, r);
    }
  }

  lemma SupersedeKeepsResults(w: World, w': World)
    requires EpochsOrdered(w)
    requires w'.starts == w.starts && w'.settled == w.settled && w'.hold.startSeq == w.hold.startSeq + 1
    requires w'.healedAt == w.healedAt
    ensures ResultsHeld(w')
  {
  }

  lemma StartKeepsResults(w: World, sessionId: Option<SessionId>)
    requires EpochsOrdered(w)
    ensures ResultsHeld(StepStart(w, sessionId))
  {
  }

  lemma InstallKeepsResults(w: World, epoch: nat, newId: SessionId)
    requires Enabled(w, HandshakeDone(epoch, newId)) && EpochsOrdered(w) && ResultsHeld(w)
    ensures ResultsHeld(StepHandshakeDone(w, epoch, newId))
  {
    var w' := StepHandshakeDone(w, epoch, newId);
    forall r | HasResult(w', w'.hold.startSeq, r) && Opened(r) && w'.healedAt < w'.hold.startSeq
      ensures Holds(w', r.sessionId)
    {
      assert epoch == w.hold.startSeq || HasResult(w, w.hold.startSeq, r);
    }
  }

  // One lemma an event.

  lemma StartKeeps(w: World, sessionId: Option<SessionId>)
    requires Inv(w)
    ensures Inv(StepStart(w, sessionId))
  {
    var w' := StepStart(w, sessionId);
    StartKeepsEpochs(w, sessionId);
    InstallsFramed(w, w');
    OpeningFramed(w, w');
    PlacesFramed(w, w');
    StartKeepsResumes(w, sessionId);
    StartKeepsAnswers(w, sessionId);
    StartKeepsResults(w, sessionId);
  }

  lemma OpenerReturnedKeeps(w: World, epoch: nat, conn: Conn)
    requires Inv(w) && Enabled(w, OpenerReturned(epoch, conn))
    ensures Inv(StepOpenerReturned(w, epoch, conn))
  {
    var w' := StepOpenerReturned(w, epoch, conn);
    DecidingFramed(w, w', epoch);
    DecidingKeepsEpochs(w, w', epoch);
    InstallsFramed(w, w');
    OpenerKeepsOpening(w, epoch, conn);
    OpenerKeepsPlaces(w, epoch, conn);
    ResumesFramed(w, w');
    DecidingKeepsAnswers(w, w', epoch);
    ResultsFramed(w, w');
  }

  lemma OpenerFailedKeeps(w: World, epoch: nat)
    requires Inv(w) && Enabled(w, OpenerFailed(epoch))
    ensures Inv(StepOpenerFailed(w, epoch))
  {
    var w' := StepOpenerFailed(w, epoch);
    DecidingFramed(w, w', epoch);
    DecidingKeepsEpochs(w, w', epoch);
    InstallsFramed(w, w');
    OpeningFramed(w, w');
    PlacesFramed(w, w');
    ResumesFramed(w, w');
    DecidingKeepsAnswers(w, w', epoch);
    ResultsFramed(w, w');
  }

  lemma HandshakeDoneKeeps(w: World, epoch: nat, newId: SessionId)
    requires Inv(w) && Enabled(w, HandshakeDone(epoch, newId)) && FreshId(w, HandshakeDone(epoch, newId))
    ensures Inv(StepHandshakeDone(w, epoch, newId))
  {
    var w' := StepHandshakeDone(w, epoch, newId);
    DecidingKeepsEpochs(w, w', epoch);
    InstallKeepsOrder(w, epoch, newId);
    InstallKeepsOpening(w, epoch, newId);
    InstallKeepsPlaces(w, epoch, newId);
    InstallKeepsResumes(w, epoch, newId);
    DecidingKeepsAnswers(w, w', epoch);
    InstallKeepsResults(w, epoch, newId);
  }

  lemma HandshakeFailedKeeps(w: World, epoch: nat)
    requires Inv(w) && Enabled(w, HandshakeFailed(epoch))
    ensures Inv(StepHandshakeFailed(w, epoch))
  {
    var w' := StepHandshakeFailed(w, epoch);
    DecidingFramed(w, w', epoch);
    DecidingKeepsEpochs(w, w', epoch);
    InstallsFramed(w, w');
    FailureKeepsOpening(w, epoch);
    FailureKeepsPlaces(w, epoch);
    ResumesFramed(w, w');
    DecidingKeepsAnswers(w, w', epoch);
    ResultsFramed(w, w');
  }

  lemma StartSettledKeeps(w: World, epoch: nat)
    requires Inv(w) && Enabled(w, StartSettled(epoch))
    ensures Inv(StepStartSettled(w, epoch))
  {
    var w' := StepStartSettled(w, epoch);
    SettlingFramed(w, epoch);
    SettlingKeepsEpochs(w, epoch);
    InstallsFramed(w, w');
    OpeningFramed(w, w');
    PlacesFramed(w, w');
    ResumesFramed(w, w');
    AnswersFramed(w, w');
    ResultsFramed(w, w');
  }

  lemma SupersedeKeeps(w: World, w': World)
    requires Inv(w) && Placed(w')
    requires w' == w.(hold := w'.hold, ladders := w'.ladders, closes := w'.closes, legs := w'.legs)
    requires w'.hold == SupersedeOpens(w.hold).(held := None)
    ensures Inv(w')
  {
    StartsFramed(w, w');
    EpochsFramed(w, w');
    InstallsFramed(w, w');
    SupersedeKeepsOpening(w, w');
    ResumesFramed(w, w');
    AnswersFramed(w, w');
    SupersedeKeepsResults(w, w');
  }

  lemma SelfHealKeeps(w: World)
    requires Inv(w)
    ensures Inv(StepSelfHeal(w))
  {
    var w' := StepSelfHeal(w);
    StartsFramed(w, w');
    EpochsFramed(w, w');
    InstallsFramed(w, w');
    OpeningFramed(w, w');
    HealKeepsPlaces(w);
    ResumesFramed(w, w');
    AnswersFramed(w, w');
    HealKeepsResults(w);
  }

  /** A ladder's end, a `close` returning, a death: nothing but places and `alive` moves. */
  lemma EndingKeeps(w: World, w': World)
    requires Inv(w) && Placed(w')
    requires w'.starts == w.starts && w'.settled == w.settled && w'.openedBy == w.openedBy && w'.asked == w.asked
    requires w'.spawned == w.spawned && w'.usedIds == w.usedIds && w'.installs == w.installs
    requires w'.healedAt == w.healedAt && w'.hold == w.hold.(orphanPids := w'.hold.orphanPids)
    requires w'.alive <= w.alive
    ensures Inv(w')
  {
    StartsFramed(w, w');
    EpochsFramed(w, w');
    InstallsFramed(w, w');
    OpeningFramed(w, w');
    ResumesFramed(w, w');
    AnswersFramed(w, w');
    ResultsFramed(w, w');
  }

  lemma DropKeeps(w: World)
    requires Inv(w)
    ensures Inv(StepDrop(w))
  {
    DropKeepsPlaces(w);
    SupersedeKeeps(w, StepDrop(w));
  }

  lemma CloseBeganKeeps(w: World, id: nat)
    requires Inv(w)
    ensures Inv(StepCloseBegan(w, id))
  {
    CloseKeepsPlaces(w, id);
    SupersedeKeeps(w, StepCloseBegan(w, id));
  }

  lemma LadderEndedKeeps(w: World, conn: Conn, survived: bool, another: bool)
    requires Inv(w) && Enabled(w, LadderEnded(conn, survived, another))
    ensures Inv(StepLadderEnded(w, conn, survived, another))
  {
    LadderKeepsPlaces(w, conn, survived, another);
    EndingKeeps(w, StepLadderEnded(w, conn, survived, another));
  }

  lemma CloseLadderEndedKeeps(w: World, id: nat, conn: Conn, survived: bool)
    requires Inv(w) && Enabled(w, CloseLadderEnded(id, conn, survived))
    ensures Inv(StepCloseLadderEnded(w, id, conn, survived))
  {
    CloseLadderKeepsPlaces(w, id, conn, survived);
    EndingKeeps(w, StepCloseLadderEnded(w, id, conn, survived));
  }

  lemma CloseReturnedKeeps(w: World, id: nat)
    requires Inv(w) && Enabled(w, CloseReturned(id))
    ensures Inv(StepCloseReturned(w, id))
  {
    CloseReturnKeepsPlaces(w, id);
    EndingKeeps(w, StepCloseReturned(w, id));
  }

  lemma DieKeeps(w: World, conn: Conn)
    requires Inv(w)
    ensures Inv(StepDie(w, conn))
  {
    PlacesFramed(w, StepDie(w, conn));
    EndingKeeps(w, StepDie(w, conn));
  }

  lemma StepKeeps(w: World, ev: Event)
    requires Inv(w) && Enabled(w, ev) && FreshId(w, ev)
    ensures Inv(Step(w, ev))
  {
    match ev
    case Start(sessionId) => StartKeeps(w, sessionId);
    case OpenerReturned(epoch, conn) => OpenerReturnedKeeps(w, epoch, conn);
    case OpenerFailed(epoch) => OpenerFailedKeeps(w, epoch);
    case HandshakeDone(epoch, newId) => HandshakeDoneKeeps(w, epoch, newId);
    case HandshakeFailed(epoch) => HandshakeFailedKeeps(w, epoch);
    case StartSettled(epoch) => StartSettledKeeps(w, epoch);
    case LadderEnded(conn, survived, another) => LadderEndedKeeps(w, conn, survived, another);
    case Drop => DropKeeps(w);
    case CloseBegan(id) => CloseBeganKeeps(w, id);
    case CloseLadderEnded(id, conn, survived) => CloseLadderEndedKeeps(w, id, conn, survived);
    case CloseReturned(id) => CloseReturnedKeeps(w, id);
    case SelfHeal => SelfHealKeeps(w);
    case Die(conn) => DieKeeps(w, conn);
  }
}
