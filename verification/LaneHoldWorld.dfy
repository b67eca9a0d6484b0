/**
 Every interleaving of opens, drops, closes, connection deaths and close ladders around one `LaneHold`.

 `World` adds to the hold what runs between its segments: the `start` calls in flight, the ladders and the
 `close` calls still waiting, which connections are alive. One `Event` is one atomic segment; a run is any
 sequence of enabled events from `INIT`.
 */
module LaneHoldWorld {
  import opened Options
  import opened LaneHold

  datatype StartResult = Created(sessionId: SessionId) | Resumed(sessionId: SessionId) | ResumeFailed | Threw

  /** Where one `start` call is: awaiting its opener, awaiting its handshake, or decided and settling. */
  datatype StartCall =
    | AwaitingOpener(sessionId: Option<SessionId>)
    | Handshaking(sessionId: Option<SessionId>, conn: Conn)
    | Settling(result: StartResult)

  /** One connection a `close` call is taking down: still on its ladder, or survived and not yet reported. */
  datatype CloseLeg = CloseLeg(id: nat, ended: bool)

  datatype World = World(
    hold: HoldState,
    starts: map<nat, StartCall>,
    settled: map<nat, StartResult>,
    ladders: set<Conn>,
    closes: set<nat>,
    legs: map<Conn, CloseLeg>,
    openedBy: map<Conn, nat>,   // the epoch each connection was opened under
    asked: map<nat, Option<SessionId>>,   // the argument of each `start` call
    alive: set<Conn>,
    spawned: set<Conn>,
    usedIds: set<SessionId>,
    reported: set<Conn>,   // every connection `onCloseOrphan` was ever called with
    returned: set<Conn>,   // every pid some `close` handed back
    installs: seq<nat>,    // the epochs installed so far
    healedAt: nat)         // the newest ticket decided before a self-heal released its hold

  const INIT := World(INITIAL_HOLD, map[], map[], {}, {}, map[], map[], map[], {}, {}, {}, {}, {}, [], 0)

  datatype Event =
    | Start(sessionId: Option<SessionId>)
    | OpenerReturned(epoch: nat, conn: Conn)
    | OpenerFailed(epoch: nat)
    | HandshakeDone(epoch: nat, newId: SessionId)
    | HandshakeFailed(epoch: nat)
    | StartSettled(epoch: nat)
    | LadderEnded(conn: Conn, survived: bool, another: bool)  // `another`: a second ladder is still on it
    | Drop
    | CloseBegan(id: nat)
    | CloseLadderEnded(id: nat, conn: Conn, survived: bool)
    | CloseReturned(id: nat)
    | SelfHeal
    | Die(conn: Conn)

  /** The id a finished handshake leaves open: the stored one of a resume, the new one of a create. */
  function OpenedId(call: StartCall, newId: SessionId): SessionId
    requires call.Handshaking?
  {
    if call.sessionId.Some? then call.sessionId.value else newId
  }

  function OpenedAs(call: StartCall, newId: SessionId): StartResult
    requires call.Handshaking?
  {
    if call.sessionId.Some? then Resumed(call.sessionId.value) else Created(newId)
  }

  /** What the caller could observe: nothing here says whether `newId` is fresh. */
  predicate Enabled(w: World, ev: Event) {
    match ev
    case Start(_) => true
    case OpenerReturned(epoch, conn) =>
      epoch in w.starts && w.starts[epoch].AwaitingOpener? && conn !in w.spawned
    case OpenerFailed(epoch) => epoch in w.starts && w.starts[epoch].AwaitingOpener?
    case HandshakeDone(epoch, _) => epoch in w.starts && w.starts[epoch].Handshaking?
    case HandshakeFailed(epoch) => epoch in w.starts && w.starts[epoch].Handshaking?
    case StartSettled(epoch) => epoch in w.starts && w.starts[epoch].Settling? && w.hold.pendingStarts > 0
    case LadderEnded(conn, survived, _) => conn in w.ladders && (survived ==> conn in w.alive)
    case Drop => true
    case CloseBegan(id) => id !in w.closes
    case CloseLadderEnded(id, conn, survived) =>
      conn in w.legs && w.legs[conn] == CloseLeg(id, false) && (survived ==> conn in w.alive)
    case CloseReturned(id) => id in w.closes && CloseLeg(id, false) !in w.legs.Values
    case SelfHeal => true
    case Die(conn) => conn in w.alive
  }

  /** The bridge's promise: `newSession` never hands out an id this lane has already used. */
  predicate FreshId(w: World, ev: Event) {
    ev.HandshakeDone? && ev.epoch in w.starts && w.starts[ev.epoch].Handshaking? &&
    w.starts[ev.epoch].sessionId.None?
    ==> ev.newId !in w.usedIds
  }

  function StepStart(w: World, sessionId: Option<SessionId>): World {
    var hold := IssueStart(w.hold);
    var call :=
      if Reusable(w.hold, sessionId, w.alive) then Settling(Resumed(sessionId.value)) else AwaitingOpener(sessionId);
    w.(hold := hold,
       starts := w.starts[hold.startSeq := call],
       asked := w.asked[hold.startSeq := sessionId],
       usedIds := w.usedIds + if sessionId.Some? then {sessionId.value} else {})
  }

  function StepOpenerReturned(w: World, epoch: nat, conn: Conn): World
    requires Enabled(w, OpenerReturned(epoch, conn))
  {
    var alive := w.alive + {conn};
    var (hold, kept, closing) := RegisterOpened(w.hold, epoch, conn, alive);
    w.(hold := hold,
       starts := w.starts[epoch := if kept then Handshaking(w.starts[epoch].sessionId, conn) else Settling(Threw)],
       ladders := w.ladders + closing,
       alive := alive,
       spawned := w.spawned + {conn},
       openedBy := w.openedBy[conn := epoch])
  }

  function StepOpenerFailed(w: World, epoch: nat): World {
    w.(starts := w.starts[epoch := Settling(Threw)])
  }

  function StepHandshakeDone(w: World, epoch: nat, newId: SessionId): World
    requires Enabled(w, HandshakeDone(epoch, newId))
  {
    var call := w.starts[epoch];
    var id := OpenedId(call, newId);
    var (hold, installed, closing) := InstallHold(w.hold, epoch, call.conn, id, w.alive);
    w.(hold := hold,
       starts := w.starts[epoch := Settling(if installed then OpenedAs(call, newId) else ResumeFailed)],
       ladders := w.ladders + closing,
       usedIds := w.usedIds + {id},
       installs := if installed then w.installs + [epoch] else w.installs)
  }

  function StepHandshakeFailed(w: World, epoch: nat): World
    requires Enabled(w, HandshakeFailed(epoch))
  {
    var (hold, closing) := Discard(w.hold, w.starts[epoch].conn, w.alive);
    var result := if w.starts[epoch].sessionId.Some? then ResumeFailed else Threw;
    w.(hold := hold, starts := w.starts[epoch := Settling(result)], ladders := w.ladders + closing)
  }

  function StepStartSettled(w: World, epoch: nat): World
    requires Enabled(w, StartSettled(epoch))
  {
    w.(hold := w.hold.(pendingStarts := w.hold.pendingStarts - 1),
       starts := w.starts - {epoch},
       settled := w.settled[epoch := w.starts[epoch].result])
  }

  function StepLadderEnded(w: World, conn: Conn, survived: bool, another: bool): World {
    var orphans := if survived then {conn} else {};
    w.(hold := RecordOrphans(w.hold, orphans),
       ladders := if another then w.ladders else w.ladders - {conn},
       alive := if survived then w.alive else w.alive - {conn},
       reported := w.reported + orphans)
  }

  function StepDrop(w: World): World {
    var (hold, closing) := DropHold(w.hold, w.alive);
    w.(hold := hold, ladders := w.ladders + closing)
  }

  function StepCloseBegan(w: World, id: nat): World {
    var (hold, closing) := CloseHold(w.hold);
    w.(hold := hold, closes := w.closes + {id}, legs := w.legs + map conn | conn in closing :: CloseLeg(id, false))
  }

  function StepCloseLadderEnded(w: World, id: nat, conn: Conn, survived: bool): World {
    w.(legs := if survived then w.legs[conn := CloseLeg(id, true)] else w.legs - {conn},
       alive := if survived then w.alive else w.alive - {conn})
  }

  function StepCloseReturned(w: World, id: nat): World {
    var survivors := set conn | conn in w.legs && w.legs[conn].id == id;
    w.(hold := w.hold.(orphanPids := {}),
       closes := w.closes - {id},
       legs := w.legs - survivors,
       reported := w.reported + survivors,
       returned := w.returned + w.hold.orphanPids + survivors)
  }

  /** No start that could still install has taken the newest ticket. */
  predicate NewestDecided(w: World) {
    w.hold.startSeq in w.starts ==> w.starts[w.hold.startSeq].Settling?
  }

  function StepSelfHeal(w: World): World {
    var (hold, closing) := ReplaceHold(w.hold, None, w.alive);
    w.(hold := hold,
       ladders := w.ladders + closing,
       healedAt := if w.hold.held.Some? && NewestDecided(w) then w.hold.startSeq else w.healedAt)
  }

  function StepDie(w: World, conn: Conn): World {
    w.(alive := w.alive - {conn})
  }

  function Step(w: World, ev: Event): World
    requires Enabled(w, ev)
  {
    match ev
    case Start(sessionId) => StepStart(w, sessionId)
    case OpenerReturned(epoch, conn) => StepOpenerReturned(w, epoch, conn)
    case OpenerFailed(epoch) => StepOpenerFailed(w, epoch)
    case HandshakeDone(epoch, newId) => StepHandshakeDone(w, epoch, newId)
    case HandshakeFailed(epoch) => StepHandshakeFailed(w, epoch)
    case StartSettled(epoch) => StepStartSettled(w, epoch)
    case LadderEnded(conn, survived, another) => StepLadderEnded(w, conn, survived, another)
    case Drop => StepDrop(w)
    case CloseBegan(id) => StepCloseBegan(w, id)
    case CloseLadderEnded(id, conn, survived) => StepCloseLadderEnded(w, id, conn, survived)
    case CloseReturned(id) => StepCloseReturned(w, id)
    case SelfHeal => StepSelfHeal(w)
    case Die(conn) => StepDie(w, conn)
  }

  predicate Runs(w: World, evs: seq<Event>)
    decreases |evs|
  {
    evs == [] || (Enabled(w, evs[0]) && FreshId(w, evs[0]) && Runs(Step(w, evs[0]), evs[1..]))
  }

  function Run(w: World, evs: seq<Event>): World
    requires Runs(w, evs)
    decreases |evs|
  {
    if evs == [] then w else Run(Step(w, evs[0]), evs[1..])
  }

  // The invariant.

  ghost predicate IsHandshake(w: World, epoch: nat) {
    epoch in w.starts && w.starts[epoch].Handshaking?
  }

  /** A start that can still install: its connection, or its opener, is outstanding. */
  ghost predicate IsUndecided(w: World, epoch: nat) {
    epoch in w.starts && !w.starts[epoch].Settling?
  }

  predicate IsHeld(h: HoldState, conn: Conn) {
    h.held.Some? && h.held.value.conn == conn
  }

  /** On its way out: a ladder is running on it, or it was reported as an orphan. */
  ghost predicate IsLeaving(w: World, conn: Conn) {
    conn in w.ladders || conn in w.legs || conn in w.reported
  }

  /** Nothing is held that a drop or close overtook, and tickets only grow. */
  ghost predicate EpochsOrdered(w: World) {
    && w.hold.closedThrough <= w.hold.startSeq && w.hold.closedThrough !in w.starts
    && (w.hold.held.Some? ==> w.hold.closedThrough < w.hold.held.value.epoch <= w.hold.startSeq)
    && (forall epoch | epoch in w.starts :: 0 < epoch <= w.hold.startSeq)
    && (forall epoch | epoch in w.settled :: epoch <= w.hold.startSeq && epoch !in w.starts)
    && w.healedAt <= w.hold.startSeq
    && |w.starts| == w.hold.pendingStarts
    && (forall conn | conn in w.openedBy :: w.openedBy[conn] <= w.hold.startSeq)
  }

  ghost predicate InstallsIncrease(w: World) {
    && (forall i, j | 0 <= i < j < |w.installs| :: w.installs[i] < w.installs[j])
    && (forall i | 0 <= i < |w.installs| :: w.installs[i] <= w.hold.startSeq)
    && (forall i, epoch | 0 <= i < |w.installs| && IsUndecided(w, epoch) :: w.installs[i] != epoch)
    && (w.hold.held.Some? ==> |w.installs| > 0 && w.hold.held.value.epoch == w.installs[|w.installs| - 1])
  }

  /** `opening` is exactly the connections of the handshakes no drop or close has overtaken. */
  ghost predicate OpeningExact(w: World) {
    && (forall epoch: nat | IsHandshake(w, epoch) ::
          var conn := w.starts[epoch].conn;
          && conn in w.openedBy
          && w.openedBy[conn] == epoch
          && !IsHeld(w.hold, conn)
          && (epoch > w.hold.closedThrough ==> conn in w.hold.opening))
    && (forall conn | conn in w.hold.opening ::
          && conn in w.openedBy
          && IsHandshake(w, w.openedBy[conn])
          && w.starts[w.openedBy[conn]].conn == conn
          && w.openedBy[conn] > w.hold.closedThrough)
    && (forall conn :: conn in w.spawned <==> conn in w.openedBy)
    && (w.hold.held.Some? ==>
          w.hold.held.value.conn in w.openedBy && w.openedBy[w.hold.held.value.conn] == w.hold.held.value.epoch)
  }

  /** A connection is opening, held or leaving, in one of these at most, and if it lives in one of them. */
  ghost predicate PlacedAt(w: World, conn: Conn) {
    && (conn in w.hold.opening || IsHeld(w.hold, conn) || IsLeaving(w, conn) ==> conn in w.spawned)
    && (conn in w.hold.opening ==> !IsHeld(w.hold, conn) && !IsLeaving(w, conn))
    && (IsHeld(w.hold, conn) ==> !IsLeaving(w, conn))
    && (conn in w.alive ==> conn in w.hold.opening || IsHeld(w.hold, conn) || IsLeaving(w, conn))
  }

  /** Every connection is in its place, and every orphan was handed back or is still recorded. */
  ghost predicate Placed(w: World) {
    w.reported == w.hold.orphanPids + w.returned && forall conn: Conn :: PlacedAt(w, conn)
  }

  /** No live connection is anywhere else. */
  ghost predicate NoneLost(w: World) {
    forall conn | conn in w.alive :: conn in w.hold.opening || IsHeld(w.hold, conn) || IsLeaving(w, conn)
  }

  /** The held session is never the one the newest undecided start is about to install over it. */
  ghost predicate ResumesReplaceDead(w: World) {
    && (forall conn | conn in w.alive :: conn in w.spawned)
    && (w.hold.held.Some? ==> w.hold.held.value.sessionId in w.usedIds)
    && (IsUndecided(w, w.hold.startSeq) && w.hold.held.Some? &&
        w.starts[w.hold.startSeq].sessionId == Some(w.hold.held.value.sessionId)
        ==> w.hold.held.value.conn !in w.alive)
  }

  /** The result a start has decided on, delivered or not. */
  ghost predicate HasResult(w: World, epoch: nat, result: StartResult) {
    || (epoch in w.starts && w.starts[epoch] == Settling(result))
    || (epoch in w.settled && w.settled[epoch] == result)
  }

  ghost predicate Opened(result: StartResult) {
    result.Created? || result.Resumed?
  }

  ghost predicate Holds(w: World, id: SessionId) {
    w.hold.held.Some? && w.hold.held.value.sessionId == id
  }

  /** What a start that reported a session and is still the newest ticket found is held, bar a self-heal since. */
  ghost predicate ResultsHeld(w: World) {
    && (forall result | HasResult(w, w.hold.startSeq, result) && Opened(result) && w.healedAt < w.hold.startSeq ::
          Holds(w, result.sessionId))
    && (w.healedAt == w.hold.startSeq ==> w.hold.held.None? && NewestDecided(w))
  }

  /** A start answers the question it was asked: a resume names the stored session, a create a new one. */
  ghost predicate AnswersAsked(w: World) {
    && (forall epoch | IsUndecided(w, epoch) :: epoch in w.asked && w.starts[epoch].sessionId == w.asked[epoch])
    && (forall epoch, result | HasResult(w, epoch, result) && Opened(result) ::
          epoch in w.asked && w.asked[epoch] == if result.Resumed? then Some(result.sessionId) else None)
  }

  ghost predicate Inv(w: World) {
    && AnswersAsked(w)
    && EpochsOrdered(w)
    && InstallsIncrease(w)
    && OpeningExact(w)
    && Placed(w)
    && ResumesReplaceDead(w)
    && ResultsHeld(w)
  }
}
