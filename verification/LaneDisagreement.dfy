/**
 What the budget branch costs when callers keep no discipline: runs in which two attempts may write, and one in
 which the durable row ends up naming another session than the newest acquisition and the hold.
 */
module LaneDisagreement {
  import opened Options
  import opened LaneHold
  import opened LaneHoldWorld
  import opened LaneHoldSteps
  import opened LaneTurns
  import opened LaneTurnRuns
  import opened LaneAgreement

  // Joining events into runs.

  ghost predicate Reaches(l: Lane, evs: seq<LaneEvent>, l': Lane) {
    LaneRuns(l, evs) && LaneRun(l, evs) == l'
  }

  lemma ReachesByOne(l: Lane, ev: LaneEvent)
    requires CanStep(l, ev)
    ensures Reaches(l, [ev], LaneStep(l, ev))
  {
    assert [ev][1..] == [];
  }

  lemma {:induction false} ReachesOn(l: Lane, first: seq<LaneEvent>, m: Lane, rest: seq<LaneEvent>, n: Lane)
    requires Reaches(l, first, m) && Reaches(m, rest, n)
    ensures Reaches(l, first + rest, n)
    decreases |first|
  {
    if first == [] {
      assert first + rest == rest;
    } else {
      assert (first + rest)[1..] == first[1..] + rest;
      ReachesOn(LaneStep(l, first[0]), first[1..], m, rest, n);
    }
  }

  // What single events do.

  function BootCall(turn: Turn, a: AcquireId): LaneEvent {
    Call(turn, false, false, false, false, a)
  }

  function ForegroundCall(turn: Turn, a: AcquireId): LaneEvent {
    Call(turn, true, false, false, false, a)
  }

  /** A background call that finds nothing in flight, and no stored row it may resume, opens. */
  lemma BootOpens(l: Lane, turn: Turn, a: AcquireId)
    requires CanStep(l, BootCall(turn, a)) && l.cache.inFlight.None?
    ensures var l' := LaneStep(l, BootCall(turn, a));
      && l'.world == StepStart(l.world, None)
      && l'.row == l.row
      && l'.acquires == l.acquires[a := Acquire(turn, AwaitCreate(l.world.hold.startSeq + 1))]
      && l'.turns == l.turns[turn := TurnState(false, false, false, Joining(a))]
      && l'.cache == CacheState(Some(a), l.cache.superseded)
  {
  }

  lemma Parks(l: Lane, turn: Turn, a: AcquireId)
    requires CanStep(l, ForegroundCall(turn, a)) && l.cache.inFlight.Some?
    ensures LaneStep(l, ForegroundCall(turn, a)) ==
      l.(turns := l.turns[turn := TurnState(true, false, false, Parked(l.cache.inFlight.value))])
  {
  }

  lemma Spends(l: Lane, turn: Turn, joined: AcquireId)
    requires InPhase(l, turn, Parked(joined)) && !l.turns[turn].aborted
    ensures CanStep(l, ParkEnded(turn))
    ensures LaneStep(l, ParkEnded(turn)) == l.(turns := l.turns[turn := l.turns[turn].(phase := BudgetSpent(joined))])
  {
  }

  lemma TakesOver(l: Lane, turn: Turn, joined: AcquireId, a: AcquireId)
    requires InPhase(l, turn, BudgetSpent(joined)) && !l.turns[turn].aborted
    requires a !in l.acquires && a !in l.cache.superseded
    ensures CanStep(l, TakeOver(turn, a))
    ensures var l' := LaneStep(l, TakeOver(turn, a));
      && l'.world == StepStart(l.world, None)
      && l'.row == l.row
      && l'.acquires == l.acquires[a := Acquire(turn, AwaitCreate(l.world.hold.startSeq + 1))]
      && l'.turns == l.turns[turn := l.turns[turn].(phase := Joining(a))]
      && l'.cache == CacheState(Some(a), l.cache.superseded + {joined})
  {
  }

  /** All tickets so far are behind the next one. */
  ghost predicate TicketsBehind(w: World) {
    w.hold.closedThrough <= w.hold.startSeq && forall epoch | epoch in w.starts :: epoch <= w.hold.startSeq
  }

  lemma CreateStarts(w: World)
    requires TicketsBehind(w)
    ensures var w' := StepStart(w, None);
      var ticket := w.hold.startSeq + 1;
      && w'.starts == w.starts[ticket := AwaitingOpener(None)] && ticket !in w.starts
      && w'.hold == w.hold.(startSeq := ticket, pendingStarts := w.hold.pendingStarts + 1)
      && w'.settled == w.settled && w'.spawned == w.spawned && w'.usedIds == w.usedIds && w'.healedAt == w.healedAt
      && TicketsBehind(w')
  {
    assert !Reusable(w.hold, None, w.alive);
  }

  /** The opener and the handshake of the newest `start`, on a new connection and session. */
  function Opening(epoch: nat, conn: Conn, id: SessionId): seq<LaneEvent> {
    [Hold(OpenerReturned(epoch, conn))] + [Hold(HandshakeDone(epoch, id))]
  }

  lemma NewestInstalls(w: World, epoch: nat, conn: Conn, id: SessionId)
    requires epoch in w.starts && w.starts[epoch] == AwaitingOpener(None)
    requires epoch == w.hold.startSeq > w.hold.closedThrough
    requires conn !in w.spawned && id !in w.usedIds
    ensures Enabled(w, OpenerReturned(epoch, conn))
    ensures var w1 := Step(w, OpenerReturned(epoch, conn));
      && Enabled(w1, HandshakeDone(epoch, id)) && FreshId(w1, HandshakeDone(epoch, id))
      && var w2 := Step(w1, HandshakeDone(epoch, id));
      && w2.hold.held == Some(Held(conn, id, epoch))
      && w2.starts == w.starts[epoch := Settling(Created(id))]
      && w2.hold.startSeq == w.hold.startSeq && w2.hold.closedThrough == w.hold.closedThrough
      && w2.hold.pendingStarts == w.hold.pendingStarts
      && w2.settled == w.settled && w2.healedAt == w.healedAt
      && w2.spawned == w.spawned + {conn} && w2.usedIds == w.usedIds + {id}
  {
  }

  lemma LaneInstalls(l: Lane, epoch: nat, conn: Conn, id: SessionId) returns (l': Lane)
    requires epoch in l.world.starts && l.world.starts[epoch] == AwaitingOpener(None)
    requires epoch == l.world.hold.startSeq > l.world.hold.closedThrough
    requires conn !in l.world.spawned && id !in l.world.usedIds
    ensures Reaches(l, Opening(epoch, conn, id), l')
    ensures l' == l.(world := l'.world)
    ensures Installed(l.world, l'.world, epoch, conn, id)
  {
    NewestInstalls(l.world, epoch, conn, id);
    var l1 := LaneStep(l, Hold(OpenerReturned(epoch, conn)));
    l' := LaneStep(l1, Hold(HandshakeDone(epoch, id)));
    ReachesByOne(l, Hold(OpenerReturned(epoch, conn)));
    ReachesByOne(l1, Hold(HandshakeDone(epoch, id)));
    ReachesOn(l, [Hold(OpenerReturned(epoch, conn))], l1, [Hold(HandshakeDone(epoch, id))], l');
  }

  ghost predicate Installed(w: World, w': World, epoch: nat, conn: Conn, id: SessionId) {
    && w'.hold.held == Some(Held(conn, id, epoch))
    && w'.starts == w.starts[epoch := Settling(Created(id))]
    && w'.hold.startSeq == w.hold.startSeq && w'.hold.closedThrough == w.hold.closedThrough
    && w'.hold.pendingStarts == w.hold.pendingStarts
    && w'.settled == w.settled && w'.healedAt == w.healedAt
    && w'.spawned == w.spawned + {conn} && w'.usedIds == w.usedIds + {id}
  }

  /** A `start` delivers its new session, and the attempt that asked writes it down. */
  function Answering(epoch: nat, a: AcquireId): seq<LaneEvent> {
    [Hold(StartSettled(epoch))] + [Continue(a)]
  }

  function NextRow(row: Option<Row>, id: SessionId): Row {
    Row(id, (if row.Some? then row.value.generation else 0) + 1)
  }

  lemma LaneAnswers(l: Lane, epoch: nat, a: AcquireId, id: SessionId) returns (l': Lane)
    requires epoch in l.world.starts && l.world.starts[epoch] == Settling(Created(id)) && l.world.hold.pendingStarts > 0
    requires a in l.acquires && l.acquires[a].phase == AwaitCreate(epoch) && a !in l.cache.superseded
    requires l.acquires[a].owner in l.turns && !l.turns[l.acquires[a].owner].aborted
    ensures Reaches(l, Answering(epoch, a), l')
    ensures l'.world == StepStartSettled(l.world, epoch)
    ensures l'.row == Some(NextRow(l.row, id)) && l'.turns == l.turns && l'.cache == l.cache
    ensures l'.acquires == l.acquires[a := l.acquires[a].(phase := Decided(Acquired(NextRow(l.row, id), epoch)))]
  {
    var l1 := LaneStep(l, Hold(StartSettled(epoch)));
    assert l1 == l.(world := StepStartSettled(l.world, epoch)) && l1.world.settled[epoch] == Created(id);
    l' := LaneStep(l1, Continue(a));
    assert l' == StepContinue(l1, a);
    ReachesByOne(l, Hold(StartSettled(epoch)));
    ReachesByOne(l1, Continue(a));
    ReachesOn(l, [Hold(StartSettled(epoch))], l1, [Continue(a)], l');
  }

  // Two foreground callers.

  /** Two foreground turns that joined attempt `joined`, and whose budgets ran out. */
  ghost predicate BothSpent(l: Lane, t: Turn, u: Turn, joined: AcquireId) {
    && t != u
    && l.cache.superseded <= {joined}
    && InPhase(l, t, BudgetSpent(joined)) && !l.turns[t].aborted
    && InPhase(l, u, BudgetSpent(joined)) && !l.turns[u].aborted
  }

  function BothPark(boot: Turn, joined: AcquireId, t: Turn, a: AcquireId, u: Turn, b: AcquireId): seq<LaneEvent> {
    ([BootCall(boot, joined)] + ([ForegroundCall(t, a)] + [ForegroundCall(u, b)])) + ([ParkEnded(t)] + [ParkEnded(u)])
  }

  lemma BothJoin(boot: Turn, joined: AcquireId, t: Turn, a: AcquireId, u: Turn, b: AcquireId) returns (l: Lane)
    requires boot != t && boot != u && t != u && joined != a && joined != b
    ensures Reaches(INIT_LANE, [BootCall(boot, joined)] + ([ForegroundCall(t, a)] + [ForegroundCall(u, b)]), l)
    ensures InPhase(l, t, Parked(joined)) && !l.turns[t].aborted && InPhase(l, u, Parked(joined)) && !l.turns[u].aborted
    ensures l.acquires.Keys == {joined} && l.world == StepStart(INIT, None) && l.cache == CacheState(Some(joined), {})
  {
    BootOpens(INIT_LANE, boot, joined);
    var l1 := LaneStep(INIT_LANE, BootCall(boot, joined));
    Parks(l1, t, a);
    var l2 := LaneStep(l1, ForegroundCall(t, a));
    Parks(l2, u, b);
    l := LaneStep(l2, ForegroundCall(u, b));
    ReachesByOne(l2, ForegroundCall(u, b));
    ReachesByOne(l1, ForegroundCall(t, a));
    ReachesOn(l1, [ForegroundCall(t, a)], l2, [ForegroundCall(u, b)], l);
    ReachesByOne(INIT_LANE, BootCall(boot, joined));
    ReachesOn(INIT_LANE, [BootCall(boot, joined)], l1, [ForegroundCall(t, a)] + [ForegroundCall(u, b)], l);
  }

  lemma BothSpend(l: Lane, t: Turn, u: Turn, joined: AcquireId) returns (l': Lane)
    requires t != u && l.cache.superseded <= {joined}
    requires InPhase(l, t, Parked(joined)) && !l.turns[t].aborted && InPhase(l, u, Parked(joined)) && !l.turns[u].aborted
    ensures Reaches(l, [ParkEnded(t)] + [ParkEnded(u)], l')
    ensures BothSpent(l', t, u, joined) && l' == l.(turns := l'.turns)
  {
    Spends(l, t, joined);
    var l1 := LaneStep(l, ParkEnded(t));
    Spends(l1, u, joined);
    l' := LaneStep(l1, ParkEnded(u));
    ReachesByOne(l1, ParkEnded(u));
    ReachesByOne(l, ParkEnded(t));
    ReachesOn(l, [ParkEnded(t)], l1, [ParkEnded(u)], l');
  }

  lemma BothParkAndSpend(boot: Turn, joined: AcquireId, t: Turn, a: AcquireId, u: Turn, b: AcquireId) returns (l: Lane)
    requires boot != t && boot != u && t != u && joined != a && joined != b
    ensures Reaches(INIT_LANE, BothPark(boot, joined, t, a, u, b), l)
    ensures BothSpent(l, t, u, joined) && l.acquires.Keys == {joined}
    ensures l.world == StepStart(INIT, None) && l.cache == CacheState(Some(joined), {})
  {
    var l1 := BothJoin(boot, joined, t, a, u, b);
    l := BothSpend(l1, t, u, joined);
    ReachesOn(INIT_LANE, [BootCall(boot, joined)] + ([ForegroundCall(t, a)] + [ForegroundCall(u, b)]), l1,
              [ParkEnded(t)] + [ParkEnded(u)], l);
  }

  /**
   Without the discipline single flight is false: two foreground calls park on the boot open, both run out of
   budget, each clears the entry and opens for itself, and both attempts may still write the row.
   */
  lemma TwoForegroundCallersBreakSingleFlight(
      boot: Turn, joined: AcquireId, t: Turn, a: AcquireId, u: Turn, b: AcquireId)
    requires boot != t && boot != u && t != u && joined != a && joined != b && a != b
    ensures var evs := BothPark(boot, joined, t, a, u, b) + ([TakeOver(t, a)] + [TakeOver(u, b)]);
      && LaneRuns(INIT_LANE, evs)
      && var l := LaneRun(INIT_LANE, evs);
      Live(l, a) && Live(l, b) && !SingleFlight(l)
  {
    var l0 := BothParkAndSpend(boot, joined, t, a, u, b);
    TakesOver(l0, t, joined, a);
    var l1 := LaneStep(l0, TakeOver(t, a));
    TakesOver(l1, u, joined, b);
    var l2 := LaneStep(l1, TakeOver(u, b));
    ReachesByOne(l0, TakeOver(t, a));
    ReachesByOne(l1, TakeOver(u, b));
    ReachesOn(l0, [TakeOver(t, a)], l1, [TakeOver(u, b)], l2);
    ReachesOn(INIT_LANE, BothPark(boot, joined, t, a, u, b), l0, [TakeOver(t, a)] + [TakeOver(u, b)], l2);
    assert Live(l2, a) && Live(l2, b);
  }

  // The harm.

  /** The newest acquisition and the hold name one session, the durable row another. */
  ghost predicate Disagrees(l: Lane, b: AcquireId, row: Row) {
    && HasAcquired(l, b, row, l.world.hold.startSeq)
    && l.world.healedAt < l.world.hold.startSeq && Holds(l.world, row.sessionId)
    && l.row.Some? && l.row.value.sessionId != row.sessionId
  }

  function TakingOver(epoch: nat, turn: Turn, a: AcquireId, conn: Conn, id: SessionId): seq<LaneEvent> {
    [TakeOver(turn, a)] + Opening(epoch, conn, id)
  }

  /** What a take-over does whose `start` is the newest and goes through. */
  ghost predicate OpenedFor(l: Lane, l': Lane, turn: Turn, joined: AcquireId, a: AcquireId, conn: Conn, id: SessionId)
    requires turn in l.turns
  {
    var epoch := l.world.hold.startSeq + 1;
    && epoch !in l.world.starts
    && l'.acquires == l.acquires[a := Acquire(turn, AwaitCreate(epoch))]
    && l'.turns == l.turns[turn := l.turns[turn].(phase := Joining(a))]
    && l'.cache.superseded == l.cache.superseded + {joined} && l'.row == l.row
    && l'.world.hold.held == Some(Held(conn, id, epoch))
    && l'.world.starts == l.world.starts[epoch := Settling(Created(id))]
    && l'.world.hold.startSeq == epoch && l'.world.healedAt == l.world.healedAt
    && l'.world.hold.pendingStarts == l.world.hold.pendingStarts + 1
    && l'.world.spawned == l.world.spawned + {conn} && l'.world.usedIds == l.world.usedIds + {id}
    && TicketsBehind(l'.world)
  }

  lemma InstalledIsOpened(l: Lane, l1: Lane, l': Lane, turn: Turn, joined: AcquireId, a: AcquireId, conn: Conn, id: SessionId)
    requires TicketsBehind(l.world) && turn in l.turns
    requires l1.world == StepStart(l.world, None) && l1.row == l.row
    requires l1.acquires == l.acquires[a := Acquire(turn, AwaitCreate(l.world.hold.startSeq + 1))]
    requires l1.turns == l.turns[turn := l.turns[turn].(phase := Joining(a))]
    requires l1.cache == CacheState(Some(a), l.cache.superseded + {joined})
    requires l' == l1.(world := l'.world) && Installed(l1.world, l'.world, l.world.hold.startSeq + 1, conn, id)
    ensures OpenedFor(l, l', turn, joined, a, conn, id)
  {
    CreateStarts(l.world);
  }

  lemma LaneTakesOver(l: Lane, turn: Turn, joined: AcquireId, a: AcquireId) returns (l1: Lane)
    requires InPhase(l, turn, BudgetSpent(joined)) && !l.turns[turn].aborted
    requires a !in l.acquires && a !in l.cache.superseded
    ensures Reaches(l, [TakeOver(turn, a)], l1)
    ensures l1.world == StepStart(l.world, None) && l1.row == l.row
    ensures l1.acquires == l.acquires[a := Acquire(turn, AwaitCreate(l.world.hold.startSeq + 1))]
    ensures l1.turns == l.turns[turn := l.turns[turn].(phase := Joining(a))]
    ensures l1.cache == CacheState(Some(a), l.cache.superseded + {joined})
  {
    TakesOver(l, turn, joined, a);
    ReachesByOne(l, TakeOver(turn, a));
    l1 := LaneStep(l, TakeOver(turn, a));
  }

  lemma TakesOverAndInstalls(l: Lane, turn: Turn, joined: AcquireId, a: AcquireId, conn: Conn, id: SessionId)
    returns (l': Lane)
    requires TicketsBehind(l.world)
    requires InPhase(l, turn, BudgetSpent(joined)) && !l.turns[turn].aborted
    requires a !in l.acquires && a !in l.cache.superseded
    requires conn !in l.world.spawned && id !in l.world.usedIds
    ensures Reaches(l, TakingOver(l.world.hold.startSeq + 1, turn, a, conn, id), l')
    ensures OpenedFor(l, l', turn, joined, a, conn, id)
  {
    var epoch := l.world.hold.startSeq + 1;
    var l1 := LaneTakesOver(l, turn, joined, a);
    CreateStarts(l.world);
    l' := LaneInstalls(l1, epoch, conn, id);
    InstalledIsOpened(l, l1, l', turn, joined, a, conn, id);
    ReachesOn(l, [TakeOver(turn, a)], l1, Opening(epoch, conn, id), l');
  }

  /** The second turn and its attempt, the first turn's attempt, and what both will be told. */
  ghost predicate BothAwait(l: Lane, epoch: nat, a: AcquireId, id: SessionId, b: AcquireId, d: Conn, jd: SessionId) {
    && a != b && Awaits(l, epoch, a, id) && Awaits(l, epoch + 1, b, jd)
    && l.world.hold.pendingStarts >= 2 && l.world.hold.startSeq == epoch + 1 && l.world.healedAt < epoch + 1
    && l.world.hold.held == Some(Held(d, jd, epoch + 1))
  }

  ghost predicate Awaits(l: Lane, epoch: nat, a: AcquireId, id: SessionId) {
    && epoch in l.world.starts && l.world.starts[epoch] == Settling(Created(id))
    && a in l.acquires && l.acquires[a].phase == AwaitCreate(epoch) && a !in l.cache.superseded
    && l.acquires[a].owner in l.turns && !l.turns[l.acquires[a].owner].aborted
  }

  lemma BothOpenedAwait(
      l: Lane, l1: Lane, l2: Lane, joined: AcquireId, t: Turn, a: AcquireId, c: Conn, id: SessionId, u: Turn,
      b: AcquireId, d: Conn, jd: SessionId)
    requires BothSpent(l, t, u, joined) && l.world.healedAt <= l.world.hold.startSeq
    requires a != b && a != joined && b != joined
    requires OpenedFor(l, l1, t, joined, a, c, id)
    requires u in l1.turns && OpenedFor(l1, l2, u, joined, b, d, jd)
    ensures BothAwait(l2, l.world.hold.startSeq + 1, a, id, b, d, jd)
  {
  }

  lemma BothOpen(
      l: Lane, joined: AcquireId, t: Turn, a: AcquireId, c: Conn, id: SessionId, u: Turn, b: AcquireId, d: Conn,
      jd: SessionId)
    returns (l2: Lane)
    requires TicketsBehind(l.world) && l.world.healedAt <= l.world.hold.startSeq && BothSpent(l, t, u, joined)
    requires a != b && a != joined && b != joined && a !in l.acquires && b !in l.acquires
    requires c !in l.world.spawned && d !in l.world.spawned && c != d
    requires id !in l.world.usedIds && jd !in l.world.usedIds && id != jd
    ensures var epoch := l.world.hold.startSeq + 1;
      && Reaches(l, TakingOver(epoch, t, a, c, id) + TakingOver(epoch + 1, u, b, d, jd), l2)
      && BothAwait(l2, epoch, a, id, b, d, jd)
  {
    var epoch := l.world.hold.startSeq + 1;
    var l1 := TakesOverAndInstalls(l, t, joined, a, c, id);
    assert InPhase(l1, u, BudgetSpent(joined));
    l2 := TakesOverAndInstalls(l1, u, joined, b, d, jd);
    BothOpenedAwait(l, l1, l2, joined, t, a, c, id, u, b, d, jd);
    ReachesOn(l, TakingOver(epoch, t, a, c, id), l1, TakingOver(epoch + 1, u, b, d, jd), l2);
  }

  /** The second attempt writes first, and the first one over it. */
  lemma BothAnswer(l: Lane, epoch: nat, a: AcquireId, id: SessionId, b: AcquireId, d: Conn, jd: SessionId)
    returns (l': Lane, row: Row)
    requires BothAwait(l, epoch, a, id, b, d, jd) && id != jd
    ensures Reaches(l, Answering(epoch + 1, b) + Answering(epoch, a), l')
    ensures Disagrees(l', b, row)
  {
    var l1 := LaneAnswers(l, epoch + 1, b, jd);
    l' := LaneAnswers(l1, epoch, a, id);
    row := NextRow(l.row, jd);
    ReachesOn(l, Answering(epoch + 1, b), l1, Answering(epoch, a), l');
  }

  /** Each turn opens and installs; the second writes its row first, and the first writes over it. */
  function BothWrite(epoch: nat, t: Turn, a: AcquireId, c: Conn, id: SessionId, u: Turn, b: AcquireId, d: Conn, jd: SessionId)
    : seq<LaneEvent>
  {
    (TakingOver(epoch, t, a, c, id) + TakingOver(epoch + 1, u, b, d, jd)) + (Answering(epoch + 1, b) + Answering(epoch, a))
  }

  /** From any lane with two such turns: the row ends up with the older ticket's session. */
  lemma BothWriteDisagree(
      l: Lane, joined: AcquireId, t: Turn, a: AcquireId, c: Conn, id: SessionId, u: Turn, b: AcquireId, d: Conn,
      jd: SessionId)
    returns (l': Lane, row: Row)
    requires TicketsBehind(l.world) && l.world.healedAt <= l.world.hold.startSeq && BothSpent(l, t, u, joined)
    requires a != b && a != joined && b != joined && a !in l.acquires && b !in l.acquires
    requires c !in l.world.spawned && d !in l.world.spawned && c != d
    requires id !in l.world.usedIds && jd !in l.world.usedIds && id != jd
    ensures Reaches(l, BothWrite(l.world.hold.startSeq + 1, t, a, c, id, u, b, d, jd), l')
    ensures Disagrees(l', b, row)
  {
    var epoch := l.world.hold.startSeq + 1;
    var l2 := BothOpen(l, joined, t, a, c, id, u, b, d, jd);
    var l3, r := BothAnswer(l2, epoch, a, id, b, d, jd);
    l', row := l3, r;
    ReachesOn(l, TakingOver(epoch, t, a, c, id) + TakingOver(epoch + 1, u, b, d, jd), l2,
              Answering(epoch + 1, b) + Answering(epoch, a), l');
  }

  /**
   So the agreement of row, acquisition and hold is false of two foreground callers: from an empty lane, whatever
   the turns, attempts, connections and new sessions are.
   */
  lemma TwoForegroundCallersDisagree(
      boot: Turn, joined: AcquireId, t: Turn, a: AcquireId, c: Conn, id: SessionId, u: Turn, b: AcquireId, d: Conn,
      jd: SessionId)
    returns (row: Row)
    requires boot != t && boot != u && t != u && joined != a && joined != b && a != b && c != d && id != jd
    ensures var evs := BothPark(boot, joined, t, a, u, b) + BothWrite(2, t, a, c, id, u, b, d, jd);
      LaneRuns(INIT_LANE, evs) && Disagrees(LaneRun(INIT_LANE, evs), b, row)
  {
    var l := BothParkAndSpend(boot, joined, t, a, u, b);
    CreateStarts(INIT);
    var l', r := BothWriteDisagree(l, joined, t, a, c, id, u, b, d, jd);
    row := r;
    ReachesOn(INIT_LANE, BothPark(boot, joined, t, a, u, b), l, BothWrite(2, t, a, c, id, u, b, d, jd), l');
  }

  // One foreground caller.

  predicate IsForegroundCall(ev: LaneEvent) {
    ev.Call? && ev.foreground
  }

  /** A boot open fails while a foreground turn is parked on it. */
  function BootFails(joined: AcquireId): seq<LaneEvent> {
    ([Hold(OpenerFailed(1))] + [Hold(StartSettled(1))]) + ([Continue(joined)] + [Publish(joined)])
  }

  function OneForeground(boot: Turn, joined: AcquireId, t: Turn, a: AcquireId, later: Turn, b: AcquireId): seq<LaneEvent> {
    [BootCall(boot, joined)] + ([ForegroundCall(t, a)] + (BootFails(joined) +
    ([BootCall(later, b)] + ([ParkEnded(t)] + [TakeOver(t, a)]))))
  }

  lemma OneForegroundHasOne(boot: Turn, joined: AcquireId, t: Turn, a: AcquireId, later: Turn, b: AcquireId)
    ensures var evs := OneForeground(boot, joined, t, a, later, b);
      forall i, j | 0 <= i < j < |evs| && IsForegroundCall(evs[i]) :: !IsForegroundCall(evs[j])
  {
  }

  /** The only `start` of the lane throws. */
  lemma OpenerThrows(l: Lane) returns (l': Lane)
    requires l.world == StepStart(INIT, None)
    ensures Reaches(l, [Hold(OpenerFailed(1))] + [Hold(StartSettled(1))], l')
    ensures l' == l.(world := l'.world) && 1 in l'.world.settled && l'.world.settled[1] == Threw
    ensures l'.world.hold.startSeq == 1 && l'.world.healedAt == 0 && l'.world.spawned == {} && l'.world.usedIds == {}
    ensures TicketsBehind(l'.world)
  {
    var l1 := LaneStep(l, Hold(OpenerFailed(1)));
    l' := LaneStep(l1, Hold(StartSettled(1)));
    ReachesByOne(l1, Hold(StartSettled(1)));
    ReachesByOne(l, Hold(OpenerFailed(1)));
    ReachesOn(l, [Hold(OpenerFailed(1))], l1, [Hold(StartSettled(1))], l');
  }

  lemma AttemptRejected(l: Lane, joined: AcquireId) returns (l': Lane)
    requires 1 in l.world.settled && l.world.settled[1] == Threw
    requires joined in l.acquires && l.acquires[joined].phase == AwaitCreate(1) && l.acquires[joined].owner in l.turns
    requires l.cache == CacheState(Some(joined), {})
    ensures Reaches(l, [Continue(joined)] + [Publish(joined)], l')
    ensures l'.turns == l.turns && l'.cache == CacheState(None, {}) && l'.acquires.Keys == l.acquires.Keys
    ensures l'.world == l.world && l'.row == l.row
  {
    var l1 := LaneStep(l, Continue(joined));
    assert l1 == Decide(l, joined, Rejected);
    l' := LaneStep(l1, Publish(joined));
    ReachesByOne(l1, Publish(joined));
    ReachesByOne(l, Continue(joined));
    ReachesOn(l, [Continue(joined)], l1, [Publish(joined)], l');
  }

  /** The boot attempt is rejected and leaves the cache empty, with the foreground turn still parked. */
  lemma BootFailsFrees(l: Lane, joined: AcquireId) returns (l': Lane)
    requires l.world == StepStart(INIT, None)
    requires joined in l.acquires && l.acquires[joined].phase == AwaitCreate(1) && l.acquires[joined].owner in l.turns
    requires l.cache == CacheState(Some(joined), {})
    ensures Reaches(l, BootFails(joined), l')
    ensures l'.turns == l.turns && l'.cache == CacheState(None, {}) && l'.acquires.Keys == l.acquires.Keys
    ensures l'.world.hold.startSeq == 1 && l'.world.healedAt == 0 && l'.world.spawned == {} && l'.world.usedIds == {}
    ensures TicketsBehind(l'.world) && l'.row == l.row
  {
    var l1 := OpenerThrows(l);
    l' := AttemptRejected(l1, joined);
    ReachesOn(l, [Hold(OpenerFailed(1))] + [Hold(StartSettled(1))], l1, [Continue(joined)] + [Publish(joined)], l');
  }

  /** A later boot open enters the free cache, and the parked turn clears it. */
  lemma LaterBootIsCleared(l: Lane, joined: AcquireId, t: Turn, a: AcquireId, later: Turn, b: AcquireId) returns (l': Lane)
    requires InPhase(l, t, Parked(joined)) && !l.turns[t].aborted && later !in l.turns
    requires l.cache == CacheState(None, {}) && l.acquires.Keys == {joined}
    requires a != b && a != joined && b != joined
    ensures Reaches(l, [BootCall(later, b)] + ([ParkEnded(t)] + [TakeOver(t, a)]), l')
    ensures Live(l', a) && Live(l', b)
  {
    BootOpens(l, later, b);
    var l1 := LaneStep(l, BootCall(later, b));
    Spends(l1, t, joined);
    var l2 := LaneStep(l1, ParkEnded(t));
    TakesOver(l2, t, joined, a);
    l' := LaneStep(l2, TakeOver(t, a));
    ReachesByOne(l2, TakeOver(t, a));
    ReachesByOne(l1, ParkEnded(t));
    ReachesOn(l1, [ParkEnded(t)], l2, [TakeOver(t, a)], l');
    ReachesByOne(l, BootCall(later, b));
    ReachesOn(l, [BootCall(later, b)], l1, [ParkEnded(t)] + [TakeOver(t, a)], l');
  }

  /**
   One foreground caller is not enough: it parks on a boot open that fails, another boot open starts before the
   parked turn wakes, and the turn's take-over clears that one's entry and opens beside it.
   */
  lemma OneForegroundCallerBreaksSingleFlight(
      boot: Turn, joined: AcquireId, t: Turn, a: AcquireId, later: Turn, b: AcquireId)
    requires boot != t && boot != later && t != later && joined != a && joined != b && a != b
    ensures var evs := OneForeground(boot, joined, t, a, later, b);
      && (forall i, j | 0 <= i < j < |evs| && IsForegroundCall(evs[i]) :: !IsForegroundCall(evs[j]))
      && LaneRuns(INIT_LANE, evs)
      && var l := LaneRun(INIT_LANE, evs);
      Live(l, a) && Live(l, b) && !SingleFlight(l)
  {
    BootOpens(INIT_LANE, boot, joined);
    var l1 := LaneStep(INIT_LANE, BootCall(boot, joined));
    Parks(l1, t, a);
    var l2 := LaneStep(l1, ForegroundCall(t, a));
    var l3 := BootFailsFrees(l2, joined);
    var l4 := LaterBootIsCleared(l3, joined, t, a, later, b);
    var tail := [BootCall(later, b)] + ([ParkEnded(t)] + [TakeOver(t, a)]);
    ReachesOn(l2, BootFails(joined), l3, tail, l4);
    ReachesByOne(l1, ForegroundCall(t, a));
    ReachesOn(l1, [ForegroundCall(t, a)], l2, BootFails(joined) + tail, l4);
    ReachesByOne(INIT_LANE, BootCall(boot, joined));
    ReachesOn(INIT_LANE, [BootCall(boot, joined)], l1, [ForegroundCall(t, a)] + (BootFails(joined) + tail), l4);
    OneForegroundHasOne(boot, joined, t, a, later, b);
  }

  /** The later boot open is installed, the parked turn takes over and is too; then the turn writes, the boot over it. */
  function LaterBootWrites(
      t: Turn, a: AcquireId, d: Conn, jd: SessionId, later: Turn, b: AcquireId, c: Conn, id: SessionId): seq<LaneEvent>
  {
    (([BootCall(later, b)] + Opening(2, c, id)) + ([ParkEnded(t)] + TakingOver(3, t, a, d, jd))) +
    (Answering(3, a) + Answering(2, b))
  }

  lemma LaneBoots(l: Lane, later: Turn, b: AcquireId, c: Conn, id: SessionId) returns (l': Lane)
    requires CanStep(l, BootCall(later, b)) && l.cache == CacheState(None, {}) && TicketsBehind(l.world)
    requires l.world.hold.startSeq == 1 && c !in l.world.spawned && id !in l.world.usedIds
    ensures Reaches(l, [BootCall(later, b)] + Opening(2, c, id), l')
    ensures l'.acquires == l.acquires[b := Acquire(later, AwaitCreate(2))] && l'.cache == CacheState(Some(b), {})
    ensures l'.turns == l.turns[later := TurnState(false, false, false, Joining(b))] && l'.row == l.row
    ensures TicketsBehind(l'.world) && l'.world.hold.startSeq == 2 && l'.world.hold.pendingStarts > 0
    ensures 2 in l'.world.starts && l'.world.starts[2] == Settling(Created(id))
    ensures l'.world.spawned == l.world.spawned + {c} && l'.world.usedIds == l.world.usedIds + {id}
    ensures l'.world.healedAt == l.world.healedAt
  {
    BootOpens(l, later, b);
    CreateStarts(l.world);
    ReachesByOne(l, BootCall(later, b));
    var l1 := LaneStep(l, BootCall(later, b));
    l' := LaneInstalls(l1, 2, c, id);
    ReachesOn(l, [BootCall(later, b)], l1, Opening(2, c, id), l');
  }

  lemma ParkedTakesOver(l: Lane, turn: Turn, joined: AcquireId, a: AcquireId, conn: Conn, id: SessionId)
    returns (spent: Lane, l': Lane)
    requires TicketsBehind(l.world)
    requires InPhase(l, turn, Parked(joined)) && !l.turns[turn].aborted
    requires a !in l.acquires && a !in l.cache.superseded
    requires conn !in l.world.spawned && id !in l.world.usedIds
    ensures spent == l.(turns := l.turns[turn := l.turns[turn].(phase := BudgetSpent(joined))])
    ensures Reaches(l, [ParkEnded(turn)] + TakingOver(l.world.hold.startSeq + 1, turn, a, conn, id), l')
    ensures OpenedFor(spent, l', turn, joined, a, conn, id)
  {
    Spends(l, turn, joined);
    ReachesByOne(l, ParkEnded(turn));
    spent := l.(turns := l.turns[turn := l.turns[turn].(phase := BudgetSpent(joined))]);
    l' := TakesOverAndInstalls(spent, turn, joined, a, conn, id);
    ReachesOn(l, [ParkEnded(turn)], spent, TakingOver(l.world.hold.startSeq + 1, turn, a, conn, id), l');
  }

  /** The later boot open is in place, and the turn still parked. */
  ghost predicate BootInPlace(l: Lane, joined: AcquireId, t: Turn, later: Turn, b: AcquireId, c: Conn, id: SessionId) {
    && Awaits(l, 2, b, id) && l.acquires[b].owner == later && l.cache.superseded == {} && l.acquires.Keys == {joined, b}
    && l.world.hold.startSeq == 2 && l.world.hold.pendingStarts > 0 && l.world.healedAt == 0 && TicketsBehind(l.world)
    && l.world.spawned == {c} && l.world.usedIds == {id}
    && InPhase(l, t, Parked(joined)) && !l.turns[t].aborted
  }

  lemma BootsBeside(l: Lane, joined: AcquireId, t: Turn, later: Turn, b: AcquireId, c: Conn, id: SessionId)
    returns (l': Lane)
    requires InPhase(l, t, Parked(joined)) && !l.turns[t].aborted && CanStep(l, BootCall(later, b))
    requires l.cache == CacheState(None, {}) && l.acquires.Keys == {joined} && TicketsBehind(l.world)
    requires l.world.hold.startSeq == 1 && l.world.healedAt == 0 && l.world.spawned == {} && l.world.usedIds == {}
    ensures Reaches(l, [BootCall(later, b)] + Opening(2, c, id), l')
    ensures BootInPlace(l', joined, t, later, b, c, id)
  {
    l' := LaneBoots(l, later, b, c, id);
  }

  lemma ParkedOpensBeside(
      l: Lane, joined: AcquireId, t: Turn, a: AcquireId, d: Conn, jd: SessionId, later: Turn, b: AcquireId, c: Conn,
      id: SessionId)
    returns (l': Lane)
    requires BootInPlace(l, joined, t, later, b, c, id) && later != t
    requires a != b && a != joined && b != joined && c != d && id != jd
    ensures Reaches(l, [ParkEnded(t)] + TakingOver(3, t, a, d, jd), l')
    ensures BothAwait(l', 2, b, id, a, d, jd)
  {
    var spent, opens := ParkedTakesOver(l, t, joined, a, d, jd);
    l' := opens;
    LaterOpenedAwait(l, spent, l', joined, t, a, d, jd, later, b, id);
  }

  lemma LaterBootOpens(
      l: Lane, joined: AcquireId, t: Turn, a: AcquireId, d: Conn, jd: SessionId, later: Turn, b: AcquireId, c: Conn,
      id: SessionId)
    returns (l': Lane)
    requires InPhase(l, t, Parked(joined)) && !l.turns[t].aborted && CanStep(l, BootCall(later, b)) && later != t
    requires l.cache == CacheState(None, {}) && l.acquires.Keys == {joined} && TicketsBehind(l.world)
    requires l.world.hold.startSeq == 1 && l.world.healedAt == 0 && l.world.spawned == {} && l.world.usedIds == {}
    requires a != b && a != joined && b != joined && c != d && id != jd
    ensures Reaches(l, ([BootCall(later, b)] + Opening(2, c, id)) + ([ParkEnded(t)] + TakingOver(3, t, a, d, jd)), l')
    ensures BothAwait(l', 2, b, id, a, d, jd)
  {
    var l1 := BootsBeside(l, joined, t, later, b, c, id);
    l' := ParkedOpensBeside(l1, joined, t, a, d, jd, later, b, c, id);
    ReachesOn(l, [BootCall(later, b)] + Opening(2, c, id), l1, [ParkEnded(t)] + TakingOver(3, t, a, d, jd), l');
  }

  lemma LaterOpenedAwait(
      l1: Lane, spent: Lane, l': Lane, joined: AcquireId, t: Turn, a: AcquireId, d: Conn, jd: SessionId, later: Turn,
      b: AcquireId, id: SessionId)
    requires a != b && b != joined && a != joined && later != t
    requires Awaits(l1, 2, b, id) && l1.acquires[b].owner == later && l1.cache.superseded == {}
    requires l1.world.hold.startSeq == 2 && l1.world.hold.pendingStarts > 0 && l1.world.healedAt == 0
    requires InPhase(l1, t, Parked(joined)) && !l1.turns[t].aborted
    requires spent == l1.(turns := l1.turns[t := l1.turns[t].(phase := BudgetSpent(joined))])
    requires OpenedFor(spent, l', t, joined, a, d, jd)
    ensures BothAwait(l', 2, b, id, a, d, jd)
  {
  }

  function OneForegroundWrites(
      boot: Turn, joined: AcquireId, t: Turn, a: AcquireId, d: Conn, jd: SessionId, later: Turn, b: AcquireId, c: Conn,
      id: SessionId): seq<LaneEvent>
  {
    [BootCall(boot, joined)] + ([ForegroundCall(t, a)] + (BootFails(joined) +
    LaterBootWrites(t, a, d, jd, later, b, c, id)))
  }

  /** So is it of one: the turn acquires the newest session and has it held, and the row names the boot open's. */
  lemma OneForegroundCallerDisagrees(
      boot: Turn, joined: AcquireId, t: Turn, a: AcquireId, d: Conn, jd: SessionId, later: Turn, b: AcquireId, c: Conn,
      id: SessionId)
    returns (row: Row)
    requires boot != t && boot != later && t != later && joined != a && joined != b && a != b && c != d && id != jd
    ensures var evs := OneForegroundWrites(boot, joined, t, a, d, jd, later, b, c, id);
      LaneRuns(INIT_LANE, evs) && Disagrees(LaneRun(INIT_LANE, evs), a, row)
  {
    BootOpens(INIT_LANE, boot, joined);
    var l1 := LaneStep(INIT_LANE, BootCall(boot, joined));
    Parks(l1, t, a);
    var l2 := LaneStep(l1, ForegroundCall(t, a));
    var l3 := BootFailsFrees(l2, joined);
    var l4 := LaterBootOpens(l3, joined, t, a, d, jd, later, b, c, id);
    var l5, r := BothAnswer(l4, 2, b, id, a, d, jd);
    row := r;
    var opens := ([BootCall(later, b)] + Opening(2, c, id)) + ([ParkEnded(t)] + TakingOver(3, t, a, d, jd));
    var writes := LaterBootWrites(t, a, d, jd, later, b, c, id);
    ReachesOn(l3, opens, l4, Answering(3, a) + Answering(2, b), l5);
    ReachesOn(l2, BootFails(joined), l3, writes, l5);
    ReachesByOne(l1, ForegroundCall(t, a));
    ReachesOn(l1, [ForegroundCall(t, a)], l2, BootFails(joined) + writes, l5);
    ReachesByOne(INIT_LANE, BootCall(boot, joined));
    ReachesOn(INIT_LANE, [BootCall(boot, joined)], l1, [ForegroundCall(t, a)] + (BootFails(joined) + writes), l5);
  }
}
