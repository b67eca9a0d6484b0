/**
 Each segment of a turn and of its acquisition, told by what can be seen of it (src/chat/lane-acquire.ts,
 lane-carrier.ts): which `start` is called and with which session, what the durable row says, what the cache names,
 and where the turn goes.
 */
module LaneSegments {
  import opened Options
  import opened LaneHold
  import opened LaneHoldWorld
  import opened LaneTurns

  ghost predicate OthersStay(l: Lane, l': Lane, turn: Turn) {
    && (forall t | t != turn :: t in l'.turns <==> t in l.turns)
    && (forall t | t != turn && t in l.turns :: l'.turns[t] == l.turns[t])
  }

  /** Nothing but turns moved. */
  predicate OnlyTurns(l: Lane, l': Lane) {
    && l'.world == l.world && l'.row == l.row && l'.cache == l.cache && l'.acquires == l.acquires
    && l'.effects == l.effects && l'.issuer == l.issuer
  }

  /** One `start` was called for the attempt, with this session or with none, and nothing of the row moved. */
  ghost predicate Starts(l: Lane, l': Lane, turn: Turn, a: AcquireId, sessionId: Option<SessionId>) {
    var epoch := l.world.hold.startSeq + 1;
    && l'.world == Step(l.world, Start(sessionId))
    && epoch in l'.world.asked && l'.world.asked[epoch] == sessionId
    && epoch in l'.issuer && l'.issuer[epoch] == turn
    && a in l'.acquires && AwaitsStart(l'.acquires[a].phase) && l'.acquires[a].phase.epoch == epoch
    && l'.acquires[a].phase.AwaitResume? == sessionId.Some?
    && l'.effects == l.effects + [StartCalled(turn, a, epoch)]
    && l'.row == l.row
  }

  /**
   A call whose signal has fired ends at once; one that finds an attempt in flight waits for it, a foreground
   one against its budget.
   */
  lemma CallEndsOrWaits(l: Lane, ev: LaneEvent)
    requires ev.Call? && CanStep(l, ev) && (ev.aborted || l.cache.inFlight.Some?)
    ensures var l' := LaneStep(l, ev);
      && OnlyTurns(l, l') && OthersStay(l, l', ev.turn)
      && ev.turn in l'.turns
      && l'.turns[ev.turn] == TurnState(ev.foreground, ev.aborted, false,
           if ev.aborted then Over
           else if ev.foreground then Parked(l.cache.inFlight.value) else Joining(l.cache.inFlight.value))
  {
  }

  /** Any other call makes its own attempt the one in flight. */
  lemma CallBegins(l: Lane, ev: LaneEvent)
    requires ev.Call? && CanStep(l, ev) && !ev.aborted && l.cache.inFlight.None?
    ensures var l' := LaneStep(l, ev);
      && OthersStay(l, l', ev.turn)
      && ev.turn in l'.turns && l'.turns[ev.turn] == TurnState(ev.foreground, false, false, Joining(ev.acquire))
      && l'.cache == CacheState(Some(ev.acquire), l.cache.superseded)
      && ev.acquire in l'.acquires && l'.acquires[ev.acquire].owner == ev.turn
  {
  }

  /**
   It resumes the stored row, unless it was asked for a fresh session, there is none, or its binding changed, and
   creates otherwise.
   */
  lemma CallStartsExactly(l: Lane, ev: LaneEvent)
    requires ev.Call? && CanStep(l, ev) && !ev.aborted && l.cache.inFlight.None?
    ensures Starts(l, LaneStep(l, ev), ev.turn, ev.acquire,
                   if !ev.forceFresh && l.row.Some? && ev.bindingMatches then Some(l.row.value.sessionId) else None)
    ensures !ev.forceFresh && l.row.Some? && ev.bindingMatches ==>
      LaneStep(l, ev).acquires[ev.acquire].phase == AwaitResume(l.world.hold.startSeq + 1, l.row.value)
  {
  }

  /** A wait that is over leads on, to the session or past the budget, unless the signal fired meanwhile. */
  lemma ParkExactly(l: Lane, turn: Turn, won: bool)
    requires CanStep(l, if won then ParkWon(turn) else ParkEnded(turn))
    ensures var l' := LaneStep(l, if won then ParkWon(turn) else ParkEnded(turn));
      && OnlyTurns(l, l') && turn in l'.turns && OthersStay(l, l', turn)
      && l'.turns[turn] == l.turns[turn].(phase :=
           if l.turns[turn].aborted then Over
           else if won then Joining(l.turns[turn].phase.acquire) else BudgetSpent(l.turns[turn].phase.acquire))
  {
  }

  /**
   Past its budget a turn has the attempt it waited for stand down and makes one of its own. That one never resumes
   the stored row, and does not call `start` at all once the signal has fired.
   */
  lemma TakeOverExactly(l: Lane, turn: Turn, a: AcquireId)
    requires CanStep(l, TakeOver(turn, a))
    ensures var l' := LaneStep(l, TakeOver(turn, a));
      && l'.cache == CacheState(Some(a), l.cache.superseded + {l.turns[turn].phase.acquire})
      && turn in l'.turns && OthersStay(l, l', turn) && l'.turns[turn] == l.turns[turn].(phase := Joining(a))
      && a in l'.acquires && l'.acquires[a].owner == turn && l'.row == l.row
      && if l.turns[turn].aborted then
           l'.acquires[a].phase == Decided(Rejected) && l'.effects == l.effects && l'.world == l.world
         else Starts(l, l', turn, a, None)
  {
  }

  /** What an attempt may still do once its `start` has answered. */
  predicate StandsDown(l: Lane, a: AcquireId)
    requires CanStep(l, Continue(a))
  {
    || l.world.settled[l.acquires[a].phase.epoch].Threw?
    || l.turns[l.acquires[a].owner].aborted
    || a in l.cache.superseded
  }

  /**
   When its `start` has thrown, its turn's signal has fired or it was superseded, an attempt fails and leaves
   everything as it is.
   */
  lemma ContinueStandsDown(l: Lane, a: AcquireId)
    requires CanStep(l, Continue(a)) && StandsDown(l, a)
    ensures var l' := LaneStep(l, Continue(a));
      l' == l.(acquires := l.acquires[a := Acquire(l.acquires[a].owner, Decided(Rejected))])
  {
  }

  /** A resume that came back gives the row it was asked to resume; one that failed goes on to create. */
  lemma ContinueResumesExactly(l: Lane, a: AcquireId)
    requires CanStep(l, Continue(a)) && !StandsDown(l, a) && l.acquires[a].phase.AwaitResume?
    ensures var l', acquire := LaneStep(l, Continue(a)), l.acquires[a];
      && l'.turns == l.turns && l'.cache == l.cache && l'.row == l.row
      && l'.acquires[a].owner == acquire.owner
      && if l.world.settled[acquire.phase.epoch].Resumed? then
           && l'.acquires[a].phase == Decided(Acquired(acquire.phase.stored, acquire.phase.epoch))
           && l'.effects == l.effects + [RowTouched(acquire.owner, a)] && l'.world == l.world
         else Starts(l, l', acquire.owner, a, None)
  {
  }

  /** A create that came back writes its session as the next generation of the row, and gives that row. */
  lemma ContinueCreatesExactly(l: Lane, a: AcquireId)
    requires CanStep(l, Continue(a)) && !StandsDown(l, a) && l.acquires[a].phase.AwaitCreate?
    ensures var l', acquire := LaneStep(l, Continue(a)), l.acquires[a];
      var result := l.world.settled[acquire.phase.epoch];
      && l'.turns == l.turns && l'.cache == l.cache && l'.world == l.world
      && l'.acquires[a].owner == acquire.owner
      && if result.Created? then
           && l'.row.Some? && l'.row.value.sessionId == result.sessionId
           && l'.row.value.generation == (if l.row.None? then 1 else l.row.value.generation + 1)
           && l'.acquires[a].phase == Decided(Acquired(l'.row.value, acquire.phase.epoch))
           && l'.effects == l.effects + [RowWritten(acquire.owner, a, l'.row.value)]
         else l'.row == l.row && l'.effects == l.effects && l'.acquires[a].phase == Decided(Rejected)
  {
  }

  /** An attempt that is over tells everyone what it decided, and leaves the cache to whoever else is in it. */
  lemma PublishExactly(l: Lane, a: AcquireId)
    requires CanStep(l, Publish(a))
    ensures var l' := LaneStep(l, Publish(a));
      && l'.acquires == l.acquires[a := Acquire(l.acquires[a].owner, Published(l.acquires[a].phase.outcome))]
      && l'.cache == CacheState(if l.cache.inFlight == Some(a) then None else l.cache.inFlight, l.cache.superseded)
      && l'.turns == l.turns && l'.row == l.row && l'.effects == l.effects && l'.world == l.world
  {
  }

  /** A signal reaches its turn and nothing else, and what happens to the connection reaches the connection alone. */
  lemma AbortExactly(l: Lane, turn: Turn)
    requires CanStep(l, Abort(turn))
    ensures var l' := LaneStep(l, Abort(turn));
      && OnlyTurns(l, l') && OthersStay(l, l', turn)
      && turn in l'.turns && l'.turns[turn] == l.turns[turn].(aborted := true)
  {
  }

  lemma HoldExactly(l: Lane, ev: Event)
    requires CanStep(l, Hold(ev))
    ensures var l' := LaneStep(l, Hold(ev));
      && l'.world == Step(l.world, ev)
      && l'.row == l.row && l'.cache == l.cache && l'.acquires == l.acquires && l'.turns == l.turns
      && l'.issuer == l.issuer && l'.effects == l.effects
  {
  }

  // Over a whole run.

  /** The last row written, if any was. */
  function LastWritten(effects: seq<Effect>): Option<Row> {
    if effects == [] then None
    else if effects[|effects| - 1].RowWritten? then Some(effects[|effects| - 1].row)
    else LastWritten(effects[..|effects| - 1])
  }

  function TimesWritten(effects: seq<Effect>): nat {
    if effects == [] then 0
    else TimesWritten(effects[..|effects| - 1]) + if effects[|effects| - 1].RowWritten? then 1 else 0
  }

  ghost predicate RowFollows(l: Lane) {
    && l.row == LastWritten(l.effects)
    && TimesWritten(l.effects) == if l.row.Some? then l.row.value.generation else 0
  }

  lemma OneMore(effects: seq<Effect>, e: Effect)
    ensures LastWritten(effects + [e]) == if e.RowWritten? then Some(e.row) else LastWritten(effects)
    ensures TimesWritten(effects + [e]) == TimesWritten(effects) + if e.RowWritten? then 1 else 0
  {
    assert (effects + [e])[..|effects|] == effects;
  }

  lemma Unwritten(effects: seq<Effect>, more: seq<Effect>)
    requires forall i | 0 <= i < |more| :: !more[i].RowWritten?
    ensures LastWritten(effects + more) == LastWritten(effects)
    ensures TimesWritten(effects + more) == TimesWritten(effects)
    decreases |more|
  {
    if more == [] {
      assert effects + more == effects;
    } else {
      var n := |more| - 1;
      assert effects + more == effects + more[..n] + [more[n]];
      Unwritten(effects, more[..n]);
      OneMore(effects + more[..n], more[n]);
    }
  }

  lemma WrittenRowFollows(l: Lane, l': Lane, owner: Turn, a: AcquireId)
    requires RowFollows(l) && l'.row.Some? && l'.effects == l.effects + [RowWritten(owner, a, l'.row.value)]
    requires l'.row.value.generation == if l.row.None? then 1 else l.row.value.generation + 1
    ensures RowFollows(l')
  {
    OneMore(l.effects, RowWritten(owner, a, l'.row.value));
  }

  lemma OtherEffectFollows(l: Lane, l': Lane, e: Effect)
    requires RowFollows(l) && l'.row == l.row && !e.RowWritten? && l'.effects == l.effects + [e]
    ensures RowFollows(l')
  {
    OneMore(l.effects, e);
  }

  lemma ContinueFollows(l: Lane, a: AcquireId)
    requires RowFollows(l) && CanStep(l, Continue(a))
    ensures RowFollows(LaneStep(l, Continue(a)))
  {
    var l', acquire := LaneStep(l, Continue(a)), l.acquires[a];
    if StandsDown(l, a) {
      ContinueStandsDown(l, a);
    } else if acquire.phase.AwaitResume? {
      ContinueResumesExactly(l, a);
      OtherEffectFollows(l, l', l'.effects[|l.effects|]);
    } else {
      ContinueCreatesExactly(l, a);
      if l.world.settled[acquire.phase.epoch].Created? {
        WrittenRowFollows(l, l', acquire.owner, a);
      }
    }
  }

  lemma CallFollows(l: Lane, ev: LaneEvent)
    requires RowFollows(l) && ev.Call? && CanStep(l, ev)
    ensures RowFollows(LaneStep(l, ev))
  {
    if ev.aborted || l.cache.inFlight.Some? {
      CallEndsOrWaits(l, ev);
    } else {
      CallStartsExactly(l, ev);
      OtherEffectFollows(l, LaneStep(l, ev), StartCalled(ev.turn, ev.acquire, l.world.hold.startSeq + 1));
    }
  }

  lemma TakeOverFollows(l: Lane, turn: Turn, a: AcquireId)
    requires RowFollows(l) && CanStep(l, TakeOver(turn, a))
    ensures RowFollows(LaneStep(l, TakeOver(turn, a)))
  {
    TakeOverExactly(l, turn, a);
    if !l.turns[turn].aborted {
      OtherEffectFollows(l, LaneStep(l, TakeOver(turn, a)), StartCalled(turn, a, l.world.hold.startSeq + 1));
    }
  }

  /** What sends and returns leave behind is no row. */
  lemma SendFollows(l: Lane, ev: LaneEvent)
    requires RowFollows(l) && CanStep(l, ev) && (ev.Proceed? || ev.SendReturned?)
    ensures RowFollows(LaneStep(l, ev))
  {
    var l' := LaneStep(l, ev);
    assert l.effects <= l'.effects;
    var more := l'.effects[|l.effects|..];
    assert l'.effects == l.effects + more;
    Unwritten(l.effects, more);
  }

  lemma StepFollows(l: Lane, ev: LaneEvent)
    requires RowFollows(l) && CanStep(l, ev)
    ensures RowFollows(LaneStep(l, ev))
  {
    match ev
    case Call(_, _, _, _, _, _) => CallFollows(l, ev);
    case TakeOver(turn, a) => TakeOverFollows(l, turn, a);
    case Continue(a) => ContinueFollows(l, a);
    case Proceed(_) => SendFollows(l, ev);
    case SendReturned(_, _) => SendFollows(l, ev);
    case _ =>
  }

  lemma {:induction false} RunFollows(l: Lane, evs: seq<LaneEvent>)
    requires RowFollows(l) && LaneRuns(l, evs)
    ensures RowFollows(LaneRun(l, evs))
    decreases |evs|
  {
    if evs != [] {
      StepFollows(l, evs[0]);
      RunFollows(LaneStep(l, evs[0]), evs[1..]);
    }
  }

  /** Over every run the durable row is the last one written, and its generation is how often one was. */
  lemma RowIsLastWritten(evs: seq<LaneEvent>)
    requires LaneRuns(INIT_LANE, evs)
    ensures var l := LaneRun(INIT_LANE, evs);
      && l.row == LastWritten(l.effects)
      && TimesWritten(l.effects) == if l.row.Some? then l.row.value.generation else 0
  {
    RunFollows(INIT_LANE, evs);
  }
}
