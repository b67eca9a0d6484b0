/**
 What the turns of a lane do send (src/chat/lane-carrier.ts, `runCarrierTurn`): a prompt leaves for a foreground turn
 that acquired a session and was not stopped, once, behind its own attempt row, and for no other.
 */
module LaneSends {
  import opened Options
  import opened LaneHold
  import opened LaneHoldWorld
  import opened LaneTurns

  /** A prompt has its turn's attempt row right in front of it, and an attempt row its prompt right behind. */
  ghost predicate SendsPaired(l: Lane) {
    && (forall i | 0 <= i < |l.effects| && l.effects[i].PromptSent? ::
          i > 0 && l.effects[i - 1] == AttemptWritten(l.effects[i].turn))
    && (forall i | 0 <= i < |l.effects| && l.effects[i].AttemptWritten? ::
          i + 1 < |l.effects| && l.effects[i + 1] == PromptSent(l.effects[i].turn))
  }

  /** No turn sends twice. */
  ghost predicate SendsOnce(l: Lane) {
    forall i, j | 0 <= i < j < |l.effects| && l.effects[i].PromptSent? :: l.effects[i] != l.effects[j]
  }

  /** What a turn's own state says of the prompt it sent and of what came of it. */
  ghost predicate TurnAccounted(l: Lane, t: Turn) {
    && (PromptSent(t) in l.effects <==> t in l.turns && l.turns[t].sent)
    && (t in l.turns && l.turns[t].sent ==>
          l.turns[t].foreground && (l.turns[t].phase.Sending? || l.turns[t].phase.Over?))
    && (t in l.turns && l.turns[t].phase.Sending? ==> l.turns[t].sent)
    && (CursorAdvanced(t) in l.effects || AttemptMarked(t) in l.effects ==>
          t in l.turns && l.turns[t].sent && l.turns[t].phase.Over?)
    && (AttemptMarked(t) in l.effects ==> l.turns[t].aborted && CursorAdvanced(t) in l.effects)
  }

  ghost predicate SendsSound(l: Lane) {
    SendsPaired(l) && SendsOnce(l) && forall t: Turn :: TurnAccounted(l, t)
  }

  predicate IsSend(e: Effect) {
    e.AttemptWritten? || e.PromptSent? || e.AttemptMarked? || e.CursorAdvanced?
  }

  /** A turn that joined an acquisition goes on to send if and only if it is a real one, unstopped, with a session. */
  predicate MaySend(l: Lane, turn: Turn)
    requires CanStep(l, Proceed(turn))
  {
    && l.turns[turn].foreground && !l.turns[turn].aborted
    && l.acquires[l.turns[turn].phase.acquire].phase.outcome.Acquired?
  }

  lemma ProceedSendsExactly(l: Lane, turn: Turn)
    requires CanStep(l, Proceed(turn))
    ensures var l' := LaneStep(l, Proceed(turn));
      && l'.effects == l.effects + (if MaySend(l, turn) then [AttemptWritten(turn), PromptSent(turn)] else [])
      && turn in l'.turns && l'.turns[turn].aborted == l.turns[turn].aborted
      && l'.turns[turn].foreground == l.turns[turn].foreground
      && (if MaySend(l, turn) then l'.turns[turn].phase.Sending? && l'.turns[turn].sent
          else l'.turns[turn].phase.Over? && l'.turns[turn].sent == l.turns[turn].sent)
      && (forall t | t != turn :: t in l'.turns <==> t in l.turns)
      && (forall t | t != turn && t in l.turns :: l'.turns[t] == l.turns[t])
  {
  }

  lemma ReturnRecordsExactly(l: Lane, turn: Turn, accepted: bool)
    requires CanStep(l, SendReturned(turn, accepted))
    ensures var l' := LaneStep(l, SendReturned(turn, accepted));
      && l'.effects == l.effects + (if accepted && l.turns[turn].aborted then [AttemptMarked(turn)] else []) +
                       (if accepted then [CursorAdvanced(turn)] else [])
      && turn in l'.turns && l'.turns[turn] == l.turns[turn].(phase := Over)
      && (forall t | t != turn :: t in l'.turns <==> t in l.turns)
      && (forall t | t != turn && t in l.turns :: l'.turns[t] == l.turns[t])
  {
  }

  // Segments that send nothing.

  /** A turn that was there keeps what it sent; a new one has sent nothing; only its signal and its joining move. */
  ghost predicate KeepsTurns(l: Lane, l': Lane) {
    && (forall t | t in l.turns ::
          && t in l'.turns && l'.turns[t].sent == l.turns[t].sent && l'.turns[t].foreground == l.turns[t].foreground
          && (l.turns[t].aborted ==> l'.turns[t].aborted)
          && (l.turns[t].phase.Sending? || l.turns[t].phase.Over? ==> l'.turns[t].phase == l.turns[t].phase)
          && (!l.turns[t].phase.Sending? ==> !l'.turns[t].phase.Sending?))
    && (forall t | t in l'.turns && t !in l.turns :: !l'.turns[t].sent && !l'.turns[t].phase.Sending?)
  }

  ghost predicate SendsNothing(l: Lane, l': Lane) {
    l.effects <= l'.effects && forall i | |l.effects| <= i < |l'.effects| :: !IsSend(l'.effects[i])
  }

  lemma StartAcquireQuiet(l: Lane, turn: Turn, a: AcquireId, forceFresh: bool, bindingMatches: bool)
    requires turn in l.turns && !l.turns[turn].sent && !l.turns[turn].phase.Sending?
    ensures var l' := StartAcquire(l, turn, a, forceFresh, bindingMatches);
      && SendsNothing(l, l')
      && l'.turns == l.turns[turn := l.turns[turn].(phase := Joining(a))]
  {
  }

  lemma ContinueQuiet(l: Lane, a: AcquireId)
    requires CanStep(l, Continue(a))
    ensures SendsNothing(l, StepContinue(l, a)) && StepContinue(l, a).turns == l.turns
  {
  }

  /** The turn as its call finds it, before it waits or starts anything. */
  function Entered(l: Lane, ev: LaneEvent): Lane
    requires ev.Call?
  {
    l.(turns := l.turns[ev.turn := TurnState(ev.foreground, ev.aborted, false, Over)])
  }

  lemma EnteredQuiet(l: Lane, ev: LaneEvent, phase: TurnPhase)
    requires ev.Call? && ev.turn !in l.turns && !phase.Sending?
    ensures KeepsTurns(l, Entered(l, ev)) && KeepsTurns(l, Move(Entered(l, ev), ev.turn, phase))
  {
  }

  lemma CallQuiet(l: Lane, ev: LaneEvent)
    requires ev.Call? && CanStep(l, ev)
    ensures SendsNothing(l, StepCall(l, ev)) && KeepsTurns(l, StepCall(l, ev))
  {
    var entered := Entered(l, ev);
    if ev.aborted {
      EnteredQuiet(l, ev, Over);
    } else if l.cache.inFlight.Some? {
      EnteredQuiet(l, ev, Parked(l.cache.inFlight.value));
      EnteredQuiet(l, ev, Joining(l.cache.inFlight.value));
    } else {
      EnteredQuiet(l, ev, Joining(ev.acquire));
      StartAcquireQuiet(entered, ev.turn, ev.acquire, ev.forceFresh, ev.bindingMatches);
    }
  }

  lemma TakeOverQuiet(l: Lane, turn: Turn, a: AcquireId)
    requires TurnAccounted(l, turn) && CanStep(l, TakeOver(turn, a))
    ensures SendsNothing(l, StepTakeOver(l, turn, a)) && KeepsTurns(l, StepTakeOver(l, turn, a))
  {
    StartAcquireQuiet(l.(cache := StandDown(l.cache, l.turns[turn].phase.acquire)), turn, a, true, false);
  }

  lemma OthersQuiet(l: Lane, ev: LaneEvent)
    requires (forall t: Turn :: TurnAccounted(l, t)) && CanStep(l, ev) && !ev.Proceed? && !ev.SendReturned?
    ensures SendsNothing(l, LaneStep(l, ev)) && KeepsTurns(l, LaneStep(l, ev))
  {
    if ev.Call? {
      CallQuiet(l, ev);
    } else if ev.TakeOver? {
      assert TurnAccounted(l, ev.turn);
      TakeOverQuiet(l, ev.turn, ev.acquire);
    } else if ev.Continue? {
      ContinueQuiet(l, ev.acquire);
    }
  }

  lemma QuietKeepsPairs(l: Lane, l': Lane)
    requires SendsPaired(l) && SendsOnce(l) && SendsNothing(l, l')
    ensures SendsPaired(l') && SendsOnce(l')
  {
    forall i | 0 <= i < |l'.effects| && IsSend(l'.effects[i])
      ensures i < |l.effects| && l'.effects[i] == l.effects[i]
    {
    }
  }

  /** A send recorded later was recorded before. */
  lemma QuietHas(l: Lane, l': Lane, e: Effect)
    requires SendsNothing(l, l') && IsSend(e)
    ensures e in l'.effects <==> e in l.effects
  {
    if e in l'.effects {
      var i :| 0 <= i < |l'.effects| && l'.effects[i] == e;
      assert i < |l.effects| && l.effects[i] == e;
    }
    if e in l.effects {
      var i :| 0 <= i < |l.effects| && l.effects[i] == e;
      assert l'.effects[i] == e;
    }
  }

  lemma QuietKeepsTurn(l: Lane, l': Lane, t: Turn)
    requires TurnAccounted(l, t) && SendsNothing(l, l') && KeepsTurns(l, l')
    ensures TurnAccounted(l', t)
  {
    QuietHas(l, l', PromptSent(t));
    QuietHas(l, l', CursorAdvanced(t));
    QuietHas(l, l', AttemptMarked(t));
  }

  lemma Appended(effects: seq<Effect>, more: seq<Effect>, e: Effect)
    ensures e in effects + more <==> e in effects || e in more
  {
  }

  /** A turn that sends does so for the first time. */
  lemma SendKeepsPairs(l: Lane, l': Lane, turn: Turn)
    requires SendsPaired(l) && SendsOnce(l) && PromptSent(turn) !in l.effects
    requires l'.effects == l.effects + [AttemptWritten(turn), PromptSent(turn)]
    ensures SendsPaired(l') && SendsOnce(l')
  {
    var n := |l.effects|;
    assert l'.effects[n] == AttemptWritten(turn) && l'.effects[n + 1] == PromptSent(turn);
    forall i, j | 0 <= i < j < |l'.effects| && l'.effects[i].PromptSent?
      ensures l'.effects[i] != l'.effects[j]
    {
      assert i < n && l'.effects[i] == l.effects[i] && l.effects[i] in l.effects;
    }
  }

  lemma ProceedKeeps(l: Lane, turn: Turn)
    requires SendsSound(l) && CanStep(l, Proceed(turn))
    ensures SendsSound(LaneStep(l, Proceed(turn)))
  {
    var l' := LaneStep(l, Proceed(turn));
    var more := if MaySend(l, turn) then [AttemptWritten(turn), PromptSent(turn)] else [];
    ProceedSendsExactly(l, turn);
    assert TurnAccounted(l, turn);
    if MaySend(l, turn) {
      SendKeepsPairs(l, l', turn);
    } else {
      assert l'.effects == l.effects;
    }
    forall t: Turn
      ensures TurnAccounted(l', t)
    {
      assert TurnAccounted(l, t);
      Appended(l.effects, more, PromptSent(t));
      Appended(l.effects, more, CursorAdvanced(t));
      Appended(l.effects, more, AttemptMarked(t));
    }
  }

  lemma ReturnKeeps(l: Lane, turn: Turn, accepted: bool)
    requires SendsSound(l) && CanStep(l, SendReturned(turn, accepted))
    ensures SendsSound(LaneStep(l, SendReturned(turn, accepted)))
  {
    var l' := LaneStep(l, SendReturned(turn, accepted));
    ReturnRecordsExactly(l, turn, accepted);
    var marked := if accepted && l.turns[turn].aborted then [AttemptMarked(turn)] else [];
    var advanced := if accepted then [CursorAdvanced(turn)] else [];
    ReturnKeepsPairs(l, l', marked, advanced);
    forall t: Turn
      ensures TurnAccounted(l', t)
    {
      assert TurnAccounted(l, t) && TurnAccounted(l, turn);
      ReturnHas(l.effects, marked, advanced, PromptSent(t));
      ReturnHas(l.effects, marked, advanced, CursorAdvanced(t));
      ReturnHas(l.effects, marked, advanced, AttemptMarked(t));
    }
  }

  lemma ReturnHas(effects: seq<Effect>, marked: seq<Effect>, advanced: seq<Effect>, e: Effect)
    ensures e in effects + marked + advanced <==> e in effects || e in marked || e in advanced
  {
    Appended(effects + marked, advanced, e);
    Appended(effects, marked, e);
  }

  lemma ReturnKeepsPairs(l: Lane, l': Lane, marked: seq<Effect>, advanced: seq<Effect>)
    requires SendsPaired(l) && SendsOnce(l) && l'.effects == l.effects + marked + advanced
    requires forall i | 0 <= i < |marked| :: marked[i].AttemptMarked?
    requires forall i | 0 <= i < |advanced| :: advanced[i].CursorAdvanced?
    ensures SendsPaired(l') && SendsOnce(l')
  {
    forall i | 0 <= i < |l'.effects| && (l'.effects[i].PromptSent? || l'.effects[i].AttemptWritten?)
      ensures i < |l.effects| && l'.effects[i] == l.effects[i]
    {
    }
    forall i | 0 <= i < |l.effects|
      ensures l'.effects[i] == l.effects[i]
    {
    }
  }

  lemma StepKeepsSends(l: Lane, ev: LaneEvent)
    requires SendsSound(l) && CanStep(l, ev)
    ensures SendsSound(LaneStep(l, ev))
  {
    if ev.Proceed? {
      ProceedKeeps(l, ev.turn);
    } else if ev.SendReturned? {
      ReturnKeeps(l, ev.turn, ev.accepted);
    } else {
      var l' := LaneStep(l, ev);
      OthersQuiet(l, ev);
      QuietKeepsPairs(l, l');
      forall t: Turn
        ensures TurnAccounted(l', t)
      {
        assert TurnAccounted(l, t);
        QuietKeepsTurn(l, l', t);
      }
    }
  }

  lemma {:induction false} RunKeepsSends(l: Lane, evs: seq<LaneEvent>)
    requires SendsSound(l) && LaneRuns(l, evs)
    ensures SendsSound(LaneRun(l, evs))
    decreases |evs|
  {
    if evs != [] {
      StepKeepsSends(l, evs[0]);
      RunKeepsSends(LaneStep(l, evs[0]), evs[1..]);
    }
  }

  lemma EmptyIsSound()
    ensures SendsSound(INIT_LANE)
  {
    forall t: Turn
      ensures TurnAccounted(INIT_LANE, t)
    {
    }
  }

  /**
   Over every run: a prompt is sent for foreground turns only, at most once each, and directly behind the turn's
   own attempt row; and no attempt row is written without its prompt.
   */
  lemma PromptsSentOnce(evs: seq<LaneEvent>)
    requires LaneRuns(INIT_LANE, evs)
    ensures SendsPaired(LaneRun(INIT_LANE, evs)) && SendsOnce(LaneRun(INIT_LANE, evs))
    ensures var l := LaneRun(INIT_LANE, evs);
      forall t: Turn | PromptSent(t) in l.effects || AttemptWritten(t) in l.effects ::
        t in l.turns && l.turns[t].foreground
  {
    EmptyIsSound();
    RunKeepsSends(INIT_LANE, evs);
    ForegroundOnly(LaneRun(INIT_LANE, evs));
  }

  lemma AttemptHasPrompt(l: Lane, turn: Turn)
    requires SendsPaired(l)
    ensures AttemptWritten(turn) in l.effects ==> PromptSent(turn) in l.effects
  {
    if AttemptWritten(turn) in l.effects {
      var i :| 0 <= i < |l.effects| && l.effects[i] == AttemptWritten(turn);
      assert l.effects[i + 1] == PromptSent(turn);
    }
  }

  lemma ForegroundOnly(l: Lane)
    requires SendsSound(l)
    ensures forall t: Turn | PromptSent(t) in l.effects || AttemptWritten(t) in l.effects ::
      t in l.turns && l.turns[t].foreground
  {
    forall t: Turn | PromptSent(t) in l.effects || AttemptWritten(t) in l.effects
      ensures t in l.turns && l.turns[t].foreground
    {
      assert TurnAccounted(l, t);
      AttemptHasPrompt(l, t);
    }
  }

  /**
   Over every run: a turn that has its session sends in its next segment if and only if it is a foreground turn
   whose signal has not fired, and then it writes its attempt row and sends its prompt, for the first time.
   */
  lemma LiveTurnSends(evs: seq<LaneEvent>, turn: Turn)
    requires LaneRuns(INIT_LANE, evs) && CanStep(LaneRun(INIT_LANE, evs), Proceed(turn))
    ensures var l := LaneRun(INIT_LANE, evs);
      var l' := LaneStep(l, Proceed(turn));
      && PromptSent(turn) !in l.effects && AttemptWritten(turn) !in l.effects
      && l'.effects == l.effects + (
           if l.turns[turn].foreground && !l.turns[turn].aborted &&
              l.acquires[l.turns[turn].phase.acquire].phase.outcome.Acquired?
           then [AttemptWritten(turn), PromptSent(turn)] else [])
  {
    EmptyIsSound();
    RunKeepsSends(INIT_LANE, evs);
    FirstSend(LaneRun(INIT_LANE, evs), turn);
    ProceedSendsExactly(LaneRun(INIT_LANE, evs), turn);
  }

  lemma FirstSend(l: Lane, turn: Turn)
    requires SendsSound(l) && CanStep(l, Proceed(turn))
    ensures PromptSent(turn) !in l.effects && AttemptWritten(turn) !in l.effects
  {
    assert TurnAccounted(l, turn);
    AttemptHasPrompt(l, turn);
  }

  /**
   Over every run: once a send returns, its cursor was advanced if and only if it was accepted, and its attempt is
   marked as answered through a stop if and only if it was accepted with the signal fired.
   */
  lemma ReturnedSendIsRecorded(evs: seq<LaneEvent>, turn: Turn, accepted: bool)
    requires LaneRuns(INIT_LANE, evs) && CanStep(LaneRun(INIT_LANE, evs), SendReturned(turn, accepted))
    ensures var l := LaneRun(INIT_LANE, evs);
      var l' := LaneStep(l, SendReturned(turn, accepted));
      && PromptSent(turn) in l.effects && l'.turns[turn].phase.Over?
      && (CursorAdvanced(turn) in l'.effects <==> accepted)
      && (AttemptMarked(turn) in l'.effects <==> accepted && l.turns[turn].aborted)
  {
    EmptyIsSound();
    RunKeepsSends(INIT_LANE, evs);
    ReturnIsExact(LaneRun(INIT_LANE, evs), turn, accepted);
  }

  lemma ReturnIsExact(l: Lane, turn: Turn, accepted: bool)
    requires SendsSound(l) && CanStep(l, SendReturned(turn, accepted))
    ensures var l' := LaneStep(l, SendReturned(turn, accepted));
      && PromptSent(turn) in l.effects && l'.turns[turn].phase.Over?
      && (CursorAdvanced(turn) in l'.effects <==> accepted)
      && (AttemptMarked(turn) in l'.effects <==> accepted && l.turns[turn].aborted)
  {
    assert TurnAccounted(l, turn);
    ReturnRecordsExactly(l, turn, accepted);
    var marked := if accepted && l.turns[turn].aborted then [AttemptMarked(turn)] else [];
    var advanced := if accepted then [CursorAdvanced(turn)] else [];
    ReturnHas(l.effects, marked, advanced, CursorAdvanced(turn));
    ReturnHas(l.effects, marked, advanced, AttemptMarked(turn));
  }
}
