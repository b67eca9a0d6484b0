/**
 Turns of one lane delivering the ledger (src/chat/lane-carrier.ts, `runCarrierTurn`), in any interleaving and
 with any of them failing, crashing or being overtaken by a new generation.

 Two things are recorded that the program does not: `told`, what each generation's accepted prompts carried,
 and `briefed`, which generations accepted a briefing.
 */
module Delivery {
  import opened Options
  import opened CarrierDelta
  import opened LaneState

  type TurnId = AttemptId

  /** `carried`: the entries the prompt shows or summarizes. */
  datatype Prompt = Prompt(base: int, lastSeq: int, carried: set<Entry>, briefing: bool)

  datatype TurnPhase =
    | Acquired(session: Session, created: bool)
    | Sending(session: Session, prompt: Prompt)
    | Committing(session: Session, prompt: Prompt)
    | Over

  datatype Lane = Lane(
    store: Store,
    ledger: seq<Entry>,
    turns: map<TurnId, TurnPhase>,
    told: map<nat, set<Entry>>,
    briefed: set<nat>)

  const INIT_LANE := Lane(EMPTY_STORE, [], map[], map[], {})

  datatype Event =
    | Mint(entry: Entry)
    | Create(turn: TurnId, sessionId: nat)
    | Resume(turn: TurnId)
    | Join(turn: TurnId, other: TurnId)   // a second caller of one acquisition gets the same answer
    | Stop(turn: TurnId)
    | Send(turn: TurnId, cursorReadable: bool, operatorBytes: nat, briefingReady: bool, boundary: int)
    | Answered(turn: TurnId, accepted: bool)
    | Commit(turn: TurnId, busy: bool)    // busy: the retry ladder ran out
    | Compact                             // the detector found the agent's context compacted, or long not briefed

  predicate CanStep(l: Lane, ev: Event) {
    match ev
    case Mint(entry) => entry.seqNo >= 1 && (l.ledger == [] || l.ledger[|l.ledger| - 1].seqNo < entry.seqNo)
    case Create(turn, _) => turn !in l.turns
    case Resume(turn) => turn !in l.turns && l.store.session.Some?
    case Join(turn, other) => turn !in l.turns && other in l.turns && l.turns[other].Acquired?
    case Stop(turn) => turn in l.turns && l.turns[turn].Acquired?
    case Send(turn, _, _, _, _) => turn in l.turns && l.turns[turn].Acquired?
    case Answered(turn, _) => turn in l.turns && l.turns[turn].Sending?
    case Commit(turn, _) => turn in l.turns && l.turns[turn].Committing?
    case Compact => true
  }

  /** A fresh generation composes from 0, and so does one whose cursor cannot be read. */
  function BaseSeq(l: Lane, created: bool, cursorReadable: bool): int {
    if created || !cursorReadable || l.store.cursor.None? then 0 else l.store.cursor.value.lastSeq
  }

  predicate CarriesBriefing(l: Lane, cursorReadable: bool, briefingReady: bool) {
    briefingReady && (!cursorReadable || l.store.cursor.None? || l.store.cursor.value.needsBriefing)
  }

  function Composing(l: Lane, ev: Event): Prompt
    requires ev.Send? && CanStep(l, ev)
  {
    var created := l.turns[ev.turn].created;
    var briefing := CarriesBriefing(l, ev.cursorReadable, ev.briefingReady);
    var base := BaseSeq(l, created, ev.cursorReadable);
    var composed := ComposeCarrierDelta(l.ledger, base, PromptInput(ev.operatorBytes, briefing, created, ev.boundary));
    Prompt(base, MarkOnAccept(composed, base), (set e | e in l.ledger && Carries(composed, e)), briefing)
  }

  function Told(l: Lane, generation: nat): set<Entry> {
    if generation in l.told then l.told[generation] else {}
  }

  function Move(l: Lane, turn: TurnId, phase: TurnPhase): Lane {
    l.(turns := l.turns[turn := phase])
  }

  function StepAnswered(l: Lane, turn: TurnId, accepted: bool): Lane
    requires CanStep(l, Answered(turn, accepted))
  {
    var session, prompt := l.turns[turn].session, l.turns[turn].prompt;
    if !accepted then Move(l, turn, Over)
    else
      Move(l.(told := l.told[session.generation := Told(l, session.generation) + prompt.carried],
              briefed := l.briefed + if prompt.briefing then {session.generation} else {}),
           turn, Committing(session, prompt))
  }

  function StepCommit(l: Lane, turn: TurnId, busy: bool): Lane
    requires CanStep(l, Commit(turn, busy))
  {
    var session, prompt := l.turns[turn].session, l.turns[turn].prompt;
    var store := if busy then l.store else AcceptCommitted(l.store, turn, session, prompt.lastSeq, prompt.briefing);
    Move(l.(store := store), turn, Over)
  }

  function Step(l: Lane, ev: Event): Lane
    requires CanStep(l, ev)
  {
    match ev
    case Mint(entry) => l.(ledger := l.ledger + [entry])
    case Create(turn, sessionId) =>
      Move(l.(store := Bumped(l.store, sessionId)), turn,
           Acquired(Session(sessionId, NextGeneration(l.store)), true))
    case Resume(turn) => Move(l, turn, Acquired(l.store.session.value, false))
    case Join(turn, other) => Move(l, turn, l.turns[other])
    case Stop(turn) => Move(l, turn, Over)
    case Send(turn, _, _, _, _) =>
      var session := l.turns[turn].session;
      Move(l.(store := Intended(l.store, turn, session)), turn, Sending(session, Composing(l, ev)))
    case Answered(turn, accepted) => StepAnswered(l, turn, accepted)
    case Commit(turn, busy) => StepCommit(l, turn, busy)
    case Compact => l.(store := l.store.(cursor := Some(ArmBriefing(l.store.cursor))))
  }

  predicate Runs(l: Lane, evs: seq<Event>)
    decreases |evs|
  {
    evs == [] || (CanStep(l, evs[0]) && Runs(Step(l, evs[0]), evs[1..]))
  }

  function Run(l: Lane, evs: seq<Event>): Lane
    requires Runs(l, evs)
    decreases |evs|
  {
    if evs == [] then l else Run(Step(l, evs[0]), evs[1..])
  }

  // What is owed, and to whom.

  /** The generation's accepted prompts carried every entry up to `mark`. */
  ghost predicate ToldThrough(l: Lane, generation: nat, mark: int) {
    forall e | e in l.ledger && e.seqNo <= mark :: e in Told(l, generation)
  }

  ghost predicate ToldByAny(l: Lane, e: Entry) {
    exists generation: nat :: generation in l.told && e in l.told[generation]
  }

  /** Some generation's accepted prompts carried every entry up to `mark`. */
  ghost predicate OnceToldThrough(l: Lane, mark: int) {
    forall e | e in l.ledger && e.seqNo <= mark :: ToldByAny(l, e)
  }

  ghost predicate Pending(l: Lane, turn: TurnId) {
    turn in l.turns && (l.turns[turn].Sending? || l.turns[turn].Committing?)
  }

  /** Nothing minted later can be below a position already handed out. */
  predicate InLedger(l: Lane, mark: int) {
    mark <= 0 || (l.ledger != [] && mark <= l.ledger[|l.ledger| - 1].seqNo)
  }

  /** The prompt carries everything its acceptance would move the cursor over. */
  ghost predicate PromptSound(l: Lane, turn: TurnId)
    requires Pending(l, turn)
  {
    var prompt := l.turns[turn].prompt;
    && InLedger(l, prompt.base) && InLedger(l, prompt.lastSeq)
    && prompt.base <= prompt.lastSeq
    && (forall e | e in l.ledger && prompt.base < e.seqNo <= prompt.lastSeq :: e in prompt.carried)
  }

  ghost predicate PromptsSound(l: Lane) {
    && Minted(l.ledger)
    && (l.store.cursor.Some? ==> InLedger(l, l.store.cursor.value.lastSeq))
    && (forall turn | Pending(l, turn) :: PromptSound(l, turn))
    && (forall turn | turn in l.turns && l.turns[turn].Committing? ::
          l.turns[turn].prompt.carried <= Told(l, l.turns[turn].session.generation))
  }

  ghost predicate LifetimeSound(l: Lane) {
    && (l.store.cursor.Some? ==> OnceToldThrough(l, l.store.cursor.value.lastSeq))
    && (forall turn | Pending(l, turn) :: OnceToldThrough(l, l.turns[turn].prompt.base))
  }

  ghost predicate CoversExactly(l: Lane, prompt: Prompt) {
    && prompt.base <= prompt.lastSeq
    && (forall e | e in l.ledger :: e in prompt.carried <==> prompt.base < e.seqNo <= prompt.lastSeq)
  }

  lemma ComposingCovers(l: Lane, ev: Event)
    requires Minted(l.ledger) && ev.Send? && CanStep(l, ev)
    requires l.store.cursor.Some? ==> InLedger(l, l.store.cursor.value.lastSeq)
    ensures var prompt := Composing(l, ev);
      InLedger(l, prompt.base) && InLedger(l, prompt.lastSeq) && CoversExactly(l, prompt)
  {
    var created := l.turns[ev.turn].created;
    var briefing := CarriesBriefing(l, ev.cursorReadable, ev.briefingReady);
    PromptCovers(l.ledger, BaseSeq(l, created, ev.cursorReadable),
                 PromptInput(ev.operatorBytes, briefing, created, ev.boundary));
  }

  // One step.

  lemma StepTells(l: Lane, ev: Event, generation: nat)
    requires CanStep(l, ev)
    ensures Told(l, generation) <= Told(Step(l, ev), generation)
    ensures generation in l.told ==> generation in Step(l, ev).told
  {
  }

  lemma MintKeepsOrder(l: Lane, entry: Entry)
    requires Minted(l.ledger) && CanStep(l, Mint(entry))
    ensures Minted(l.ledger + [entry])
    ensures forall mark | InLedger(l, mark) :: InLedger(Step(l, Mint(entry)), mark) && mark < entry.seqNo
  {
  }

  /** Positions handed out stay inside the ledger, and nothing is minted below them. */
  lemma LedgerKept(l: Lane, ev: Event, mark: int)
    requires Minted(l.ledger) && CanStep(l, ev) && InLedger(l, mark)
    ensures Minted(Step(l, ev).ledger) && InLedger(Step(l, ev), mark)
    ensures forall e | e in Step(l, ev).ledger && e.seqNo <= mark :: e in l.ledger
  {
    if ev.Mint? {
      MintKeepsOrder(l, ev.entry);
    }
  }

  lemma PendingComesFrom(l: Lane, ev: Event, turn: TurnId)
    requires CanStep(l, ev) && Pending(Step(l, ev), turn)
    ensures if ev.Send? && ev.turn == turn
            then Step(l, ev).turns[turn] == Sending(l.turns[turn].session, Composing(l, ev))
            else Pending(l, turn) && Step(l, ev).turns[turn].prompt == l.turns[turn].prompt &&
                 Step(l, ev).turns[turn].session == l.turns[turn].session
    ensures Step(l, ev).turns[turn].Committing? ==>
      (turn in l.turns && l.turns[turn].Committing?) || ev == Answered(turn, true)
  {
  }

  lemma CursorComesFrom(l: Lane, ev: Event)
    requires CanStep(l, ev) && Step(l, ev).store.cursor.Some?
    ensures var lastSeq := Step(l, ev).store.cursor.value.lastSeq;
      || (l.store.cursor.Some? && Step(l, ev).store.cursor.value.generation == l.store.cursor.value.generation &&
          lastSeq == l.store.cursor.value.lastSeq)
      || lastSeq == 0
      || (ev.Commit? && Step(l, ev).store.cursor.value.generation == l.turns[ev.turn].session.generation &&
          lastSeq == l.turns[ev.turn].prompt.lastSeq)
  {
  }

  lemma AnsweredIsTold(l: Lane, turn: TurnId)
    requires CanStep(l, Answered(turn, true))
    ensures var session := l.turns[turn].session;
      l.turns[turn].prompt.carried <= Told(Step(l, Answered(turn, true)), session.generation)
  {
  }

  lemma CursorStaysIn(l: Lane, ev: Event)
    requires PromptsSound(l) && CanStep(l, ev) && Step(l, ev).store.cursor.Some?
    ensures InLedger(Step(l, ev), Step(l, ev).store.cursor.value.lastSeq)
  {
    CursorComesFrom(l, ev);
    if l.store.cursor.Some? {
      LedgerKept(l, ev, l.store.cursor.value.lastSeq);
    }
    if ev.Commit? {
      assert Pending(l, ev.turn) && PromptSound(l, ev.turn);
    }
  }

  lemma CommittingStaysTold(l: Lane, ev: Event, turn: TurnId)
    requires PromptsSound(l) && CanStep(l, ev) && turn in Step(l, ev).turns && Step(l, ev).turns[turn].Committing?
    ensures Step(l, ev).turns[turn].prompt.carried <= Told(Step(l, ev), Step(l, ev).turns[turn].session.generation)
  {
    PendingComesFrom(l, ev, turn);
    if ev == Answered(turn, true) {
      AnsweredIsTold(l, turn);
    } else {
      StepTells(l, ev, l.turns[turn].session.generation);
    }
  }

  lemma PromptsStaySound(l: Lane, ev: Event)
    requires PromptsSound(l) && CanStep(l, ev)
    ensures PromptsSound(Step(l, ev))
  {
    var l' := Step(l, ev);
    LedgerKept(l, ev, 0);
    if l'.store.cursor.Some? {
      CursorStaysIn(l, ev);
    }
    forall turn | Pending(l', turn)
      ensures PromptSound(l', turn)
    {
      PendingSound(l, ev, turn);
    }
    forall turn | turn in l'.turns && l'.turns[turn].Committing?
      ensures l'.turns[turn].prompt.carried <= Told(l', l'.turns[turn].session.generation)
    {
      CommittingStaysTold(l, ev, turn);
    }
  }

  lemma PendingSound(l: Lane, ev: Event, turn: TurnId)
    requires PromptsSound(l) && CanStep(l, ev) && Pending(Step(l, ev), turn)
    ensures PromptSound(Step(l, ev), turn)
  {
    PendingComesFrom(l, ev, turn);
    if ev.Send? && ev.turn == turn {
      ComposingCovers(l, ev);
    } else {
      assert PromptSound(l, turn);
      LedgerKept(l, ev, l.turns[turn].prompt.base);
      LedgerKept(l, ev, l.turns[turn].prompt.lastSeq);
    }
  }

  // Over the lane's lifetime.

  lemma OnceToldStays(l: Lane, ev: Event, mark: int)
    requires Minted(l.ledger) && CanStep(l, ev) && InLedger(l, mark) && OnceToldThrough(l, mark)
    ensures OnceToldThrough(Step(l, ev), mark)
  {
    LedgerKept(l, ev, mark);
    forall e | e in Step(l, ev).ledger && e.seqNo <= mark
      ensures ToldByAny(Step(l, ev), e)
    {
      var generation: nat :| generation in l.told && e in l.told[generation];
      StepTells(l, ev, generation);
      assert e in Step(l, ev).told[generation];
    }
  }

  lemma AcceptedIsOnceTold(l: Lane, turn: TurnId)
    requires PromptsSound(l) && turn in l.turns && l.turns[turn].Committing?
    requires OnceToldThrough(l, l.turns[turn].prompt.base)
    ensures OnceToldThrough(l, l.turns[turn].prompt.lastSeq)
  {
    assert Pending(l, turn) && PromptSound(l, turn);
    var generation := l.turns[turn].session.generation;
    forall e | e in l.ledger && e.seqNo <= l.turns[turn].prompt.lastSeq
      ensures ToldByAny(l, e)
    {
      if e.seqNo > l.turns[turn].prompt.base {
        assert e in Told(l, generation);
        assert generation in l.told && e in l.told[generation];
      }
    }
  }

  lemma LifetimeStaysSound(l: Lane, ev: Event)
    requires PromptsSound(l) && LifetimeSound(l) && CanStep(l, ev)
    ensures LifetimeSound(Step(l, ev))
  {
    var l' := Step(l, ev);
    LedgerKept(l, ev, 0);
    if l'.store.cursor.Some? {
      CursorComesFrom(l, ev);
      if ev.Commit? {
        assert Pending(l, ev.turn) && PromptSound(l, ev.turn);
        AcceptedIsOnceTold(l, ev.turn);
        OnceToldStays(l, ev, l.turns[ev.turn].prompt.lastSeq);
      }
      if l.store.cursor.Some? {
        OnceToldStays(l, ev, l.store.cursor.value.lastSeq);
      }
    }
    forall turn | Pending(l', turn)
      ensures OnceToldThrough(l', l'.turns[turn].prompt.base)
    {
      PendingComesFrom(l, ev, turn);
      if !(ev.Send? && ev.turn == turn) {
        assert PromptSound(l, turn);
        OnceToldStays(l, ev, l.turns[turn].prompt.base);
      } else if l'.turns[turn].prompt.base != 0 {
        OnceToldStays(l, ev, l.store.cursor.value.lastSeq);
      }
    }
  }

  lemma {:induction false} RunStaysSound(l: Lane, evs: seq<Event>)
    requires PromptsSound(l) && LifetimeSound(l) && Runs(l, evs)
    ensures PromptsSound(Run(l, evs)) && LifetimeSound(Run(l, evs))
    decreases |evs|
  {
    if evs != [] {
      PromptsStaySound(l, evs[0]);
      LifetimeStaysSound(l, evs[0]);
      RunStaysSound(Step(l, evs[0]), evs[1..]);
    }
  }

  /** At least once, over every run: whatever the cursor has passed, some accepted prompt carried. */
  lemma DeliveredAtLeastOnce(evs: seq<Event>)
    requires Runs(INIT_LANE, evs)
    ensures var l := Run(INIT_LANE, evs);
      l.store.cursor.Some? ==> OnceToldThrough(l, l.store.cursor.value.lastSeq)
  {
    RunStaysSound(INIT_LANE, evs);
  }

  // Within one generation.

  predicate NothingThrough(l: Lane, mark: int) {
    forall e | e in l.ledger :: e.seqNo > mark
  }

  /** The prompt starts where its own generation left off, or where there is nothing to miss. */
  predicate StartsOwn(l: Lane, ev: Event) {
    ev.Send? && CanStep(l, ev) && l.store.cursor.Some? && ev.cursorReadable && !l.turns[ev.turn].created ==>
      || l.store.cursor.value.generation == l.turns[ev.turn].session.generation
      || NothingThrough(l, l.store.cursor.value.lastSeq)
  }

  ghost predicate GenerationSound(l: Lane) {
    && (l.store.cursor.Some? ==> ToldThrough(l, l.store.cursor.value.generation, l.store.cursor.value.lastSeq))
    && (forall turn | Pending(l, turn) :: ToldThrough(l, l.turns[turn].session.generation, l.turns[turn].prompt.base))
  }

  lemma ToldStays(l: Lane, ev: Event, generation: nat, mark: int)
    requires Minted(l.ledger) && CanStep(l, ev) && InLedger(l, mark) && ToldThrough(l, generation, mark)
    ensures ToldThrough(Step(l, ev), generation, mark)
  {
    LedgerKept(l, ev, mark);
    StepTells(l, ev, generation);
  }

  /** An accept keeps its generation whole if and only if the generation was told everything before its base. */
  lemma AcceptOwesExactly(l: Lane, turn: TurnId)
    requires PromptsSound(l) && turn in l.turns && l.turns[turn].Committing?
    ensures var (session, prompt) := (l.turns[turn].session, l.turns[turn].prompt);
      ToldThrough(l, session.generation, prompt.lastSeq) <==> ToldThrough(l, session.generation, prompt.base)
  {
    assert Pending(l, turn) && PromptSound(l, turn);
  }

  lemma GenerationStaysSound(l: Lane, ev: Event)
    requires PromptsSound(l) && GenerationSound(l) && CanStep(l, ev) && StartsOwn(l, ev)
    ensures GenerationSound(Step(l, ev))
  {
    var l' := Step(l, ev);
    LedgerKept(l, ev, 0);
    if l'.store.cursor.Some? {
      CursorComesFrom(l, ev);
      if ev.Commit? {
        assert Pending(l, ev.turn) && PromptSound(l, ev.turn);
        AcceptOwesExactly(l, ev.turn);
        ToldStays(l, ev, l.turns[ev.turn].session.generation, l.turns[ev.turn].prompt.lastSeq);
      }
      if l.store.cursor.Some? {
        ToldStays(l, ev, l.store.cursor.value.generation, l.store.cursor.value.lastSeq);
      }
    }
    forall turn | Pending(l', turn)
      ensures ToldThrough(l', l'.turns[turn].session.generation, l'.turns[turn].prompt.base)
    {
      PendingComesFrom(l, ev, turn);
      if !(ev.Send? && ev.turn == turn) {
        assert PromptSound(l, turn);
        ToldStays(l, ev, l.turns[turn].session.generation, l.turns[turn].prompt.base);
      } else if l'.turns[turn].prompt.base != 0 {
        assert ToldThrough(l, l.turns[turn].session.generation, l.store.cursor.value.lastSeq);
        ToldStays(l, ev, l.turns[turn].session.generation, l.store.cursor.value.lastSeq);
      }
    }
  }

  predicate OwnRuns(l: Lane, evs: seq<Event>)
    decreases |evs|
  {
    Runs(l, evs) && (evs != [] ==> StartsOwn(l, evs[0]) && OwnRuns(Step(l, evs[0]), evs[1..]))
  }

  lemma {:induction false} OwnRunStaysSound(l: Lane, evs: seq<Event>)
    requires PromptsSound(l) && GenerationSound(l) && OwnRuns(l, evs)
    ensures GenerationSound(Run(l, evs))
    decreases |evs|
  {
    if evs != [] {
      PromptsStaySound(l, evs[0]);
      GenerationStaysSound(l, evs[0]);
      OwnRunStaysSound(Step(l, evs[0]), evs[1..]);
    }
  }

  /** At least once to the generation the cursor names, over every run whose prompts all start on their own. */
  lemma DeliveredWithinGeneration(evs: seq<Event>)
    requires OwnRuns(INIT_LANE, evs)
    ensures var l := Run(INIT_LANE, evs);
      l.store.cursor.Some? ==> ToldThrough(l, l.store.cursor.value.generation, l.store.cursor.value.lastSeq)
  {
    OwnRunStaysSound(INIT_LANE, evs);
  }

  // Which commits count, and the briefing.

  /** Turns hold sessions some generation opened, and their intent rows say what became of them. */
  ghost predicate SessionsSound(l: Lane) {
    && (forall turn | turn in l.turns && !l.turns[turn].Over? :: HolderSound(l, turn))
    && (forall turn | Pending(l, turn) :: IntentSound(l, turn))
  }

  ghost predicate HolderSound(l: Lane, turn: TurnId)
    requires turn in l.turns && !l.turns[turn].Over?
  {
    && l.store.session.Some?
    && l.turns[turn].session.generation <= l.store.session.value.generation
    && (l.turns[turn].session.generation == l.store.session.value.generation ==>
          l.turns[turn].session == l.store.session.value)
  }

  ghost predicate IntentSound(l: Lane, turn: TurnId)
    requires Pending(l, turn)
  {
    && turn in l.store.attempts
    && l.store.attempts[turn].session == l.turns[turn].session
    && l.store.session.Some?
    && (l.store.attempts[turn].resolved.InFlight? ||
        l.turns[turn].session.generation < l.store.session.value.generation)
  }

  ghost predicate BriefingSound(l: Lane) {
    && (l.store.session.Some? ==> l.store.cursor.Some?)
    && (forall turn | turn in l.turns && l.turns[turn].Committing? && l.turns[turn].prompt.briefing ::
          l.turns[turn].session.generation in l.briefed)
    && (l.store.cursor.Some? && !l.store.cursor.value.needsBriefing ==>
          l.store.session.Some? && l.store.session.value.generation in l.briefed)
  }

  /** The session a turn holds came from the store, from a generation it opened, or from another turn. */
  lemma HolderStaysSound(l: Lane, ev: Event, turn: TurnId)
    requires SessionsSound(l) && CanStep(l, ev) && turn in Step(l, ev).turns && !Step(l, ev).turns[turn].Over?
    ensures HolderSound(Step(l, ev), turn)
  {
    if turn in l.turns && !l.turns[turn].Over? {
      assert HolderSound(l, turn);
    }
    if ev.Join? {
      assert HolderSound(l, ev.other);
    }
  }

  lemma IntentStaysSound(l: Lane, ev: Event, turn: TurnId)
    requires SessionsSound(l) && CanStep(l, ev) && Pending(Step(l, ev), turn)
    ensures IntentSound(Step(l, ev), turn)
  {
    PendingComesFrom(l, ev, turn);
    if ev.Send? && ev.turn == turn {
      assert HolderSound(l, turn);
    } else {
      assert IntentSound(l, turn) && HolderSound(l, turn);
    }
  }

  lemma SessionsStaySound(l: Lane, ev: Event)
    requires SessionsSound(l) && CanStep(l, ev)
    ensures SessionsSound(Step(l, ev))
  {
    var l' := Step(l, ev);
    forall turn | turn in l'.turns && !l'.turns[turn].Over?
      ensures HolderSound(l', turn)
    {
      HolderStaysSound(l, ev, turn);
    }
    forall turn | Pending(l', turn)
      ensures IntentSound(l', turn)
    {
      IntentStaysSound(l, ev, turn);
    }
  }

  lemma BriefingStaysSound(l: Lane, ev: Event)
    requires SessionsSound(l) && BriefingSound(l) && CanStep(l, ev)
    ensures BriefingSound(Step(l, ev))
  {
  }

  lemma {:induction false} RunKeepsSessions(l: Lane, evs: seq<Event>)
    requires SessionsSound(l) && BriefingSound(l) && Runs(l, evs)
    ensures SessionsSound(Run(l, evs)) && BriefingSound(Run(l, evs))
    decreases |evs|
  {
    if evs != [] {
      SessionsStaySound(l, evs[0]);
      BriefingStaysSound(l, evs[0]);
      RunKeepsSessions(Step(l, evs[0]), evs[1..]);
    }
  }

  /** The carry is off only if an accepted prompt of the lane's current generation carried the briefing. */
  lemma BriefingNeverLost(evs: seq<Event>)
    requires Runs(INIT_LANE, evs)
    ensures var l := Run(INIT_LANE, evs);
      l.store.cursor.Some? && !l.store.cursor.value.needsBriefing ==>
        l.store.session.Some? && l.store.session.value.generation in l.briefed
  {
    RunKeepsSessions(INIT_LANE, evs);
  }

  /** The event commits a prompt that carried the briefing, for the generation the lane is at. */
  predicate CommitsBriefing(l: Lane, ev: Event) {
    && ev.Commit? && !ev.busy && CanStep(l, ev)
    && l.turns[ev.turn].prompt.briefing
    && l.store.session.Some?
    && l.turns[ev.turn].session.generation == l.store.session.value.generation
  }

  predicate BriefedNext(l: Lane, ev: Event, before: bool) {
    !ev.Create? && !ev.Compact? && (before || CommitsBriefing(l, ev))
  }

  /**
   Whether a briefing was committed since the last generation was opened or compacted; `before` says it of what led
   to `l`.
   */
  predicate BriefedSince(l: Lane, evs: seq<Event>, before: bool)
    requires Runs(l, evs)
    decreases |evs|
  {
    if evs == [] then before else BriefedSince(Step(l, evs[0]), evs[1..], BriefedNext(l, evs[0], before))
  }

  ghost predicate CarrySound(l: Lane, briefed: bool) {
    l.store.session.Some? ==> l.store.cursor.Some? && (l.store.cursor.value.needsBriefing <==> !briefed)
  }

  lemma CarryStaysSound(l: Lane, ev: Event, briefed: bool)
    requires SessionsSound(l) && CarrySound(l, briefed) && CanStep(l, ev)
    ensures CarrySound(Step(l, ev), BriefedNext(l, ev, briefed))
  {
    if ev.Commit? {
      assert Pending(l, ev.turn) && IntentSound(l, ev.turn) && HolderSound(l, ev.turn);
    }
  }

  lemma {:induction false} RunKeepsCarry(l: Lane, evs: seq<Event>, briefed: bool)
    requires SessionsSound(l) && CarrySound(l, briefed) && Runs(l, evs)
    ensures SessionsSound(Run(l, evs)) && CarrySound(Run(l, evs), BriefedSince(l, evs, briefed))
    decreases |evs|
  {
    if evs != [] {
      SessionsStaySound(l, evs[0]);
      CarryStaysSound(l, evs[0], briefed);
      RunKeepsCarry(Step(l, evs[0]), evs[1..], BriefedNext(l, evs[0], briefed));
    }
  }

  /**
   Over every run: a prompt carries a ready briefing if and only if its cursor could not be read, or no prompt with
   the briefing was committed since the generation was opened or last compacted. One not ready is never carried.
   */
  lemma BriefingCarriedExactly(evs: seq<Event>, send: Event)
    requires Runs(INIT_LANE, evs) && send.Send? && CanStep(Run(INIT_LANE, evs), send)
    ensures Step(Run(INIT_LANE, evs), send).turns[send.turn].Sending?
    ensures Step(Run(INIT_LANE, evs), send).turns[send.turn].prompt.briefing <==>
      send.briefingReady && (send.cursorReadable ==> !BriefedSince(INIT_LANE, evs, false))
  {
    RunKeepsCarry(INIT_LANE, evs, false);
    SendCarriesExactly(Run(INIT_LANE, evs), send, BriefedSince(INIT_LANE, evs, false));
  }

  lemma SendCarriesExactly(l: Lane, send: Event, briefed: bool)
    requires SessionsSound(l) && CarrySound(l, briefed) && send.Send? && CanStep(l, send)
    ensures Step(l, send).turns[send.turn].Sending?
    ensures Step(l, send).turns[send.turn].prompt.briefing <==> send.briefingReady && (send.cursorReadable ==> !briefed)
  {
    assert HolderSound(l, send.turn);
  }

  /** An accepted prompt moves the cursor if and only if no generation was opened since its turn acquired. */
  lemma CommitAdvancesExactly(evs: seq<Event>, turn: TurnId)
    requires Runs(INIT_LANE, evs) && CanStep(Run(INIT_LANE, evs), Commit(turn, false))
    ensures var l := Run(INIT_LANE, evs);
      && l.store.session.Some?
      && (AcceptOutcomeOf(l.store, turn, l.turns[turn].session).Advanced? <==>
          l.turns[turn].session.generation == l.store.session.value.generation)
  {
    RunKeepsSessions(INIT_LANE, evs);
    var l := Run(INIT_LANE, evs);
    assert Pending(l, turn) && IntentSound(l, turn);
  }

  // Joining events into runs.

  lemma RunsFrom(l: Lane, ev: Event, rest: seq<Event>)
    requires CanStep(l, ev) && Runs(Step(l, ev), rest)
    ensures Runs(l, [ev] + rest) && Run(l, [ev] + rest) == Run(Step(l, ev), rest)
  {
    assert ([ev] + rest)[1..] == rest;
  }

  lemma {:induction false} RunsJoin(l: Lane, first: seq<Event>, rest: seq<Event>)
    requires Runs(l, first) && Runs(Run(l, first), rest)
    ensures Runs(l, first + rest) && Run(l, first + rest) == Run(Run(l, first), rest)
    decreases |first|
  {
    if first == [] {
      assert first + rest == rest;
    } else {
      assert (first + rest)[1..] == first[1..] + rest;
      RunsJoin(Step(l, first[0]), first[1..], rest);
    }
  }

  /** A prompt sent, accepted and committed. */
  function Delivering(send: Event): seq<Event>
    requires send.Send?
  {
    [send] + ([Answered(send.turn, true)] + ([Commit(send.turn, false)] + []))
  }

  lemma SendFrame(l: Lane, send: Event)
    requires send.Send? && CanStep(l, send)
    ensures var session := l.turns[send.turn].session;
      Step(l, send) == Lane(Intended(l.store, send.turn, session), l.ledger,
                            l.turns[send.turn := Sending(session, Composing(l, send))], l.told, l.briefed)
  {
  }

  function Delivered(l: Lane, send: Event): Lane
    requires send.Send? && CanStep(l, send)
  {
    Step(Step(Step(l, send), Answered(send.turn, true)), Commit(send.turn, false))
  }

  lemma DeliveringRuns(l: Lane, send: Event)
    requires send.Send? && CanStep(l, send)
    ensures Runs(l, Delivering(send)) && Run(l, Delivering(send)) == Delivered(l, send)
  {
    var l1 := Step(l, send);
    var l2 := Step(l1, Answered(send.turn, true));
    RunsFrom(l2, Commit(send.turn, false), []);
    RunsFrom(l1, Answered(send.turn, true), [Commit(send.turn, false)] + []);
    RunsFrom(l, send, [Answered(send.turn, true)] + ([Commit(send.turn, false)] + []));
  }

  lemma AnsweredFrame(l: Lane, turn: TurnId)
    requires CanStep(l, Answered(turn, true))
    ensures var l' := Step(l, Answered(turn, true));
      var session, prompt := l.turns[turn].session, l.turns[turn].prompt;
      && l'.ledger == l.ledger && l'.store == l.store
      && l'.turns == l.turns[turn := Committing(session, prompt)]
      && l'.told == l.told[session.generation := Told(l, session.generation) + prompt.carried]
  {
  }

  lemma CommitFrame(l: Lane, turn: TurnId)
    requires CanStep(l, Commit(turn, false)) && l.store.session == Some(l.turns[turn].session)
    requires turn in l.store.attempts && l.store.attempts[turn] == Attempt(l.turns[turn].session, InFlight)
    ensures var l' := Step(l, Commit(turn, false));
      && l'.ledger == l.ledger && l'.told == l.told
      && l'.store.session == l.store.session
      && l'.turns == l.turns[turn := Over]
      && l'.store.cursor.Some?
      && l'.store.cursor.value.generation == l.turns[turn].session.generation
      && l'.store.cursor.value.lastSeq == l.turns[turn].prompt.lastSeq
  {
  }

  lemma AcceptedAtOnce(l: Lane, send: Event)
    requires send.Send? && CanStep(l, send)
    requires l.store.session == Some(l.turns[send.turn].session)
    ensures var l' := Delivered(l, send);
      var session, prompt := l.turns[send.turn].session, Composing(l, send);
      && l'.ledger == l.ledger
      && l'.store.session == l.store.session
      && (forall turn :: turn in l'.turns <==> turn in l.turns)
      && l'.told == l.told[session.generation := Told(l, session.generation) + prompt.carried]
      && l'.store.cursor.Some?
      && l'.store.cursor.value.generation == session.generation
      && l'.store.cursor.value.lastSeq == prompt.lastSeq
  {
    SendFrame(l, send);
    var l1 := Step(l, send);
    AnsweredFrame(l1, send.turn);
    CommitFrame(Step(l1, Answered(send.turn, true)), send.turn);
  }

  lemma CarriedToldExactly(l: Lane, l': Lane, generation: nat, prompt: Prompt)
    requires CoversExactly(l, prompt) && l'.ledger == l.ledger && Told(l', generation) == prompt.carried
    ensures ToldThrough(l', generation, prompt.lastSeq) <==> NothingThrough(l, prompt.base)
  {
  }

  lemma FirstIsTold(l: Lane, send: Event)
    requires send.Send? && CanStep(l, send) && l.store.session == Some(l.turns[send.turn].session)
    requires Told(l, l.turns[send.turn].session.generation) == {}
    ensures Told(Delivered(l, send), l.turns[send.turn].session.generation) == Composing(l, send).carried
  {
    AcceptedAtOnce(l, send);
  }

  /**
   The first accept of a generation, exactly: afterwards everything up to the cursor was told to that
   generation if and only if nothing was in the ledger at or below the position the prompt started from.
   */
  lemma FirstAcceptExactly(l: Lane, send: Event)
    requires PromptsSound(l) && send.Send? && CanStep(l, send)
    requires l.store.session == Some(l.turns[send.turn].session)
    requires Told(l, l.turns[send.turn].session.generation) == {}
    ensures var generation := l.turns[send.turn].session.generation;
      var base := BaseSeq(l, l.turns[send.turn].created, send.cursorReadable);
      var l' := Delivered(l, send);
      && l'.store.cursor.Some? && l'.store.cursor.value.generation == generation
      && (ToldThrough(l', generation, l'.store.cursor.value.lastSeq) <==> NothingThrough(l, base))
  {
    AcceptedAtOnce(l, send);
    FirstIsTold(l, send);
    ComposingCovers(l, send);
    CarriedToldExactly(l, Delivered(l, send), l.turns[send.turn].session.generation, Composing(l, send));
  }

  // A catch-up that failed.

  function CatchUpFails(first: TurnId, sessionId: nat, second: TurnId): seq<Event> {
    [Create(first, sessionId)] + ([Send(first, true, 0, false, 0)] + ([Answered(first, false)] + ([Resume(second)] + [])))
  }

  lemma CatchUpCreated(l: Lane, first: TurnId, sessionId: nat)
    requires first !in l.turns && l.store.cursor.Some?
    ensures CanStep(l, Create(first, sessionId))
    ensures var l1 := Step(l, Create(first, sessionId));
      && l1.ledger == l.ledger && l1.told == l.told
      && l1.turns == l.turns[first := Acquired(Session(sessionId, NextGeneration(l.store)), true)]
      && l1.store.session == Some(Session(sessionId, NextGeneration(l.store)))
      && l1.store.cursor.Some? && l1.store.cursor.value.lastSeq == l.store.cursor.value.lastSeq
  {
  }

  lemma CatchUpFailing(l: Lane, first: TurnId, sessionId: nat, second: TurnId)
    requires first !in l.turns && second !in l.turns && first != second && l.store.cursor.Some?
    ensures Runs(l, CatchUpFails(first, sessionId, second))
    ensures var l' := Run(l, CatchUpFails(first, sessionId, second));
      && l'.ledger == l.ledger && l'.told == l.told
      && l'.store.session == Some(Session(sessionId, NextGeneration(l.store)))
      && l'.store.cursor.Some? && l'.store.cursor.value.lastSeq == l.store.cursor.value.lastSeq
      && second in l'.turns && l'.turns[second] == Acquired(l'.store.session.value, false)
  {
    CatchUpCreated(l, first, sessionId);
    var l1 := Step(l, Create(first, sessionId));
    SendFrame(l1, Send(first, true, 0, false, 0));
    var l2 := Step(l1, Send(first, true, 0, false, 0));
    FailedThenResumed(l2, first, second);
    RunsFrom(l1, Send(first, true, 0, false, 0), [Answered(first, false)] + ([Resume(second)] + []));
    RunsFrom(l, Create(first, sessionId),
             [Send(first, true, 0, false, 0)] + ([Answered(first, false)] + ([Resume(second)] + [])));
  }

  lemma FailedThenResumed(l: Lane, first: TurnId, second: TurnId)
    requires first in l.turns && l.turns[first].Sending? && second !in l.turns && l.store.session.Some?
    ensures Runs(l, [Answered(first, false)] + ([Resume(second)] + []))
    ensures var l' := Run(l, [Answered(first, false)] + ([Resume(second)] + []));
      && l'.ledger == l.ledger && l'.told == l.told && l'.store == l.store
      && second in l'.turns && l'.turns[second] == Acquired(l.store.session.value, false)
  {
    var l1 := Step(l, Answered(first, false));
    RunsFrom(l1, Resume(second), []);
    RunsFrom(l, Answered(first, false), [Resume(second)] + []);
  }

  lemma {:induction false} RunKeepsPrompts(l: Lane, evs: seq<Event>)
    requires PromptsSound(l) && Runs(l, evs)
    ensures PromptsSound(Run(l, evs))
    decreases |evs|
  {
    if evs != [] {
      PromptsStaySound(l, evs[0]);
      RunKeepsPrompts(Step(l, evs[0]), evs[1..]);
    }
  }

  /**
   A new generation whose catch-up prompt failed is resumed, not fresh: the next prompt starts from the dead
   generation's cursor, and once it is accepted the new one was never told what lies before.
   */
  lemma FailedCatchUpSkips(l: Lane, first: TurnId, sessionId: nat, second: TurnId)
    requires PromptsSound(l) && first !in l.turns && second !in l.turns && first != second && l.store.cursor.Some?
    requires Told(l, NextGeneration(l.store)) == {} && !NothingThrough(l, l.store.cursor.value.lastSeq)
    ensures var evs := CatchUpFails(first, sessionId, second) + Delivering(Send(second, true, 0, false, 0));
      && Runs(l, evs)
      && var l' := Run(l, evs);
      && l'.store.cursor.Some?
      && l'.store.cursor.value.generation == NextGeneration(l.store)
      && !ToldThrough(l', l'.store.cursor.value.generation, l'.store.cursor.value.lastSeq)
  {
    CatchUpFailing(l, first, sessionId, second);
    RunKeepsPrompts(l, CatchUpFails(first, sessionId, second));
    var resumed := Run(l, CatchUpFails(first, sessionId, second));
    FirstAcceptExactly(resumed, Send(second, true, 0, false, 0));
    DeliveringRuns(resumed, Send(second, true, 0, false, 0));
    RunsJoin(l, CatchUpFails(first, sessionId, second), Delivering(Send(second, true, 0, false, 0)));
  }

  // A prompt that carries nothing.

  /** A prompt that would move the cursor carries the newest entry. */
  lemma MovingCarriesNewest(l: Lane, send: Event)
    requires Minted(l.ledger) && send.Send? && CanStep(l, send)
    ensures Composing(l, send).lastSeq == Composing(l, send).base || Composing(l, send).carried != {}
  {
    var created := l.turns[send.turn].created;
    var base := BaseSeq(l, created, send.cursorReadable);
    var input := PromptInput(send.operatorBytes, CarriesBriefing(l, send.cursorReadable, send.briefingReady), created,
                             send.boundary);
    var c := ComposeCarrierDelta(l.ledger, base, input);
    PromptCovers(l.ledger, base, input);
    if c.bytes > 0 {
      var newest := l.ledger[|l.ledger| - 1];
      assert newest in l.ledger && Carries(c, newest);
      assert newest in Composing(l, send).carried;
    }
  }

  lemma GiantCarriesNothing(l: Lane, send: Event)
    requires send.Send? && CanStep(l, send) && GiantOperator(send.operatorBytes)
    ensures Composing(l, send).carried == {}
  {
    var created := l.turns[send.turn].created;
    GiantOperatorCommitsItsBase(l.ledger, BaseSeq(l, created, send.cursorReadable),
                                PromptInput(send.operatorBytes,
                                            CarriesBriefing(l, send.cursorReadable, send.briefingReady), created,
                                            send.boundary));
  }

  /**
   A prompt that carries nothing, accepted at once, leaves the cursor where it was if and only if it started from
   there: its turn resumed and the cursor could be read, or the cursor was at 0 already.
   */
  lemma EmptyPromptStaysExactly(l: Lane, send: Event)
    requires Minted(l.ledger) && send.Send? && CanStep(l, send) && Composing(l, send).carried == {}
    requires l.store.session == Some(l.turns[send.turn].session) && l.store.cursor.Some?
    ensures var l' := Delivered(l, send);
      && l'.store.cursor.Some?
      && (l'.store.cursor.value.lastSeq == l.store.cursor.value.lastSeq <==>
            (!l.turns[send.turn].created && send.cursorReadable) || l.store.cursor.value.lastSeq == 0)
  {
    AcceptedAtOnce(l, send);
    MovingCarriesNewest(l, send);
  }

  /**
   A giant operator message on a fresh generation: from any lane, creating the generation and delivering the
   message takes the cursor back to 0, whatever it had reached.
   */
  lemma GiantOnFreshGoesBack(l: Lane, turn: TurnId, sessionId: nat, send: Event)
    requires Minted(l.ledger) && turn !in l.turns && l.store.cursor.Some? && l.store.cursor.value.lastSeq > 0
    requires send.Send? && send.turn == turn && GiantOperator(send.operatorBytes)
    ensures var evs := [Create(turn, sessionId)] + Delivering(send);
      && Runs(l, evs)
      && var l' := Run(l, evs);
      && l'.store.cursor.Some?
      && l'.store.cursor.value.generation == NextGeneration(l.store)
      && l'.store.cursor.value.lastSeq == 0 < l.store.cursor.value.lastSeq
  {
    CatchUpCreated(l, turn, sessionId);
    var l1 := Step(l, Create(turn, sessionId));
    GiantCarriesNothing(l1, send);
    MovingCarriesNewest(l1, send);
    AcceptedAtOnce(l1, send);
    DeliveringRuns(l1, send);
    RunsFrom(l, Create(turn, sessionId), Delivering(send));
  }

  // Such a lane is reached: one message, delivered to the first generation.

  const HELLO := Entry(1, true, 8, 5, 100)

  const FIRST_DELIVERY := [Mint(HELLO)] + ([Create(0, 7)] + Delivering(Send(0, true, 0, false, 0)))

  lemma HelloIsRead(ledger: seq<Entry>)
    requires ledger == [HELLO]
    ensures LedgerFor(ledger, 0, true) == (ledger, NoOverflow)
  {
    assert TailBytes(ledger, 0) == 5 + TailBytes(ledger, 1);
    assert KeptFrom(ledger, CATCHUP_LIMITS.maxBytes, 1) == KeptFrom(ledger, CATCHUP_LIMITS.maxBytes, 0) == 0;
    assert FirstPast(ledger, 0, 0) == 0;
  }

  lemma HelloFits(ledger: seq<Entry>, budget: nat)
    requires ledger == [HELLO] && budget >= 8_000
    ensures Fits(ledger, NoOverflow, budget, 0, 0)
  {
    assert EntryBytes(HELLO, 0) == 27;
    assert ledger[0..] == ledger;
    assert BlockSizes(ledger, NoOverflow, 0) == [27];
  }

  lemma HelloIsComposed(ledger: seq<Entry>, reserved: bool, input: PromptInput)
    requires ledger == [HELLO] && input == PromptInput(0, false, true, 0)
    ensures ComposedFor(ledger, NoOverflow, reserved, input).bytes > 0
  {
    var budget := BlockBudget(0, false, true, reserved);
    HelloFits(ledger, budget);
    EmptyOnlyWhenNothingFits(ledger, NoOverflow, budget, 0);
  }

  lemma HelloHasBytes(ledger: seq<Entry>, input: PromptInput)
    requires ledger == [HELLO] && input == PromptInput(0, false, true, 0)
    ensures ComposeCarrierDelta(ledger, 0, input).bytes > 0
  {
    HelloIsRead(ledger);
    HelloIsComposed(ledger, FirstLookOverflows(ledger, 0), input);
  }

  lemma HelloIsDelivered(ledger: seq<Entry>, input: PromptInput)
    requires ledger == [HELLO] && input == PromptInput(0, false, true, 0)
    ensures MarkOnAccept(ComposeCarrierDelta(ledger, 0, input), 0) == 1
  {
    HelloHasBytes(ledger, input);
    BytesReachNewest(ledger, 0, input);
  }

  lemma FirstDeliveryRuns()
    ensures Runs(INIT_LANE, FIRST_DELIVERY)
    ensures var l := Run(INIT_LANE, FIRST_DELIVERY);
      && l.ledger == [HELLO]
      && Told(l, 2) == {}
      && 1 !in l.turns && 2 !in l.turns
      && l.store.session == Some(Session(7, 1))
      && l.store.cursor.Some? && l.store.cursor.value.lastSeq == 1
  {
    var l1 := Step(INIT_LANE, Mint(HELLO));
    var l2 := Step(l1, Create(0, 7));
    assert l2 == Lane(Store(Some(Session(7, 1)), Some(Cursor(0, 0, true)), map[]), [HELLO],
                      map[0 := Acquired(Session(7, 1), true)], map[], {});
    HelloIsComposing(l2, Send(0, true, 0, false, 0));
    FirstPromptLands(l2, Send(0, true, 0, false, 0), Session(7, 1));
    DeliveringRuns(l2, Send(0, true, 0, false, 0));
    RunsFrom(l1, Create(0, 7), Delivering(Send(0, true, 0, false, 0)));
    RunsFrom(INIT_LANE, Mint(HELLO), [Create(0, 7)] + Delivering(Send(0, true, 0, false, 0)));
  }

  lemma HelloIsComposing(l: Lane, send: Event)
    requires l.ledger == [HELLO] && l.turns == map[0 := Acquired(Session(7, 1), true)]
    requires send == Send(0, true, 0, false, 0)
    ensures CanStep(l, send) && Composing(l, send).lastSeq == 1
  {
    HelloIsDelivered(l.ledger, PromptInput(0, false, true, 0));
  }

  /** The first prompt of a lane, accepted at once. */
  lemma FirstPromptLands(l: Lane, send: Event, session: Session)
    requires send.Send? && CanStep(l, send) && l.turns == map[send.turn := Acquired(session, true)]
    requires l.store.session == Some(session) && l.told == map[]
    ensures var l' := Delivered(l, send);
      && l'.ledger == l.ledger
      && (forall generation | generation != session.generation :: Told(l', generation) == {})
      && (forall turn | turn != send.turn :: turn !in l'.turns)
      && l'.store.session == Some(session)
      && l'.store.cursor.Some? && l'.store.cursor.value.lastSeq == Composing(l, send).lastSeq
  {
    AcceptedAtOnce(l, send);
  }

  /** Within a generation, at least once is false of the program: here is a run. */
  lemma SomeRunSkips()
    ensures var evs := FIRST_DELIVERY + (CatchUpFails(1, 8, 2) + Delivering(Send(2, true, 0, false, 0)));
      && Runs(INIT_LANE, evs)
      && var l := Run(INIT_LANE, evs);
      l.store.cursor.Some? && !ToldThrough(l, l.store.cursor.value.generation, l.store.cursor.value.lastSeq)
  {
    FirstDeliveryRuns();
    RunKeepsPrompts(INIT_LANE, FIRST_DELIVERY);
    var l := Run(INIT_LANE, FIRST_DELIVERY);
    assert HELLO in l.ledger;
    FailedCatchUpSkips(l, 1, 8, 2);
    RunsJoin(INIT_LANE, FIRST_DELIVERY, CatchUpFails(1, 8, 2) + Delivering(Send(2, true, 0, false, 0)));
  }
}
