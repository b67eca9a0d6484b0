/**
 The durable state of one lane (src/memory/lane-state.ts, lane-cursor.ts, lane-attempts.ts): the session row,
 the cursor that records the last accepted position, and the intent row written before every prompt. Each
 method is one immediate transaction; all three tables move together or not at all.
 */
module LaneState {
  import opened Options

  type AttemptId = nat

  datatype Session = Session(sessionId: nat, generation: nat)

  /** Generation 0 is the sentinel of a lane that never accepted anything. */
  datatype Cursor = Cursor(generation: nat, lastSeq: int, needsBriefing: bool)

  datatype Resolution = InFlight | Accepted | Abandoned

  datatype Attempt = Attempt(session: Session, resolved: Resolution)

  datatype Store = Store(session: Option<Session>, cursor: Option<Cursor>, attempts: map<AttemptId, Attempt>)

  const EMPTY_STORE := Store(None, None, map[])

  function NextGeneration(st: Store): nat {
    (if st.session.Some? then st.session.value.generation else 0) + 1
  }

  function Abandon(a: Attempt, generation: nat): Attempt {
    if a.session.generation < generation && a.resolved.InFlight? then a.(resolved := Abandoned) else a
  }

  /** Arms the carry and leaves the position alone; a missing cursor gets the sentinel. */
  function ArmBriefing(cursor: Option<Cursor>): Cursor {
    if cursor.Some? then cursor.value.(needsBriefing := true) else Cursor(0, 0, true)
  }

  function Bumped(st: Store, sessionId: nat): Store {
    var generation := NextGeneration(st);
    Store(Some(Session(sessionId, generation)), Some(ArmBriefing(st.cursor)),
          map id | id in st.attempts :: Abandon(st.attempts[id], generation))
  }

  function Intended(st: Store, id: AttemptId, session: Session): Store {
    st.(attempts := st.attempts[id := Attempt(session, InFlight)])
  }

  datatype Refusal = NoActiveSession | StaleGeneration | SessionMismatch | AttemptMissing

  datatype AcceptOutcome = Advanced | Refused(reason: Refusal)

  function AcceptOutcomeOf(st: Store, id: AttemptId, session: Session): AcceptOutcome {
    if st.session.None? then Refused(NoActiveSession)
    else if st.session.value.generation != session.generation then Refused(StaleGeneration)
    else if st.session.value.sessionId != session.sessionId then Refused(SessionMismatch)
    else if id !in st.attempts || st.attempts[id] != Attempt(session, InFlight) then Refused(AttemptMissing)
    else Advanced
  }

  /** The carry is cleared only by a prompt that carried the briefing. */
  function CommittedCursor(cursor: Option<Cursor>, generation: nat, lastSeq: int, clearBriefing: bool): Cursor {
    Cursor(generation, lastSeq, cursor.Some? && !clearBriefing && cursor.value.needsBriefing)
  }

  function AcceptCommitted(st: Store, id: AttemptId, session: Session, lastSeq: int, clearBriefing: bool): Store {
    if AcceptOutcomeOf(st, id, session).Refused? then st
    else
      st.(cursor := Some(CommittedCursor(st.cursor, session.generation, lastSeq, clearBriefing)),
          attempts := st.attempts[id := Attempt(session, Accepted)])
  }

  class LaneStore {
    var session: Option<Session>
    var cursor: Option<Cursor>
    var attempts: map<AttemptId, Attempt>

    ghost function View(): Store
      reads this
    {
      Store(session, cursor, attempts)
    }

    constructor ()
      ensures View() == EMPTY_STORE
    {
      session, cursor, attempts := None, None, map[];
    }

    method SetBriefingCarry()
      modifies `cursor
      ensures cursor == Some(ArmBriefing(old(cursor)))
      ensures cursor == Some(if old(cursor).None? then Cursor(0, 0, true)
                             else Cursor(old(cursor).value.generation, old(cursor).value.lastSeq, true))
    {
      if cursor.None? {
        cursor := Some(Cursor(0, 0, true));
      } else {
        cursor := Some(cursor.value.(needsBriefing := true));
      }
    }

    method BumpGeneration(sessionId: nat) returns (generation: nat)
      modifies this
      ensures View() == Bumped(old(View()), sessionId) && generation == NextGeneration(old(View()))
      ensures generation == if old(session).None? then 1 else old(session).value.generation + 1
      ensures session == Some(Session(sessionId, generation))
      ensures cursor.Some? && cursor.value.needsBriefing
      ensures cursor.value.lastSeq == if old(cursor).None? then 0 else old(cursor).value.lastSeq
      ensures cursor.value.generation == if old(cursor).None? then 0 else old(cursor).value.generation
      ensures attempts.Keys == old(attempts).Keys
      ensures forall id | id in attempts ::
        && attempts[id].session == old(attempts)[id].session
        && attempts[id].resolved ==
             if old(attempts)[id].resolved.InFlight? && old(attempts)[id].session.generation < generation then Abandoned
             else old(attempts)[id].resolved
    {
      generation := (if session.Some? then session.value.generation else 0) + 1;
      attempts := map id | id in attempts :: Abandon(attempts[id], generation);
      session := Some(Session(sessionId, generation));
      SetBriefingCarry();
    }

    method RecordPromptAttempt(id: AttemptId, claimed: Session)
      requires id !in attempts
      modifies `attempts
      ensures View() == Intended(old(View()), id, claimed)
      ensures attempts == old(attempts)[id := Attempt(claimed, InFlight)]
    {
      attempts := attempts[id := Attempt(claimed, InFlight)];
    }

    method ResolveAttemptAccepted(id: AttemptId, claimed: Session) returns (flipped: bool)
      modifies `attempts
      ensures flipped <==> id in old(attempts) && old(attempts)[id] == Attempt(claimed, InFlight)
      ensures attempts == if flipped then old(attempts)[id := Attempt(claimed, Accepted)] else old(attempts)
    {
      flipped := id in attempts && attempts[id].session == claimed && attempts[id].resolved.InFlight?;
      if flipped {
        attempts := attempts[id := attempts[id].(resolved := Accepted)];
      }
    }

    method AcceptCommit(id: AttemptId, claimed: Session, lastSeq: int, clearBriefing: bool)
      returns (outcome: AcceptOutcome)
      modifies this
      ensures outcome == AcceptOutcomeOf(old(View()), id, claimed)
      ensures View() == AcceptCommitted(old(View()), id, claimed, lastSeq, clearBriefing)
      ensures unchanged(`session)
      ensures outcome == Refused(NoActiveSession) <==> session.None?
      ensures outcome == Refused(StaleGeneration) <==>
        session.Some? && session.value.generation != claimed.generation
      ensures outcome == Refused(SessionMismatch) <==>
        session.Some? && session.value.generation == claimed.generation && session.value.sessionId != claimed.sessionId
      ensures outcome == Advanced <==>
        session == Some(claimed) && id in old(attempts) && old(attempts)[id] == Attempt(claimed, InFlight)
      ensures outcome == Refused(AttemptMissing) <==>
        session == Some(claimed) && (id !in old(attempts) || old(attempts)[id] != Attempt(claimed, InFlight))
      ensures outcome != Advanced ==> unchanged(this)
      ensures outcome == Advanced ==>
        && attempts == old(attempts)[id := Attempt(claimed, Accepted)]
        && cursor == Some(Cursor(claimed.generation, lastSeq,
                                 !clearBriefing && old(cursor).Some? && old(cursor).value.needsBriefing))
    {
      if session.None? {
        return Refused(NoActiveSession);
      }
      if session.value.generation != claimed.generation {
        return Refused(StaleGeneration);
      }
      if session.value.sessionId != claimed.sessionId {
        return Refused(SessionMismatch);
      }
      var resolved := ResolveAttemptAccepted(id, claimed);
      if !resolved {
        return Refused(AttemptMissing);
      }
      var armed := cursor.Some? && cursor.value.needsBriefing && !clearBriefing;
      cursor := Some(Cursor(claimed.generation, lastSeq, armed));
      outcome := Advanced;
    }
  }
}
