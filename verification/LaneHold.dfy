/**
 The connection one ACP lane holds (src/chat/lane-hold.ts).

 Each JavaScript segment between two awaits is one method of `LaneHold`; what it does to the fields is the
 function of the same name over `HoldState`. A method that hands connections to the close ladder returns
 them: the ladder itself runs later, in `LaneHoldRuns`.
 */
module LaneHold {
  import opened Options

  /** A bridge connection. A live one has a pid and the two are identified. */
  type Conn = nat

  type SessionId = nat

  datatype Held = Held(conn: Conn, sessionId: SessionId, epoch: nat)

  datatype HoldState = HoldState(
    held: Option<Held>,
    opening: set<Conn>,
    orphanPids: set<Conn>,
    startSeq: nat,
    closedThrough: nat,
    pendingStarts: nat)

  const INITIAL_HOLD := HoldState(None, {}, {}, 0, 0, 0)

  function HeldConns(h: HoldState): set<Conn> {
    if h.held.Some? then {h.held.value.conn} else {}
  }

  /** Whether `start(sessionId)` may answer from the hold without opening anything. */
  predicate Reusable(h: HoldState, sessionId: Option<SessionId>, alive: set<Conn>) {
    && h.held.Some?
    && h.held.value.conn in alive
    && sessionId == Some(h.held.value.sessionId)
  }

  function IssueStart(h: HoldState): HoldState {
    h.(startSeq := h.startSeq + 1, pendingStarts := h.pendingStarts + 1)
  }

  function Discard(h: HoldState, conn: Conn, alive: set<Conn>): (HoldState, set<Conn>) {
    (h.(opening := h.opening - {conn}), {conn} * alive)
  }

  /** An opener delivered `conn`: it is registered, and refused at once when a drop or close overtook it. */
  function RegisterOpened(h: HoldState, epoch: nat, conn: Conn, alive: set<Conn>): (HoldState, bool, set<Conn>) {
    var registered := h.(opening := h.opening + {conn});
    if epoch > h.closedThrough then
      (registered, true, {})
    else
      var (discarded, closing) := Discard(registered, conn, alive);
      (discarded, false, closing)
  }

  /** The early return is the source's: a replacement on the SAME session id closes nothing. */
  function ReplaceHold(h: HoldState, next: Option<Held>, alive: set<Conn>): (HoldState, set<Conn>) {
    var keepsSession := next.Some? && h.held.Some? && h.held.value.sessionId == next.value.sessionId;
    (h.(held := next), if keepsSession then {} else HeldConns(h) * alive)
  }

  function InstallHold(h: HoldState, epoch: nat, conn: Conn, sessionId: SessionId, alive: set<Conn>)
    : (HoldState, bool, set<Conn>)
  {
    var taken := h.(opening := h.opening - {conn});
    if epoch == h.startSeq then
      var (installed, closing) := ReplaceHold(taken, Some(Held(conn, sessionId, epoch)), alive);
      (installed, true, closing)
    else
      (taken, false, {conn} * alive)
  }

  function SupersedeOpens(h: HoldState): HoldState {
    h.(startSeq := h.startSeq + 1, closedThrough := h.startSeq + 1, opening := {})
  }

  /** What `dropHold` tells its caller: it found a connection, an open, or a start still in flight. */
  predicate DropReaches(h: HoldState) {
    h.held.Some? || h.opening != {} || h.pendingStarts > 0
  }

  function DropHold(h: HoldState, alive: set<Conn>): (HoldState, set<Conn>) {
    var (dropped, closing) := ReplaceHold(SupersedeOpens(h), None, alive);
    (dropped, closing + h.opening * alive)
  }

  /** `close` sends every connection down its ladder, dead ones included. */
  function CloseHold(h: HoldState): (HoldState, set<Conn>) {
    (SupersedeOpens(h).(held := None), HeldConns(h) + h.opening)
  }

  function RecordOrphans(h: HoldState, pids: set<Conn>): HoldState {
    h.(orphanPids := h.orphanPids + pids)
  }

  class LaneHold {
    var held: Option<Held>
    var opening: set<Conn>
    var orphanPids: set<Conn>
    var startSeq: nat
    var closedThrough: nat
    var pendingStarts: nat

    ghost function View(): HoldState
      reads this
    {
      HoldState(held, opening, orphanPids, startSeq, closedThrough, pendingStarts)
    }

    constructor ()
      ensures View() == INITIAL_HOLD
    {
      held, opening, orphanPids := None, {}, {};
      startSeq, closedThrough, pendingStarts := 0, 0, 0;
    }

    /** The synchronous head of `start`: the ticket, and whether the held session answers it. */
    method Start(sessionId: Option<SessionId>, alive: set<Conn>) returns (epoch: nat, reused: bool)
      modifies this
      ensures View() == IssueStart(old(View()))
      ensures unchanged(`held, `opening, `orphanPids, `closedThrough) && pendingStarts == old(pendingStarts) + 1
      ensures epoch == startSeq == old(startSeq) + 1
      ensures reused <==> held.Some? && held.value.conn in alive && sessionId == Some(held.value.sessionId)
    {
      startSeq := startSeq + 1;
      epoch := startSeq;
      pendingStarts := pendingStarts + 1;
      reused := held.Some? && held.value.conn in alive && sessionId == Some(held.value.sessionId);
    }

    /** The `finally` of `start`. */
    method FinishStart()
      requires pendingStarts > 0
      modifies this
      ensures View() == old(View()).(pendingStarts := old(pendingStarts) - 1)
      ensures unchanged(`held, `opening, `orphanPids, `startSeq, `closedThrough)
    {
      pendingStarts := pendingStarts - 1;
    }

    method DiscardOpening(conn: Conn, alive: set<Conn>) returns (closing: set<Conn>)
      modifies this
      ensures unchanged(`held, `orphanPids, `startSeq, `closedThrough, `pendingStarts)
      ensures conn !in opening && opening + {conn} == old(opening) + {conn}
      ensures closing == if conn in alive then {conn} else {}
      ensures View() == Discard(old(View()), conn, alive).0
      ensures closing == Discard(old(View()), conn, alive).1
    {
      opening := opening - {conn};
      closing := {};
      if conn !in alive {
        return;
      }
      closing := {conn};
    }

    method OpenFreshLanded(epoch: nat, conn: Conn, alive: set<Conn>) returns (kept: bool, closing: set<Conn>)
      modifies this
      ensures unchanged(`held, `orphanPids, `startSeq, `closedThrough, `pendingStarts)
      ensures kept <==> epoch > closedThrough
      ensures conn in opening <==> kept
      ensures opening + {conn} == old(opening) + {conn}
      ensures closing == if !kept && conn in alive then {conn} else {}
      ensures View() == RegisterOpened(old(View()), epoch, conn, alive).0
      ensures kept == RegisterOpened(old(View()), epoch, conn, alive).1
      ensures closing == RegisterOpened(old(View()), epoch, conn, alive).2
    {
      opening := opening + {conn};
      if epoch > closedThrough {
        return true, {};
      }
      closing := DiscardOpening(conn, alive);
      kept := false;
    }

    method Replace(next: Option<Held>, alive: set<Conn>) returns (closing: set<Conn>)
      modifies this
      ensures unchanged(`opening, `orphanPids, `startSeq, `closedThrough, `pendingStarts) && held == next
      ensures forall conn :: conn in closing <==>
        && conn in alive && old(held).Some? && old(held).value.conn == conn
        && !(next.Some? && next.value.sessionId == old(held).value.sessionId)
      ensures View() == ReplaceHold(old(View()), next, alive).0
      ensures closing == ReplaceHold(old(View()), next, alive).1
    {
      var prior := held;
      held := next;
      if prior.None? || (next.Some? && prior.value.sessionId == next.value.sessionId) || prior.value.conn !in alive {
        return {};
      }
      closing := {prior.value.conn};
    }

    method Install(epoch: nat, conn: Conn, sessionId: SessionId, alive: set<Conn>)
      returns (installed: bool, closing: set<Conn>)
      modifies this
      ensures unchanged(`orphanPids, `startSeq, `closedThrough, `pendingStarts)
      ensures conn !in opening && opening + {conn} == old(opening) + {conn}
      ensures installed <==> epoch == startSeq
      ensures held == if installed then Some(Held(conn, sessionId, epoch)) else old(held)
      ensures !installed ==> closing == if conn in alive then {conn} else {}
      ensures installed ==> forall other :: other in closing <==>
        && other in alive && old(held).Some? && old(held).value.conn == other
        && old(held).value.sessionId != sessionId
      ensures View() == InstallHold(old(View()), epoch, conn, sessionId, alive).0
      ensures installed == InstallHold(old(View()), epoch, conn, sessionId, alive).1
      ensures closing == InstallHold(old(View()), epoch, conn, sessionId, alive).2
    {
      opening := opening - {conn};
      if epoch == startSeq {
        closing := Replace(Some(Held(conn, sessionId, epoch)), alive);
        return true, closing;
      }
      installed, closing := false, {};
      if conn in alive {
        closing := {conn};
      }
    }

    method Supersede() returns (registered: set<Conn>)
      modifies this
      ensures unchanged(`held, `orphanPids, `pendingStarts)
      ensures closedThrough == startSeq == old(startSeq) + 1 && opening == {}
      ensures registered == old(opening)
      ensures View() == SupersedeOpens(old(View()))
    {
      startSeq := startSeq + 1;
      closedThrough := startSeq;
      registered := opening;
      opening := {};
    }

    method Drop(alive: set<Conn>) returns (reached: bool, closing: set<Conn>)
      modifies this
      ensures unchanged(`orphanPids, `pendingStarts)
      ensures closedThrough == startSeq == old(startSeq) + 1 && opening == {} && held.None?
      ensures forall conn :: conn in closing <==>
        conn in alive && (conn in old(opening) || (old(held).Some? && old(held).value.conn == conn))
      ensures reached <==> old(held).Some? || old(opening) != {} || old(pendingStarts) > 0
      ensures View() == DropHold(old(View()), alive).0
      ensures closing == DropHold(old(View()), alive).1
      ensures reached <==> DropReaches(old(View()))
    {
      var registered := Supersede();
      reached := held.Some? || registered != {} || pendingStarts > 0;
      closing := Replace(None, alive);
      while registered != {}
        invariant View() == DropHold(old(View()), alive).0
        invariant closing + registered * alive == DropHold(old(View()), alive).1
        decreases registered
      {
        var conn :| conn in registered;
        registered := registered - {conn};
        var more := DiscardOpening(conn, alive);
        closing := closing + more;
      }
    }

    /** The synchronous half of `close`; `ReportClose` is what follows its ladders. */
    method Close() returns (closing: set<Conn>)
      modifies this
      ensures unchanged(`orphanPids, `pendingStarts)
      ensures closedThrough == startSeq == old(startSeq) + 1 && opening == {} && held.None?
      ensures forall conn :: conn in closing <==>
        conn in old(opening) || (old(held).Some? && old(held).value.conn == conn)
      ensures View() == CloseHold(old(View())).0
      ensures closing == CloseHold(old(View())).1
    {
      closing := if held.None? then {} else {held.value.conn};
      var registered := Supersede();
      closing := closing + registered;
      held := None;
    }

    method RecordOrphan(pid: Conn)
      modifies this
      ensures View() == RecordOrphans(old(View()), {pid})
      ensures orphanPids == old(orphanPids) + {pid}
      ensures unchanged(`held, `opening, `startSeq, `closedThrough, `pendingStarts)
    {
      orphanPids := orphanPids + {pid};
    }

    method ReportClose(survivors: set<Conn>) returns (pids: set<Conn>)
      modifies this
      ensures pids == old(orphanPids) + survivors
      ensures View() == old(View()).(orphanPids := {})
      ensures orphanPids == {} && unchanged(`held, `opening, `startSeq, `closedThrough, `pendingStarts)
    {
      var rest := survivors;
      while rest != {}
        invariant View() == old(View()).(orphanPids := orphanPids)
        invariant orphanPids + rest == old(orphanPids) + survivors
        decreases rest
      {
        var pid :| pid in rest;
        rest := rest - {pid};
        RecordOrphan(pid);
      }
      pids := orphanPids;
      orphanPids := {};
    }
  }
}
