/**
 One persistent pty session (src/chat/pty-session.ts): its turn queue and its child process.

 `tail` is a promise chain: one link per accepted submit, each running `processNext` once the one before it
 is done. `links` counts the links not begun. An item is its place in submission order.
 */
module PtySession {
  import opened Options

  type Item = nat

  type Child = nat

  datatype Session = Session(
    queue: seq<Item>,
    outstanding: int,
    links: nat,
    active: Option<Item>,
    disposed: bool,
    child: Option<Child>,
    childExited: bool)

  const INITIAL_SESSION := Session([], 0, 0, None, false, None, false)

  datatype Submission = AlreadyAborted | QueueFull | Accepted

  function SubmissionOf(s: Session, maxPending: nat, aborted: bool): Submission {
    if aborted then AlreadyAborted else if s.outstanding >= maxPending + 1 then QueueFull else Accepted
  }

  function Submitted(s: Session, maxPending: nat, item: Item, aborted: bool): Session {
    if SubmissionOf(s, maxPending, aborted) != Accepted then s
    else s.(queue := s.queue + [item], outstanding := s.outstanding + 1, links := s.links + 1)
  }

  function IndexOf(queue: seq<Item>, item: Item, from: nat): nat
    requires from <= |queue|
    ensures from <= IndexOf(queue, item, from) <= |queue|
    ensures IndexOf(queue, item, from) < |queue| ==> queue[IndexOf(queue, item, from)] == item
    ensures forall k | from <= k < IndexOf(queue, item, from) :: queue[k] != item
    decreases |queue| - from
  {
    if from == |queue| || queue[from] == item then from else IndexOf(queue, item, from + 1)
  }

  function Without(queue: seq<Item>, item: Item): seq<Item> {
    var idx := IndexOf(queue, item, 0);
    if idx < |queue| then queue[..idx] + queue[idx + 1..] else queue
  }

  function AbortedWhileQueued(s: Session, item: Item): Session {
    if item in s.queue then s.(queue := Without(s.queue, item), outstanding := s.outstanding - 1) else s
  }

  /** The head of `processNext`: an empty queue ends the link, and an aborted item never becomes a turn. */
  function NextBegun(s: Session, aborted: set<Item>): Session
    requires s.links > 0
  {
    var s := s.(links := s.links - 1);
    if s.queue == [] then s
    else if s.queue[0] in aborted then s.(queue := s.queue[1..], outstanding := s.outstanding - 1)
    else s.(queue := s.queue[1..], active := Some(s.queue[0]))
  }

  function TurnEnded(s: Session): Session {
    s.(active := None, outstanding := s.outstanding - 1)
  }

  function ChildEnsured(s: Session, spawned: Child): Session {
    if s.child.Some? then s else s.(child := Some(spawned), childExited := false)
  }

  function ChildKilled(s: Session): Session {
    s.(child := None)
  }

  /** A child that was replaced or killed exits unnoticed. */
  function ExitHeard(s: Session, child: Child): Session {
    if s.child == Some(child) then s.(child := None, childExited := true) else s
  }

  function Disposed(s: Session): Session {
    if s.disposed then s
    else ChildKilled(s.(disposed := true, queue := [], outstanding := s.outstanding - |s.queue|))
  }

  class PtySession {
    const maxPending: nat
    var queue: seq<Item>
    var outstanding: int
    var links: nat
    var active: Option<Item>
    var disposed: bool
    var child: Option<Child>
    var childExited: bool

    ghost function View(): Session
      reads this
    {
      Session(queue, outstanding, links, active, disposed, child, childExited)
    }

    constructor (maxPending: nat)
      ensures View() == INITIAL_SESSION && this.maxPending == maxPending
    {
      this.maxPending := maxPending;
      queue, outstanding, links, active := [], 0, 0, None;
      disposed, child, childExited := false, None, false;
    }

    method Submit(item: Item, aborted: bool) returns (answer: Submission)
      modifies this
      ensures answer == SubmissionOf(old(View()), maxPending, aborted)
      ensures View() == Submitted(old(View()), maxPending, item, aborted)
      ensures unchanged(`active, `disposed, `child, `childExited)
      ensures answer ==
        if aborted then AlreadyAborted else if old(outstanding) > maxPending then QueueFull else Accepted
      ensures if answer == Accepted
              then queue == old(queue) + [item] && outstanding == old(outstanding) + 1 && links == old(links) + 1
              else unchanged(this)
    {
      if aborted {
        return AlreadyAborted;
      }
      if outstanding >= maxPending + 1 {
        return QueueFull;
      }
      outstanding := outstanding + 1;
      queue := queue + [item];
      links := links + 1;
      answer := Accepted;
    }

    /** The abort listener of a queued item; `removed` says its promise was rejected here. */
    method OnQueuedAbort(item: Item) returns (removed: bool)
      modifies this
      ensures removed <==> item in old(queue)
      ensures View() == AbortedWhileQueued(old(View()), item)
      ensures unchanged(`links, `active, `disposed, `child, `childExited)
      ensures !removed ==> unchanged(this)
      ensures removed ==> outstanding == old(outstanding) - 1
      ensures removed ==> exists i | 0 <= i < |old(queue)| ::
        old(queue)[i] == item && item !in old(queue)[..i] && queue == old(queue)[..i] + old(queue)[i + 1..]
    {
      var idx := 0;
      while idx < |queue| && queue[idx] != item
        invariant 0 <= idx <= |queue|
        invariant View() == old(View()) && item !in queue[..idx]
        invariant IndexOf(queue, item, 0) == IndexOf(queue, item, idx)
      {
        idx := idx + 1;
      }
      removed := idx < |queue|;
      if removed {
        queue := queue[..idx] + queue[idx + 1..];
        outstanding := outstanding - 1;
      }
    }

    method ProcessNext(aborted: set<Item>)
      requires links > 0
      modifies this
      ensures View() == NextBegun(old(View()), aborted)
      ensures unchanged(`disposed, `child, `childExited) && links == old(links) - 1
      ensures if old(queue) == [] then unchanged(`queue, `active, `outstanding) else queue == old(queue)[1..]
      ensures old(queue) != [] ==>
        if old(queue)[0] in aborted then unchanged(`active) && outstanding == old(outstanding) - 1
        else active == Some(old(queue)[0]) && unchanged(`outstanding)
    {
      links := links - 1;
      if queue == [] {
        return;
      }
      var item := queue[0];
      queue := queue[1..];
      if item in aborted {
        outstanding := outstanding - 1;
        return;
      }
      active := Some(item);
    }

    /** The `finally` of a turn, however it ended. */
    method EndTurn()
      modifies this
      ensures View() == TurnEnded(old(View()))
      ensures unchanged(`queue, `links, `disposed, `child, `childExited)
      ensures active.None? && outstanding == old(outstanding) - 1
    {
      active := None;
      outstanding := outstanding - 1;
    }

    method EnsureChild(spawned: Child) returns (running: Child)
      modifies this
      ensures View() == ChildEnsured(old(View()), spawned)
      ensures child == Some(running)
      ensures unchanged(`queue, `outstanding, `links, `active, `disposed)
      ensures running == if old(child).Some? then old(child).value else spawned
      ensures childExited <==> old(childExited) && old(child).Some?
    {
      if child.None? {
        child := Some(spawned);
        childExited := false;
      }
      running := child.value;
    }

    method KillChild()
      modifies this
      ensures View() == ChildKilled(old(View()))
      ensures child.None? && unchanged(`queue, `outstanding, `links, `active, `disposed, `childExited)
    {
      child := None;
    }

    method OnExit(exited: Child)
      modifies this
      ensures View() == ExitHeard(old(View()), exited)
      ensures unchanged(`queue, `outstanding, `links, `active, `disposed)
      ensures if old(child) == Some(exited) then child.None? && childExited else unchanged(`child, `childExited)
    {
      if child != Some(exited) {
        return;
      }
      childExited := true;
      child := None;
    }

    method Dispose() returns (rejected: seq<Item>)
      modifies this
      ensures View() == Disposed(old(View()))
      ensures rejected == if old(disposed) then [] else old(queue)
      ensures disposed && unchanged(`links, `active, `childExited)
      ensures if old(disposed) then unchanged(this)
              else queue == [] && child.None? && outstanding == old(outstanding) - |old(queue)|
    {
      if disposed {
        return [];
      }
      disposed := true;
      rejected := queue;
      queue := [];
      for i := 0 to |rejected|
        invariant View() == old(View()).(disposed := true, queue := [], outstanding := old(outstanding) - i)
      {
        outstanding := outstanding - 1;
      }
      KillChild();
    }
  }
}
