/** Every mix of submits, aborts, turns, crashes and disposal of one pty session. */
module PtySessionRuns {
  import opened Options
  import opened PtySession

  datatype How = Replied | TurnFailed | AbortedQueued | DisposedQueued

  datatype Settlement = Settlement(item: Item, how: How)

  /** `submitted` counts the accepted submits; item n is the n-th of them. */
  datatype World = World(
    session: Session,
    submitted: nat,
    aborted: set<Item>,
    started: seq<Item>,
    settled: seq<Settlement>)

  const INIT := World(INITIAL_SESSION, 0, {}, [], [])

  datatype Event =
    | Submit(aborted: bool)
    | Abort(item: Item)
    | LinkBegins(spawned: Option<Child>)   // no child: none was needed, or it could not be spawned
    | TurnEnds(replied: bool)
    | Dispose
    | WarmUp(warmed: Child)
    | Exits(child: Child)
    | KillChild

  predicate CanLink(w: World) {
    w.session.links > 0 && w.session.active.None?
  }

  predicate Enabled(w: World, ev: Event) {
    match ev
    case Submit(_) => true
    case Abort(item) => item < w.submitted
    case LinkBegins(_) => CanLink(w)
    case TurnEnds(_) => w.session.active.Some?
    case Dispose => true
    case WarmUp(_) => !w.session.disposed
    case Exits(_) => true
    case KillChild => true
  }

  function Settle(items: seq<Item>, how: How): seq<Settlement> {
    seq(|items|, i requires 0 <= i < |items| => Settlement(items[i], how))
  }

  function StepSubmit(w: World, maxPending: nat, aborted: bool): World {
    if SubmissionOf(w.session, maxPending, aborted) == Accepted then
      w.(session := Submitted(w.session, maxPending, w.submitted, aborted), submitted := w.submitted + 1)
    else
      w
  }

  function StepAbort(w: World, item: Item): World {
    w.(session := AbortedWhileQueued(w.session, item),
       aborted := w.aborted + {item},
       settled := w.settled + if item in w.session.queue then [Settlement(item, AbortedQueued)] else [])
  }

  function StepLink(w: World): World
    requires CanLink(w)
  {
    var next := w.(session := NextBegun(w.session, w.aborted));
    if w.session.queue == [] then next
    else if w.session.queue[0] in w.aborted then
      next.(settled := w.settled + [Settlement(w.session.queue[0], AbortedQueued)])
    else
      next.(started := w.started + [w.session.queue[0]])
  }

  /** A turn's first segment reaches into `ensureChild`. */
  function Spawning(w: World, spawned: Option<Child>): World {
    if w.session.active.Some? && spawned.Some? then w.(session := ChildEnsured(w.session, spawned.value)) else w
  }

  function StepTurnEnds(w: World, replied: bool): World
    requires Enabled(w, TurnEnds(replied))
  {
    w.(session := TurnEnded(w.session),
       settled := w.settled + [Settlement(w.session.active.value, if replied then Replied else TurnFailed)])
  }

  function StepDispose(w: World): World {
    w.(session := Disposed(w.session),
       settled := w.settled + if w.session.disposed then [] else Settle(w.session.queue, DisposedQueued))
  }

  function Step(w: World, maxPending: nat, ev: Event): World
    requires Enabled(w, ev)
  {
    match ev
    case Submit(aborted) => StepSubmit(w, maxPending, aborted)
    case Abort(item) => StepAbort(w, item)
    case LinkBegins(spawned) => Spawning(StepLink(w), spawned)
    case TurnEnds(replied) => StepTurnEnds(w, replied)
    case Dispose => StepDispose(w)
    case WarmUp(warmed) => w.(session := ChildEnsured(w.session, warmed))
    case Exits(child) => w.(session := ExitHeard(w.session, child))
    case KillChild => w.(session := ChildKilled(w.session))
  }

  predicate Runs(w: World, maxPending: nat, evs: seq<Event>)
    decreases |evs|
  {
    evs == [] || (Enabled(w, evs[0]) && Runs(Step(w, maxPending, evs[0]), maxPending, evs[1..]))
  }

  function Run(w: World, maxPending: nat, evs: seq<Event>): World
    requires Runs(w, maxPending, evs)
    decreases |evs|
  {
    if evs == [] then w else Run(Step(w, maxPending, evs[0]), maxPending, evs[1..])
  }

  // The invariant.

  ghost predicate Increasing(items: seq<Item>) {
    forall i, j | 0 <= i < j < |items| :: items[i] < items[j]
  }

  function ActiveCount(s: Session): nat {
    if s.active.Some? then 1 else 0
  }

  ghost predicate Accounts(w: World, maxPending: nat) {
    && w.session.outstanding == |w.session.queue| + ActiveCount(w.session) <= maxPending + 1
    && w.session.links >= |w.session.queue|
  }

  /** Turns start in submission order, and everything still queued was submitted after all of them. */
  ghost predicate InOrder(w: World) {
    && Increasing(w.session.queue)
    && Increasing(w.started)
    && (forall item | item in w.session.queue :: item < w.submitted)
    && (forall i | 0 <= i < |w.started| :: w.started[i] < w.submitted)
    && (forall i, item | 0 <= i < |w.started| && item in w.session.queue :: w.started[i] < item)
    && (w.session.active.Some? ==> |w.started| > 0 && w.started[|w.started| - 1] == w.session.active.value)
  }

  ghost predicate IsSettled(w: World, item: Item) {
    exists i | 0 <= i < |w.settled| :: w.settled[i].item == item
  }

  /** Each accepted item is queued, active or settled, in one of them only, and settled once. */
  ghost predicate SettledOnce(w: World) {
    && (forall i, j | 0 <= i < j < |w.settled| :: w.settled[i].item != w.settled[j].item)
    && (forall i | 0 <= i < |w.settled| ::
          && w.settled[i].item < w.submitted
          && w.settled[i].item !in w.session.queue
          && w.session.active != Some(w.settled[i].item))
    && (forall item: Item | item < w.submitted ::
          item in w.session.queue || w.session.active == Some(item) || IsSettled(w, item))
  }

  ghost predicate Inv(w: World, maxPending: nat) {
    Accounts(w, maxPending) && InOrder(w) && SettledOnce(w)
  }

  // One step.

  lemma CutShifts(queue: seq<Item>, idx: nat)
    requires idx < |queue|
    ensures var rest := queue[..idx] + queue[idx + 1..];
      && |rest| == |queue| - 1
      && (forall k | 0 <= k < idx :: rest[k] == queue[k])
      && (forall k | idx <= k < |rest| :: rest[k] == queue[k + 1])
  {
  }

  /** Where the elements of a queue go when one is taken out. */
  lemma WithoutShifts(queue: seq<Item>, item: Item)
    requires item in queue
    ensures var idx := IndexOf(queue, item, 0);
      var rest := Without(queue, item);
      && idx < |queue| && queue[idx] == item && |rest| == |queue| - 1
      && (forall k | 0 <= k < idx :: rest[k] == queue[k])
      && (forall k | idx <= k < |rest| :: rest[k] == queue[k + 1])
  {
    var idx := IndexOf(queue, item, 0);
    assert idx < |queue| by {
      var k :| 0 <= k < |queue| && queue[k] == item;
    }
    CutShifts(queue, idx);
  }

  lemma WithoutIncreases(queue: seq<Item>, item: Item)
    requires Increasing(queue) && item in queue
    ensures Increasing(Without(queue, item))
  {
    var idx := IndexOf(queue, item, 0);
    var rest := Without(queue, item);
    WithoutShifts(queue, item);
    forall i, j | 0 <= i < j < |rest|
      ensures rest[i] < rest[j]
    {
      assert rest[i] == if i < idx then queue[i] else queue[i + 1];
      assert rest[j] == if j < idx then queue[j] else queue[j + 1];
    }
  }

  lemma WithoutHas(queue: seq<Item>, item: Item, e: Item)
    requires Increasing(queue) && item in queue
    ensures e in Without(queue, item) <==> e in queue && e != item
  {
    var idx := IndexOf(queue, item, 0);
    var rest := Without(queue, item);
    WithoutShifts(queue, item);
    if e in queue && e != item {
      var k :| 0 <= k < |queue| && queue[k] == e;
      assert rest[if k < idx then k else k - 1] == e;
    }
    if e in rest {
      var k :| 0 <= k < |rest| && rest[k] == e;
      assert e == queue[if k < idx then k else k + 1];
      assert k < idx ==> queue[k] < queue[idx];
      assert k >= idx ==> queue[idx] < queue[k + 1];
    }
  }

  lemma WithoutKeepsOrder(queue: seq<Item>, item: Item)
    requires Increasing(queue)
    ensures var rest := Without(queue, item);
      && Increasing(rest)
      && |rest| == |queue| - (if item in queue then 1 else 0)
      && (forall e :: e in rest <==> e in queue && e != item)
  {
    if item in queue {
      WithoutShifts(queue, item);
      WithoutIncreases(queue, item);
      forall e: Item
        ensures e in Without(queue, item) <==> e in queue && e != item
      {
        WithoutHas(queue, item, e);
      }
    } else {
      NotFound(queue, item);
    }
  }

  lemma NotFound(queue: seq<Item>, item: Item)
    ensures item in queue || Without(queue, item) == queue
  {
    var idx := IndexOf(queue, item, 0);
    if idx < |queue| {
      assert queue[idx] in queue;
    }
  }

  lemma StaysSettled(w: World, w': World, item: Item)
    requires w.settled <= w'.settled && IsSettled(w, item)
    ensures IsSettled(w', item)
  {
    var i :| 0 <= i < |w.settled| && w.settled[i].item == item;
    assert w'.settled[i].item == item;
  }

  /** Items that leave the queue or the turn and are settled on the way keep the books. */
  lemma SettlingKeepsOnce(w: World, w': World, gone: seq<Item>, how: How)
    requires SettledOnce(w) && Increasing(gone)
    requires w'.submitted == w.submitted && w'.settled == w.settled + Settle(gone, how)
    requires forall item | item in gone :: item < w.submitted && !IsSettled(w, item)
    requires forall item | item in gone :: item !in w'.session.queue && w'.session.active != Some(item)
    requires forall item | item in w'.session.queue :: item in w.session.queue
    requires w'.session.active.Some? ==> w'.session.active == w.session.active || w'.session.active.value in w.session.queue
    requires forall item: Item | item in w.session.queue || w.session.active == Some(item) ::
      item in w'.session.queue || w'.session.active == Some(item) || item in gone
    ensures SettledOnce(w')
  {
    var n := |w.settled|;
    assert forall i | 0 <= i < |gone| :: w'.settled[n + i].item == gone[i];
    forall i, j | 0 <= i < j < |w'.settled|
      ensures w'.settled[i].item != w'.settled[j].item
    {
      if j >= n {
        assert gone[j - n] in gone;
        if i >= n {
          assert gone[i - n] < gone[j - n];
        }
      }
    }
    forall i | 0 <= i < |w'.settled|
      ensures w'.settled[i].item < w'.submitted && w'.settled[i].item !in w'.session.queue &&
              w'.session.active != Some(w'.settled[i].item)
    {
      if i >= n {
        assert gone[i - n] in gone;
      } else {
        assert w'.settled[i] == w.settled[i];
      }
    }
    forall item: Item | item < w'.submitted
      ensures item in w'.session.queue || w'.session.active == Some(item) || IsSettled(w', item)
    {
      if IsSettled(w, item) {
        StaysSettled(w, w', item);
      } else if item in gone {
        var i :| 0 <= i < |gone| && gone[i] == item;
        assert w'.settled[n + i].item == item;
      }
    }
  }

  lemma QueuedIsUnsettled(w: World, item: Item)
    requires SettledOnce(w) && (item in w.session.queue || w.session.active == Some(item))
    ensures !IsSettled(w, item)
  {
  }

  lemma SubmitKeepsOrder(w: World, maxPending: nat, aborted: bool)
    requires Accounts(w, maxPending) && InOrder(w)
    ensures Accounts(StepSubmit(w, maxPending, aborted), maxPending) && InOrder(StepSubmit(w, maxPending, aborted))
  {
    assert forall i | 0 <= i < |w.session.queue| :: w.session.queue[i] in w.session.queue;
  }

  lemma SubmitKeeps(w: World, maxPending: nat, aborted: bool)
    requires Inv(w, maxPending)
    ensures Inv(StepSubmit(w, maxPending, aborted), maxPending)
  {
    var w' := StepSubmit(w, maxPending, aborted);
    SubmitKeepsOrder(w, maxPending, aborted);
    forall item: Item | item < w'.submitted
      ensures item in w'.session.queue || w'.session.active == Some(item) || IsSettled(w', item)
    {
      if item < w.submitted && IsSettled(w, item) {
        var i :| 0 <= i < |w.settled| && w.settled[i].item == item;
        assert w'.settled[i].item == item;
      }
    }
  }

  lemma ShorterQueueInOrder(w: World, w': World)
    requires InOrder(w) && Increasing(w'.session.queue)
    requires forall item | item in w'.session.queue :: item in w.session.queue
    requires w'.started == w.started && w'.submitted == w.submitted && w'.session.active == w.session.active
    ensures InOrder(w')
  {
  }

  lemma AbortKeepsOrder(w: World, maxPending: nat, item: Item)
    requires Accounts(w, maxPending) && InOrder(w)
    ensures Accounts(StepAbort(w, item), maxPending) && InOrder(StepAbort(w, item))
  {
    if item in w.session.queue {
      WithoutKeepsOrder(w.session.queue, item);
      ShorterQueueInOrder(w, StepAbort(w, item));
    }
  }

  lemma AbortKeeps(w: World, maxPending: nat, item: Item)
    requires Inv(w, maxPending)
    ensures Inv(StepAbort(w, item), maxPending)
  {
    AbortKeepsOrder(w, maxPending, item);
    WithoutKeepsOrder(w.session.queue, item);
    if item in w.session.queue {
      QueuedIsUnsettled(w, item);
      assert [Settlement(item, AbortedQueued)] == Settle([item], AbortedQueued);
      ActiveIsNotQueued(w, item);
      SettlingKeepsOnce(w, StepAbort(w, item), [item], AbortedQueued);
    } else {
      assert StepAbort(w, item).settled == w.settled;
      assert forall i :: IsSettled(StepAbort(w, item), i) <==> IsSettled(w, i);
    }
  }

  lemma ActiveIsNotQueued(w: World, item: Item)
    requires InOrder(w) && item in w.session.queue
    ensures w.session.active != Some(item)
  {
  }

  /** A link takes the head off the queue, if there is one, and nothing else. */
  lemma LinkShifts(w: World)
    requires CanLink(w)
    ensures var rest := StepLink(w).session.queue;
      && rest == (if w.session.queue == [] then [] else w.session.queue[1..])
      && (forall item | item in rest :: item in w.session.queue)
      && (forall item | item in w.session.queue :: item == w.session.queue[0] || item in rest)
  {
    var rest := StepLink(w).session.queue;
    assert forall k | 0 <= k < |rest| :: rest[k] == w.session.queue[k + 1];
  }

  lemma HeadIsFirst(queue: seq<Item>)
    requires Increasing(queue) && queue != []
    ensures Increasing(queue[1..]) && forall item | item in queue[1..] :: queue[0] < item
  {
  }

  /** A turn starts: it was submitted after all that started, and before all that is queued. */
  lemma StartInOrder(w: World, w': World, head: Item)
    requires InOrder(w) && head < w.submitted
    requires forall i | 0 <= i < |w.started| :: w.started[i] < head
    requires forall item | item in w.session.queue :: head < item
    requires w'.session.queue == w.session.queue && w'.submitted == w.submitted
    requires w'.started == w.started + [head] && w'.session.active == Some(head)
    ensures InOrder(w')
  {
  }

  lemma LinkKeepsOrder(w: World, maxPending: nat)
    requires Accounts(w, maxPending) && InOrder(w) && CanLink(w)
    ensures Accounts(StepLink(w), maxPending) && InOrder(StepLink(w))
  {
    LinkShifts(w);
    if w.session.queue != [] {
      var head := w.session.queue[0];
      var shorter := w.(session := w.session.(queue := w.session.queue[1..]));
      assert head in w.session.queue;
      HeadIsFirst(w.session.queue);
      ShorterQueueInOrder(w, shorter);
      if head in w.aborted {
        ShorterQueueInOrder(w, StepLink(w));
      } else {
        StartInOrder(shorter, StepLink(w), head);
      }
    }
  }

  lemma LinkKeepsOnce(w: World)
    requires InOrder(w) && SettledOnce(w) && CanLink(w)
    ensures SettledOnce(StepLink(w))
  {
    var w' := StepLink(w);
    LinkShifts(w);
    if w.session.queue != [] && w.session.queue[0] in w.aborted {
      var head := w.session.queue[0];
      HeadIsFirst(w.session.queue);
      assert head in w.session.queue;
      QueuedIsUnsettled(w, head);
      assert [Settlement(head, AbortedQueued)] == Settle([head], AbortedQueued);
      SettlingKeepsOnce(w, w', [head], AbortedQueued);
    } else {
      assert w'.settled == w.settled + Settle([], AbortedQueued);
      SettlingKeepsOnce(w, w', [], AbortedQueued);
    }
  }

  lemma LinkKeeps(w: World, maxPending: nat)
    requires Inv(w, maxPending) && CanLink(w)
    ensures Inv(StepLink(w), maxPending)
  {
    LinkKeepsOrder(w, maxPending);
    LinkKeepsOnce(w);
  }

  lemma TurnEndKeeps(w: World, maxPending: nat, replied: bool)
    requires Inv(w, maxPending) && Enabled(w, TurnEnds(replied))
    ensures Inv(StepTurnEnds(w, replied), maxPending)
  {
    var item := w.session.active.value;
    var how := if replied then Replied else TurnFailed;
    QueuedIsUnsettled(w, item);
    assert [Settlement(item, how)] == Settle([item], how);
    SettlingKeepsOnce(w, StepTurnEnds(w, replied), [item], how);
  }

  lemma DisposeKeeps(w: World, maxPending: nat)
    requires Inv(w, maxPending)
    ensures Inv(StepDispose(w), maxPending)
  {
    var w' := StepDispose(w);
    if !w.session.disposed {
      forall item | item in w.session.queue
        ensures item < w.submitted && !IsSettled(w, item) && w'.session.active != Some(item)
      {
        QueuedIsUnsettled(w, item);
        ActiveIsNotQueued(w, item);
      }
      SettlingKeepsOnce(w, w', w.session.queue, DisposedQueued);
    } else {
      assert w'.settled == w.settled;
    }
  }

  lemma StepKeeps(w: World, maxPending: nat, ev: Event)
    requires Inv(w, maxPending) && Enabled(w, ev)
    ensures Inv(Step(w, maxPending, ev), maxPending)
  {
    match ev
    case Submit(aborted) => SubmitKeeps(w, maxPending, aborted);
    case Abort(item) => AbortKeeps(w, maxPending, item);
    case LinkBegins(spawned) =>
      LinkKeeps(w, maxPending);
      ChildKeeps(StepLink(w), Step(w, maxPending, ev), maxPending);
    case TurnEnds(replied) => TurnEndKeeps(w, maxPending, replied);
    case Dispose => DisposeKeeps(w, maxPending);
    case WarmUp(_) => ChildKeeps(w, Step(w, maxPending, ev), maxPending);
    case Exits(_) => ChildKeeps(w, Step(w, maxPending, ev), maxPending);
    case KillChild => ChildKeeps(w, Step(w, maxPending, ev), maxPending);
  }

  lemma ChildKeeps(w: World, w': World, maxPending: nat)
    requires Inv(w, maxPending)
    requires w' == w.(session := w.session.(child := w'.session.child, childExited := w'.session.childExited))
    ensures Inv(w', maxPending)
  {
    assert forall item :: IsSettled(w', item) <==> IsSettled(w, item);
  }

  lemma {:induction false} RunKeeps(w: World, maxPending: nat, evs: seq<Event>)
    requires Inv(w, maxPending) && Runs(w, maxPending, evs)
    ensures Inv(Run(w, maxPending, evs), maxPending)
    decreases |evs|
  {
    if evs != [] {
      StepKeeps(w, maxPending, evs[0]);
      RunKeeps(Step(w, maxPending, evs[0]), maxPending, evs[1..]);
    }
  }

  /**
   Over every run: outstanding counts the queued and the active, within the cap; turns start in submission
   order; every accepted item is queued, active or settled, settled at most once; and there are links enough.
   */
  lemma QueueAccounts(maxPending: nat, evs: seq<Event>)
    requires Runs(INIT, maxPending, evs)
    ensures var w := Run(INIT, maxPending, evs);
      && w.session.outstanding == |w.session.queue| + ActiveCount(w.session) <= maxPending + 1
      && Increasing(w.started)
      && (forall i, j | 0 <= i < j < |w.settled| :: w.settled[i].item != w.settled[j].item)
      && (forall item: Item | item < w.submitted ::
            (if item in w.session.queue then 1 else 0) + (if w.session.active == Some(item) then 1 else 0) +
            (if IsSettled(w, item) then 1 else 0) == 1)
      && |w.session.queue| <= w.session.links
  {
    RunKeeps(INIT, maxPending, evs);
    var w := Run(INIT, maxPending, evs);
    forall item: Item | item < w.submitted
      ensures (if item in w.session.queue then 1 else 0) + (if w.session.active == Some(item) then 1 else 0) +
              (if IsSettled(w, item) then 1 else 0) == 1
    {
      if item in w.session.queue {
        QueuedIsUnsettled(w, item);
        ActiveIsNotQueued(w, item);
      } else if w.session.active == Some(item) {
        QueuedIsUnsettled(w, item);
      }
    }
  }

  /** Over every run a submit is taken if and only if its signal is quiet and fewer than the cap wait or run. */
  lemma SubmitTakenExactly(maxPending: nat, evs: seq<Event>, aborted: bool)
    requires Runs(INIT, maxPending, evs)
    ensures var w := Run(INIT, maxPending, evs);
      var w' := Step(w, maxPending, Submit(aborted));
      && (w'.submitted == w.submitted + 1 <==> !aborted && |w.session.queue| + ActiveCount(w.session) <= maxPending)
      && w'.session.queue == w.session.queue + (if w'.submitted == w.submitted then [] else [w.submitted])
  {
    RunKeeps(INIT, maxPending, evs);
    SubmitIsExact(Run(INIT, maxPending, evs), maxPending, aborted);
  }

  lemma SubmitIsExact(w: World, maxPending: nat, aborted: bool)
    requires Inv(w, maxPending)
    ensures var w' := Step(w, maxPending, Submit(aborted));
      && (w'.submitted == w.submitted + 1 <==> !aborted && |w.session.queue| + ActiveCount(w.session) <= maxPending)
      && w'.session.queue == w.session.queue + (if w'.submitted == w.submitted then [] else [w.submitted])
  {
  }

  /** How an item was settled says what became of it. */
  predicate SettledTruly(w: World, s: Settlement) {
    match s.how
    case Replied => s.item in w.started
    case TurnFailed => s.item in w.started
    case AbortedQueued => s.item in w.aborted
    case DisposedQueued => w.session.disposed
  }

  ghost predicate Truthful(w: World) {
    && (forall i | 0 <= i < |w.settled| :: SettledTruly(w, w.settled[i]))
    && (w.session.active.Some? ==> w.session.active.value in w.started)
  }

  lemma StepStaysTruthful(w: World, maxPending: nat, ev: Event)
    requires Truthful(w) && Enabled(w, ev)
    ensures Truthful(Step(w, maxPending, ev))
  {
    var w' := Step(w, maxPending, ev);
    StartedStays(w, maxPending, ev);
    forall i | 0 <= i < |w'.settled|
      ensures SettledTruly(w', w'.settled[i])
    {
      if i < |w.settled| {
        assert SettledTruly(w, w.settled[i]) && w'.settled[i] == w.settled[i];
      }
    }
  }

  lemma StartedStays(w: World, maxPending: nat, ev: Event)
    requires Enabled(w, ev)
    ensures forall item | item in w.started :: item in Step(w, maxPending, ev).started
  {
  }

  lemma {:induction false} RunStaysTruthful(w: World, maxPending: nat, evs: seq<Event>)
    requires Truthful(w) && Runs(w, maxPending, evs)
    ensures Truthful(Run(w, maxPending, evs))
    decreases |evs|
  {
    if evs != [] {
      StepStaysTruthful(w, maxPending, evs[0]);
      RunStaysTruthful(Step(w, maxPending, evs[0]), maxPending, evs[1..]);
    }
  }

  /**
   Over every run: an item ends in a reply or a failure only if its turn started, as aborted only if its signal
   fired, as disposed only if the session was.
   */
  lemma SettlementsAreTrue(maxPending: nat, evs: seq<Event>)
    requires Runs(INIT, maxPending, evs)
    ensures var w := Run(INIT, maxPending, evs); forall i | 0 <= i < |w.settled| :: SettledTruly(w, w.settled[i])
  {
    RunStaysTruthful(INIT, maxPending, evs);
  }

  // Nothing is stranded.

  /** One link runs to its end: the turn it starts, if any, ends in a reply or a failure. */
  function LinkRuns(w: World, replied: bool): World
    requires CanLink(w)
  {
    var begun := StepLink(w);
    if begun.session.active.Some? then StepTurnEnds(begun, replied) else begun
  }

  function Drained(w: World, replied: bool): World
    requires w.session.active.None?
    decreases w.session.links
  {
    if w.session.links == 0 then w else Drained(LinkRuns(w, replied), replied)
  }

  /** Left alone, the chain settles every item ever accepted. */
  lemma {:induction false} ChainDrains(w: World, maxPending: nat, replied: bool)
    requires Inv(w, maxPending) && w.session.active.None?
    ensures var done := Drained(w, replied);
      && done.submitted == w.submitted
      && done.session.queue == []
      && done.session.outstanding == 0
      && (forall item: Item | item < w.submitted :: IsSettled(done, item))
    decreases w.session.links
  {
    if w.session.links > 0 {
      LinkKeeps(w, maxPending);
      var begun := StepLink(w);
      if begun.session.active.Some? {
        TurnEndKeeps(begun, maxPending, replied);
      }
      ChainDrains(LinkRuns(w, replied), maxPending, replied);
    }
  }

  // Disposal and the child.

  /** Disposal settles what was queued and no more: a later submit is taken as before it. */
  lemma DisposedStillAccepts(w: World, maxPending: nat, aborted: bool)
    requires Inv(w, maxPending)
    ensures var w' := StepDispose(w);
      SubmissionOf(w'.session, maxPending, aborted) == Accepted <==>
        !aborted &&
        ActiveCount(w.session) + (if w.session.disposed then |w.session.queue| else 0) < maxPending + 1
  {
  }

  /**
   The flag a turn's loops read goes up if and only if the child of the moment exits, and down if and only if a
   child is spawned where there is none: by a warm-up, or by a turn that begins. A child of the moment is lost to its
   exit, a kill or the disposal alone.
   */
  lemma ExitHeardExactly(w: World, maxPending: nat, ev: Event)
    requires Enabled(w, ev)
    ensures var s, s' := w.session, Step(w, maxPending, ev).session;
      && (!s.childExited ==> (s'.childExited <==> ev.Exits? && s.child == Some(ev.child)))
      && (s.childExited ==> (!s'.childExited <==> s.child.None? && s'.child.Some?))
      && (s.child.Some? ==> s'.child == s.child || s'.child.None?)
      && (s.child.None? ==>
            s'.child == if ev.WarmUp? then Some(ev.warmed)
                        else if ev.LinkBegins? && s'.active.Some? then ev.spawned
                        else None)
      && (s.child.Some? ==>
            (s'.child.None? <==>
               ev == Exits(s.child.value) || ev.KillChild? || (ev.Dispose? && !s.disposed)))
  {
  }

  /** A turn is in flight and no exit could reach it. */
  predicate IsDeaf(s: Session) {
    s.active.Some? && s.child.None? && !s.childExited
  }

  /** The two events that would change that. */
  predicate Relieves(ev: Event) {
    ev.TurnEnds? || ev.WarmUp?
  }

  predicate NoneRelieves(evs: seq<Event>) {
    forall i | 0 <= i < |evs| :: !Relieves(evs[i])
  }

  lemma {:induction false} StaysDeaf(w: World, maxPending: nat, evs: seq<Event>)
    requires IsDeaf(w.session) && Runs(w, maxPending, evs) && NoneRelieves(evs)
    ensures IsDeaf(Run(w, maxPending, evs).session)
    ensures Run(w, maxPending, evs).session.active == w.session.active
    decreases |evs|
  {
    if evs != [] {
      assert !Relieves(evs[0]);
      StaysDeaf(Step(w, maxPending, evs[0]), maxPending, evs[1..]);
    }
  }

  /**
   A turn in flight when its child is killed is never told of the exit: whatever is submitted, aborted, disposed
   or exits after, for as long as the turn lasts and no child is warmed up, the flag its loops read stays down.
   */
  lemma KilledChildExitsUnheard(w: World, maxPending: nat, evs: seq<Event>)
    requires w.session.active.Some? && !w.session.childExited
    requires Runs(Step(w, maxPending, KillChild), maxPending, evs) && NoneRelieves(evs)
    ensures var w' := Run(Step(w, maxPending, KillChild), maxPending, evs);
      !w'.session.childExited && w'.session.active == w.session.active
  {
    StaysDeaf(Step(w, maxPending, KillChild), maxPending, evs);
  }

  predicate NoneEnds(evs: seq<Event>) {
    forall i | 0 <= i < |evs| :: !evs[i].TurnEnds?
  }

  /** Once disposed, a session warms nothing up. */
  lemma {:induction false} DisposedStaysDisposed(w: World, maxPending: nat, evs: seq<Event>)
    requires w.session.disposed && Runs(w, maxPending, evs) && NoneEnds(evs)
    ensures NoneRelieves(evs)
    decreases |evs|
  {
    if evs != [] {
      assert !evs[0].TurnEnds? && !Relieves(evs[0]);
      DisposedStaysDisposed(Step(w, maxPending, evs[0]), maxPending, evs[1..]);
    }
  }

  /** The turn a disposal finds in flight cannot end as a dead child, in any run: only in a reply, an abort or the cap. */
  lemma DisposedTurnHearsNoExit(w: World, maxPending: nat, evs: seq<Event>)
    requires w.session.active.Some? && !w.session.childExited && !w.session.disposed
    requires Runs(StepDispose(w), maxPending, evs) && NoneEnds(evs)
    ensures var w' := Run(StepDispose(w), maxPending, evs);
      !w'.session.childExited && w'.session.active == w.session.active
  {
    DisposedStaysDisposed(StepDispose(w), maxPending, evs);
    StaysDeaf(StepDispose(w), maxPending, evs);
  }
}
