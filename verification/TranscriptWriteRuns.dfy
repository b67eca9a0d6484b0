/** Any pattern of overlapping and failing saves. */
module TranscriptWriteRuns {
  import opened Options
  import opened TranscriptWrites

  datatype Start = Start(path: Path, save: Save)

  /** `disk`: the save each path's file holds. `landed`: every save whose write went through. */
  datatype World = World(writes: Writes, saves: nat, queues: nat, started: seq<Start>, disk: map<Path, Save>, landed: set<Start>)

  const INIT := World(NO_WRITES, 0, 0, [], map[], {})

  datatype Event =
    | Call(path: Path)
    | Begin(id: QueueId)
    | Settle(id: QueueId, ok: bool)
    | Leave(id: QueueId, save: Save)

  predicate Enabled(w: World, ev: Event) {
    match ev
    case Call(_) => true
    case Begin(id) =>
      id in w.writes.queues && w.writes.queues[id].waiting != [] && w.writes.queues[id].running.None?
    case Settle(id, _) => id in w.writes.queues && w.writes.queues[id].running.Some?
    case Leave(id, save) => id in w.writes.queues && save in w.writes.queues[id].leaving
  }

  ghost predicate Indexed(w: World) {
    forall path | path in w.writes.index ::
      w.writes.index[path] in w.writes.queues && w.writes.queues[w.writes.index[path]].path == path
  }

  function StepCall(w: World, path: Path): World
    requires Indexed(w)
  {
    w.(writes := Joined(w.writes, path, w.saves, w.queues), saves := w.saves + 1, queues := w.queues + 1)
  }

  function StepBegin(w: World, id: QueueId): World
    requires Enabled(w, Begin(id))
  {
    w.(writes := Began(w.writes, id),
       started := w.started + [Start(w.writes.queues[id].path, w.writes.queues[id].waiting[0])])
  }

  function StepSettle(w: World, id: QueueId, ok: bool): World
    requires Enabled(w, Settle(id, ok))
  {
    var q := w.writes.queues[id];
    w.(writes := Settled(w.writes, id),
       disk := if ok then w.disk[q.path := q.running.value] else w.disk,
       landed := w.landed + if ok then {Start(q.path, q.running.value)} else {})
  }

  function Step(w: World, ev: Event): World
    requires Indexed(w) && Enabled(w, ev)
  {
    match ev
    case Call(path) => StepCall(w, path)
    case Begin(id) => StepBegin(w, id)
    case Settle(id, ok) => StepSettle(w, id, ok)
    case Leave(id, save) => w.(writes := Left(w.writes, id, save))
  }

  // The invariant.

  function RunningCount(q: Queue): nat {
    if q.running.Some? then 1 else 0
  }

  ghost predicate Increasing(saves: seq<Save>) {
    forall i, j | 0 <= i < j < |saves| :: saves[i] < saves[j]
  }

  /** A queue counts the saves that have not left it, in call order. */
  ghost predicate QueueSound(q: Queue, saves: nat) {
    && q.depth == |q.waiting| + RunningCount(q) + |q.leaving|
    && Increasing(q.waiting)
    && (forall i | 0 <= i < |q.waiting| :: q.waiting[i] < saves && q.waiting[i] !in q.leaving)
    && (q.running.Some? ==>
          q.running.value < saves && q.running.value !in q.leaving && Behind(q.running.value, q.waiting))
    && (forall save | save in q.leaving :: save < saves)
  }

  ghost predicate Busy(w: World, id: QueueId) {
    id in w.writes.queues && w.writes.queues[id].depth > 0
  }

  /** A queue with saves in it is the one its path leads to; one without is led to by no path. */
  ghost predicate EntriesExact(w: World) {
    && Indexed(w)
    && (forall id | Busy(w, id) ::
          w.writes.queues[id].path in w.writes.index && w.writes.index[w.writes.queues[id].path] == id)
    && (forall path | path in w.writes.index :: Busy(w, w.writes.index[path]))
    && (forall id | id in w.writes.queues :: id < w.queues && QueueSound(w.writes.queues[id], w.saves))
  }

  /** What has started on a path was called before what waits on it, and in call order. */
  ghost predicate StartedInOrder(w: World) {
    && (forall i, j | 0 <= i < j < |w.started| && w.started[i].path == w.started[j].path ::
          w.started[i].save < w.started[j].save)
    && (forall i | 0 <= i < |w.started| :: w.started[i].save < w.saves)
    && (forall i, id | 0 <= i < |w.started| && id in w.writes.queues && w.writes.queues[id].path == w.started[i].path ::
          Behind(w.started[i].save, w.writes.queues[id].waiting))
  }

  ghost predicate Behind(save: Save, waiting: seq<Save>) {
    forall k | 0 <= k < |waiting| :: save < waiting[k]
  }

  /** Each path's file holds the last called of the saves that landed, and what is still to run was called later. */
  ghost predicate DiskNewest(w: World) {
    && (forall s | s in w.landed :: s.path in w.disk && s.save <= w.disk[s.path] && s.save < w.saves)
    && (forall path | path in w.disk :: Start(path, w.disk[path]) in w.landed)
    && (forall s, id | s in w.landed && id in w.writes.queues && w.writes.queues[id].path == s.path ::
          LaterThan(w.writes.queues[id], s.save))
  }

  ghost predicate LaterThan(q: Queue, save: Save) {
    (q.running.Some? ==> save < q.running.value) && Behind(save, q.waiting)
  }

  ghost predicate Inv(w: World) {
    EntriesExact(w) && StartedInOrder(w) && DiskNewest(w)
  }

  /**
   A save that leaves is counted out of its queue, and the path's entry goes with it if and only if it was the last
   one in it; no write is touched.
   */
  lemma LeavesExactly(w: World, id: QueueId, save: Save)
    requires EntriesExact(w) && Enabled(w, Leave(id, save))
    ensures var w', q := Step(w, Leave(id, save)), w.writes.queues[id];
      && id in w'.writes.queues && save !in w'.writes.queues[id].leaving
      && w'.writes.queues[id].depth == q.depth - 1
      && (q.path in w'.writes.index <==> q.waiting != [] || q.running.Some? || q.leaving != {save})
      && (forall path | path != q.path :: path in w'.writes.index <==> path in w.writes.index)
      && w'.disk == w.disk && w'.started == w.started && w'.landed == w.landed
  {
    var q := w.writes.queues[id];
    assert QueueSound(q, w.saves) && |q.leaving - {save}| == |q.leaving| - 1;
    assert Busy(w, id);
    assert q.leaving - {save} == {} <==> q.leaving == {save};
  }

  // One queue.

  lemma JoinedSound(q: Queue, saves: nat)
    requires QueueSound(q, saves)
    ensures QueueSound(q.(depth := q.depth + 1, waiting := q.waiting + [saves]), saves + 1)
  {
  }

  lemma BegunSound(q: Queue, saves: nat)
    requires QueueSound(q, saves) && q.waiting != [] && q.running.None?
    ensures QueueSound(q.(waiting := q.waiting[1..], running := Some(q.waiting[0])), saves)
  {
  }

  lemma SettledSound(q: Queue, saves: nat)
    requires QueueSound(q, saves) && q.running.Some?
    ensures QueueSound(q.(running := None, leaving := q.leaving + {q.running.value}), saves)
  {
  }

  lemma LeftSound(q: Queue, saves: nat, save: Save)
    requires QueueSound(q, saves) && save in q.leaving
    ensures QueueSound(q.(depth := q.depth - 1, leaving := q.leaving - {save}), saves)
  {
  }

  lemma EmptyQueueSound(path: Path, saves: nat)
    ensures QueueSound(Queue(path, 0, [], None, {}), saves)
  {
  }

  lemma SoundLater(q: Queue, saves: nat)
    requires QueueSound(q, saves)
    ensures QueueSound(q, saves + 1)
  {
  }

  // One event.

  /** A call changes the one queue it joins, and at most adds it. */
  lemma CallJoinsOne(w: World, path: Path, other: QueueId)
    requires Indexed(w) && other in StepCall(w, path).writes.queues
    requires other != QueueFor(w.writes, path, w.queues)
    ensures other in w.writes.queues && StepCall(w, path).writes.queues[other] == w.writes.queues[other]
  {
  }

  lemma CallJoinsLast(w: World, path: Path)
    requires EntriesExact(w)
    ensures var id := QueueFor(w.writes, path, w.queues);
      var w' := StepCall(w, path);
      && id in w'.writes.queues && Busy(w', id) && QueueSound(w'.writes.queues[id], w'.saves)
      && w'.writes.queues[id].path == path
      && (if id in w.writes.queues then w.writes.queues[id].path == path &&
            w'.writes.queues[id].waiting == w.writes.queues[id].waiting + [w.saves] &&
            w'.writes.queues[id].running == w.writes.queues[id].running
          else w'.writes.queues[id].waiting == [w.saves] && w'.writes.queues[id].running == None)
  {
    if path in w.writes.index {
      JoinedSound(w.writes.queues[w.writes.index[path]], w.saves);
    } else {
      EmptyQueueSound(path, w.saves);
      JoinedSound(Queue(path, 0, [], None, {}), w.saves);
    }
  }

  lemma CallKeepsEntries(w: World, path: Path)
    requires EntriesExact(w)
    ensures EntriesExact(StepCall(w, path))
  {
    var w' := StepCall(w, path);
    var id := QueueFor(w.writes, path, w.queues);
    CallJoinsLast(w, path);
    forall other | other in w'.writes.queues
      ensures other < w'.queues && QueueSound(w'.writes.queues[other], w'.saves)
    {
      if other != id {
        CallJoinsOne(w, path, other);
        SoundLater(w.writes.queues[other], w.saves);
      }
    }
    CallKeepsIndex(w, path);
  }

  lemma CallKeepsIndex(w: World, path: Path)
    requires EntriesExact(w)
    ensures Indexed(StepCall(w, path))
    ensures var w' := StepCall(w, path);
      && (forall id | Busy(w', id) ::
            w'.writes.queues[id].path in w'.writes.index && w'.writes.index[w'.writes.queues[id].path] == id)
      && (forall p | p in w'.writes.index :: Busy(w', w'.writes.index[p]))
  {
    var w' := StepCall(w, path);
    var id := QueueFor(w.writes, path, w.queues);
    CallJoinsLast(w, path);
    forall other | Busy(w', other)
      ensures w'.writes.queues[other].path in w'.writes.index && w'.writes.index[w'.writes.queues[other].path] == other
    {
      if other != id {
        CallJoinsOne(w, path, other);
        assert Busy(w, other);
      }
    }
    forall p | p in w'.writes.index
      ensures Busy(w', w'.writes.index[p]) && w'.writes.queues[w'.writes.index[p]].path == p
    {
      if p != path {
        assert Busy(w, w.writes.index[p]);
      }
    }
  }

  lemma CallWaitsBehind(w: World, path: Path, i: nat, other: QueueId)
    requires EntriesExact(w) && StartedInOrder(w) && i < |w.started| && other in StepCall(w, path).writes.queues
    requires StepCall(w, path).writes.queues[other].path == w.started[i].path
    ensures Behind(w.started[i].save, StepCall(w, path).writes.queues[other].waiting)
  {
    var id := QueueFor(w.writes, path, w.queues);
    CallJoinsLast(w, path);
    if other != id {
      CallJoinsOne(w, path, other);
      assert Behind(w.started[i].save, w.writes.queues[other].waiting);
    } else if other in w.writes.queues {
      assert Behind(w.started[i].save, w.writes.queues[other].waiting);
    }
  }

  lemma CallKeepsOrder(w: World, path: Path)
    requires EntriesExact(w) && StartedInOrder(w)
    ensures StartedInOrder(StepCall(w, path))
  {
    var w' := StepCall(w, path);
    forall i, other | 0 <= i < |w'.started| && other in w'.writes.queues &&
                      w'.writes.queues[other].path == w'.started[i].path
      ensures Behind(w'.started[i].save, w'.writes.queues[other].waiting)
    {
      CallWaitsBehind(w, path, i, other);
    }
  }

  lemma CallKeepsDisk(w: World, path: Path)
    requires EntriesExact(w) && DiskNewest(w)
    ensures DiskNewest(StepCall(w, path))
  {
    var w' := StepCall(w, path);
    var id := QueueFor(w.writes, path, w.queues);
    CallJoinsLast(w, path);
    forall s, other | s in w'.landed && other in w'.writes.queues && w'.writes.queues[other].path == s.path
      ensures LaterThan(w'.writes.queues[other], s.save)
    {
      if other != id {
        CallJoinsOne(w, path, other);
        assert LaterThan(w.writes.queues[other], s.save);
      } else if other in w.writes.queues {
        assert LaterThan(w.writes.queues[other], s.save);
      }
    }
  }

  lemma BeginKeepsEntries(w: World, id: QueueId)
    requires EntriesExact(w) && Enabled(w, Begin(id))
    ensures EntriesExact(StepBegin(w, id))
  {
    BegunSound(w.writes.queues[id], w.saves);
  }

  lemma BeginKeepsOrder(w: World, id: QueueId)
    requires EntriesExact(w) && StartedInOrder(w) && Enabled(w, Begin(id))
    ensures StartedInOrder(StepBegin(w, id))
  {
    var w' := StepBegin(w, id);
    var q := w.writes.queues[id];
    assert QueueSound(q, w.saves) && Busy(w, id);
    forall i, other | 0 <= i < |w'.started| && other in w'.writes.queues &&
                      w'.writes.queues[other].path == w'.started[i].path
      ensures Behind(w'.started[i].save, w'.writes.queues[other].waiting)
    {
      if i < |w.started| {
        assert Behind(w.started[i].save, w.writes.queues[other].waiting);
      } else if other != id {
        IdleQueue(w, other, id);
      }
    }
  }

  /** Two queues of one path are never both in use. */
  lemma IdleQueue(w: World, other: QueueId, id: QueueId)
    requires EntriesExact(w) && Busy(w, id) && other in w.writes.queues && other != id
    requires w.writes.queues[other].path == w.writes.queues[id].path
    ensures w.writes.queues[other].waiting == [] && w.writes.queues[other].running.None?
  {
    assert QueueSound(w.writes.queues[other], w.saves);
    assert !Busy(w, other);
  }

  lemma BeginKeepsDisk(w: World, id: QueueId)
    requires EntriesExact(w) && DiskNewest(w) && Enabled(w, Begin(id))
    ensures DiskNewest(StepBegin(w, id))
  {
    var w' := StepBegin(w, id);
    forall s, other | s in w'.landed && other in w'.writes.queues && w'.writes.queues[other].path == s.path
      ensures LaterThan(w'.writes.queues[other], s.save)
    {
      assert LaterThan(w.writes.queues[other], s.save);
    }
  }

  lemma SettleKeepsEntries(w: World, id: QueueId, ok: bool)
    requires EntriesExact(w) && Enabled(w, Settle(id, ok))
    ensures EntriesExact(StepSettle(w, id, ok))
  {
    SettledSound(w.writes.queues[id], w.saves);
  }

  lemma SettleKeepsOrder(w: World, id: QueueId, ok: bool)
    requires StartedInOrder(w) && Enabled(w, Settle(id, ok))
    ensures StartedInOrder(StepSettle(w, id, ok))
  {
  }

  lemma SettleKeepsDisk(w: World, id: QueueId, ok: bool)
    requires EntriesExact(w) && DiskNewest(w) && Enabled(w, Settle(id, ok))
    ensures DiskNewest(StepSettle(w, id, ok))
  {
    var w' := StepSettle(w, id, ok);
    var q := w.writes.queues[id];
    assert QueueSound(q, w.saves) && Busy(w, id);
    forall s | s in w'.landed
      ensures s.path in w'.disk && s.save <= w'.disk[s.path] && s.save < w'.saves
    {
      if s in w.landed && s.path == q.path {
        assert LaterThan(q, s.save);
      }
    }
    forall s, other | s in w'.landed && other in w'.writes.queues && w'.writes.queues[other].path == s.path
      ensures LaterThan(w'.writes.queues[other], s.save)
    {
      if s in w.landed {
        assert LaterThan(w.writes.queues[other], s.save);
      } else if other != id {
        IdleQueue(w, other, id);
      }
    }
  }

  lemma LeaveKeepsEntries(w: World, id: QueueId, save: Save)
    requires EntriesExact(w) && Enabled(w, Leave(id, save))
    ensures EntriesExact(Step(w, Leave(id, save)))
  {
    var w' := Step(w, Leave(id, save));
    var q := w.writes.queues[id];
    LeftSound(q, w.saves, save);
    assert |q.leaving| > 0;
    assert Busy(w, id);
    forall other | Busy(w', other)
      ensures w'.writes.queues[other].path in w'.writes.index && w'.writes.index[w'.writes.queues[other].path] == other
    {
      assert Busy(w, other);
    }
    forall p | p in w'.writes.index
      ensures Busy(w', w'.writes.index[p]) && w'.writes.queues[w'.writes.index[p]].path == p
    {
      assert Busy(w, w.writes.index[p]);
    }
  }

  lemma LeaveKeepsOrder(w: World, id: QueueId, save: Save)
    requires EntriesExact(w) && StartedInOrder(w) && DiskNewest(w) && Enabled(w, Leave(id, save))
    ensures StartedInOrder(Step(w, Leave(id, save))) && DiskNewest(Step(w, Leave(id, save)))
  {
    var w' := Step(w, Leave(id, save));
    forall s, other | s in w'.landed && other in w'.writes.queues && w'.writes.queues[other].path == s.path
      ensures LaterThan(w'.writes.queues[other], s.save)
    {
      assert LaterThan(w.writes.queues[other], s.save);
    }
  }

  lemma StepKeeps(w: World, ev: Event)
    requires Inv(w) && Enabled(w, ev)
    ensures Inv(Step(w, ev))
  {
    match ev
    case Call(path) =>
      CallKeepsEntries(w, path);
      CallKeepsOrder(w, path);
      CallKeepsDisk(w, path);
    case Begin(id) =>
      BeginKeepsEntries(w, id);
      BeginKeepsOrder(w, id);
      BeginKeepsDisk(w, id);
    case Settle(id, ok) =>
      SettleKeepsEntries(w, id, ok);
      SettleKeepsOrder(w, id, ok);
      SettleKeepsDisk(w, id, ok);
    case Leave(id, save) =>
      LeaveKeepsEntries(w, id, save);
      LeaveKeepsOrder(w, id, save);
  }

  ghost predicate Runs(w: World, evs: seq<Event>)
    decreases |evs|
  {
    evs == [] || (Indexed(w) && Enabled(w, evs[0]) && Runs(Step(w, evs[0]), evs[1..]))
  }

  ghost function Run(w: World, evs: seq<Event>): World
    requires Runs(w, evs)
    decreases |evs|
  {
    if evs == [] then w else Run(Step(w, evs[0]), evs[1..])
  }

  lemma {:induction false} RunKeeps(w: World, evs: seq<Event>)
    requires Inv(w) && Runs(w, evs)
    ensures Inv(Run(w, evs))
    decreases |evs|
  {
    if evs != [] {
      StepKeeps(w, evs[0]);
      RunKeeps(Step(w, evs[0]), evs[1..]);
    }
  }

  /**
   No two writes of one path run at once, whatever queues came and went; writes of a path start in call order; a
   path has an entry exactly while a save of it has not left; and the file holds the last called of the saves that
   landed.
   */
  ghost predicate Serialized(w: World) {
    && (forall a, b | a in w.writes.queues && b in w.writes.queues && w.writes.queues[a].running.Some? &&
                      w.writes.queues[b].running.Some? && w.writes.queues[a].path == w.writes.queues[b].path :: a == b)
    && (forall i, j | 0 <= i < j < |w.started| && w.started[i].path == w.started[j].path ::
          w.started[i].save < w.started[j].save)
    && (forall id | id in w.writes.queues ::
          Busy(w, id) <==> w.writes.queues[id].path in w.writes.index && w.writes.index[w.writes.queues[id].path] == id)
    && (forall s | s in w.landed :: s.path in w.disk && s.save <= w.disk[s.path])
    && (forall path | path in w.disk :: Start(path, w.disk[path]) in w.landed)
  }

  lemma OneRunsPerPath(w: World, a: QueueId, b: QueueId)
    requires EntriesExact(w) && a in w.writes.queues && b in w.writes.queues
    requires w.writes.queues[a].running.Some? && w.writes.queues[b].running.Some?
    requires w.writes.queues[a].path == w.writes.queues[b].path
    ensures a == b
  {
    assert QueueSound(w.writes.queues[b], w.saves) && Busy(w, b);
    if a != b {
      IdleQueue(w, a, b);
    }
  }

  lemma SoundIsSerialized(w: World)
    requires Inv(w)
    ensures Serialized(w)
  {
    forall a, b | a in w.writes.queues && b in w.writes.queues && w.writes.queues[a].running.Some? &&
                  w.writes.queues[b].running.Some? && w.writes.queues[a].path == w.writes.queues[b].path
      ensures a == b
    {
      OneRunsPerPath(w, a, b);
    }
  }

  /** Serialization, over every run from the start. */
  lemma WritesAreSerialized(evs: seq<Event>)
    requires Runs(INIT, evs)
    ensures Serialized(Run(INIT, evs))
  {
    RunKeeps(INIT, evs);
    SoundIsSerialized(Run(INIT, evs));
  }

  // A failure never blocks.

  /** The saves waiting on a queue run one after another, each landing or failing as `oks` says. */
  function WritesRun(w: World, id: QueueId, oks: seq<bool>): World
    requires id in w.writes.queues && w.writes.queues[id].running.None? && |oks| == |w.writes.queues[id].waiting|
    decreases |oks|
  {
    if oks == [] then w else WritesRun(StepSettle(StepBegin(w, id), id, oks[0]), id, oks[1..])
  }

  /** Whatever fails, every save waiting gets its write, in order. */
  lemma {:induction false} FailuresNeverBlock(w: World, id: QueueId, oks: seq<bool>)
    requires id in w.writes.queues && w.writes.queues[id].running.None? && |oks| == |w.writes.queues[id].waiting|
    ensures var done := WritesRun(w, id, oks);
      var waiting := w.writes.queues[id].waiting;
      && id in done.writes.queues && done.writes.queues[id].waiting == [] && done.writes.queues[id].running.None?
      && |done.started| == |w.started| + |waiting|
      && done.started[..|w.started|] == w.started
      && (forall k | 0 <= k < |waiting| ::
            done.started[|w.started| + k] == Start(w.writes.queues[id].path, waiting[k]))
    decreases |oks|
  {
    if oks != [] {
      var next := StepSettle(StepBegin(w, id), id, oks[0]);
      FailuresNeverBlock(next, id, oks[1..]);
      assert next.started == w.started + [Start(w.writes.queues[id].path, w.writes.queues[id].waiting[0])];
      var done := WritesRun(w, id, oks);
      assert done.started[..|w.started|] == done.started[..|next.started|][..|w.started|] == w.started;
      assert done.started[|w.started|] == done.started[..|next.started|][|w.started|];
    }
  }
}
