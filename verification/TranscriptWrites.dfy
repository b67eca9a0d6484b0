/**
 Saves of one room's transcript, one at a time (src/chat/session-store.ts, `serializedByTranscript`).

 A save is its place in call order. A queue's `tail` is a promise chain: `waiting` are the saves behind the one
 that runs. A queue is an object of its own, and the map only says which one new saves of a path join.
 */
module TranscriptWrites {
  import opened Options

  type Path = nat

  type Save = nat

  type QueueId = nat

  /** `leaving`: saves whose write has settled and whose `finally` is still to run. */
  datatype Queue = Queue(path: Path, depth: int, waiting: seq<Save>, running: Option<Save>, leaving: set<Save>)

  datatype Writes = Writes(index: map<Path, QueueId>, queues: map<QueueId, Queue>)

  const NO_WRITES := Writes(map[], map[])

  function QueueFor(w: Writes, path: Path, spare: QueueId): QueueId {
    if path in w.index then w.index[path] else spare
  }

  function Joined(w: Writes, path: Path, save: Save, spare: QueueId): Writes
    requires path in w.index ==> w.index[path] in w.queues
  {
    var id := QueueFor(w, path, spare);
    var q := if path in w.index then w.queues[id] else Queue(path, 0, [], None, {});
    Writes(w.index[path := id], w.queues[id := q.(depth := q.depth + 1, waiting := q.waiting + [save])])
  }

  function Began(w: Writes, id: QueueId): Writes
    requires id in w.queues && w.queues[id].waiting != []
  {
    var q := w.queues[id];
    w.(queues := w.queues[id := q.(waiting := q.waiting[1..], running := Some(q.waiting[0]))])
  }

  /** A write settles, either way: the chain goes on behind a failure. */
  function Settled(w: Writes, id: QueueId): Writes
    requires id in w.queues && w.queues[id].running.Some?
  {
    var q := w.queues[id];
    w.(queues := w.queues[id := q.(running := None, leaving := q.leaving + {q.running.value})])
  }

  /** The `finally` of a save: the last one out takes the path's entry with it. */
  function Left(w: Writes, id: QueueId, save: Save): Writes
    requires id in w.queues
  {
    var q := w.queues[id].(depth := w.queues[id].depth - 1, leaving := w.queues[id].leaving - {save});
    Writes(if q.depth == 0 then w.index - {q.path} else w.index, w.queues[id := q])
  }

  class TranscriptWriteQueues {
    var index: map<Path, QueueId>
    var queues: map<QueueId, Queue>
    var next: QueueId

    ghost function View(): Writes
      reads this
    {
      Writes(index, queues)
    }

    ghost predicate Valid()
      reads this
    {
      (forall path | path in index :: index[path] in queues) && (forall id | id in queues :: id < next)
    }

    constructor ()
      ensures Valid() && View() == NO_WRITES
    {
      index, queues, next := map[], map[], 0;
    }

    /** What a save does before its first await. */
    method Join(path: Path, save: Save) returns (id: QueueId)
      requires Valid()
      modifies this
      ensures Valid()
      ensures id == QueueFor(old(View()), path, old(next))
      ensures View() == Joined(old(View()), path, save, old(next))
      ensures path in old(index) ==> id == old(index)[path] && index == old(index) && next == old(next)
      ensures path !in old(index) ==> id == old(next) && index == old(index)[path := id] && next == id + 1
      ensures queues == old(queues)[id :=
        if path in old(index) then
          old(queues)[id].(depth := old(queues)[id].depth + 1, waiting := old(queues)[id].waiting + [save])
        else Queue(path, 1, [save], None, {})]
    {
      var queue;
      if path in index {
        id := index[path];
        queue := queues[id];
      } else {
        id := next;
        next := next + 1;
        queue := Queue(path, 0, [], None, {});
        assert queue.waiting + [save] == [save];
      }
      index := index[path := id];
      queues := queues[id := queue.(depth := queue.depth + 1, waiting := queue.waiting + [save])];
    }

    method Leave(id: QueueId, save: Save)
      requires Valid() && id in queues
      modifies this
      ensures Valid()
      ensures View() == Left(old(View()), id, save)
      ensures queues == old(queues)[id :=
        old(queues)[id].(depth := old(queues)[id].depth - 1, leaving := old(queues)[id].leaving - {save})]
      ensures index == if queues[id].depth == 0 then old(index) - {queues[id].path} else old(index)
    {
      var queue := queues[id];
      queue := queue.(depth := queue.depth - 1, leaving := queue.leaving - {save});
      queues := queues[id := queue];
      if queue.depth == 0 {
        index := index - {queue.path};
      }
    }
  }
}
