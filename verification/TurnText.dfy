/**
 What each connection's open turn delivered (src/chat/lane-send-outcome.ts, lane-hold-send.ts): a map from
 generation to the end of its text, in insertion order.
 */
module TurnText {
  import opened Options

  const KEPT_TEXT_CHARS: nat := 1_000
  const MAX_OPEN_GENERATIONS: nat := 8

  type Generation = nat

  datatype Open = Open(generation: Generation, kept: string)

  function Find(open: seq<Open>, g: Generation, from: nat): nat
    requires from <= |open|
    ensures from <= Find(open, g, from) <= |open|
    ensures Find(open, g, from) < |open| ==> open[Find(open, g, from)].generation == g
    decreases |open| - from
  {
    if from == |open| || open[from].generation == g then from else Find(open, g, from + 1)
  }

  predicate Has(open: seq<Open>, g: Generation) {
    Find(open, g, 0) < |open|
  }

  /** `Map.set`: a key that is there keeps its place, a new one goes last. */
  function Set(open: seq<Open>, g: Generation, kept: string): seq<Open> {
    var at := Find(open, g, 0);
    if at < |open| then open[at := Open(g, kept)] else open + [Open(g, kept)]
  }

  function RemoveAt(open: seq<Open>, at: nat): seq<Open>
    requires at < |open|
  {
    open[..at] + open[at + 1..]
  }

  function Delete(open: seq<Open>, g: Generation): seq<Open> {
    var at := Find(open, g, 0);
    if at < |open| then RemoveAt(open, at) else open
  }

  function Last(text: string, n: nat): string {
    if |text| <= n then text else text[|text| - n..]
  }

  /** The oldest entries go until no more than the limit are left. */
  function Evict(open: seq<Open>): seq<Open> {
    if |open| <= MAX_OPEN_GENERATIONS then open else open[|open| - MAX_OPEN_GENERATIONS..]
  }

  function Begun(open: seq<Open>, g: Generation): seq<Open> {
    Evict(Set(open, g, ""))
  }

  function Chunked(open: seq<Open>, g: Generation, chunk: string): seq<Open> {
    var at := Find(open, g, 0);
    if at == |open| then open else Set(open, g, Last(open[at].kept + chunk, KEPT_TEXT_CHARS))
  }

  function Delivered(open: seq<Open>, g: Generation): string {
    var at := Find(open, g, 0);
    if at < |open| then open[at].kept else ""
  }

  class TurnTextRecorder {
    var open: seq<Open>

    constructor ()
      ensures open == []
    {
      open := [];
    }

    method Get(g: Generation) returns (at: nat)
      ensures at == Find(open, g, 0)
      ensures at <= |open| && (at < |open| ==> open[at].generation == g)
      ensures forall i | 0 <= i < at :: open[i].generation != g
    {
      at := 0;
      while at < |open| && open[at].generation != g
        invariant at <= |open| && Find(open, g, 0) == Find(open, g, at)
        invariant forall i | 0 <= i < at :: open[i].generation != g
      {
        at := at + 1;
      }
    }

    method SetKept(g: Generation, kept: string)
      modifies this
      ensures open == Set(old(open), g, kept)
      ensures |open| == |old(open)| + if exists i | 0 <= i < |old(open)| :: old(open)[i].generation == g then 0 else 1
      ensures forall i | 0 <= i < |old(open)| && old(open)[i].generation != g :: open[i] == old(open)[i]
      ensures |open| > |old(open)| ==> open == old(open) + [Open(g, kept)]
    {
      var at := Get(g);
      if at < |open| {
        open := open[at := Open(g, kept)];
      } else {
        open := open + [Open(g, kept)];
      }
    }

    method Begin(g: Generation)
      modifies this
      ensures open == Begun(old(open), g)
    {
      SetKept(g, "");
      ghost var all := open;
      while |open| > MAX_OPEN_GENERATIONS
        invariant Evict(open) == Evict(all)
        decreases |open|
      {
        open := open[1..];
      }
    }

    /** The `onText` of the connection of generation `g`: a chunk with no turn open goes nowhere. */
    method Sink(g: Generation, chunk: string) returns (forwarded: bool)
      modifies this
      ensures forwarded <==> Has(old(open), g)
      ensures forwarded <==> exists i | 0 <= i < |old(open)| :: old(open)[i].generation == g
      ensures open == Chunked(old(open), g, chunk)
    {
      var at := Get(g);
      forwarded := at < |open|;
      if forwarded {
        SetKept(g, Last(open[at].kept + chunk, KEPT_TEXT_CHARS));
      }
    }

    method End(g: Generation)
      modifies this
      ensures open == Delete(old(open), g)
      ensures open == old(open) <==> forall i | 0 <= i < |old(open)| :: old(open)[i].generation != g
      ensures open == old(open) || exists at | 0 <= at < |old(open)| ::
        old(open)[at].generation == g && open == old(open)[..at] + old(open)[at + 1..]
    {
      var at := Get(g);
      if at < |open| {
        open := RemoveAt(open, at);
      }
    }
  }

  // Every interleaving of turns and chunks.

  datatype Event = Begin(g: Generation) | Chunk(g: Generation, chunk: string) | End(g: Generation)

  /** `texts`: all that each open turn was sent, whoever else is open. `evicted`: open turns that lost their record. */
  datatype World = World(open: seq<Open>, texts: map<Generation, string>, evicted: set<Generation>)

  const INIT := World([], map[], {})

  /** The recorded turns as a map, their order aside. */
  function Recorded(open: seq<Open>): map<Generation, string> {
    if open == [] then map[]
    else Recorded(open[..|open| - 1])[open[|open| - 1].generation := open[|open| - 1].kept]
  }

  /** The turn that a begin pushes out. */
  function Gone(open: seq<Open>, g: Generation): set<Generation> {
    if Has(open, g) || |open| < MAX_OPEN_GENERATIONS then {} else {open[0].generation}
  }

  function Step(w: World, ev: Event): World {
    match ev
    case Begin(g) => World(Begun(w.open, g), w.texts[g := ""], w.evicted - {g} + Gone(w.open, g))
    case Chunk(g, chunk) =>
      World(Chunked(w.open, g, chunk), if g in w.texts then w.texts[g := w.texts[g] + chunk] else w.texts, w.evicted)
    case End(g) => World(Delete(w.open, g), w.texts - {g}, w.evicted - {g})
  }

  function Run(w: World, evs: seq<Event>): World
    decreases |evs|
  {
    if evs == [] then w else Run(Step(w, evs[0]), evs[1..])
  }

  ghost predicate Distinct(open: seq<Open>) {
    forall i, j | 0 <= i < j < |open| :: open[i].generation != open[j].generation
  }

  ghost predicate Inv(w: World) {
    && |w.open| <= MAX_OPEN_GENERATIONS
    && Distinct(w.open)
    && Recorded(w.open).Keys == w.texts.Keys - w.evicted
    && w.evicted <= w.texts.Keys
    && (forall g | g in Recorded(w.open) :: Recorded(w.open)[g] == Last(w.texts[g], KEPT_TEXT_CHARS))
  }

  // The map and the list.

  lemma {:induction false} RecordedIs(open: seq<Open>, g: Generation)
    requires Distinct(open)
    ensures g in Recorded(open) <==> exists i | 0 <= i < |open| :: open[i].generation == g
    ensures forall i | 0 <= i < |open| :: open[i].generation in Recorded(open) && Recorded(open)[open[i].generation] == open[i].kept
    decreases |open|
  {
    if open != [] {
      var front := open[..|open| - 1];
      RecordedIs(front, g);
      assert forall i | 0 <= i < |front| :: front[i] == open[i];
    }
  }

  lemma {:induction false} FindMisses(open: seq<Open>, g: Generation, from: nat)
    requires from <= |open| && Find(open, g, from) == |open|
    ensures forall i | from <= i < |open| :: open[i].generation != g
    decreases |open| - from
  {
    if from < |open| {
      FindMisses(open, g, from + 1);
    }
  }

  lemma {:induction false} NotFound(open: seq<Open>, g: Generation, from: nat)
    requires from <= |open| && forall i | from <= i < |open| :: open[i].generation != g
    ensures Find(open, g, from) == |open|
    decreases |open| - from
  {
    if from < |open| {
      NotFound(open, g, from + 1);
    }
  }

  lemma FoundIsRecorded(open: seq<Open>, g: Generation)
    requires Distinct(open)
    ensures Has(open, g) <==> g in Recorded(open)
    ensures Delivered(open, g) == if g in Recorded(open) then Recorded(open)[g] else ""
  {
    RecordedIs(open, g);
    if !Has(open, g) {
      FindMisses(open, g, 0);
    }
  }

  lemma {:induction false} ReplacedRecord(open: seq<Open>, at: nat, kept: string)
    requires Distinct(open) && at < |open|
    ensures var next := open[at := Open(open[at].generation, kept)];
      Distinct(next) && Recorded(next) == Recorded(open)[open[at].generation := kept]
    decreases |open|
  {
    var n := |open| - 1;
    var next := open[at := Open(open[at].generation, kept)];
    if at < n {
      assert next[..n] == open[..n][at := Open(open[at].generation, kept)];
      ReplacedRecord(open[..n], at, kept);
      assert open[at].generation != open[n].generation;
    } else {
      assert next[..n] == open[..n];
    }
  }

  lemma {:induction false} RecordedJoins(a: seq<Open>, b: seq<Open>)
    ensures Recorded(a + b) == Recorded(a) + Recorded(b)
    decreases |b|
  {
    if b == [] {
      assert a + b == a;
    } else {
      assert (a + b)[..|a + b| - 1] == a + b[..|b| - 1];
      RecordedJoins(a, b[..|b| - 1]);
    }
  }

  lemma RemovedIsDistinct(open: seq<Open>, at: nat)
    requires Distinct(open) && at < |open|
    ensures Distinct(RemoveAt(open, at))
    ensures NoneIs(RemoveAt(open, at), open[at].generation)
  {
    assert forall i | 0 <= i < |RemoveAt(open, at)| :: RemoveAt(open, at)[i] == open[if i < at then i else i + 1];
  }

  lemma RecordedSplits(a: seq<Open>, x: Open, b: seq<Open>)
    ensures Recorded(a + [x] + b) == Recorded(a) + map[x.generation := x.kept] + Recorded(b)
  {
    RecordedJoins(a + [x], b);
    RecordedJoins(a, [x]);
    RecordedOne(x);
  }

  lemma RecordedOne(x: Open)
    ensures Recorded([x]) == map[x.generation := x.kept]
  {
    assert [x][..0] == [];
  }

  lemma WithoutMiddle(m: map<Generation, string>, g: Generation, kept: string, n: map<Generation, string>)
    requires g !in m && g !in n
    ensures m + n == m + map[g := kept] + n - {g}
  {
  }

  ghost predicate NoneIs(open: seq<Open>, g: Generation) {
    forall i | 0 <= i < |open| :: open[i].generation != g
  }

  lemma {:induction false} RecordedMisses(open: seq<Open>, g: Generation)
    requires NoneIs(open, g)
    ensures g !in Recorded(open)
    decreases |open|
  {
    if open != [] {
      RecordedMisses(open[..|open| - 1], g);
    }
  }

  lemma RemovedBetween(a: seq<Open>, x: Open, b: seq<Open>)
    requires NoneIs(a, x.generation) && NoneIs(b, x.generation)
    ensures Recorded(a + b) == Recorded(a + [x] + b) - {x.generation}
  {
    RecordedMisses(a, x.generation);
    RecordedMisses(b, x.generation);
    RecordedJoins(a, b);
    RecordedSplits(a, x, b);
    WithoutMiddle(Recorded(a), x.generation, x.kept, Recorded(b));
  }

  lemma Rejoins(open: seq<Open>, at: nat)
    requires at < |open|
    ensures open[..at] + [open[at]] + open[at + 1..] == open
  {
  }

  lemma OthersDiffer(open: seq<Open>, at: nat)
    requires Distinct(open) && at < |open|
    ensures NoneIs(open[..at], open[at].generation) && NoneIs(open[at + 1..], open[at].generation)
  {
  }

  lemma RemovedRecord(open: seq<Open>, at: nat)
    requires Distinct(open) && at < |open|
    ensures Recorded(RemoveAt(open, at)) == Recorded(open) - {open[at].generation}
  {
    OthersDiffer(open, at);
    Rejoins(open, at);
    RemovedBetween(open[..at], open[at], open[at + 1..]);
  }

  lemma AddedRecord(open: seq<Open>, g: Generation, kept: string)
    requires Distinct(open) && !Has(open, g)
    ensures Distinct(open + [Open(g, kept)]) && Recorded(open + [Open(g, kept)]) == Recorded(open)[g := kept]
  {
    FindMisses(open, g, 0);
    assert (open + [Open(g, kept)])[..|open|] == open;
  }

  lemma SetRecord(open: seq<Open>, g: Generation, kept: string)
    requires Distinct(open)
    ensures Distinct(Set(open, g, kept)) && Recorded(Set(open, g, kept)) == Recorded(open)[g := kept]
    ensures |Set(open, g, kept)| == |open| + if Has(open, g) then 0 else 1
  {
    if Has(open, g) {
      ReplacedRecord(open, Find(open, g, 0), kept);
    } else {
      AddedRecord(open, g, kept);
    }
  }

  lemma LastOfLast(text: string, chunk: string, n: nat)
    ensures Last(Last(text, n) + chunk, n) == Last(text + chunk, n)
  {
  }

  // One event.

  lemma NinthEvictsFirst(open: seq<Open>, last: Open)
    requires |open| == MAX_OPEN_GENERATIONS
    ensures Evict(open + [last]) == RemoveAt(open + [last], 0) && (open + [last])[0] == open[0]
  {
    assert (open + [last])[..0] == [];
  }

  /**
   A begun turn is recorded empty, whatever was there; and only with eight other turns recorded does another,
   the one whose entry is oldest, lose its record.
   */
  lemma BeginRecords(open: seq<Open>, g: Generation)
    requires Distinct(open) && |open| <= MAX_OPEN_GENERATIONS
    ensures var next := Begun(open, g);
      && Distinct(next) && |next| <= MAX_OPEN_GENERATIONS
      && g !in Gone(open, g)
      && Recorded(next) == Recorded(open)[g := ""] - Gone(open, g)
  {
    var all := Set(open, g, "");
    SetRecord(open, g, "");
    if Gone(open, g) != {} {
      FindMisses(open, g, 0);
      NinthEvictsFirst(open, Open(g, ""));
      RemovedRecord(all, 0);
      RemovedIsDistinct(all, 0);
    } else {
      assert Recorded(open)[g := ""] - {} == Recorded(open)[g := ""];
    }
  }

  lemma BeginKeeps(w: World, g: Generation)
    requires Inv(w)
    ensures Inv(Step(w, Begin(g)))
  {
    BeginRecords(w.open, g);
    if Gone(w.open, g) != {} {
      RecordedIs(w.open, w.open[0].generation);
    }
    assert Last("", KEPT_TEXT_CHARS) == "";
  }

  lemma ChunkKeeps(w: World, g: Generation, chunk: string)
    requires Inv(w)
    ensures Inv(Step(w, Chunk(g, chunk)))
  {
    FoundIsRecorded(w.open, g);
    if Has(w.open, g) {
      SetRecord(w.open, g, Last(w.open[Find(w.open, g, 0)].kept + chunk, KEPT_TEXT_CHARS));
      LastOfLast(w.texts[g], chunk, KEPT_TEXT_CHARS);
    }
  }

  lemma EndKeeps(w: World, g: Generation)
    requires Inv(w)
    ensures Inv(Step(w, End(g)))
  {
    FoundIsRecorded(w.open, g);
    if Has(w.open, g) {
      RemovedRecord(w.open, Find(w.open, g, 0));
      RemovedIsDistinct(w.open, Find(w.open, g, 0));
    }
  }

  lemma StepKeeps(w: World, ev: Event)
    requires Inv(w)
    ensures Inv(Step(w, ev))
  {
    match ev
    case Begin(g) => BeginKeeps(w, g);
    case Chunk(g, chunk) => ChunkKeeps(w, g, chunk);
    case End(g) => EndKeeps(w, g);
  }

  lemma {:induction false} RunKeeps(w: World, evs: seq<Event>)
    requires Inv(w)
    ensures Inv(Run(w, evs))
    decreases |evs|
  {
    if evs != [] {
      StepKeeps(w, evs[0]);
      RunKeeps(Step(w, evs[0]), evs[1..]);
    }
  }

  /** `kept` is the end of `text`: all of it, or its last 1,000 characters. */
  predicate IsEnd(kept: string, text: string) {
    && |kept| == (if |text| <= 1_000 then |text| else 1_000)
    && kept == text[|text| - |kept|..]
  }

  /**
   Over every interleaving: at most eight turns are recorded, and what a generation delivered is the last 1,000
   characters of exactly what its own open turn was sent, unless its record was evicted; with no turn open it
   is nothing.
   */
  lemma DeliversOwnTurn(evs: seq<Event>, g: Generation)
    ensures var w := Run(INIT, evs);
      && |w.open| <= 8
      && if g in w.texts && g !in w.evicted then IsEnd(Delivered(w.open, g), w.texts[g]) else Delivered(w.open, g) == ""
  {
    RunKeeps(INIT, evs);
    FoundIsRecorded(Run(INIT, evs).open, g);
  }

  /** Beginning a turn never costs its own record, and costs another's exactly with eight others recorded. */
  lemma BeginEvictsExactly(evs: seq<Event>, g: Generation, h: Generation)
    ensures var w := Run(INIT, evs);
      && Has(Begun(w.open, g), g)
      && (Has(w.open, h) && !Has(Begun(w.open, g), h) <==>
            !Has(w.open, g) && |w.open| == MAX_OPEN_GENERATIONS && h == w.open[0].generation)
  {
    RunKeeps(INIT, evs);
    EvictsExactly(Run(INIT, evs).open, g, h);
  }

  lemma EvictsExactly(open: seq<Open>, g: Generation, h: Generation)
    requires Distinct(open) && |open| <= MAX_OPEN_GENERATIONS
    ensures Has(Begun(open, g), g)
    ensures Has(open, h) && !Has(Begun(open, g), h) <==>
      !Has(open, g) && |open| == MAX_OPEN_GENERATIONS && h == open[0].generation
  {
    BeginRecords(open, g);
    FoundIsRecorded(open, h);
    FoundIsRecorded(open, g);
    FoundIsRecorded(Begun(open, g), h);
    FoundIsRecorded(Begun(open, g), g);
    if open != [] {
      RecordedIs(open, open[0].generation);
    }
  }

  /**
   The first entry is the oldest turn, not the lowest generation: a connection that sends again after a newer
   one began goes behind it.
   */
  lemma SendingAgainGoesLast(open: seq<Open>, g: Generation)
    requires Distinct(open) && Has(open, g) && 1 < |open| <= MAX_OPEN_GENERATIONS
    ensures var again := Begun(Delete(open, g), g);
      |again| == |open| && again[|again| - 1] == Open(g, "") && again[0].generation != g
  {
    var rest := Delete(open, g);
    RemovedIsDistinct(open, Find(open, g, 0));
    NotFound(rest, g, 0);
    assert Begun(rest, g) == rest + [Open(g, "")];
  }
}
