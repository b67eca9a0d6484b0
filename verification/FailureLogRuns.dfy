/** What the failure log keeps over every run of writes, refused ones included. */
module FailureLogRuns {
  import opened FailureLog

  datatype Write = Write(line: Bytes, disk: Disk)

  /** `logged` is every line that reached the disk, in order; `rotations` and `bytes` count. */
  datatype World = World(file: Bytes, logged: Bytes, rotations: nat, bytes: nat)

  const INIT := World([], [], 0, 0)

  function Step(w: World, write: Write): World {
    if write.disk.RefusesAtOnce? then w
    else
      var landed := Landed(write.line, write.disk);
      World(Torn(w.file, |write.line|, write.disk) + landed, w.logged + landed,
            w.rotations + if Rotates(|w.file|, |write.line|) then 1 else 0, w.bytes + |landed|)
  }

  function Run(w: World, writes: seq<Write>): World
    decreases |writes|
  {
    if writes == [] then w else Run(Step(w, writes[0]), writes[1..])
  }

  predicate Lines(writes: seq<Write>, longest: nat) {
    forall i | 0 <= i < |writes| :: IsLine(writes[i].line) && |writes[i].line| <= longest
  }

  const SHORTEST_LINE: nat := 48
  const LONGEST_LINE: nat := 856

  /**
   The lines the program writes: a timestamp of 24 bytes, one of its causes, 20 to 29 bytes, and 1 to 200 code
   points of detail, each set off by a space, and the line feed.
   */
  predicate FailureLines(writes: seq<Write>) {
    forall i | 0 <= i < |writes| :: IsLine(writes[i].line) && SHORTEST_LINE <= |writes[i].line| <= LONGEST_LINE
  }

  /** The disk refuses nothing half way. */
  predicate TearsNothing(writes: seq<Write>) {
    forall i | 0 <= i < |writes| ::
      !writes[i].disk.TearsRewrite? && (writes[i].disk.TearsAppend? ==> writes[i].disk.written == 0)
  }

  /** The file is the end of all that was logged, from the start of a line on. */
  ghost predicate IsTailOf(file: Bytes, logged: Bytes) {
    && |file| <= |logged|
    && (forall i | 0 <= i < |file| :: file[i] == logged[|logged| - |file| + i])
    && (|file| == |logged| || logged[|logged| - |file| - 1] == LF)
    && (logged == [] || logged[|logged| - 1] == LF)
  }

  lemma {:induction false} FirstLfIsFirst(bytes: Bytes, from: nat, at: nat)
    requires from <= at < |bytes| && bytes[at] == LF
    ensures FirstLf(bytes, from) <= at
    decreases |bytes| - from
  {
    if bytes[from] != LF {
      FirstLfIsFirst(bytes, from + 1, at);
    }
  }

  /** A file that ends in a line feed always has one to cut behind. */
  lemma KeptFromIsLineStart(file: Bytes)
    requires file != [] && file[|file| - 1] == LF
    ensures KeptFrom(file) > 0 && file[KeptFrom(file) - 1] == LF
  {
    var start := if |file| <= KEEP_BYTES then 0 else |file| - KEEP_BYTES;
    FirstLfIsFirst(file, start, |file| - 1);
  }

  /**
   A rotation keeps as much as it may: of the places in the last 32 KiB that a line starts behind a line feed, it cuts
   at the first.
   */
  lemma RotationKeepsMost(file: Bytes, cut: nat)
    requires 0 < cut <= |file| && |file| - cut < KEEP_BYTES && file[cut - 1] == LF
    ensures 0 < KeptFrom(file) <= cut && file[KeptFrom(file) - 1] == LF
  {
    FirstLfIsFirst(file, if |file| <= KEEP_BYTES then 0 else |file| - KEEP_BYTES, cut - 1);
  }

  lemma CutKeepsTail(file: Bytes, logged: Bytes, from: nat)
    requires IsTailOf(file, logged) && 0 < from <= |file| && file[from - 1] == LF
    ensures IsTailOf(file[from..], logged)
  {
  }

  lemma RotatedIsTail(file: Bytes, logged: Bytes, incoming: nat)
    requires IsTailOf(file, logged)
    ensures IsTailOf(Rotated(file, incoming), logged)
  {
    if Rotates(|file|, incoming) && file != [] {
      KeptFromIsLineStart(file);
      CutKeepsTail(file, logged, KeptFrom(file));
    }
  }

  lemma AppendKeepsTail(file: Bytes, logged: Bytes, line: Bytes)
    requires IsTailOf(file, logged) && IsLine(line)
    ensures IsTailOf(file + line, logged + line)
  {
  }

  lemma StepKeepsTail(w: World, write: Write)
    requires IsTailOf(w.file, w.logged) && IsLine(write.line) && TearsNothing([write])
    ensures IsTailOf(Step(w, write).file, Step(w, write).logged)
  {
    assert [write][0] == write;
    if !write.disk.RefusesAtOnce? {
      var rotated := Rotated(w.file, |write.line|);
      RotatedIsTail(w.file, w.logged, |write.line|);
      if write.disk.Writes? {
        AppendKeepsTail(rotated, w.logged, write.line);
      } else {
        assert write.line[..0] == [] && rotated + [] == rotated && w.logged + [] == w.logged;
      }
    }
  }

  lemma {:induction false} RunKeepsTail(w: World, writes: seq<Write>, longest: nat)
    requires IsTailOf(w.file, w.logged) && Lines(writes, longest) && TearsNothing(writes)
    ensures IsTailOf(Run(w, writes).file, Run(w, writes).logged)
    decreases |writes|
  {
    if writes != [] {
      assert [writes[0]][0] == writes[0];
      StepKeepsTail(w, writes[0]);
      RunKeepsTail(Step(w, writes[0]), writes[1..], longest);
    }
  }

  lemma StepKeepsBound(w: World, write: Write)
    requires |w.file| <= MAX_BYTES && |write.line| <= MAX_BYTES - KEEP_BYTES
    ensures |Step(w, write).file| <= MAX_BYTES
  {
  }

  lemma {:induction false} RunKeepsBound(w: World, writes: seq<Write>)
    requires |w.file| <= MAX_BYTES && Lines(writes, MAX_BYTES - KEEP_BYTES)
    ensures |Run(w, writes).file| <= MAX_BYTES
    decreases |writes|
  {
    if writes != [] {
      StepKeepsBound(w, writes[0]);
      RunKeepsBound(Step(w, writes[0]), writes[1..]);
    }
  }

  /** After every run the log is within its cap; and unless a write was torn, it is the end of all it recorded. */
  lemma LogIsCappedTail(writes: seq<Write>)
    requires Lines(writes, MAX_BYTES - KEEP_BYTES)
    ensures var w := Run(INIT, writes);
      |w.file| <= MAX_BYTES && (TearsNothing(writes) ==> IsTailOf(w.file, w.logged))
  {
    RunKeepsBound(INIT, writes);
    if TearsNothing(writes) {
      RunKeepsTail(INIT, writes, MAX_BYTES - KEEP_BYTES);
    }
  }

  /** A rewrite refused half way keeps the OLDEST bytes of the tail: the newest record is cut off or gone. */
  lemma TornRewriteLosesTheNewest(w: World, write: Write)
    requires write.disk.TearsRewrite? && Rotates(|w.file|, |write.line|)
    requires write.disk.written < |Rotated(w.file, |write.line|)|
    ensures var file := Step(w, write).file;
      |file| == write.disk.written && file == Rotated(w.file, |write.line|)[..|file|] && file != Rotated(w.file, |write.line|)
  {
    var torn := Torn(w.file, |write.line|, write.disk);
    assert torn + [] == torn;
  }

  /** A recorded line is the end of the log, and one write brings an oversized old log under the cap. */
  lemma WriteLandsLast(w: World, line: Bytes)
    requires IsLine(line) && |line| <= MAX_BYTES - KEEP_BYTES
    ensures var file := Step(w, Write(line, Writes)).file;
      |file| <= MAX_BYTES && |line| <= |file| && file[|file| - |line|..] == line
  {
  }

  // How often it rotates.

  /** A rotation cuts this much, torn or not. */
  lemma RotationCuts(file: Bytes, incoming: nat, disk: Disk)
    ensures |Torn(file, incoming, disk)| <= |file|
    ensures Rotates(|file|, incoming) ==> |Torn(file, incoming, disk)| + MAX_BYTES - KEEP_BYTES + 2 <= |file| + incoming
  {
  }

  /** Every byte appended is still in the file or was cut by a rotation. */
  lemma StepCosts(w: World, write: Write)
    ensures var w' := Step(w, write);
      || (w'.rotations == w.rotations && |w'.file| <= |w.file| + (w'.bytes - w.bytes))
      || (w'.rotations == w.rotations + 1 &&
          MAX_BYTES - KEEP_BYTES + 2 - |write.line| + |w'.file| <= |w.file| + (w'.bytes - w.bytes))
  {
    RotationCuts(w.file, |write.line|, write.disk);
  }

  lemma StepPays(w: World, write: Write, longest: nat)
    requires |write.line| <= longest
    ensures var w' := Step(w, write);
      (w'.rotations - w.rotations) * (MAX_BYTES - KEEP_BYTES + 2 - longest) + |w'.file| <=
        |w.file| + (w'.bytes - w.bytes)
  {
    StepCosts(w, write);
    var each := MAX_BYTES - KEEP_BYTES + 2 - longest;
    assert 0 * each == 0 && 1 * each == each;
  }

  lemma {:induction false} RunPays(w: World, writes: seq<Write>, longest: nat)
    requires Lines(writes, longest)
    ensures var w' := Run(w, writes);
      (w'.rotations - w.rotations) * (MAX_BYTES - KEEP_BYTES + 2 - longest) + |w'.file| <=
        |w.file| + (w'.bytes - w.bytes)
    decreases |writes|
  {
    if writes != [] {
      var next := Step(w, writes[0]);
      StepPays(w, writes[0], longest);
      RunPays(next, writes[1..], longest);
      var w' := Run(w, writes);
      var each := MAX_BYTES - KEEP_BYTES + 2 - longest;
      Distributes(w'.rotations - next.rotations, next.rotations - w.rotations, each);
    }
  }

  lemma Distributes(a: int, b: int, each: int)
    ensures a * each + b * each == (a + b) * each
  {
  }

  /**
   Rotations are paid for: each costs at least 32,770 bytes less one longest line, so over a run they number at
   most the bytes written divided by that.
   */
  lemma RotationsArePaidFor(writes: seq<Write>, longest: nat)
    requires Lines(writes, longest)
    ensures var w := Run(INIT, writes); w.rotations * (MAX_BYTES - KEEP_BYTES + 2 - longest) + |w.file| <= w.bytes
  {
    RunPays(INIT, writes, longest);
  }

  /** What one rotation costs when no line is longer than the program's longest. */
  const ROTATION_COST: nat := 31_914

  /** The fewest bytes of a file that the longest line makes overflow. */
  const FULL_BYTES: nat := 64_681

  /** Each rotation but the last is paid for, and at the last the file was full. */
  ghost predicate Paid(w: World) {
    && w.rotations * ROTATION_COST + |w.file| <= w.bytes
    && (w.rotations > 0 ==> (w.rotations - 1) * ROTATION_COST + FULL_BYTES <= w.bytes)
  }

  lemma StepIsPaid(w: World, write: Write)
    requires Paid(w) && FailureLines([write])
    ensures Paid(Step(w, write))
  {
    assert [write][0] == write;
    StepPays(w, write, LONGEST_LINE);
  }

  lemma {:induction false} RunIsPaid(w: World, writes: seq<Write>)
    requires Paid(w) && FailureLines(writes)
    ensures Paid(Run(w, writes))
    decreases |writes|
  {
    if writes != [] {
      assert [writes[0]][0] == writes[0];
      StepIsPaid(w, writes[0]);
      RunIsPaid(Step(w, writes[0]), writes[1..]);
    }
  }

  /** The bytes from which on one rotation per 32 KiB is too few: seventy-seven rotations fit in them. */
  const TOO_MANY_BYTES: nat := 2_490_145

  /**
   The program's own lines: a rotation costs at least 31,914 bytes, and up to 2,490,145 bytes the rotations are
   at most one for each 32 KiB and one more. `RotatesMoreThanOncePerKeep` is a run at that very size where they
   are not.
   */
  lemma RotationsOfFailureLines(writes: seq<Write>)
    requires FailureLines(writes)
    ensures var w := Run(INIT, writes);
      && w.rotations * ROTATION_COST + |w.file| <= w.bytes
      && (w.bytes < TOO_MANY_BYTES ==> w.rotations <= 1 + w.bytes / KEEP_BYTES)
  {
    RunIsPaid(INIT, writes);
  }

  // 32 KiB a rotation is too much to promise.

  /** A line of `n` bytes. */
  function TextLine(n: nat): Bytes
    requires n > 0
  {
    seq(n - 1, _ => 65) + [LF]
  }

  lemma TextIsLine(n: nat)
    requires n > 0
    ensures |TextLine(n)| == n && IsLine(TextLine(n))
  {
  }

  function Logging(line: Bytes, n: nat): seq<Write> {
    if n == 0 then [] else [Write(line, Writes)] + Logging(line, n - 1)
  }

  function Repeated(line: Bytes, n: nat): Bytes {
    if n == 0 then [] else Repeated(line, n - 1) + line
  }

  lemma {:induction false} RunJoin(w: World, a: seq<Write>, b: seq<Write>)
    ensures Run(w, a + b) == Run(Run(w, a), b)
    decreases |a|
  {
    if a == [] {
      assert a + b == b;
    } else {
      assert (a + b)[1..] == a[1..] + b;
      RunJoin(Step(w, a[0]), a[1..], b);
    }
  }

  lemma JoinedAreFailureLines(a: seq<Write>, b: seq<Write>)
    requires FailureLines(a) && FailureLines(b)
    ensures FailureLines(a + b)
  {
  }

  lemma {:induction false} LoggingIsFailureLines(line: Bytes, n: nat)
    requires IsLine(line) && SHORTEST_LINE <= |line| <= LONGEST_LINE
    ensures FailureLines(Logging(line, n))
    decreases n
  {
    if n > 0 {
      LoggingIsFailureLines(line, n - 1);
      JoinedAreFailureLines([Write(line, Writes)], Logging(line, n - 1));
    }
  }

  lemma {:induction false} RepeatedHas(line: Bytes, n: nat)
    ensures |Repeated(line, n)| == n * |line|
    decreases n
  {
    if n > 0 {
      RepeatedHas(line, n - 1);
    }
  }

  lemma {:induction false} RepeatedFront(line: Bytes, n: nat)
    ensures line + Repeated(line, n) == Repeated(line, n) + line
    decreases n
  {
    if n > 0 {
      RepeatedFront(line, n - 1);
      assert line + Repeated(line, n) == line + Repeated(line, n - 1) + line;
    } else {
      assert line + [] == [] + line;
    }
  }

  /** What `text` appended without a rotation does. */
  ghost predicate Grew(w: World, w': World, text: Bytes) {
    w'.file == w.file + text && w'.rotations == w.rotations && w'.bytes == w.bytes + |text|
  }

  lemma LineAppends(w: World, line: Bytes)
    requires |w.file| + |line| <= MAX_BYTES
    ensures Grew(w, Step(w, Write(line, Writes)), line)
  {
  }

  lemma GrewTwice(w: World, v: World, u: World, a: Bytes, b: Bytes)
    requires Grew(w, v, a) && Grew(v, u, b)
    ensures Grew(w, u, a + b)
  {
    assert w.file + a + b == w.file + (a + b);
  }

  lemma {:induction false} LoggingAppends(w: World, line: Bytes, n: nat)
    requires |w.file| + |Repeated(line, n)| <= MAX_BYTES
    ensures Grew(w, Run(w, Logging(line, n)), Repeated(line, n))
    decreases n
  {
    if n > 0 {
      RepeatedFront(line, n - 1);
      LoggingTail(line, n);
      var next := Step(w, Write(line, Writes));
      LineAppends(w, line);
      LoggingAppends(next, line, n - 1);
      GrewTwice(w, next, Run(next, Logging(line, n - 1)), line, Repeated(line, n - 1));
    } else {
      assert w.file + [] == w.file;
    }
  }

  lemma LoggingTail(line: Bytes, n: nat)
    requires n > 0
    ensures Logging(line, n) != [] && Logging(line, n)[0] == Write(line, Writes)
    ensures Logging(line, n)[1..] == Logging(line, n - 1)
  {
  }

  /** Three lines the program can write: its longest, and two that make a cycle of 31,914 bytes. */
  datatype Lines3 = Lines3(longest: Bytes, odd: Bytes, plain: Bytes, plains: nat)

  predicate Sized(k: Lines3) {
    && IsLine(k.longest) && |k.longest| == 856
    && IsLine(k.odd) && |k.odd| == 350
    && IsLine(k.plain) && |k.plain| == 853
    && k.plains == 36
  }

  function CycleWrites(k: Lines3): seq<Write> {
    [Write(k.longest, Writes)] + ([Write(k.odd, Writes)] + Logging(k.plain, k.plains))
  }

  /** All of a cycle but its last line. */
  function CycleHead(k: Lines3): Bytes
    requires k.plains > 0
  {
    k.longest + k.odd + Repeated(k.plain, k.plains - 1)
  }

  function Cycle(k: Lines3): Bytes {
    k.longest + k.odd + Repeated(k.plain, k.plains)
  }

  /** What a rotation keeps, and what it finds. */
  function Half(k: Lines3): Bytes {
    k.plain + Cycle(k)
  }

  function Full(k: Lines3): Bytes {
    Half(k) + Cycle(k)
  }

  lemma CycleSplits(k: Lines3)
    requires Sized(k)
    ensures Cycle(k) == CycleHead(k) + k.plain
    ensures |CycleHead(k)| == 31_061 && |Cycle(k)| == ROTATION_COST
    ensures CycleHead(k)[31_060] == LF
  {
    RepeatedHas(k.plain, k.plains);
    RepeatedHas(k.plain, k.plains - 1);
    assert k.longest + k.odd + (Repeated(k.plain, k.plains - 1) + k.plain) == CycleHead(k) + k.plain;
    RepeatedEnds(k.plain, k.plains - 1);
  }

  lemma RepeatedEnds(line: Bytes, n: nat)
    requires IsLine(line) && n > 0
    ensures |Repeated(line, n)| > 0 && Repeated(line, n)[|Repeated(line, n)| - 1] == LF
  {
  }

  /** The longest line rotates the full file, and what is kept is its second half. */
  lemma FullRotates(k: Lines3)
    requires Sized(k)
    ensures |Full(k)| == FULL_BYTES && Rotates(|Full(k)|, LONGEST_LINE)
    ensures Rotated(Full(k), LONGEST_LINE) == Half(k)
  {
    CycleSplits(k);
    var front := k.plain + CycleHead(k);
    assert Full(k) == front + Half(k);
    assert |front| == ROTATION_COST && front[31_913] == LF;
    CutBehind(front, Half(k));
  }

  /** The file's kept tail starts right behind `front`. */
  lemma CutBehind(front: Bytes, rest: Bytes)
    requires |front| == ROTATION_COST && |rest| == KEEP_BYTES - 1 && front[|front| - 1] == LF
    ensures (front + rest)[KeptFrom(front + rest)..] == rest
  {
    var file := front + rest;
    assert file[|front| - 1] == LF && |file| - KEEP_BYTES == |front| - 1;
    assert FirstLf(file, |front| - 1) == |front| - 1;
    assert KeptFrom(file) == |front|;
    assert file[|front|..] == rest;
  }

  lemma WriteThen(w: World, line: Bytes, rest: seq<Write>)
    ensures Run(w, [Write(line, Writes)] + rest) == Run(Step(w, Write(line, Writes)), rest)
  {
    assert ([Write(line, Writes)] + rest)[1..] == rest;
  }

  /** The rest of a cycle, behind its first line. */
  lemma CycleFills(w: World, k: Lines3)
    requires |w.file| + |k.odd| + |Repeated(k.plain, k.plains)| <= MAX_BYTES
    ensures Grew(w, Run(w, [Write(k.odd, Writes)] + Logging(k.plain, k.plains)), k.odd + Repeated(k.plain, k.plains))
  {
    var next := Step(w, Write(k.odd, Writes));
    LineAppends(w, k.odd);
    WriteThen(w, k.odd, Logging(k.plain, k.plains));
    LoggingAppends(next, k.plain, k.plains);
    GrewTwice(w, next, Run(next, Logging(k.plain, k.plains)), k.odd, Repeated(k.plain, k.plains));
  }

  /** A cycle that starts on any file, after its first line has landed behind `before`. */
  lemma CycleLands(w: World, k: Lines3, before: Bytes)
    requires Sized(k) && |before| + |Cycle(k)| <= MAX_BYTES
    requires Step(w, Write(k.longest, Writes)).file == before + k.longest
    ensures var first := Step(w, Write(k.longest, Writes));
      var w' := Run(w, CycleWrites(k));
      && w'.file == before + Cycle(k)
      && w'.rotations == first.rotations
      && w'.bytes == w.bytes + ROTATION_COST
  {
    var first := Step(w, Write(k.longest, Writes));
    CycleSplits(k);
    var rest := k.odd + Repeated(k.plain, k.plains);
    assert Cycle(k) == k.longest + rest;
    CycleFills(first, k);
    WriteThen(w, k.longest, [Write(k.odd, Writes)] + Logging(k.plain, k.plains));
    assert before + k.longest + rest == before + (k.longest + rest);
  }

  lemma OneCycle(w: World, k: Lines3)
    requires Sized(k) && w.file == Full(k)
    ensures var w' := Run(w, CycleWrites(k));
      w'.file == Full(k) && w'.rotations == w.rotations + 1 && w'.bytes == w.bytes + ROTATION_COST
  {
    FullRotates(k);
    CycleSplits(k);
    CycleLands(w, k, Half(k));
  }

  function Cycles(k: Lines3, n: nat): seq<Write> {
    if n == 0 then [] else CycleWrites(k) + Cycles(k, n - 1)
  }

  lemma {:induction false} CyclesRotate(w: World, k: Lines3, n: nat)
    requires Sized(k) && w.file == Full(k)
    ensures var w' := Run(w, Cycles(k, n));
      w'.file == Full(k) && w'.rotations == w.rotations + n && w'.bytes == w.bytes + n * ROTATION_COST
    decreases n
  {
    if n > 0 {
      OneCycle(w, k);
      RunJoin(w, CycleWrites(k), Cycles(k, n - 1));
      CyclesRotate(Run(w, CycleWrites(k)), k, n - 1);
    }
  }

  /** One line and two cycles fill the log. */
  function Filling(k: Lines3): seq<Write> {
    [Write(k.plain, Writes)] + (CycleWrites(k) + CycleWrites(k))
  }

  lemma FillsUp(k: Lines3)
    requires Sized(k)
    ensures var w := Run(INIT, Filling(k)); w.file == Full(k) && w.rotations == 0 && w.bytes == FULL_BYTES
  {
    var w1 := Step(INIT, Write(k.plain, Writes));
    LineAppends(INIT, k.plain);
    assert [] + k.plain == k.plain;
    CycleSplits(k);
    LineAppends(w1, k.longest);
    CycleLands(w1, k, k.plain);
    var w2 := Run(w1, CycleWrites(k));
    LineAppends(w2, k.longest);
    CycleLands(w2, k, Half(k));
    RunJoin(w1, CycleWrites(k), CycleWrites(k));
    WriteThen(INIT, k.plain, CycleWrites(k) + CycleWrites(k));
  }

  lemma CycleIsFailureLines(k: Lines3)
    requires Sized(k)
    ensures FailureLines(CycleWrites(k)) && FailureLines(Filling(k))
  {
    LoggingIsFailureLines(k.plain, k.plains);
    JoinedAreFailureLines([Write(k.odd, Writes)], Logging(k.plain, k.plains));
    JoinedAreFailureLines([Write(k.longest, Writes)], [Write(k.odd, Writes)] + Logging(k.plain, k.plains));
    JoinedAreFailureLines(CycleWrites(k), CycleWrites(k));
    JoinedAreFailureLines([Write(k.plain, Writes)], CycleWrites(k) + CycleWrites(k));
  }

  lemma {:induction false} CyclesAreFailureLines(k: Lines3, n: nat)
    requires Sized(k)
    ensures FailureLines(Cycles(k, n))
    decreases n
  {
    if n > 0 {
      CyclesAreFailureLines(k, n - 1);
      CycleIsFailureLines(k);
      JoinedAreFailureLines(CycleWrites(k), Cycles(k, n - 1));
    }
  }

  const SAMPLE := Lines3(TextLine(856), TextLine(350), TextLine(853), 36)

  /** The cycles, and one more line that the disk refuses once the log has rotated for it. */
  function Overrotating(k: Lines3, n: nat): seq<Write> {
    Filling(k) + (Cycles(k, n) + [Write(k.longest, TearsAppend(0))])
  }

  lemma LastRotates(w: World, k: Lines3)
    requires Sized(k) && w.file == Full(k)
    ensures var w' := Run(w, [Write(k.longest, TearsAppend(0))]);
      w'.rotations == w.rotations + 1 && w'.bytes == w.bytes
  {
    FullRotates(k);
    assert [Write(k.longest, TearsAppend(0))][1..] == [];
  }

  /** Every rotation of these cycles costs what `RotationsOfFailureLines` says is the least. */
  lemma OverrotatingCosts(k: Lines3, n: nat)
    requires Sized(k)
    ensures FailureLines(Overrotating(k, n))
    ensures var w := Run(INIT, Overrotating(k, n));
      w.rotations == n + 1 && w.bytes == FULL_BYTES + n * ROTATION_COST
  {
    var last := [Write(k.longest, TearsAppend(0))];
    var full := Run(INIT, Filling(k));
    FillsUp(k);
    CyclesRotate(full, k, n);
    LastRotates(Run(full, Cycles(k, n)), k);
    RunJoin(full, Cycles(k, n), last);
    RunJoin(INIT, Filling(k), Cycles(k, n) + last);
    CycleIsFailureLines(k);
    CyclesAreFailureLines(k, n);
    JoinedAreFailureLines(Cycles(k, n), last);
    JoinedAreFailureLines(Filling(k), Cycles(k, n) + last);
  }

  /** Lines the program can write, 2,490,145 bytes of them, rotate the log 77 times: 32 KiB each would allow 76. */
  lemma RotatesMoreThanOncePerKeep()
    ensures Sized(SAMPLE) && FailureLines(Overrotating(SAMPLE, 76))
    ensures var w := Run(INIT, Overrotating(SAMPLE, 76));
      w.bytes == TOO_MANY_BYTES && w.rotations > 1 + w.bytes / KEEP_BYTES
  {
    TextIsLine(856);
    TextIsLine(350);
    TextIsLine(853);
    OverrotatingCosts(SAMPLE, 76);
  }
}
