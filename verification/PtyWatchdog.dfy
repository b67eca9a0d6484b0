/**
 The polling loop of one turn (src/chat/pty-session.ts, `awaitCompletion`): it ends with a reply, an abort, a
 dead child or the idle cap, and it always ends.

 What the loop sees at its i-th pass is `look(i)`: the signal, the child, one poll of the reader, the clock.
 */
module PtyWatchdog {

  datatype Look = Look(aborted: bool, childExited: bool, reply: string, complete: bool, nowMs: int)

  datatype Tuning = Tuning(pollMs: nat, stallMs: int, idleCapMs: int)

  datatype Outcome = Replied(reply: string) | Aborted | ChildExited | Capped

  ghost predicate Ticks(look: nat -> Look, t: Tuning, i: nat) {
    look(i).nowMs + t.pollMs <= look(i + 1).nowMs
  }

  ghost predicate AtMost(look: nat -> Look, longest: nat, i: nat) {
    |look(i).reply| <= longest
  }

  /** Each sleep moves the clock by at least `pollMs`, and no reply is longer than `longest`. */
  ghost predicate Lives(look: nat -> Look, startMs: int, t: Tuning, longest: nat) {
    && t.pollMs > 0
    && startMs <= look(0).nowMs
    && (forall i: nat :: Ticks(look, t, i))
    && (forall i: nat :: AtMost(look, longest, i))
  }

  /** The longest reply of the first `n` polls. */
  function LongestReply(look: nat -> Look, n: nat): nat {
    if n == 0 then 0
    else if |look(n - 1).reply| > LongestReply(look, n - 1) then |look(n - 1).reply|
    else LongestReply(look, n - 1)
  }

  /** When a poll last returned a longer reply than every poll before it, or the turn's start. */
  function LastProgress(look: nat -> Look, startMs: int, n: nat): int {
    if n == 0 then startMs
    else if |look(n - 1).reply| > LongestReply(look, n - 1) then look(n - 1).nowMs
    else LastProgress(look, startMs, n - 1)
  }

  function IdleMs(look: nat -> Look, startMs: int, i: nat): int {
    look(i).nowMs - LastProgress(look, startMs, i + 1)
  }

  predicate HasReply(l: Look) {
    l.complete && l.reply != ""
  }

  /** Pass `i` ends the turn. */
  predicate Ends(look: nat -> Look, startMs: int, t: Tuning, i: nat) {
    look(i).aborted || look(i).childExited || HasReply(look(i)) || IdleMs(look, startMs, i) >= t.idleCapMs
  }

  /** In the loop's own order: the signal first, then the child, the marker, and the clock last. */
  function OutcomeAt(look: nat -> Look, i: nat): Outcome {
    if look(i).aborted then Aborted
    else if look(i).childExited then ChildExited
    else if HasReply(look(i)) then Replied(look(i).reply)
    else Capped
  }

  method AwaitCompletion(look: nat -> Look, startMs: int, t: Tuning, ghost longest: nat)
    returns (outcome: Outcome, last: nat, stalls: nat)
    requires Lives(look, startMs, t, longest)
    ensures Ends(look, startMs, t, last) && (forall i: nat | i < last :: !Ends(look, startMs, t, i))
    ensures outcome == OutcomeAt(look, last)
    ensures outcome.Aborted? <==> look(last).aborted
    ensures outcome.ChildExited? <==> !look(last).aborted && look(last).childExited
    ensures outcome.Replied? <==>
      !look(last).aborted && !look(last).childExited && look(last).complete && look(last).reply != ""
    ensures outcome.Replied? ==> outcome.reply == look(last).reply
    ensures outcome.Capped? ==> look(last).nowMs - LastProgress(look, startMs, last + 1) >= t.idleCapMs
    ensures forall i: nat | i < last ::
      !look(i).aborted && !look(i).childExited && !(look(i).complete && look(i).reply != "")
    ensures last <= (longest + 1) * PassesPerGrowth(t)
    ensures stalls <= 1
    ensures stalls == 1 ==> exists i: nat | i <= last :: IdleMs(look, startMs, i) >= t.stallMs
    ensures stalls == 0 ==> forall i: nat | i < last :: IdleMs(look, startMs, i) < t.stallMs
  {
    var lastLen: nat := 0;
    var lastProgress := startMs;
    last, stalls := 0, 0;
    while true
      invariant lastLen == LongestReply(look, last) && lastProgress == LastProgress(look, startMs, last)
      invariant lastLen <= longest && lastProgress <= look(last).nowMs
      invariant last > 0 ==> lastProgress <= look(last - 1).nowMs < lastProgress + t.idleCapMs
      invariant last > 0 ==> Ticks(look, t, last - 1)
      invariant last <= (longest + 1) * PassesPerGrowth(t)
      invariant stalls <= 1
      invariant forall i: nat | i < last :: !Ends(look, startMs, t, i)
      invariant forall i: nat | i < last ::
        !look(i).aborted && !look(i).childExited && !(look(i).complete && look(i).reply != "")
      invariant stalls == 1 ==> exists i: nat | i < last :: IdleMs(look, startMs, i) >= t.stallMs
      invariant stalls == 0 ==> forall i: nat | i < last :: IdleMs(look, startMs, i) < t.stallMs
      decreases longest - lastLen, t.idleCapMs + lastProgress - (if last == 0 then startMs - 1 else look(last - 1).nowMs)
    {
      assert AtMost(look, longest, last) && Ticks(look, t, last);
      if look(last).aborted {
        return Aborted, last, stalls;
      }
      if look(last).childExited {
        return ChildExited, last, stalls;
      }
      var reply, complete := look(last).reply, look(last).complete;
      if complete && reply != "" {
        return Replied(reply), last, stalls;
      }
      var now := look(last).nowMs;
      if |reply| > lastLen {
        lastLen := |reply|;
        lastProgress := now;
      }
      var idleMs := now - lastProgress;
      assert idleMs == IdleMs(look, startMs, last);
      if stalls == 0 && idleMs >= t.stallMs {
        stalls := 1;
      }
      if idleMs >= t.idleCapMs {
        return Capped, last, stalls;
      }
      EndsWithin(look, startMs, t, longest, last + 1);
      last := last + 1;
    }
  }

  /** Whole polls in `ms`: the quotient of a division. */
  function Polls(ms: int, pollMs: nat): nat
    requires pollMs > 0
    decreases ms
  {
    if ms < pollMs then 0 else 1 + Polls(ms - pollMs, pollMs)
  }

  lemma {:induction false} PollsDivide(ms: nat, pollMs: nat)
    requires pollMs > 0
    ensures Polls(ms, pollMs) * pollMs <= ms < Polls(ms, pollMs) * pollMs + pollMs
    decreases ms
  {
    if ms >= pollMs {
      PollsDivide(ms - pollMs, pollMs);
      assert Polls(ms, pollMs) * pollMs == Polls(ms - pollMs, pollMs) * pollMs + pollMs;
    }
  }

  lemma {:induction false} PollsOrdered(a: int, b: int, pollMs: nat)
    requires pollMs > 0 && a <= b
    ensures Polls(a, pollMs) <= Polls(b, pollMs)
    decreases b
  {
    if a >= pollMs {
      PollsOrdered(a - pollMs, b - pollMs, pollMs);
    }
  }

  /** Passes from one growth of the reply to the next. */
  function PassesPerGrowth(t: Tuning): nat
    requires t.pollMs > 0
  {
    Polls(t.idleCapMs, t.pollMs) + 1
  }

  lemma LongestIsReached(look: nat -> Look, longest: nat, n: nat)
    requires forall i: nat :: AtMost(look, longest, i)
    ensures LongestReply(look, n) <= longest
  {
    if n > 0 {
      assert AtMost(look, longest, n - 1);
    }
  }

  lemma ProgressIsPast(look: nat -> Look, startMs: int, t: Tuning, longest: nat, n: nat)
    requires Lives(look, startMs, t, longest) && n > 0
    ensures startMs <= LastProgress(look, startMs, n) <= look(n - 1).nowMs
  {
    if n > 1 {
      ProgressIsPast(look, startMs, t, longest, n - 1);
      assert Ticks(look, t, n - 2);
    }
  }

  /** Each growth buys at most `PassesPerGrowth` passes, and the reply grows at most `longest` times. */
  lemma {:induction false} PassesSoFar(look: nat -> Look, startMs: int, t: Tuning, longest: nat, n: nat)
    requires Lives(look, startMs, t, longest) && n > 0
    requires forall i: nat | i < n :: !Ends(look, startMs, t, i)
    ensures n <= LongestReply(look, n) * PassesPerGrowth(t) +
                 Polls(look(n - 1).nowMs - LastProgress(look, startMs, n), t.pollMs) + 1
  {
    ProgressIsPast(look, startMs, t, longest, n);
    if n > 1 {
      PassesSoFar(look, startMs, t, longest, n - 1);
      assert !Ends(look, startMs, t, n - 2);
      var grown := LongestReply(look, n - 1);
      var idle := look(n - 2).nowMs - LastProgress(look, startMs, n - 1);
      if |look(n - 1).reply| > grown {
        PollsOrdered(idle, t.idleCapMs, t.pollMs);
        GrowthBuys(grown, LongestReply(look, n), PassesPerGrowth(t));
      } else {
        assert Ticks(look, t, n - 2);
        ProgressIsPast(look, startMs, t, longest, n - 1);
        PollsOrdered(idle, look(n - 1).nowMs - LastProgress(look, startMs, n) - t.pollMs, t.pollMs);
      }
    }
  }

  lemma {:induction false} GrowthBuys(before: nat, after: nat, passes: nat)
    requires after > before
    ensures after * passes >= before * passes + passes
    decreases after
  {
    assert after * passes == (after - 1) * passes + passes;
    if after > before + 1 {
      GrowthBuys(before, after - 1, passes);
    }
  }

  /** The turn ends within (longest + 1) * (idleCapMs / pollMs + 1) passes. */
  lemma EndsWithin(look: nat -> Look, startMs: int, t: Tuning, longest: nat, last: nat)
    requires Lives(look, startMs, t, longest)
    requires forall i: nat | i < last :: !Ends(look, startMs, t, i)
    ensures last <= (longest + 1) * PassesPerGrowth(t)
  {
    if last > 0 {
      PassesSoFar(look, startMs, t, longest, last);
      assert !Ends(look, startMs, t, last - 1);
      PollsOrdered(look(last - 1).nowMs - LastProgress(look, startMs, last), t.idleCapMs, t.pollMs);
      LongestIsReached(look, longest, last);
      GrowthBuys(LongestReply(look, last), longest + 1, PassesPerGrowth(t));
    }
  }

  // What the idle clock measures.

  /**
   The clock resets only when one poll returns more than any poll before it. A reader that returns each piece
   of the reply once, in pieces no longer than the first, is taken for hung although it never fell silent.
   */
  lemma SteadyRepliesAreCapped(look: nat -> Look, startMs: int, t: Tuning, longest: nat, i: nat)
    requires Lives(look, startMs, t, longest) && t.idleCapMs > 0
    requires forall k: nat | k <= i :: |look(k).reply| <= |look(0).reply|
    ensures LastProgress(look, startMs, i + 1) == FirstHeard(look, startMs)
    ensures look(i).nowMs >= FirstHeard(look, startMs) + t.idleCapMs ==> Ends(look, startMs, t, i)
  {
    SteadyProgress(look, startMs, i + 1);
  }

  /** When the first poll brought text, or the turn's start. */
  function FirstHeard(look: nat -> Look, startMs: int): int {
    if look(0).reply != "" then look(0).nowMs else startMs
  }

  lemma {:induction false} SteadyProgress(look: nat -> Look, startMs: int, n: nat)
    requires n > 0 && forall k: nat | k < n :: |look(k).reply| <= |look(0).reply|
    ensures LongestReply(look, n) == |look(0).reply|
    ensures LastProgress(look, startMs, n) == FirstHeard(look, startMs)
  {
    if n > 1 {
      SteadyProgress(look, startMs, n - 1);
    } else {
      assert LongestReply(look, 0) == 0;
    }
  }
}
