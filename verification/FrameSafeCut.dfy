/** Cutting a text without splitting an untrusted frame (src/memory/untrusted-framing.ts). */
module FrameSafeCut {

  const BEGIN_MARKER := "<<<BEGIN UNTRUSTED RECALLED MEMORY"
  const END_MARKER := "<<<END UNTRUSTED RECALLED MEMORY>>>"

  predicate StandsAt(content: string, marker: string, at: nat) {
    at + |marker| <= |content| && content[at..at + |marker|] == marker
  }

  /** The first place from `from` on where the marker stands, or the length of the content. */
  function IndexOf(content: string, marker: string, from: nat): nat
    requires from <= |content| && marker != ""
    ensures from <= IndexOf(content, marker, from) <= |content|
    ensures IndexOf(content, marker, from) < |content| ==>
      IndexOf(content, marker, from) + |marker| <= |content|
    decreases |content| - from
  {
    if from == |content| || StandsAt(content, marker, from) then from else IndexOf(content, marker, from + 1)
  }

  /** Where the frame that opens at `begin` is over: behind its end marker, or never. */
  function FrameEnd(content: string, begin: nat): nat
    requires begin < |content|
    ensures begin < FrameEnd(content, begin) <= |content|
  {
    var end := IndexOf(content, END_MARKER, begin);
    if end < |content| then end + |END_MARKER| else |content|
  }

  /** `at` is strictly inside a frame: past its begin marker's start and before its end. */
  predicate InsideFrame(content: string, at: nat, from: nat)
    requires from <= |content|
    decreases |content| - from
  {
    var begin := IndexOf(content, BEGIN_MARKER, from);
    begin < |content| && (begin < at < FrameEnd(content, begin) || InsideFrame(content, at, FrameEnd(content, begin)))
  }

  /** The cut, backed off to the start of the frame it would split. */
  function SafeCut(content: string, cut: nat, from: nat): nat
    requires from <= |content| && cut <= |content|
    ensures SafeCut(content, cut, from) <= cut
    decreases |content| - from
  {
    var begin := IndexOf(content, BEGIN_MARKER, from);
    if begin >= cut then cut
    else if cut < FrameEnd(content, begin) then begin
    else SafeCut(content, cut, FrameEnd(content, begin))
  }

  /** No frame found from `from` on holds a position at or before the next begin marker. */
  lemma {:induction false} FramesStartLater(content: string, at: nat, from: nat)
    requires from <= |content| && at <= IndexOf(content, BEGIN_MARKER, from)
    ensures !InsideFrame(content, at, from)
    decreases |content| - from
  {
    var begin := IndexOf(content, BEGIN_MARKER, from);
    if begin < |content| {
      FramesStartLater(content, at, FrameEnd(content, begin));
    }
  }

  /** The cut splits no frame, and it is the largest one up to `cut` that does not. */
  lemma {:induction false} SafeCutIsLargest(content: string, cut: nat, from: nat)
    requires from <= cut <= |content|
    ensures !InsideFrame(content, SafeCut(content, cut, from), from)
    ensures forall k | SafeCut(content, cut, from) < k <= cut :: InsideFrame(content, k, from)
    ensures from <= SafeCut(content, cut, from)
    decreases |content| - from
  {
    var begin := IndexOf(content, BEGIN_MARKER, from);
    if begin >= cut {
      FramesStartLater(content, cut, from);
    } else if cut < FrameEnd(content, begin) {
      FramesStartLater(content, begin, from);
    } else {
      SafeCutIsLargest(content, cut, FrameEnd(content, begin));
    }
  }

  /** A marker stands in a text exactly where it was written. */
  lemma StandsExactly(content: string, marker: string, at: nat)
    ensures StandsAt(content, marker, at) <==> exists pre, post :: |pre| == at && content == pre + marker + post
  {
    if StandsAt(content, marker, at) {
      assert content == content[..at] + marker + content[at + |marker|..];
    }
  }

  /** The first place where the marker stands, if it does. */
  lemma {:induction false} IndexOfFinds(content: string, marker: string, from: nat)
    requires from <= |content| && marker != ""
    ensures var at := IndexOf(content, marker, from);
      && (at < |content| ==> StandsAt(content, marker, at))
      && (forall k | from <= k < at :: !StandsAt(content, marker, k))
    decreases |content| - from
  {
    if from < |content| && !StandsAt(content, marker, from) {
      IndexOfFinds(content, marker, from + 1);
    }
  }

  /** The marker stands between the two places, whole. */
  ghost predicate StandsWithin(content: string, marker: string, from: nat, to: nat) {
    exists at: nat | from <= at && at + |marker| <= to :: StandsAt(content, marker, at)
  }

  lemma FrameEndsBehindMarker(content: string, begin: nat)
    requires begin < |content| && FrameEnd(content, begin) < |content|
    ensures StandsWithin(content, END_MARKER, begin, FrameEnd(content, begin))
  {
    IndexOfFinds(content, END_MARKER, begin);
    assert StandsAt(content, END_MARKER, IndexOf(content, END_MARKER, begin));
  }

  /** A frame that opens before a cut outside every frame is closed before it too, by a whole end marker. */
  lemma CutClosesFrames(content: string, keep: nat, from: nat)
    requires from <= keep < |content| && !InsideFrame(content, keep, from)
    ensures var begin := IndexOf(content, BEGIN_MARKER, from);
      begin < keep ==>
        && StandsWithin(content, END_MARKER, begin, FrameEnd(content, begin))
        && FrameEnd(content, begin) <= keep && !InsideFrame(content, keep, FrameEnd(content, begin))
  {
    var begin := IndexOf(content, BEGIN_MARKER, from);
    if begin < keep {
      FrameEndsBehindMarker(content, begin);
    }
  }

  /** Cutting there leaves a frame open. */
  ghost predicate Splits(content: string, at: nat) {
    InsideFrame(content, at, 0)
  }

  lemma SafeCutSplitsNone(content: string, cut: nat)
    requires cut <= |content|
    ensures !Splits(content, SafeCut(content, cut, 0))
    ensures forall k | SafeCut(content, cut, 0) < k <= cut :: Splits(content, k)
  {
    SafeCutIsLargest(content, cut, 0);
    forall k | SafeCut(content, cut, 0) < k <= cut
      ensures Splits(content, k)
    {
    }
  }

  method FrameSafeKeepFromStart(content: string, naiveCut: int) returns (keep: nat)
    ensures var cut := if naiveCut < 0 then 0 else if naiveCut > |content| then |content| else naiveCut;
      && keep == SafeCut(content, cut, 0) <= cut
      && !InsideFrame(content, keep, 0)
      && (forall k | keep < k <= cut :: InsideFrame(content, k, 0))
  {
    var cut: nat := if naiveCut < 0 then 0 else if naiveCut > |content| then |content| else naiveCut;
    SafeCutIsLargest(content, cut, 0);
    var searchFrom := 0;
    while true
      invariant searchFrom <= cut && SafeCut(content, cut, 0) == SafeCut(content, cut, searchFrom)
      decreases |content| - searchFrom
    {
      var begin := IndexOf(content, BEGIN_MARKER, searchFrom);
      if begin == |content| || begin >= cut {
        return cut;
      }
      var frameEnd := FrameEnd(content, begin);
      if cut < frameEnd {
        return begin;
      }
      searchFrom := frameEnd;
    }
  }
}
