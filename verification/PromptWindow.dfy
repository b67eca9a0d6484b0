/**
 The recent window of a headless prompt (src/chat/headless-prompt.ts, transcript-order.ts): the transcript in ask
 order, its last eight messages, and as many of the newest as fit.

 How one message is worded is not modelled: `plain` is its line and `framed` the same line framed as untrusted.
 */
module PromptWindow {

  const MAX_PROMPT_CHARS: nat := 24_000
  const MAX_HISTORY_MESSAGES: nat := 8

  type Line = s: string | s != "" witness "x"

  datatype Message = Message(id: nat, turn: int, fromOperator: bool, plain: Line, framed: Line)

  // Ask order.

  function Rank(m: Message): nat {
    if m.fromOperator then 0 else 1
  }

  predicate SameKey(a: Message, b: Message) {
    a.turn == b.turn && Rank(a) == Rank(b)
  }

  predicate AskedBefore(a: Message, b: Message) {
    a.turn < b.turn || (a.turn == b.turn && Rank(a) < Rank(b))
  }

  predicate InAskOrder(ms: seq<Message>) {
    forall i, j | 0 <= i < j < |ms| :: !AskedBefore(ms[j], ms[i])
  }

  function Insert(m: Message, ms: seq<Message>): seq<Message> {
    if ms == [] then [m]
    else if AskedBefore(ms[0], m) then [ms[0]] + Insert(m, ms[1..])
    else [m] + ms
  }

  /** The stable sort by turn, then operator before replies. */
  function Canonical(ms: seq<Message>): seq<Message> {
    if ms == [] then [] else Insert(ms[0], Canonical(ms[1..]))
  }

  /** The messages with the key of `k`, in the order they have in `ms`. */
  function Alike(ms: seq<Message>, k: Message): seq<Message> {
    if ms == [] then [] else (if SameKey(ms[0], k) then [ms[0]] else []) + Alike(ms[1..], k)
  }

  lemma {:induction false} InsertKeepsOrder(m: Message, ms: seq<Message>)
    requires InAskOrder(ms)
    ensures InAskOrder(Insert(m, ms))
    ensures forall x | x in Insert(m, ms) :: x == m || x in ms
  {
    if ms != [] && AskedBefore(ms[0], m) {
      InsertKeepsOrder(m, ms[1..]);
      var rest := Insert(m, ms[1..]);
      assert forall i | 0 <= i < |rest| :: rest[i] in rest;
      assert forall x | x in ms[1..] :: x in ms && !AskedBefore(x, ms[0]);
    } else if ms != [] {
      assert forall x | x in ms :: !AskedBefore(x, m);
    }
  }

  lemma AlikeCons(m: Message, ms: seq<Message>, k: Message)
    ensures Alike([m] + ms, k) == (if SameKey(m, k) then [m] else []) + Alike(ms, k)
  {
    assert ([m] + ms)[1..] == ms;
  }

  lemma {:induction false} InsertKeepsAlike(m: Message, ms: seq<Message>, k: Message)
    ensures Alike(Insert(m, ms), k) == Alike([m] + ms, k)
  {
    if ms != [] && AskedBefore(ms[0], m) {
      InsertKeepsAlike(m, ms[1..], k);
      AlikeCons(ms[0], Insert(m, ms[1..]), k);
      AlikeCons(m, ms[1..], k);
      AlikeCons(m, ms, k);
    } else if ms == [] {
      assert [m] + ms == [m];
    }
  }

  /** Turns ascend, and within a turn everything the operator said comes before every reply. */
  lemma {:induction false} CanonicalInOrder(ms: seq<Message>)
    ensures InAskOrder(Canonical(ms))
    ensures forall i, j | 0 <= i < j < |Canonical(ms)| ::
      && Canonical(ms)[i].turn <= Canonical(ms)[j].turn
      && (Canonical(ms)[i].turn == Canonical(ms)[j].turn && Canonical(ms)[j].fromOperator ==>
            Canonical(ms)[i].fromOperator)
  {
    if ms != [] {
      CanonicalInOrder(ms[1..]);
      InsertKeepsOrder(ms[0], Canonical(ms[1..]));
    }
  }

  lemma {:induction false} CanonicalIsStable(ms: seq<Message>, k: Message)
    ensures Alike(Canonical(ms), k) == Alike(ms, k)
  {
    if ms != [] {
      CanonicalIsStable(ms[1..], k);
      InsertKeepsAlike(ms[0], Canonical(ms[1..]), k);
      AlikeCons(ms[0], Canonical(ms[1..]), k);
    }
  }

  /** Keys that order neither way are the same. */
  lemma KeysAreTotal(a: Message, b: Message)
    requires !AskedBefore(a, b) && !AskedBefore(b, a)
    ensures SameKey(a, b)
  {
  }

  lemma {:induction false} AlikeHas(ms: seq<Message>, k: Message) returns (i: nat)
    requires Alike(ms, k) != []
    ensures i < |ms| && SameKey(ms[i], k)
  {
    if SameKey(ms[0], k) {
      i := 0;
    } else {
      assert Alike(ms, k) == Alike(ms[1..], k);
      i := AlikeHas(ms[1..], k);
      i := i + 1;
    }
  }

  ghost predicate SameRows(a: seq<Message>, b: seq<Message>) {
    forall k: Message :: Alike(a, k) == Alike(b, k)
  }

  lemma FirstsAgree(a: seq<Message>, b: seq<Message>)
    requires InAskOrder(a) && InAskOrder(b) && SameRows(a, b) && a != [] && b != []
    ensures a[0] == b[0]
  {
    assert Alike(a, a[0]) == Alike(b, a[0]) && Alike(a, b[0]) == Alike(b, b[0]);
    assert Alike(a, a[0])[0] == a[0] && Alike(b, b[0])[0] == b[0];
    var i := AlikeHas(b, a[0]);
    var j := AlikeHas(a, b[0]);
    assert !AskedBefore(a[0], b[0]) && !AskedBefore(b[0], a[0]);
    KeysAreTotal(a[0], b[0]);
    AlikeOfSameKey(a, a[0], b[0]);
  }

  lemma {:induction false} AlikeOfSameKey(ms: seq<Message>, k: Message, l: Message)
    requires SameKey(k, l)
    ensures Alike(ms, k) == Alike(ms, l)
  {
    if ms != [] {
      AlikeOfSameKey(ms[1..], k, l);
    }
  }

  lemma TailsAgree(a: seq<Message>, b: seq<Message>)
    requires SameRows(a, b) && a != [] && b != [] && a[0] == b[0]
    ensures SameRows(a[1..], b[1..])
  {
    forall k: Message
      ensures Alike(a[1..], k) == Alike(b[1..], k)
    {
      assert Alike(a, k) == Alike(b, k);
      if SameKey(a[0], k) {
        assert Alike(a, k)[1..] == Alike(a[1..], k) && Alike(b, k)[1..] == Alike(b[1..], k);
      } else {
        assert Alike(a, k) == Alike(a[1..], k) && Alike(b, k) == Alike(b[1..], k);
      }
    }
  }

  function FirstOf(ms: seq<Message>): Message {
    if ms == [] then Message(0, 0, false, "x", "x") else ms[0]
  }

  /** There is only one stable sort: order by key, and arrival order within a key, leave nothing open. */
  lemma {:induction false} StableSortIsUnique(a: seq<Message>, b: seq<Message>)
    requires InAskOrder(a) && InAskOrder(b) && SameRows(a, b)
    ensures a == b
  {
    if a == [] {
      var first := FirstOf(b);
      assert Alike(a, first) == Alike(b, first);
    } else {
      assert Alike(a, a[0]) == Alike(b, a[0]);
      FirstsAgree(a, b);
      TailsAgree(a, b);
      StableSortIsUnique(a[1..], b[1..]);
      assert a == [a[0]] + a[1..] && b == [b[0]] + b[1..];
    }
  }

  /** So whatever stable sort ran, it gave this one. */
  lemma SortsToCanonical(ms: seq<Message>, sorted: seq<Message>)
    requires InAskOrder(sorted) && SameRows(sorted, ms)
    ensures sorted == Canonical(ms)
  {
    CanonicalInOrder(ms);
    forall k: Message
      ensures Alike(sorted, k) == Alike(Canonical(ms), k)
    {
      CanonicalIsStable(ms, k);
      assert Alike(sorted, k) == Alike(ms, k);
    }
    StableSortIsUnique(sorted, Canonical(ms));
  }

  // The window.

  function DropCurrentOperatorTurn(ms: seq<Message>, currentTurn: int): seq<Message> {
    if ms == [] then []
    else if ms[0].fromOperator && ms[0].turn == currentTurn then DropCurrentOperatorTurn(ms[1..], currentTurn)
    else [ms[0]] + DropCurrentOperatorTurn(ms[1..], currentTurn)
  }

  function Recent(ms: seq<Message>, currentTurn: int): seq<Message> {
    var kept := DropCurrentOperatorTurn(Canonical(ms), currentTurn);
    if |kept| <= MAX_HISTORY_MESSAGES then kept else kept[|kept| - MAX_HISTORY_MESSAGES..]
  }

  lemma {:induction false} DropKeepsOrder(ms: seq<Message>, currentTurn: int)
    requires InAskOrder(ms)
    ensures InAskOrder(DropCurrentOperatorTurn(ms, currentTurn))
    ensures forall m | m in DropCurrentOperatorTurn(ms, currentTurn) :: m in ms
  {
    if ms != [] {
      var rest := DropCurrentOperatorTurn(ms[1..], currentTurn);
      DropKeepsOrder(ms[1..], currentTurn);
      assert forall i | 0 <= i < |rest| :: rest[i] in rest;
      assert forall m | m in ms[1..] :: m in ms && !AskedBefore(m, ms[0]);
    }
  }

  lemma {:induction false} DropKeepsRows(ms: seq<Message>, currentTurn: int, k: Message)
    ensures Alike(DropCurrentOperatorTurn(ms, currentTurn), k) ==
      if k.fromOperator && k.turn == currentTurn then [] else Alike(ms, k)
  {
    if ms != [] {
      DropKeepsRows(ms[1..], currentTurn, k);
      AlikeCons(ms[0], DropCurrentOperatorTurn(ms[1..], currentTurn), k);
    }
  }

  /** Everything in ask order but what the operator said this turn. */
  ghost predicate IsHistory(history: seq<Message>, ms: seq<Message>, currentTurn: int) {
    && InAskOrder(history)
    && (forall k: Message ::
          Alike(history, k) == if k.fromOperator && k.turn == currentTurn then [] else Alike(ms, k))
  }

  /** The window is the last eight messages of the history, in ask order, or all of them. */
  lemma RecentIsLastEight(ms: seq<Message>, currentTurn: int, history: seq<Message>)
    requires IsHistory(history, ms, currentTurn)
    ensures Recent(ms, currentTurn) == if |history| <= 8 then history else history[|history| - 8..]
  {
    var kept := DropCurrentOperatorTurn(Canonical(ms), currentTurn);
    DropLeavesHistory(ms, currentTurn);
    SameHistory(history, kept, ms, currentTurn);
    StableSortIsUnique(history, kept);
  }

  lemma DropLeavesHistory(ms: seq<Message>, currentTurn: int)
    ensures IsHistory(DropCurrentOperatorTurn(Canonical(ms), currentTurn), ms, currentTurn)
  {
    CanonicalInOrder(ms);
    DropKeepsOrder(Canonical(ms), currentTurn);
    forall k: Message
      ensures Alike(DropCurrentOperatorTurn(Canonical(ms), currentTurn), k) ==
        if k.fromOperator && k.turn == currentTurn then [] else Alike(ms, k)
    {
      CanonicalIsStable(ms, k);
      DropKeepsRows(Canonical(ms), currentTurn, k);
    }
  }

  lemma SameHistory(a: seq<Message>, b: seq<Message>, ms: seq<Message>, currentTurn: int)
    requires IsHistory(a, ms, currentTurn) && IsHistory(b, ms, currentTurn)
    ensures SameRows(a, b)
  {
    forall k: Message
      ensures Alike(a, k) == Alike(b, k)
    {
      assert Alike(a, k) == if k.fromOperator && k.turn == currentTurn then [] else Alike(ms, k);
    }
  }

  // Parts and lines.

  const GAP := "\n\n"
  const ELLIPSIS := "\U{2026}"
  const ELLIPSIS_LINE := "\U{2026}\n"

  function JoinLines(lines: seq<string>): string {
    if lines == [] then "" else if |lines| == 1 then lines[0] else lines[0] + GAP + JoinLines(lines[1..])
  }

  function NonEmpty(parts: seq<string>): seq<string> {
    if parts == [] then [] else if parts[0] == "" then NonEmpty(parts[1..]) else [parts[0]] + NonEmpty(parts[1..])
  }

  function JoinParts(parts: seq<string>): string {
    JoinLines(NonEmpty(parts))
  }

  function LineOf(m: Message, prior: set<nat>): Line {
    if m.id in prior then m.framed else m.plain
  }

  function LinesOf(window: seq<Message>, prior: set<nat>): seq<string> {
    seq(|window|, i requires 0 <= i < |window| => LineOf(window[i], prior))
  }

  predicate FramesAny(window: seq<Message>, prior: set<nat>) {
    exists i | 0 <= i < |window| :: window[i].id in prior
  }

  /** Each message whole, with its frame if it has one, and one boundary statement if any has. */
  function RenderWindow(window: seq<Message>, prior: set<nat>, statement: Line): string {
    JoinLines(LinesOf(window, prior) + if FramesAny(window, prior) then [statement] else [])
  }

  /** Each line of `lines` is its message, framed if and only if it is of an earlier session. */
  ghost predicate AreLines(lines: seq<string>, window: seq<Message>, prior: set<nat>) {
    && |lines| == |window|
    && (forall i | 0 <= i < |window| :: lines[i] == if window[i].id in prior then window[i].framed else window[i].plain)
  }

  lemma RendersExactly(window: seq<Message>, prior: set<nat>, statement: Line, lines: seq<string>)
    requires AreLines(lines, window, prior)
    ensures RenderWindow(window, prior, statement) ==
      JoinLines(if exists i | 0 <= i < |window| :: window[i].id in prior then lines + [statement] else lines)
  {
    assert LinesOf(window, prior) == lines;
    assert lines + [] == lines;
  }

  method RenderRecentWindow(recent: seq<Message>, prior: set<nat>, statement: Line) returns (text: string)
    ensures text == RenderWindow(recent, prior, statement)
  {
    var framedPriorSession := false;
    var lines: seq<string> := [];
    for i := 0 to |recent|
      invariant lines == LinesOf(recent, prior)[..i]
      invariant framedPriorSession <==> exists k | 0 <= k < i :: recent[k].id in prior
    {
      if recent[i].id in prior {
        framedPriorSession := true;
        lines := lines + [recent[i].framed];
      } else {
        lines := lines + [recent[i].plain];
      }
    }
    if framedPriorSession {
      lines := lines + [statement];
    }
    assert lines == LinesOf(recent, prior) + if FramesAny(recent, prior) then [statement] else [];
    text := JoinLines(lines);
  }

  predicate Fits(recent: seq<Message>, prior: set<nat>, statement: Line, fixed: seq<string>, maxChars: nat, from: nat)
    requires from <= |recent|
  {
    |JoinParts(fixed + [RenderWindow(recent[from..], prior, statement)])| <= maxChars
  }

  /** The oldest message that stays: no more are dropped than make the rest fit, all of them if nothing does. */
  function KeptFrom(recent: seq<Message>, prior: set<nat>, statement: Line, fixed: seq<string>, maxChars: nat, from: nat): nat
    requires from <= |recent|
    ensures from <= KeptFrom(recent, prior, statement, fixed, maxChars, from) <= |recent|
    decreases |recent| - from
  {
    if from == |recent| || Fits(recent, prior, statement, fixed, maxChars, from) then from
    else KeptFrom(recent, prior, statement, fixed, maxChars, from + 1)
  }

  function Marked(windowText: string, dropped: bool): string {
    if !dropped then windowText else if windowText == "" then ELLIPSIS else ELLIPSIS_LINE + windowText
  }

  function FittedWindow(recent: seq<Message>, prior: set<nat>, statement: Line, fixed: seq<string>, maxChars: nat): string {
    var from := KeptFrom(recent, prior, statement, fixed, maxChars, 0);
    Marked(RenderWindow(recent[from..], prior, statement), from > 0)
  }

  method FitRecentWindow(recent: seq<Message>, prior: set<nat>, statement: Line, fixed: seq<string>, maxChars: nat)
    returns (text: string)
    ensures text == FittedWindow(recent, prior, statement, fixed, maxChars)
  {
    var window := recent;
    var windowText := RenderRecentWindow(window, prior, statement);
    var dropped := false;
    ghost var from := 0;
    while |window| > 0 && |JoinParts(fixed + [windowText])| > maxChars
      invariant from <= |recent| && window == recent[from..] && (dropped <==> from > 0)
      invariant windowText == RenderWindow(window, prior, statement)
      invariant KeptFrom(recent, prior, statement, fixed, maxChars, 0) ==
        KeptFrom(recent, prior, statement, fixed, maxChars, from)
      decreases |window|
    {
      window := window[1..];
      dropped := true;
      from := from + 1;
      windowText := RenderRecentWindow(window, prior, statement);
    }
    text := Marked(windowText, dropped);
  }

  /** The longest tail that fits. */
  lemma {:induction false} KeepsLongestTail(
      recent: seq<Message>, prior: set<nat>, statement: Line, fixed: seq<string>, maxChars: nat, from: nat)
    requires from <= |recent|
    ensures var kept := KeptFrom(recent, prior, statement, fixed, maxChars, from);
      && (forall k | from <= k < kept :: !Fits(recent, prior, statement, fixed, maxChars, k))
      && (kept < |recent| ==> Fits(recent, prior, statement, fixed, maxChars, kept))
    decreases |recent| - from
  {
    if from < |recent| && !Fits(recent, prior, statement, fixed, maxChars, from) {
      KeepsLongestTail(recent, prior, statement, fixed, maxChars, from + 1);
    }
  }

  // The prompt.

  datatype PromptParts = PromptParts(setup: string, briefing: string, task: string, redirect: string)

  /** What the window shares the budget with: a redirect comes on top, and then so does the request. */
  function FixedParts(p: PromptParts): seq<string> {
    if p.redirect == "" then [p.setup, p.briefing, p.task] else [p.setup, p.briefing]
  }

  function ComposePrompt(ms: seq<Message>, currentTurn: int, prior: set<nat>, statement: Line, p: PromptParts): string {
    var windowText := FittedWindow(Recent(ms, currentTurn), prior, statement, FixedParts(p), MAX_PROMPT_CHARS);
    var history := if windowText == "" then [p.setup, p.briefing] else [p.setup, windowText, p.briefing];
    if p.redirect == "" then JoinParts(history + [p.task]) else JoinParts([JoinParts(history), p.redirect, p.task])
  }

  /** Each non-empty part with the gap behind it. */
  function Weight(parts: seq<string>): nat {
    if parts == [] then 0 else (if parts[0] == "" then 0 else |parts[0]| + 2) + Weight(parts[1..])
  }

  lemma {:induction false} LinesWeigh(lines: seq<string>)
    requires forall i | 0 <= i < |lines| :: lines[i] != ""
    ensures |JoinLines(lines)| == if lines == [] then 0 else Weight(lines) - 2
  {
    if |lines| > 1 {
      LinesWeigh(lines[1..]);
    }
  }

  lemma {:induction false} NonEmptyWeighs(parts: seq<string>)
    ensures Weight(NonEmpty(parts)) == Weight(parts)
    ensures forall i | 0 <= i < |NonEmpty(parts)| :: NonEmpty(parts)[i] != ""
    ensures NonEmpty(parts) == [] <==> Weight(parts) == 0
  {
    if parts != [] {
      NonEmptyWeighs(parts[1..]);
      if parts[0] != "" {
        assert NonEmpty(parts)[1..] == NonEmpty(parts[1..]);
      }
    }
  }

  lemma PartsWeigh(parts: seq<string>)
    ensures |JoinParts(parts)| == if Weight(parts) == 0 then 0 else Weight(parts) - 2
  {
    NonEmptyWeighs(parts);
    LinesWeigh(NonEmpty(parts));
  }

  lemma {:induction false} WeightAppends(parts: seq<string>, part: string)
    ensures Weight(parts + [part]) == Weight(parts) + if part == "" then 0 else |part| + 2
  {
    if parts != [] {
      assert (parts + [part])[1..] == parts[1..] + [part];
      WeightAppends(parts[1..], part);
    }
  }

  lemma WindowedWeigh(a: string, w: string, b: string, c: string)
    ensures Weight([a, w, b, c]) == Weight([a, b, c]) + if w == "" then 0 else |w| + 2
    ensures Weight([a, w, b]) == Weight([a, b]) + if w == "" then 0 else |w| + 2
  {
    assert [a, w, b, c][1..] == [w, b, c] && [w, b, c][1..] == [b, c] && [a, b, c][1..] == [b, c];
    assert [a, w, b][1..] == [w, b] && [w, b][1..] == [b] && [a, b][1..] == [b];
  }

  lemma EmptyWindowRenders(prior: set<nat>, statement: Line)
    ensures RenderWindow([], prior, statement) == ""
  {
    assert LinesOf([], prior) == [];
    assert !FramesAny([], prior);
  }

  /** A window with a message in it renders to something. */
  lemma WindowRenders(window: seq<Message>, prior: set<nat>, statement: Line)
    ensures RenderWindow(window, prior, statement) == "" <==> window == []
  {
    if window == [] {
      EmptyWindowRenders(prior, statement);
    } else {
      var lines := LinesOf(window, prior) + if FramesAny(window, prior) then [statement] else [];
      assert lines[0] == LineOf(window[0], prior);
      assert JoinLines(lines)[0] == lines[0][0];
    }
  }

  /** A window cut short says so in front, and is otherwise the tail that fits; one kept whole has no mark. */
  lemma WindowIsMarkedExactly(recent: seq<Message>, prior: set<nat>, statement: Line, fixed: seq<string>, maxChars: nat)
    ensures var kept := KeptFrom(recent, prior, statement, fixed, maxChars, 0);
      var tail := RenderWindow(recent[kept..], prior, statement);
      FittedWindow(recent, prior, statement, fixed, maxChars) ==
        if kept == 0 then tail else if kept == |recent| then "\U{2026}" else "\U{2026}\n" + tail
  {
    var kept := KeptFrom(recent, prior, statement, fixed, maxChars, 0);
    WindowRenders(recent[kept..], prior, statement);
  }

  lemma PartsCons(a: string, rest: seq<string>)
    ensures NonEmpty([a] + rest) == if a == "" then NonEmpty(rest) else [a] + NonEmpty(rest)
    ensures JoinParts([a] + rest) ==
      if a == "" then JoinParts(rest) else if NonEmpty(rest) == [] then a else a + GAP + JoinParts(rest)
  {
    assert ([a] + rest)[1..] == rest;
    assert ([a] + NonEmpty(rest))[1..] == NonEmpty(rest);
  }

  lemma TwoParts(a: string, b: string)
    requires a != "" && b != ""
    ensures NonEmpty([a, b]) != [] && JoinParts([a, b]) == a + GAP + b
  {
    PartsCons(b, []);
    assert [b] + [] == [b] && [a] + [b] == [a, b];
    PartsCons(a, [b]);
  }

  lemma ThreeParts(a: string, b: string, c: string)
    requires a != "" && b != "" && c != ""
    ensures NonEmpty([a, b, c]) != [] && JoinParts([a, b, c]) == a + GAP + (b + GAP + c)
  {
    TwoParts(b, c);
    assert [a] + [b, c] == [a, b, c];
    PartsCons(a, [b, c]);
  }

  lemma FourParts(a: string, b: string, c: string, d: string)
    requires a != "" && b != "" && c != "" && d != ""
    ensures JoinParts([a, b, c, d]) == a + GAP + (b + GAP + (c + GAP + d))
  {
    ThreeParts(b, c, d);
    assert [a] + [b, c, d] == [a, b, c, d];
    PartsCons(a, [b, c, d]);
  }

  /**
   How the prompt reads: setup, window, briefing, and the operator's request last; a redirect stands between the
   request and everything before it.
   */
  lemma PromptReads(ms: seq<Message>, currentTurn: int, prior: set<nat>, statement: Line, p: PromptParts)
    requires p.setup != "" && p.briefing != "" && p.task != ""
    ensures var window := FittedWindow(Recent(ms, currentTurn), prior, statement, FixedParts(p), MAX_PROMPT_CHARS);
      var said := if window == "" then p.setup + GAP + p.briefing else p.setup + GAP + (window + GAP + p.briefing);
      var shown := if window == "" then p.setup + GAP + (p.briefing + GAP + p.task)
                   else p.setup + GAP + (window + GAP + (p.briefing + GAP + p.task));
      ComposePrompt(ms, currentTurn, prior, statement, p) ==
        if p.redirect == "" then shown else said + GAP + (p.redirect + GAP + p.task)
    ensures FixedParts(p) == if p.redirect == "" then [p.setup, p.briefing, p.task] else [p.setup, p.briefing]
  {
    var window := FittedWindow(Recent(ms, currentTurn), prior, statement, FixedParts(p), MAX_PROMPT_CHARS);
    var history := if window == "" then [p.setup, p.briefing] else [p.setup, window, p.briefing];
    if p.redirect == "" {
      assert history + [p.task] ==
        if window == "" then [p.setup, p.briefing, p.task] else [p.setup, window, p.briefing, p.task];
      ThreeParts(p.setup, p.briefing, p.task);
      if window != "" {
        FourParts(p.setup, window, p.briefing, p.task);
      }
    } else {
      TwoParts(p.setup, p.briefing);
      if window != "" {
        ThreeParts(p.setup, window, p.briefing);
      }
      ThreeParts(JoinParts(history), p.redirect, p.task);
    }
  }

  /** What the fit test measures once it is content. */
  function MeasuredChars(recent: seq<Message>, prior: set<nat>, statement: Line, fixed: seq<string>, maxChars: nat): nat {
    |JoinParts(fixed + [RenderWindow(recent[KeptFrom(recent, prior, statement, fixed, maxChars, 0)..], prior, statement)])|
  }

  /** What the marker adds behind the test: nothing, its line, or itself and a gap if anything is beside it. */
  function MarkerChars(recent: seq<Message>, fixed: seq<string>, kept: nat): nat {
    if kept == 0 then 0 else if kept < |recent| then 2 else if JoinParts(fixed) == "" then 1 else 3
  }

  lemma MarkedWeighs(bare: string, dropped: bool, fixed: seq<string>)
    ensures |JoinParts(fixed + [Marked(bare, dropped)])| == |JoinParts(fixed + [bare])| +
      if !dropped then 0 else if bare != "" then 2 else if JoinParts(fixed) == "" then 1 else 3
  {
    PartsWeigh(fixed);
    PartsWeigh(fixed + [bare]);
    PartsWeigh(fixed + [Marked(bare, dropped)]);
    WeightAppends(fixed, bare);
    WeightAppends(fixed, Marked(bare, dropped));
    WeightIsNotOne(fixed);
  }

  lemma {:induction false} WeightIsNotOne(parts: seq<string>)
    ensures Weight(parts) == 0 || Weight(parts) > 2
  {
    if parts != [] {
      WeightIsNotOne(parts[1..]);
    }
  }

  /** The window with its marker takes exactly what was measured and the marker, whatever was dropped. */
  lemma FittedWeighs(recent: seq<Message>, prior: set<nat>, statement: Line, fixed: seq<string>, maxChars: nat)
    ensures var kept := KeptFrom(recent, prior, statement, fixed, maxChars, 0);
      |JoinParts(fixed + [FittedWindow(recent, prior, statement, fixed, maxChars)])| ==
        MeasuredChars(recent, prior, statement, fixed, maxChars) + MarkerChars(recent, fixed, kept)
  {
    var kept := KeptFrom(recent, prior, statement, fixed, maxChars, 0);
    WindowRenders(recent[kept..], prior, statement);
    MarkedWeighs(RenderWindow(recent[kept..], prior, statement), kept > 0, fixed);
  }

  /** With fixed parts that fit on their own, what was measured is within the limit. */
  lemma MeasuredFits(recent: seq<Message>, prior: set<nat>, statement: Line, fixed: seq<string>, maxChars: nat)
    requires |JoinParts(fixed)| <= maxChars
    ensures MeasuredChars(recent, prior, statement, fixed, maxChars) <= maxChars
  {
    var kept := KeptFrom(recent, prior, statement, fixed, maxChars, 0);
    KeepsLongestTail(recent, prior, statement, fixed, maxChars, 0);
    if kept == |recent| {
      assert recent[kept..] == [];
      EmptyWindowRenders(prior, statement);
      PartsWeigh(fixed);
      PartsWeigh(fixed + [""]);
      WeightAppends(fixed, "");
    }
  }

  /** A window dropped whole leaves its marker and a gap beside what is left. */
  lemma EmptiedWindowAddsThree(recent: seq<Message>, prior: set<nat>, statement: Line, fixed: seq<string>, maxChars: nat)
    requires recent != [] && KeptFrom(recent, prior, statement, fixed, maxChars, 0) == |recent|
    requires JoinParts(fixed) != ""
    ensures |JoinParts(fixed + [FittedWindow(recent, prior, statement, fixed, maxChars)])| == |JoinParts(fixed)| + 3
  {
    assert recent[|recent|..] == [];
    EmptyWindowRenders(prior, statement);
    FittedWeighs(recent, prior, statement, fixed, maxChars);
    PartsWeigh(fixed);
    PartsWeigh(fixed + [""]);
    WeightAppends(fixed, "");
  }

  /** Without a redirect the prompt is its fixed parts and the window, in another order. */
  lemma PromptWeighs(ms: seq<Message>, currentTurn: int, prior: set<nat>, statement: Line, p: PromptParts)
    requires p.redirect == ""
    ensures |ComposePrompt(ms, currentTurn, prior, statement, p)| ==
      |JoinParts(FixedParts(p) + [FittedWindow(Recent(ms, currentTurn), prior, statement, FixedParts(p), MAX_PROMPT_CHARS)])|
  {
    var fixed := FixedParts(p);
    var windowText := FittedWindow(Recent(ms, currentTurn), prior, statement, fixed, MAX_PROMPT_CHARS);
    var history := if windowText == "" then [p.setup, p.briefing] else [p.setup, windowText, p.briefing];
    assert history + [p.task] ==
      if windowText == "" then [p.setup, p.briefing, p.task] else [p.setup, windowText, p.briefing, p.task];
    PartsWeigh(fixed + [windowText]);
    PartsWeigh(history + [p.task]);
    WeightAppends(fixed, windowText);
    WindowedWeigh(p.setup, windowText, p.briefing, p.task);
  }

  /**
   Without a redirect, exactly: the prompt is what the fit test measured and the marker, 0, 2 or 3 characters (1
   beside nothing), so it stays within the limit if and only if the test left room for the marker.
   */
  lemma PromptFitsExactly(ms: seq<Message>, currentTurn: int, prior: set<nat>, statement: Line, p: PromptParts)
    requires p.redirect == ""
    ensures var recent := Recent(ms, currentTurn);
      var fixed := FixedParts(p);
      var kept := KeptFrom(recent, prior, statement, fixed, MAX_PROMPT_CHARS, 0);
      var measured := MeasuredChars(recent, prior, statement, fixed, MAX_PROMPT_CHARS);
      var prompt := ComposePrompt(ms, currentTurn, prior, statement, p);
      && |prompt| == measured + MarkerChars(recent, fixed, kept)
      && (|prompt| <= MAX_PROMPT_CHARS <==> measured <= MAX_PROMPT_CHARS - MarkerChars(recent, fixed, kept))
      && (|JoinParts(fixed)| <= MAX_PROMPT_CHARS ==> measured <= MAX_PROMPT_CHARS)
  {
    var recent := Recent(ms, currentTurn);
    PromptWeighs(ms, currentTurn, prior, statement, p);
    FittedWeighs(recent, prior, statement, FixedParts(p), MAX_PROMPT_CHARS);
    if |JoinParts(FixedParts(p))| <= MAX_PROMPT_CHARS {
      MeasuredFits(recent, prior, statement, FixedParts(p), MAX_PROMPT_CHARS);
    }
  }

  /**
   With a setup, briefing and task that fit on their own, the prompt is at most 24,000 characters and the three
   of the marker; with a redirect, that holds for what comes before it.
   */
  lemma PromptIsBounded(ms: seq<Message>, currentTurn: int, prior: set<nat>, statement: Line, p: PromptParts)
    requires |JoinParts(FixedParts(p))| <= MAX_PROMPT_CHARS
    ensures |ComposePrompt(ms, currentTurn, prior, statement, p)| <=
      MAX_PROMPT_CHARS + 3 + if p.redirect == "" then 0 else |p.redirect| + |p.task| + 4
    ensures p.redirect == "" && KeptFrom(Recent(ms, currentTurn), prior, statement, FixedParts(p), MAX_PROMPT_CHARS, 0) == 0
      ==> |ComposePrompt(ms, currentTurn, prior, statement, p)| <= MAX_PROMPT_CHARS
  {
    if p.redirect == "" {
      PromptFitsExactly(ms, currentTurn, prior, statement, p);
    } else {
      HistoryIsBounded(ms, currentTurn, prior, statement, p);
    }
  }

  lemma HistoryIsBounded(ms: seq<Message>, currentTurn: int, prior: set<nat>, statement: Line, p: PromptParts)
    requires |JoinParts(FixedParts(p))| <= MAX_PROMPT_CHARS && p.redirect != ""
    ensures |ComposePrompt(ms, currentTurn, prior, statement, p)| <=
      MAX_PROMPT_CHARS + 3 + |p.redirect| + |p.task| + 4
  {
    var fixed := FixedParts(p);
    var recent := Recent(ms, currentTurn);
    var windowText := FittedWindow(recent, prior, statement, fixed, MAX_PROMPT_CHARS);
    FittedWeighs(recent, prior, statement, fixed, MAX_PROMPT_CHARS);
    MeasuredFits(recent, prior, statement, fixed, MAX_PROMPT_CHARS);
    PartsWeigh(fixed + [windowText]);
    WeightAppends(fixed, windowText);
    WindowedWeigh(p.setup, windowText, p.briefing, p.task);
    var history := if windowText == "" then [p.setup, p.briefing] else [p.setup, windowText, p.briefing];
    PartsWeigh(history);
    RedirectWeighs(JoinParts(history), p.redirect, p.task);
  }

  // Over the limit.

  lemma FullPartsKeepNothing(recent: seq<Message>, prior: set<nat>, statement: Line, fixed: seq<string>, from: nat)
    requires from <= |recent| && |JoinParts(fixed)| == MAX_PROMPT_CHARS
    ensures KeptFrom(recent, prior, statement, fixed, MAX_PROMPT_CHARS, from) == |recent|
    decreases |recent| - from
  {
    if from < |recent| {
      var windowText := RenderWindow(recent[from..], prior, statement);
      WindowRenders(recent[from..], prior, statement);
      PartsWeigh(fixed);
      PartsWeigh(fixed + [windowText]);
      WeightAppends(fixed, windowText);
      FullPartsKeepNothing(recent, prior, statement, fixed, from + 1);
    }
  }

  /** Fixed parts that fill the limit, and anything to say before them: three characters over. */
  lemma FullPartsGoOver(ms: seq<Message>, currentTurn: int, prior: set<nat>, statement: Line, p: PromptParts)
    requires p.redirect == "" && |JoinParts(FixedParts(p))| == MAX_PROMPT_CHARS && Recent(ms, currentTurn) != []
    ensures |ComposePrompt(ms, currentTurn, prior, statement, p)| == MAX_PROMPT_CHARS + 3
  {
    var recent := Recent(ms, currentTurn);
    var fixed := FixedParts(p);
    FullPartsKeepNothing(recent, prior, statement, fixed, 0);
    PromptWeighs(ms, currentTurn, prior, statement, p);
    EmptiedWindowAddsThree(recent, prior, statement, fixed, MAX_PROMPT_CHARS);
  }

  function Filler(n: nat): string {
    seq(n, _ => 'x')
  }

  /** A task of 22,998 characters behind a setup of 1,000, and one earlier answer. */
  function LongTask(setup: nat, task: nat): PromptParts {
    PromptParts(Filler(setup), "", Filler(task), "")
  }

  lemma LongTaskFills(setup: nat, task: nat)
    requires setup > 0 && task > 0
    ensures |JoinParts(FixedParts(LongTask(setup, task)))| == setup + task + 2
  {
    var p := LongTask(setup, task);
    var parts := FixedParts(p);
    assert parts == [p.setup, p.briefing, p.task] && p.setup != "" && p.task != "";
    assert parts[1..] == [p.briefing, p.task] && [p.briefing, p.task][1..] == [p.task];
    assert Weight([p.task]) == task + 2 && Weight([p.briefing, p.task]) == task + 2;
    PartsWeigh(parts);
  }

  lemma SomePromptIsOver(answer: Message, statement: Line)
    requires !answer.fromOperator
    ensures |ComposePrompt([answer], answer.turn + 1, {}, statement, LongTask(1_000, 22_998))| == 24_003 > MAX_PROMPT_CHARS
  {
    var ms := [answer];
    assert ms[1..] == [] && Canonical(ms) == ms;
    assert DropCurrentOperatorTurn(ms, answer.turn + 1) == ms;
    assert Recent(ms, answer.turn + 1) == ms;
    LongTaskFills(1_000, 22_998);
    FullPartsGoOver(ms, answer.turn + 1, {}, statement, LongTask(1_000, 22_998));
  }

  lemma RedirectWeighs(history: string, redirect: string, task: string)
    ensures |JoinParts([history, redirect, task])| <= |history| + |redirect| + |task| + 4
  {
    var parts := [history, redirect, task];
    assert parts[1..] == [redirect, task] && parts[1..][1..] == [task] && parts[1..][1..][1..] == [];
    assert Weight([task]) == if task == "" then 0 else |task| + 2;
    PartsWeigh(parts);
  }
}
