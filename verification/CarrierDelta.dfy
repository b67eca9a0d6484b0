/**
 The ledger delta a prompt carries (src/memory/ledger.ts, delta-composer.ts, carrier-budget.ts) and the ledger
 position its acceptance authorizes (src/chat/lane-carrier.ts).

 Rendered texts are modelled by their byte sizes: the composer decides on nothing else.
 */
module CarrierDelta {

  type Positive = n: nat | n > 0 witness 1

  /** `framedBytes` is the entry's size once framed as untrusted, which rewrites its text. */
  datatype Entry = Entry(seqNo: int, operator: bool, authorBytes: nat, bodyBytes: nat, framedBytes: Positive)

  /** `ledger_seq` mints 1, 2, 3, ...; one chat session's rows are some of those, in order. */
  ghost predicate Minted(ledger: seq<Entry>) {
    && (forall i | 0 <= i < |ledger| :: ledger[i].seqNo >= 1)
    && (forall i, j | 0 <= i < j < |ledger| :: ledger[i].seqNo < ledger[j].seqNo)
  }

  // Reading the ledger.

  function FirstPast(ledger: seq<Entry>, base: int, from: nat): nat
    requires from <= |ledger|
    ensures from <= FirstPast(ledger, base, from) <= |ledger|
    decreases |ledger| - from
  {
    if from == |ledger| || ledger[from].seqNo > base then from else FirstPast(ledger, base, from + 1)
  }

  /** The rows past `base`: a tail, since a ledger is in order (`AfterIsFilter`). */
  function After(ledger: seq<Entry>, base: int): seq<Entry> {
    ledger[FirstPast(ledger, base, 0)..]
  }

  lemma {:induction false} AfterIsFilter(ledger: seq<Entry>, base: int, from: nat)
    requires Minted(ledger) && from <= |ledger|
    requires forall i | 0 <= i < from :: ledger[i].seqNo <= base
    ensures forall i | 0 <= i < |ledger| :: ledger[i].seqNo > base <==> i >= FirstPast(ledger, base, from)
    decreases |ledger| - from
  {
    if from < |ledger| && ledger[from].seqNo <= base {
      AfterIsFilter(ledger, base, from + 1);
    }
  }

  function Newest(entries: seq<Entry>, n: nat): seq<Entry> {
    if |entries| <= n then entries else entries[|entries| - n..]
  }

  function TailBytes(entries: seq<Entry>, from: nat): nat
    requires from <= |entries|
    decreases |entries| - from
  {
    if from == |entries| then 0 else entries[from].bodyBytes + TailBytes(entries, from + 1)
  }

  /** Newest entries first, until one does not fit: where what is kept starts. */
  function KeptFrom(entries: seq<Entry>, maxBytes: nat, from: nat): nat
    requires from <= |entries|
    ensures KeptFrom(entries, maxBytes, from) <= from
  {
    if from == 0 || TailBytes(entries, from - 1) > maxBytes then from else KeptFrom(entries, maxBytes, from - 1)
  }

  function WithinBytes(entries: seq<Entry>, maxBytes: nat): seq<Entry> {
    entries[KeptFrom(entries, maxBytes, |entries|)..]
  }

  method SelectTailWithinBytes(entries: seq<Entry>, maxBytes: nat) returns (delivered: seq<Entry>)
    ensures delivered == WithinBytes(entries, maxBytes)
  {
    var usedBytes := 0;
    delivered := [];
    var index := |entries|;
    while index > 0
      invariant 0 <= index <= |entries|
      invariant usedBytes == TailBytes(entries, index)
      invariant delivered == entries[index..]
      invariant KeptFrom(entries, maxBytes, |entries|) == KeptFrom(entries, maxBytes, index)
    {
      var entry := entries[index - 1];
      var nextBytes := usedBytes + entry.bodyBytes;
      if nextBytes > maxBytes {
        return;
      }
      usedBytes := nextBytes;
      delivered := [entry] + delivered;
      index := index - 1;
    }
  }

  lemma {:induction false} LongerTailsWeighMore(entries: seq<Entry>, from: nat, to: nat)
    requires from <= to <= |entries|
    ensures TailBytes(entries, from) >= TailBytes(entries, to)
    decreases |entries| - from
  {
    if from < to {
      LongerTailsWeighMore(entries, from + 1, to);
    }
  }

  /** What is kept fits, and no longer tail does. */
  lemma {:induction false} KeepsLongestTail(entries: seq<Entry>, maxBytes: nat, from: nat)
    requires from <= |entries| && TailBytes(entries, from) <= maxBytes
    ensures var kept := KeptFrom(entries, maxBytes, from);
      && TailBytes(entries, kept) <= maxBytes
      && (forall k | 0 <= k < kept :: TailBytes(entries, k) > maxBytes)
  {
    if from > 0 {
      if TailBytes(entries, from - 1) > maxBytes {
        forall k | 0 <= k < from
          ensures TailBytes(entries, k) > maxBytes
        {
          LongerTailsWeighMore(entries, k, from - 1);
        }
      } else {
        KeepsLongestTail(entries, maxBytes, from - 1);
      }
    }
  }

  datatype Overflow = NoOverflow | Overflow(skipped: nat, fromSeq: int, toSeq: int)

  function OverflowFor(pending: seq<Entry>, entries: seq<Entry>): Overflow {
    if |pending| <= |entries| then NoOverflow
    else
      Overflow(|pending| - |entries|, pending[0].seqNo,
               if entries == [] then pending[|pending| - 1].seqNo else entries[0].seqNo - 1)
  }

  function LedgerAfter(ledger: seq<Entry>, base: int, maxMessages: nat, maxBytes: nat): (seq<Entry>, Overflow) {
    var pending := After(ledger, base);
    var entries := WithinBytes(Newest(pending, maxMessages), maxBytes);
    (entries, OverflowFor(pending, entries))
  }

  /**
   Every entry past the cursor is in exactly one place: `entries` is the newest of them, and the overflow
   counts all the others in a range that reaches every one of them and none of `entries`.
   */
  ghost predicate Accounts(pending: seq<Entry>, entries: seq<Entry>, overflow: Overflow) {
    && |entries| <= |pending|
    && entries == pending[|pending| - |entries|..]
    && (overflow.NoOverflow? <==> |entries| == |pending|)
    && (overflow.Overflow? ==>
          var skipped := |pending| - |entries|;
          && overflow.skipped == skipped
          && overflow.fromSeq == pending[0].seqNo
          && pending[skipped - 1].seqNo <= overflow.toSeq
          && (entries == [] ==> overflow.toSeq == pending[skipped - 1].seqNo)
          && (entries != [] ==> overflow.toSeq < entries[0].seqNo))
  }

  lemma TailMinted(ledger: seq<Entry>, from: nat)
    requires Minted(ledger) && from <= |ledger|
    ensures Minted(ledger[from..])
  {
  }

  lemma TailIsAccounted(pending: seq<Entry>, from: nat)
    requires Minted(pending) && from <= |pending|
    ensures Accounts(pending, pending[from..], OverflowFor(pending, pending[from..]))
  {
  }

  lemma TailOfTail(s: seq<Entry>, n: nat, m: nat)
    requires n <= |s| && m <= |s| - n
    ensures s[n..][m..] == s[n + m..]
  {
  }

  lemma TailOfNewestIsAccounted(pending: seq<Entry>, maxMessages: nat, kept: nat)
    requires Minted(pending) && kept <= |Newest(pending, maxMessages)|
    ensures var entries := Newest(pending, maxMessages)[kept..]; Accounts(pending, entries, OverflowFor(pending, entries))
  {
    var from := |pending| - |Newest(pending, maxMessages)|;
    TailOfTail(pending, from, kept);
    TailIsAccounted(pending, from + kept);
  }

  lemma LedgerAfterAccounts(ledger: seq<Entry>, base: int, maxMessages: nat, maxBytes: nat)
    requires Minted(ledger)
    ensures var (entries, overflow) := LedgerAfter(ledger, base, maxMessages, maxBytes);
      Accounts(After(ledger, base), entries, overflow)
  {
    TailMinted(ledger, FirstPast(ledger, base, 0));
    var candidates := Newest(After(ledger, base), maxMessages);
    TailOfNewestIsAccounted(After(ledger, base), maxMessages, KeptFrom(candidates, maxBytes, |candidates|));
  }

  // Rendering.

  const SUMMARY_FIXED_BYTES: nat := 122
  const BOUNDARY_STATEMENT_BYTES: nat := 226

  /** Decimal digits; no count or seq is negative. */
  function Digits(n: int): Positive {
    if n < 10 then 1 else 1 + Digits(n / 10)
  }

  function SummaryBytes(overflow: Overflow): Positive
    requires overflow.Overflow?
  {
    SUMMARY_FIXED_BYTES + Digits(overflow.skipped) + Digits(overflow.fromSeq) + Digits(overflow.toSeq)
  }

  /** An operator entry of an earlier session: trusted once, framed now. */
  predicate PriorSession(e: Entry, boundary: int) {
    e.operator && e.seqNo <= boundary
  }

  function EntryBytes(e: Entry, boundary: int): Positive {
    if e.operator && e.seqNo > boundary then 13 + Digits(e.seqNo) + e.authorBytes + e.bodyBytes else e.framedBytes
  }

  function EntrySizes(entries: seq<Entry>, boundary: int): seq<nat> {
    seq(|entries|, i requires 0 <= i < |entries| => EntryBytes(entries[i], boundary))
  }

  function JoinedBytes(sizes: seq<nat>): nat {
    if sizes == [] then 0 else if |sizes| == 1 then sizes[0] else sizes[0] + 1 + JoinedBytes(sizes[1..])
  }

  predicate FramesPrior(entries: seq<Entry>, boundary: int) {
    exists i | 0 <= i < |entries| :: PriorSession(entries[i], boundary)
  }

  /** The overflow summary if there is one, the entries, and one boundary statement if one was reframed. */
  function BlockSizes(entries: seq<Entry>, overflow: Overflow, boundary: int): seq<nat> {
    (if overflow.Overflow? then [SummaryBytes(overflow)] else []) + EntrySizes(entries, boundary) +
    (if FramesPrior(entries, boundary) then [BOUNDARY_STATEMENT_BYTES] else [])
  }

  function BlockBytes(entries: seq<Entry>, overflow: Overflow, boundary: int): nat {
    JoinedBytes(BlockSizes(entries, overflow, boundary))
  }

  lemma SizesGrow(entries: seq<Entry>, boundary: int, i: nat)
    requires i < |entries|
    ensures EntrySizes(entries, boundary)[..i + 1] == EntrySizes(entries, boundary)[..i] + [EntryBytes(entries[i], boundary)]
  {
  }

  /** `renderBlock`: its parts pushed in order, the framed entries counted. */
  method RenderBlock(entries: seq<Entry>, overflow: Overflow, boundary: int) returns (bytes: nat, framedCount: nat)
    ensures bytes == BlockBytes(entries, overflow, boundary)
    ensures framedCount > 0 <==> FramesPrior(entries, boundary)
  {
    var parts: seq<nat> := if overflow.Overflow? then [SummaryBytes(overflow)] else [];
    ghost var summary := parts;
    framedCount := 0;
    for i := 0 to |entries|
      invariant parts == summary + EntrySizes(entries, boundary)[..i]
      invariant framedCount > 0 <==> exists k | 0 <= k < i :: PriorSession(entries[k], boundary)
    {
      if PriorSession(entries[i], boundary) {
        framedCount := framedCount + 1;
      }
      SizesGrow(entries, boundary, i);
      assert summary + EntrySizes(entries, boundary)[..i] + [EntryBytes(entries[i], boundary)] ==
        summary + (EntrySizes(entries, boundary)[..i] + [EntryBytes(entries[i], boundary)]);
      parts := parts + [EntryBytes(entries[i], boundary)];
    }
    if framedCount > 0 {
      parts := parts + [BOUNDARY_STATEMENT_BYTES];
    }
    assert EntrySizes(entries, boundary)[..|entries|] == EntrySizes(entries, boundary);
    assert parts == BlockSizes(entries, overflow, boundary);
    bytes := JoinedBytes(parts);
  }

  function PowerOfTen(n: nat): nat {
    if n == 0 then 1 else 10 * PowerOfTen(n - 1)
  }

  lemma {:induction false} DigitsExactly(n: nat)
    ensures n < PowerOfTen(Digits(n)) && (n > 0 ==> PowerOfTen(Digits(n) - 1) <= n)
    decreases n
  {
    if n >= 10 {
      DigitsExactly(n / 10);
      assert PowerOfTen(Digits(n)) == 10 * PowerOfTen(Digits(n / 10));
      assert PowerOfTen(Digits(n) - 1) == 10 * PowerOfTen(Digits(n / 10) - 1);
    } else {
      assert PowerOfTen(1) == 10 * PowerOfTen(0);
    }
  }

  /**
   The entries as they are shown, each with the line feed behind it: trusted as written if the operator wrote it in
   this session, and framed as untrusted otherwise.
   */
  function ShownBytes(entries: seq<Entry>, boundary: int): nat {
    if entries == [] then 0
    else
      var e := entries[|entries| - 1];
      ShownBytes(entries[..|entries| - 1], boundary) + 1 +
      if e.operator && boundary < e.seqNo then 13 + Digits(e.seqNo) + e.authorBytes + e.bodyBytes else e.framedBytes
  }

  lemma {:induction false} JoinedOneMore(sizes: seq<nat>, size: nat)
    ensures JoinedBytes(sizes + [size]) == size + if sizes == [] then 0 else JoinedBytes(sizes) + 1
  {
    if sizes == [] {
      assert sizes + [size] == [size];
    } else {
      assert (sizes + [size])[1..] == sizes[1..] + [size];
      JoinedOneMore(sizes[1..], size);
    }
  }

  lemma {:induction false} EntriesWeigh(summary: seq<nat>, entries: seq<Entry>, boundary: int)
    ensures
      JoinedBytes(summary + EntrySizes(entries, boundary)) +
      (if summary + EntrySizes(entries, boundary) == [] then 0 else 1) ==
      JoinedBytes(summary) + (if summary == [] then 0 else 1) + ShownBytes(entries, boundary)
    decreases |entries|
  {
    var sizes := EntrySizes(entries, boundary);
    if entries == [] {
      assert summary + sizes == summary;
    } else {
      var n := |entries| - 1;
      EntriesWeigh(summary, entries[..n], boundary);
      assert EntrySizes(entries[..n], boundary) == sizes[..n];
      assert summary + sizes == (summary + sizes[..n]) + [EntryBytes(entries[n], boundary)];
      JoinedOneMore(summary + sizes[..n], EntryBytes(entries[n], boundary));
    }
  }

  /**
   What a block weighs: the overflow's summary, the entries as they are shown, and one boundary statement of 226 bytes
   if an operator's entry of an earlier session is among them, a line feed between any two.
   */
  lemma BlockWeighs(entries: seq<Entry>, overflow: Overflow, boundary: int)
    ensures var any := entries != [] || overflow.Overflow?;
      BlockBytes(entries, overflow, boundary) + (if any then 1 else 0) ==
        (if overflow.Overflow? then SummaryBytes(overflow) + 1 else 0) + ShownBytes(entries, boundary) +
        (if exists i | 0 <= i < |entries| :: entries[i].operator && entries[i].seqNo <= boundary then 227 else 0)
  {
    var summary: seq<nat> := if overflow.Overflow? then [SummaryBytes(overflow)] else [];
    var parts := summary + EntrySizes(entries, boundary);
    EntriesWeigh(summary, entries, boundary);
    JoinedOneMore(parts, BOUNDARY_STATEMENT_BYTES);
    assert parts + [] == parts;
    if exists i | 0 <= i < |entries| :: entries[i].operator && entries[i].seqNo <= boundary {
      var i :| 0 <= i < |entries| && entries[i].operator && entries[i].seqNo <= boundary;
      assert PriorSession(entries[i], boundary);
    }
  }

  // Composing within a budget.

  function MergeDrop(overflow: Overflow, dropped: Entry): Overflow {
    match overflow
    case NoOverflow => Overflow(1, dropped.seqNo, dropped.seqNo)
    case Overflow(skipped, fromSeq, _) => Overflow(skipped + 1, fromSeq, dropped.seqNo)
  }

  /** The overflow once the oldest `drops` entries went too. */
  function DropsMerged(entries: seq<Entry>, overflow: Overflow, drops: nat): Overflow
    requires drops <= |entries|
  {
    if drops == 0 then overflow
    else if overflow.NoOverflow? then Overflow(drops, entries[0].seqNo, entries[drops - 1].seqNo)
    else Overflow(overflow.skipped + drops, overflow.fromSeq, entries[drops - 1].seqNo)
  }

  predicate Fits(entries: seq<Entry>, overflow: Overflow, budget: nat, boundary: int, drops: nat)
    requires drops <= |entries|
  {
    BlockBytes(entries[drops..], DropsMerged(entries, overflow, drops), boundary) <= budget
  }

  /** How many of the oldest entries go: as few as make the block fit, all of them if none does. */
  function Drops(entries: seq<Entry>, overflow: Overflow, budget: nat, boundary: int, from: nat): nat
    requires from <= |entries|
    ensures from <= Drops(entries, overflow, budget, boundary, from) <= |entries|
    decreases |entries| - from
  {
    if from == |entries| || Fits(entries, overflow, budget, boundary, from) then from
    else Drops(entries, overflow, budget, boundary, from + 1)
  }

  /** `bytes` 0: an empty block, the overflow uncarried. */
  datatype Composed = Composed(bytes: nat, delivered: seq<Entry>, overflow: Overflow)

  function ComposedWithin(entries: seq<Entry>, overflow: Overflow, budget: nat, boundary: int): Composed {
    var drops := Drops(entries, overflow, budget, boundary, 0);
    var merged := DropsMerged(entries, overflow, drops);
    if Fits(entries, overflow, budget, boundary, drops) then
      Composed(BlockBytes(entries[drops..], merged, boundary), entries[drops..], merged)
    else
      Composed(0, [], merged)
  }

  method ComposeDelta(entries: seq<Entry>, overflow: Overflow, budget: nat, boundary: int) returns (composed: Composed)
    ensures composed == ComposedWithin(entries, overflow, budget, boundary)
  {
    var kept, merged := entries, overflow;
    var bytes, framed := RenderBlock(kept, merged, boundary);
    ghost var drops := 0;
    while bytes > budget && kept != []
      invariant drops <= |entries| && kept == entries[drops..]
      invariant merged == DropsMerged(entries, overflow, drops)
      invariant bytes == BlockBytes(kept, merged, boundary)
      invariant Drops(entries, overflow, budget, boundary, 0) == Drops(entries, overflow, budget, boundary, drops)
      decreases |kept|
    {
      merged := MergeDrop(merged, kept[0]);
      kept := kept[1..];
      drops := drops + 1;
      bytes, framed := RenderBlock(kept, merged, boundary);
    }
    composed := if bytes > budget then Composed(0, [], merged) else Composed(bytes, kept, merged);
  }

  /** Entries go oldest first and no further than they must: every longer tail was over the budget. */
  lemma {:induction false} DropsNoMoreThanNeeded(
      entries: seq<Entry>, overflow: Overflow, budget: nat, boundary: int, from: nat)
    requires from <= |entries|
    ensures var drops := Drops(entries, overflow, budget, boundary, from);
      && (forall k | from <= k < drops :: !Fits(entries, overflow, budget, boundary, k))
      && (drops < |entries| ==> Fits(entries, overflow, budget, boundary, drops))
    decreases |entries| - from
  {
    if from < |entries| && !Fits(entries, overflow, budget, boundary, from) {
      DropsNoMoreThanNeeded(entries, overflow, budget, boundary, from + 1);
    }
  }

  lemma DropsAccounted(pending: seq<Entry>, entries: seq<Entry>, overflow: Overflow, drops: nat)
    requires Minted(pending) && Accounts(pending, entries, overflow) && drops <= |entries|
    ensures Accounts(pending, entries[drops..], DropsMerged(entries, overflow, drops))
  {
    var skipped := |pending| - |entries|;
    TailOfTail(pending, skipped, drops);
    if 0 < drops {
      assert entries[drops - 1] == pending[skipped + drops - 1];
      assert entries[0] == pending[skipped];
    }
    if drops < |entries| {
      assert entries[drops..][0] == pending[skipped + drops];
    }
  }

  lemma PartsHaveBytes(entries: seq<Entry>, overflow: Overflow, boundary: int)
    ensures BlockBytes(entries, overflow, boundary) == 0 <==> entries == [] && overflow.NoOverflow?
  {
    var sizes := BlockSizes(entries, overflow, boundary);
    if entries != [] || overflow.Overflow? {
      assert sizes != [] && sizes[0] > 0;
    }
  }

  /** The block is empty if and only if there was nothing to say, or it never fits, however many entries go. */
  lemma EmptyOnlyWhenNothingFits(entries: seq<Entry>, overflow: Overflow, budget: nat, boundary: int)
    ensures ComposedWithin(entries, overflow, budget, boundary).bytes == 0 <==>
      (entries == [] && overflow.NoOverflow?) ||
      (forall k | 0 <= k <= |entries| :: !Fits(entries, overflow, budget, boundary, k))
  {
    var drops := Drops(entries, overflow, budget, boundary, 0);
    DropsNoMoreThanNeeded(entries, overflow, budget, boundary, 0);
    PartsHaveBytes(entries[drops..], DropsMerged(entries, overflow, drops), boundary);
    PartsHaveBytes(entries, overflow, boundary);
    assert entries == [] && overflow.NoOverflow? ==> Fits(entries, overflow, budget, boundary, 0);
  }

  /** With no entry to drop, a summary over the budget is not carried, and one within it is. */
  lemma SummaryAloneExactly(overflow: Overflow, budget: nat, boundary: int)
    requires overflow.Overflow?
    ensures ComposedWithin([], overflow, budget, boundary).bytes == 0 <==> SummaryBytes(overflow) > budget
  {
    assert BlockSizes([], overflow, boundary) == [SummaryBytes(overflow)];
    var none: seq<Entry> := [];
    assert none[0..] == none;
    EmptyOnlyWhenNothingFits([], overflow, budget, boundary);
  }

  /** Nothing past the cursor is dropped silently, whatever the budget, and the budget is never exceeded. */
  lemma ComposeAccounts(pending: seq<Entry>, entries: seq<Entry>, overflow: Overflow, budget: nat, boundary: int)
    requires Minted(pending) && Accounts(pending, entries, overflow)
    ensures var c := ComposedWithin(entries, overflow, budget, boundary);
      && c.bytes <= budget
      && Accounts(pending, c.delivered, c.overflow)
      && (c.bytes == 0 ==> c.delivered == [])
  {
    var drops := Drops(entries, overflow, budget, boundary, 0);
    DropsNoMoreThanNeeded(entries, overflow, budget, boundary, 0);
    DropsAccounted(pending, entries, overflow, drops);
    PartsHaveBytes(entries[drops..], DropsMerged(entries, overflow, drops), boundary);
  }

  // The budget of one prompt.

  const MAX_PROMPT_CHARS: nat := 24_000
  const RESERVE_SETUP: nat := 1_500
  const RESERVE_BRIEFING: nat := 8_500
  const OVERFLOW_HEADROOM: nat := 2_000

  datatype EntryBudget = EntryBudget(maxBytes: nat, maxMessages: nat)

  const DELTA_LIMITS := EntryBudget(10_000, 30)
  const CATCHUP_LIMITS := EntryBudget(8_000, 20)

  predicate GiantOperator(operatorBytes: nat) {
    operatorBytes > MAX_PROMPT_CHARS - RESERVE_SETUP
  }

  function EntryPool(operatorBytes: nat, briefing: bool): nat {
    var taken := operatorBytes + RESERVE_SETUP + if briefing then RESERVE_BRIEFING else 0;
    if taken >= MAX_PROMPT_CHARS then 0 else MAX_PROMPT_CHARS - taken
  }

  function Min(a: nat, b: nat): nat {
    if a <= b then a else b
  }

  /** Bytes for the rendered block: entries, plus the headroom an overflow reserves. */
  function BlockBudget(operatorBytes: nat, briefing: bool, catchup: bool, overflowPending: bool): nat {
    var pool := EntryPool(operatorBytes, briefing);
    var headroom := if overflowPending then Min(pool, OVERFLOW_HEADROOM) else 0;
    Min(pool - headroom, (if catchup then CATCHUP_LIMITS else DELTA_LIMITS).maxBytes) + headroom
  }

  datatype PromptInput = PromptInput(operatorBytes: nat, briefing: bool, catchup: bool, boundary: int)

  /** The first look at the ledger, always under the delta limits, decides whether headroom is reserved. */
  predicate FirstLookOverflows(ledger: seq<Entry>, base: int) {
    LedgerAfter(ledger, base, DELTA_LIMITS.maxMessages, DELTA_LIMITS.maxBytes).1.Overflow?
  }

  function LedgerFor(ledger: seq<Entry>, base: int, catchup: bool): (seq<Entry>, Overflow) {
    var limits := if catchup then CATCHUP_LIMITS else DELTA_LIMITS;
    LedgerAfter(ledger, base, limits.maxMessages, limits.maxBytes)
  }

  function ComposedFor(entries: seq<Entry>, overflow: Overflow, reserved: bool, input: PromptInput): Composed {
    if GiantOperator(input.operatorBytes) then Composed(0, [], overflow)
    else
      ComposedWithin(entries, overflow, BlockBudget(input.operatorBytes, input.briefing, input.catchup, reserved),
                     input.boundary)
  }

  function ComposeCarrierDelta(ledger: seq<Entry>, base: int, input: PromptInput): Composed {
    var (entries, overflow) := LedgerFor(ledger, base, input.catchup);
    ComposedFor(entries, overflow, FirstLookOverflows(ledger, base), input)
  }

  // Exactly what is delivered.

  lemma {:induction false} TailBytesShift(entries: seq<Entry>, n: nat, i: nat)
    requires n <= |entries| && i <= |entries| - n
    ensures TailBytes(entries[n..], i) == TailBytes(entries, n + i)
    decreases |entries| - i
  {
    if n + i < |entries| {
      TailBytesShift(entries, n, i + 1);
    }
  }

  /** The last `n` entries. */
  function LastOf(entries: seq<Entry>, n: nat): seq<Entry>
    requires n <= |entries|
  {
    entries[|entries| - n..]
  }

  predicate TailTooLong(pending: seq<Entry>, n: nat, maxBytes: nat)
    requires n <= |pending|
  {
    TailBytes(pending, |pending| - n) > maxBytes
  }

  lemma TailIsLast(pending: seq<Entry>, n: nat, kept: nat)
    requires n <= |pending| && kept <= n
    ensures LastOf(LastOf(pending, n), n - kept) == LastOf(pending, n - kept)
    ensures LastOf(pending, n)[kept..] == LastOf(pending, n - kept)
  {
    TailOfTail(pending, |pending| - n, kept);
  }

  lemma LastWeighs(pending: seq<Entry>, n: nat, m: nat)
    requires m <= n <= |pending|
    ensures TailBytes(LastOf(pending, n), n - m) == TailBytes(pending, |pending| - m)
  {
    TailBytesShift(pending, |pending| - n, n - m);
  }

  lemma WithinBytesExactly(pending: seq<Entry>, n: nat, maxBytes: nat)
    requires n <= |pending|
    ensures var kept := |WithinBytes(LastOf(pending, n), maxBytes)|;
      && kept <= n
      && WithinBytes(LastOf(pending, n), maxBytes) == LastOf(pending, kept)
      && !TailTooLong(pending, kept, maxBytes)
      && (forall m | kept < m <= n :: TailTooLong(pending, m, maxBytes))
  {
    var from := KeptFrom(LastOf(pending, n), maxBytes, n);
    KeepsLongestTail(LastOf(pending, n), maxBytes, n);
    TailIsLast(pending, n, from);
    LastWeighs(pending, n, n - from);
    forall m | n - from < m <= n
      ensures TailTooLong(pending, m, maxBytes)
    {
      LastWeighs(pending, n, m);
    }
  }

  /** The ledger's own look takes the longest tail within both of its limits. */
  lemma LookTakesLongestTail(pending: seq<Entry>, maxMessages: nat, maxBytes: nat)
    ensures var entries := WithinBytes(Newest(pending, maxMessages), maxBytes);
      && |entries| <= |pending| && |entries| <= maxMessages
      && entries == LastOf(pending, |entries|)
      && !TailTooLong(pending, |entries|, maxBytes)
      && (forall m | |entries| < m <= |pending| && m <= maxMessages :: TailTooLong(pending, m, maxBytes))
  {
    var n := Min(|pending|, maxMessages);
    assert Newest(pending, maxMessages) == LastOf(pending, n);
    WithinBytesExactly(pending, n, maxBytes);
  }

  /** With a truthful summary of all the others, the last `n` entries are more than the block may hold. */
  ghost predicate BlockTooLong(pending: seq<Entry>, n: nat, budget: nat, boundary: int)
    requires n <= |pending|
  {
    exists overflow ::
      Accounts(pending, LastOf(pending, n), overflow) && BlockBytes(LastOf(pending, n), overflow, boundary) > budget
  }

  lemma UnfitIsTooLong(pending: seq<Entry>, entries: seq<Entry>, overflow: Overflow, budget: nat, boundary: int, k: nat)
    requires Minted(pending) && Accounts(pending, entries, overflow)
    requires k <= |entries| && !Fits(entries, overflow, budget, boundary, k)
    ensures BlockTooLong(pending, |entries| - k, budget, boundary)
  {
    DropsAccounted(pending, entries, overflow, k);
    TailIsLast(pending, |entries|, k);
    var merged := DropsMerged(entries, overflow, k);
    assert Accounts(pending, LastOf(pending, |entries| - k), merged);
  }

  lemma NeededDrops(pending: seq<Entry>, entries: seq<Entry>, overflow: Overflow, budget: nat, boundary: int)
    requires Minted(pending) && Accounts(pending, entries, overflow)
    ensures var drops := Drops(entries, overflow, budget, boundary, 0);
      forall m | |entries| - drops < m <= |entries| :: BlockTooLong(pending, m, budget, boundary)
  {
    var drops := Drops(entries, overflow, budget, boundary, 0);
    DropsNoMoreThanNeeded(entries, overflow, budget, boundary, 0);
    forall m | |entries| - drops < m <= |entries|
      ensures BlockTooLong(pending, m, budget, boundary)
    {
      UnfitIsTooLong(pending, entries, overflow, budget, boundary, |entries| - m);
    }
  }

  /** Composing drops no entry unless the block would be too long with it. */
  lemma DropsTakeLongestTail(pending: seq<Entry>, entries: seq<Entry>, overflow: Overflow, budget: nat, boundary: int)
    requires Minted(pending) && Accounts(pending, entries, overflow)
    ensures var c := ComposedWithin(entries, overflow, budget, boundary);
      && |c.delivered| <= |entries| && c.delivered == LastOf(pending, |c.delivered|)
      && (forall m | |c.delivered| < m <= |entries| :: BlockTooLong(pending, m, budget, boundary))
  {
    NeededDrops(pending, entries, overflow, budget, boundary);
    ComposedLeaves(entries, overflow, budget, boundary);
    TailIsLast(pending, |entries|, Drops(entries, overflow, budget, boundary, 0));
  }

  lemma ComposedLeaves(entries: seq<Entry>, overflow: Overflow, budget: nat, boundary: int)
    ensures ComposedWithin(entries, overflow, budget, boundary).delivered ==
      entries[Drops(entries, overflow, budget, boundary, 0)..]
  {
    DropsNoMoreThanNeeded(entries, overflow, budget, boundary, 0);
  }

  ghost predicate TakesLongestTail(
      pending: seq<Entry>, taken: seq<Entry>, maxMessages: nat, maxBytes: nat, budget: nat, boundary: int)
  {
    && |taken| <= |pending| && taken == LastOf(pending, |taken|)
    && |taken| <= maxMessages && !TailTooLong(pending, |taken|, maxBytes)
    && (forall m | |taken| < m <= |pending| ::
          m > maxMessages || TailTooLong(pending, m, maxBytes) || BlockTooLong(pending, m, budget, boundary))
  }

  lemma LongestUnderAll(
      pending: seq<Entry>, looked: nat, taken: seq<Entry>, maxMessages: nat, maxBytes: nat, budget: nat, boundary: int)
    requires |taken| <= looked <= |pending| && looked <= maxMessages
    requires taken == LastOf(pending, |taken|) && !TailTooLong(pending, looked, maxBytes)
    requires forall m | looked < m <= |pending| && m <= maxMessages :: TailTooLong(pending, m, maxBytes)
    requires forall m | |taken| < m <= looked :: BlockTooLong(pending, m, budget, boundary)
    ensures TakesLongestTail(pending, taken, maxMessages, maxBytes, budget, boundary)
  {
    LongerTailsWeighMore(pending, |pending| - looked, |pending| - |taken|);
  }

  lemma ComposedTakesLongest(
      pending: seq<Entry>, entries: seq<Entry>, overflow: Overflow, maxMessages: nat, maxBytes: nat, budget: nat,
      boundary: int)
    requires Minted(pending) && Accounts(pending, entries, overflow)
    requires entries == WithinBytes(Newest(pending, maxMessages), maxBytes)
    ensures TakesLongestTail(pending, ComposedWithin(entries, overflow, budget, boundary).delivered, maxMessages,
                             maxBytes, budget, boundary)
  {
    LookTakesLongestTail(pending, maxMessages, maxBytes);
    DropsTakeLongestTail(pending, entries, overflow, budget, boundary);
    LongestUnderAll(pending, |entries|, ComposedWithin(entries, overflow, budget, boundary).delivered, maxMessages,
                    maxBytes, budget, boundary);
  }

  /**
   The prompt shows the last entries past its base, and as many as it may: at most 30 and 10,000 bytes of them on a
   resumed session, 20 and 8,000 on a fresh one, in a block within its budget; one entry more would break one of the
   three.
   */
  lemma DeliversLongestTail(ledger: seq<Entry>, base: int, input: PromptInput)
    requires Minted(ledger) && !GiantOperator(input.operatorBytes)
    ensures var maxMessages, maxBytes := if input.catchup then 20 else 30, if input.catchup then 8_000 else 10_000;
      var budget := BlockBudget(input.operatorBytes, input.briefing, input.catchup, FirstLookOverflows(ledger, base));
      var c := ComposeCarrierDelta(ledger, base, input);
      && TakesLongestTail(After(ledger, base), c.delivered, maxMessages, maxBytes, budget, input.boundary)
      && c.bytes == (if c.bytes == 0 then 0 else BlockBytes(c.delivered, c.overflow, input.boundary)) <= budget
  {
    TailMinted(ledger, FirstPast(ledger, base, 0));
    LedgerForAccounts(ledger, base, input.catchup);
    var pending := After(ledger, base);
    var limits := if input.catchup then CATCHUP_LIMITS else DELTA_LIMITS;
    var (entries, overflow) := LedgerFor(ledger, base, input.catchup);
    var budget := BlockBudget(input.operatorBytes, input.briefing, input.catchup, FirstLookOverflows(ledger, base));
    ComposedTakesLongest(pending, entries, overflow, limits.maxMessages, limits.maxBytes, budget, input.boundary);
    ComposedWeighs(pending, entries, overflow, budget, input.boundary);
  }

  lemma ComposedWeighs(pending: seq<Entry>, entries: seq<Entry>, overflow: Overflow, budget: nat, boundary: int)
    requires Minted(pending) && Accounts(pending, entries, overflow)
    ensures var c := ComposedWithin(entries, overflow, budget, boundary);
      c.bytes == (if c.bytes == 0 then 0 else BlockBytes(c.delivered, c.overflow, boundary)) <= budget
  {
    ComposeAccounts(pending, entries, overflow, budget, boundary);
  }

  /** Headroom for a summary is reserved if and only if a resumed session could not be shown everything pending. */
  lemma FirstLookExactly(ledger: seq<Entry>, base: int)
    ensures FirstLookOverflows(ledger, base) <==>
      |After(ledger, base)| > 30 || TailBytes(After(ledger, base), 0) > 10_000
  {
    var pending := After(ledger, base);
    LookTakesLongestTail(pending, DELTA_LIMITS.maxMessages, DELTA_LIMITS.maxBytes);
    var entries := WithinBytes(Newest(pending, DELTA_LIMITS.maxMessages), DELTA_LIMITS.maxBytes);
    if |entries| < |pending| <= 30 {
      assert TailTooLong(pending, |pending|, DELTA_LIMITS.maxBytes);
    }
    assert !TailTooLong(pending, |entries|, DELTA_LIMITS.maxBytes);
  }

  /**
   What is left of 24,000 bytes once the operator's message, the setup and a briefing are paid goes to the summary's
   headroom first, 2,000 at most, and then to the entries, 10,000 at most or 8,000 on a fresh session.
   */
  lemma BudgetExactly(operatorBytes: nat, briefing: bool, catchup: bool, overflowPending: bool)
    ensures var left := 24_000 - operatorBytes - (if briefing then 10_000 else 1_500);
      var headroom := if overflowPending then 2_000 else 0;
      var entries := if catchup then 8_000 else 10_000;
      var budget := BlockBudget(operatorBytes, briefing, catchup, overflowPending);
      && (left <= 0 <==> budget == 0)
      && (0 < left <= headroom + entries ==> budget == left)
      && (left > headroom + entries ==> budget == headroom + entries)
    ensures EntryPool(operatorBytes, briefing) == Max(0, 24_000 - operatorBytes - (if briefing then 10_000 else 1_500))
    ensures GiantOperator(operatorBytes) <==> operatorBytes > 22_500
  {
  }

  /**
   A pending overflow and an empty block: one entry too long for the ledger's limit, and an operator message of
   22,400 bytes that leaves 100 for a summary of 125.
   */
  lemma OverlongSummaryIsNotCarried(ledger: seq<Entry>, e: Entry, input: PromptInput)
    requires ledger == [e] && e.seqNo == 1 && e.bodyBytes > DELTA_LIMITS.maxBytes
    requires input == PromptInput(22_400, false, false, 0)
    ensures !GiantOperator(input.operatorBytes)
    ensures ComposeCarrierDelta(ledger, 0, input) == Composed(0, [], Overflow(1, 1, 1))
  {
    assert FirstPast(ledger, 0, 0) == 0 && ledger[0..] == ledger;
    assert TailBytes(ledger, 0) > DELTA_LIMITS.maxBytes;
    assert KeptFrom(ledger, DELTA_LIMITS.maxBytes, 1) == 1 && ledger[1..] == [];
    assert LedgerAfter(ledger, 0, DELTA_LIMITS.maxMessages, DELTA_LIMITS.maxBytes) == ([], Overflow(1, 1, 1));
    SummaryAloneExactly(Overflow(1, 1, 1), 100, 0);
  }

  // What an accepted prompt authorizes.

  predicate SummaryCarried(c: Composed) {
    c.overflow.Overflow? && c.bytes > 0
  }

  function Max(a: int, b: int): int {
    if a >= b then a else b
  }

  /** Where the cursor goes when the prompt is accepted. */
  function MarkOnAccept(c: Composed, base: int): int {
    var delivered := if c.delivered == [] then base else c.delivered[|c.delivered| - 1].seqNo;
    if SummaryCarried(c) then Max(delivered, c.overflow.toSeq) else delivered
  }

  /** The prompt showed the entry, or told of it in its summary. */
  predicate Carries(c: Composed, e: Entry) {
    e in c.delivered || (SummaryCarried(c) && c.overflow.fromSeq <= e.seqNo <= c.overflow.toSeq)
  }

  /**
   The delta never takes bytes reserved for the operator, the setup or the briefing; it carries exactly the
   entries the cursor would move over; and it moves the cursor to the newest entry or not at all.
   */
  lemma PromptCovers(ledger: seq<Entry>, base: int, input: PromptInput)
    requires Minted(ledger)
    ensures var c := ComposeCarrierDelta(ledger, base, input);
      && c.bytes <= EntryPool(input.operatorBytes, input.briefing)
      && (forall e | e in ledger :: Carries(c, e) <==> base < e.seqNo <= MarkOnAccept(c, base))
      && (if c.bytes > 0 then ledger != [] && MarkOnAccept(c, base) == ledger[|ledger| - 1].seqNo > base
          else MarkOnAccept(c, base) == base)
  {
    CarrierDeltaDelivers(ledger, base, input);
    AccountedReaches(ledger, base, ComposeCarrierDelta(ledger, base, input));
    AccountedCovers(ledger, base, ComposeCarrierDelta(ledger, base, input));
  }

  lemma BytesReachNewest(ledger: seq<Entry>, base: int, input: PromptInput)
    requires Minted(ledger) && ComposeCarrierDelta(ledger, base, input).bytes > 0
    ensures ledger != [] && MarkOnAccept(ComposeCarrierDelta(ledger, base, input), base) == ledger[|ledger| - 1].seqNo
  {
    PromptCovers(ledger, base, input);
  }

  lemma CarriesPast(ledger: seq<Entry>, base: int, c: Composed, past: nat, i: nat)
    requires Minted(ledger) && past <= i < |ledger| && Delivers(ledger[past..], c) && c.bytes > 0
    requires ledger[|ledger| - 1].seqNo > base
    ensures Carries(c, ledger[i])
  {
    TailMinted(ledger, past);
    AccountedIsCarried(ledger[past..], c, base);
    assert ledger[i] == ledger[past..][i - past];
  }

  lemma CarriesNoneBefore(ledger: seq<Entry>, c: Composed, past: nat, i: nat)
    requires Minted(ledger) && i < past < |ledger| && Delivers(ledger[past..], c) && c.bytes > 0
    ensures !Carries(c, ledger[i])
  {
    TailMinted(ledger, past);
    assert ledger[past..][0] == ledger[past];
    CarriesOnlyPending(ledger[past..], c, ledger[i]);
  }

  lemma CarriesExactlyPast(ledger: seq<Entry>, base: int, c: Composed, i: nat)
    requires Minted(ledger) && Delivers(After(ledger, base), c) && c.bytes > 0 && i < |ledger|
    ensures Carries(c, ledger[i]) <==> base < ledger[i].seqNo
  {
    var past := FirstPast(ledger, base, 0);
    AfterIsFilter(ledger, base, 0);
    if i >= past {
      CarriesPast(ledger, base, c, past, i);
    } else {
      CarriesNoneBefore(ledger, c, past, i);
    }
  }

  lemma NewestOfTail(ledger: seq<Entry>, past: nat)
    requires past < |ledger|
    ensures ledger[past..] != [] && ledger[past..][|ledger[past..]| - 1] == ledger[|ledger| - 1]
  {
  }

  lemma AccountedReachesNewest(ledger: seq<Entry>, base: int, c: Composed, past: nat)
    requires Minted(ledger) && past < |ledger| && Accounts(ledger[past..], c.delivered, c.overflow) && c.bytes > 0
    requires ledger[|ledger| - 1].seqNo > base
    ensures MarkOnAccept(c, base) == ledger[|ledger| - 1].seqNo
  {
    TailMinted(ledger, past);
    NewestOfTail(ledger, past);
    AccountedIsCarried(ledger[past..], c, base);
  }

  lemma AccountedReaches(ledger: seq<Entry>, base: int, c: Composed)
    requires Minted(ledger) && Delivers(After(ledger, base), c)
    ensures if c.bytes > 0 then ledger != [] && MarkOnAccept(c, base) == ledger[|ledger| - 1].seqNo > base
            else MarkOnAccept(c, base) == base
  {
    if c.bytes > 0 {
      var past := FirstPast(ledger, base, 0);
      AfterIsFilter(ledger, base, 0);
      AccountedReachesNewest(ledger, base, c, past);
    }
  }

  lemma AccountedCovers(ledger: seq<Entry>, base: int, c: Composed)
    requires Minted(ledger) && Delivers(After(ledger, base), c)
    ensures forall e | e in ledger :: Carries(c, e) <==> base < e.seqNo <= MarkOnAccept(c, base)
  {
    AccountedReaches(ledger, base, c);
    if c.bytes > 0 {
      forall e | e in ledger
        ensures Carries(c, e) <==> base < e.seqNo
      {
        var i :| 0 <= i < |ledger| && ledger[i] == e;
        CarriesExactlyPast(ledger, base, c, i);
      }
    }
  }

  lemma CarriesOnlyPending(pending: seq<Entry>, c: Composed, e: Entry)
    requires Minted(pending) && pending != [] && Accounts(pending, c.delivered, c.overflow)
    requires e.seqNo < pending[0].seqNo
    ensures !Carries(c, e)
  {
  }

  lemma AccountedIsCarried(pending: seq<Entry>, c: Composed, base: int)
    requires Minted(pending) && pending != [] && Accounts(pending, c.delivered, c.overflow) && c.bytes > 0
    requires pending[|pending| - 1].seqNo > base
    ensures forall i | 0 <= i < |pending| :: Carries(c, pending[i])
    ensures MarkOnAccept(c, base) == pending[|pending| - 1].seqNo
  {
    var skipped := |pending| - |c.delivered|;
    forall i | 0 <= i < |pending|
      ensures Carries(c, pending[i])
    {
      if i >= skipped {
        assert c.delivered[i - skipped] == pending[i];
      }
    }
    if c.delivered != [] {
      assert c.delivered[|c.delivered| - 1] == pending[|pending| - 1];
    }
  }

  lemma BudgetWithinPool(operatorBytes: nat, briefing: bool, catchup: bool, overflowPending: bool)
    ensures BlockBudget(operatorBytes, briefing, catchup, overflowPending) <= EntryPool(operatorBytes, briefing)
  {
  }

  lemma LedgerForAccounts(ledger: seq<Entry>, base: int, catchup: bool)
    requires Minted(ledger)
    ensures var (entries, overflow) := LedgerFor(ledger, base, catchup); Accounts(After(ledger, base), entries, overflow)
  {
    if catchup {
      LedgerAfterAccounts(ledger, base, CATCHUP_LIMITS.maxMessages, CATCHUP_LIMITS.maxBytes);
    } else {
      LedgerAfterAccounts(ledger, base, DELTA_LIMITS.maxMessages, DELTA_LIMITS.maxBytes);
    }
  }

  ghost predicate Delivers(pending: seq<Entry>, c: Composed) {
    if c.bytes > 0 then pending != [] && Accounts(pending, c.delivered, c.overflow) else c.delivered == []
  }

  lemma ComposedForDelivers(
      pending: seq<Entry>, entries: seq<Entry>, overflow: Overflow, reserved: bool, input: PromptInput)
    requires Minted(pending) && Accounts(pending, entries, overflow)
    ensures var c := ComposedFor(entries, overflow, reserved, input);
      Delivers(pending, c) && c.bytes <= EntryPool(input.operatorBytes, input.briefing)
  {
    var budget := BlockBudget(input.operatorBytes, input.briefing, input.catchup, reserved);
    BudgetWithinPool(input.operatorBytes, input.briefing, input.catchup, reserved);
    ComposeAccounts(pending, entries, overflow, budget, input.boundary);
    if pending == [] {
      EmptyOnlyWhenNothingFits(entries, overflow, budget, input.boundary);
    }
  }

  lemma CarrierDeltaDelivers(ledger: seq<Entry>, base: int, input: PromptInput)
    requires Minted(ledger)
    ensures var c := ComposeCarrierDelta(ledger, base, input);
      Delivers(After(ledger, base), c) && c.bytes <= EntryPool(input.operatorBytes, input.briefing)
  {
    TailMinted(ledger, FirstPast(ledger, base, 0));
    LedgerForAccounts(ledger, base, input.catchup);
    var (entries, overflow) := LedgerFor(ledger, base, input.catchup);
    ComposedForDelivers(After(ledger, base), entries, overflow, FirstLookOverflows(ledger, base), input);
  }

  /** A summary tells the truth: the entries in its range are exactly the ones it counted, none delivered. */
  lemma SummaryIsExact(pending: seq<Entry>, entries: seq<Entry>, overflow: Overflow)
    requires Minted(pending) && Accounts(pending, entries, overflow) && overflow.Overflow?
    ensures forall i | 0 <= i < |pending| ::
      overflow.fromSeq <= pending[i].seqNo <= overflow.toSeq <==> i < overflow.skipped
    ensures forall e | e in entries :: e.seqNo > overflow.toSeq
  {
    var skipped := |pending| - |entries|;
    forall i | 0 <= i < |pending|
      ensures overflow.fromSeq <= pending[i].seqNo <= overflow.toSeq <==> i < overflow.skipped
    {
      if i >= skipped {
        assert entries[i - skipped] == pending[i] && entries[0] == pending[skipped];
      }
    }
    forall e | e in entries
      ensures e.seqNo > overflow.toSeq
    {
      var i :| 0 <= i < |entries| && entries[i] == e;
      assert entries[i] == pending[skipped + i] && entries[0] == pending[skipped];
    }
  }

  /** The giant-operator prompt carries no delta, so what its acceptance commits is the base it started from. */
  lemma GiantOperatorCommitsItsBase(ledger: seq<Entry>, base: int, input: PromptInput)
    requires GiantOperator(input.operatorBytes)
    ensures var c := ComposeCarrierDelta(ledger, base, input);
      MarkOnAccept(c, base) == base && forall e :: !Carries(c, e)
  {
  }
}
