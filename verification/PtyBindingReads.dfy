/**
 Reading a growing log in pieces is reading it once (src/chat/pty-binding.ts, pty-binding-reader.ts).

 A segment without its newline is taken as a record as soon as it parses, so this needs logs in which a prefix
 of a line that parses has only blanks left behind it: JSON objects and arrays, but not bare numbers.
 */
module PtyBindingReads {
  import opened Options
  import opened PtyBinding

  // Growth.

  lemma {:induction false} LineEndGrows(t1: string, t2: string, from: nat)
    requires t1 <= t2 && from <= |t1|
    ensures LineEnd(t1, from) < |t1| ==> LineEnd(t2, from) == LineEnd(t1, from)
    ensures LineEnd(t1, from) == |t1| ==> LineEnd(t2, from) == LineEnd(t2, |t1|)
    decreases |t1| - from
  {
    if from < |t1| && t1[from] != '\n' {
      LineEndGrows(t1, t2, from + 1);
    }
  }

  lemma {:induction false} TrimGrows(t1: string, t2: string, lo: nat, hi: nat)
    requires t1 <= t2 && lo <= hi <= |t1|
    ensures TrimStart(t1, lo, hi) == TrimStart(t2, lo, hi)
    ensures TrimEnd(t1, lo, hi) == TrimEnd(t2, lo, hi)
    decreases hi - lo
  {
    if lo < hi {
      TrimGrows(t1, t2, lo + 1, hi);
      TrimGrows(t1, t2, lo, hi - 1);
    }
  }

  lemma {:induction false} SliceGrows(t1: string, t2: string, lo: nat, hi: nat)
    requires t1 <= t2 && lo <= hi <= |t1|
    ensures Slice(t1, lo, hi) == Slice(t2, lo, hi)
    decreases hi - lo
  {
    if lo < hi {
      SliceGrows(t1, t2, lo + 1, hi);
    }
  }

  lemma TrimmedGrows(t1: string, t2: string, lo: nat, hi: nat)
    requires t1 <= t2 && lo <= hi <= |t1|
    ensures Trimmed(t1, lo, hi) == Trimmed(t2, lo, hi)
    ensures Blank(t1, lo, hi) <==> Blank(t2, lo, hi)
  {
    TrimGrows(t1, t2, lo, hi);
    var start := TrimStart(t1, lo, hi);
    TrimGrows(t1, t2, start, hi);
    SliceGrows(t1, t2, start, TrimEnd(t1, start, hi));
  }

  // Blanks at either end change nothing.

  lemma {:induction false} StartPastBlanks(text: string, lo: nat, mid: nat, hi: nat)
    requires lo <= mid <= hi <= |text| && Blank(text, lo, mid)
    ensures TrimStart(text, lo, hi) == TrimStart(text, mid, hi)
    decreases mid - lo
  {
    if lo < mid {
      StartPastBlanks(text, lo + 1, mid, hi);
    }
  }

  lemma {:induction false} EndBeforeBlanks(text: string, lo: nat, mid: nat, hi: nat)
    requires lo <= mid <= hi <= |text| && Blank(text, mid, hi)
    ensures TrimEnd(text, lo, hi) == TrimEnd(text, lo, mid)
    decreases hi - mid
  {
    if mid < hi {
      EndBeforeBlanks(text, lo, mid, hi - 1);
    }
  }

  lemma LeadingBlanks(text: string, lo: nat, mid: nat, hi: nat)
    requires lo <= mid <= hi <= |text| && Blank(text, lo, mid)
    ensures Trimmed(text, lo, hi) == Trimmed(text, mid, hi)
  {
    StartPastBlanks(text, lo, mid, hi);
  }

  lemma TrailingBlanks(text: string, lo: nat, mid: nat, hi: nat)
    requires lo <= mid <= hi <= |text| && Blank(text, mid, hi)
    ensures Trimmed(text, lo, hi) == Trimmed(text, lo, mid)
  {
    if Blank(text, lo, mid) {
      TrimmedIsEmptyWhenBlank(text, lo, mid);
      assert Blank(text, lo, hi);
      TrimmedIsEmptyWhenBlank(text, lo, hi);
    } else {
      SameStart(text, lo, mid, hi);
      EndBeforeBlanks(text, TrimStart(text, lo, mid), mid, hi);
    }
  }

  lemma {:induction false} SameStart(text: string, lo: nat, mid: nat, hi: nat)
    requires lo <= mid <= hi <= |text| && !Blank(text, lo, mid)
    ensures TrimStart(text, lo, hi) == TrimStart(text, lo, mid)
    decreases mid - lo
  {
    if lo < mid && IsBlank(text[lo]) {
      SameStart(text, lo + 1, mid, hi);
    }
  }

  // Where a read may resume.

  predicate LineHead(text: string, at: nat)
    requires at <= |text|
  {
    at == 0 || text[at - 1] == '\n'
  }

  /** A prefix of a line that is a record leaves only blanks behind it. */
  ghost predicate Settled(text: string, parse: Parser) {
    forall head: nat, at: nat | SettlesAt(text, parse, head, at) :: Blank(text, at, LineEnd(text, head))
  }

  ghost predicate SettlesAt(text: string, parse: Parser, head: nat, at: nat) {
    head <= at <= |text| && LineHead(text, head) && at <= LineEnd(text, head) && ParsedLine(text, head, at, parse).Some?
  }

  /** `at` is on the line that starts at `head`, past blanks or past a whole record. */
  ghost predicate Resumes(text: string, parse: Parser, head: nat, at: nat) {
    && head <= at <= |text|
    && LineHead(text, head)
    && at <= LineEnd(text, head)
    && (Blank(text, head, at) || ParsedLine(text, head, at, parse).Some?)
  }

  /** The line read from where a read resumes: the whole line, or, once its record is taken, nothing. */
  lemma ResumedLine(text: string, parse: Parser, head: nat, at: nat, hi: nat)
    requires Settled(text, parse) && Resumes(text, parse, head, at) && at <= hi <= LineEnd(text, head)
    ensures Blank(text, head, at) ==> ParsedLine(text, at, hi, parse) == ParsedLine(text, head, hi, parse)
    ensures !Blank(text, head, at) ==>
      Blank(text, at, hi) && ParsedLine(text, at, hi, parse).None? &&
      ParsedLine(text, head, hi, parse) == ParsedLine(text, head, at, parse)
  {
    if Blank(text, head, at) {
      LeadingBlanks(text, head, at, hi);
    } else {
      assert SettlesAt(text, parse, head, at);
      TrailingBlanks(text, head, at, hi);
      TrimmedIsEmptyWhenBlank(text, at, hi);
    }
  }

  lemma LineEndFrom(text: string, head: nat, at: nat)
    requires head <= at <= |text| && at <= LineEnd(text, head)
    ensures LineEnd(text, at) == LineEnd(text, head)
    decreases at - head
  {
    if head < at {
      LineEndFrom(text, head + 1, at);
    }
  }

  lemma SkipBlanks(text: string, parse: Parser, from: nat, mid: nat, records: seq<Record>)
    requires from <= mid <= |text| && mid <= LineEnd(text, from) && Blank(text, from, mid)
    ensures Records(text, from, records, parse) == Records(text, mid, records, parse)
  {
    LineEndFrom(text, from, mid);
    LeadingBlanks(text, from, mid, LineEnd(text, from));
  }

  lemma TakenLine(text: string, parse: Parser, from: nat, mid: nat, end: nat)
    requires from <= mid <= end <= |text| && Blank(text, mid, end)
    ensures ParsedLine(text, from, end, parse) == ParsedLine(text, from, mid, parse)
    ensures ParsedLine(text, mid, end, parse).None?
  {
    TrailingBlanks(text, from, mid, end);
    TrimmedIsEmptyWhenBlank(text, mid, end);
  }

  /** The first read took the record of a line that later only gained blanks. */
  lemma RecordTaken(text: string, parse: Parser, from: nat, mid: nat, records: seq<Record>)
    requires from <= mid <= |text| && mid <= LineEnd(text, from)
    requires ParsedLine(text, from, mid, parse).Some? && Blank(text, mid, LineEnd(text, from))
    ensures Records(text, from, records, parse) ==
      Records(text, mid, Push(records, ParsedLine(text, from, mid, parse)), parse)
  {
    LineEndFrom(text, from, mid);
    TakenLine(text, parse, from, mid, LineEnd(text, from));
  }

  /** Where an earlier read stopped, with what it read, leads to what one read of the later text gives. */
  ghost predicate Splits(t1: string, t2: string, parse: Parser, from: nat, records: seq<Record>)
    requires t1 <= t2 && from <= |t1|
  {
    Records(t2, from, records, parse) ==
    Records(t2, Consumed(t1, from, parse), Records(t1, from, records, parse), parse)
  }

  /** What the last segment of the earlier text gave, the later text gives again or leaves to the next read. */
  lemma TailSplits(t1: string, t2: string, parse: Parser, head: nat, from: nat, records: seq<Record>)
    requires t1 <= t2 && Settled(t2, parse) && from <= |t1| && LineEnd(t1, from) == |t1|
    requires Resumes(t2, parse, head, from)
    ensures Resumes(t2, parse, head, Consumed(t1, from, parse)) && Splits(t1, t2, parse, from, records)
  {
    var cut := |t1|;
    LineEndGrows(t1, t2, from);
    LineEndFrom(t2, head, from);
    TrimmedGrows(t1, t2, from, cut);
    ResumedLine(t2, parse, head, from, cut);
    if Blank(t2, from, cut) {
      TrimmedIsEmptyWhenBlank(t1, from, cut);
      SkipBlanks(t2, parse, from, cut, records);
    } else if ParsedLine(t2, from, cut, parse).Some? {
      assert SettlesAt(t2, parse, head, cut);
      RecordTaken(t2, parse, from, cut, records);
    }
  }

  /** A whole line reads the same in both texts, and the next one starts a line in the later one too. */
  lemma SameLine(t1: string, t2: string, parse: Parser, from: nat)
    requires t1 <= t2 && from <= |t1| && LineEnd(t1, from) < |t1|
    ensures var end := LineEnd(t1, from);
      && LineEnd(t2, from) == end
      && ParsedLine(t2, from, end, parse) == ParsedLine(t1, from, end, parse)
      && Resumes(t2, parse, end + 1, end + 1)
  {
    var end := LineEnd(t1, from);
    LineEndGrows(t1, t2, from);
    TrimmedGrows(t1, t2, from, end);
    assert t2[end] == t1[end];
  }

  lemma SameLineRead(t1: string, t2: string, parse: Parser, from: nat, records: seq<Record>)
    requires t1 <= t2 && from <= |t1| && LineEnd(t1, from) < |t1|
    ensures var end := LineEnd(t1, from);
      Records(t2, from, records, parse) == Records(t2, end + 1, Push(records, ParsedLine(t1, from, end, parse)), parse)
  {
    SameLine(t1, t2, parse, from);
    LineWalked(t2, from, records, parse);
  }

  /** What holds of the reads from the next line on holds of the reads from this one. */
  lemma LineSplits(t1: string, t2: string, parse: Parser, from: nat, records: seq<Record>)
    requires t1 <= t2 && from <= |t1| && LineEnd(t1, from) < |t1|
    requires var end := LineEnd(t1, from);
      Splits(t1, t2, parse, end + 1, Push(records, ParsedLine(t1, from, end, parse)))
    ensures Splits(t1, t2, parse, from, records)
  {
    SameLineRead(t1, t2, parse, from, records);
    LineWalked(t1, from, records, parse);
  }

  /** Where the read that follows one of the earlier text resumes in the later text: at the head of its line. */
  lemma {:induction false} ReadResumes(t1: string, t2: string, parse: Parser, head: nat, from: nat, records: seq<Record>)
    returns (next: nat)
    requires t1 <= t2 && Settled(t2, parse) && from <= |t1| && Resumes(t2, parse, head, from)
    ensures Resumes(t2, parse, next, Consumed(t1, from, parse))
    decreases |t1| - from
  {
    var end := LineEnd(t1, from);
    if end == |t1| {
      TailSplits(t1, t2, parse, head, from, records);
      next := head;
    } else {
      SameLine(t1, t2, parse, from);
      LineWalked(t1, from, records, parse);
      next := ReadResumes(t1, t2, parse, end + 1, end + 1, records);
    }
  }

  lemma NextLineResumes(t1: string, t2: string, parse: Parser, from: nat)
    requires t1 <= t2 && from <= |t1| && LineEnd(t1, from) < |t1|
    ensures Resumes(t2, parse, LineEnd(t1, from) + 1, LineEnd(t1, from) + 1)
  {
    SameLine(t1, t2, parse, from);
  }

  /** Reading the log now and the rest of it later gives what one read later gives. */
  lemma {:induction false} ReadSplits(
      t1: string, t2: string, parse: Parser, head: nat, from: nat, records: seq<Record>)
    requires t1 <= t2 && Settled(t2, parse) && from <= |t1| && Resumes(t2, parse, head, from)
    ensures Splits(t1, t2, parse, from, records)
    decreases |t1| - from, 1
  {
    if LineEnd(t1, from) == |t1| {
      TailSplits(t1, t2, parse, head, from, records);
    } else {
      NextLineResumes(t1, t2, parse, from);
      LineThenRest(t1, t2, parse, from, records);
    }
  }

  lemma {:induction false} LineThenRest(t1: string, t2: string, parse: Parser, from: nat, records: seq<Record>)
    requires t1 <= t2 && Settled(t2, parse) && from <= |t1| && LineEnd(t1, from) < |t1|
    requires Resumes(t2, parse, LineEnd(t1, from) + 1, LineEnd(t1, from) + 1)
    ensures Splits(t1, t2, parse, from, records)
    decreases |t1| - from, 0
  {
    var end := LineEnd(t1, from);
    ReadSplits(t1, t2, parse, end + 1, end + 1, Push(records, ParsedLine(t1, from, end, parse)));
    LineSplits(t1, t2, parse, from, records);
  }

  // Schedules of reads.

  ghost predicate Growing(texts: seq<string>) {
    forall i | 0 <= i < |texts| - 1 :: texts[i] <= texts[i + 1]
  }

  /** `readTurnDelta`: a log shorter than the offset was truncated, and is read again from the start. */
  function ReadStart(text: string, offset: nat): nat {
    if |text| < offset then 0 else offset
  }

  /** One read after another, each from where the last one stopped. */
  function ReadAll(texts: seq<string>, offset: nat, records: seq<Record>, parse: Parser): seq<Record>
    decreases |texts|
  {
    if texts == [] then records
    else
      var from := ReadStart(texts[0], offset);
      ReadAll(texts[1..], Consumed(texts[0], from, parse), Records(texts[0], from, records, parse), parse)
  }

  lemma {:induction false} GrowsToLast(texts: seq<string>, i: nat)
    requires Growing(texts) && i < |texts|
    ensures texts[i] <= texts[|texts| - 1]
    decreases |texts| - i
  {
    if i < |texts| - 1 {
      GrowsToLast(texts, i + 1);
    }
  }

  lemma GrowingTail(texts: seq<string>)
    requires Growing(texts) && |texts| > 1
    ensures Growing(texts[1..]) && texts[1..][|texts| - 2] == texts[|texts| - 1] && |texts[0]| <= |texts[1..][0]|
  {
    assert texts[0] <= texts[1];
    forall i | 0 <= i < |texts| - 2
      ensures texts[1..][i] <= texts[1..][i + 1]
    {
      assert texts[i + 1] <= texts[i + 2];
    }
  }

  /** Any schedule of reads of a growing log serves what one read of the final log serves. */
  lemma {:induction false} ReadsMakeOneRead(
      texts: seq<string>, parse: Parser, head: nat, from: nat, records: seq<Record>)
    requires texts != [] && Growing(texts) && from <= |texts[0]|
    requires Settled(texts[|texts| - 1], parse) && Resumes(texts[|texts| - 1], parse, head, from)
    ensures ReadAll(texts, from, records, parse) == Records(texts[|texts| - 1], from, records, parse)
    decreases |texts|
  {
    var consumed := Consumed(texts[0], from, parse);
    var read := Records(texts[0], from, records, parse);
    if |texts| == 1 {
      assert ReadAll(texts[1..], consumed, read, parse) == read;
    } else {
      GrowsToLast(texts, 0);
      GrowingTail(texts);
      ReadSplits(texts[0], texts[|texts| - 1], parse, head, from, records);
      var next := ReadResumes(texts[0], texts[|texts| - 1], parse, head, from, records);
      ReadsMakeOneRead(texts[1..], parse, next, consumed, read);
    }
  }

  /** Incremental reads of a log, from its start: the records of one read, in order, each once. */
  lemma IncrementalIsOneShot(texts: seq<string>, parse: Parser)
    requires texts != [] && Growing(texts) && Settled(texts[|texts| - 1], parse)
    ensures ReadAll(texts, 0, [], parse) == Records(texts[|texts| - 1], 0, [], parse)
  {
    assert Resumes(texts[|texts| - 1], parse, 0, 0);
    ReadsMakeOneRead(texts, parse, 0, 0, []);
  }

  lemma {:induction false} ReadAllAppends(texts: seq<string>, offset: nat, records: seq<Record>, parse: Parser)
    ensures ReadAll(texts, offset, records, parse) == records + ReadAll(texts, offset, [], parse)
    decreases |texts|
  {
    if texts != [] {
      var from := ReadStart(texts[0], offset);
      var read := Records(texts[0], from, [], parse);
      var consumed := Consumed(texts[0], from, parse);
      RecordsAppend(texts[0], from, records, parse);
      ReadAllAppends(texts[1..], consumed, records + read, parse);
      ReadAllAppends(texts[1..], consumed, read, parse);
    }
  }

  /**
   A turn that begins at `before` and polls at `polls`: what was complete when it began is skipped, and all
   that completes later is served, once and in order.
   */
  lemma TurnServesTheRest(before: string, polls: seq<string>, parse: Parser)
    requires Growing([before] + polls) && Settled(([before] + polls)[|polls|], parse)
    ensures Records(([before] + polls)[|polls|], 0, [], parse) ==
      Records(before, 0, [], parse) + ReadAll(polls, Consumed(before, 0, parse), [], parse)
  {
    IncrementalIsOneShot([before] + polls, parse);
    assert ([before] + polls)[1..] == polls;
    ReadAllAppends(polls, Consumed(before, 0, parse), Records(before, 0, [], parse), parse);
  }
}
