/** What a session log serves, line by line, by how it was written (src/chat/pty-binding.ts). */
module PtyBindingLog {
  import opened Options
  import opened PtyBinding
  import opened PtyBindingReads

  /** One line as an agent wrote it: blanks, what it says, blanks. */
  datatype Line = Line(before: string, body: string, after: string)

  predicate OneLine(text: string) {
    forall i | 0 <= i < |text| :: text[i] != '\n'
  }

  predicate IsWritten(l: Line) {
    && OneLine(l.before) && OneLine(l.body) && OneLine(l.after)
    && Blank(l.before, 0, |l.before|) && Blank(l.after, 0, |l.after|)
    && (l.body != "" ==> !IsBlank(l.body[0]) && !IsBlank(l.body[|l.body| - 1]))
  }

  /** The lines that are JSON, without the blanks around them. */
  function Parsed(lines: seq<Line>, parse: Parser): seq<Record> {
    if lines == [] then []
    else
      (if lines[0].body != "" && lines[0].body in parse then [Record(lines[0].body)] else []) + Parsed(lines[1..], parse)
  }

  lemma {:induction false} LineEndsAt(text: string, from: nat, end: nat)
    requires from <= end < |text| && text[end] == '\n' && forall k | from <= k < end :: text[k] != '\n'
    ensures LineEnd(text, from) == end
    decreases end - from
  {
    if from < end {
      LineEndsAt(text, from + 1, end);
    }
  }

  lemma TrimsTo(text: string, lo: nat, start: nat, end: nat, hi: nat)
    requires lo <= start <= end <= hi <= |text| && Blank(text, lo, start) && Blank(text, end, hi)
    requires start < end ==> !IsBlank(text[start]) && !IsBlank(text[end - 1])
    ensures Trimmed(text, lo, hi) == text[start..end]
  {
    if start == end {
      TrimmedIsEmptyWhenBlank(text, lo, hi);
    } else {
      StartPastBlanks(text, lo, start, hi);
      EndBeforeBlanks(text, start, end, hi);
      SliceIsRange(text, start, end);
    }
  }

  /** The text is the line from `from` on, up to its line feed. */
  ghost predicate StandsAt(text: string, from: nat, l: Line) {
    var start, stop, end := from + |l.before|, from + |l.before| + |l.body|, from + |l.before| + |l.body| + |l.after|;
    && end < |text| && text[end] == '\n'
    && text[from..start] == l.before && text[start..stop] == l.body && text[stop..end] == l.after
  }

  /** How far the line reaches, its line feed included. */
  function Length(l: Line): nat {
    |l.before| + |l.body| + |l.after| + 1
  }

  /** The text is these lines from `from` on, and nothing else. */
  ghost predicate Holds(text: string, from: nat, lines: seq<Line>)
    decreases |lines|
  {
    if lines == [] then from == |text|
    else IsWritten(lines[0]) && StandsAt(text, from, lines[0]) && Holds(text, from + Length(lines[0]), lines[1..])
  }

  lemma SliceBlank(text: string, lo: nat, hi: nat, part: string)
    requires lo <= hi <= |text| && text[lo..hi] == part && Blank(part, 0, |part|)
    ensures Blank(text, lo, hi)
  {
    assert forall k | lo <= k < hi :: text[k] == part[k - lo];
  }

  lemma SliceOneLine(text: string, lo: nat, hi: nat, part: string)
    requires lo <= hi <= |text| && text[lo..hi] == part && OneLine(part)
    ensures forall k | lo <= k < hi :: text[k] != '\n'
  {
    assert forall k | lo <= k < hi :: text[k] == part[k - lo];
  }

  lemma LineIsRead(text: string, from: nat, l: Line)
    requires IsWritten(l) && StandsAt(text, from, l)
    ensures var end := from + |l.before| + |l.body| + |l.after|;
      LineEnd(text, from) == end && Trimmed(text, from, end) == l.body
  {
    var start, stop, end := from + |l.before|, from + |l.before| + |l.body|, from + |l.before| + |l.body| + |l.after|;
    SliceOneLine(text, from, start, l.before);
    SliceOneLine(text, start, stop, l.body);
    SliceOneLine(text, stop, end, l.after);
    LineEndsAt(text, from, end);
    SliceBlank(text, from, start, l.before);
    SliceBlank(text, stop, end, l.after);
    if start < stop {
      assert text[start] == l.body[0] && text[stop - 1] == l.body[|l.body| - 1];
    }
    TrimsTo(text, from, start, stop, end);
  }

  function ParsedOf(l: Line, parse: Parser): Option<Record> {
    if l.body != "" && l.body in parse then Some(Record(l.body)) else None
  }

  /** A read on from there pushes up to `served`, and leaves nothing unread. */
  ghost predicate Serves(text: string, from: nat, records: seq<Record>, served: seq<Record>, parse: Parser) {
    from <= |text| && Records(text, from, records, parse) == served && Consumed(text, from, parse) == |text|
  }

  /** Reading on from a line is pushing what it says and reading on behind it. */
  lemma OneLineServed(text: string, from: nat, l: Line, records: seq<Record>, served: seq<Record>, parse: Parser)
    requires IsWritten(l) && StandsAt(text, from, l)
    requires Serves(text, from + Length(l), Push(records, ParsedOf(l, parse)), served, parse)
    ensures Serves(text, from, records, served, parse)
  {
    var end := from + |l.before| + |l.body| + |l.after|;
    LineIsRead(text, from, l);
    LineWalked(text, from, records, parse);
    assert ParsedLine(text, from, end, parse) == ParsedOf(l, parse);
  }

  lemma PushedFirst(records: seq<Record>, lines: seq<Line>, parse: Parser)
    requires lines != []
    ensures Push(records, ParsedOf(lines[0], parse)) + Parsed(lines[1..], parse) == records + Parsed(lines, parse)
  {
  }

  lemma EndServesNothing(text: string, records: seq<Record>, parse: Parser)
    ensures Serves(text, |text|, records, records, parse)
  {
    TrimmedIsEmptyWhenBlank(text, |text|, |text|);
  }

  /**
   A log serves what was written to it: reading on from where a line begins gives every line that is JSON, without
   the blanks around it, in order, and skips every other; and it leaves nothing unread.
   */
  lemma {:induction false} LogServesItsLines(
      text: string, from: nat, lines: seq<Line>, records: seq<Record>, parse: Parser)
    requires Holds(text, from, lines)
    ensures Serves(text, from, records, records + Parsed(lines, parse), parse)
    decreases |lines|
  {
    if lines == [] {
      assert records + Parsed(lines, parse) == records;
      EndServesNothing(text, records, parse);
    } else {
      LogServesItsLines(text, from + Length(lines[0]), lines[1..], Push(records, ParsedOf(lines[0], parse)), parse);
      PushedFirst(records, lines, parse);
      OneLineServed(text, from, lines[0], records, records + Parsed(lines, parse), parse);
    }
  }

  predicate Within(c: char, range: CharRange) {
    range.first <= c <= range.last
  }

  ghost predicate InOneOf(c: char, ranges: seq<CharRange>) {
    exists i | 0 <= i < |ranges| :: Within(c, ranges[i])
  }

  lemma {:induction false} InOneOfRanges(c: char, ranges: seq<CharRange>)
    ensures IsIn(c, ranges) <==> InOneOf(c, ranges)
  {
    if ranges != [] {
      InOneOfRanges(c, ranges[1..]);
      assert forall i | 0 < i < |ranges| :: ranges[i] == ranges[1..][i - 1];
      assert Within(c, ranges[0]) ==> InOneOf(c, ranges);
      if InOneOf(c, ranges[1..]) {
        var i :| 0 <= i < |ranges[1..]| && Within(c, ranges[1..][i]);
        assert Within(c, ranges[i + 1]);
      }
    }
  }

  lemma OneOfTen(c: char, ranges: seq<CharRange>)
    requires |ranges| == 10
    ensures InOneOf(c, ranges) <==>
      || Within(c, ranges[0]) || Within(c, ranges[1]) || Within(c, ranges[2]) || Within(c, ranges[3])
      || Within(c, ranges[4]) || Within(c, ranges[5]) || Within(c, ranges[6]) || Within(c, ranges[7])
      || Within(c, ranges[8]) || Within(c, ranges[9])
  {
  }

  /** The blanks that are trimmed: white space, line ends and the byte order mark, and nothing else. */
  lemma BlankExactly(c: char)
    ensures IsBlank(c) <==>
      || '\t' <= c <= '\r' || c == ' ' || c == '\U{A0}' || c == '\U{1680}' || '\U{2000}' <= c <= '\U{200A}'
      || c == '\U{2028}' || c == '\U{2029}' || c == '\U{202F}' || c == '\U{205F}' || c == '\U{3000}' || c == '\U{FEFF}'
  {
    InOneOfRanges(c, BLANKS);
    OneOfTen(c, BLANKS);
  }
}
