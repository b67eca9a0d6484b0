/**
 Incremental reads of a session log (src/chat/pty-binding.ts): complete JSONL records from an offset, and how
 far they were consumed. A `Parser` stands for `JSON.parse`; a text is its UTF-16 units.
 */
module PtyBinding {
  import opened Options

  /** A parsed line; the line itself says which value it is. */
  datatype Record = Record(line: string)

  /** The lines that are JSON. */
  type Parser = iset<string>

  datatype CharRange = CharRange(first: char, last: char)

  /** What `trim` takes off: white space and line ends, Unicode's included, and the byte order mark. */
  const BLANKS := [
    CharRange('\t', '\r'), CharRange(' ', ' '), CharRange('\U{A0}', '\U{A0}'), CharRange('\U{1680}', '\U{1680}'),
    CharRange('\U{2000}', '\U{200A}'), CharRange('\U{2028}', '\U{2029}'), CharRange('\U{202F}', '\U{202F}'),
    CharRange('\U{205F}', '\U{205F}'), CharRange('\U{3000}', '\U{3000}'), CharRange('\U{FEFF}', '\U{FEFF}')]

  predicate IsIn(c: char, ranges: seq<CharRange>) {
    ranges != [] && (ranges[0].first <= c <= ranges[0].last || IsIn(c, ranges[1..]))
  }

  predicate IsBlank(c: char) {
    IsIn(c, BLANKS)
  }

  predicate Blank(text: string, lo: nat, hi: nat)
    requires hi <= |text|
  {
    forall i | lo <= i < hi :: IsBlank(text[i])
  }

  function LineEnd(text: string, from: nat): nat
    requires from <= |text|
    ensures from <= LineEnd(text, from) <= |text|
    ensures LineEnd(text, from) < |text| ==> text[LineEnd(text, from)] == '\n'
    decreases |text| - from
  {
    if from == |text| || text[from] == '\n' then from else LineEnd(text, from + 1)
  }

  function TrimStart(text: string, lo: nat, hi: nat): nat
    requires lo <= hi <= |text|
    ensures lo <= TrimStart(text, lo, hi) <= hi
    decreases hi - lo
  {
    if lo == hi || !IsBlank(text[lo]) then lo else TrimStart(text, lo + 1, hi)
  }

  function TrimEnd(text: string, lo: nat, hi: nat): nat
    requires lo <= hi <= |text|
    ensures lo <= TrimEnd(text, lo, hi) <= hi
  {
    if lo == hi || !IsBlank(text[hi - 1]) then hi else TrimEnd(text, lo, hi - 1)
  }

  function Slice(text: string, lo: nat, hi: nat): string
    requires lo <= hi <= |text|
    ensures |Slice(text, lo, hi)| == hi - lo
    decreases hi - lo
  {
    if lo == hi then "" else [text[lo]] + Slice(text, lo + 1, hi)
  }

  lemma {:induction false} SliceIsRange(text: string, lo: nat, hi: nat)
    requires lo <= hi <= |text|
    ensures Slice(text, lo, hi) == text[lo..hi]
    decreases hi - lo
  {
    if lo < hi {
      SliceIsRange(text, lo + 1, hi);
    }
  }

  function Trimmed(text: string, lo: nat, hi: nat): string
    requires lo <= hi <= |text|
  {
    var start := TrimStart(text, lo, hi);
    Slice(text, start, TrimEnd(text, start, hi))
  }

  function ParsedLine(text: string, lo: nat, hi: nat, parse: Parser): Option<Record>
    requires lo <= hi <= |text|
  {
    var line := Trimmed(text, lo, hi);
    if line != "" && line in parse then Some(Record(line)) else None
  }

  function Push(records: seq<Record>, record: Option<Record>): seq<Record> {
    if record.Some? then records + [record.value] else records
  }

  /** A last segment that is no record and not blank is a write still on its way. */
  predicate IsPartial(text: string, from: nat, parse: Parser)
    requires from <= |text|
  {
    ParsedLine(text, from, |text|, parse).None? && !Blank(text, from, |text|)
  }

  /** The records of the complete lines from `from` on, pushed onto `records`. */
  function Records(text: string, from: nat, records: seq<Record>, parse: Parser): seq<Record>
    requires from <= |text|
    decreases |text| - from
  {
    var end := LineEnd(text, from);
    if end == |text| then Push(records, ParsedLine(text, from, end, parse))
    else Records(text, end + 1, Push(records, ParsedLine(text, from, end, parse)), parse)
  }

  /** The offset the next read starts at. */
  function Consumed(text: string, from: nat, parse: Parser): nat
    requires from <= |text|
    ensures from <= Consumed(text, from, parse) <= |text|
    decreases |text| - from
  {
    if LineEnd(text, from) < |text| then Consumed(text, LineEnd(text, from) + 1, parse)
    else if IsPartial(text, from, parse) then from
    else |text|
  }

  /** Only blanks are trimmed, and all of them. */
  lemma {:induction false} TrimStartIsFirst(text: string, lo: nat, hi: nat)
    requires lo <= hi <= |text|
    ensures Blank(text, lo, TrimStart(text, lo, hi))
    ensures TrimStart(text, lo, hi) < hi ==> !IsBlank(text[TrimStart(text, lo, hi)])
    decreases hi - lo
  {
    if lo < hi && IsBlank(text[lo]) {
      TrimStartIsFirst(text, lo + 1, hi);
    }
  }

  lemma {:induction false} TrimEndIsLast(text: string, lo: nat, hi: nat)
    requires lo <= hi <= |text|
    ensures Blank(text, TrimEnd(text, lo, hi), hi)
    ensures lo < TrimEnd(text, lo, hi) ==> !IsBlank(text[TrimEnd(text, lo, hi) - 1])
  {
    if lo < hi && IsBlank(text[hi - 1]) {
      TrimEndIsLast(text, lo, hi - 1);
    }
  }

  lemma TrimmedIsEmptyWhenBlank(text: string, lo: nat, hi: nat)
    requires lo <= hi <= |text|
    ensures Trimmed(text, lo, hi) == "" <==> Blank(text, lo, hi)
  {
    TrimStartIsFirst(text, lo, hi);
    TrimEndIsLast(text, TrimStart(text, lo, hi), hi);
  }

  method IndexOfNewline(text: string, from: nat) returns (at: int)
    requires from <= |text|
    ensures if LineEnd(text, from) < |text| then at == LineEnd(text, from) else at == -1
  {
    at := from;
    while at < |text| && text[at] != '\n'
      invariant from <= at <= |text| && LineEnd(text, from) == LineEnd(text, at)
    {
      at := at + 1;
    }
    if at == |text| {
      at := -1;
    }
  }

  /** One line: its record, or that it is neither a record nor blank. */
  method ParseLine(text: string, lo: nat, hi: nat, parse: Parser)
    returns (record: Option<Record>, garbled: bool)
    requires lo <= hi <= |text|
    ensures record == ParsedLine(text, lo, hi, parse)
    ensures garbled <==> record.None? && !Blank(text, lo, hi)
  {
    TrimmedIsEmptyWhenBlank(text, lo, hi);
    var line := Trimmed(text, lo, hi);
    if line == "" {
      return None, false;
    }
    record := if line in parse then Some(Record(line)) else None;
    garbled := record.None?;
  }

  /** One line of a walk. */
  lemma LineWalked(text: string, from: nat, records: seq<Record>, parse: Parser)
    requires from <= |text|
    ensures var end := LineEnd(text, from);
      var pushed := Push(records, ParsedLine(text, from, end, parse));
      if end == |text| then
        Records(text, from, records, parse) == pushed &&
        Consumed(text, from, parse) == if IsPartial(text, from, parse) then from else |text|
      else
        Records(text, from, records, parse) == Records(text, end + 1, pushed, parse) &&
        Consumed(text, from, parse) == Consumed(text, end + 1, parse)
  {
  }

  method WalkRecords(text: string, offset: nat, parse: Parser) returns (records: seq<Record>, consumed: nat)
    requires offset <= |text|
    ensures records == Records(text, offset, [], parse) && consumed == Consumed(text, offset, parse)
  {
    records, consumed := [], offset;
    while consumed < |text|
      invariant consumed <= |text|
      invariant Records(text, offset, [], parse) == Records(text, consumed, records, parse)
      invariant Consumed(text, offset, parse) == Consumed(text, consumed, parse)
    {
      var newline := IndexOfNewline(text, consumed);
      var lineEnd := if newline == -1 then |text| else newline;
      var record, garbled := ParseLine(text, consumed, lineEnd, parse);
      LineWalked(text, consumed, records, parse);
      if garbled && newline == -1 {
        return;
      }
      records := Push(records, record);
      if newline == -1 {
        consumed := |text|;
        return;
      }
      consumed := newline + 1;
    }
    TrimmedIsEmptyWhenBlank(text, |text|, |text|);
  }

  lemma PushSplits(records: seq<Record>, record: Option<Record>)
    ensures Push(records, record) == records + Push([], record)
  {
  }

  lemma PushAppends(records: seq<Record>, record: Option<Record>, rest: seq<Record>)
    ensures Push(records, record) + rest == records + (Push([], record) + rest)
  {
  }

  lemma {:induction false} RestAppends(
      text: string, from: nat, records: seq<Record>, record: Option<Record>, parse: Parser)
    requires from <= |text|
    ensures Records(text, from, Push(records, record), parse) ==
      records + Records(text, from, Push([], record), parse)
    decreases |text| - from, 1
  {
    RecordsAppend(text, from, Push(records, record), parse);
    RecordsAppend(text, from, Push([], record), parse);
    PushAppends(records, record, Records(text, from, [], parse));
  }

  lemma LineAppends(text: string, from: nat, records: seq<Record>, parse: Parser)
    requires from <= |text| && LineEnd(text, from) < |text|
    requires var end := LineEnd(text, from);
      var record := ParsedLine(text, from, end, parse);
      Records(text, end + 1, Push(records, record), parse) == records + Records(text, end + 1, Push([], record), parse)
    ensures Records(text, from, records, parse) == records + Records(text, from, [], parse)
  {
    LineWalked(text, from, records, parse);
    LineWalked(text, from, [], parse);
  }

  lemma LastLineAppends(text: string, from: nat, records: seq<Record>, parse: Parser)
    requires from <= |text| && LineEnd(text, from) == |text|
    ensures Records(text, from, records, parse) == records + Records(text, from, [], parse)
  {
    PushSplits(records, ParsedLine(text, from, |text|, parse));
  }

  /** A read only ever appends, and what it appends does not depend on what came before. */
  lemma {:induction false} RecordsAppend(text: string, from: nat, records: seq<Record>, parse: Parser)
    requires from <= |text|
    ensures Records(text, from, records, parse) == records + Records(text, from, [], parse)
    decreases |text| - from, 0
  {
    var end := LineEnd(text, from);
    if end < |text| {
      RestAppends(text, end + 1, records, ParsedLine(text, from, end, parse), parse);
      LineAppends(text, from, records, parse);
    } else {
      LastLineAppends(text, from, records, parse);
    }
  }
}
