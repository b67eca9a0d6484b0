/** The reader of one pty session (src/chat/pty-binding-reader.ts): the offset it threads across turns and polls. */
module PtyBindingReader {
  import opened Options
  import opened PtyBinding
  import opened PtyBindingReads

  /** `file`: the log the reader is pinned to. */
  datatype Reader = Reader(file: Option<nat>, offset: nat, sawBusy: bool)

  /** The session log as it is now: no file before the agent writes one, and one may be gone when it is read. */
  datatype Log = Log(file: Option<nat>, gone: bool, text: string)

  predicate IsThere(log: Log) {
    log.file.Some? && !log.gone
  }

  datatype Status = Busy | Idle | Waiting | Unknown

  /** `speaking`: records with assistant text. `final`: records that mark a task complete. */
  datatype Reading = Reading(parse: Parser, speaking: iset<Record>, final: iset<Record>)

  /** A log that is not the pinned one is read from its start. */
  function Resolved(r: Reader, log: Log): Reader {
    if r.file.Some? && r.file == log.file then r else r.(file := log.file, offset := 0)
  }

  function From(r: Reader, log: Log): nat
    ensures From(r, log) <= |log.text|
  {
    ReadStart(log.text, Resolved(r, log).offset)
  }

  function Served(r: Reader, log: Log, parse: Parser): seq<Record> {
    if !IsThere(log) then [] else Records(log.text, From(r, log), [], parse)
  }

  function AfterRead(r: Reader, log: Log, parse: Parser): Reader {
    if !IsThere(log) then Resolved(r, log)
    else Resolved(r, log).(offset := Consumed(log.text, From(r, log), parse))
  }

  function Begun(r: Reader, log: Log, parse: Parser): Reader {
    AfterRead(r, log, parse).(sawBusy := false)
  }

  function AfterPoll(r: Reader, log: Log, status: Status, parse: Parser): Reader {
    var read := AfterRead(r, log, parse);
    if status.Busy? then read.(sawBusy := true) else read
  }

  ghost predicate Speaks(records: seq<Record>, speaking: iset<Record>) {
    exists i | 0 <= i < |records| :: records[i] in speaking
  }

  /** claude: a busy status was seen in this turn, it is over, and THIS poll brought text. */
  ghost predicate ClaudeComplete(r: Reader, log: Log, status: Status, reading: Reading) {
    && (r.sawBusy || status.Busy?)
    && (status.Idle? || status.Waiting?)
    && Speaks(Served(r, log, reading.parse), reading.speaking)
  }

  class BindingReader {
    const claude: bool
    var file: Option<nat>
    var offset: nat
    var sawBusy: bool

    ghost function View(): Reader
      reads this
    {
      Reader(file, offset, sawBusy)
    }

    constructor (claude: bool, log: Log)
      ensures this.claude == claude && View() == Reader(log.file, 0, false)
    {
      this.claude := claude;
      file, offset, sawBusy := log.file, 0, false;
    }

    method Resolve(log: Log)
      modifies this
      ensures View() == Resolved(old(View()), log)
      ensures file == log.file && unchanged(`sawBusy)
      ensures offset == if log.file.Some? && old(file) == log.file then old(offset) else 0
    {
      if file.None? || file != log.file {
        offset := 0;
      }
      file := log.file;
    }

    method ReadTurnDelta(log: Log, parse: Parser) returns (records: seq<Record>)
      modifies this
      ensures records == Served(old(View()), log, parse) && View() == AfterRead(old(View()), log, parse)
      ensures file == log.file && unchanged(`sawBusy)
      ensures !IsThere(log) ==>
        records == [] && offset == if log.file.Some? && old(file) == log.file then old(offset) else 0
      ensures IsThere(log) ==>
        var start := if old(file) == log.file && old(offset) <= |log.text| then old(offset) else 0;
        records == Records(log.text, start, [], parse) && offset == Consumed(log.text, start, parse)
    {
      Resolve(log);
      if !IsThere(log) {
        return [];
      }
      var start := if |log.text| < offset then 0 else offset;
      records, offset := WalkRecords(log.text, start, parse);
    }

    method BeginTurn(log: Log, parse: Parser)
      modifies this
      ensures View() == Begun(old(View()), log, parse)
      ensures file == log.file && !sawBusy
      ensures !IsThere(log) ==> offset == if log.file.Some? && old(file) == log.file then old(offset) else 0
      ensures IsThere(log) ==>
        offset == Consumed(log.text, if old(file) == log.file && old(offset) <= |log.text| then old(offset) else 0, parse)
    {
      var skipped := ReadTurnDelta(log, parse);
      sawBusy := false;
    }

    method HasAny(records: seq<Record>, which: iset<Record>) returns (any: bool)
      ensures any <==> Speaks(records, which)
    {
      any := false;
      for i := 0 to |records|
        invariant any <==> exists k | 0 <= k < i :: records[k] in which
      {
        if records[i] in which {
          any := true;
        }
      }
    }

    method Poll(log: Log, status: Status, reading: Reading) returns (records: seq<Record>, complete: bool)
      modifies this
      ensures records == Served(old(View()), log, reading.parse)
      ensures View() == if claude then AfterPoll(old(View()), log, status, reading.parse)
                        else AfterRead(old(View()), log, reading.parse)
      ensures complete <==>
        if claude then ClaudeComplete(old(View()), log, status, reading) else Speaks(records, reading.final)
      ensures file == log.file && (sawBusy <==> old(sawBusy) || (claude && status.Busy?))
      ensures !IsThere(log) ==>
        records == [] && offset == if log.file.Some? && old(file) == log.file then old(offset) else 0
      ensures IsThere(log) ==>
        var start := if old(file) == log.file && old(offset) <= |log.text| then old(offset) else 0;
        records == Records(log.text, start, [], reading.parse) && offset == Consumed(log.text, start, reading.parse)
      ensures complete <==>
        && (claude ==> sawBusy && (status.Idle? || status.Waiting?))
        && exists i | 0 <= i < |records| :: records[i] in if claude then reading.speaking else reading.final
    {
      records := ReadTurnDelta(log, reading.parse);
      if !claude {
        complete := HasAny(records, reading.final);
        return;
      }
      if status.Busy? {
        sawBusy := true;
      }
      var speaks := HasAny(records, reading.speaking);
      complete := sawBusy && (status.Idle? || status.Waiting?) && speaks;
    }
  }

  // One turn after another on one log.

  ghost predicate OneLog(r: Reader, logs: seq<Log>) {
    r.file.Some? && forall i | 0 <= i < |logs| :: logs[i].file == r.file
  }

  /** What the reads found. */
  function Texts(logs: seq<Log>): seq<string> {
    if logs == [] then [] else (if logs[0].gone then [] else [logs[0].text]) + Texts(logs[1..])
  }

  function PollAll(r: Reader, logs: seq<Log>, parse: Parser): seq<Record>
    decreases |logs|
  {
    if logs == [] then [] else Served(r, logs[0], parse) + PollAll(AfterRead(r, logs[0], parse), logs[1..], parse)
  }

  lemma {:induction false} PollsAreReads(r: Reader, logs: seq<Log>, parse: Parser)
    requires OneLog(r, logs)
    ensures PollAll(r, logs, parse) == ReadAll(Texts(logs), r.offset, [], parse)
    decreases |logs|
  {
    if logs != [] {
      var next := AfterRead(r, logs[0], parse);
      PollsAreReads(next, logs[1..], parse);
      if logs[0].gone {
        assert Texts(logs) == Texts(logs[1..]) && next == r && Served(r, logs[0], parse) == [];
      } else {
        assert Texts(logs)[1..] == Texts(logs[1..]);
        ReadAllAppends(Texts(logs[1..]), next.offset, Served(r, logs[0], parse), parse);
      }
    }
  }

  /**
   A session that moves to another log reads that one from its start, wherever it had got to in the last: polling it
   serves what reading it from 0 serves.
   */
  lemma AnotherLogIsReadWhole(r: Reader, logs: seq<Log>, parse: Parser)
    requires logs != [] && OneLog(Reader(logs[0].file, 0, r.sawBusy), logs) && r.file != logs[0].file
    ensures PollAll(r, logs, parse) == ReadAll(Texts(logs), 0, [], parse)
  {
    PollsAreReads(Reader(logs[0].file, 0, r.sawBusy), logs, parse);
  }

  lemma {:induction false} PollsIgnoreBusy(r: Reader, logs: seq<Log>, parse: Parser, sawBusy: bool)
    ensures PollAll(r.(sawBusy := sawBusy), logs, parse) == PollAll(r, logs, parse)
    decreases |logs|
  {
    if logs != [] {
      PollsIgnoreBusy(AfterRead(r, logs[0], parse), logs[1..], parse, sawBusy);
    }
  }

  /**
   A turn that begins at `logs[0]` and polls at the rest, on one growing log that may be gone at some of them: what
   was complete at its start is skipped, and everything after it is served once, in order.
   */
  lemma TurnIsolated(r: Reader, logs: seq<Log>, parse: Parser, head: nat)
    requires logs != [] && OneLog(r, logs) && Texts(logs) != [] && Growing(Texts(logs)) && r.offset <= |Texts(logs)[0]|
    requires var final := Texts(logs)[|Texts(logs)| - 1]; Settled(final, parse) && Resumes(final, parse, head, r.offset)
    ensures Records(Texts(logs)[|Texts(logs)| - 1], r.offset, [], parse) ==
      Served(r, logs[0], parse) + PollAll(Begun(r, logs[0], parse), logs[1..], parse)
  {
    PollsAreReads(r, logs, parse);
    ReadsMakeOneRead(Texts(logs), parse, head, r.offset, []);
    PollsIgnoreBusy(AfterRead(r, logs[0], parse), logs[1..], parse, false);
  }

  /** Reading an unchanged log again serves nothing. */
  lemma {:induction false} RereadIsEmpty(text: string, from: nat, parse: Parser)
    requires from <= |text|
    ensures Records(text, Consumed(text, from, parse), [], parse) == []
    ensures Consumed(text, Consumed(text, from, parse), parse) == Consumed(text, from, parse)
    decreases |text| - from
  {
    if LineEnd(text, from) < |text| {
      RereadIsEmpty(text, LineEnd(text, from) + 1, parse);
    } else {
      TrimmedIsEmptyWhenBlank(text, |text|, |text|);
    }
  }

  /**
   A poll hands out text once. A claude reply that was read while the status was still busy is gone by the
   time it is idle, and unless the log grows no later poll of the turn completes.
   */
  lemma {:induction false} ReplyReadWhileBusyIsLost(r: Reader, log: Log, reading: Reading, statuses: seq<Status>, k: nat)
    requires log.file.Some? && k < |statuses|
    requires r.file == log.file && From(r, log) == Consumed(log.text, From(r, log), reading.parse)
    requires Records(log.text, From(r, log), [], reading.parse) == []
    ensures !ClaudeComplete(AfterPolls(r, log, statuses[..k], reading.parse), log, statuses[k], reading)
    decreases k
  {
    if k > 0 {
      var next := AfterPoll(r, log, statuses[0], reading.parse);
      assert statuses[..k][1..] == statuses[1..][..k - 1];
      ReplyReadWhileBusyIsLost(next, log, reading, statuses[1..], k - 1);
    }
  }

  function AfterPolls(r: Reader, log: Log, statuses: seq<Status>, parse: Parser): Reader
    decreases |statuses|
  {
    if statuses == [] then r else AfterPolls(AfterPoll(r, log, statuses[0], parse), log, statuses[1..], parse)
  }

  lemma BusyPollSwallowsReply(r: Reader, log: Log, reading: Reading, statuses: seq<Status>, k: nat)
    requires log.file.Some? && k < |statuses|
    ensures var busy := AfterPoll(r, log, Busy, reading.parse);
      && !ClaudeComplete(r, log, Busy, reading)
      && !ClaudeComplete(AfterPolls(busy, log, statuses[..k], reading.parse), log, statuses[k], reading)
  {
    RereadIsEmpty(log.text, From(r, log), reading.parse);
    if log.gone {
      return;
    }
    ReplyReadWhileBusyIsLost(AfterPoll(r, log, Busy, reading.parse), log, reading, statuses, k);
  }
}
