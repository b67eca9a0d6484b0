/**
 Answering "when was this room last touched" from the head of its transcript (src/chat/transcript-read.ts):
 the candidate line is cut out, everything before it is closed with a brace, and only if that reads as this
 room's object is the stamp believed.
 */
module TranscriptStamp {
  import opened Options
  import opened Json

  const NAME := "updatedAt"

  function Quoted(raw: string): string {
    "\"" + raw + "\""
  }

  /** The line the pattern looks for, up to the end of its quoted value. */
  function Candidate(body: string): string {
    "  " + (Quoted(NAME) + (": " + Quoted(body)))
  }

  /** What the pattern lets stand between the quotes: no bare quote, and no backslash at the end. */
  predicate PatternBody(body: string, escaped: bool)
    decreases |body|
  {
    if body == "" then !escaped
    else if escaped then PatternBody(body[1..], false)
    else body[0] != '"' && PatternBody(body[1..], body[0] == '\\')
  }

  lemma {:induction false} LettersMatch(body: string)
    requires forall i | 0 <= i < |body| :: body[i] != '"' && body[i] != '\\'
    ensures PatternBody(body, false)
    decreases |body|
  {
    if body != "" {
      LettersMatch(body[1..]);
    }
  }

  // Running over the candidate.

  /** A body is read to its end inside the string, or somewhere has what no JSON string may have. */
  lemma {:induction false} BodyRead(s: State, body: string, words: Words)
    requires s.Parsing? && s.lexing.InString? && PatternBody(body, s.lexing.mode.Escaped?)
    ensures var r := Run(s, body, words);
      || r == Failed
      || (r.Parsing? && r.lexing.InString? && !r.lexing.mode.Escaped? &&
          r == s.(lexing := InString(s.lexing.raw + body, r.lexing.mode)))
    decreases |body|
  {
    if body != "" {
      var next := Step(s, body[0], words);
      if next.Failed? {
        FailedStays(body[1..], words);
      } else {
        BodyRead(next, body[1..], words);
        assert s.lexing.raw + body == s.lexing.raw + [body[0]] + body[1..];
      }
    }
  }

  lemma OneRead(s: State, c: char, words: Words)
    ensures Run(s, [c], words) == Step(s, c, words)
  {
    assert [c][1..] == "";
  }

  lemma InsideRead(s: State, body: string, words: Words)
    requires s.Parsing? && s.lexing == InString("", Plain) && PatternBody(body, false)
    ensures var r := Run(s, body + ['"'], words); r == Failed || r == StringRead(s, body)
  {
    BodyRead(s, body, words);
    RunJoin(s, body, ['"'], words);
    var read := Run(s, body, words);
    OneRead(read, '"', words);
    assert "" + body == body;
  }

  /** A quoted string where a name or a value may stand. */
  lemma QuotedRead(s: State, body: string, words: Words)
    requires s.Parsing? && s.lexing.Between? && PatternBody(body, false)
    ensures var r := Run(s, Quoted(body), words);
      r == Failed || ((WantsName(s.want) || WantsValue(s.want)) && r == StringRead(s, body))
  {
    var open := Step(s, '"', words);
    assert Quoted(body) == ['"'] + (body + ['"']);
    RunJoin(s, ['"'], body + ['"'], words);
    OneRead(s, '"', words);
    if open.Failed? {
      FailedStays(body + ['"'], words);
    } else {
      InsideRead(open, body, words);
    }
  }

  /** After the two spaces a string may still be open, a word may not. */
  ghost predicate AfterSpace(s: State) {
    s.Parsing? ==> s.lexing.Between? || (s.lexing.InString? && s.lexing.mode.Plain?)
  }

  lemma SpacesRead(s: State, words: Words)
    ensures AfterSpace(Run(s, "  ", words))
  {
    var once := Step(s, ' ', words);
    RunJoin(s, " ", " ", words);
    OneRead(s, ' ', words);
    OneRead(once, ' ', words);
    assert " " + " " == "  ";
  }

  lemma QuotedSplits(name: string)
    requires name != ""
    ensures Quoted(name) == ['"'] + ([name[0]] + (name[1..] + ['"']))
  {
  }

  /** Inside a string the quote ends it, and then a letter stands where no JSON has a word. */
  lemma NameCannotBeInString(s: State, name: string, words: Words)
    requires s.Parsing? && s.lexing.InString? && s.lexing.mode.Plain? && name != "" && name[0] == 'u'
    ensures Run(s, Quoted(name), words) == Failed
  {
    var ended := Step(s, '"', words);
    var rest := name[1..] + ['"'];
    QuotedSplits(name);
    RunJoin(s, ['"'], [name[0]] + rest, words);
    OneRead(s, '"', words);
    RunJoin(ended, [name[0]], rest, words);
    OneRead(ended, name[0], words);
    FailedStays(rest, words);
  }

  lemma NameNeedsOpenDocument(s: State, name: string, words: Words)
    requires !s.Parsing?
    ensures Run(s, Quoted(name), words) == Failed
  {
    assert Quoted(name) == ['"'] + (name + ['"']);
    RunJoin(s, ['"'], name + ['"'], words);
    OneRead(s, '"', words);
    FailedStays(name + ['"'], words);
  }

  lemma NameIsRead(s: State, words: Words)
    requires AfterSpace(s)
    ensures var r := Run(s, Quoted(NAME), words);
      r == Failed || (s.Parsing? && s.lexing.Between? && (WantsName(s.want) || WantsValue(s.want)) && r == StringRead(s, NAME))
  {
    if s.Parsing? && s.lexing.Between? {
      LettersMatch(NAME);
      QuotedRead(s, NAME, words);
    } else if s.Parsing? {
      NameCannotBeInString(s, NAME, words);
    } else {
      NameNeedsOpenDocument(s, NAME, words);
    }
  }

  /** Only a name is followed by a colon. */
  lemma ColonIsRead(s: State, words: Words)
    requires s.Parsing? && s.lexing.Between? && (WantsName(s.want) || WantsValue(s.want))
    ensures var r := Run(StringRead(s, NAME), ": ", words);
      r == Failed || (r.Parsing? && r.lexing.Between? && r.want.ValueNext? && r.stack != [] &&
                      Top(r.stack).InObject? && Top(r.stack).name == Some(NAME))
  {
    var named := StringRead(s, NAME);
    RunJoin(named, ":", " ", words);
    OneRead(named, ':', words);
    OneRead(Step(named, ':', words), ' ', words);
    assert ":" + " " == ": ";
  }

  /** The machine has just taken `updatedAt` with this body into the innermost object. */
  ghost predicate Took(s: State, body: string) {
    && s.Parsing? && s.lexing.Between? && s.want.CommaOrClose?
    && s.stack != [] && Top(s.stack).InObject? && Top(s.stack).entries != []
    && Top(s.stack).entries[|Top(s.stack).entries| - 1] == Entry(NAME, Text(body))
  }

  lemma ValueIsRead(s: State, body: string, words: Words)
    requires s.Parsing? && s.lexing.Between? && s.want.ValueNext? && s.stack != []
    requires Top(s.stack).InObject? && Top(s.stack).name == Some(NAME) && PatternBody(body, false)
    ensures var r := Run(s, Quoted(body), words); r == Failed || Took(r, body)
  {
    QuotedRead(s, body, words);
  }

  /** Wherever the candidate stands, it is taken as an entry or the text is no JSON. */
  lemma CandidateIsTaken(s: State, body: string, words: Words)
    requires PatternBody(body, false)
    ensures var r := Run(s, Candidate(body), words); r == Failed || Took(r, body)
  {
    var spaced := Run(s, "  ", words);
    var named := Run(spaced, Quoted(NAME), words);
    var colon := Run(named, ": ", words);
    RunJoin(s, "  ", Quoted(NAME) + (": " + Quoted(body)), words);
    RunJoin(spaced, Quoted(NAME), ": " + Quoted(body), words);
    RunJoin(named, ": ", Quoted(body), words);
    SpacesRead(s, words);
    NameIsRead(spaced, words);
    if named.Failed? {
      FailedStays(": ", words);
    } else {
      ColonIsRead(spaced, words);
    }
    if colon.Failed? {
      FailedStays(Quoted(body), words);
    } else {
      ValueIsRead(colon, body, words);
    }
  }

  // Closing the head of the transcript.

  const CLOSING := "\n}"

  /** Closed right behind the candidate, a text is whole only if the candidate is an entry of its own object. */
  lemma ClosingEndsTopLevel(s: State, body: string, words: Words)
    requires Took(s, body) && Finish(Run(s, CLOSING, words), words).Some?
    ensures |s.stack| == 1 && Finish(Run(s, CLOSING, words), words) == Some(Object(s.stack[0].entries))
  {
    RunJoin(s, "\n", "}", words);
    OneRead(s, '\n', words);
    OneRead(s, '}', words);
    assert "\n" + "}" == CLOSING;
  }

  /**
   If the whole transcript is JSON and its head, closed behind the candidate, is too, then both are objects,
   the head's entries are the first of the transcript's, and the last of them is the candidate.
   */
  lemma HeadIsPrefix(before: string, body: string, after: string, words: Words)
    requires PatternBody(body, false)
    requires Parse(before + (Candidate(body) + after), words).Some?
    requires Parse(before + (Candidate(body) + CLOSING), words).Some?
    ensures var full := Parse(before + (Candidate(body) + after), words).value;
      var head := Parse(before + (Candidate(body) + CLOSING), words).value;
      && full.Object? && head.Object? && head.entries <= full.entries
      && head.entries != [] && head.entries[|head.entries| - 1] == Entry(NAME, Text(body))
  {
    var s := Run(START, before, words);
    var taken := Run(s, Candidate(body), words);
    RunJoin(START, before, Candidate(body) + after, words);
    RunJoin(s, Candidate(body), after, words);
    RunJoin(START, before, Candidate(body) + CLOSING, words);
    RunJoin(s, Candidate(body), CLOSING, words);
    CandidateIsTaken(s, body, words);
    if taken.Failed? {
      FailedStays(after, words);
    } else {
      ClosingEndsTopLevel(taken, body, words);
      RunWithin(taken, after, words, taken.stack[0].entries);
      FinishWithin(Run(taken, after, words), words, taken.stack[0].entries);
    }
  }

  lemma FinishWithin(s: State, words: Words, entries: seq<Entry>)
    requires Within(s, entries) && Finish(s, words).Some?
    ensures Finish(s, words).value.Object? && entries <= Finish(s, words).value.entries
  {
  }

  // The stamp.

  /** The value of a name: of the last entry that has it, once escapes are decoded. */
  function Lookup(entries: seq<Entry>, name: string, decode: string -> string): Option<Value> {
    if entries == [] then None
    else if decode(entries[|entries| - 1].name) == name then Some(entries[|entries| - 1].value)
    else Lookup(entries[..|entries| - 1], name, decode)
  }

  function AsText(value: Option<Value>, decode: string -> string): Option<string> {
    if value.Some? && value.value.Text? then Some(decode(value.value.raw)) else None
  }

  /** The stamp and id a whole transcript carries at its top level. */
  function FieldOf(document: Option<Value>, name: string, decode: string -> string): Option<string> {
    if document.Some? && document.value.Object? then AsText(Lookup(document.value.entries, name, decode), decode)
    else None
  }

  function StampFromHeader(before: string, body: string, sessionId: string, words: Words, decode: string -> string)
    : Option<string>
  {
    var head := Parse(before + (Candidate(body) + CLOSING), words);
    if FieldOf(head, "id", decode) != Some(sessionId) then None
    else
      var stamp := FieldOf(head, NAME, decode);
      if stamp == Some("") then None else stamp
  }

  ghost predicate UniqueNames(entries: seq<Entry>, decode: string -> string) {
    forall i, j | 0 <= i < j < |entries| :: decode(entries[i].name) != decode(entries[j].name)
  }

  lemma {:induction false} LookupJoins(first: seq<Entry>, rest: seq<Entry>, name: string, decode: string -> string)
    ensures Lookup(first + rest, name, decode) ==
      if Lookup(rest, name, decode).Some? then Lookup(rest, name, decode) else Lookup(first, name, decode)
    decreases |rest|
  {
    if rest == [] {
      assert first + rest == first;
    } else {
      assert (first + rest)[..|first + rest| - 1] == first + rest[..|rest| - 1];
      LookupJoins(first, rest[..|rest| - 1], name, decode);
    }
  }

  lemma {:induction false} LookupFinds(entries: seq<Entry>, name: string, decode: string -> string) returns (i: nat)
    requires Lookup(entries, name, decode).Some?
    ensures i < |entries| && decode(entries[i].name) == name && Lookup(entries, name, decode) == Some(entries[i].value)
    decreases |entries|
  {
    var n := |entries| - 1;
    if decode(entries[n].name) == name {
      i := n;
    } else {
      i := LookupFinds(entries[..n], name, decode);
    }
  }

  lemma {:induction false} UniqueIsFound(entries: seq<Entry>, i: nat, decode: string -> string)
    requires i < |entries| && UniqueNames(entries, decode)
    ensures Lookup(entries, decode(entries[i].name), decode) == Some(entries[i].value)
    decreases |entries|
  {
    var n := |entries| - 1;
    if i < n {
      assert decode(entries[i].name) != decode(entries[n].name);
      UniqueIsFound(entries[..n], i, decode);
    }
  }

  lemma PrefixLookup(head: seq<Entry>, full: seq<Entry>, name: string, decode: string -> string)
    requires head <= full && UniqueNames(full, decode) && Lookup(head, name, decode).Some?
    ensures Lookup(full, name, decode) == Lookup(head, name, decode)
  {
    var i := LookupFinds(head, name, decode);
    assert full[i] == head[i];
    UniqueIsFound(full, i, decode);
  }

  /** What the whole transcript says, exactly: a later entry of the same name wins over the candidate. */
  lemma LaterDuplicateWins(before: string, body: string, after: string, words: Words, decode: string -> string)
    requires PatternBody(body, false) && decode(NAME) == NAME
    requires Parse(before + (Candidate(body) + after), words).Some?
    requires Parse(before + (Candidate(body) + CLOSING), words).Some?
    ensures var full := Parse(before + (Candidate(body) + after), words).value;
      var head := Parse(before + (Candidate(body) + CLOSING), words).value;
      && full.Object? && head.Object? && |head.entries| <= |full.entries|
      && Lookup(head.entries, NAME, decode) == Some(Text(body))
      && var later := Lookup(full.entries[|head.entries|..], NAME, decode);
      Lookup(full.entries, NAME, decode) == if later.Some? then later else Some(Text(body))
  {
    HeadIsPrefix(before, body, after, words);
    var full := Parse(before + (Candidate(body) + after), words).value.entries;
    var head := Parse(before + (Candidate(body) + CLOSING), words).value.entries;
    assert full == head + full[|head|..];
    LookupJoins(head, full[|head|..], NAME, decode);
  }

  /**
   The fast stamp refines the slow one: a stamp taken from the head of a transcript that is JSON with unique
   names is the whole transcript's top-level `updatedAt`, in the room that asked for it.
   */
  lemma FastStampIsFullStamp(
      before: string, body: string, after: string, sessionId: string, words: Words, decode: string -> string)
    requires PatternBody(body, false) && decode(NAME) == NAME
    requires var full := Parse(before + (Candidate(body) + after), words);
      full.Some? && (full.value.Object? ==> UniqueNames(full.value.entries, decode))
    requires StampFromHeader(before, body, sessionId, words, decode).Some?
    ensures var full := Parse(before + (Candidate(body) + after), words);
      && StampFromHeader(before, body, sessionId, words, decode) == FieldOf(full, NAME, decode) == Some(decode(body))
      && FieldOf(full, "id", decode) == Some(sessionId)
  {
    HeadIsPrefix(before, body, after, words);
    var full := Parse(before + (Candidate(body) + after), words).value.entries;
    var head := Parse(before + (Candidate(body) + CLOSING), words).value.entries;
    PrefixLookup(head, full, NAME, decode);
    PrefixLookup(head, full, "id", decode);
    LaterDuplicateWins(before, body, after, words, decode);
  }

  /**
   When the head answers, exactly: of a transcript that is JSON, if and only if the head closed behind the candidate is
   JSON, names the room that asked, and the candidate is not the empty text; and then with the candidate.
   */
  lemma FastStampExactly(
      before: string, body: string, after: string, sessionId: string, words: Words, decode: string -> string)
    requires PatternBody(body, false) && decode(NAME) == NAME
    requires Parse(before + (Candidate(body) + after), words).Some?
    ensures var head := Parse(before + (Candidate(body) + CLOSING), words);
      StampFromHeader(before, body, sessionId, words, decode) ==
        if head.Some? && FieldOf(head, "id", decode) == Some(sessionId) && decode(body) != "" then Some(decode(body))
        else None
  {
    if Parse(before + (Candidate(body) + CLOSING), words).Some? {
      LaterDuplicateWins(before, body, after, words, decode);
    }
  }

  /** The bounded read first, and the whole file only when it gives nothing. */
  function ReadTranscriptStamp(
      candidate: Option<(string, string)>, text: string, sessionId: string, words: Words, decode: string -> string)
    : Option<string>
  {
    var fast :=
      if candidate.Some? then StampFromHeader(candidate.value.0, candidate.value.1, sessionId, words, decode) else None;
    if fast.Some? then fast else FieldOf(Parse(text, words), NAME, decode)
  }

  /** So the bound never changes an answer: it is the whole file's own, whatever candidate was found. */
  lemma BoundedReadAgrees(
      candidate: Option<(string, string)>, text: string, after: string, sessionId: string, words: Words,
      decode: string -> string)
    requires decode(NAME) == NAME
    requires Parse(text, words).Some?
    requires Parse(text, words).value.Object? ==> UniqueNames(Parse(text, words).value.entries, decode)
    requires candidate.Some? ==>
      PatternBody(candidate.value.1, false) && text == candidate.value.0 + (Candidate(candidate.value.1) + after)
    ensures ReadTranscriptStamp(candidate, text, sessionId, words, decode) == FieldOf(Parse(text, words), NAME, decode)
  {
    if candidate.Some? && StampFromHeader(candidate.value.0, candidate.value.1, sessionId, words, decode).Some? {
      FastStampIsFullStamp(candidate.value.0, candidate.value.1, after, sessionId, words, decode);
    }
  }

  /** What a listing is told: a stamp, that the file is no JSON, or that it is not this room's transcript. */
  datatype StampOutcome = Stamped(at: string) | Damaged | Incompatible

  /** The whole-file read: the document, its shape, its id. `shape` is what the session schema accepts. */
  ghost function WholeOutcome(
      text: string, sessionId: string, shape: iset<Value>, words: Words, decode: string -> string): StampOutcome
  {
    var document := Parse(text, words);
    var stamp := FieldOf(document, NAME, decode);
    if document.None? then Damaged
    else if document.value !in shape || stamp.None? || FieldOf(document, "id", decode) != Some(sessionId) then Incompatible
    else Stamped(stamp.value)
  }

  ghost function BoundedOutcome(
      candidate: Option<(string, string)>, text: string, sessionId: string, shape: iset<Value>, words: Words,
      decode: string -> string): StampOutcome
  {
    var fast :=
      if candidate.Some? then StampFromHeader(candidate.value.0, candidate.value.1, sessionId, words, decode) else None;
    if fast.Some? then Stamped(fast.value) else WholeOutcome(text, sessionId, shape, words, decode)
  }

  /**
   With the checks of the whole-file read: the bounded read tells the same if and only if its head gave no stamp or
   the whole file is a transcript. A head that is sound stands for a file that is broken or misshapen behind it.
   */
  lemma BoundedOutcomeExactly(
      candidate: Option<(string, string)>, text: string, after: string, sessionId: string, shape: iset<Value>,
      words: Words, decode: string -> string)
    requires decode(NAME) == NAME
    requires Parse(text, words).Some? && Parse(text, words).value.Object? ==>
      UniqueNames(Parse(text, words).value.entries, decode)
    requires candidate.Some? ==>
      PatternBody(candidate.value.1, false) && text == candidate.value.0 + (Candidate(candidate.value.1) + after)
    ensures BoundedOutcome(candidate, text, sessionId, shape, words, decode) ==
            WholeOutcome(text, sessionId, shape, words, decode) <==>
      candidate.None? || StampFromHeader(candidate.value.0, candidate.value.1, sessionId, words, decode).None? ||
      (Parse(text, words).Some? && Parse(text, words).value in shape)
  {
    if candidate.Some? && StampFromHeader(candidate.value.0, candidate.value.1, sessionId, words, decode).Some? {
      if Parse(text, words).Some? {
        FastStampIsFullStamp(candidate.value.0, candidate.value.1, after, sessionId, words, decode);
      }
    }
  }
}
