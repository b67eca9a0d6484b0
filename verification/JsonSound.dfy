/**
 The stack machine reads nothing but JSON: what it accepts is the written form of the value it gives, white space
 between tokens aside.
 */
module JsonSound {
  import opened Options
  import opened Json

  // Strings.

  predicate IsPlain(c: char) {
    c >= ' ' && c != '"' && c != '\\'
  }

  /** What may stand between the quotes (section 7 of RFC 8259). */
  predicate IsBody(raw: string)
    decreases |raw|
  {
    || raw == ""
    || (IsPlain(raw[0]) && IsBody(raw[1..]))
    || (|raw| >= 2 && raw[0] == '\\' && raw[1] in "\"\\/bfnrt" && IsBody(raw[2..]))
    || (|raw| >= 6 && raw[0] == '\\' && raw[1] == 'u' && AreHex(raw[2..6]) && IsBody(raw[6..]))
  }

  predicate AreHex(digits: string) {
    forall i | 0 <= i < |digits| :: digits[i] in "0123456789abcdefABCDEF"
  }

  lemma HexExactly(c: char)
    ensures IsHex(c) <==> c in "0123456789abcdefABCDEF"
    ensures IsEscape(c) <==> c in "\"\\/bfnrt"
  {
  }

  lemma AreHexFirst(raw: string, left: nat)
    requires 0 < left <= |raw|
    ensures AreHex(raw[..left]) <==> IsHex(raw[0]) && AreHex(raw[1..][..left - 1])
    ensures raw[1..][left - 1..] == raw[left..]
  {
    HexExactly(raw[0]);
    assert raw[..left] == [raw[0]] + raw[1..][..left - 1];
  }

  lemma {:induction false} HexRun(raw: string, left: nat)
    requires 0 < left <= 4
    ensures BodyMode(raw, Hex(left)) <==> |raw| >= left && AreHex(raw[..left]) && BodyMode(raw[left..], Plain)
    decreases left
  {
    if |raw| >= left {
      AreHexFirst(raw, left);
    }
    if raw != "" && left > 1 {
      HexRun(raw[1..], left - 1);
    }
  }

  lemma {:induction false} BodyExactly(raw: string)
    ensures BodyMode(raw, Plain) <==> IsBody(raw)
    decreases |raw|
  {
    if raw == "" {
    } else if raw[0] != '\\' {
      BodyExactly(raw[1..]);
    } else if |raw| > 1 {
      HexExactly(raw[1]);
      assert raw[1..][0] == raw[1] && raw[1..][1..] == raw[2..];
      BodyExactly(raw[2..]);
      HexRun(raw[2..], 4);
      if |raw| >= 6 {
        assert raw[2..][..4] == raw[2..6] && raw[2..][4..] == raw[6..];
        BodyExactly(raw[6..]);
      }
    }
  }

  // What a state has read, written out.

  function Comma(empty: bool): string {
    if empty then "" else ","
  }

  function Entries(entries: seq<Entry>): string {
    if entries == [] then ""
    else
      var e := entries[|entries| - 1];
      Entries(entries[..|entries| - 1]) + (Comma(|entries| == 1) + (RenderName(e.name) + Render(e.value)))
  }

  function Items(items: seq<Value>): string {
    if items == [] then ""
    else Items(items[..|items| - 1]) + (Comma(|items| == 1) + Render(items[|items| - 1]))
  }

  /** Without the comma before what comes next. */
  function Shut(frame: Frame): string {
    match frame
    case InObject(entries, _) => "{" + Entries(entries)
    case InList(items) => "[" + Items(items)
  }

  function Quoted(name: string): string {
    "\"" + (name + "\"")
  }

  /** Up to where the next name or value begins. */
  function Open(frame: Frame): string {
    match frame
    case InObject(entries, name) =>
      Shut(frame) + (Comma(entries == []) + if name.Some? then Quoted(name.value) + ":" else "")
    case InList(items) => Shut(frame) + Comma(items == [])
  }

  function Here(frame: Frame, want: Want): string {
    if want.CommaOrClose? then Shut(frame)
    else if want.ColonNext? && frame.InObject? && frame.name.Some? then
      Shut(frame) + (Comma(frame.entries == []) + Quoted(frame.name.value))
    else Open(frame)
  }

  /** All the frames, a value awaited in the last. */
  function Under(stack: seq<Frame>): string {
    if stack == [] then "" else Under(Pop(stack)) + Open(Top(stack))
  }

  function Lexed(lexing: Lexing): string {
    match lexing
    case Between => ""
    case InString(raw, _) => "\"" + raw
    case InWord(word) => word
  }

  function Spelled(stack: seq<Frame>, want: Want): string {
    if stack == [] then "" else Under(Pop(stack)) + Here(Top(stack), want)
  }

  function Spelling(s: State): string {
    match s
    case Failed => ""
    case Done(value) => Render(value)
    case Parsing(stack, want, lexing) => Spelled(stack, want) + Lexed(lexing)
  }

  // What a state that has not failed is made of.

  ghost predicate WellFormedEntries(entries: seq<Entry>, words: Words) {
    forall i | 0 <= i < |entries| :: BodyMode(entries[i].name, Plain) && WellFormed(entries[i].value, words)
  }

  ghost predicate WellFormedItems(items: seq<Value>, words: Words) {
    forall i | 0 <= i < |items| :: WellFormed(items[i], words)
  }

  ghost predicate FrameSound(frame: Frame, words: Words) {
    match frame
    case InObject(entries, name) =>
      WellFormedEntries(entries, words) && (name.Some? ==> BodyMode(name.value, Plain))
    case InList(items) => WellFormedItems(items, words)
  }

  /** What may come next in the frame. */
  predicate Fits(frame: Frame, want: Want) {
    match frame
    case InObject(entries, Some(_)) => want.ColonNext? || want.ValueNext?
    case InObject(entries, None) =>
      if entries == [] then want.NameOrClose? else want.NameNext? || want.CommaOrClose?
    case InList(items) => if items == [] then want.ValueOrClose? else want.ValueNext? || want.CommaOrClose?
  }

  predicate Awaits(frame: Frame) {
    frame.InObject? ==> frame.name.Some?
  }

  /** Every frame is sound, and all but the last await a value. */
  ghost predicate StackSound(stack: seq<Frame>, words: Words) {
    && (forall i | 0 <= i < |stack| :: FrameSound(stack[i], words))
    && (forall i | 0 <= i < |stack| - 1 :: Awaits(stack[i]))
  }

  /** The mode a string is in, from how it was begun. */
  ghost predicate Begun(raw: string, mode: Mode) {
    forall rest: string :: BodyMode(raw + rest, Plain) <==> BodyMode(rest, mode)
  }

  ghost predicate LexSound(want: Want, lexing: Lexing) {
    match lexing
    case Between => true
    case InString(raw, mode) => (WantsName(want) || WantsValue(want)) && Begun(raw, mode)
    case InWord(word) => WantsValue(want) && word != "" && forall i | 0 <= i < |word| :: !IsDelimiter(word[i])
  }

  ghost predicate Sound(s: State, words: Words) {
    match s
    case Failed => true
    case Done(value) => WellFormed(value, words)
    case Parsing(stack, want, lexing) =>
      && StackSound(stack, words)
      && (if stack == [] then want.ValueNext? else Fits(Top(stack), want))
      && LexSound(want, lexing)
  }

  // One value given to its frame.

  lemma PoppedSound(stack: seq<Frame>, words: Words)
    requires stack != [] && StackSound(stack, words)
    ensures StackSound(Pop(stack), words) && (Pop(stack) != [] ==> Awaits(Top(Pop(stack)))) && FrameSound(Top(stack), words)
  {
  }

  lemma PushedSound(stack: seq<Frame>, frame: Frame, words: Words)
    requires StackSound(stack, words) && FrameSound(frame, words) && (stack != [] ==> Awaits(Top(stack)))
    ensures StackSound(stack + [frame], words) && Top(stack + [frame]) == frame && Pop(stack + [frame]) == stack
  {
    assert forall i | 0 <= i < |stack| - 1 :: (stack + [frame])[i] == stack[i];
  }

  lemma OneMoreEntry(entries: seq<Entry>, name: string, value: Value)
    ensures Entries(entries + [Entry(name, value)]) ==
      Entries(entries) + (Comma(entries == []) + (RenderName(name) + Render(value)))
  {
    assert (entries + [Entry(name, value)])[..|entries|] == entries;
  }

  lemma OneMoreItem(items: seq<Value>, value: Value)
    ensures Items(items + [value]) == Items(items) + (Comma(items == []) + Render(value))
  {
    assert (items + [value])[..|items|] == items;
  }

  lemma Assoc(a: string, b: string, c: string)
    ensures a + (b + c) == a + b + c
  {
  }

  lemma NamedThen(name: string, text: string)
    ensures RenderName(name) + text == Quoted(name) + ":" + text
  {
    assert RenderName(name) == Quoted(name) + ":";
  }

  /** A frame that awaited the value, and has it. */
  function Taken(frame: Frame, value: Value): Frame
    requires Awaits(frame)
  {
    match frame
    case InList(items) => InList(items + [value])
    case InObject(entries, name) => InObject(entries + [Entry(name.value, value)], None)
  }

  lemma TakenSpells(frame: Frame, value: Value)
    requires Awaits(frame)
    ensures Shut(Taken(frame, value)) == Open(frame) + Render(value)
  {
    var v := Render(value);
    match frame
    case InList(items) =>
      OneMoreItem(items, value);
      Assoc("[", Items(items), Comma(items == []) + v);
      Assoc("[" + Items(items), Comma(items == []), v);
    case InObject(entries, name) =>
      OneMoreEntry(entries, name.value, value);
      NamedThen(name.value, v);
      var comma, quoted := Comma(entries == []), Quoted(name.value) + ":";
      Assoc("{", Entries(entries), comma + (quoted + v));
      Assoc(comma, quoted, v);
      Assoc("{" + Entries(entries), comma + quoted, v);
  }

  lemma TakenSound(frame: Frame, value: Value, words: Words)
    requires Awaits(frame) && FrameSound(frame, words) && WellFormed(value, words)
    ensures FrameSound(Taken(frame, value), words) && Fits(Taken(frame, value), CommaOrClose)
  {
  }

  lemma PushedSpells(stack: seq<Frame>, frame: Frame, want: Want)
    ensures Spelled(stack + [frame], want) == Under(stack) + Here(frame, want)
  {
    assert Pop(stack + [frame]) == stack;
  }

  lemma GiveIsTaking(stack: seq<Frame>, value: Value)
    requires stack != [] && Awaits(Top(stack))
    ensures Give(stack, value) == Parsing(Pop(stack) + [Taken(Top(stack), value)], CommaOrClose, Between)
  {
  }

  lemma GiveSpells(stack: seq<Frame>, value: Value, words: Words)
    requires StackSound(stack, words) && (stack != [] ==> Awaits(Top(stack))) && WellFormed(value, words)
    ensures Sound(Give(stack, value), words) && !Give(stack, value).Failed?
    ensures Spelling(Give(stack, value)) == Under(stack) + Render(value)
  {
    if stack != [] {
      var next := Taken(Top(stack), value);
      GiveIsTaking(stack, value);
      PoppedSound(stack, words);
      TakenSpells(Top(stack), value);
      TakenSound(Top(stack), value, words);
      PushedSound(Pop(stack), next, words);
      PushedSpells(Pop(stack), next, CommaOrClose);
      Assoc(Under(Pop(stack)), Open(Top(stack)), Render(value));
    }
  }

  // One character.

  /** `c` was read, and is in what is spelled. */
  ghost predicate Reads(s: State, s': State, c: char, words: Words) {
    Sound(s', words) && (!s'.Failed? ==> Spelling(s') == Spelling(s) + [c])
  }

  lemma StringBegins(s: State, words: Words)
    requires Sound(s, words) && s.Parsing? && s.lexing.Between?
    ensures Reads(s, StepBetween(s, '"'), '"', words)
  {
    if WantsName(s.want) || WantsValue(s.want) {
      assert forall rest: string :: "" + rest == rest;
      assert "\"" + "" == "\"";
    }
  }

  lemma WordBegins(s: State, c: char, words: Words)
    requires Sound(s, words) && s.Parsing? && s.lexing.Between? && !IsDelimiter(c)
    ensures Reads(s, StepBetween(s, c), c, words)
  {
  }

  /** Where a value may begin, what is spelled is what lies under it. */
  lemma ValueUnder(stack: seq<Frame>, want: Want, words: Words)
    requires Sound(Parsing(stack, want, Between), words) && WantsValue(want)
    ensures Spelled(stack, want) == Under(stack) && (stack != [] ==> Awaits(Top(stack)))
  {
  }

  lemma BetweenSpells(stack: seq<Frame>, want: Want)
    ensures Spelling(Parsing(stack, want, Between)) == Spelled(stack, want)
  {
  }

  lemma FrameOpened(stack: seq<Frame>, want: Want, frame: Frame, next: Want, words: Words)
    requires Sound(Parsing(stack, want, Between), words) && WantsValue(want)
    requires (frame == InObject([], None) && next.NameOrClose?) || (frame == InList([]) && next.ValueOrClose?)
    ensures Sound(Parsing(stack + [frame], next, Between), words)
    ensures Spelled(stack + [frame], next) == Spelled(stack, want) + Here(frame, next)
  {
    ValueUnder(stack, want, words);
    PushedSound(stack, frame, words);
    PushedSpells(stack, frame, next);
  }

  lemma EmptyHere(frame: Frame, next: Want)
    requires (frame == InObject([], None) && next.NameOrClose?) || (frame == InList([]) && next.ValueOrClose?)
    ensures Here(frame, next) == if frame.InList? then "[" else "{"
  {
  }

  lemma FrameBegins(s: State, c: char, words: Words)
    requires Sound(s, words) && s.Parsing? && s.lexing.Between? && (c == '{' || c == '[')
    ensures Reads(s, StepBetween(s, c), c, words)
  {
    if WantsValue(s.want) {
      var frame := if c == '{' then InObject([], None) else InList([]);
      var next := if c == '{' then NameOrClose else ValueOrClose;
      assert StepBetween(s, c) == Parsing(s.stack + [frame], next, Between);
      FrameOpened(s.stack, s.want, frame, next, words);
      EmptyHere(frame, next);
      BetweenSpells(s.stack, s.want);
      BetweenSpells(s.stack + [frame], next);
    } else {
      assert StepBetween(s, c).Failed?;
    }
  }

  lemma ObjectRenders(entries: seq<Entry>)
    ensures Render(Object(entries)) == "{" + Entries(entries) + "}"
  {
    EntriesRender(entries, |entries|);
    assert entries[..|entries|] == entries && RenderEntries(Object(entries), |entries|) == "";
    assert Entries(entries) + "" == Entries(entries);
    Assoc("{", Entries(entries), "}");
  }

  lemma {:induction false} EntriesRender(entries: seq<Entry>, n: nat)
    requires n <= |entries|
    ensures RenderEntries(Object(entries), 0) == Entries(entries[..n]) + RenderEntries(Object(entries), n)
    decreases n
  {
    if n > 0 {
      EntriesRender(entries, n - 1);
      var e := entries[n - 1];
      assert entries[..n][..n - 1] == entries[..n - 1];
      var comma, name, rest := Comma(n == 1), RenderName(e.name), RenderEntries(Object(entries), n);
      Assoc(name, Render(e.value), rest);
      Assoc(comma, name + Render(e.value), rest);
      Assoc(Entries(entries[..n - 1]), comma + (name + Render(e.value)), rest);
    } else {
      assert "" + RenderEntries(Object(entries), 0) == RenderEntries(Object(entries), 0);
    }
  }

  lemma ListRenders(items: seq<Value>)
    ensures Render(List(items)) == "[" + Items(items) + "]"
  {
    ItemsRender(items, |items|);
    assert items[..|items|] == items && RenderItems(List(items), |items|) == "";
    assert Items(items) + "" == Items(items);
    Assoc("[", Items(items), "]");
  }

  lemma {:induction false} ItemsRender(items: seq<Value>, n: nat)
    requires n <= |items|
    ensures RenderItems(List(items), 0) == Items(items[..n]) + RenderItems(List(items), n)
    decreases n
  {
    if n > 0 {
      ItemsRender(items, n - 1);
      assert items[..n][..n - 1] == items[..n - 1];
      var comma, rest := Comma(n == 1), RenderItems(List(items), n);
      Assoc(comma, Render(items[n - 1]), rest);
      Assoc(Items(items[..n - 1]), comma + Render(items[n - 1]), rest);
    } else {
      assert "" + RenderItems(List(items), 0) == RenderItems(List(items), 0);
    }
  }

  lemma ShutRenders(frame: Frame)
    ensures frame.InObject? ==> Shut(frame) + "}" == Render(Object(frame.entries))
    ensures frame.InList? ==> Shut(frame) + "]" == Render(List(frame.items))
  {
    match frame
    case InObject(entries, _) => ObjectRenders(entries);
    case InList(items) => ListRenders(items);
  }

  /** A frame with nothing in it is as good as one that may close. */
  lemma HereIsShut(frame: Frame, want: Want)
    requires Fits(frame, want) && (want.CommaOrClose? || want.NameOrClose? || want.ValueOrClose?)
    ensures Here(frame, want) == Shut(frame)
  {
    if !want.CommaOrClose? {
      assert Shut(frame) + "" == Shut(frame) && "" + "" == "";
    }
  }

  lemma ClosedSpells(stack: seq<Frame>, want: Want, value: Value, c: char, words: Words)
    requires stack != [] && Sound(Parsing(stack, want, Between), words)
    requires want.CommaOrClose? || want.NameOrClose? || want.ValueOrClose?
    requires Render(value) == Shut(Top(stack)) + [c] && WellFormed(value, words)
    ensures Sound(Give(Pop(stack), value), words)
    ensures Spelling(Give(Pop(stack), value)) == Spelled(stack, want) + [c]
  {
    PoppedSound(stack, words);
    HereIsShut(Top(stack), want);
    GiveSpells(Pop(stack), value, words);
    Assoc(Under(Pop(stack)), Shut(Top(stack)), [c]);
  }

  lemma FrameEnds(s: State, c: char, words: Words)
    requires Sound(s, words) && s.Parsing? && s.lexing.Between? && (c == '}' || c == ']')
    ensures Reads(s, Closed(s, c), c, words)
  {
    BetweenSpells(s.stack, s.want);
    if !Closed(s, c).Failed? {
      var top := Top(s.stack);
      var value := if top.InObject? then Object(top.entries) else List(top.items);
      PoppedSound(s.stack, words);
      ShutRenders(top);
      assert Closed(s, c) == Give(Pop(s.stack), value);
      ClosedSpells(s.stack, s.want, value, c, words);
    }
  }

  lemma ColonSpells(stack: seq<Frame>)
    requires stack != [] && Top(stack).InObject? && Top(stack).name.Some?
    ensures Spelled(stack, ValueNext) == Spelled(stack, ColonNext) + ":"
  {
    var top := Top(stack);
    var comma, quoted := Comma(top.entries == []), Quoted(top.name.value);
    Assoc(comma, quoted, ":");
    Assoc(Shut(top), comma + quoted, ":");
    Assoc(Under(Pop(stack)), Here(top, ColonNext), ":");
  }

  lemma CommaSpells(stack: seq<Frame>, next: Want)
    requires stack != [] && (next.NameNext? || next.ValueNext?) && Fits(Top(stack), CommaOrClose)
    ensures Spelled(stack, next) == Spelled(stack, CommaOrClose) + ","
  {
    var top := Top(stack);
    assert Open(top) == Shut(top) + "," by {
      assert "," + "" == ",";
    }
    Assoc(Under(Pop(stack)), Shut(top), ",");
  }

  lemma MovesOn(stack: seq<Frame>, want: Want, next: Want, c: char, words: Words)
    requires stack != [] && Sound(Parsing(stack, want, Between), words) && Fits(Top(stack), next)
    requires Spelled(stack, next) == Spelled(stack, want) + [c]
    ensures Reads(Parsing(stack, want, Between), Parsing(stack, next, Between), c, words)
  {
    BetweenSpells(stack, want);
    BetweenSpells(stack, next);
  }

  lemma ColonReads(s: State, words: Words)
    requires Sound(s, words) && s.Parsing? && s.lexing.Between?
    ensures Reads(s, StepBetween(s, ':'), ':', words)
  {
    if s.want.ColonNext? {
      assert StepBetween(s, ':') == Parsing(s.stack, ValueNext, Between);
      ColonSpells(s.stack);
      MovesOn(s.stack, s.want, ValueNext, ':', words);
    } else {
      assert StepBetween(s, ':').Failed?;
    }
  }

  lemma CommaReads(s: State, words: Words)
    requires Sound(s, words) && s.Parsing? && s.lexing.Between?
    ensures Reads(s, StepBetween(s, ','), ',', words)
  {
    if s.want.CommaOrClose? && s.stack != [] {
      var next := if Top(s.stack).InObject? then NameNext else ValueNext;
      assert StepBetween(s, ',') == Parsing(s.stack, next, Between);
      CommaSpells(s.stack, next);
      MovesOn(s.stack, s.want, next, ',', words);
    } else {
      assert StepBetween(s, ',').Failed?;
    }
  }

  /** White space between tokens is read and not spelled; every other character is. */
  ghost predicate Steps(s: State, s': State, c: char, skipped: bool, words: Words) {
    Sound(s', words) && (!s'.Failed? ==> Spelling(s') == if skipped then Spelling(s) else Spelling(s) + [c])
  }

  lemma BetweenReads(s: State, c: char, words: Words)
    requires Sound(s, words) && (s.Parsing? ==> s.lexing.Between?)
    ensures Steps(s, StepBetween(s, c), c, IsSpace(c), words)
  {
    if s.Parsing? && !IsSpace(c) {
      if c == '"' {
        StringBegins(s, words);
      } else if c == '{' || c == '[' {
        FrameBegins(s, c, words);
      } else if c == '}' || c == ']' {
        FrameEnds(s, c, words);
      } else if c == ':' {
        ColonReads(s, words);
      } else if c == ',' {
        CommaReads(s, words);
      } else {
        WordBegins(s, c, words);
      }
    }
  }

  // Strings and words.

  lemma BegunEnds(raw: string)
    requires Begun(raw, Plain)
    ensures BodyMode(raw, Plain)
  {
    assert raw + "" == raw;
  }

  lemma BegunGoesOn(raw: string, mode: Mode, c: char)
    requires Begun(raw, mode) && StepMode(mode, c).Some?
    ensures Begun(raw + [c], StepMode(mode, c).value)
  {
    forall rest: string
      ensures BodyMode(raw + [c] + rest, Plain) <==> BodyMode(rest, StepMode(mode, c).value)
    {
      Assoc(raw, [c], rest);
      assert ([c] + rest)[1..] == rest;
      assert BodyMode(raw + ([c] + rest), Plain) <==> BodyMode([c] + rest, mode);
    }
  }

  lemma NameIsRead(stack: seq<Frame>, want: Want, raw: string, words: Words)
    requires Sound(Parsing(stack, want, Between), words) && WantsName(want) && BodyMode(raw, Plain)
    ensures stack != [] && Top(stack).InObject? && Top(stack).name.None?
    ensures NameRead(stack, raw) == Parsing(Pop(stack) + [InObject(Top(stack).entries, Some(raw))], ColonNext, Between)
    ensures Sound(NameRead(stack, raw), words)
  {
    PoppedSound(stack, words);
    PushedSound(Pop(stack), InObject(Top(stack).entries, Some(raw)), words);
  }

  lemma NamedSpells(stack: seq<Frame>, want: Want, entries: seq<Entry>, raw: string)
    requires stack != [] && Top(stack) == InObject(entries, None) && WantsName(want)
    ensures Spelled(Pop(stack) + [InObject(entries, Some(raw))], ColonNext) == Spelled(stack, want) + Quoted(raw)
  {
    var comma, shut := Comma(entries == []), Shut(InObject(entries, None));
    PushedSpells(Pop(stack), InObject(entries, Some(raw)), ColonNext);
    assert comma + "" == comma;
    Assoc(shut, comma, Quoted(raw));
    Assoc(Under(Pop(stack)), shut + comma, Quoted(raw));
  }

  lemma NameSpells(stack: seq<Frame>, want: Want, raw: string, words: Words)
    requires Sound(Parsing(stack, want, Between), words) && WantsName(want) && BodyMode(raw, Plain)
    ensures Sound(NameRead(stack, raw), words) && !NameRead(stack, raw).Failed?
    ensures Spelling(NameRead(stack, raw)) == Spelled(stack, want) + Quoted(raw)
  {
    NameIsRead(stack, want, raw, words);
    NamedSpells(stack, want, Top(stack).entries, raw);
    BetweenSpells(Pop(stack) + [InObject(Top(stack).entries, Some(raw))], ColonNext);
  }

  lemma TextRenders(raw: string)
    ensures Render(Text(raw)) == Quoted(raw) && "\"" + raw + "\"" == Quoted(raw)
  {
    Assoc("\"", raw, "\"");
  }

  lemma StringEnds(s: State, words: Words)
    requires Sound(s, words) && s.Parsing? && s.lexing.InString? && s.lexing.mode.Plain?
    ensures Reads(s, StringRead(s, s.lexing.raw), '"', words)
  {
    var raw := s.lexing.raw;
    BegunEnds(raw);
    TextRenders(raw);
    Assoc(Spelled(s.stack, s.want), "\"" + raw, "\"");
    if WantsName(s.want) {
      NameSpells(s.stack, s.want, raw, words);
    } else {
      ValueUnder(s.stack, s.want, words);
      GiveSpells(s.stack, Text(raw), words);
    }
  }

  lemma StringGoesOn(s: State, c: char, words: Words)
    requires Sound(s, words) && s.Parsing? && s.lexing.InString? && StepMode(s.lexing.mode, c).Some?
    ensures Reads(s, s.(lexing := InString(s.lexing.raw + [c], StepMode(s.lexing.mode, c).value)), c, words)
  {
    BegunGoesOn(s.lexing.raw, s.lexing.mode, c);
    Assoc("\"", s.lexing.raw, [c]);
    Assoc(Spelled(s.stack, s.want), "\"" + s.lexing.raw, [c]);
  }

  lemma WordGoesOn(s: State, c: char, words: Words)
    requires Sound(s, words) && s.Parsing? && s.lexing.InWord? && !IsDelimiter(c)
    ensures Reads(s, s.(lexing := InWord(s.lexing.word + [c])), c, words)
  {
    Assoc(Spelled(s.stack, s.want), s.lexing.word, [c]);
  }

  lemma WordEnds(s: State, words: Words)
    requires Sound(s, words) && s.Parsing? && s.lexing.InWord?
    ensures Sound(WordRead(s, words), words)
    ensures !WordRead(s, words).Failed? ==> Spelling(WordRead(s, words)) == Spelling(s)
    ensures WordRead(s, words).Parsing? ==> WordRead(s, words).lexing.Between?
  {
    if !WordRead(s, words).Failed? {
      ValueUnder(s.stack, s.want, words);
      GiveSpells(s.stack, Bare(s.lexing.word), words);
    }
  }

  predicate Quotes(s: State) {
    s.Parsing? && s.lexing.InString?
  }

  lemma StepReads(s: State, c: char, words: Words)
    requires Sound(s, words)
    ensures Steps(s, Step(s, c, words), c, IsSpace(c) && !Quotes(s), words)
  {
    if Quotes(s) {
      if s.lexing.mode.Plain? && c == '"' {
        StringEnds(s, words);
      } else if StepMode(s.lexing.mode, c).Some? {
        StringGoesOn(s, c, words);
      }
    } else if s.Parsing? && s.lexing.InWord? {
      if IsDelimiter(c) {
        WordEnds(s, words);
        BetweenReads(WordRead(s, words), c, words);
      } else {
        WordGoesOn(s, c, words);
      }
    } else {
      BetweenReads(s, c, words);
    }
  }

  // A whole text.

  /** In a string behind the character, and behind a backslash in one. */
  predicate QuotedNext(c: char, quoted: bool, escaped: bool) {
    if quoted then c != '"' || escaped else c == '"'
  }

  predicate EscapedNext(c: char, quoted: bool, escaped: bool) {
    quoted && c == '\\' && !escaped
  }

  function Seen(c: char, quoted: bool): string {
    if IsSpace(c) && !quoted then "" else [c]
  }

  /** The text without the white space outside its strings. */
  function Squeezed(text: string, quoted: bool, escaped: bool): string
    decreases |text|
  {
    if text == "" then ""
    else
      Seen(text[0], quoted) +
      Squeezed(text[1..], QuotedNext(text[0], quoted, escaped), EscapedNext(text[0], quoted, escaped))
  }

  /** The machine is in a string, behind a backslash there, exactly when the text is. */
  ghost predicate Tracks(s: State, quoted: bool, escaped: bool) {
    s.Failed? || ((quoted <==> Quotes(s)) && (quoted ==> (escaped <==> s.lexing.mode.Escaped?)))
  }

  lemma StepTracks(s: State, c: char, words: Words, quoted: bool, escaped: bool)
    requires Tracks(s, quoted, escaped)
    ensures Tracks(Step(s, c, words), QuotedNext(c, quoted, escaped), EscapedNext(c, quoted, escaped))
  {
  }

  /** From a state that is sound, the rest of the text is read up to `s'`, which spells it too. */
  ghost predicate Spells(s: State, s': State, text: string, words: Words) {
    Sound(s', words) && (!s'.Failed? ==> !s.Failed? && Spelling(s') == Spelling(s) + text)
  }

  lemma StepSpells(s: State, c: char, words: Words, quoted: bool, escaped: bool)
    requires Sound(s, words) && Tracks(s, quoted, escaped)
    ensures Spells(s, Step(s, c, words), Seen(c, quoted), words)
  {
    StepReads(s, c, words);
    if IsSpace(c) && !quoted {
      assert Spelling(s) + "" == Spelling(s);
    }
  }

  lemma SpellsJoin(s: State, s1: State, s2: State, a: string, b: string, words: Words)
    requires Spells(s, s1, a, words) && Spells(s1, s2, b, words)
    ensures Spells(s, s2, a + b, words)
  {
    Assoc(Spelling(s), a, b);
  }

  lemma {:induction false} RunSpells(s: State, text: string, words: Words, quoted: bool, escaped: bool)
    requires Sound(s, words) && Tracks(s, quoted, escaped)
    ensures Spells(s, Run(s, text, words), Squeezed(text, quoted, escaped), words)
    decreases |text|
  {
    if text == "" {
      assert Spelling(s) + "" == Spelling(s);
    } else {
      var c, rest := text[0], text[1..];
      var s' := Step(s, c, words);
      var quoted', escaped' := QuotedNext(c, quoted, escaped), EscapedNext(c, quoted, escaped);
      StepSpells(s, c, words, quoted, escaped);
      StepTracks(s, c, words, quoted, escaped);
      RunSpells(s', rest, words, quoted', escaped');
      SpellsJoin(s, s', Run(s', rest, words), Seen(c, quoted), Squeezed(rest, quoted', escaped'), words);
    }
  }

  lemma FinishSpells(s: State, words: Words, text: string)
    requires Sound(s, words) && Spelling(s) == text && Finish(s, words).Some?
    ensures WellFormed(Finish(s, words).value, words) && text == Render(Finish(s, words).value)
  {
    if s.Parsing? && s.lexing.InWord? {
      WordEnds(s, words);
    }
  }

  lemma StartSpells(s: State, text: string, words: Words)
    requires Spells(START, s, text, words) && !s.Failed?
    ensures Spelling(s) == text
  {
    assert Spelling(START) == "" && "" + text == text;
  }

  /**
   What the machine accepts is JSON: without the white space outside its strings, the text is the written form of the
   value it is read as, and that is well formed.
   */
  lemma AcceptsOnlyJson(text: string, words: Words)
    requires Parse(text, words).Some?
    ensures var value := Parse(text, words).value;
      WellFormed(value, words) && Squeezed(text, false, false) == Render(value)
  {
    var s, squeezed := Run(START, text, words), Squeezed(text, false, false);
    RunSpells(START, text, words, false, false);
    StartSpells(s, squeezed, words);
    FinishSpells(s, words, squeezed);
  }

  /** So a value that is written out reads as itself exactly when it is well formed. */
  lemma ReadsBackExactly(value: Value, words: Words)
    ensures Parse(Render(value), words) == Some(value) <==> WellFormed(value, words)
  {
    if WellFormed(value, words) {
      ParsesBack(value, words);
    }
    if Parse(Render(value), words) == Some(value) {
      AcceptsOnlyJson(Render(value), words);
    }
  }
}
