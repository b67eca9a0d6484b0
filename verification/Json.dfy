/**
 JSON texts read left to right (RFC 8259), as a stack machine over characters.

 Strings and names are kept as written between their quotes; `words` are the numbers and literals. A failed
 text stays failed.
 */
module Json {
  import opened Options

  datatype Value =
    | Text(raw: string)
    | Bare(word: string)
    | Object(entries: seq<Entry>)
    | List(items: seq<Value>)

  datatype Entry = Entry(name: string, value: Value)

  datatype Frame = InObject(entries: seq<Entry>, name: Option<string>) | InList(items: seq<Value>)

  datatype Want = ValueNext | ValueOrClose | NameNext | NameOrClose | ColonNext | CommaOrClose

  /** Inside a string: plainly, after a backslash, or with so many hex digits still to come. */
  datatype Mode = Plain | Escaped | Hex(left: nat)

  datatype Lexing = Between | InString(raw: string, mode: Mode) | InWord(word: string)

  datatype State =
    | Failed
    | Done(value: Value)
    | Parsing(stack: seq<Frame>, want: Want, lexing: Lexing)

  const START := Parsing([], ValueNext, Between)

  type Words = iset<string>

  predicate IsSpace(c: char) {
    c == ' ' || c == '\t' || c == '\n' || c == '\r'
  }

  predicate IsDelimiter(c: char) {
    IsSpace(c) || c == '{' || c == '}' || c == '[' || c == ']' || c == ':' || c == ',' || c == '"'
  }

  predicate IsHex(c: char) {
    '0' <= c <= '9' || 'a' <= c <= 'f' || 'A' <= c <= 'F'
  }

  predicate IsEscape(c: char) {
    c == '"' || c == '\\' || c == '/' || c == 'b' || c == 'f' || c == 'n' || c == 'r' || c == 't'
  }

  predicate WantsValue(want: Want) {
    want.ValueNext? || want.ValueOrClose?
  }

  predicate WantsName(want: Want) {
    want.NameNext? || want.NameOrClose?
  }

  function Top(stack: seq<Frame>): Frame
    requires stack != []
  {
    stack[|stack| - 1]
  }

  function Pop(stack: seq<Frame>): seq<Frame>
    requires stack != []
  {
    stack[..|stack| - 1]
  }

  /** A finished value goes to the enclosing object or list, or is the document. */
  function Give(stack: seq<Frame>, value: Value): State {
    if stack == [] then Done(value)
    else
      match Top(stack)
      case InList(items) => Parsing(Pop(stack) + [InList(items + [value])], CommaOrClose, Between)
      case InObject(entries, name) =>
        if name.None? then Failed
        else
          Parsing(Pop(stack) + [InObject(entries + [Entry(name.value, value)], None)], CommaOrClose, Between)
  }

  function NameRead(stack: seq<Frame>, raw: string): State {
    if stack == [] || Top(stack).InList? then Failed
    else Parsing(Pop(stack) + [InObject(Top(stack).entries, Some(raw))], ColonNext, Between)
  }

  function StringRead(s: State, raw: string): State
    requires s.Parsing?
  {
    if WantsName(s.want) then NameRead(s.stack, raw)
    else if WantsValue(s.want) then Give(s.stack, Text(raw))
    else Failed
  }

  function Closed(s: State, c: char): State
    requires s.Parsing?
  {
    if s.stack == [] then Failed
    else
      match Top(s.stack)
      case InObject(entries, _) =>
        if c == '}' && (s.want.NameOrClose? || s.want.CommaOrClose?) then Give(Pop(s.stack), Object(entries))
        else Failed
      case InList(items) =>
        if c == ']' && (s.want.ValueOrClose? || s.want.CommaOrClose?) then Give(Pop(s.stack), List(items))
        else Failed
  }

  function StepBetween(s: State, c: char): State {
    if s.Failed? || IsSpace(c) then s
    else if s.Done? then Failed
    else if c == '"' then
      if WantsName(s.want) || WantsValue(s.want) then s.(lexing := InString("", Plain)) else Failed
    else if c == '{' then
      if WantsValue(s.want) then s.(stack := s.stack + [InObject([], None)], want := NameOrClose) else Failed
    else if c == '[' then
      if WantsValue(s.want) then s.(stack := s.stack + [InList([])], want := ValueOrClose) else Failed
    else if c == '}' || c == ']' then Closed(s, c)
    else if c == ':' then
      if s.want.ColonNext? then s.(want := ValueNext) else Failed
    else if c == ',' then
      if s.want.CommaOrClose? && s.stack != [] then
        s.(want := if Top(s.stack).InObject? then NameNext else ValueNext)
      else Failed
    else if WantsValue(s.want) then s.(lexing := InWord([c]))
    else Failed
  }

  /** One character of a string that does not end it, or `None` where it may not stand. */
  function StepMode(mode: Mode, c: char): Option<Mode> {
    match mode
    case Plain => if c < ' ' || c == '"' then None else if c == '\\' then Some(Escaped) else Some(Plain)
    case Escaped => if c == 'u' then Some(Hex(4)) else if IsEscape(c) then Some(Plain) else None
    case Hex(left) => if IsHex(c) then Some(if left <= 1 then Plain else Hex(left - 1)) else None
  }

  function WordRead(s: State, words: Words): State
    requires s.Parsing? && s.lexing.InWord?
  {
    if s.lexing.word in words && WantsValue(s.want) then Give(s.stack, Bare(s.lexing.word)) else Failed
  }

  function Step(s: State, c: char, words: Words): State {
    if !s.Parsing? then StepBetween(s, c)
    else
      match s.lexing
      case Between => StepBetween(s, c)
      case InString(raw, mode) =>
        if mode.Plain? && c == '"' then StringRead(s, raw)
        else if StepMode(mode, c).Some? then s.(lexing := InString(raw + [c], StepMode(mode, c).value))
        else Failed
      case InWord(word) =>
        if !IsDelimiter(c) then s.(lexing := InWord(word + [c]))
        else StepBetween(WordRead(s, words), c)
  }

  function Run(s: State, text: string, words: Words): State
    decreases |text|
  {
    if text == "" then s else Run(Step(s, text[0], words), text[1..], words)
  }

  /** A text may end on a word, which is the whole document then. */
  function Finish(s: State, words: Words): Option<Value> {
    var end := if s.Parsing? && s.lexing.InWord? then WordRead(s, words) else s;
    if end.Done? then Some(end.value) else None
  }

  function Parse(text: string, words: Words): Option<Value> {
    Finish(Run(START, text, words), words)
  }

  lemma {:induction false} RunJoin(s: State, a: string, b: string, words: Words)
    ensures Run(s, a + b, words) == Run(Run(s, a, words), b, words)
    decreases |a|
  {
    if a == "" {
      assert a + b == b;
    } else {
      assert (a + b)[0] == a[0] && (a + b)[1..] == a[1..] + b;
      RunJoin(Step(s, a[0], words), a[1..], b, words);
    }
  }

  lemma {:induction false} FailedStays(text: string, words: Words)
    ensures Run(Failed, text, words) == Failed
    decreases |text|
  {
    if text != "" {
      FailedStays(text[1..], words);
    }
  }

  // What a whole run keeps of the document it is in.

  /** The outermost object, once open, only gains entries, and is the document in the end. */
  ghost predicate Within(s: State, entries: seq<Entry>) {
    match s
    case Failed => true
    case Done(value) => value.Object? && entries <= value.entries
    case Parsing(stack, _, _) => stack != [] && stack[0].InObject? && entries <= stack[0].entries
  }

  lemma BetweenWithin(s: State, c: char, entries: seq<Entry>)
    requires Within(s, entries)
    ensures Within(StepBetween(s, c), entries)
  {
    if s.Parsing? && Closed(s, c).Parsing? {
      assert Pop(s.stack) != [] ==> Pop(s.stack)[0] == s.stack[0];
    }
  }

  lemma StepWithin(s: State, c: char, words: Words, entries: seq<Entry>)
    requires Within(s, entries)
    ensures Within(Step(s, c, words), entries)
  {
    if !s.Parsing? || s.lexing.Between? {
      BetweenWithin(s, c, entries);
    } else if s.lexing.InWord? && IsDelimiter(c) {
      BetweenWithin(WordRead(s, words), c, entries);
    }
  }

  lemma {:induction false} RunWithin(s: State, text: string, words: Words, entries: seq<Entry>)
    requires Within(s, entries)
    ensures Within(Run(s, text, words), entries)
    decreases |text|
  {
    if text != "" {
      StepWithin(s, text[0], words, entries);
      RunWithin(Step(s, text[0], words), text[1..], words, entries);
    }
  }

  // Every JSON value reads back.

  predicate BodyMode(body: string, mode: Mode)
    decreases |body|
  {
    if body == "" then mode.Plain?
    else StepMode(mode, body[0]).Some? && BodyMode(body[1..], StepMode(mode, body[0]).value)
  }

  predicate IsWord(word: string, words: Words) {
    word in words && word != "" && forall i | 0 <= i < |word| :: !IsDelimiter(word[i])
  }

  /** Strings hold only what a JSON string may, and words are numbers or literals. */
  ghost predicate WellFormed(value: Value, words: Words) {
    match value
    case Text(raw) => BodyMode(raw, Plain)
    case Bare(word) => IsWord(word, words)
    case Object(entries) =>
      forall i | 0 <= i < |entries| :: BodyMode(entries[i].name, Plain) && WellFormed(entries[i].value, words)
    case List(items) => forall i | 0 <= i < |items| :: WellFormed(items[i], words)
  }

  function Width(value: Value): nat {
    match value
    case Object(entries) => |entries|
    case List(items) => |items|
    case Text(_) => 0
    case Bare(_) => 0
  }

  function Render(value: Value): string
    decreases value, Width(value) + 1
  {
    match value
    case Text(raw) => ['"'] + (raw + ['"'])
    case Bare(word) => word
    case Object(entries) => ['{'] + (RenderEntries(value, 0) + ['}'])
    case List(items) => ['['] + (RenderItems(value, 0) + [']'])
  }

  function RenderItems(list: Value, from: nat): string
    requires list.List? && from <= |list.items|
    decreases list, |list.items| - from
  {
    if from == |list.items| then ""
    else (if from == 0 then "" else ",") + (Render(list.items[from]) + RenderItems(list, from + 1))
  }

  function RenderEntries(obj: Value, from: nat): string
    requires obj.Object? && from <= |obj.entries|
    decreases obj, |obj.entries| - from
  {
    if from == |obj.entries| then ""
    else
      (if from == 0 then "" else ",") +
      (RenderName(obj.entries[from].name) + (Render(obj.entries[from].value) + RenderEntries(obj, from + 1)))
  }

  function RenderName(name: string): string {
    ['"'] + (name + ['"', ':'])
  }

  /** A word ends with the text or at the next delimiter. */
  function Settled(s: State, words: Words): State {
    if s.Parsing? && s.lexing.InWord? then WordRead(s, words) else s
  }

  lemma SettledStep(s: State, c: char, words: Words)
    requires IsDelimiter(c) && !(s.Parsing? && s.lexing.InString?)
    ensures Step(s, c, words) == StepBetween(Settled(s, words), c)
  {
  }

  lemma RunOne(s: State, c: char, text: string, words: Words)
    ensures Run(s, [c] + text, words) == Run(Step(s, c, words), text, words)
  {
    assert ([c] + text)[1..] == text;
  }

  lemma {:induction false} BodyReads(s: State, body: string, text: string, words: Words)
    requires s.Parsing? && s.lexing.InString? && BodyMode(body, s.lexing.mode)
    ensures Run(s, body + text, words) == Run(s.(lexing := InString(s.lexing.raw + body, Plain)), text, words)
    decreases |body|
  {
    if body == "" {
      assert body + text == text && s.lexing.raw + body == s.lexing.raw;
    } else {
      var next := Step(s, body[0], words);
      assert body + text == [body[0]] + (body[1..] + text);
      RunOne(s, body[0], body[1..] + text, words);
      BodyReads(next, body[1..], text, words);
      assert s.lexing.raw + [body[0]] + body[1..] == s.lexing.raw + body;
    }
  }

  lemma {:induction false} WordReads(s: State, word: string, words: Words)
    requires s.Parsing? && s.lexing.InWord? && forall i | 0 <= i < |word| :: !IsDelimiter(word[i])
    ensures Run(s, word, words) == s.(lexing := InWord(s.lexing.word + word))
    decreases |word|
  {
    if word == "" {
      assert s.lexing.word + word == s.lexing.word;
    } else {
      WordReads(Step(s, word[0], words), word[1..], words);
      assert s.lexing.word + [word[0]] + word[1..] == s.lexing.word + word;
    }
  }

  /** Where a value may stand, its rendering is read as that value. */
  lemma {:induction false} ValueReads(s: State, value: Value, words: Words)
    requires s.Parsing? && s.lexing.Between? && WantsValue(s.want) && WellFormed(value, words)
    ensures Settled(Run(s, Render(value), words), words) == Give(s.stack, value)
    decreases value, Width(value) + 1
  {
    match value
    case Text(raw) =>
      RunOne(s, '"', raw + ['"'], words);
      BodyReads(Step(s, '"', words), raw, ['"'], words);
      assert "" + raw == raw;
      OneStep(s.(lexing := InString(raw, Plain)), '"', words);
    case Bare(word) =>
      assert word == [word[0]] + word[1..];
      RunOne(s, word[0], word[1..], words);
      assert !IsDelimiter(word[0]);
      WordReads(Step(s, word[0], words), word[1..], words);
    case Object(_) =>
      var open := Step(s, '{', words);
      RunOne(s, '{', RenderEntries(value, 0) + ['}'], words);
      assert value.entries[..0] == [];
      EntriesRead(open, s.stack, value, 0, words);
    case List(_) =>
      var open := Step(s, '[', words);
      RunOne(s, '[', RenderItems(value, 0) + [']'], words);
      assert value.items[..0] == [];
      ItemsRead(open, s.stack, value, 0, words);
  }

  lemma OneStep(s: State, c: char, words: Words)
    ensures Run(s, [c], words) == Step(s, c, words)
  {
    assert [c] + "" == [c];
    RunOne(s, c, "", words);
  }

  /** After `from` items: a word may still be open behind the last of them. */
  ghost predicate AtItem(s: State, stack: seq<Frame>, list: Value, from: nat, words: Words)
    requires list.List? && from <= |list.items|
  {
    && !(s.Parsing? && s.lexing.InString?)
    && Settled(s, words) ==
         Parsing(stack + [InList(list.items[..from])], if from == 0 then ValueOrClose else CommaOrClose, Between)
    && (from == 0 ==> s == Settled(s, words))
  }

  /** The comma before the next item, up to where it stands. */
  lemma ItemAwaited(s: State, stack: seq<Frame>, list: Value, from: nat, text: string, words: Words)
    requires list.List? && from < |list.items| && AtItem(s, stack, list, from, words)
    ensures Run(s, (if from == 0 then "" else ",") + text, words) ==
      Run(Parsing(stack + [InList(list.items[..from])], if from == 0 then ValueOrClose else ValueNext, Between), text, words)
  {
    if from == 0 {
      assert "" + text == text;
    } else {
      SettledStep(s, ',', words);
      RunOne(s, ',', text, words);
    }
  }

  lemma ItemGiven(stack: seq<Frame>, list: Value, from: nat)
    requires list.List? && from < |list.items|
    ensures Give(stack + [InList(list.items[..from])], list.items[from]) ==
      Parsing(stack + [InList(list.items[..from + 1])], CommaOrClose, Between)
  {
    assert Pop(stack + [InList(list.items[..from])]) == stack;
    assert list.items[..from + 1] == list.items[..from] + [list.items[from]];
  }

  lemma RenderItemsStep(list: Value, from: nat)
    requires list.List? && from < |list.items|
    ensures RenderItems(list, from) + [']'] ==
      (if from == 0 then "" else ",") + (Render(list.items[from]) + (RenderItems(list, from + 1) + [']']))
  {
  }

  lemma ItemsEnd(s: State, stack: seq<Frame>, list: Value, words: Words)
    requires list.List? && AtItem(s, stack, list, |list.items|, words)
    ensures Run(s, [']'], words) == Give(stack, list)
  {
    assert Pop(stack + [InList(list.items)]) == stack && list.items[..|list.items|] == list.items;
    SettledStep(s, ']', words);
    OneStep(s, ']', words);
  }

  lemma {:induction false} ItemsRead(s: State, stack: seq<Frame>, list: Value, from: nat, words: Words)
    requires list.List? && from <= |list.items| && WellFormed(list, words) && AtItem(s, stack, list, from, words)
    ensures Settled(Run(s, RenderItems(list, from) + [']'], words), words) == Give(stack, list)
    decreases list, |list.items| - from
  {
    if from == |list.items| {
      assert RenderItems(list, from) + [']'] == [']'];
      ItemsEnd(s, stack, list, words);
    } else {
      var rest := RenderItems(list, from + 1) + [']'];
      var ready := Parsing(stack + [InList(list.items[..from])], if from == 0 then ValueOrClose else ValueNext, Between);
      RenderItemsStep(list, from);
      ItemAwaited(s, stack, list, from, Render(list.items[from]) + rest, words);
      ValueReads(ready, list.items[from], words);
      RunJoin(ready, Render(list.items[from]), rest, words);
      ItemGiven(stack, list, from);
      ItemsRead(Run(ready, Render(list.items[from]), words), stack, list, from + 1, words);
    }
  }

  ghost predicate AtEntry(s: State, stack: seq<Frame>, obj: Value, from: nat, words: Words)
    requires obj.Object? && from <= |obj.entries|
  {
    && !(s.Parsing? && s.lexing.InString?)
    && Settled(s, words) ==
         Parsing(stack + [InObject(obj.entries[..from], None)], if from == 0 then NameOrClose else CommaOrClose, Between)
    && (from == 0 ==> s == Settled(s, words))
  }

  lemma NameReads(s: State, name: string, text: string, words: Words)
    requires s.Parsing? && s.lexing.Between? && WantsName(s.want) && BodyMode(name, Plain)
    requires s.stack != [] && Top(s.stack).InObject?
    ensures Run(s, RenderName(name) + text, words) ==
      Run(Parsing(Pop(s.stack) + [InObject(Top(s.stack).entries, Some(name))], ValueNext, Between), text, words)
  {
    var inside := Step(s, '"', words);
    assert RenderName(name) + text == ['"'] + (name + (['"'] + ([':'] + text)));
    RunOne(s, '"', name + (['"'] + ([':'] + text)), words);
    BodyReads(inside, name, ['"'] + ([':'] + text), words);
    assert "" + name == name;
    var closing := s.(lexing := InString(name, Plain));
    RunOne(closing, '"', [':'] + text, words);
    RunOne(Step(closing, '"', words), ':', text, words);
  }

  /** The comma and the name of the next entry, up to where its value stands. */
  lemma EntryNamed(s: State, stack: seq<Frame>, obj: Value, from: nat, text: string, words: Words)
    requires obj.Object? && from < |obj.entries| && AtEntry(s, stack, obj, from, words)
    requires BodyMode(obj.entries[from].name, Plain)
    ensures Run(s, (if from == 0 then "" else ",") + (RenderName(obj.entries[from].name) + text), words) ==
      Run(Parsing(stack + [InObject(obj.entries[..from], Some(obj.entries[from].name))], ValueNext, Between), text, words)
  {
    var name := obj.entries[from].name;
    var frame := stack + [InObject(obj.entries[..from], None)];
    assert Pop(frame) == stack && Top(frame) == InObject(obj.entries[..from], None);
    if from == 0 {
      assert "" + (RenderName(name) + text) == RenderName(name) + text;
      NameReads(s, name, text, words);
    } else {
      SettledStep(s, ',', words);
      RunOne(s, ',', RenderName(name) + text, words);
      NameReads(Step(s, ',', words), name, text, words);
    }
  }

  lemma EntryGiven(stack: seq<Frame>, obj: Value, from: nat)
    requires obj.Object? && from < |obj.entries|
    ensures Give(stack + [InObject(obj.entries[..from], Some(obj.entries[from].name))], obj.entries[from].value) ==
      Parsing(stack + [InObject(obj.entries[..from + 1], None)], CommaOrClose, Between)
  {
    var named := stack + [InObject(obj.entries[..from], Some(obj.entries[from].name))];
    assert Pop(named) == stack;
    assert obj.entries[..from + 1] == obj.entries[..from] + [Entry(obj.entries[from].name, obj.entries[from].value)];
  }

  lemma RenderEntriesStep(obj: Value, from: nat)
    requires obj.Object? && from < |obj.entries|
    ensures RenderEntries(obj, from) + ['}'] ==
      (if from == 0 then "" else ",") +
      (RenderName(obj.entries[from].name) + (Render(obj.entries[from].value) + (RenderEntries(obj, from + 1) + ['}'])))
  {
  }

  lemma EntriesEnd(s: State, stack: seq<Frame>, obj: Value, words: Words)
    requires obj.Object? && AtEntry(s, stack, obj, |obj.entries|, words)
    ensures Run(s, ['}'], words) == Give(stack, obj)
  {
    var frame := stack + [InObject(obj.entries, None)];
    assert Pop(frame) == stack && obj.entries[..|obj.entries|] == obj.entries;
    SettledStep(s, '}', words);
    OneStep(s, '}', words);
  }

  lemma {:induction false} EntriesRead(s: State, stack: seq<Frame>, obj: Value, from: nat, words: Words)
    requires obj.Object? && from <= |obj.entries| && WellFormed(obj, words) && AtEntry(s, stack, obj, from, words)
    ensures Settled(Run(s, RenderEntries(obj, from) + ['}'], words), words) == Give(stack, obj)
    decreases obj, |obj.entries| - from
  {
    if from == |obj.entries| {
      assert RenderEntries(obj, from) + ['}'] == ['}'];
      EntriesEnd(s, stack, obj, words);
    } else {
      var value := obj.entries[from].value;
      var rest := RenderEntries(obj, from + 1) + ['}'];
      var named := Parsing(stack + [InObject(obj.entries[..from], Some(obj.entries[from].name))], ValueNext, Between);
      RenderEntriesStep(obj, from);
      EntryNamed(s, stack, obj, from, Render(value) + rest, words);
      ValueReads(named, value, words);
      RunJoin(named, Render(value), rest, words);
      EntryGiven(stack, obj, from);
      EntriesRead(Run(named, Render(value), words), stack, obj, from + 1, words);
    }
  }

  /** Round trip: every well-formed value, written out, is parsed as itself. */
  lemma ParsesBack(value: Value, words: Words)
    requires WellFormed(value, words)
    ensures Parse(Render(value), words) == Some(value)
  {
    ValueReads(START, value, words);
  }
}
