/** The section budgeter of a chat prompt (src/chat/prompt-budgeter.ts). */
module PromptBudget {
  import opened FrameSafeCut

  const TOKEN_BUDGET: int := 60_000
  const TARGET_TOKENS: int := 56_000
  const CHARS_PER_TOKEN: int := 4

  const SEPARATOR := "\n\n---\n\n"
  const ELLIPSIS := "..."

  datatype Key = Standing | Request | Peers | Transcript | OlderContext | ProjectState | Memory | Instructions

  datatype Section = Section(key: Key, content: string)

  const TRIM_ORDER := [OlderContext, Memory, Transcript]

  predicate IsTrimmable(key: Key) {
    key.OlderContext? || key.Memory? || key.Transcript?
  }

  /** Four characters to a token, a started one counted whole. */
  function Tokens(chars: nat): (tokens: nat)
    ensures chars <= tokens * 4 < chars + 4
  {
    (chars + 3) / 4
  }

  function Join(sections: seq<Section>): string {
    if sections == [] then ""
    else if |sections| == 1 then sections[0].content
    else sections[0].content + SEPARATOR + Join(sections[1..])
  }

  function JoinedChars(sections: seq<Section>): nat {
    if sections == [] then 0
    else if |sections| == 1 then |sections[0].content|
    else |sections[0].content| + |SEPARATOR| + JoinedChars(sections[1..])
  }

  lemma {:induction false} JoinHasChars(sections: seq<Section>)
    ensures |Join(sections)| == JoinedChars(sections)
  {
    if |sections| > 1 {
      JoinHasChars(sections[1..]);
    }
  }

  function JoinedTokens(sections: seq<Section>): nat {
    Tokens(JoinedChars(sections))
  }

  function FindKey(sections: seq<Section>, key: Key, from: nat): nat
    requires from <= |sections|
    ensures from <= FindKey(sections, key, from) <= |sections|
    decreases |sections| - from
  {
    if from == |sections| || sections[from].key == key then from else FindKey(sections, key, from + 1)
  }

  function RemoveAt(sections: seq<Section>, i: nat): seq<Section>
    requires i < |sections|
  {
    sections[..i] + sections[i + 1..]
  }

  /** How much of a section is kept; 0 drops it. Three characters are left for the ellipsis. */
  function KeptChars(content: string, excessChars: nat): nat
    ensures KeptChars(content, excessChars) <= |content|
    ensures KeptChars(content, excessChars) > 0 ==>
      KeptChars(content, excessChars) + |ELLIPSIS| + excessChars <= |content|
  {
    if |content| <= excessChars + 3 then 0 else SafeCut(content, |content| - excessChars - 3, 0)
  }

  function TrimSection(sections: seq<Section>, key: Key, excessChars: nat): seq<Section> {
    var index := FindKey(sections, key, 0);
    if index == |sections| then sections
    else
      var section := sections[index];
      var kept := KeptChars(section.content, excessChars);
      if kept == 0 then RemoveAt(sections, index)
      else sections[index := section.(content := section.content[..kept] + ELLIPSIS)]
  }

  function ExcessTokens(sections: seq<Section>): int {
    JoinedTokens(sections) - TARGET_TOKENS
  }

  /** The sections after the first `n` keys of the trim order were tried; no more once the target is met. */
  function Budgeted(sections: seq<Section>, n: nat): seq<Section>
    requires n <= 3
  {
    if n == 0 then sections
    else
      var before := Budgeted(sections, n - 1);
      if ExcessTokens(before) <= 0 then before
      else TrimSection(before, TRIM_ORDER[n - 1], ExcessTokens(before) * CHARS_PER_TOKEN)
  }

  function MustKeep(sections: seq<Section>): seq<Section> {
    if sections == [] then []
    else if sections[0].key.Request? || sections[0].key.Peers? then [sections[0]] + MustKeep(sections[1..])
    else MustKeep(sections[1..])
  }

  function Untrimmable(sections: seq<Section>): seq<Section> {
    if sections == [] then []
    else if IsTrimmable(sections[0].key) then Untrimmable(sections[1..])
    else [sections[0]] + Untrimmable(sections[1..])
  }

  lemma {:induction false} MustKeepHas(sections: seq<Section>, section: Section)
    ensures section in MustKeep(sections) <==> section in sections && (section.key == Request || section.key == Peers)
    ensures section in Untrimmable(sections) <==>
      section in sections && section.key != OlderContext && section.key != Memory && section.key != Transcript
  {
    if sections != [] {
      MustKeepHas(sections[1..], section);
      assert section in sections <==> section == sections[0] || section in sections[1..];
    }
  }

  datatype Result = Prompt(text: string) | OverBudget(tokens: nat)

  function BudgetResult(sections: seq<Section>): Result {
    if JoinedTokens(MustKeep(sections)) > TOKEN_BUDGET then OverBudget(JoinedTokens(MustKeep(sections)))
    else if JoinedTokens(Budgeted(sections, 3)) > TOKEN_BUDGET then OverBudget(JoinedTokens(Budgeted(sections, 3)))
    else Prompt(Join(Budgeted(sections, 3)))
  }

  method FindSection(sections: seq<Section>, key: Key) returns (index: nat)
    ensures index == FindKey(sections, key, 0)
  {
    index := 0;
    while index < |sections| && sections[index].key != key
      invariant index <= |sections| && FindKey(sections, key, 0) == FindKey(sections, key, index)
    {
      index := index + 1;
    }
  }

  /** `trimSection`: the naive cut first, then the frame-safe one behind the room for the ellipsis. */
  method Trim(sections: seq<Section>, key: Key, excessChars: nat) returns (trimmed: seq<Section>)
    ensures trimmed == TrimSection(sections, key, excessChars)
  {
    var index := FindSection(sections, key);
    if index == |sections| {
      return sections;
    }
    var section := sections[index];
    var naiveKeep := |section.content| - excessChars;
    if naiveKeep <= 0 {
      return RemoveAt(sections, index);
    }
    var sliceEnd := FrameSafeKeepFromStart(section.content, naiveKeep - 3);
    if sliceEnd == 0 {
      return RemoveAt(sections, index);
    }
    trimmed := sections[index := section.(content := section.content[..sliceEnd] + ELLIPSIS)];
  }

  method BudgetPromptSections(sections: seq<Section>) returns (result: Result)
    ensures result == BudgetResult(sections)
  {
    var mustKeep := MustKeep(sections);
    JoinHasChars(mustKeep);
    if Tokens(|Join(mustKeep)|) > TOKEN_BUDGET {
      return OverBudget(Tokens(|Join(mustKeep)|));
    }
    var budgeted := sections;
    for i := 0 to 3
      invariant budgeted == Budgeted(sections, i)
    {
      var assembled := Join(budgeted);
      JoinHasChars(budgeted);
      var excessTokens := Tokens(|assembled|) - TARGET_TOKENS;
      if excessTokens <= 0 {
        SettledStays(sections, i);
        return Prompt(assembled);
      }
      budgeted := Trim(budgeted, TRIM_ORDER[i], excessTokens * CHARS_PER_TOKEN);
    }
    JoinHasChars(budgeted);
    var assembled := Join(budgeted);
    if Tokens(|assembled|) > TOKEN_BUDGET {
      return OverBudget(Tokens(|assembled|));
    }
    result := Prompt(assembled);
  }

  /** Once the target is met nothing more is trimmed. */
  lemma {:induction false} SettledStays(sections: seq<Section>, i: nat)
    requires i <= 3 && ExcessTokens(Budgeted(sections, i)) <= 0
    ensures Budgeted(sections, 3) == Budgeted(sections, i)
    decreases 3 - i
  {
    if i < 3 {
      SettledStays(sections, i + 1);
    }
  }

  // What trimming one section does.

  lemma FindKeyFinds(sections: seq<Section>, key: Key, from: nat)
    requires from <= |sections|
    ensures var i := FindKey(sections, key, from);
      (i < |sections| ==> sections[i].key == key) && (forall k | from <= k < i :: sections[k].key != key)
    decreases |sections| - from
  {
    if from < |sections| && sections[from].key != key {
      FindKeyFinds(sections, key, from + 1);
    }
  }

  lemma {:induction false} ReplacedChars(sections: seq<Section>, i: nat, section: Section)
    requires i < |sections|
    ensures JoinedChars(sections[i := section]) == JoinedChars(sections) - |sections[i].content| + |section.content|
  {
    if i > 0 {
      assert sections[i := section][1..] == sections[1..][i - 1 := section];
      ReplacedChars(sections[1..], i - 1, section);
    } else if |sections| > 1 {
      assert sections[i := section][1..] == sections[1..];
    }
  }

  lemma {:induction false} RemovedChars(sections: seq<Section>, i: nat)
    requires i < |sections|
    ensures JoinedChars(RemoveAt(sections, i)) + |sections[i].content| <= JoinedChars(sections)
  {
    if i > 0 {
      assert RemoveAt(sections, i)[1..] == RemoveAt(sections[1..], i - 1);
      RemovedChars(sections[1..], i - 1);
    } else {
      assert RemoveAt(sections, i) == sections[1..];
    }
  }

  lemma {:induction false} ReplacedUntrimmable(sections: seq<Section>, i: nat, section: Section)
    requires i < |sections| && IsTrimmable(sections[i].key) && section.key == sections[i].key
    ensures Untrimmable(sections[i := section]) == Untrimmable(sections)
  {
    if i > 0 {
      assert sections[i := section][1..] == sections[1..][i - 1 := section];
      ReplacedUntrimmable(sections[1..], i - 1, section);
    } else {
      assert sections[i := section][1..] == sections[1..];
    }
  }

  lemma {:induction false} RemovedUntrimmable(sections: seq<Section>, i: nat)
    requires i < |sections| && IsTrimmable(sections[i].key)
    ensures Untrimmable(RemoveAt(sections, i)) == Untrimmable(sections)
  {
    if i > 0 {
      assert RemoveAt(sections, i)[1..] == RemoveAt(sections[1..], i - 1);
      RemovedUntrimmable(sections[1..], i - 1);
    } else {
      assert RemoveAt(sections, i) == sections[1..];
    }
  }

  ghost predicate UniqueKeys(sections: seq<Section>) {
    forall i, j | 0 <= i < j < |sections| :: sections[i].key != sections[j].key
  }

  ghost predicate HasKey(sections: seq<Section>, key: Key) {
    exists i | 0 <= i < |sections| :: sections[i].key == key
  }

  ghost predicate TrimsTo(sections: seq<Section>, trimmed: seq<Section>) {
    && UniqueKeys(trimmed)
    && Untrimmable(trimmed) == Untrimmable(sections)
    && (forall k | HasKey(trimmed, k) :: HasKey(sections, k))
  }

  lemma RemoveEffect(sections: seq<Section>, i: nat)
    requires UniqueKeys(sections) && i < |sections| && IsTrimmable(sections[i].key)
    ensures TrimsTo(sections, RemoveAt(sections, i)) && !HasKey(RemoveAt(sections, i), sections[i].key)
  {
    RemovedUntrimmable(sections, i);
    var trimmed := RemoveAt(sections, i);
    assert forall k | 0 <= k < |trimmed| :: trimmed[k] == sections[if k < i then k else k + 1];
  }

  lemma CutEffect(sections: seq<Section>, i: nat, cut: Section)
    requires UniqueKeys(sections) && i < |sections| && IsTrimmable(sections[i].key) && cut.key == sections[i].key
    ensures TrimsTo(sections, sections[i := cut])
  {
    ReplacedUntrimmable(sections, i, cut);
    assert forall k | 0 <= k < |sections| :: sections[i := cut][k].key == sections[k].key;
  }

  /**
   Trying one key: the sections it may not touch stay as they are, no key appears twice or comes back, and
   either `excessChars` characters are gone or the section is.
   */
  lemma TrimEffect(sections: seq<Section>, key: Key, excessChars: nat)
    requires UniqueKeys(sections) && IsTrimmable(key)
    ensures var trimmed := TrimSection(sections, key, excessChars);
      TrimsTo(sections, trimmed) &&
      (!HasKey(trimmed, key) || JoinedChars(trimmed) + excessChars <= JoinedChars(sections))
  {
    var index := FindKey(sections, key, 0);
    FindKeyFinds(sections, key, 0);
    if index < |sections| {
      var section := sections[index];
      var kept := KeptChars(section.content, excessChars);
      if kept == 0 {
        RemoveEffect(sections, index);
      } else {
        var cut := section.(content := section.content[..kept] + ELLIPSIS);
        CutEffect(sections, index, cut);
        ReplacedChars(sections, index, cut);
      }
    }
  }

  // The whole budget.

  lemma TokensStep(before: nat, after: nat)
    requires Tokens(before) > TARGET_TOKENS
    requires after + (Tokens(before) - TARGET_TOKENS) * CHARS_PER_TOKEN <= before
    ensures Tokens(after) <= TARGET_TOKENS
  {
  }

  /** Trimming by the excess meets the target, or the key is gone. */
  lemma TrimMeetsTarget(before: seq<Section>, key: Key)
    requires UniqueKeys(before) && IsTrimmable(key) && ExcessTokens(before) > 0
    ensures var trimmed := TrimSection(before, key, ExcessTokens(before) * CHARS_PER_TOKEN);
      && TrimsTo(before, trimmed)
      && (ExcessTokens(trimmed) <= 0 || !HasKey(trimmed, key))
  {
    var excessChars := ExcessTokens(before) * CHARS_PER_TOKEN;
    TrimEffect(before, key, excessChars);
    var trimmed := TrimSection(before, key, excessChars);
    if HasKey(trimmed, key) {
      TokensStep(JoinedChars(before), JoinedChars(trimmed));
    }
  }

  /** None of the first `n` keys of the trim order is left. */
  ghost predicate Gone(sections: seq<Section>, n: nat) {
    && (n > 0 ==> !HasKey(sections, OlderContext))
    && (n > 1 ==> !HasKey(sections, Memory))
    && (n > 2 ==> !HasKey(sections, Transcript))
  }

  /** After `n` keys: the target is met, or those keys are gone. */
  lemma {:induction false} BudgetedEffect(sections: seq<Section>, n: nat)
    requires UniqueKeys(sections) && n <= 3
    ensures var b := Budgeted(sections, n);
      UniqueKeys(b) && Untrimmable(b) == Untrimmable(sections) && (ExcessTokens(b) <= 0 || Gone(b, n))
  {
    if n > 0 {
      BudgetedEffect(sections, n - 1);
      var before := Budgeted(sections, n - 1);
      if ExcessTokens(before) > 0 {
        assert TRIM_ORDER[n - 1] == if n == 1 then OlderContext else if n == 2 then Memory else Transcript;
        TrimMeetsTarget(before, TRIM_ORDER[n - 1]);
      }
    }
  }

  lemma {:induction false} NoneTrimmable(sections: seq<Section>)
    requires !HasKey(sections, OlderContext) && !HasKey(sections, Memory) && !HasKey(sections, Transcript)
    ensures Untrimmable(sections) == sections
  {
    if sections != [] {
      assert HasKey(sections, sections[0].key);
      assert forall k | HasKey(sections[1..], k) :: HasKey(sections, k) by {
        forall k | HasKey(sections[1..], k)
          ensures HasKey(sections, k)
        {
          var i :| 0 <= i < |sections| - 1 && sections[1..][i].key == k;
          assert sections[i + 1].key == k;
        }
      }
      NoneTrimmable(sections[1..]);
      assert [sections[0]] + sections[1..] == sections;
    }
  }

  lemma {:induction false} UntrimmableIsShorter(sections: seq<Section>)
    ensures JoinedChars(Untrimmable(sections)) <= JoinedChars(sections)
    ensures sections == [] ==> Untrimmable(sections) == []
  {
    if sections != [] {
      UntrimmableIsShorter(sections[1..]);
      ConsChars(sections[0], Untrimmable(sections[1..]));
      ConsChars(sections[0], sections[1..]);
      assert [sections[0]] + sections[1..] == sections;
    }
  }

  lemma {:induction false} MustKeepIsShorter(sections: seq<Section>)
    ensures JoinedChars(MustKeep(sections)) <= JoinedChars(Untrimmable(sections))
    ensures Untrimmable(sections) == [] ==> MustKeep(sections) == []
  {
    if sections != [] {
      MustKeepIsShorter(sections[1..]);
      ConsChars(sections[0], Untrimmable(sections[1..]));
      ConsChars(sections[0], MustKeep(sections[1..]));
    }
  }

  lemma ConsChars(section: Section, rest: seq<Section>)
    ensures JoinedChars([section] + rest) ==
      if rest == [] then |section.content| else |section.content| + |SEPARATOR| + JoinedChars(rest)
  {
    assert ([section] + rest)[1..] == rest;
  }

  /**
   With one section per key, the budget is exact: it gives up if and only if what it may not trim is over the
   budget. Otherwise the prompt meets the target, or everything trimmable is gone and it is within the budget;
   and every section it may not trim is in it, whole and in order.
   */
  lemma BudgetIsExact(sections: seq<Section>)
    requires UniqueKeys(sections)
    ensures BudgetResult(sections).OverBudget? <==> JoinedTokens(Untrimmable(sections)) > TOKEN_BUDGET
    ensures BudgetResult(sections).OverBudget? ==>
      BudgetResult(sections).tokens ==
        if JoinedTokens(MustKeep(sections)) > TOKEN_BUDGET then JoinedTokens(MustKeep(sections))
        else JoinedTokens(Untrimmable(sections))
    ensures BudgetResult(sections).Prompt? ==>
      var b := Budgeted(sections, 3);
      && BudgetResult(sections).text == Join(b)
      && Untrimmable(b) == Untrimmable(sections)
      && (Tokens(|Join(b)|) <= TARGET_TOKENS ||
          (b == Untrimmable(sections) && Tokens(|Join(b)|) <= TOKEN_BUDGET))
  {
    var b := Budgeted(sections, 3);
    BudgetedEffect(sections, 3);
    MustKeepIsShorter(sections);
    UntrimmableIsShorter(b);
    JoinHasChars(b);
    if ExcessTokens(b) > 0 {
      NoneTrimmable(b);
    }
  }

  // In which order, and how much.

  /** No section but the one of `key` is changed, gone or new. */
  ghost predicate OthersKept(sections: seq<Section>, trimmed: seq<Section>, key: Key) {
    forall section: Section | section.key != key :: section in trimmed <==> section in sections
  }

  lemma TrimKeepsOthers(sections: seq<Section>, key: Key, excessChars: nat)
    ensures OthersKept(sections, TrimSection(sections, key, excessChars), key)
  {
    var i := FindKey(sections, key, 0);
    FindKeyFinds(sections, key, 0);
    if i < |sections| {
      var cut := TrimSection(sections, key, excessChars);
      forall section: Section | section.key != key
        ensures section in cut <==> section in sections
      {
        if KeptChars(sections[i].content, excessChars) == 0 {
          RemovedHas(sections, i, section);
        } else {
          ReplacedHas(sections, i, cut[i], section);
        }
      }
    }
  }

  lemma RemovedHas(sections: seq<Section>, i: nat, section: Section)
    requires i < |sections| && section != sections[i]
    ensures section in RemoveAt(sections, i) <==> section in sections
  {
    assert sections == sections[..i] + [sections[i]] + sections[i + 1..];
  }

  lemma ReplacedHas(sections: seq<Section>, i: nat, cut: Section, section: Section)
    requires i < |sections| && section != sections[i] && section != cut
    ensures section in sections[i := cut] <==> section in sections
  {
    if section in sections {
      var k :| 0 <= k < |sections| && sections[k] == section;
      assert sections[i := cut][k] == section;
    }
    if section in sections[i := cut] {
      var k :| 0 <= k < |sections| && sections[i := cut][k] == section;
      assert sections[k] == section;
    }
  }

  /** Every section of the key is there as it was. */
  ghost predicate Whole(sections: seq<Section>, budgeted: seq<Section>, key: Key) {
    forall section: Section | section.key == key :: section in budgeted <==> section in sections
  }

  lemma KeptWhole(a: seq<Section>, b: seq<Section>, c: seq<Section>, trimmed: Key, key: Key)
    requires Whole(a, b, key) && OthersKept(b, c, trimmed) && key != trimmed
    ensures Whole(a, c, key)
  {
    forall section: Section | section.key == key
      ensures section in c <==> section in a
    {
      assert section in b <==> section in a;
    }
  }

  /** One more key: what it does not name stays whole. */
  lemma BudgetedKeepsWhole(sections: seq<Section>, n: nat, key: Key)
    requires 0 < n <= 3 && Whole(sections, Budgeted(sections, n - 1), key) && TRIM_ORDER[n - 1] != key
    ensures Whole(sections, Budgeted(sections, n), key)
  {
    var before := Budgeted(sections, n - 1);
    if ExcessTokens(before) > 0 {
      TrimKeepsOthers(before, TRIM_ORDER[n - 1], ExcessTokens(before) * CHARS_PER_TOKEN);
      KeptWhole(sections, before, Budgeted(sections, n), TRIM_ORDER[n - 1], key);
    }
  }

  lemma {:induction false} OtherKeysStayWhole(sections: seq<Section>, n: nat, key: Key)
    requires n <= 3 && forall k | 0 <= k < n :: TRIM_ORDER[k] != key
    ensures Whole(sections, Budgeted(sections, n), key)
  {
    if n > 0 {
      OtherKeysStayWhole(sections, n - 1, key);
      BudgetedKeepsWhole(sections, n, key);
    }
  }

  /**
   The budget takes in order: older context first, memory only once that is gone, the transcript only once both
   are. What is of no such key, and a prompt within its target, it leaves whole.
   */
  lemma TrimsInOrder(sections: seq<Section>, key: Key)
    requires UniqueKeys(sections)
    ensures var b := Budgeted(sections, 3);
      && (key != OlderContext && key != Memory && key != Transcript ==> Whole(sections, b, key))
      && (HasKey(b, OlderContext) ==> Whole(sections, b, Memory) && Whole(sections, b, Transcript))
      && (HasKey(b, Memory) ==> Whole(sections, b, Transcript))
      && (ExcessTokens(sections) <= 0 ==> b == sections)
  {
    var b := Budgeted(sections, 3);
    assert TRIM_ORDER == [OlderContext, Memory, Transcript];
    if key != OlderContext && key != Memory && key != Transcript {
      OtherKeysStayWhole(sections, 3, key);
    }
    FirstKeysFirst(sections, 1);
    FirstKeysFirst(sections, 2);
    if ExcessTokens(sections) <= 0 {
      SettledStays(sections, 0);
    }
  }

  lemma FirstKeysFirst(sections: seq<Section>, n: nat)
    requires UniqueKeys(sections) && 0 < n < 3
    ensures HasKey(Budgeted(sections, 3), if n == 1 then OlderContext else Memory) ==>
      Whole(sections, Budgeted(sections, 3), Transcript) && (n == 1 ==> Whole(sections, Budgeted(sections, 3), Memory))
  {
    var key := if n == 1 then OlderContext else Memory;
    BudgetedEffect(sections, n);
    OtherKeysStayWhole(sections, n, Transcript);
    if n == 1 {
      OtherKeysStayWhole(sections, n, Memory);
    }
    if ExcessTokens(Budgeted(sections, n)) <= 0 {
      SettledStays(sections, n);
    } else {
      GoneStaysGone(sections, n, key);
    }
  }

  lemma {:induction false} GoneStaysGone(sections: seq<Section>, n: nat, key: Key)
    requires UniqueKeys(sections) && n <= 3 && !HasKey(Budgeted(sections, n), key)
    ensures !HasKey(Budgeted(sections, 3), key)
    decreases 3 - n
  {
    if n < 3 {
      BudgetedEffect(sections, n);
      var before := Budgeted(sections, n);
      if ExcessTokens(before) > 0 {
        assert IsTrimmable(TRIM_ORDER[n]);
        TrimEffect(before, TRIM_ORDER[n], ExcessTokens(before) * CHARS_PER_TOKEN);
      }
      GoneStaysGone(sections, n + 1, key);
    }
  }

  /** `kept` characters and the ellipsis make up for the excess, and the cut splits no frame. */
  ghost predicate MayKeep(content: string, excessChars: nat, kept: nat) {
    kept + 3 + excessChars <= |content| && !Splits(content, kept)
  }

  /**
   The section of the key is cut as little as it may be: what is kept is the longest start that makes up for the
   excess and splits no frame, with an ellipsis behind it; and it goes altogether only if there is none.
   */
  lemma TrimKeepsMost(sections: seq<Section>, excessChars: nat, i: nat)
    requires UniqueKeys(sections) && i < |sections|
    ensures var content, trimmed := sections[i].content, TrimSection(sections, sections[i].key, excessChars);
      if trimmed == sections[..i] + sections[i + 1..] then
        forall kept: nat | kept > 0 :: !MayKeep(content, excessChars, kept)
      else
        exists kept: nat | 0 < kept <= |content| ::
          && MayKeep(content, excessChars, kept)
          && (forall more | more > kept :: !MayKeep(content, excessChars, more))
          && trimmed == sections[i := Section(sections[i].key, content[..kept] + "...")]
  {
    var content := sections[i].content;
    FindKeyFinds(sections, sections[i].key, 0);
    assert FindKey(sections, sections[i].key, 0) == i;
    KeepsMost(content, excessChars);
    var kept := KeptChars(content, excessChars);
    if kept > 0 {
      var trimmed := TrimSection(sections, sections[i].key, excessChars);
      assert trimmed == sections[i := Section(sections[i].key, content[..kept] + "...")];
      assert |trimmed| == |sections|;
    }
  }

  lemma KeepsMost(content: string, excessChars: nat)
    ensures var kept := KeptChars(content, excessChars);
      && (kept > 0 ==> MayKeep(content, excessChars, kept))
      && (forall more: nat | more > kept :: !MayKeep(content, excessChars, more))
  {
    if |content| > excessChars + 3 {
      SafeCutSplitsNone(content, |content| - excessChars - 3);
    }
  }

  /** What is left of a trimmed section splits no untrusted frame. */
  lemma TrimSplitsNoFrame(content: string, excessChars: nat)
    requires KeptChars(content, excessChars) > 0
    ensures !InsideFrame(content, KeptChars(content, excessChars), 0)
  {
    SafeCutIsLargest(content, |content| - excessChars - 3, 0);
  }
}
