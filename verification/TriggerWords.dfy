/** Merging the trigger words of the enabled LoRAs into a comma-separated prompt. */
module TriggerWords {
  import opened Wrappers
  import opened Text

  const MAX_LENGTH := 10_000

  function Stripped(parts: seq<string>): (r: seq<string>)
    ensures |r| == |parts| && forall i :: 0 <= i < |parts| ==> r[i] == Strip(parts[i])
  {
    if parts == [] then [] else [Strip(parts[0])] + Stripped(parts[1..])
  }

  /** The tokens of a prompt: what is between its commas, stripped. */
  function Tokens(prompt: string): seq<string> {
    Stripped(Split(prompt, ','))
  }

  /** The words that are added: non-blank, not yet in the prompt, none twice. */
  function Additions(existing: string, words: seq<string>): seq<string> {
    if words == [] then []
    else
      var before := Additions(existing, words[..|words| - 1]);
      var token := Strip(words[|words| - 1]);
      if token != "" && token !in before && token !in Tokens(existing) then before + [token] else before
  }

  datatype PromptError = TooLong | Unresolved

  function Append(prompt: string, words: seq<string>, maxLength: nat): Result<string, PromptError> {
    var existing := Strip(prompt);
    var additions := Additions(existing, words);
    if additions == [] then Ok(prompt)
    else
      var result := Join((if existing == "" then [] else [existing]) + additions, ", ");
      if |result| > maxLength then Err(TooLong) else Ok(result)
  }

  /** The loop of `append_trigger_words`. */
  method AppendTriggerWords(prompt: string, words: seq<string>, maxLength: nat) returns (r: Result<string, PromptError>)
    ensures r == Append(prompt, words, maxLength)
  {
    var existing := Strip(prompt);
    var additions: seq<string> := [];
    for i := 0 to |words|
      invariant additions == Additions(existing, words[..i])
    {
      assert words[..i + 1][..i] == words[..i];
      var token := Strip(words[i]);
      if token != "" && token !in additions && token !in Tokens(existing) {
        additions := additions + [token];
      }
    }
    assert words[..|words|] == words;
    if additions == [] {
      return Ok(prompt);
    }
    var result := Join((if existing == "" then [] else [existing]) + additions, ", ");
    r := if |result| > maxLength then Err(TooLong) else Ok(result);
  }

  // ---------- stripping ----------

  lemma {:induction false} StripLeftStarts(s: string)
    ensures StripLeft(s) == "" || !IsSpace(StripLeft(s)[0])
    ensures forall c :: c in StripLeft(s) ==> c in s
  {
    if s != "" && IsSpace(s[0]) {
      StripLeftStarts(s[1..]);
    }
  }

  lemma {:induction false} StripRightIsPrefix(s: string)
    ensures StripRight(s) <= s
    ensures StripRight(s) == "" || !IsSpace(StripRight(s)[|StripRight(s)| - 1])
  {
    if s != "" && IsSpace(s[|s| - 1]) {
      StripRightIsPrefix(s[..|s| - 1]);
    }
  }

  lemma StripIsStable(s: string)
    ensures Strip(Strip(s)) == Strip(s)
    ensures forall c :: c in Strip(s) ==> c in s
  {
    StripLeftStarts(s);
    StripRightIsPrefix(StripLeft(s));
  }

  lemma {:induction false} StripLeftOfSuffix(s: string, c: char)
    requires IsSpace(c)
    ensures StripLeft(s + [c]) == if StripLeft(s) == "" then "" else StripLeft(s) + [c]
  {
    if s == "" {
      assert s + [c] == [c] && [c][1..] == "";
    } else if IsSpace(s[0]) {
      assert (s + [c])[1..] == s[1..] + [c];
      StripLeftOfSuffix(s[1..], c);
    }
  }

  lemma StripIgnoresSpace(s: string, c: char)
    requires IsSpace(c)
    ensures Strip([c] + s) == Strip(s) && Strip(s + [c]) == Strip(s)
  {
    assert ([c] + s)[1..] == s;
    StripLeftOfSuffix(s, c);
    var t := StripLeft(s);
    assert (t + [c])[..|t|] == t;
  }

  // ---------- tokens ----------

  lemma StrippedConcat(a: seq<string>, b: seq<string>)
    ensures Stripped(a + b) == Stripped(a) + Stripped(b)
  {
  }

  lemma SpaceBefore(s: string, c: char)
    requires IsSpace(c)
    ensures Tokens([c] + s) == Tokens(s)
  {
    var parts := Split(s, ',');
    assert ([c] + s)[1..] == s;
    assert Split([c] + s, ',') == [[c] + parts[0]] + parts[1..];
    StripIgnoresSpace(parts[0], c);
  }

  lemma {:induction false} LastComma(s: string) returns (i: nat)
    requires ',' in s
    ensures i < |s| && s[i] == ',' && ',' !in s[i + 1..]
  {
    i := |s| - 1;
    if s[i] != ',' {
      i := LastComma(s[..|s| - 1]);
      assert s[i + 1..] == s[..|s| - 1][i + 1..] + [s[|s| - 1]];
    }
  }

  lemma LastPart(s: string) returns (head: seq<string>, last: string)
    ensures ',' !in last && Split(s, ',') == head + [last]
    ensures forall c :: c != ',' ==> Split(s + [c], ',') == head + [last + [c]]
  {
    if ',' !in s {
      head, last := [], s;
      SplitPlain(s, ',');
      forall c | c != ',' ensures Split(s + [c], ',') == head + [last + [c]] {
        SplitPlain(s + [c], ',');
      }
    } else {
      var i := LastComma(s);
      last := s[i + 1..];
      head := Split(s[..i], ',');
      SplitConcat(s[..i], last, ',');
      SplitPlain(last, ',');
      assert s == s[..i] + [','] + last;
      forall c | c != ',' ensures Split(s + [c], ',') == head + [last + [c]] {
        SplitConcat(s[..i], last + [c], ',');
        SplitPlain(last + [c], ',');
        assert s + [c] == s[..i] + [','] + (last + [c]);
      }
    }
  }

  lemma SpaceAfter(s: string, c: char)
    requires IsSpace(c)
    ensures Tokens(s + [c]) == Tokens(s)
  {
    var head, last := LastPart(s);
    hide Split;
    StrippedConcat(head, [last]);
    StrippedConcat(head, [last + [c]]);
    StripIgnoresSpace(last, c);
  }

  lemma {:induction false} TokensOfStripLeft(s: string)
    ensures Tokens(StripLeft(s)) == Tokens(s)
  {
    if s != "" && IsSpace(s[0]) {
      TokensOfStripLeft(s[1..]);
      SpaceBefore(s[1..], s[0]);
      assert [s[0]] + s[1..] == s;
    }
  }

  lemma {:induction false} TokensOfStripRight(s: string)
    ensures Tokens(StripRight(s)) == Tokens(s)
  {
    if s != "" && IsSpace(s[|s| - 1]) {
      TokensOfStripRight(s[..|s| - 1]);
      SpaceAfter(s[..|s| - 1], s[|s| - 1]);
      assert s[..|s| - 1] + [s[|s| - 1]] == s;
    }
  }

  /** White space around a prompt does not change its tokens. */
  lemma TokensOfStrip(s: string)
    ensures Tokens(Strip(s)) == Tokens(s)
  {
    TokensOfStripLeft(s);
    TokensOfStripRight(StripLeft(s));
  }

  lemma TokensOfJoined(a: string, b: string)
    ensures Tokens(a + ", " + b) == Tokens(a) + Tokens(b)
  {
    assert a + ", " + b == a + [','] + ([' '] + b);
    SplitConcat(a, [' '] + b, ',');
    StrippedConcat(Split(a, ','), Split([' '] + b, ','));
    SpaceBefore(b, ' ');
  }

  function AllTokens(parts: seq<string>): seq<string> {
    if parts == [] then [] else Tokens(parts[0]) + AllTokens(parts[1..])
  }

  lemma {:induction false} TokensOfJoin(parts: seq<string>)
    requires parts != []
    ensures Tokens(Join(parts, ", ")) == AllTokens(parts)
  {
    if |parts| == 1 {
      assert AllTokens(parts[1..]) == [];
    } else {
      TokensOfJoin(parts[1..]);
      TokensOfJoined(parts[0], Join(parts[1..], ", "));
    }
  }

  lemma PlainTokens(t: string)
    requires ',' !in t && Strip(t) == t
    ensures Tokens(t) == [t]
  {
    SplitPlain(t, ',');
  }

  /** A token never holds a comma. */
  lemma TokensHoldNoComma(prompt: string)
    ensures forall t :: t in Tokens(prompt) ==> ',' !in t
  {
    PartsHoldNoSeparator(prompt, ',');
    var parts := Split(prompt, ',');
    forall t | t in Tokens(prompt) ensures ',' !in t {
      var i :| 0 <= i < |parts| && Tokens(prompt)[i] == t;
      StripIsStable(parts[i]);
      assert parts[i] in parts;
    }
  }

  // ---------- the merge ----------

  lemma {:induction false} AdditionsAreNew(existing: string, words: seq<string>)
    ensures var a := Additions(existing, words);
      && (forall t :: t in a ==>
          t != "" && t !in Tokens(existing) && Strip(t) == t && exists w :: w in words && t == Strip(w))
      && (forall i, j :: 0 <= i < j < |a| ==> a[i] != a[j])
      && (forall w :: w in words && Strip(w) != "" ==> Strip(w) in a || Strip(w) in Tokens(existing))
  {
    if words != [] {
      AdditionsAreNew(existing, words[..|words| - 1]);
      StripIsStable(words[|words| - 1]);
      assert forall w :: w in words ==> w in words[..|words| - 1] || w == words[|words| - 1];
    }
  }

  lemma AppendedTokens(prompt: string, words: seq<string>, maxLength: nat)
    requires Append(prompt, words, maxLength).Ok? && Additions(Strip(prompt), words) != []
    ensures Tokens(Append(prompt, words, maxLength).value) ==
            (if Strip(prompt) == "" then [] else Tokens(prompt)) + AllTokens(Additions(Strip(prompt), words))
  {
    var existing, a := Strip(prompt), Additions(Strip(prompt), words);
    TokensOfStrip(prompt);
    if existing == "" {
      assert [] + a == a;
      TokensOfJoin(a);
    } else {
      TokensOfJoin([existing] + a);
      assert ([existing] + a)[1..] == a;
    }
  }

  /** Merging keeps the original tokens in front and in order, adds only tokens that were missing and none twice, makes
      every comma-free trigger word present, and stays within the limit when it changes the prompt. */
  lemma MergeIsFaithful(prompt: string, words: seq<string>, maxLength: nat)
    requires Append(prompt, words, maxLength).Ok?
    ensures var r := Append(prompt, words, maxLength).value; var a := Additions(Strip(prompt), words);
      && (r == prompt || |r| <= maxLength)
      && (a == [] ==> r == prompt)
      && (a != [] ==> Tokens(r) == (if Strip(prompt) == "" then [] else Tokens(prompt)) + AllTokens(a))
      && (forall i, j :: 0 <= i < j < |a| ==> a[i] != a[j]) && (forall t :: t in a ==> t !in Tokens(prompt))
      && (forall w :: w in words && Strip(w) != "" && ',' !in Strip(w) ==> Strip(w) in Tokens(r))
  {
    var r, a := Append(prompt, words, maxLength).value, Additions(Strip(prompt), words);
    AdditionsAreNew(Strip(prompt), words);
    TokensOfStrip(prompt);
    if a != [] {
      AppendedTokens(prompt, words, maxLength);
    }
    forall w | w in words && Strip(w) != "" && ',' !in Strip(w) ensures Strip(w) in Tokens(r) {
      StripIsStable(w);
      if Strip(w) in a {
        PlainTokens(Strip(w));
        TokenOfPart(a, Strip(w));
      } else {
        assert Strip(w) in Tokens(prompt);
        assert Strip(prompt) == "" ==> Tokens(prompt) == [""] by {
          assert Strip("") == "" && Split("", ',') == [""];
        }
      }
    }
  }

  lemma {:induction false} TokenOfPart(parts: seq<string>, t: string)
    requires t in parts && Tokens(t) == [t]
    ensures t in AllTokens(parts)
  {
    if parts[0] != t {
      TokenOfPart(parts[1..], t);
    } else {
      assert t in Tokens(parts[0]);
    }
  }

  lemma PresentWordsAddNothing(prompt: string, words: seq<string>, maxLength: nat)
    requires forall w :: w in words && Strip(w) != "" ==> Strip(w) in Tokens(prompt)
    ensures Append(prompt, words, maxLength) == Ok(prompt)
  {
    TokensOfStrip(prompt);
    NothingToAdd(Strip(prompt), words);
  }

  lemma {:induction false} NothingToAdd(existing: string, words: seq<string>)
    requires forall w :: w in words && Strip(w) != "" ==> Strip(w) in Tokens(existing)
    ensures Additions(existing, words) == []
  {
    if words != [] {
      NothingToAdd(existing, words[..|words| - 1]);
    }
  }

  lemma {:induction false} CommaMakesTwo(t: string)
    requires ',' in t
    ensures |Tokens(t)| >= 2
  {
    if t[0] != ',' {
      CommaMakesTwo(t[1..]);
    }
  }

  lemma {:induction false} ManyTokens(parts: seq<string>, t: string)
    requires t in parts
    ensures |AllTokens(parts)| >= |Tokens(t)| >= 1
  {
    if parts[0] != t {
      ManyTokens(parts[1..], t);
    }
  }

  /** Merging again changes nothing exactly when no trigger word holds a comma: such a word is never found among the
      tokens, so it is added every time. */
  lemma MergeIsIdempotentIff(prompt: string, words: seq<string>, maxLength: nat)
    requires Append(prompt, words, maxLength).Ok?
    ensures var r := Append(prompt, words, maxLength).value;
      Append(r, words, maxLength) == Ok(r) <==> forall w :: w in words ==> ',' !in Strip(w)
  {
    var r := Append(prompt, words, maxLength).value;
    if w :| w in words && ',' in Strip(w) {
      AdditionsAreNew(Strip(r), words);
      TokensOfStrip(r);
      TokensHoldNoComma(r);
      var again := Additions(Strip(r), words);
      assert Strip(w) in again;
      CommaMakesTwo(Strip(w));
      ManyTokens(again, Strip(w));
      if Append(r, words, maxLength).Ok? {
        AppendedTokens(r, words, maxLength);
        assert Strip(r) == "" ==> Tokens(r) == [""];
      }
    } else {
      MergeIsFaithful(prompt, words, maxLength);
      PresentWordsAddNothing(r, words, maxLength);
    }
  }

  /** A word with a comma is appended to any prompt, even to one that ends with it: `x` becomes `x, a,b` and that
      `x, a,b, a,b`. */
  lemma CommaWordIsAlwaysAppended(prompt: string, word: string, maxLength: nat)
    requires Strip(prompt) == prompt != "" && Strip(word) == word && ',' in word && |prompt| + 2 + |word| <= maxLength
    ensures Append(prompt, [word], maxLength) == Ok(prompt + ", " + word)
  {
    TokensHoldNoComma(prompt);
    hide Tokens, Strip;
    assert [word][..0] == [] && Additions(prompt, []) == [];
    assert Additions(prompt, [word]) == [word];
    assert [prompt, word][1..] == [word] && [prompt] + [word] == [prompt, word];
    assert Join([word], ", ") == word && Join([prompt, word], ", ") == prompt + ", " + word;
  }

  // ---------- over the LoRAs ----------

  datatype Lora = Lora(name: string, autoAdd: bool, order: int)

  datatype Metadata = Metadata(fileName: string, triggerWords: seq<string>, isMissing: bool)

  type Catalog = map<string, Metadata>

  predicate Resolvable(catalog: Option<Catalog>, name: string) {
    catalog.Some? && name in catalog.value && !catalog.value[name].isMissing && catalog.value[name].fileName == name
  }

  // ---------- the order of the LoRAs ----------

  /** Behind everything of the same or a lower order. */
  function Insert(sorted: seq<Lora>, lora: Lora): seq<Lora> {
    if sorted == [] || sorted[|sorted| - 1].order <= lora.order then sorted + [lora]
    else Insert(sorted[..|sorted| - 1], lora) + [sorted[|sorted| - 1]]
  }

  /** Python's `sorted` by `order`. */
  function SortByOrder(loras: seq<Lora>): seq<Lora> {
    if loras == [] then [] else Insert(SortByOrder(loras[..|loras| - 1]), loras[|loras| - 1])
  }

  predicate Ascending(loras: seq<Lora>) {
    forall i, j :: 0 <= i < j < |loras| ==> loras[i].order <= loras[j].order
  }

  function OfOrder(loras: seq<Lora>, order: int): seq<Lora> {
    if loras == [] then []
    else
      var rest := OfOrder(loras[..|loras| - 1], order);
      if loras[|loras| - 1].order == order then rest + [loras[|loras| - 1]] else rest
  }

  lemma {:induction false} InsertAscends(sorted: seq<Lora>, lora: Lora)
    requires Ascending(sorted)
    ensures var r := Insert(sorted, lora);
      Ascending(r) && |r| == |sorted| + 1 && forall i :: 0 <= i < |r| ==> r[i] == lora || r[i] in sorted
  {
    if sorted != [] && sorted[|sorted| - 1].order > lora.order {
      var init := sorted[..|sorted| - 1];
      InsertAscends(init, lora);
      hide Insert;
      assert forall x :: x in init ==> x in sorted;
    }
  }

  lemma {:induction false} InsertIsStable(sorted: seq<Lora>, lora: Lora, order: int)
    ensures OfOrder(Insert(sorted, lora), order) == OfOrder(sorted, order) + if lora.order == order then [lora] else []
  {
    var r := Insert(sorted, lora);
    if sorted == [] || sorted[|sorted| - 1].order <= lora.order {
      assert r[..|sorted|] == sorted;
    } else {
      var init, last := sorted[..|sorted| - 1], sorted[|sorted| - 1];
      InsertIsStable(init, lora, order);
      assert r == Insert(init, lora) + [last];
      hide Insert;
      assert r[..|r| - 1] == Insert(init, lora);
    }
  }

  /** The list is in ascending order, and the LoRAs of each order are the given ones as they were given: stable, nothing
      lost and nothing added. */
  lemma {:induction false} SortByOrderIsStable(loras: seq<Lora>, order: int)
    ensures Ascending(SortByOrder(loras)) && |SortByOrder(loras)| == |loras|
    ensures OfOrder(SortByOrder(loras), order) == OfOrder(loras, order)
  {
    if loras != [] {
      SortByOrderIsStable(loras[..|loras| - 1], order);
      InsertAscends(SortByOrder(loras[..|loras| - 1]), loras[|loras| - 1]);
      InsertIsStable(SortByOrder(loras[..|loras| - 1]), loras[|loras| - 1], order);
    }
  }

  /** `loras` are taken as they come. */
  function Resolve(prompt: string, loras: seq<Lora>, catalog: Option<Catalog>): Result<string, PromptError> {
    if loras == [] then Ok(prompt)
    else
      match Resolve(prompt, loras[..|loras| - 1], catalog)
      case Err(e) => Err(e)
      case Ok(effective) =>
        var lora := loras[|loras| - 1];
        if !lora.autoAdd then Ok(effective)
        else if !Resolvable(catalog, lora.name) then Err(Unresolved)
        else Append(effective, catalog.value[lora.name].triggerWords, MAX_LENGTH)
  }

  method ResolveEffectivePositivePrompt(prompt: string, unordered: seq<Lora>, catalog: Option<Catalog>)
    returns (r: Result<string, PromptError>)
    ensures r == Resolve(prompt, SortByOrder(unordered), catalog)
  {
    hide SortByOrder, Append;
    var loras := SortByOrder(unordered);
    var effective := prompt;
    for i := 0 to |loras|
      invariant Resolve(prompt, loras[..i], catalog) == Ok(effective)
    {
      assert loras[..i + 1][..i] == loras[..i];
      if loras[i].autoAdd {
        if catalog.None? || loras[i].name !in catalog.value {
          FailureStays(prompt, loras, catalog, i + 1);
          return Err(Unresolved);
        }
        var metadata := catalog.value[loras[i].name];
        if metadata.isMissing || metadata.fileName != loras[i].name {
          FailureStays(prompt, loras, catalog, i + 1);
          return Err(Unresolved);
        }
        var appended := AppendTriggerWords(effective, metadata.triggerWords, MAX_LENGTH);
        if appended.Err? {
          FailureStays(prompt, loras, catalog, i + 1);
          return appended;
        }
        effective := appended.value;
      }
    }
    assert loras[..|loras|] == loras;
    r := Ok(effective);
  }

  lemma {:induction false} FailureStays(prompt: string, loras: seq<Lora>, catalog: Option<Catalog>, k: nat)
    requires k <= |loras| && Resolve(prompt, loras[..k], catalog).Err?
    ensures Resolve(prompt, loras, catalog) == Resolve(prompt, loras[..k], catalog)
  {
    if k < |loras| {
      assert loras[..|loras| - 1][..k] == loras[..k];
      FailureStays(prompt, loras[..|loras| - 1], catalog, k);
    } else {
      assert loras[..k] == loras;
    }
  }

  /** The words of the enabled LoRAs. */
  predicate Enabled(loras: seq<Lora>, catalog: Option<Catalog>, word: string) {
    exists i :: 0 <= i < |loras| && loras[i].autoAdd && Resolvable(catalog, loras[i].name) &&
      word in catalog.value[loras[i].name].triggerWords
  }

  lemma BlankHasNoTokens(prompt: string)
    requires Strip(prompt) == ""
    ensures Tokens(prompt) == [""]
  {
    TokensOfStrip(prompt);
    assert Split("", ',') == [""] && Strip("") == "";
  }

  /** What the LoRAs add, one after another. */
  function Added(prompt: string, loras: seq<Lora>, catalog: Option<Catalog>): seq<string>
    requires Resolve(prompt, loras, catalog).Ok?
  {
    if loras == [] then []
    else
      var init, lora := loras[..|loras| - 1], loras[|loras| - 1];
      var before := Resolve(prompt, init, catalog).value;
      Added(prompt, init, catalog) +
      if lora.autoAdd then Additions(Strip(before), catalog.value[lora.name].triggerWords) else []
  }

  lemma {:induction false} AllTokensConcat(a: seq<string>, b: seq<string>)
    ensures AllTokens(a + b) == AllTokens(a) + AllTokens(b)
  {
    if a == [] {
      assert a + b == b;
    } else {
      assert (a + b)[1..] == a[1..] + b;
      AllTokensConcat(a[1..], b);
    }
  }

  /** The effective prompt is the given one, all its tokens in front, followed by what was added. */
  ghost predicate Extended(prompt: string, r: string, added: seq<string>) {
    && Tokens(r) == (if added == [] || Strip(prompt) != "" then Tokens(prompt) else []) + AllTokens(added)
    && (added != [] || Strip(prompt) != "" ==> Strip(r) != "")
    && (added == [] ==> r == prompt)
  }

  /** Only tokens that the prompt does not have, and no comma-free one twice. */
  ghost predicate NewTokens(prompt: string, added: seq<string>) {
    && (forall t :: t in added ==> t != "" && Strip(t) == t && t !in Tokens(prompt))
    && (forall i, j :: 0 <= i < j < |added| && added[i] == added[j] ==> ',' in added[i])
  }

  lemma AppendExtends(prompt: string, words: seq<string>)
    requires Append(prompt, words, MAX_LENGTH).Ok?
    ensures Extended(prompt, Append(prompt, words, MAX_LENGTH).value, Additions(Strip(prompt), words))
  {
    var a, r := Additions(Strip(prompt), words), Append(prompt, words, MAX_LENGTH).value;
    if a == [] {
      assert Tokens(prompt) + AllTokens(a) == Tokens(prompt);
    } else {
      AppendedTokens(prompt, words, MAX_LENGTH);
      AdditionsAreNew(Strip(prompt), words);
      ManyTokens(a, a[0]);
      if ',' in a[0] {
        CommaMakesTwo(a[0]);
      } else {
        PlainTokens(a[0]);
        TokenOfPart(a, a[0]);
      }
      if Strip(r) == "" {
        BlankHasNoTokens(r);
      }
    }
  }

  lemma ExtendedTwice(prompt: string, before: string, r: string, a: seq<string>, b: seq<string>)
    requires Extended(prompt, before, a) && Extended(before, r, b)
    ensures Extended(prompt, r, a + b)
  {
    AllTokensConcat(a, b);
    hide Tokens, Strip, AllTokens;
    if b == [] {
      assert a + b == a;
    } else if a == [] {
      assert a + b == b;
    }
  }

  lemma PresentIsKept(prompt: string, r: string, added: seq<string>, t: string)
    requires Extended(prompt, r, added) && NewTokens(prompt, added) && t != ""
    requires t in Tokens(prompt) || (t in added && ',' !in t)
    ensures t in Tokens(r)
  {
    if t in Tokens(prompt) {
      if Strip(prompt) == "" {
        BlankHasNoTokens(prompt);
      }
    } else {
      PlainTokens(t);
      TokenOfPart(added, t);
    }
  }

  lemma NewTokensTwice(prompt: string, before: string, a: seq<string>, b: seq<string>)
    requires Extended(prompt, before, a) && NewTokens(prompt, a) && NewTokens(before, b)
    ensures NewTokens(prompt, a + b)
  {
    forall t | t in b ensures t !in Tokens(prompt) && (t in a ==> ',' in t) {
      if t in Tokens(prompt) || (t in a && ',' !in t) {
        PresentIsKept(prompt, before, a, t);
      }
    }
    hide Tokens, Strip, Extended;
    assert forall t :: t in a + b ==> t in a || t in b;
    forall i, j | 0 <= i < j < |a + b| && (a + b)[i] == (a + b)[j] ensures ',' in (a + b)[i] {
      if i < |a| <= j {
        assert (a + b)[i] == a[i] && (a + b)[j] == b[j - |a|];
      } else if |a| <= i {
        assert (a + b)[i] == b[i - |a|] && (a + b)[j] == b[j - |a|];
      }
    }
  }

  /** Over any list of LoRAs the original tokens stay in front and in order; only missing tokens are added, and a
      comma-free one never twice, whichever LoRAs ask for it; every comma-free word of an enabled LoRA is a token of the
      effective prompt. */
  lemma {:induction false} ResolvedPromptIsFaithful(prompt: string, loras: seq<Lora>, catalog: Option<Catalog>)
    requires Resolve(prompt, loras, catalog).Ok?
    ensures var r := Resolve(prompt, loras, catalog).value; var added := Added(prompt, loras, catalog);
      && Extended(prompt, r, added) && NewTokens(prompt, added)
      && (forall t :: t in added ==> exists w :: Enabled(loras, catalog, w) && t == Strip(w))
      && (forall w :: Enabled(loras, catalog, w) && Strip(w) != "" && ',' !in Strip(w) ==> Strip(w) in Tokens(r))
      && (r == prompt || |r| <= MAX_LENGTH)
  {
    var r, added := Resolve(prompt, loras, catalog).value, Added(prompt, loras, catalog);
    if loras == [] {
      assert Tokens(prompt) + AllTokens([]) == Tokens(prompt);
    } else {
      var init, lora := loras[..|loras| - 1], loras[|loras| - 1];
      ResolvedPromptIsFaithful(prompt, init, catalog);
      EnabledByLast(loras, catalog);
      var before, a := Resolve(prompt, init, catalog).value, Added(prompt, init, catalog);
      hide Tokens, Strip, AllTokens, Append, Additions, Extended, NewTokens, Enabled;
      if lora.autoAdd {
        OneMoreLora(prompt, before, a, catalog.value[lora.name].triggerWords);
      } else {
        assert a + [] == a;
      }
    }
  }

  lemma EnabledByLast(loras: seq<Lora>, catalog: Option<Catalog>)
    requires loras != []
    ensures var init, lora := loras[..|loras| - 1], loras[|loras| - 1];
      forall w :: Enabled(loras, catalog, w) <==>
        Enabled(init, catalog, w) ||
        (lora.autoAdd && Resolvable(catalog, lora.name) && w in catalog.value[lora.name].triggerWords)
  {
    var init := loras[..|loras| - 1];
    forall w | Enabled(init, catalog, w) ensures Enabled(loras, catalog, w) {
      var i :| 0 <= i < |init| && init[i].autoAdd && Resolvable(catalog, init[i].name) &&
        w in catalog.value[init[i].name].triggerWords;
      assert loras[i] == init[i];
    }
    forall i | 0 <= i < |init| ensures loras[i] == init[i] {
    }
  }

  lemma OneMoreLora(prompt: string, before: string, a: seq<string>, words: seq<string>)
    requires Extended(prompt, before, a) && NewTokens(prompt, a) && Append(before, words, MAX_LENGTH).Ok?
    ensures var r := Append(before, words, MAX_LENGTH).value; var b := Additions(Strip(before), words);
      && Extended(prompt, r, a + b) && NewTokens(prompt, a + b)
      && (forall t :: t in b ==> exists w :: w in words && t == Strip(w))
      && (forall t :: t != "" && t in Tokens(before) ==> t in Tokens(r))
      && (forall w :: w in words && Strip(w) != "" && ',' !in Strip(w) ==> Strip(w) in Tokens(r))
      && (r == before || |r| <= MAX_LENGTH)
  {
    var r, b := Append(before, words, MAX_LENGTH).value, Additions(Strip(before), words);
    AppendExtends(before, words);
    AdditionsAreNew(Strip(before), words);
    TokensOfStrip(before);
    MergeIsFaithful(before, words, MAX_LENGTH);
    hide Tokens, Strip, Append, Additions;
    assert NewTokens(before, b);
    ExtendedTwice(prompt, before, r, a, b);
    NewTokensTwice(prompt, before, a, b);
    forall t | t != "" && t in Tokens(before) ensures t in Tokens(r) {
      PresentIsKept(before, r, b, t);
    }
  }

  lemma {:induction false} CommaFreeResolvesToItself(prompt: string, loras: seq<Lora>, catalog: Option<Catalog>, k: nat)
    requires Resolve(prompt, loras, catalog).Ok? && k <= |loras|
    requires forall w :: Enabled(loras, catalog, w) ==> ',' !in Strip(w)
    ensures var r := Resolve(prompt, loras, catalog).value; Resolve(r, loras[..k], catalog) == Ok(r)
  {
    var r := Resolve(prompt, loras, catalog).value;
    if k > 0 {
      CommaFreeResolvesToItself(prompt, loras, catalog, k - 1);
      assert loras[..k][..k - 1] == loras[..k - 1];
      ResolvedPromptIsFaithful(prompt, loras, catalog);
      var lora := loras[k - 1];
      if lora.autoAdd {
        EveryLoraResolved(prompt, loras, catalog, k - 1);
        PresentWordsAddNothing(r, catalog.value[lora.name].triggerWords, MAX_LENGTH);
      }
    }
  }

  lemma {:induction false} EveryLoraResolved(prompt: string, loras: seq<Lora>, catalog: Option<Catalog>, k: nat)
    requires Resolve(prompt, loras, catalog).Ok? && k < |loras| && loras[k].autoAdd
    ensures Resolvable(catalog, loras[k].name)
  {
    if k < |loras| - 1 {
      EveryLoraResolved(prompt, loras[..|loras| - 1], catalog, k);
    }
  }

  lemma {:induction false} CommaWordsAreAdded(prompt: string, loras: seq<Lora>, catalog: Option<Catalog>, w: string)
    requires Resolve(prompt, loras, catalog).Ok? && Enabled(loras, catalog, w) && ',' in Strip(w)
    ensures Strip(w) in Added(prompt, loras, catalog)
  {
    var init, lora := loras[..|loras| - 1], loras[|loras| - 1];
    var before := Resolve(prompt, init, catalog).value;
    if Enabled(init, catalog, w) {
      CommaWordsAreAdded(prompt, init, catalog, w);
    } else {
      AdditionsAreNew(Strip(before), catalog.value[lora.name].triggerWords);
      TokensHoldNoComma(Strip(before));
    }
  }

  /** The effective prompt resolves to itself exactly if no enabled LoRA has a trigger word with a comma. */
  lemma ResolvingAgainChangesNothingIff(prompt: string, loras: seq<Lora>, catalog: Option<Catalog>)
    requires Resolve(prompt, loras, catalog).Ok?
    ensures var r := Resolve(prompt, loras, catalog).value;
      Resolve(r, loras, catalog) == Ok(r) <==> forall w :: Enabled(loras, catalog, w) ==> ',' !in Strip(w)
  {
    var r := Resolve(prompt, loras, catalog).value;
    if w :| Enabled(loras, catalog, w) && ',' in Strip(w) {
      if Resolve(r, loras, catalog) == Ok(r) {
        var added := Added(r, loras, catalog);
        ResolvedPromptIsFaithful(r, loras, catalog);
        CommaWordsAreAdded(r, loras, catalog, w);
        CommaMakesTwo(Strip(w));
        ManyTokens(added, Strip(w));
      }
    } else {
      CommaFreeResolvesToItself(prompt, loras, catalog, |loras|);
      assert loras[..|loras|] == loras;
    }
  }
}
