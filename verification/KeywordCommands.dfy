/** Configured keyword commands: what may be stored. */
module KeywordCommands {
  import opened Wrappers
  import opened KeywordGrammar

  datatype Input = Input(
    keyword: string, action: string, aliases: Option<seq<string>>, responseText: Option<string>,
    helpText: Option<string>, workflowId: Option<string>, enabled: Option<bool>)

  datatype Definition = Definition(
    keyword: string, action: string, aliases: seq<string>, responseText: Option<string>,
    helpText: Option<string>, workflowId: Option<string>, enabled: bool)

  datatype Verdict = Accepted(definition: Definition) | Refused(field: string)

  const MAX_ALIASES := 10
  const MAX_RESPONSE_LENGTH := 480
  const MAX_HELP_TEXT_LENGTH := 80
  const MAX_WORKFLOW_ID_LENGTH := 100

  // ---------------------------------------------------------------- the parts of a definition

  /** An optional text is trimmed, and absent when nothing is left. */
  function Text(value: Option<string>): Option<string> {
    if value == None || Trim(value.value) == "" then None else Some(Trim(value.value))
  }

  predicate Fits(text: Option<string>, max: nat) { text.Some? ==> |text.value| <= max }

  predicate IsAlphanumeric(c: char) { 'A' <= c <= 'Z' || 'a' <= c <= 'z' || '0' <= c <= '9' }

  predicate IsWordChar(c: char) { IsAlphanumeric(c) || c == '_' }

  predicate IsWorkflowId(s: string) {
    && 1 <= |s| <= 100 && IsAlphanumeric(s[0])
    && forall i | 0 < i < |s| :: IsAlphanumeric(s[i]) || s[i] in ['.', '_', ':', '-']
  }

  predicate MentionsAt(text: string, word: string, i: nat)
    requires i + |word| <= |text|
  {
    && Upper(text[i..i + |word|]) == word
    && (i == 0 || !IsWordChar(text[i - 1]))
    && (i + |word| == |text| || !IsWordChar(text[i + |word|]))
  }

  /** The text contains the word, in any case, between word boundaries. */
  predicate Mentions(text: string, word: string) {
    exists i: nat | i + |word| <= |text| :: MentionsAt(text, word, i)
  }

  function Normalized(aliases: seq<string>): (r: seq<string>)
    ensures |r| == |aliases| && forall i | 0 <= i < |r| :: r[i] == NormalizeKeywordText(aliases[i])
  {
    if aliases == [] then [] else [NormalizeKeywordText(aliases[0])] + Normalized(aliases[1..])
  }

  /** The distinct elements other than `except`, in order of first occurrence. */
  function DistinctExcept(s: seq<string>, except: seq<string>): (r: seq<string>)
    ensures forall x :: x in r <==> x in s && x !in except
    ensures forall i, j | 0 <= i < j < |r| :: r[i] != r[j]
    decreases |s|
  {
    if s == [] then []
    else if s[0] in except then DistinctExcept(s[1..], except)
    else
      var tail := DistinctExcept(s[1..], except + [s[0]]);
      assert s[0] !in tail;
      [s[0]] + tail
  }

  function AliasesOf(input: Input): seq<string> {
    if input.aliases == None then []
    else DistinctExcept(Normalized(input.aliases.value), [NormalizeKeywordText(input.keyword)])
  }

  function IsEnabled(input: Input): bool { input.enabled == None || input.enabled.value }

  function Canonical(input: Input): Definition {
    Definition(NormalizeKeywordText(input.keyword), input.action, AliasesOf(input), Text(input.responseText),
               Text(input.helpText), Text(input.workflowId), IsEnabled(input))
  }

  function Phrases(d: Definition): seq<string> { [d.keyword] + d.aliases }

  // ---------------------------------------------------------------- what is acceptable

  predicate WellShaped(d: Definition) {
    && ValidPhrase(d.keyword) && (forall i | 0 <= i < |d.aliases| :: ValidPhrase(d.aliases[i]))
    && (d.action == "reply" || d.action == "dispatch")
    && Fits(d.responseText, MAX_RESPONSE_LENGTH) && Fits(d.helpText, MAX_HELP_TEXT_LENGTH)
    && Fits(d.workflowId, MAX_WORKFLOW_ID_LENGTH) && (d.workflowId.Some? ==> IsWorkflowId(d.workflowId.value))
  }

  /** A compliance keyword may only have its reply reworded, and the wording must
      keep telling the customer the way out, or back in. */
  predicate RewordsReply(d: Definition) {
    && d.action == "reply" && d.enabled && d.aliases == [] && d.workflowId == None && d.helpText == None
    && d.responseText.Some?
    && (d.keyword == "HELP" ==> Mentions(d.responseText.value, "STOP"))
    && (d.keyword == "STOP" ==> Mentions(d.responseText.value, "START") || Mentions(d.responseText.value, "JOIN"))
  }

  /** Any other command must not be swallowed by a universal keyword. */
  predicate IsOwnCommand(d: Definition) {
    && (forall i | 0 <= i < |Phrases(d)| :: ClassifyUniversalKeyword(Phrases(d)[i]) == None)
    && (d.action == "reply" ==> (d.enabled ==> d.responseText.Some?) && d.workflowId == None)
  }

  predicate Acceptable(input: Input) {
    var d := Canonical(input);
    && (input.aliases.Some? ==> |input.aliases.value| <= MAX_ALIASES)
    && WellShaped(d)
    && if IsReserved(d.keyword) then RewordsReply(d) else IsOwnCommand(d)
  }

  /** The first phrase of a kind. */
  method FirstOf(phrases: seq<string>, kind: string -> bool) returns (at: Option<nat>)
    ensures at == None <==> forall i | 0 <= i < |phrases| :: !kind(phrases[i])
    ensures at.Some? ==> at.value < |phrases| && kind(phrases[at.value])
  {
    var i := 0;
    while i < |phrases|
      invariant 0 <= i <= |phrases|
      invariant forall j | 0 <= j < i :: !kind(phrases[j])
    {
      if kind(phrases[i]) { return Some(i); }
      i := i + 1;
    }
    return None;
  }

  method CheckReserved(d: Definition) returns (fault: Option<string>)
    ensures fault == None <==> RewordsReply(d)
  {
    if d.action != "reply" { return Some("action"); }
    if d.workflowId.Some? { return Some("workflowId"); }
    if |d.aliases| > 0 { return Some("aliases"); }
    if d.helpText.Some? { return Some("helpText"); }
    if d.enabled && d.responseText == None { return Some("responseText"); }
    if !d.enabled { return Some("enabled"); }
    if d.keyword == "HELP" && !Mentions(d.responseText.value, "STOP") { return Some("responseText"); }
    if d.keyword == "STOP" && !(Mentions(d.responseText.value, "START") || Mentions(d.responseText.value, "JOIN")) {
      return Some("responseText");
    }
    return None;
  }

  method CheckOwn(d: Definition) returns (fault: Option<string>)
    ensures fault == None <==> IsOwnCommand(d)
  {
    var candidates := Phrases(d);
    var swallowed := FirstOf(candidates, p => ClassifyUniversalKeyword(p).Some?);
    if swallowed.Some? { return Some(if candidates[swallowed.value] == d.keyword then "keyword" else "aliases"); }
    if d.action == "reply" && d.enabled && d.responseText == None { return Some("responseText"); }
    if d.action == "reply" && d.workflowId.Some? { return Some("workflowId"); }
    return None;
  }

  method ValidateKeywordCommand(input: Input) returns (v: Verdict)
    ensures v.Accepted? <==> Acceptable(input)
    ensures v.Accepted? ==> v.definition == Canonical(input)
  {
    var keyword := NormalizeKeywordText(input.keyword);
    if !ValidPhrase(keyword) { return Refused("keyword"); }
    if input.action != "reply" && input.action != "dispatch" { return Refused("action"); }
    var enabled := input.enabled == None || input.enabled.value;
    var responseText := Text(input.responseText);
    if !Fits(responseText, MAX_RESPONSE_LENGTH) { return Refused("responseText"); }
    var helpText := Text(input.helpText);
    if !Fits(helpText, MAX_HELP_TEXT_LENGTH) { return Refused("helpText"); }
    var workflowId := Text(input.workflowId);
    if !Fits(workflowId, MAX_WORKFLOW_ID_LENGTH) { return Refused("workflowId"); }
    if workflowId.Some? && !IsWorkflowId(workflowId.value) { return Refused("workflowId"); }
    var aliases: seq<string> := [];
    if input.aliases.Some? {
      if |input.aliases.value| > MAX_ALIASES { return Refused("aliases"); }
      aliases := DistinctExcept(Normalized(input.aliases.value), [keyword]);
      var malformed := FirstOf(aliases, p => !ValidPhrase(p));
      if malformed.Some? { return Refused("aliases"); }
    }
    var d := Definition(keyword, input.action, aliases, responseText, helpText, workflowId, enabled);
    var fault;
    if IsReserved(keyword) { fault := CheckReserved(d); } else { fault := CheckOwn(d); }
    return if fault.Some? then Refused(fault.value) else Accepted(d);
  }

  // ---------------------------------------------------------------- what acceptance guarantees

  lemma TextTwice(value: Option<string>)
    ensures Text(Text(value)) == Text(value)
  {
    if value.Some? { TrimTwice(value.value); }
  }

  lemma {:induction false} DistinctAlready(s: seq<string>, except: seq<string>)
    requires (forall i, j | 0 <= i < j < |s| :: s[i] != s[j]) && (forall i | 0 <= i < |s| :: s[i] !in except)
    ensures DistinctExcept(s, except) == s
    decreases |s|
  {
    if s != [] { DistinctAlready(s[1..], except + [s[0]]); }
  }

  /** The definition as an input again. */
  function Resubmitted(d: Definition): Input {
    Input(d.keyword, d.action, Some(d.aliases), d.responseText, d.helpText, d.workflowId, Some(d.enabled))
  }

  /** What is stored is in normal form: submitting it again is accepted and stores
      the same definition. */
  lemma ValidationIsIdempotent(input: Input)
    requires Acceptable(input)
    ensures Canonical(Resubmitted(Canonical(input))) == Canonical(input)
    ensures Acceptable(Resubmitted(Canonical(input)))
  {
    var d := Canonical(input);
    PhraseIsFixpoint(d.keyword);
    forall i | 0 <= i < |d.aliases| ensures NormalizeKeywordText(d.aliases[i]) == d.aliases[i] {
      PhraseIsFixpoint(d.aliases[i]);
    }
    assert Normalized(d.aliases) == d.aliases;
    DistinctAlready(d.aliases, [d.keyword]);
    TextTwice(input.responseText);
    TextTwice(input.helpText);
    TextTwice(input.workflowId);
    if input.aliases.Some? { DistinctIsShorter(Normalized(input.aliases.value), [d.keyword]); }
  }

  lemma {:induction false} DistinctIsShorter(s: seq<string>, except: seq<string>)
    ensures |DistinctExcept(s, except)| <= |s|
    decreases |s|
  {
    if s != [] {
      DistinctIsShorter(s[1..], except);
      DistinctIsShorter(s[1..], except + [s[0]]);
    }
  }

  // ---------------------------------------------------------------- what a stored command may be

  predicate JoinsWord(c: char) { '0' <= c <= '9' || 'A' <= c <= 'Z' || 'a' <= c <= 'z' || c == '_' }

  predicate SaysAt(text: string, word: string, i: nat)
    requires i + |word| <= |text|
  {
    && SameLetters(text[i..i + |word|], word)
    && (i > 0 ==> !JoinsWord(text[i - 1]))
    && (i + |word| < |text| ==> !JoinsWord(text[i + |word|]))
  }

  /** The word stands in the text by itself, in upper or lower case. */
  ghost predicate Says(text: string, word: string) {
    exists i: nat | i + |word| <= |text| :: SaysAt(text, word, i)
  }

  predicate IsCapitals(word: string) { forall i | 0 <= i < |word| :: 'A' <= word[i] <= 'Z' }

  lemma {:induction false} UpperLetters(typed: string, word: string)
    requires IsCapitals(word)
    ensures Upper(typed) == word <==> SameLetters(typed, word)
  {
    if Upper(typed) == word {
      forall i | 0 <= i < |word|
        ensures typed[i] == word[i] || ('A' <= word[i] <= 'Z' && typed[i] as int == word[i] as int + 32)
      {
        assert UpperChar(typed[i]) == word[i];
      }
    }
  }

  lemma MentionsIsSays(text: string, word: string)
    requires IsCapitals(word)
    ensures Mentions(text, word) <==> Says(text, word)
  {
    forall i: nat | i + |word| <= |text| ensures MentionsAt(text, word, i) <==> SaysAt(text, word, i) {
      UpperLetters(text[i..i + |word|], word);
    }
  }

  /** A letter or digit first, then letters, digits and . _ : - up to a hundred. */
  predicate IsIdentifier(s: string) {
    && 1 <= |s| <= 100
    && (forall i | 0 <= i < |s| ::
          '0' <= s[i] <= '9' || 'A' <= s[i] <= 'Z' || 'a' <= s[i] <= 'z' || (i > 0 && s[i] in ['.', '_', ':', '-']))
  }

  lemma WorkflowIds(s: string)
    ensures IsWorkflowId(s) <==> IsIdentifier(s)
  {
  }

  predicate AtMost(text: Option<string>, max: nat) { text == None || |text.value| <= max }

  /** The shape of what may be stored, spelled out. */
  predicate IsShaped(d: Definition) {
    && WordsAndSpaces(d.keyword) && (forall a | a in d.aliases :: WordsAndSpaces(a))
    && d.action in ["reply", "dispatch"]
    && AtMost(d.responseText, 480) && AtMost(d.helpText, 80)
    && (d.workflowId.Some? ==> IsIdentifier(d.workflowId.value))
  }

  lemma ShapesAgree(d: Definition)
    ensures WellShaped(d) <==> IsShaped(d)
  {
    forall p: string ensures ValidPhrase(p) <==> WordsAndSpaces(p) { PhrasesAreWords(p); }
    if d.workflowId.Some? { WorkflowIds(d.workflowId.value); }
  }

  predicate IsPlatformWord(phrase: string) {
    OpensWithOptOut(phrase) || OpensWithOptIn(phrase) || OpensWithHelp(phrase) || IsAnswer(phrase)
  }

  lemma OwnPhrases(phrase: string)
    requires WordsAndSpaces(phrase)
    ensures ClassifyUniversalKeyword(phrase) == None <==> !IsPlatformWord(phrase)
  {
    PhrasesAreWords(phrase);
    PhraseIsFixpoint(phrase);
    ClassIsByWord(phrase);
    var k := ClassifyUniversalKeyword(phrase);
    assert k == None || k.value in {Stop, Help, Yes, No, Join};
  }

  lemma OwnCommands(d: Definition)
    requires IsShaped(d)
    ensures IsOwnCommand(d) <==>
      && !IsPlatformWord(d.keyword) && (forall a | a in d.aliases :: !IsPlatformWord(a))
      && (d.action == "reply" ==> d.workflowId == None && (d.enabled ==> d.responseText.Some?))
  {
    OwnPhrases(d.keyword);
    forall a | a in d.aliases ensures ClassifyUniversalKeyword(a) == None <==> !IsPlatformWord(a) { OwnPhrases(a); }
    assert forall p :: p in Phrases(d) <==> p == d.keyword || p in d.aliases;
    assert (forall i | 0 <= i < |Phrases(d)| :: ClassifyUniversalKeyword(Phrases(d)[i]) == None) <==>
      forall p | p in Phrases(d) :: ClassifyUniversalKeyword(p) == None;
  }

  /** What is accepted, exactly, for a command that is not a compliance keyword: no
      phrase of it may open with a word the platform itself answers to. */
  lemma AcceptedExactly(input: Input)
    requires Canonical(input).keyword !in ["STOP", "START", "HELP", "YES", "NO"]
    ensures Acceptable(input) <==>
      var d := Canonical(input);
      && (input.aliases.Some? ==> |input.aliases.value| <= 10) && IsShaped(d)
      && !IsPlatformWord(d.keyword) && (forall a | a in d.aliases :: !IsPlatformWord(a))
      && (d.action == "reply" ==> d.workflowId == None && (d.enabled ==> d.responseText.Some?))
  {
    ShapesAgree(Canonical(input));
    if IsShaped(Canonical(input)) { OwnCommands(Canonical(input)); }
  }

  lemma Rewordings(d: Definition)
    ensures RewordsReply(d) <==>
      && d.action == "reply" && d.enabled && d.aliases == [] && d.workflowId == None && d.helpText == None
      && d.responseText.Some?
      && (d.keyword == "HELP" ==> Says(d.responseText.value, "STOP"))
      && (d.keyword == "STOP" ==> Says(d.responseText.value, "START") || Says(d.responseText.value, "JOIN"))
  {
    if d.responseText.Some? {
      MentionsIsSays(d.responseText.value, "STOP");
      MentionsIsSays(d.responseText.value, "START");
      MentionsIsSays(d.responseText.value, "JOIN");
    }
  }

  /** A compliance keyword may only be reworded, and the wording of HELP still tells the
      way out, that of STOP the way back. */
  lemma RewordingAcceptedExactly(input: Input)
    requires Canonical(input).keyword in ["STOP", "START", "HELP", "YES", "NO"]
    ensures Acceptable(input) <==>
      var d := Canonical(input);
      && (input.aliases.Some? ==> |input.aliases.value| <= 10) && IsShaped(d)
      && d.action == "reply" && d.enabled && d.aliases == [] && d.workflowId == None && d.helpText == None
      && d.responseText.Some?
      && (d.keyword == "HELP" ==> Says(d.responseText.value, "STOP"))
      && (d.keyword == "STOP" ==> Says(d.responseText.value, "START") || Says(d.responseText.value, "JOIN"))
  {
    ShapesAgree(Canonical(input));
    Rewordings(Canonical(input));
  }

  /** A text of a definition is stored without the white space around it, and not at
      all when there is nothing else. */
  lemma TextIsTrimmed(value: string) returns (a: nat, b: nat)
    ensures a <= b <= |value| && Blank(value, 0, a) && Blank(value, b, |value|)
    ensures a < b ==> !IsSpace(value[a]) && !IsSpace(value[b - 1])
    ensures Text(Some(value)) == if a == b then None else Some(value[a..b])
  {
    a, b := TrimIsMiddle(value);
  }
}
