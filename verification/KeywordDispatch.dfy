/** Which command of an owner a message is for: universal keywords first, then the
    longest configured phrase. */
module KeywordDispatch {
  import opened Wrappers
  import opened KeywordGrammar

  datatype Command = Command(keyword: string, aliases: seq<string>, action: string)

  datatype Match = Match(command: Command, phrase: string, argument: Option<string>)

  predicate Dispatchable(c: Command) { !IsReserved(c.keyword) && (c.action == "reply" || c.action == "dispatch") }

  function PhrasesOf(c: Command): seq<string> { [c.keyword] + c.aliases }

  /** The text after the first `n` characters, case kept; punctuation alone is no
      argument. */
  function ArgumentIn(collapsed: string, n: nat): Option<string>
    requires n <= |collapsed|
  {
    var rest := Trim(collapsed[n..]);
    if rest == "" || (forall i | 0 <= i < |rest| :: IsPunctuation(rest[i])) then None else Some(rest)
  }

  function ArgumentAfter(content: string, phrase: string): Option<string>
    requires |phrase| <= |CollapseKeywordText(content)|
  {
    ArgumentIn(CollapseKeywordText(content), |phrase|)
  }

  /** A command together with one of its phrases. */
  type Claim = (Command, string)

  predicate Claims(commands: seq<Command>, c: Command, phrase: string) {
    c in commands && Dispatchable(c) && phrase in PhrasesOf(c)
  }

  /** Of several commands that claim a phrase, the first. */
  function FirstClaimant(commands: seq<Command>, phrase: string): (c: Option<Command>)
    ensures c.Some? ==> Claims(commands, c.value, phrase)
  {
    if commands == [] then None
    else
      var init, last := commands[..|commands| - 1], commands[|commands| - 1];
      assert commands == init + [last] && last in commands;
      var first := FirstClaimant(init, phrase);
      if first.Some? then first
      else if Dispatchable(last) && phrase in PhrasesOf(last) then Some(last)
      else None
  }

  predicate ClaimedFrom(commands: seq<Command>, phrase: string, i: nat)
    requires i < |commands|
  {
    Dispatchable(commands[i]) && (phrase == commands[i].keyword || phrase in commands[i].aliases)
  }

  /** The claimant is the first in the list of those that may be dispatched to. */
  lemma {:induction false} FirstClaimantIsFirst(commands: seq<Command>, phrase: string, i: nat)
    requires i < |commands| && ClaimedFrom(commands, phrase, i)
    requires forall j | 0 <= j < i :: !ClaimedFrom(commands, phrase, j)
    ensures FirstClaimant(commands, phrase) == Some(commands[i])
  {
    var n := |commands| - 1;
    var init := commands[..n];
    if i < n {
      assert ClaimedFrom(init, phrase, i);
      forall j | 0 <= j < i ensures !ClaimedFrom(init, phrase, j) { assert !ClaimedFrom(commands, phrase, j); }
      FirstClaimantIsFirst(init, phrase, i);
    } else if FirstClaimant(init, phrase).Some? {
      var c := FirstClaimant(init, phrase).value;
      var j :| 0 <= j < n && init[j] == c;
      assert ClaimedFrom(commands, phrase, j);
    }
  }

  /** `r` is the longest claimed phrase that the message is, or starts with, and the
      first command that claims it. */
  ghost predicate Dispatches(content: string, commands: seq<Command>, r: Option<Match>) {
    var text := NormalizeKeywordText(content);
    match r
    case None => forall c, phrase | Claims(commands, c, phrase) && Matches(text, phrase) :: text == ""
    case Some(best) =>
      && text != "" && Claims(commands, best.command, best.phrase) && Matches(text, best.phrase)
      && FirstClaimant(commands, best.phrase) == Some(best.command)
      && (forall c, phrase | Claims(commands, c, phrase) && Matches(text, phrase) :: |phrase| <= |best.phrase|)
      && |best.phrase| <= |CollapseKeywordText(content)|
      && best.argument == ArgumentAfter(content, best.phrase)
  }

  lemma TextFitsCollapsed(content: string)
    ensures NormalizeKeywordText(content) <= Upper(CollapseKeywordText(content))
  {
    BasesSpaced(content);
    var k, j := StripCuts(KeywordBase(content));
  }

  // the claims in the order the loops meet them

  function Paired(c: Command, phrases: seq<string>): seq<Claim> {
    if phrases == [] then [] else Paired(c, phrases[..|phrases| - 1]) + [(c, phrases[|phrases| - 1])]
  }

  function ClaimsOf(commands: seq<Command>): seq<Claim> {
    if commands == [] then []
    else
      var last := commands[|commands| - 1];
      ClaimsOf(commands[..|commands| - 1]) + if Dispatchable(last) then Paired(last, PhrasesOf(last)) else []
  }

  lemma {:induction false} PairedHas(c: Command, phrases: seq<string>, x: Claim)
    ensures x in Paired(c, phrases) <==> x.0 == c && x.1 in phrases
  {
    if phrases != [] {
      PairedHas(c, phrases[..|phrases| - 1], x);
      assert phrases == phrases[..|phrases| - 1] + [phrases[|phrases| - 1]];
    }
  }

  lemma {:induction false} ClaimsOfHas(commands: seq<Command>, x: Claim)
    ensures x in ClaimsOf(commands) <==> Claims(commands, x.0, x.1)
  {
    if commands != [] {
      var last := commands[|commands| - 1];
      ClaimsOfHas(commands[..|commands| - 1], x);
      PairedHas(last, PhrasesOf(last), x);
      assert commands == commands[..|commands| - 1] + [last];
    }
  }

  /** The i-th claim matches, the earlier matching ones are shorter, the later no longer. */
  ghost predicate FirstLongest(text: string, claims: seq<Claim>, x: Claim, i: nat) {
    && i < |claims| && claims[i] == x && Matches(text, x.1)
    && forall j | 0 <= j < |claims| && Matches(text, claims[j].1) ::
         |claims[j].1| <= |x.1| && (j < i ==> |claims[j].1| < |x.1|)
  }

  ghost predicate IsBest(text: string, claims: seq<Claim>, r: Option<Match>) {
    match r
    case None => forall x | x in claims :: !Matches(text, x.1)
    case Some(best) => exists i :: FirstLongest(text, claims, (best.command, best.phrase), i)
  }

  lemma OneMoreClaim(text: string, claims: seq<Claim>, best: Option<Match>, x: Claim, next: Option<Match>)
    requires IsBest(text, claims, best)
    requires if Matches(text, x.1) && !(best.Some? && |best.value.phrase| >= |x.1|)
             then next.Some? && next.value.command == x.0 && next.value.phrase == x.1 else next == best
    ensures IsBest(text, claims + [x], next)
  {
    if next.Some? {
      if next == best {
        var i :| FirstLongest(text, claims, (best.value.command, best.value.phrase), i);
        assert FirstLongest(text, claims + [x], (best.value.command, best.value.phrase), i);
      } else {
        assert FirstLongest(text, claims + [x], x, |claims|);
      }
    }
  }

  lemma {:induction false} FirstClaimIsFirst(commands: seq<Command>, x: Claim, i: nat)
    requires i < |ClaimsOf(commands)| && ClaimsOf(commands)[i] == x
    requires forall j | 0 <= j < i :: ClaimsOf(commands)[j].1 != x.1
    ensures FirstClaimant(commands, x.1) == Some(x.0)
  {
    var init, last := commands[..|commands| - 1], commands[|commands| - 1];
    var claims, before := ClaimsOf(commands), ClaimsOf(init);
    var added := if Dispatchable(last) then Paired(last, PhrasesOf(last)) else [];
    assert claims == before + added;
    if i < |before| {
      forall j | 0 <= j < i ensures before[j].1 != x.1 { assert claims[j] == before[j]; }
      FirstClaimIsFirst(init, x, i);
    } else {
      forall j | 0 <= j < |before| ensures before[j].1 != x.1 { assert claims[j] == before[j]; }
      NoClaimant(init, x.1);
      assert x in added;
      PairedHas(last, PhrasesOf(last), x);
    }
  }

  lemma {:induction false} NoClaimant(commands: seq<Command>, phrase: string)
    requires forall x | x in ClaimsOf(commands) :: x.1 != phrase
    ensures FirstClaimant(commands, phrase) == None
  {
    var c := FirstClaimant(commands, phrase);
    if c.Some? { ClaimsOfHas(commands, (c.value, phrase)); }
  }

  predicate Argued(best: Option<Match>, collapsed: string) {
    best.Some? ==>
      |best.value.phrase| <= |collapsed| && best.value.argument == ArgumentIn(collapsed, |best.value.phrase|)
  }

  function Found(command: Command, phrase: string, collapsed: string): (m: Option<Match>)
    requires |phrase| <= |collapsed|
    ensures m.Some? && m.value.command == command && m.value.phrase == phrase && Argued(m, collapsed)
  {
    Some(Match(command, phrase, ArgumentIn(collapsed, |phrase|)))
  }

  /** The inner loop of the match: one command's phrases. */
  method LongestOwn(text: string, collapsed: string, command: Command, best: Option<Match>, ghost before: seq<Claim>)
    returns (better: Option<Match>)
    requires |text| <= |collapsed| && IsBest(text, before, best) && Argued(best, collapsed)
    ensures IsBest(text, before + Paired(command, PhrasesOf(command)), better) && Argued(better, collapsed)
  {
    var phrases := [command.keyword] + command.aliases;
    better := best;
    var j := 0;
    assert before + Paired(command, phrases[..0]) == before;
    while j < |phrases|
      invariant 0 <= j <= |phrases|
      invariant IsBest(text, before + Paired(command, phrases[..j]), better) && Argued(better, collapsed)
    {
      var phrase := phrases[j];
      ghost var claims, known := before + Paired(command, phrases[..j]), better;
      assert phrases[..j + 1][..j] == phrases[..j];
      assert before + Paired(command, phrases[..j + 1]) == claims + [(command, phrase)];
      if Matches(text, phrase) && !(better.Some? && |better.value.phrase| >= |phrase|) {
        better := Found(command, phrase, collapsed);
      }
      OneMoreClaim(text, claims, known, (command, phrase), better);
      j := j + 1;
    }
    assert phrases[..j] == PhrasesOf(command);
  }

  /** The outer loop, over the two forms of the message. */
  method LongestClaim(text: string, collapsed: string, commands: seq<Command>) returns (best: Option<Match>)
    requires |text| <= |collapsed|
    ensures IsBest(text, ClaimsOf(commands), best) && Argued(best, collapsed)
  {
    best := None;
    var i := 0;
    while i < |commands|
      invariant 0 <= i <= |commands|
      invariant IsBest(text, ClaimsOf(commands[..i]), best) && Argued(best, collapsed)
    {
      assert commands[..i + 1][..i] == commands[..i];
      ghost var before := ClaimsOf(commands[..i]);
      if Dispatchable(commands[i]) {
        best := LongestOwn(text, collapsed, commands[i], best, before);
      }
      assert Dispatchable(commands[i]) || ClaimsOf(commands[..i + 1]) == before;
      i := i + 1;
    }
    assert commands[..i] == commands;
  }

  method MatchKeywordCommand(content: string, commands: seq<Command>) returns (best: Option<Match>)
    ensures Dispatches(content, commands, best)
  {
    var text := NormalizeKeywordText(content);
    if text == "" { return None; }
    TextFitsCollapsed(content);
    best := LongestClaim(text, CollapseKeywordText(content), commands);
    BestDispatches(content, commands, best);
  }

  lemma {:induction false} BestDispatches(content: string, commands: seq<Command>, best: Option<Match>)
    requires IsBest(NormalizeKeywordText(content), ClaimsOf(commands), best) && NormalizeKeywordText(content) != ""
    requires Argued(best, CollapseKeywordText(content))
    ensures Dispatches(content, commands, best)
  {
    var text, claims := NormalizeKeywordText(content), ClaimsOf(commands);
    if best.Some? {
      var x := (best.value.command, best.value.phrase);
      var i :| FirstLongest(text, claims, x, i);
      ClaimsOfHas(commands, x);
      FirstClaimIsFirst(commands, x, i);
    }
    forall c, phrase | Claims(commands, c, phrase) ensures (c, phrase) in ClaimsOf(commands) {
      ClaimsOfHas(commands, (c, phrase));
    }
  }

  // ---------------------------------------------------------------- determinism

  /** No phrase is claimed by two commands. */
  ghost predicate PhraseDisjoint(commands: seq<Command>) {
    forall c, d, phrase | Claims(commands, c, phrase) && Claims(commands, d, phrase) :: c == d
  }

  /** Two phrases of one length that a text starts with are the same phrase. */
  lemma SameLengthSamePhrase(text: string, p: string, q: string)
    requires Matches(text, p) && Matches(text, q) && |p| == |q|
    ensures p == q
  {
    assert p == text[..|p|] && q == text[..|q|];
  }

  ghost predicate SameClaims(cs: seq<Command>, ds: seq<Command>) {
    forall c, phrase :: Claims(cs, c, phrase) <==> Claims(ds, c, phrase)
  }

  /** Dispatch does not depend on the order, or on repetition, of the commands. */
  lemma DispatchIsDeterministic(content: string, cs: seq<Command>, ds: seq<Command>, r: Option<Match>, s: Option<Match>)
    requires forall c :: c in cs <==> c in ds
    requires PhraseDisjoint(cs) && Dispatches(content, cs, r) && Dispatches(content, ds, s)
    ensures r == s
  {
    assert SameClaims(cs, ds);
    if r.Some? {
      assert Claims(cs, s.value.command, s.value.phrase) && Claims(ds, r.value.command, r.value.phrase);
      SameLengthSamePhrase(NormalizeKeywordText(content), r.value.phrase, s.value.phrase);
    }
  }

  // ---------------------------------------------------------------- phrase and argument

  lemma HeadIsPhrase(content: string, phrase: string)
    requires Matches(NormalizeKeywordText(content), phrase)
    ensures var collapsed := CollapseKeywordText(content);
      |phrase| <= |collapsed| && Upper(collapsed[..|phrase|]) == phrase
  {
    TextFitsCollapsed(content);
    var collapsed := CollapseKeywordText(content);
    assert phrase == Upper(collapsed)[..|phrase|];
  }

  /** What follows the phrase is nothing, punctuation, or a space and more. */
  lemma WhatFollows(content: string, phrase: string)
    requires NormalizeKeywordText(content) != "" && Matches(NormalizeKeywordText(content), phrase)
    requires |phrase| <= |CollapseKeywordText(content)|
    ensures var collapsed, n := CollapseKeywordText(content), |phrase|;
      Spaced(collapsed) && (Punctuated(collapsed, n, |collapsed|) || (n < |collapsed| && collapsed[n] == ' '))
  {
    var collapsed, base, n := CollapseKeywordText(content), KeywordBase(content), |phrase|;
    BasesSpaced(content);
    CollapseIsScan(Undash(content));
    ScanIsSpaced(Undash(content));
    var k, j := StripCuts(base);
    forall i | 0 <= i < |collapsed|
      ensures IsSpace(base[i]) <==> IsSpace(collapsed[i])
      ensures IsPunctuation(base[i]) <==> IsPunctuation(collapsed[i])
    {
      UpperKinds(collapsed[i]);
    }
    if base[..k] != phrase {
      assert base[..k][n] == ' ';
    }
  }

  lemma TailArgument(collapsed: string, n: nat)
    requires Spaced(collapsed) && n < |collapsed| && collapsed[n] == ' '
    ensures var a := collapsed[n + 1..];
      && a != "" && collapsed == collapsed[..n] + " " + a
      && match ArgumentIn(collapsed, n)
         case Some(b) => b == a
         case None => Punctuated(collapsed, n + 1, |collapsed|)
  {
    var a := collapsed[n + 1..];
    assert IsSpace(collapsed[n]) && !IsSpace(collapsed[n + 1]);
    assert a[0] == collapsed[n + 1] && a[|a| - 1] == collapsed[|collapsed| - 1];
    assert collapsed[n..][1..] == a && TrimLeft(a) == a && TrimRight(a) == a;
    assert Trim(collapsed[n..]) == a;
    if ArgumentIn(collapsed, n) == None {
      forall i | n + 1 <= i < |collapsed| ensures IsPunctuation(collapsed[i]) {
        assert IsPunctuation(a[i - n - 1]);
      }
    }
  }

  lemma PunctuationHasNoArgument(collapsed: string, n: nat)
    requires n <= |collapsed| && Punctuated(collapsed, n, |collapsed|)
    ensures ArgumentIn(collapsed, n) == None
  {
  }

  /** Phrase and argument give the collapsed message back, case aside; without an
      argument all that follows the phrase is punctuation. */
  lemma PhraseAndArgumentReconstruct(content: string, phrase: string)
    requires NormalizeKeywordText(content) != "" && Matches(NormalizeKeywordText(content), phrase)
    ensures var collapsed, n := CollapseKeywordText(content), |phrase|;
      && n <= |collapsed| && Upper(collapsed[..n]) == phrase
      && match ArgumentAfter(content, phrase)
         case Some(a) => a != "" && collapsed == collapsed[..n] + " " + a
         case None =>
           || Punctuated(collapsed, n, |collapsed|)
           || (collapsed[n] == ' ' && Punctuated(collapsed, n + 1, |collapsed|))
  {
    HeadIsPhrase(content, phrase);
    WhatFollows(content, phrase);
    var collapsed, n := CollapseKeywordText(content), |phrase|;
    if Punctuated(collapsed, n, |collapsed|) {
      PunctuationHasNoArgument(collapsed, n);
    } else {
      TailArgument(collapsed, n);
    }
  }

  // ---------------------------------------------------------------- what a message means to an owner

  datatype Meaning = Universal(universal: UniversalClass) | Configured(best: Match) | NotAKeyword

  /** Universal keywords first: no configuration can shadow them. */
  method Understand(content: string, commands: seq<Command>) returns (m: Meaning)
    ensures ClassifyUniversalKeyword(content).Some? ==> m == Universal(ClassifyUniversalKeyword(content).value)
    ensures ClassifyUniversalKeyword(content) == None ==>
      && !m.Universal?
      && Dispatches(content, commands, if m.Configured? then Some(m.best) else None)
    ensures var t := NormalizeUniversalText(content);
      && (m == Universal(Stop) <==> OpensWithOptOut(t)) && (m == Universal(Join) <==> OpensWithOptIn(t))
      && (m == Universal(Help) <==> OpensWithHelp(t)) && (m == Universal(Yes) <==> t == "YES" || t == "Y")
      && (m == Universal(No) <==> t == "NO" || t == "N")
    ensures m.Configured? ==>
      var c := m.best.command;
      && c in commands && c.keyword !in ["STOP", "START", "HELP", "YES", "NO"] && c.action in ["reply", "dispatch"]
      && (m.best.phrase == c.keyword || m.best.phrase in c.aliases)
  {
    ClassIsByWord(content);
    var universal := ClassifyUniversalKeyword(content);
    if universal.Some? { return Universal(universal.value); }
    var best := MatchKeywordCommand(content, commands);
    return if best.Some? then Configured(best.value) else NotAKeyword;
  }

  /** A message that normalises to a stored phrase means the command that phrase
      belongs to, with that phrase: it is neither taken for a universal keyword nor
      for a shorter phrase. */
  lemma StoredPhraseReachesItsCommand(content: string, commands: seq<Command>, c: Command, phrase: string,
      r: Option<Match>)
    requires ValidPhrase(phrase) && ClassifyUniversalKeyword(phrase) == None
    requires NormalizeKeywordText(content) == phrase && Claims(commands, c, phrase)
    requires Dispatches(content, commands, r)
    ensures ClassifyUniversalKeyword(content) == None
    ensures r.Some? && r.value.phrase == phrase
    ensures PhraseDisjoint(commands) ==> r.value.command == c
  {
    StoredPhraseIsReachable(phrase, content);
    assert Matches(phrase, phrase);
  }
}
