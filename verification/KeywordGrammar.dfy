/** The keyword grammar: two normal forms of a message, the universal keywords, and
    what may be stored as a configured command. Text is ASCII. */
module KeywordGrammar {
  import opened Wrappers

  const RESERVED_NAMES := ["STOP", "START", "HELP", "YES", "NO"]

  predicate IsReserved(keyword: string) { keyword in RESERVED_NAMES }

  predicate IsSpace(c: char) { c in [' ', '\t', '\n', '\r', 11 as char, 12 as char] }

  predicate IsDash(c: char) { c == '-' || c == '_' }

  predicate IsPunctuation(c: char) { c == '?' || c == '!' || c == '.' }

  function UpperChar(c: char): char { if 'a' <= c <= 'z' then c - 'a' + 'A' else c }

  function Upper(s: string): (r: string)
    ensures |r| == |s|
    ensures forall i | 0 <= i < |s| :: r[i] == UpperChar(s[i])
  {
    if s == [] then [] else [UpperChar(s[0])] + Upper(s[1..])
  }

  /** Hyphens and underscores read as spaces. */
  function Undash(s: string): (r: string)
    ensures |r| == |s|
    ensures forall i | 0 <= i < |s| :: r[i] == if IsDash(s[i]) then ' ' else s[i]
  {
    if s == [] then [] else [if IsDash(s[0]) then ' ' else s[0]] + Undash(s[1..])
  }

  /** replace(/\s+/g, ' '): every run of white space becomes one space. */
  function SqueezeRuns(s: string): string {
    if s == [] then []
    else if !IsSpace(s[0]) then [s[0]] + SqueezeRuns(s[1..])
    else if |s| > 1 && IsSpace(s[1]) then SqueezeRuns(s[1..])
    else [' '] + SqueezeRuns(s[1..])
  }

  function TrimLeft(s: string): string { if s != [] && IsSpace(s[0]) then TrimLeft(s[1..]) else s }

  function TrimRight(s: string): string
    decreases |s|
  {
    if s != [] && IsSpace(s[|s| - 1]) then TrimRight(s[..|s| - 1]) else s
  }

  function Trim(s: string): string { TrimRight(TrimLeft(s)) }

  function DropTrailingPunctuation(s: string): string
    decreases |s|
  {
    if s != [] && IsPunctuation(s[|s| - 1]) then DropTrailingPunctuation(s[..|s| - 1]) else s
  }

  function StripTrailingPunctuation(text: string): string {
    var stripped := Trim(DropTrailingPunctuation(text));
    if stripped == "" then text else stripped
  }

  function CollapseKeywordText(content: string): string { Trim(SqueezeRuns(Undash(content))) }

  function NormalizeKeywordText(content: string): string {
    StripTrailingPunctuation(Upper(CollapseKeywordText(content)))
  }

  /** The universal keywords' form: no hyphen mapping. */
  function NormalizeUniversalText(content: string): string {
    StripTrailingPunctuation(Upper(Trim(SqueezeRuns(content))))
  }

  // ---------------------------------------------------------------- universal keywords

  datatype UniversalClass = Stop | Help | Yes | No | Join

  const STOP_PATTERNS := ["STOP", "UNSUBSCRIBE", "CANCEL", "QUIT", "OPT OUT", "OPTOUT", "END", "STOPALL", "REVOKE"]
  const HELP_PATTERNS := ["HELP", "ASSIST", "SUPPORT", "INFO", "?"]
  const JOIN_PATTERNS := ["JOIN", "START", "SUBSCRIBE", "OPTIN", "OPT IN", "RESUBSCRIBE", "UNSTOP"]

  predicate Matches(text: string, pattern: string) { text == pattern || pattern + " " <= text }

  predicate MatchesSome(text: string, patterns: seq<string>) { exists p | p in patterns :: Matches(text, p) }

  function ClassOf(text: string): Option<UniversalClass> {
    if text == "" then None
    else if MatchesSome(text, STOP_PATTERNS) then Some(Stop)
    else if MatchesSome(text, HELP_PATTERNS) then Some(Help)
    else if text == "YES" || text == "Y" then Some(Yes)
    else if text == "NO" || text == "N" then Some(No)
    else if MatchesSome(text, JOIN_PATTERNS) then Some(Join)
    else None
  }

  function ClassifyUniversalKeyword(content: string): Option<UniversalClass> {
    ClassOf(NormalizeUniversalText(content))
  }

  // ---------------------------------------------------------------- collapsing, as a scan

  /** What collapsing emits for the rest of a text: `started` once something was
      emitted, `pending` when white space was met since. */
  function Scan(s: string, started: bool, pending: bool): string {
    if s == [] then []
    else if IsSpace(s[0]) then Scan(s[1..], started, started)
    else (if pending then " " else "") + [s[0]] + Scan(s[1..], true, false)
  }

  lemma {:induction false} SqueezeIsScan(s: string)
    ensures TrimRight(SqueezeRuns(s)) == Scan(s, true, false)
  {
    if s != [] {
      SqueezeIsScan(s[1..]);
      TrimRightPrepend(if IsSpace(s[0]) then ' ' else s[0], SqueezeRuns(s[1..]));
    }
  }

  lemma {:induction false} TrimRightPrepend(c: char, s: string)
    ensures TrimRight([c] + s) == if TrimRight(s) == "" && IsSpace(c) then "" else [c] + TrimRight(s)
    decreases |s|
  {
    if s == [] {
      assert [c] + s == [c];
      assert [c][..0] == "";
    } else if IsSpace(s[|s| - 1]) {
      assert ([c] + s)[..|s|] == [c] + s[..|s| - 1];
      TrimRightPrepend(c, s[..|s| - 1]);
    }
  }

  lemma {:induction false} LeadingSpace(s: string)
    ensures TrimLeft(SqueezeRuns(s)) == SqueezeRuns(TrimLeft(s))
    ensures Scan(s, false, false) == Scan(TrimLeft(s), true, false)
  {
    if s != [] && IsSpace(s[0]) {
      LeadingSpace(s[1..]);
      if !(|s| > 1 && IsSpace(s[1])) { assert SqueezeRuns(s)[1..] == SqueezeRuns(s[1..]); }
    }
  }

  /** Squeezing and trimming is one scan of the text. */
  lemma {:induction false} CollapseIsScan(s: string)
    ensures Trim(SqueezeRuns(s)) == Scan(s, false, false)
  {
    LeadingSpace(s);
    SqueezeIsScan(TrimLeft(s));
  }

  /** One step of the scan. */
  lemma {:induction false} ScanCons(c: char, rest: string, started: bool, pending: bool)
    ensures Scan([c] + rest, started, pending) ==
      if IsSpace(c) then Scan(rest, started, started)
      else (if pending then " " else "") + [c] + Scan(rest, true, false)
  {
  }

  lemma {:induction false} UpperConcat(a: string, b: string)
    ensures Upper(a + b) == Upper(a) + Upper(b)
  {
  }

  lemma {:induction false} ScanUpper(s: string, started: bool, pending: bool)
    ensures Scan(Upper(s), started, pending) == Upper(Scan(s, started, pending))
  {
    if s != [] {
      ScanCons(UpperChar(s[0]), Upper(s[1..]), started, pending);
      if IsSpace(s[0]) {
        ScanUpper(s[1..], started, started);
      } else {
        ScanUpper(s[1..], true, false);
        var lead := if pending then " " else "";
        UpperConcat(lead + [s[0]], Scan(s[1..], true, false));
        assert Upper(lead + [s[0]]) == lead + [UpperChar(s[0])];
      }
    }
  }

  /** Scanning once before the dashes go does not change the scan after. */
  lemma {:induction false} ScanTwice(s: string, a: bool, p: bool, b: bool, q: bool)
    requires (b ==> a) && (p ==> a) && (q ==> b)
    ensures Scan(Undash(Scan(s, a, p)), b, q) == Scan(Undash(s), b, q || (p && b))
  {
    if s != [] {
      var c := if IsDash(s[0]) then ' ' else s[0];
      ScanCons(c, Undash(s[1..]), b, q || (p && b));
      if IsSpace(s[0]) {
        ScanTwice(s[1..], a, a, b, q);
      } else {
        var rest := Scan(s[1..], true, false);
        ScanTwice(s[1..], true, false, IsSpace(c) ==> b, IsSpace(c) && b);
        ScanEmitted(s[0], rest, p, b, q);
      }
    }
  }

  /** The second scan meets what the first emitted for a character. */
  lemma ScanEmitted(x: char, rest: string, p: bool, b: bool, q: bool)
    requires !IsSpace(x) && (q ==> b)
    ensures var c := if IsDash(x) then ' ' else x;
      Scan(Undash((if p then " " else "") + [x] + rest), b, q) == Scan([c] + Undash(rest), b, q || (p && b))
  {
  }

  lemma {:induction false} ScanAppend(x: string, t: string, started: bool, pending: bool)
    requires x != [] && !IsSpace(x[|x| - 1])
    ensures Scan(x + t, started, pending) == Scan(x, started, pending) + Scan(t, true, false)
  {
    assert (x + t)[1..] == x[1..] + t;
    if |x| > 1 {
      if IsSpace(x[0]) { ScanAppend(x[1..], t, started, started); } else { ScanAppend(x[1..], t, true, false); }
    }
  }

  // ---------------------------------------------------------------- stripping

  predicate Punctuated(s: string, from: nat, to: nat)
    requires to <= |s|
  {
    forall i | from <= i < to :: IsPunctuation(s[i])
  }

  predicate Blank(s: string, from: nat, to: nat)
    requires to <= |s|
  {
    forall i | from <= i < to :: IsSpace(s[i])
  }

  /** Words divided by single spaces. */
  ghost predicate Spaced(t: string) {
    && (t != "" ==> !IsSpace(t[0]) && !IsSpace(t[|t| - 1]))
    && (forall i | 0 <= i < |t| && IsSpace(t[i]) :: t[i] == ' ')
    && (forall i | 0 <= i < |t| - 1 && IsSpace(t[i]) :: !IsSpace(t[i + 1]))
  }

  lemma {:induction false} DropCuts(s: string) returns (j: nat)
    ensures j <= |s| && DropTrailingPunctuation(s) == s[..j] && Punctuated(s, j, |s|)
    ensures j > 0 ==> !IsPunctuation(s[j - 1])
    decreases |s|
  {
    if s != [] && IsPunctuation(s[|s| - 1]) {
      j := DropCuts(s[..|s| - 1]);
    } else {
      j := |s|;
    }
  }

  lemma {:induction false} TrimCuts(s: string) returns (k: nat)
    ensures k <= |s| && TrimRight(s) == s[..k] && Blank(s, k, |s|)
    ensures k > 0 ==> !IsSpace(s[k - 1])
    decreases |s|
  {
    if s != [] && IsSpace(s[|s| - 1]) {
      k := TrimCuts(s[..|s| - 1]);
    } else {
      k := |s|;
    }
  }

  lemma {:induction false} TrimLeftTwice(s: string)
    ensures TrimLeft(TrimLeft(s)) == TrimLeft(s)
  {
    if s != [] && IsSpace(s[0]) { TrimLeftTwice(s[1..]); }
  }

  lemma TrimTwice(s: string)
    ensures Trim(Trim(s)) == Trim(s)
  {
    var l := TrimLeft(s);
    TrimLeftTwice(s);
    var k := TrimCuts(l);
    var t := l[..k];
    if k > 0 {
      TrimLeftStops(s);
      assert t[0] == l[0] && TrimLeft(t) == t;
      assert t[|t| - 1] == l[k - 1] && TrimRight(t) == t;
    }
  }

  lemma {:induction false} TrimLeftStops(s: string)
    ensures TrimLeft(s) != "" ==> !IsSpace(TrimLeft(s)[0])
  {
    if s != [] && IsSpace(s[0]) { TrimLeftStops(s[1..]); }
  }

  /** Trimming leaves the middle, between the first and the last character that is no space. */
  lemma {:induction false} TrimIsMiddle(s: string) returns (a: nat, b: nat)
    ensures a <= b <= |s| && Trim(s) == s[a..b] && Blank(s, 0, a) && Blank(s, b, |s|)
    ensures a < b ==> !IsSpace(s[a]) && !IsSpace(s[b - 1])
    decreases |s|
  {
    if s != "" && IsSpace(s[0]) {
      a, b := TrimIsMiddle(s[1..]);
      assert s[1..][a..b] == s[a + 1..b + 1];
      assert Blank(s, b + 1, |s|) by {
        forall i | b + 1 <= i < |s| ensures IsSpace(s[i]) { assert s[i] == s[1..][i - 1]; }
      }
      assert Blank(s, 0, a + 1) by {
        forall i | 0 <= i < a + 1 ensures IsSpace(s[i]) { assert i > 0 ==> s[i] == s[1..][i - 1]; }
      }
      a, b := a + 1, b + 1;
    } else {
      a := 0;
      b := TrimCuts(s);
    }
  }

  /** Where stripping cuts a text: white space from `k`, punctuation from `j`; a text
      of punctuation alone is left as it is. */
  predicate CutAt(t: string, k: nat, j: nat) {
    && k <= j <= |t| && Blank(t, k, j) && Punctuated(t, j, |t|)
    && (t != "" ==> 0 < k)
    && (!Punctuated(t, 0, |t|) ==> 0 < k && !IsPunctuation(t[j - 1]) && !IsSpace(t[k - 1]))
  }

  lemma StripCuts(t: string) returns (k: nat, j: nat)
    requires Spaced(t)
    ensures CutAt(t, k, j) && StripTrailingPunctuation(t) == t[..k]
  {
    j := DropCuts(t);
    var d := t[..j];
    if d != "" {
      k := TrimCuts(d);
      assert k > 0 by { assert !IsSpace(d[0]); }
      assert t[..k] == d[..k];
    } else {
      k, j := |t|, |t|;
      assert t[..k] == t;
    }
  }

  predicate IsPhraseChar(c: char) { 'A' <= c <= 'Z' || '0' <= c <= '9' }

  /** Capital letters and digits, by their ASCII codes. */
  lemma PhraseChars(c: char)
    ensures IsPhraseChar(c) <==> 65 <= c as int <= 90 || 48 <= c as int <= 57
  {
  }

  /** No dashes, and a letter or digit at the end. */
  predicate Plain(p: string) {
    p != "" && IsPhraseChar(p[|p| - 1]) && forall i | 0 <= i < |p| :: !IsDash(p[i])
  }

  /** The phrase is the whole text, or more words or punctuation alone follow it. */
  predicate Begins(t: string, p: string) {
    p <= t && (|t| == |p| || IsSpace(t[|p|]) || Punctuated(t, |p|, |t|))
  }

  /** After the phrase, at most one space and then only punctuation. */
  predicate BeginsBare(t: string, p: string) {
    p <= t && (Punctuated(t, |p|, |t|) || (|t| > |p| + 1 && IsSpace(t[|p|]) && Punctuated(t, |p| + 1, |t|)))
  }

  lemma CutSparesPhrase(t: string, p: string, k: nat, j: nat)
    requires CutAt(t, k, j) && Plain(p) && p <= t
    ensures |p| <= k && !Punctuated(t, 0, |t|) && !IsPunctuation(t[j - 1])
  {
  }

  lemma CutMatch(t: string, p: string, k: nat, j: nat)
    requires CutAt(t, k, j) && Plain(p) && Spaced(t)
    ensures Matches(t[..k], p) <==> Begins(t, p)
  {
  }

  lemma CutWhole(t: string, p: string, k: nat, j: nat)
    requires CutAt(t, k, j) && Plain(p) && Spaced(t)
    ensures t[..k] == p <==> BeginsBare(t, p)
  {
    if p <= t {
      CutSparesPhrase(t, p, k, j);
      assert t[..|p|] == p;
      assert t[..k] == p <==> k == |p|;
      assert k + 1 < |t| && IsSpace(t[k]) ==> !IsSpace(t[k + 1]);
      if BeginsBare(t, p) { assert j <= |p| + 1; }
    }
  }

  lemma {:induction false} ScanOutput(s: string, started: bool, pending: bool)
    requires pending ==> started
    ensures var r := Scan(s, started, pending);
      && (r != "" ==> !IsSpace(r[|r| - 1]) && (!started ==> !IsSpace(r[0])))
      && (forall i | 0 <= i < |r| && IsSpace(r[i]) :: r[i] == ' ')
      && (forall i | 0 <= i < |r| - 1 && IsSpace(r[i]) :: !IsSpace(r[i + 1]))
  {
    if s != [] {
      if IsSpace(s[0]) { ScanOutput(s[1..], started, started); } else { ScanOutput(s[1..], true, false); }
    }
  }

  lemma {:induction false} ScanSpaced(s: string, started: bool, pending: bool)
    requires s != "" ==> !IsSpace(s[|s| - 1]) && ((!started || pending) ==> !IsSpace(s[0]))
    requires forall i | 0 <= i < |s| && IsSpace(s[i]) :: s[i] == ' '
    requires forall i | 0 <= i < |s| - 1 && IsSpace(s[i]) :: !IsSpace(s[i + 1])
    ensures Scan(s, started, pending) == (if pending && s != "" then " " else "") + s
  {
    if s != "" {
      var rest := s[1..];
      if IsSpace(s[0]) { ScanSpaced(rest, started, started); } else { ScanSpaced(rest, true, false); }
    }
  }

  lemma {:induction false} SpacedScansToItself(t: string)
    requires Spaced(t)
    ensures Scan(t, false, false) == t
  {
    ScanSpaced(t, false, false);
  }

  lemma {:induction false} NoDashes(t: string)
    requires forall i | 0 <= i < |t| :: !IsDash(t[i])
    ensures Undash(t) == t
  {
  }

  // ---------------------------------------------------------------- the two forms of one message

  /** The two forms before the stripping both end with. */
  function UniversalBase(m: string): string { Upper(Trim(SqueezeRuns(m))) }

  function KeywordBase(m: string): string { Upper(CollapseKeywordText(m)) }

  lemma UpperKinds(c: char)
    ensures IsSpace(UpperChar(c)) <==> IsSpace(c)
    ensures IsSpace(c) || IsDash(c) ==> UpperChar(c) == c
    ensures IsDash(UpperChar(c)) <==> IsDash(c)
  {
  }

  lemma {:induction false} UpperSpaced(t: string)
    requires Spaced(t)
    ensures Spaced(Upper(t))
  {
    forall i | 0 <= i < |t| ensures IsSpace(Upper(t)[i]) <==> IsSpace(t[i]) { UpperKinds(t[i]); }
    forall i | 0 <= i < |t| && IsSpace(Upper(t)[i]) ensures Upper(t)[i] == ' ' { UpperKinds(t[i]); }
  }

  lemma {:induction false} UpperUndash(t: string)
    ensures Upper(Undash(t)) == Undash(Upper(t))
  {
  }

  lemma {:induction false} ScanIsSpaced(s: string)
    ensures Spaced(Scan(s, false, false))
  {
    ScanOutput(s, false, false);
  }

  lemma BasesSpaced(m: string)
    ensures Spaced(UniversalBase(m)) && Spaced(KeywordBase(m))
  {
    CollapseIsScan(m);
    CollapseIsScan(Undash(m));
    ScanIsSpaced(m);
    ScanIsSpaced(Undash(m));
    UpperSpaced(Scan(m, false, false));
    UpperSpaced(Scan(Undash(m), false, false));
  }

  /** The keyword form of a message is its universal form with the dashes gone and
      scanned again, up to the stripping both end with. */
  lemma KeywordFormFromUniversal(m: string)
    ensures KeywordBase(m) == Scan(Undash(UniversalBase(m)), false, false)
  {
    var x := Scan(m, false, false);
    CollapseIsScan(m);
    CollapseIsScan(Undash(m));
    ScanTwice(m, false, false, false, false);
    UpperUndash(x);
    ScanUpper(Undash(x), false, false);
  }

  /** A pending space comes out before anything else does. */
  lemma {:induction false} PendingSpace(s: string)
    ensures var r := Scan(s, true, true); r == "" || r[0] == ' '
  {
    if s != "" && IsSpace(s[0]) { PendingSpace(s[1..]); }
  }

  lemma {:induction false} UndashConcat(a: string, b: string)
    ensures Undash(a + b) == Undash(a) + Undash(b)
  {
  }

  lemma PrefixSpaced(p: string, rest: string)
    requires Spaced(p + rest) && p != "" && !IsSpace(p[|p| - 1])
    ensures Spaced(p)
  {
    var t := p + rest;
    assert forall i | 0 <= i < |p| :: t[i] == p[i];
    forall i | 0 <= i < |p| - 1 && IsSpace(p[i]) ensures !IsSpace(p[i + 1]) {
      assert IsSpace(t[i]);
      assert !IsSpace(t[i + 1]);
    }
  }

  /** After text, a leading space is pending: it comes out before the next word. */
  lemma {:induction false} SpaceStaysPending(rest: string)
    requires rest != "" && IsSpace(rest[0])
    ensures var tail := Scan(rest, true, false); tail == "" || tail[0] == ' '
  {
    PendingSpace(rest[1..]);
    assert Scan(rest, true, false) == Scan(rest[1..], true, true);
  }

  lemma {:induction false} WordsFollow(p: string, rest: string)
    requires Plain(p) && rest != "" && IsSpace(rest[0]) && Spaced(p + rest)
    ensures Begins(Scan(Undash(p + rest), false, false), p)
  {
    PhraseScansFirst(p, rest);
    SpaceStaysPending(Undash(rest));
    BeginsBeforeSpace(p, Scan(Undash(rest), true, false));
  }

  lemma {:induction false} PhraseScansFirst(p: string, rest: string)
    requires Plain(p) && Spaced(p + rest)
    ensures Scan(Undash(p + rest), false, false) == p + Scan(Undash(rest), true, false)
  {
    UndashConcat(p, rest);
    NoDashes(p);
    ScanAppend(p, Undash(rest), false, false);
    PrefixSpaced(p, rest);
    SpacedScansToItself(p);
  }

  lemma BeginsBeforeSpace(p: string, tail: string)
    requires tail == "" || tail[0] == ' '
    ensures Begins(p + tail, p)
  {
    assert (p + tail)[|p|..] == tail;
  }

  lemma {:induction false} BeginsWithoutDashes(v: string, p: string)
    requires Spaced(v) && Plain(p) && Begins(v, p)
    ensures Begins(Scan(Undash(v), false, false), p)
  {
    if |v| > |p| && IsSpace(v[|p|]) {
      assert v == p + v[|p|..];
      WordsFollow(p, v[|p|..]);
    } else {
      NoDashesIn(v, p);
    }
  }

  lemma PhraseAndPunctuationUndashed(v: string, p: string, i: nat)
    requires Plain(p) && p <= v && (BeginsBare(v, p) || Punctuated(v, |p|, |v|)) && i < |v|
    ensures !IsDash(v[i])
  {
  }

  lemma {:induction false} NoDashesIn(v: string, p: string)
    requires Spaced(v) && Plain(p) && p <= v && (BeginsBare(v, p) || Punctuated(v, |p|, |v|))
    ensures Scan(Undash(v), false, false) == v
  {
    forall i | 0 <= i < |v| ensures !IsDash(v[i]) { PhraseAndPunctuationUndashed(v, p, i); }
    NoDashes(v);
    SpacedScansToItself(v);
  }

  /** Whatever the universal form matches, the keyword form matches. */
  lemma UniversalMatchIsKeywordMatch(m: string, p: string)
    requires Plain(p)
    ensures Matches(NormalizeUniversalText(m), p) ==> Matches(NormalizeKeywordText(m), p)
    ensures NormalizeUniversalText(m) == p ==> NormalizeKeywordText(m) == p
  {
    var v, w := UniversalBase(m), KeywordBase(m);
    BasesSpaced(m);
    KeywordFormFromUniversal(m);
    var k, j := StripCuts(v);
    var k', j' := StripCuts(w);
    CutMatch(v, p, k, j);
    CutWhole(v, p, k, j);
    CutMatch(w, p, k', j');
    if Begins(v, p) { BeginsWithoutDashes(v, p); }
    if BeginsBare(v, p) { NoDashesIn(v, p); }
  }

  lemma StripKeepsFirst(t: string)
    requires Spaced(t)
    ensures (t == "") == (StripTrailingPunctuation(t) == "")
    ensures t != "" ==> StripTrailingPunctuation(t)[0] == t[0]
  {
    var k, j := StripCuts(t);
  }

  /** A question mark that opens the universal form opens the keyword form. */
  lemma QuestionStaysFirst(m: string)
    ensures "?" <= NormalizeUniversalText(m) ==> "?" <= NormalizeKeywordText(m)
  {
    var v := UniversalBase(m);
    BasesSpaced(m);
    KeywordFormFromUniversal(m);
    StripKeepsFirst(v);
    StripKeepsFirst(KeywordBase(m));
    if v != "" && v[0] == '?' {
      ScanFirst(Undash(v));
    }
  }

  lemma {:induction false} ScanFirst(s: string)
    requires s != "" && !IsSpace(s[0])
    ensures Scan(s, false, false) != "" && Scan(s, false, false)[0] == s[0]
  {
  }

  // ---------------------------------------------------------------- stored phrases

  const MAX_KEYWORD_LENGTH := 40

  /** The grammar [A-Z0-9]+( [A-Z0-9]+)*, read from the left. */
  predicate IsWords(s: string, inWord: bool) {
    if s == [] then inWord
    else if IsPhraseChar(s[0]) then IsWords(s[1..], true)
    else s[0] == ' ' && inWord && IsWords(s[1..], false)
  }

  predicate ValidPhrase(p: string) { |p| <= MAX_KEYWORD_LENGTH && IsWords(p, false) }

  lemma {:induction false} WordsShape(s: string, inWord: bool)
    requires IsWords(s, inWord)
    ensures !inWord ==> s != "" && s[0] != ' '
    ensures s != "" ==> s[|s| - 1] != ' '
    ensures forall i | 0 <= i < |s| :: IsPhraseChar(s[i]) || s[i] == ' '
    ensures forall i | 0 <= i < |s| - 1 && s[i] == ' ' :: s[i + 1] != ' '
  {
    if s != [] { WordsShape(s[1..], IsPhraseChar(s[0])); }
  }

  /** One to forty capital letters, digits and single spaces between them. */
  predicate WordsAndSpaces(p: string) {
    && 1 <= |p| <= 40 && p[0] != ' ' && p[|p| - 1] != ' '
    && (forall i | 0 <= i < |p| :: 65 <= p[i] as int <= 90 || 48 <= p[i] as int <= 57 || p[i] == ' ')
    && (forall i | 0 <= i < |p| - 1 && p[i] == ' ' :: p[i + 1] != ' ')
  }

  lemma {:induction false} ShapedIsWords(s: string, inWord: bool)
    requires if s == "" then inWord else s[|s| - 1] != ' ' && (inWord || s[0] != ' ')
    requires forall i | 0 <= i < |s| :: IsPhraseChar(s[i]) || s[i] == ' '
    requires forall i | 0 <= i < |s| - 1 && s[i] == ' ' :: s[i + 1] != ' '
    ensures IsWords(s, inWord)
  {
    if s != "" { ShapedIsWords(s[1..], IsPhraseChar(s[0])); }
  }

  lemma PhrasesAreWords(p: string)
    ensures ValidPhrase(p) <==> WordsAndSpaces(p)
  {
    if ValidPhrase(p) { WordsShape(p, false); }
    if WordsAndSpaces(p) { ShapedIsWords(p, false); }
  }

  lemma PhraseIsPlain(p: string)
    requires ValidPhrase(p)
    ensures Plain(p) && Spaced(p)
  {
    WordsShape(p, false);
  }

  lemma {:induction false} PhraseIsUpper(p: string)
    requires ValidPhrase(p)
    ensures Upper(p) == p
  {
    WordsShape(p, false);
    forall i | 0 <= i < |p| ensures UpperChar(p[i]) == p[i] {
      assert IsPhraseChar(p[i]) || p[i] == ' ';
    }
  }

  /** Stored phrases are fixpoints of both forms. */
  lemma PhraseIsFixpoint(p: string)
    requires ValidPhrase(p)
    ensures NormalizeKeywordText(p) == p && NormalizeUniversalText(p) == p
  {
    PhraseIsPlain(p);
    PhraseIsUpper(p);
    NoDashes(p);
    CollapseIsScan(p);
    SpacedScansToItself(p);
    var k, j := StripCuts(p);
    CutWhole(p, p, k, j);
  }

  lemma StopPatternsPlain(p: string)
    requires p in STOP_PATTERNS
    ensures Plain(p)
  {
  }

  lemma HelpPatternsPlain(p: string)
    requires p in HELP_PATTERNS && p != "?"
    ensures Plain(p)
  {
  }

  lemma JoinPatternsPlain(p: string)
    requires p in JOIN_PATTERNS
    ensures Plain(p)
  {
  }

  lemma SomeMatchCarries(m: string, patterns: seq<string>)
    requires forall q | q in patterns && q != "?" :: Plain(q)
    ensures MatchesSome(NormalizeUniversalText(m), patterns) ==>
      MatchesSome(NormalizeKeywordText(m), patterns) || "?" <= NormalizeKeywordText(m)
  {
    var u := NormalizeUniversalText(m);
    if MatchesSome(u, patterns) {
      var q :| q in patterns && Matches(u, q);
      if q == "?" { QuestionStaysFirst(m); } else { UniversalMatchIsKeywordMatch(m, q); }
    }
  }

  lemma StopCarries(m: string)
    ensures MatchesSome(NormalizeUniversalText(m), STOP_PATTERNS) ==>
      MatchesSome(NormalizeKeywordText(m), STOP_PATTERNS) || "?" <= NormalizeKeywordText(m)
  {
    forall q | q in STOP_PATTERNS && q != "?" ensures Plain(q) { StopPatternsPlain(q); }
    SomeMatchCarries(m, STOP_PATTERNS);
  }

  lemma HelpCarries(m: string)
    ensures MatchesSome(NormalizeUniversalText(m), HELP_PATTERNS) ==>
      MatchesSome(NormalizeKeywordText(m), HELP_PATTERNS) || "?" <= NormalizeKeywordText(m)
  {
    forall q | q in HELP_PATTERNS && q != "?" ensures Plain(q) { HelpPatternsPlain(q); }
    SomeMatchCarries(m, HELP_PATTERNS);
  }

  lemma JoinCarries(m: string)
    ensures MatchesSome(NormalizeUniversalText(m), JOIN_PATTERNS) ==>
      MatchesSome(NormalizeKeywordText(m), JOIN_PATTERNS) || "?" <= NormalizeKeywordText(m)
  {
    forall q | q in JOIN_PATTERNS && q != "?" ensures Plain(q) { JoinPatternsPlain(q); }
    SomeMatchCarries(m, JOIN_PATTERNS);
  }

  lemma AnswerCarries(m: string, answer: string)
    requires answer == "YES" || answer == "Y" || answer == "NO" || answer == "N"
    ensures NormalizeUniversalText(m) == answer ==> NormalizeKeywordText(m) == answer
  {
    UniversalMatchIsKeywordMatch(m, answer);
  }

  /** Whatever the classifier calls universal is universal in the keyword form too,
      unless that form opens with a question mark. */
  lemma UniversalInBothForms(m: string)
    requires ClassOf(NormalizeUniversalText(m)).Some? && !("?" <= NormalizeKeywordText(m))
    ensures NormalizeKeywordText(m) != "" ==> ClassOf(NormalizeKeywordText(m)).Some?
  {
    StopCarries(m);
    HelpCarries(m);
    JoinCarries(m);
    AnswerCarries(m, "YES");
    AnswerCarries(m, "Y");
    AnswerCarries(m, "NO");
    AnswerCarries(m, "N");
  }

  /** A stored phrase that is no universal keyword is reached by every message that
      normalises to it: none of them is taken for a universal keyword, although the
      classifier reads another normal form. */
  lemma StoredPhraseIsReachable(p: string, m: string)
    requires ValidPhrase(p) && ClassifyUniversalKeyword(p) == None && NormalizeKeywordText(m) == p
    ensures ClassifyUniversalKeyword(m) == None
  {
    PhraseIsFixpoint(p);
    assert !("?" <= p);
    if ClassifyUniversalKeyword(m).Some? { UniversalInBothForms(m); }
  }

  // ---------------------------------------------------------------- which class a message has

  /** The text is the word, or goes on with a space after it. */
  predicate Opens(text: string, word: string) {
    && |word| <= |text|
    && (forall i | 0 <= i < |word| :: text[i] == word[i])
    && (|text| > |word| ==> text[|word|] == ' ')
  }

  predicate OpensWithOptOut(t: string) {
    || Opens(t, "STOP") || Opens(t, "UNSUBSCRIBE") || Opens(t, "CANCEL") || Opens(t, "QUIT") || Opens(t, "OPT OUT")
    || Opens(t, "OPTOUT") || Opens(t, "END") || Opens(t, "STOPALL") || Opens(t, "REVOKE")
  }

  predicate OpensWithHelp(t: string) {
    Opens(t, "HELP") || Opens(t, "ASSIST") || Opens(t, "SUPPORT") || Opens(t, "INFO") || Opens(t, "?")
  }

  predicate OpensWithOptIn(t: string) {
    || Opens(t, "JOIN") || Opens(t, "START") || Opens(t, "SUBSCRIBE") || Opens(t, "OPTIN") || Opens(t, "OPT IN")
    || Opens(t, "RESUBSCRIBE") || Opens(t, "UNSTOP")
  }

  lemma MatchesIsOpens(t: string, p: string)
    ensures Matches(t, p) <==> Opens(t, p)
  {
    if Opens(t, p) {
      assert t[..|p|] == p;
      if |t| > |p| { assert t[..|p| + 1] == p + " "; }
    }
  }

  lemma OneOfMatches(t: string, patterns: seq<string>)
    ensures MatchesSome(t, patterns) <==> exists i :: 0 <= i < |patterns| && Opens(t, patterns[i])
  {
    forall p ensures Matches(t, p) <==> Opens(t, p) { MatchesIsOpens(t, p); }
  }

  lemma StopOpens(t: string)
    ensures MatchesSome(t, STOP_PATTERNS) <==> OpensWithOptOut(t)
  {
    OneOfMatches(t, STOP_PATTERNS);
    var p := STOP_PATTERNS;
    assert |p| == 9 && p[0] == "STOP" && p[1] == "UNSUBSCRIBE" && p[2] == "CANCEL" && p[3] == "QUIT"
        && p[4] == "OPT OUT" && p[5] == "OPTOUT" && p[6] == "END" && p[7] == "STOPALL" && p[8] == "REVOKE";
  }

  lemma HelpOpens(t: string)
    ensures MatchesSome(t, HELP_PATTERNS) <==> OpensWithHelp(t)
  {
    OneOfMatches(t, HELP_PATTERNS);
    var p := HELP_PATTERNS;
    assert |p| == 5 && p[0] == "HELP" && p[1] == "ASSIST" && p[2] == "SUPPORT" && p[3] == "INFO" && p[4] == "?";
  }

  lemma JoinOpens(t: string)
    ensures MatchesSome(t, JOIN_PATTERNS) <==> OpensWithOptIn(t)
  {
    OneOfMatches(t, JOIN_PATTERNS);
    var p := JOIN_PATTERNS;
    assert |p| == 7 && p[0] == "JOIN" && p[1] == "START" && p[2] == "SUBSCRIBE" && p[3] == "OPTIN"
        && p[4] == "OPT IN" && p[5] == "RESUBSCRIBE" && p[6] == "UNSTOP";
  }

  predicate IsAnswer(t: string) { t == "YES" || t == "Y" || t == "NO" || t == "N" }

  lemma FirstLetters(t: string)
    ensures OpensWithOptOut(t) ==> t != "" && t[0] in ['S', 'U', 'C', 'Q', 'O', 'E', 'R']
    ensures OpensWithHelp(t) ==> t != "" && t[0] in ['H', 'A', 'S', 'I', '?']
    ensures OpensWithOptIn(t) ==> t != "" && t[0] in ['J', 'S', 'O', 'R', 'U']
    ensures OpensWithOptOut(t) && t[0] == 'S' ==> |t| > 1 && t[1] == 'T'
    ensures OpensWithHelp(t) && t[0] == 'S' ==> |t| > 1 && t[1] == 'U'
  {
  }

  lemma OptOutIsNotHelp(t: string)
    ensures OpensWithOptOut(t) ==> !OpensWithHelp(t)
  {
    FirstLetters(t);
  }

  lemma OptInIsNotHelp(t: string)
    ensures OpensWithOptIn(t) ==> !OpensWithHelp(t)
  {
    FirstLetters(t);
  }

  lemma OptOutIsNotOptIn(t: string)
    ensures OpensWithOptOut(t) ==> !OpensWithOptIn(t)
  {
    FirstLetters(t);
  }

  /** No text opens with words of two classes. */
  lemma ClassesAreDisjoint(t: string)
    ensures OpensWithOptOut(t) ==> t != "" && !OpensWithHelp(t) && !OpensWithOptIn(t) && !IsAnswer(t)
    ensures OpensWithHelp(t) ==> t != "" && !OpensWithOptIn(t) && !IsAnswer(t)
    ensures OpensWithOptIn(t) ==> t != "" && !IsAnswer(t)
  {
    FirstLetters(t);
    OptOutIsNotHelp(t);
    OptInIsNotHelp(t);
    OptOutIsNotOptIn(t);
    assert IsAnswer(t) ==> t[0] == 'Y' || t[0] == 'N';
  }

  /** The class of a message is the one its universal form opens with a word of; the
      order in which the classes are looked at makes no difference. */
  lemma ClassIsByWord(content: string)
    ensures var t, k := NormalizeUniversalText(content), ClassifyUniversalKeyword(content);
      && (k == Some(Stop) <==> OpensWithOptOut(t))
      && (k == Some(Help) <==> OpensWithHelp(t))
      && (k == Some(Yes) <==> t == "YES" || t == "Y")
      && (k == Some(No) <==> t == "NO" || t == "N")
      && (k == Some(Join) <==> OpensWithOptIn(t))
  {
    ClassesAreDisjoint(NormalizeUniversalText(content));
    StopOpens(NormalizeUniversalText(content));
    HelpOpens(NormalizeUniversalText(content));
    JoinOpens(NormalizeUniversalText(content));
  }

  // ---------------------------------------------------------------- however it is typed

  /** The same letters, upper or lower case; anything else to the character. */
  predicate SameLetters(typed: string, word: string) {
    |typed| == |word| &&
    forall i | 0 <= i < |word| ::
      typed[i] == word[i] || ('A' <= word[i] <= 'Z' && typed[i] as int == word[i] as int + 32)
  }

  lemma {:induction false} BlankScansToNothing(blank: string, started: bool, pending: bool)
    requires Blank(blank, 0, |blank|)
    ensures Scan(blank, started, pending) == ""
  {
    if blank != "" { BlankScansToNothing(blank[1..], started, started); }
  }

  lemma {:induction false} LeadingBlankIsSkipped(blank: string, s: string)
    requires Blank(blank, 0, |blank|)
    ensures Scan(blank + s, false, false) == Scan(s, false, false)
  {
    if blank == "" {
      assert blank + s == s;
    } else {
      assert (blank + s)[1..] == blank[1..] + s;
      LeadingBlankIsSkipped(blank[1..], s);
    }
  }

  lemma TypedLetters(typed: string, word: string, i: nat)
    requires ValidPhrase(word) && SameLetters(typed, word) && i < |word|
    ensures UpperChar(typed[i]) == word[i]
    ensures (IsSpace(typed[i]) <==> word[i] == ' ') && (typed[i] == ' ' <==> word[i] == ' ')
  {
    WordsShape(word, false);
    assert IsPhraseChar(word[i]) || word[i] == ' ';
  }

  lemma {:induction false} TypedIsUpper(typed: string, word: string)
    requires ValidPhrase(word) && SameLetters(typed, word)
    ensures Upper(typed) == word
  {
    forall i | 0 <= i < |word| ensures UpperChar(typed[i]) == word[i] { TypedLetters(typed, word, i); }
  }

  lemma {:induction false} MarksAreUpper(marks: string)
    requires Punctuated(marks, 0, |marks|)
    ensures Upper(marks) == marks && forall i | 0 <= i < |marks| :: !IsSpace(marks[i])
  {
    forall i | 0 <= i < |marks| ensures UpperChar(marks[i]) == marks[i] { assert IsPunctuation(marks[i]); }
  }

  lemma TypedIsSpaced(typed: string, word: string)
    requires ValidPhrase(word) && SameLetters(typed, word)
    ensures Spaced(typed) && typed != "" && !IsSpace(typed[|typed| - 1])
  {
    PhraseIsPlain(word);
    WordsShape(word, false);
    forall i | 0 <= i < |typed|
      ensures (IsSpace(typed[i]) <==> word[i] == ' ') && (typed[i] == ' ' <==> word[i] == ' ')
    {
      TypedLetters(typed, word, i);
    }
  }

  lemma MarkedIsSpaced(typed: string, marks: string)
    requires Spaced(typed) && typed != "" && !IsSpace(typed[|typed| - 1])
    requires forall i | 0 <= i < |marks| :: !IsSpace(marks[i])
    ensures Spaced(typed + marks) && !IsSpace((typed + marks)[|typed + marks| - 1])
  {
    var t := typed + marks;
    forall i | 0 <= i < |t| ensures IsSpace(t[i]) ==> i < |typed| - 1 && IsSpace(typed[i]) {
      if i >= |typed| { assert t[i] == marks[i - |typed|]; }
    }
  }

  /** What collapsing leaves of a phrase with blanks around it. */
  lemma {:induction false} BlanksAreTrimmed(lead: string, t: string, trail: string)
    requires Blank(lead, 0, |lead|) && Blank(trail, 0, |trail|) && Spaced(t) && t != "" && !IsSpace(t[|t| - 1])
    ensures Trim(SqueezeRuns(lead + (t + trail))) == t
  {
    CollapseIsScan(lead + (t + trail));
    LeadingBlankIsSkipped(lead, t + trail);
    ScanAppend(t, trail, false, false);
    BlankScansToNothing(trail, true, false);
    SpacedScansToItself(t);
  }

  lemma MarksAreStripped(word: string, marks: string)
    requires ValidPhrase(word) && Punctuated(marks, 0, |marks|) && Spaced(word + marks)
    ensures StripTrailingPunctuation(word + marks) == word
  {
    var v := word + marks;
    PhraseIsPlain(word);
    var k, j := StripCuts(v);
    CutWhole(v, word, k, j);
    forall i | |word| <= i < |v| ensures IsPunctuation(v[i]) { assert v[i] == marks[i - |word|]; }
    assert word <= v;
  }

  /** Letter case, white space around and punctuation behind a phrase do not matter. */
  lemma TypingDoesNotMatter(lead: string, typed: string, marks: string, trail: string, word: string)
    requires ValidPhrase(word) && SameLetters(typed, word)
    requires Blank(lead, 0, |lead|) && Punctuated(marks, 0, |marks|) && Blank(trail, 0, |trail|)
    ensures NormalizeUniversalText(lead + typed + marks + trail) == word
    ensures ClassifyUniversalKeyword(lead + typed + marks + trail) == ClassifyUniversalKeyword(word)
  {
    var t := typed + marks;
    assert lead + typed + marks + trail == lead + (t + trail);
    TypedIsSpaced(typed, word);
    MarksAreUpper(marks);
    MarkedIsSpaced(typed, marks);
    BlanksAreTrimmed(lead, t, trail);
    TypedIsUpper(typed, word);
    UpperConcat(typed, marks);
    UpperSpaced(t);
    MarksAreStripped(word, marks);
    PhraseIsFixpoint(word);
  }

  /** The reserved names mean the class they stand for, however they are typed. */
  lemma ReservedNamesMeanTheirClass(lead: string, typed: string, marks: string, trail: string)
    requires Blank(lead, 0, |lead|) && Punctuated(marks, 0, |marks|) && Blank(trail, 0, |trail|)
    ensures var k := ClassifyUniversalKeyword(lead + typed + marks + trail);
      && (SameLetters(typed, "STOP") ==> k == Some(Stop)) && (SameLetters(typed, "START") ==> k == Some(Join))
      && (SameLetters(typed, "HELP") ==> k == Some(Help)) && (SameLetters(typed, "YES") ==> k == Some(Yes))
      && (SameLetters(typed, "NO") ==> k == Some(No))
  {
    ReservedAreValid();
    forall word | word in RESERVED_NAMES && SameLetters(typed, word)
      ensures NormalizeUniversalText(lead + typed + marks + trail) == word
    {
      TypingDoesNotMatter(lead, typed, marks, trail, word);
    }
    ClassIsByWord(lead + typed + marks + trail);
    assert RESERVED_NAMES[0] == "STOP" && RESERVED_NAMES[1] == "START" && RESERVED_NAMES[2] == "HELP"
        && RESERVED_NAMES[3] == "YES" && RESERVED_NAMES[4] == "NO";
  }

  lemma {:induction false} LettersAreWords(s: string, inWord: bool)
    requires (forall i | 0 <= i < |s| :: IsPhraseChar(s[i])) && (s != "" || inWord)
    ensures IsWords(s, inWord)
  {
    if s != "" { LettersAreWords(s[1..], true); }
  }

  lemma ReservedAreValid()
    ensures forall word | word in RESERVED_NAMES :: ValidPhrase(word)
  {
    forall word | word in RESERVED_NAMES ensures ValidPhrase(word) { LettersAreWords(word, false); }
  }

  /** To a configured phrase, dashes between its words read as spaces. */
  lemma DashesReadAsSpaces(lead: string, dashed: string, typed: string, marks: string, trail: string, word: string)
    requires ValidPhrase(word) && SameLetters(typed, word) && |dashed| == |typed|
    requires forall i | 0 <= i < |typed| :: dashed[i] == typed[i] || (typed[i] == ' ' && dashed[i] in ['-', '_'])
    requires Blank(lead, 0, |lead|) && Punctuated(marks, 0, |marks|) && Blank(trail, 0, |trail|)
    ensures NormalizeKeywordText(lead + dashed + marks + trail) == word
  {
    TypingDoesNotMatter(lead, typed, marks, trail, word);
    UndashedIsTyped(dashed, typed, word);
    UndashAround(lead, dashed, marks, trail);
  }

  lemma {:induction false} UndashedIsTyped(dashed: string, typed: string, word: string)
    requires ValidPhrase(word) && SameLetters(typed, word) && |dashed| == |typed|
    requires forall i | 0 <= i < |typed| :: dashed[i] == typed[i] || (typed[i] == ' ' && dashed[i] in ['-', '_'])
    ensures Undash(dashed) == typed
  {
    PhraseIsPlain(word);
  }

  lemma {:induction false} UndashAround(lead: string, body: string, marks: string, trail: string)
    requires Blank(lead, 0, |lead|) && Punctuated(marks, 0, |marks|) && Blank(trail, 0, |trail|)
    ensures Undash(lead + body + marks + trail) == lead + Undash(body) + marks + trail
  {
    NoDashes(lead);
    forall i | 0 <= i < |marks| ensures !IsDash(marks[i]) { assert IsPunctuation(marks[i]); }
    NoDashes(marks);
    NoDashes(trail);
    UndashConcat(lead, body);
    UndashConcat(lead + body, marks);
    UndashConcat(lead + body + marks, trail);
  }

  lemma WordThenDash(typed: string, word: string, tail: string)
    requires ValidPhrase(word) && SameLetters(typed, word)
    ensures word + "-" <= UniversalBase(typed + "-" + tail)
  {
    var t, rest := typed + "-", Scan(tail, true, false);
    TypedIsSpaced(typed, word);
    DashedIsSpaced(typed);
    CollapseIsScan(t + tail);
    ScanAppend(t, tail, false, false);
    SpacedScansToItself(t);
    TypedIsUpper(typed, word);
    UpperConcat(t, rest);
    UpperConcat(typed, "-");
    assert Upper("-") == "-";
  }

  lemma DashedIsSpaced(typed: string)
    requires Spaced(typed) && typed != "" && !IsSpace(typed[|typed| - 1])
    ensures Spaced(typed + "-")
  {
    MarkedIsSpaced(typed, "-");
  }

  /** A dash is no space to the universal keywords: a word with a dash behind it, as in
      "end-of-day report", is none of them. */
  lemma DashedWordIsNoKeyword(typed: string, word: string, tail: string)
    requires ValidPhrase(word) && SameLetters(typed, word) && ' ' !in word
    ensures ClassifyUniversalKeyword(typed + "-" + tail) == None
  {
    var m := typed + "-" + tail;
    var v := UniversalBase(m);
    BasesSpaced(m);
    WordThenDash(typed, word, tail);
    var k, j := StripCuts(v);
    assert v[|word|] == '-';
    assert word + "-" <= v[..k];
    DashIsNoWord(v[..k], word);
    ClassIsByWord(m);
  }

  lemma DashEndsNoWord(t: string, word: string, p: string)
    requires word + "-" <= t && ' ' !in word && '-' !in p
    ensures !Opens(t, p) && t != p
  {
    assert t[|word|] == '-';
    if |p| <= |word| {
      assert t[|p|] == (word + "-")[|p|];
      assert |p| < |word| ==> (word + "-")[|p|] in word;
    } else {
      assert p[|word|] in p;
    }
  }

  lemma DashMatchesNone(t: string, word: string, patterns: seq<string>)
    requires word + "-" <= t && ' ' !in word && forall p | p in patterns && p != "?" :: Plain(p)
    ensures !MatchesSome(t, patterns)
  {
    forall p | p in patterns ensures !Matches(t, p) {
      assert '-' !in p;
      MatchesIsOpens(t, p);
      DashEndsNoWord(t, word, p);
    }
  }

  lemma DashIsNoWord(t: string, word: string)
    requires word + "-" <= t && ' ' !in word
    ensures !OpensWithOptOut(t) && !OpensWithHelp(t) && !OpensWithOptIn(t) && !IsAnswer(t)
  {
    forall p | p in STOP_PATTERNS ensures Plain(p) { StopPatternsPlain(p); }
    forall p | p in HELP_PATTERNS && p != "?" ensures Plain(p) { HelpPatternsPlain(p); }
    forall p | p in JOIN_PATTERNS ensures Plain(p) { JoinPatternsPlain(p); }
    DashMatchesNone(t, word, STOP_PATTERNS);
    DashMatchesNone(t, word, HELP_PATTERNS);
    DashMatchesNone(t, word, JOIN_PATTERNS);
    StopOpens(t);
    HelpOpens(t);
    JoinOpens(t);
    assert t[|word|] == '-';
  }
}
