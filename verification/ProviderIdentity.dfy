/** The idempotency identity a provider is sent for one payment. */
module ProviderIdentity {
  import opened Wrappers
  import K = KeywordGrammar

  /** What a provider accepts in the field; an empty suffix is none. */
  datatype Options = Options(maxLength: nat, allowed: char -> bool, separator: string, suffix: string)

  predicate IsHex(c: char) { '0' <= c <= '9' || 'a' <= c <= 'f' }

  predicate Accepts(o: Options, s: string) { s != "" && forall i | 0 <= i < |s| :: o.allowed(s[i]) }

  /** A digest in hexadecimal, as long as SHA-256's. */
  ghost predicate HexDigest(digest: string -> string) {
    forall s :: |digest(s)| == 64 && forall i | 0 <= i < 64 :: IsHex(digest(s)[i])
  }

  function WithoutDashes(s: string): string {
    if s == [] then [] else (if s[0] == '-' then [] else [s[0]]) + WithoutDashes(s[1..])
  }

  function RawIdentity(clientKey: Option<string>, o: Options): string {
    var key := if clientKey.Some? && clientKey.value != "" then clientKey.value else "default";
    if o.suffix != "" then key + o.separator + o.suffix else key
  }

  function TxPart(tx: string, o: Options, digest: string -> string): string
    requires |digest(tx)| == 64
  {
    if Accepts(o, tx) then tx else "t" + digest(tx)[..32]
  }

  /** The three ways of fitting the field, the first that fits; no answer when the
      field is too short for any, or the transaction id is blank. */
  function Identity(tx: string, clientKey: Option<string>, o: Options, digest: string -> string): Option<string>
    requires forall s :: |digest(s)| == 64
  {
    if K.Trim(tx) == "" then None
    else
      var raw := RawIdentity(clientKey, o);
      var identity := if Accepts(o, raw) then raw else "h" + digest(raw)[..32];
      var start, tp := "bis" + o.separator, TxPart(tx, o, digest);
      var full := start + (tp + o.separator + identity);
      if |full| <= o.maxLength then Some(full)
      else
        var compact := WithoutDashes(tp);
        var budget := o.maxLength - (3 + |compact| + 2 * |o.separator|);
        if budget >= 8 then Some(start + (compact + o.separator + ("h" + digest(raw))[..Min(budget, 65)]))
        else
          var digestBudget := o.maxLength - |start|;
          if digestBudget >= 12 then Some(start + digest(tx + [0 as char] + raw)[..Min(digestBudget, 64)])
          else None
  }

  // ---------------------------------------------------------------- two payments, two identities

  predicate IsDashAt(i: int) { i == 8 || i == 13 || i == 18 || i == 23 }

  /** The platform's own ids. */
  predicate IsUuid(s: string) {
    |s| == 36 && forall i | 0 <= i < 36 :: if IsDashAt(i) then s[i] == '-' else IsHex(s[i])
  }

  /** A version 4 UUID as the platform prints it. */
  lemma UuidsLookLikeThis()
    ensures IsUuid("0f4a2b6c-9d1e-4a37-8c5b-2e6f7a901b3d") && !IsHex('g') && !IsHex('A') && !IsHex('-')
  {
    var s := "0f4a2b6c-9d1e-4a37-8c5b-2e6f7a901b3d";
    assert |s| == 36 && s[8] == '-' && s[13] == '-' && s[18] == '-' && s[23] == '-';
  }

  /** What follows the common start, in each of the three forms. */
  datatype Form = Full | Compact | Digested

  ghost predicate HasForm(body: string, f: Form, tx: string, raw: string, o: Options, digest: string -> string)
    requires HexDigest(digest)
  {
    var tp := TxPart(tx, o, digest);
    match f
    case Full => |body| >= |tp| && body[..|tp|] == tp
    case Compact =>
      var c := WithoutDashes(tp);
      |body| > |c| + |o.separator| && body[..|c|] == c && body[|c| + |o.separator|] == 'h'
    case Digested => 12 <= |body| <= 64 && body == digest(tx + [0 as char] + raw)[..|body|]
  }

  lemma IdentityHasForm(tx: string, clientKey: Option<string>, o: Options, digest: string -> string)
    returns (f: Form, body: string)
    requires HexDigest(digest) && Identity(tx, clientKey, o, digest).Some?
    ensures Identity(tx, clientKey, o, digest).value == ("bis" + o.separator) + body
    ensures HasForm(body, f, tx, RawIdentity(clientKey, o), o, digest)
  {
    var raw, start, tp := RawIdentity(clientKey, o), "bis" + o.separator, TxPart(tx, o, digest);
    var identity := if Accepts(o, raw) then raw else "h" + digest(raw)[..32];
    var c := WithoutDashes(tp);
    var budget := o.maxLength - (3 + |c| + 2 * |o.separator|);
    if |start + (tp + o.separator + identity)| <= o.maxLength {
      f, body := Full, tp + o.separator + identity;
    } else if budget >= 8 {
      f, body := Compact, c + o.separator + ("h" + digest(raw))[..Min(budget, 65)];
    } else {
      f, body := Digested, digest(tx + [0 as char] + raw)[..Min(o.maxLength - |start|, 64)];
    }
  }

  lemma {:induction false} DashlessKeeps(s: string)
    requires forall i | 0 <= i < |s| :: s[i] != '-'
    ensures WithoutDashes(s) == s
  {
    if s != [] { DashlessKeeps(s[1..]); }
  }

  lemma {:induction false} WithoutDashesConcat(a: string, b: string)
    ensures WithoutDashes(a + b) == WithoutDashes(a) + WithoutDashes(b)
  {
    if a == [] {
      assert a + b == b;
    } else {
      assert (a + b)[1..] == a[1..] + b;
      WithoutDashesConcat(a[1..], b);
    }
  }

  /** A piece of a UUID up to its next dash. */
  lemma PieceWithoutDash(s: string, from: nat, to: nat)
    requires from <= to < |s| && s[to] == '-' && forall i | from <= i < to :: s[i] != '-'
    ensures WithoutDashes(s[from..]) == s[from..to] + WithoutDashes(s[to + 1..])
  {
    DashlessKeeps(s[from..to]);
    WithoutDashesConcat(s[from..to], s[to..]);
    assert s[from..] == s[from..to] + s[to..];
    assert s[to..][1..] == s[to + 1..];
  }

  lemma {:induction false} UuidWithoutDashes(s: string)
    requires IsUuid(s)
    ensures WithoutDashes(s) == s[0..8] + (s[9..13] + (s[14..18] + (s[19..23] + s[24..])))
  {
    DashlessKeeps(s[24..]);
    PieceWithoutDash(s, 19, 23);
    PieceWithoutDash(s, 14, 18);
    PieceWithoutDash(s, 9, 13);
    PieceWithoutDash(s, 0, 8);
    assert s[0..] == s;
  }

  function PositionOf(i: nat): nat {
    if i < 8 then i else if i < 12 then i + 1 else if i < 16 then i + 2 else if i < 20 then i + 3 else i + 4
  }

  lemma {:induction false} CompactUuid(s: string)
    requires IsUuid(s)
    ensures var c := WithoutDashes(s);
      |c| == 32 && forall i | 0 <= i < 32 :: PositionOf(i) < 36 && c[i] == s[PositionOf(i)] && IsHex(c[i])
  {
    UuidWithoutDashes(s);
    var c := s[0..8] + (s[9..13] + (s[14..18] + (s[19..23] + s[24..])));
    assert |c| == 32;
    forall i | 0 <= i < 32 ensures c[i] == s[PositionOf(i)] && IsHex(s[PositionOf(i)]) {
      assert !IsDashAt(PositionOf(i));
    }
  }

  /** No two ids are alike without their dashes. */
  lemma {:induction false} CompactIdentifiesUuid(s: string, t: string)
    requires IsUuid(s) && IsUuid(t) && WithoutDashes(s) == WithoutDashes(t)
    ensures s == t
  {
    CompactUuid(s);
    CompactUuid(t);
    forall k | 0 <= k < 36 ensures s[k] == t[k] {
      if !IsDashAt(k) {
        var i :=
          if k < 8 then k else if k < 13 then k - 1 else if k < 18 then k - 2 else if k < 23 then k - 3 else k - 4;
        assert PositionOf(i) == k && WithoutDashes(s)[i] == WithoutDashes(t)[i];
      }
    }
  }

  /** How an identity shows the payment it is for: in clear, hashed, without dashes,
      or inside one digest. */
  ghost predicate InClear(body: string, tx: string) { |body| >= 36 && body[..36] == tx }

  ghost predicate Hashed(body: string, tx: string, digest: string -> string)
    requires HexDigest(digest)
  {
    |body| >= 33 && body[0] == 't' && body[1..33] == digest(tx)[..32]
  }

  ghost predicate Dashless(body: string, tx: string) {
    |body| >= 32 && body[..32] == WithoutDashes(tx) && exists i :: 32 <= i < |body| && body[i] == 'h'
  }

  ghost predicate InDigest(body: string, tx: string, raw: string, digest: string -> string)
    requires HexDigest(digest)
  {
    12 <= |body| <= 64 && body == digest(tx + [0 as char] + raw)[..|body|]
  }

  ghost predicate Shows(body: string, tx: string, raw: string, digest: string -> string)
    requires HexDigest(digest)
  {
    InClear(body, tx) || Hashed(body, tx, digest) || Dashless(body, tx) || InDigest(body, tx, raw, digest)
  }

  lemma FormShows(body: string, f: Form, tx: string, raw: string, o: Options, digest: string -> string)
    requires HexDigest(digest) && IsUuid(tx) && HasForm(body, f, tx, raw, o, digest)
    ensures Shows(body, tx, raw, digest)
  {
    if Accepts(o, tx) {
      CompactUuid(tx);
    } else {
      var tp := "t" + digest(tx)[..32];
      assert forall i | 0 <= i < |tp| :: tp[i] == 't' || IsHex(tp[i]);
      DashlessKeeps(tp);
      if !f.Digested? { assert body[..33] == tp && body[1..33] == tp[1..]; }
    }
  }

  /** In clear or without dashes, a body starts with a hexadecimal digit of its id. */
  lemma ShowsApart(body: string, t1: string, r1: string, t2: string, r2: string, digest: string -> string)
    requires HexDigest(digest) && IsUuid(t1) && IsUuid(t2) && t1 != t2
    requires digest(t1)[..32] != digest(t2)[..32]
    requires digest(t1 + [0 as char] + r1)[..12] != digest(t2 + [0 as char] + r2)[..12]
    ensures !(Shows(body, t1, r1, digest) && Shows(body, t2, r2, digest))
  {
    CompactUuid(t1);
    CompactUuid(t2);
    if InClear(body, t1) || InClear(body, t2) {
      ClearApart(body, t1, r1, t2, r2, digest);
      ClearApart(body, t2, r2, t1, r1, digest);
    } else if Dashless(body, t1) || Dashless(body, t2) {
      DashlessApart(body, t1, r1, t2, r2, digest);
      DashlessApart(body, t2, r2, t1, r1, digest);
    } else {
      DigestStarts(body, t1, r1, digest);
      DigestStarts(body, t2, r2, digest);
    }
  }

  lemma DigestStarts(body: string, tx: string, raw: string, digest: string -> string)
    requires HexDigest(digest)
    ensures InDigest(body, tx, raw, digest) ==> body[..12] == digest(tx + [0 as char] + raw)[..12]
  {
  }

  lemma DashlessStartsInHex(body: string, tx: string)
    requires IsUuid(tx)
    ensures Dashless(body, tx) ==> IsHex(body[0]) && IsHex(body[8])
  {
    CompactUuid(tx);
    if Dashless(body, tx) { assert body[..32][0] == body[0] && body[..32][8] == body[8]; }
  }

  lemma ClearApart(body: string, t1: string, r1: string, t2: string, r2: string, digest: string -> string)
    requires HexDigest(digest) && IsUuid(t1) && IsUuid(t2) && t1 != t2
    ensures InClear(body, t1) ==> !Shows(body, t2, r2, digest)
  {
    DashlessStartsInHex(body, t2);
    if InClear(body, t1) { assert body[0] == t1[0] && body[8] == t1[8] == '-'; }
  }

  lemma DashlessApart(body: string, t1: string, r1: string, t2: string, r2: string, digest: string -> string)
    requires HexDigest(digest) && IsUuid(t1) && IsUuid(t2) && t1 != t2
    ensures Dashless(body, t1) ==> !Hashed(body, t2, digest) && !Dashless(body, t2) && !InDigest(body, t2, r2, digest)
  {
    DashlessStartsInHex(body, t1);
    if Dashless(body, t1) {
      if WithoutDashes(t1) == WithoutDashes(t2) { CompactIdentifiesUuid(t1, t2); }
    }
  }

  /** Two different payments never share an identity, in any of the three forms and
      whatever keys their clients sent, as long as the digest keeps the two payments
      apart. */
  lemma DifferentPaymentsDifferentIdentities(
      t1: string, k1: Option<string>, t2: string, k2: Option<string>, o: Options, digest: string -> string)
    requires HexDigest(digest) && IsUuid(t1) && IsUuid(t2) && t1 != t2
    requires digest(t1)[..32] != digest(t2)[..32]
    requires digest(t1 + [0 as char] + RawIdentity(k1, o))[..12] != digest(t2 + [0 as char] + RawIdentity(k2, o))[..12]
    requires Identity(t1, k1, o, digest).Some? && Identity(t2, k2, o, digest).Some?
    ensures Identity(t1, k1, o, digest) != Identity(t2, k2, o, digest)
  {
    var f1, b1 := IdentityHasForm(t1, k1, o, digest);
    var f2, b2 := IdentityHasForm(t2, k2, o, digest);
    FormShows(b1, f1, t1, RawIdentity(k1, o), o, digest);
    FormShows(b2, f2, t2, RawIdentity(k2, o), o, digest);
    ShowsApart(b1, t1, RawIdentity(k1, o), t2, RawIdentity(k2, o), digest);
    var start := "bis" + o.separator;
    assert (start + b1)[|start|..] == b1 && (start + b2)[|start|..] == b2;
  }

  // ---------------------------------------------------------------- other ids

  /** The longer id goes on with the separator and the head of the other's key. */
  ghost predicate BordersConfused(t1: string, r1: string, t2: string, r2: string, c: char) {
    exists m :: t2 == t1 + ([c] + m) && r1 == m + ([c] + r2)
  }

  lemma JoinedAgree(t1: string, r1: string, t2: string, r2: string, c: char)
    requires |t1| < |t2|
    ensures t1 + [c] + r1 == t2 + [c] + r2 <==> BordersConfused(t1, r1, t2, r2, c)
  {
    var a, b := t1 + [c] + r1, t2 + [c] + r2;
    if a == b {
      var m := t2[|t1| + 1..];
      assert b[..|t1|] == t2[..|t1|] && a[..|t1|] == t1;
      assert a[|t1|] == c && b[|t1|] == t2[|t1|];
      assert t2 == t1 + ([c] + m);
      assert a[|t1| + 1..] == r1 && b[|t1| + 1..] == m + ([c] + r2);
    }
    if m :| t2 == t1 + ([c] + m) && r1 == m + ([c] + r2) {
      assert a == t1 + [c] + m + [c] + r2 == b;
    }
  }

  /** The field takes the id and the key as they are. */
  predicate FitsAsItIs(tx: string, raw: string, o: Options) {
    K.Trim(tx) != "" && Accepts(o, tx) && Accepts(o, raw) &&
      |("bis" + o.separator) + (tx + o.separator + raw)| <= o.maxLength
  }

  /** Whatever the ids: with a one-character separator two identities in the full form
      agree exactly for the same id and key, or if one id is the other followed by the
      separator and the head of its key. Ids without the separator never do. */
  lemma FullIdentitiesAgreeExactly(
      t1: string, k1: Option<string>, t2: string, k2: Option<string>, o: Options, digest: string -> string)
    requires HexDigest(digest) && |o.separator| == 1
    requires FitsAsItIs(t1, RawIdentity(k1, o), o) && FitsAsItIs(t2, RawIdentity(k2, o), o)
    ensures var r1, r2, c := RawIdentity(k1, o), RawIdentity(k2, o), o.separator[0];
      && (Identity(t1, k1, o, digest) == Identity(t2, k2, o, digest) <==>
            (t1 == t2 && r1 == r2) || BordersConfused(t1, r1, t2, r2, c) || BordersConfused(t2, r2, t1, r1, c))
      && (c !in t1 && c !in t2 && t1 != t2 ==> Identity(t1, k1, o, digest) != Identity(t2, k2, o, digest))
  {
    var r1, r2, c := RawIdentity(k1, o), RawIdentity(k2, o), o.separator[0];
    var start := "bis" + o.separator;
    assert o.separator == [c];
    var a, b := t1 + o.separator + r1, t2 + o.separator + r2;
    assert Identity(t1, k1, o, digest) == Some(start + a) && Identity(t2, k2, o, digest) == Some(start + b);
    assert (start + a)[|start|..] == a && (start + b)[|start|..] == b;
    if |t1| < |t2| {
      JoinedAgree(t1, r1, t2, r2, c);
    } else if |t2| < |t1| {
      JoinedAgree(t2, r2, t1, r1, c);
    } else {
      assert a[..|t1|] == t1 && b[..|t2|] == t2;
      assert a[|t1| + 1..] == r1 && b[|t2| + 1..] == r2;
    }
  }

  /** Such ids, which the platform never issues, would share an identity. */
  lemma OtherIdsCollide(digest: string -> string)
    requires HexDigest(digest)
    ensures var o := Options(255, c => 'a' <= c <= 'z' || c == '_', "_", "");
      && Identity("a_b", Some("c"), o, digest).Some?
      && Identity("a_b", Some("c"), o, digest) == Identity("a", Some("b_c"), o, digest)
  {
    var o := Options(255, c => 'a' <= c <= 'z' || c == '_', "_", "");
    assert K.Trim("a_b") == "a_b" && K.Trim("a") == "a";
    assert Accepts(o, "a_b") && Accepts(o, "c") && Accepts(o, "a") && Accepts(o, "b_c");
    assert "a_b" + "_" + "c" == "a" + "_" + "b_c";
  }

  // ---------------------------------------------------------------- what the field takes

  /** The field takes what the platform itself writes: the prefix, the marks of a
      digest, its digits, and the separator. */
  ghost predicate TakesDigests(o: Options) {
    && (forall c | '0' <= c <= '9' || 'a' <= c <= 'f' || c in ['b', 'i', 's', 't', 'h'] :: o.allowed(c))
    && (forall i | 0 <= i < |o.separator| :: o.allowed(o.separator[i]))
  }

  ghost predicate AllTaken(o: Options, s: string) { forall i | 0 <= i < |s| :: o.allowed(s[i]) }

  lemma {:induction false} DashesOnlyGo(s: string, o: Options)
    requires AllTaken(o, s)
    ensures AllTaken(o, WithoutDashes(s)) && |WithoutDashes(s)| <= |s|
  {
    if s != [] { DashesOnlyGo(s[1..], o); }
  }

  lemma PartsAreTaken(o: Options, s: string, mark: char, digest: string -> string, n: nat)
    requires TakesDigests(o) && HexDigest(digest) && mark in ['t', 'h'] && n <= 64
    ensures AllTaken(o, [mark] + digest(s)[..n]) && AllTaken(o, digest(s)[..n])
    ensures AllTaken(o, if Accepts(o, s) then s else [mark] + digest(s)[..32])
  {
    forall i | 0 <= i < 64 ensures o.allowed(digest(s)[i]) { assert IsHex(digest(s)[i]); }
  }

  lemma {:induction false} JoinTaken(o: Options, a: string, b: string)
    requires AllTaken(o, a) && AllTaken(o, b)
    ensures AllTaken(o, a + b)
  {
  }

  lemma Framed(o: Options, middle: string, last: string)
    requires TakesDigests(o) && AllTaken(o, middle) && AllTaken(o, last)
    ensures AllTaken(o, ("bis" + o.separator) + (middle + o.separator + last))
    ensures AllTaken(o, ("bis" + o.separator) + last)
  {
    assert AllTaken(o, "bis") && AllTaken(o, o.separator);
    JoinTaken(o, "bis", o.separator);
    JoinTaken(o, middle, o.separator);
    JoinTaken(o, middle + o.separator, last);
    JoinTaken(o, "bis" + o.separator, middle + o.separator + last);
    JoinTaken(o, "bis" + o.separator, last);
  }

  lemma FullIsTaken(tx: string, raw: string, o: Options, digest: string -> string)
    requires HexDigest(digest) && TakesDigests(o)
    ensures var identity := if Accepts(o, raw) then raw else "h" + digest(raw)[..32];
      AllTaken(o, ("bis" + o.separator) + (TxPart(tx, o, digest) + o.separator + identity))
  {
    PartsAreTaken(o, raw, 'h', digest, 64);
    PartsAreTaken(o, tx, 't', digest, 64);
    Framed(o, TxPart(tx, o, digest), if Accepts(o, raw) then raw else "h" + digest(raw)[..32]);
  }

  lemma CompactIsTaken(tx: string, raw: string, o: Options, digest: string -> string, n: nat)
    requires HexDigest(digest) && TakesDigests(o) && n <= 65
    ensures var c := WithoutDashes(TxPart(tx, o, digest));
      AllTaken(o, ("bis" + o.separator) + (c + o.separator + ("h" + digest(raw))[..n]))
  {
    PartsAreTaken(o, raw, 'h', digest, 64);
    PartsAreTaken(o, tx, 't', digest, 64);
    DashesOnlyGo(TxPart(tx, o, digest), o);
    assert digest(raw)[..64] == digest(raw);
    assert AllTaken(o, ("h" + digest(raw))[..n]);
    Framed(o, WithoutDashes(TxPart(tx, o, digest)), ("h" + digest(raw))[..n]);
  }

  lemma DigestIsTaken(whole: string, o: Options, digest: string -> string, n: nat)
    requires HexDigest(digest) && TakesDigests(o) && n <= 64
    ensures AllTaken(o, ("bis" + o.separator) + digest(whole)[..n])
  {
    PartsAreTaken(o, whole, 't', digest, n);
    Framed(o, "", digest(whole)[..n]);
  }

  lemma HoldsOnlyWhatIsTaken(tx: string, clientKey: Option<string>, o: Options, digest: string -> string)
    requires HexDigest(digest) && TakesDigests(o) && Identity(tx, clientKey, o, digest).Some?
    ensures AllTaken(o, Identity(tx, clientKey, o, digest).value)
  {
    var raw, start := RawIdentity(clientKey, o), "bis" + o.separator;
    var budget := o.maxLength - (3 + |WithoutDashes(TxPart(tx, o, digest))| + 2 * |o.separator|);
    FullIsTaken(tx, raw, o, digest);
    if budget >= 8 { CompactIsTaken(tx, raw, o, digest, Min(budget, 65)); }
    if o.maxLength - |start| >= 12 {
      DigestIsTaken(tx + [0 as char] + raw, o, digest, Min(o.maxLength - |start|, 64));
    }
  }

  lemma IdentityIsShortEnough(tx: string, clientKey: Option<string>, o: Options, digest: string -> string)
    requires HexDigest(digest)
    ensures var id := Identity(tx, clientKey, o, digest);
      && (id.Some? ==> |id.value| <= o.maxLength && "bis" + o.separator <= id.value)
      && (K.Trim(tx) == "" ==> id == None)
      && (K.Trim(tx) != "" && o.maxLength >= 15 + |o.separator| ==> id.Some?)
  {
  }

  /** An identity fits the field: it is no longer than allowed, opens with the prefix,
      and, if the field takes digests, holds only characters the field takes. There is
      none exactly for a blank id or a field too short for all three forms. */
  lemma IdentityFitsTheField(tx: string, clientKey: Option<string>, o: Options, digest: string -> string)
    requires HexDigest(digest)
    ensures var id := Identity(tx, clientKey, o, digest);
      && (id.Some? ==> |id.value| <= o.maxLength && "bis" + o.separator <= id.value)
      && (id.Some? && TakesDigests(o) ==> AllTaken(o, id.value))
      && (K.Trim(tx) == "" ==> id == None)
      && (K.Trim(tx) != "" && o.maxLength >= 15 + |o.separator| ==> id.Some?)
  {
    IdentityIsShortEnough(tx, clientKey, o, digest);
    if Identity(tx, clientKey, o, digest).Some? && TakesDigests(o) {
      HoldsOnlyWhatIsTaken(tx, clientKey, o, digest);
    }
  }
}
