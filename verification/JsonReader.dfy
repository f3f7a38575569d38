/** The canonical text is JSON (RFC 8259, without insignificant white space): a reader
    of the grammar reads it back to the request it stands for, members in key order. */
module JsonReader {
  import opened Wrappers
  import opened CanonicalJson
  import L = Lists

  // ---------------------------------------------------------------- the reader

  function NumeralLength(t: Text): (n: nat)
    ensures n <= |t|
  {
    if t != [] && (0x30 <= t[0] <= 0x39 || t[0] in [0x2B, 0x2D, 0x2E, 0x65]) then 1 + NumeralLength(t[1..]) else 0
  }

  /** One value from the front of a text, and the text after it. */
  function ReadValue(t: Text): (r: Option<(Value, Text)>)
    ensures r.Some? ==> |r.value.1| < |t|
    decreases |t|, 0
  {
    if t == [] then None
    else if t[0] == 0x22 then
      match ReadString(t[1..])
      case Some((s, rest)) => Some((Str(s), rest))
      case None => None
    else if t[0] == 0x5B then
      if |t| > 1 && t[1] == 0x5D then Some((Arr([]), t[2..]))
      else
        match ReadItems(t[1..])
        case Some((items, rest)) => Some((Arr(items), rest))
        case None => None
    else if t[0] == 0x7B then
      if |t| > 1 && t[1] == 0x7D then Some((Obj([]), t[2..]))
      else
        match ReadMembers(t[1..])
        case Some((members, rest)) => Some((Obj(members), rest))
        case None => None
    else if |t| >= 4 && t[..4] == [0x6E, 0x75, 0x6C, 0x6C] then Some((Null, t[4..]))
    else if |t| >= 4 && t[..4] == [0x74, 0x72, 0x75, 0x65] then Some((Bool(true), t[4..]))
    else if |t| >= 5 && t[..5] == [0x66, 0x61, 0x6C, 0x73, 0x65] then Some((Bool(false), t[5..]))
    else if 0x30 <= t[0] <= 0x39 || t[0] == 0x2D then Some((Number(t[..NumeralLength(t)]), t[NumeralLength(t)..]))
    else None
  }

  /** The elements of an array, from the first up to the closing bracket. */
  function ReadItems(t: Text): (r: Option<(seq<Value>, Text)>)
    ensures r.Some? ==> |r.value.1| < |t|
    decreases |t|, 1
  {
    match ReadValue(t)
    case None => None
    case Some((v, rest)) =>
      if rest == [] then None
      else if rest[0] == 0x5D then Some(([v], rest[1..]))
      else if rest[0] != 0x2C then None
      else
        match ReadItems(rest[1..])
        case Some((items, after)) => Some(([v] + items, after))
        case None => None
  }

  /** The members of an object, from the first up to the closing brace. */
  function ReadMembers(t: Text): (r: Option<(seq<Member>, Text)>)
    ensures r.Some? ==> |r.value.1| < |t|
    decreases |t|, 1
  {
    if t == [] || t[0] != 0x22 then None
    else
      match ReadString(t[1..])
      case None => None
      case Some((key, colon)) =>
        if colon == [] || colon[0] != 0x3A then None
        else
          match ReadValue(colon[1..])
          case None => None
          case Some((v, rest)) =>
            if rest == [] then None
            else if rest[0] == 0x7D then Some(([Member(key, v)], rest[1..]))
            else if rest[0] != 0x2C then None
            else
              match ReadMembers(rest[1..])
              case Some((members, after)) => Some(([Member(key, v)] + members, after))
              case None => None
  }

  // ---------------------------------------------------------------- what a request reads back as

  /** Null for what has no JSON text of its own, members that are defined, in key order. */
  function Normal(v: Value): Value
    decreases v, 1
  {
    match v
    case Undefined => Null
    case NonFinite => Null
    case Arr(items) => Arr(NormalItems(items))
    case Obj(ms) => Obj(NormalMembers(SortedKeys(ms), ms))
    case _ => v
  }

  function NormalItems(items: seq<Value>): (r: seq<Value>)
    ensures |r| == |items| && forall i | 0 <= i < |items| :: r[i] == Normal(items[i])
    decreases items, 0
  {
    if items == [] then [] else [Normal(items[0])] + NormalItems(items[1..])
  }

  function NormalMembers(ks: seq<Text>, ms: seq<Member>): (r: seq<Member>)
    ensures |r| == |ks|
    ensures forall i | 0 <= i < |ks| ::
      r[i].key == ks[i] && (HasKey(ms, ks[i]) ==> r[i].value == Normal(ValueAt(ms, ks[i])))
    decreases ms, 0, |ks|
  {
    if ks == [] then []
    else [Member(ks[0], if HasKey(ms, ks[0]) then Normal(ValueAt(ms, ks[0])) else Null)] + NormalMembers(ks[1..], ms)
  }

  // ---------------------------------------------------------------- reading back what was written

  lemma {:induction false} NumeralIsRead(n: Text, r: Text)
    requires (forall i | 0 <= i < |n| :: IsNumeralUnit(n[i])) && Delimited(r)
    ensures NumeralLength(n + r) == |n|
  {
    if n == [] {
      assert n + r == r;
    } else {
      assert (n + r)[0] == n[0] && (n + r)[1..] == n[1..] + r;
      NumeralIsRead(n[1..], r);
    }
  }

  lemma {:induction false} NumberReads(n: Text, r: Text)
    requires IsNumeral(n) && Delimited(r)
    ensures ReadValue(n + r) == Some((Number(n), r))
  {
    NumeralIsRead(n, r);
    assert (n + r)[0] == n[0];
    assert (n + r)[..|n|] == n && (n + r)[|n|..] == r;
  }

  lemma {:induction false} StringReads(s: Text, r: Text)
    ensures ReadValue(Quote(s) + r) == Some((Str(s), r))
  {
    QuoteOpens(s, r);
    ReadStringInvertsEscape(s, r);
    assert (Quote(s) + r)[0] == 0x22;
  }

  lemma {:induction false} WordReads(word: Text, v: Value, r: Text)
    requires
      || (word == [0x6E, 0x75, 0x6C, 0x6C] && v == Null)
      || (word == [0x74, 0x72, 0x75, 0x65] && v == Bool(true))
      || (word == [0x66, 0x61, 0x6C, 0x73, 0x65] && v == Bool(false))
    ensures ReadValue(word + r) == Some((v, r))
  {
    var t := word + r;
    assert t[..|word|] == word && t[|word|..] == r && t[0] == word[0];
    if v == Bool(false) { assert t[..4][0] == 0x66; }
    if v == Bool(true) { assert t[..4][0] == 0x74; }
  }

  /** What was written is read back, and what follows it is left. */
  lemma {:induction false} CanonReads(v: Value, r: Text)
    requires Valid(v) && Delimited(r)
    ensures ReadValue(Canon(v) + r) == Some((Normal(v), r))
    decreases v, 1
  {
    match v
    case Number(n) => NumberReads(n, r);
    case Str(s) => StringReads(s, r);
    case Arr(items) => ArrReads(items, r);
    case Obj(ms) => ObjReads(ms, r);
    case _ => WordReads(Canon(v), Normal(v), r);
  }

  lemma {:induction false} ArrReads(items: seq<Value>, r: Text)
    requires forall i | 0 <= i < |items| :: Valid(items[i])
    ensures ReadValue(Canon(Arr(items)) + r) == Some((Arr(NormalItems(items)), r))
    decreases items, 1
  {
    var t := Canon(Arr(items)) + r;
    ArrOpens(items, r);
    ItemsEmpty(items, [CLOSE_BRACKET] + r);
    assert t[0] == 0x5B;
    if items == [] {
      assert t[1..] == [CLOSE_BRACKET] + r;
      assert t[1] == t[1..][0] && t[2..] == t[1..][1..];
    } else {
      assert t[1] == t[1..][0];
      ItemsRead(items, r);
    }
  }

  lemma {:induction false} ItemsRead(items: seq<Value>, r: Text)
    requires items != [] && forall i | 0 <= i < |items| :: Valid(items[i])
    ensures ReadItems(JoinItems(items) + ([CLOSE_BRACKET] + r)) == Some((NormalItems(items), r))
    decreases items, 0
  {
    var end := [CLOSE_BRACKET] + r;
    JoinItemsOpens(items, end);
    ItemsTailOpens(items, end);
    CanonReads(items[0], ItemsTail(items, end));
    if |items| == 1 {
      assert NormalItems(items) == [Normal(items[0])];
      assert end[1..] == r;
    } else {
      ItemsRead(items[1..], r);
      assert ItemsTail(items, end)[1..] == JoinItems(items[1..]) + end;
    }
  }

  lemma {:induction false} ObjReads(ms: seq<Member>, r: Text)
    requires Valid(Obj(ms))
    ensures ReadValue(Canon(Obj(ms)) + r) == Some((Obj(NormalMembers(SortedKeys(ms), ms)), r))
    decreases ms, 1
  {
    SortedKeysSort(ms);
    ObjOpens(ms, r);
    MembersEmpty(SortedKeys(ms), ms, [CLOSE_BRACE] + r);
    assert (Canon(Obj(ms)) + r)[0] == 0x7B;
    if SortedKeys(ms) != [] { MembersRead(SortedKeys(ms), ms, r); }
    ObjectOpens(Canon(Obj(ms)) + r, SortedKeys(ms), JoinMembers(SortedKeys(ms), ms),
                NormalMembers(SortedKeys(ms), ms), r);
  }

  lemma {:induction false} ObjectOpens(t: Text, ks: seq<Text>, body: Text, members: seq<Member>, r: Text)
    requires t != [] && t[0] == 0x7B && t[1..] == body + ([CLOSE_BRACE] + r)
    requires (body + ([CLOSE_BRACE] + r))[0] == 0x7D <==> ks == []
    requires
      if ks == [] then members == [] && body == []
      else ReadMembers(body + ([CLOSE_BRACE] + r)) == Some((members, r))
    ensures ReadValue(t) == Some((Obj(members), r))
  {
    assert |t[1..]| > 0 && t[1] == t[1..][0];
    if ks == [] { assert t[2..] == t[1..][1..] == r; }
  }

  lemma {:induction false} NormalMembersFirst(ks: seq<Text>, ms: seq<Member>)
    requires ks != [] && HasKey(ms, ks[0])
    ensures NormalMembers(ks, ms) == [Member(ks[0], Normal(ValueAt(ms, ks[0])))] + NormalMembers(ks[1..], ms)
    ensures |ks| == 1 ==> NormalMembers(ks, ms) == [Member(ks[0], Normal(ValueAt(ms, ks[0])))]
  {
  }

  /** One member is read: the last one, or one with more behind a comma. */
  lemma {:induction false} MemberThenRest(
      t: Text, key: Text, colon: Text, v: Value, rest: Text, more: seq<Member>, after: Text)
    requires t != [] && t[0] == 0x22 && ReadString(t[1..]) == Some((key, colon))
    requires colon != [] && colon[0] == 0x3A && ReadValue(colon[1..]) == Some((v, rest)) && rest != []
    ensures rest[0] == 0x7D ==> ReadMembers(t) == Some(([Member(key, v)], rest[1..]))
    ensures rest[0] == 0x2C && ReadMembers(rest[1..]) == Some((more, after)) ==>
      ReadMembers(t) == Some(([Member(key, v)] + more, after))
  {
  }

  lemma {:induction false} FirstMemberReads(
      ks: seq<Text>, ms: seq<Member>, end: Text, v: Value, more: seq<Member>, after: Text)
    requires ks != [] && HasKey(ms, ks[0]) && end != [] && end[0] == CLOSE_BRACE
    requires ReadValue(Canon(ValueAt(ms, ks[0])) + MembersTail(ks, ms, end)) == Some((v, MembersTail(ks, ms, end)))
    ensures |ks| == 1 ==> ReadMembers(JoinMembers(ks, ms) + end) == Some(([Member(ks[0], v)], end[1..]))
    ensures |ks| > 1 && ReadMembers(JoinMembers(ks[1..], ms) + end) == Some((more, after)) ==>
      ReadMembers(JoinMembers(ks, ms) + end) == Some(([Member(ks[0], v)] + more, after))
  {
    var value, tail := Canon(ValueAt(ms, ks[0])), MembersTail(ks, ms, end);
    JoinMembersOpens(ks, ms, end);
    MembersTailOpens(ks, ms, end);
    MemberReads(ks[0], value, tail);
    assert tail != [];
    assert |ks| > 1 ==> tail[1..] == JoinMembers(ks[1..], ms) + end;
    MemberThenRest(Entry(Quote(ks[0]), value, tail), ks[0], [COLON] + (value + tail), v, tail, more, after);
  }

  lemma {:induction false} MembersRead(ks: seq<Text>, ms: seq<Member>, r: Text)
    requires ks != [] && Valid(Obj(ms)) && forall k | k in ks :: HasKey(ms, k)
    ensures ReadMembers(JoinMembers(ks, ms) + ([CLOSE_BRACE] + r)) == Some((NormalMembers(ks, ms), r))
    decreases ms, 0, |ks|
  {
    var end := [CLOSE_BRACE] + r;
    var v := ValueAt(ms, ks[0]);
    MembersTailOpens(ks, ms, end);
    CanonReads(v, MembersTail(ks, ms, end));
    NormalMembersFirst(ks, ms);
    if |ks| > 1 { MembersRead(ks[1..], ms, r); }
    FirstMemberReads(ks, ms, end, Normal(v), NormalMembers(ks[1..], ms), r);
    assert end[1..] == r;
  }

  /** A key is read, and its value stands behind the colon. */
  lemma {:induction false} MemberReads(key: Text, value: Text, tail: Text)
    ensures var t := Entry(Quote(key), value, tail);
      && t[0] == 0x22
      && ReadString(t[1..]) == Some((key, [COLON] + (value + tail)))
      && ([COLON] + (value + tail))[1..] == value + tail
  {
    QuoteOpens(key, [COLON] + (value + tail));
    ReadStringInvertsEscape(key, [COLON] + (value + tail));
  }

  // ---------------------------------------------------------------- the normal form

  /** Keys in order, nothing undefined, at every depth. */
  ghost predicate IsNormal(v: Value) {
    match v
    case Undefined => false
    case NonFinite => false
    case Arr(items) => forall i | 0 <= i < |items| :: IsNormal(items[i])
    case Obj(ms) =>
      && (forall i, j | 0 <= i < j < |ms| :: KeyLess(ms[i].key, ms[j].key))
      && forall i | 0 <= i < |ms| :: IsNormal(ms[i].value)
    case _ => true
  }

  lemma {:induction false} NormalFormIsNormal(v: Value)
    requires Valid(v)
    ensures IsNormal(Normal(v))
    decreases v, 1
  {
    match v
    case Arr(items) =>
      forall i | 0 <= i < |items| ensures IsNormal(NormalItems(items)[i]) { NormalFormIsNormal(items[i]); }
    case Obj(ms) =>
      SortedKeysSort(ms);
      forall k | k in SortedKeys(ms) ensures IsNormal(Normal(ValueAt(ms, k))) { NormalFormIsNormal(ValueAt(ms, k)); }
    case _ =>
  }

  lemma {:induction false} NeverUndefined(v: Value)
    ensures !Normal(v).Undefined?
  {
  }

  lemma {:induction false} NormalKeys(ks: seq<Text>, ms: seq<Member>)
    requires forall k | k in ks :: HasKey(ms, k)
    ensures DefinedKeys(NormalMembers(ks, ms)) == ks
  {
    if ks != [] {
      NormalMembersFirst(ks, ms);
      NormalKeys(ks[1..], ms);
      NeverUndefined(ValueAt(ms, ks[0]));
      assert NormalMembers(ks, ms)[1..] == NormalMembers(ks[1..], ms);
    }
  }

  lemma {:induction false} NormalValueAt(ks: seq<Text>, ms: seq<Member>, k: Text)
    requires StrictlySorted(ks) && k in ks && HasKey(ms, k)
    ensures HasKey(NormalMembers(ks, ms), k) && ValueAt(NormalMembers(ks, ms), k) == Normal(ValueAt(ms, k))
  {
    var ns := NormalMembers(ks, ms);
    forall i, j | 0 <= i < j < |ns| ensures ns[i].key != ns[j].key { KeyLessIrreflexive(ks[i]); }
    var i :| 0 <= i < |ks| && ks[i] == k;
    ValueAtMember(ns, i);
  }

  /** The normal form is the same request. */
  lemma {:induction false} NormalIsTheSame(v: Value)
    requires Valid(v)
    ensures Same(v, Normal(v))
    decreases v, 1
  {
    match v
    case Arr(items) =>
      forall i | 0 <= i < |items| ensures Same(items[i], NormalItems(items)[i]) { NormalIsTheSame(items[i]); }
    case Obj(ms) => MembersAreTheSame(ms);
    case _ =>
  }

  lemma {:induction false} MembersAreTheSame(ms: seq<Member>)
    requires Valid(Obj(ms))
    ensures Same(Obj(ms), Normal(Obj(ms)))
    decreases ms, 0
  {
    var ks := SortedKeys(ms);
    var ns := NormalMembers(ks, ms);
    SortedKeysSort(ms);
    NormalKeys(ks, ms);
    forall i | DefinedAt(ms, i) && HasKey(ns, ms[i].key) ensures Same(ms[i].value, ValueAt(ns, ms[i].key)) {
      ValueAtMember(ms, i);
      assert ms[i].key in ks;
      NormalValueAt(ks, ms, ms[i].key);
      NormalIsTheSame(ms[i].value);
    }
  }

  /** The text of a request is a JSON document: reading it gives the same request with
      its members in key order, and nothing is left over. */
  lemma {:induction false} CanonIsJson(v: Value)
    requires Valid(v)
    ensures ReadValue(Canon(v)) == Some((Normal(v), [])) && IsNormal(Normal(v)) && Same(v, Normal(v))
  {
    CanonReads(v, []);
    assert Canon(v) + [] == Canon(v);
    NormalFormIsNormal(v);
    NormalIsTheSame(v);
  }
}
