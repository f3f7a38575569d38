/** The canonical serializer behind the request fingerprint of the idempotency
    service, and the proof that its text identifies the request. Text is a
    sequence of UTF-16 code units, as JavaScript strings are. */
module CanonicalJson {
  import L = Lists
  import opened Wrappers
  import Tables

  type Unit = u: int | 0 <= u < 0x10000
  type Text = seq<Unit>

  const QUOTE: Unit := 0x22
  const COMMA: Unit := 0x2C
  const COLON: Unit := 0x3A
  const BACKSLASH: Unit := 0x5C
  const OPEN_BRACKET: Unit := 0x5B
  const CLOSE_BRACKET: Unit := 0x5D
  const OPEN_BRACE: Unit := 0x7B
  const CLOSE_BRACE: Unit := 0x7D
  const LOWER_U: Unit := 0x75
  const TEXT_NULL: Text := [0x6E, 0x75, 0x6C, 0x6C]
  const TEXT_TRUE: Text := [0x74, 0x72, 0x75, 0x65]
  const TEXT_FALSE: Text := [0x66, 0x61, 0x6C, 0x73, 0x65]

  /** A JavaScript value built from plain objects and arrays. A finite number is
      represented by the text JavaScript prints for it, which differs for
      different numbers; NonFinite stands for NaN and the infinities. Members
      are listed in insertion order. */
  datatype Value =
    | Undefined
    | Null
    | NonFinite
    | Bool(b: bool)
    | Number(numeral: Text)
    | Str(s: Text)
    | Arr(items: seq<Value>)
    | Obj(members: seq<Member>)

  datatype Member = Member(key: Text, value: Value)

  predicate IsNumeralUnit(u: Unit) {
    0x30 <= u <= 0x39 || u == 0x2D || u == 0x2B || u == 0x2E || u == 0x65
  }

  predicate IsNumeral(t: Text) {
    && t != []
    && (0x30 <= t[0] <= 0x39 || t[0] == 0x2D)
    && forall i | 0 <= i < |t| :: IsNumeralUnit(t[i])
  }

  /** What JavaScript guarantees of its values: numbers print as numerals and no
      object has two members with one key. */
  predicate Valid(v: Value) {
    match v
    case Number(n) => IsNumeral(n)
    case Arr(items) => forall i | 0 <= i < |items| :: Valid(items[i])
    case Obj(ms) =>
      && DistinctKeys(ms)
      && forall i | 0 <= i < |ms| :: Valid(ms[i].value)
    case _ => true
  }

  predicate DistinctKeys(ms: seq<Member>) {
    forall i, j | 0 <= i < j < |ms| :: ms[i].key != ms[j].key
  }

  // ---------------------------------------------------------------- strings

  function HexDigit(n: nat): Unit
    requires n < 16
  {
    if n < 10 then 0x30 + n else 0x61 + (n - 10)
  }

  function HexValue(u: Unit): Option<nat> {
    if 0x30 <= u <= 0x39 then Some(u - 0x30)
    else if 0x61 <= u <= 0x66 then Some(u - 0x61 + 10)
    else None
  }

  /** The escape letter of the two-character escapes, if the unit has one. */
  function ShortEscape(u: Unit): Option<Unit> {
    if u == 0x08 then Some(0x62)
    else if u == 0x09 then Some(0x74)
    else if u == 0x0A then Some(0x6E)
    else if u == 0x0C then Some(0x66)
    else if u == 0x0D then Some(0x72)
    else if u == QUOTE || u == BACKSLASH then Some(u)
    else None
  }

  function ShortUnescape(letter: Unit): Option<Unit> {
    if letter == 0x62 then Some(0x08)
    else if letter == 0x74 then Some(0x09)
    else if letter == 0x6E then Some(0x0A)
    else if letter == 0x66 then Some(0x0C)
    else if letter == 0x72 then Some(0x0D)
    else if letter == 0x22 || letter == 0x5C || letter == 0x2F then Some(letter)
    else None
  }

  predicate IsHighSurrogate(u: Unit) { 0xD800 <= u <= 0xDBFF }
  predicate IsLowSurrogate(u: Unit) { 0xDC00 <= u <= 0xDFFF }

  predicate StartsWithPair(s: Text) { |s| >= 2 && IsHighSurrogate(s[0]) && IsLowSurrogate(s[1]) }

  function EscapeU(u: Unit): Text {
    [BACKSLASH, LOWER_U, HexDigit(u / 4096), HexDigit(u / 256 % 16), HexDigit(u / 16 % 16), HexDigit(u % 16)]
  }

  /** One code unit that is not the start of a surrogate pair. */
  function EscapeUnit(u: Unit): Text {
    match ShortEscape(u)
    case Some(letter) => [BACKSLASH, letter]
    case None =>
      if u < 0x20 || IsHighSurrogate(u) || IsLowSurrogate(u) then EscapeU(u) else [u]
  }

  /** The characters JSON.stringify writes between the quotes. */
  function Escape(s: Text): Text {
    if s == [] then []
    else if StartsWithPair(s) then s[..2] + Escape(s[2..])
    else EscapeUnit(s[0]) + Escape(s[1..])
  }

  function Quote(s: Text): Text { [QUOTE] + Escape(s) + [QUOTE] }

  /** A JSON string reader, positioned after the opening quote: the string read
      and the text after the closing quote (section 7 of RFC 8259). */
  function ReadString(t: Text): (r: Option<(Text, Text)>)
    ensures r.Some? ==> |r.value.1| < |t|
  {
    if t == [] then None
    else if t[0] == 0x22 then Some(([], t[1..]))
    else if t[0] < 0x20 then None
    else if t[0] != 0x5C then Prepend(t[0], ReadString(t[1..]))
    else if |t| < 2 then None
    else if ShortUnescape(t[1]).Some? then Prepend(ShortUnescape(t[1]).value, ReadString(t[2..]))
    else if t[1] == 0x75 && |t| >= 6 then
      match ReadHex(t[2..6])
      case Some(u) => Prepend(u, ReadString(t[6..]))
      case None => None
    else None
  }

  function Prepend(u: Unit, r: Option<(Text, Text)>): Option<(Text, Text)> {
    match r
    case Some((s, rest)) => Some(([u] + s, rest))
    case None => None
  }

  function ReadHex(t: Text): Option<Unit>
    requires |t| == 4
  {
    match (HexValue(t[0]), HexValue(t[1]), HexValue(t[2]), HexValue(t[3]))
    case (Some(a), Some(b), Some(c), Some(d)) =>
      var n := a * 4096 + b * 256 + c * 16 + d;
      if n < 0x10000 then Some(n) else None
    case _ => None
  }

  lemma HexPlaces(u: Unit)
    ensures u / 4096 < 16
    ensures u == u / 4096 * 4096 + u / 256 % 16 * 256 + u / 16 % 16 * 16 + u % 16
  {
    assert u / 256 == u / 4096 * 16 + u / 256 % 16;
    assert u / 16 == u / 256 * 16 + u / 16 % 16;
  }

  lemma ReadHexInverts(u: Unit)
    ensures ReadHex(EscapeU(u)[2..6]) == Some(u)
  {
    HexPlaces(u);
    var a, b, c, d := u / 4096, u / 256 % 16, u / 16 % 16, u % 16;
    ReadHexDigits(a, b, c, d, u);
    assert EscapeU(u)[2..6] == [HexDigit(a), HexDigit(b), HexDigit(c), HexDigit(d)];
  }

  lemma ReadHexDigits(a: nat, b: nat, c: nat, d: nat, u: Unit)
    requires a < 16 && b < 16 && c < 16 && d < 16
    requires u == a * 4096 + b * 256 + c * 16 + d
    ensures ReadHex([HexDigit(a), HexDigit(b), HexDigit(c), HexDigit(d)]) == Some(u)
  {
  }

  lemma {:induction false} ReadEscapeUInverts(u: Unit, rest: Text)
    ensures ReadString(EscapeU(u) + rest) == Prepend(u, ReadString(rest))
  {
    ReadHexInverts(u);
    var e := EscapeU(u);
    ReadEscapedHex(e, rest, u);
  }

  lemma {:induction false} ReadEscapedHex(e: Text, rest: Text, u: Unit)
    requires |e| == 6 && e[0] == BACKSLASH && e[1] == LOWER_U && ReadHex(e[2..6]) == Some(u)
    ensures ReadString(e + rest) == Prepend(u, ReadString(rest))
  {
  }

  lemma {:induction false} ReadShortEscape(letter: Unit, u: Unit, rest: Text)
    requires ShortUnescape(letter) == Some(u)
    ensures ReadString([BACKSLASH, letter] + rest) == Prepend(u, ReadString(rest))
  {
  }

  lemma {:induction false} ReadRaw(u: Unit, rest: Text)
    requires u != QUOTE && u != BACKSLASH && u >= 0x20
    ensures ReadString([u] + rest) == Prepend(u, ReadString(rest))
  {
  }

  lemma {:induction false} ReadUnitInverts(u: Unit, rest: Text)
    ensures ReadString(EscapeUnit(u) + rest) == Prepend(u, ReadString(rest))
  {
    if ShortEscape(u).Some? {
      ReadShortEscape(ShortEscape(u).value, u, rest);
    } else if u < 0x20 || IsHighSurrogate(u) || IsLowSurrogate(u) {
      ReadEscapeUInverts(u, rest);
    } else {
      ReadRaw(u, rest);
    }
  }

  lemma {:induction false} ReadRawPair(hi: Unit, lo: Unit, rest: Text)
    requires IsHighSurrogate(hi) && IsLowSurrogate(lo)
    ensures ReadString([hi, lo] + rest) == Prepend(hi, Prepend(lo, ReadString(rest)))
  {
  }

  lemma Associates(a: Text, b: Text, c: Text)
    ensures a + b + c == a + (b + c)
  {
  }

  lemma {:induction false} EscapeAppends(s: Text, rest: Text)
    requires s != []
    ensures StartsWithPair(s) ==> Escape(s) + rest == [s[0], s[1]] + (Escape(s[2..]) + rest)
    ensures !StartsWithPair(s) ==> Escape(s) + rest == EscapeUnit(s[0]) + (Escape(s[1..]) + rest)
  {
    if StartsWithPair(s) {
      assert s[..2] == [s[0], s[1]];
      Associates(s[..2], Escape(s[2..]), rest);
    } else {
      Associates(EscapeUnit(s[0]), Escape(s[1..]), rest);
    }
  }

  lemma {:induction false} ReadClosingQuote(rest: Text)
    ensures ReadString(Escape([]) + ([QUOTE] + rest)) == Some(([], rest))
  {
    assert Escape([]) + ([QUOTE] + rest) == [QUOTE] + rest;
    assert ([QUOTE] + rest)[1..] == rest;
  }

  /** Reading back what was quoted gives the string and leaves the rest. */
  lemma {:induction false} ReadStringInvertsEscape(s: Text, rest: Text)
    ensures ReadString(Escape(s) + ([QUOTE] + rest)) == Some((s, rest))
  {
    if s == [] {
      ReadClosingQuote(rest);
    } else {
      var k := if StartsWithPair(s) then 2 else 1;
      var tail := Escape(s[k..]) + ([QUOTE] + rest);
      EscapeAppends(s, [QUOTE] + rest);
      ReadStringInvertsEscape(s[k..], rest);
      if k == 2 {
        ReadRawPair(s[0], s[1], tail);
        assert s == [s[0]] + ([s[1]] + s[2..]);
      } else {
        ReadUnitInverts(s[0], tail);
        assert s == [s[0]] + s[1..];
      }
    }
  }

  // ---------------------------------------------------------------- key order

  /** Array.prototype.sort on strings: lexicographic by code unit. */
  predicate KeyLess(a: Text, b: Text) {
    b != [] && (a == [] || a[0] < b[0] || (a[0] == b[0] && KeyLess(a[1..], b[1..])))
  }

  lemma {:induction false} KeyLessTotal(a: Text, b: Text)
    ensures KeyLess(a, b) || a == b || KeyLess(b, a)
  {
    if a != [] && b != [] && a[0] == b[0] {
      KeyLessTotal(a[1..], b[1..]);
      if a[1..] == b[1..] {
        assert a == [a[0]] + a[1..] && b == [b[0]] + b[1..];
      }
    }
  }

  lemma {:induction false} KeyLessTransitive(a: Text, b: Text, c: Text)
    requires KeyLess(a, b) && KeyLess(b, c)
    ensures KeyLess(a, c)
  {
    if a != [] && a[0] == b[0] == c[0] {
      KeyLessTransitive(a[1..], b[1..], c[1..]);
    }
  }

  lemma {:induction false} KeyLessIrreflexive(a: Text)
    ensures !KeyLess(a, a)
  {
    if a != [] { KeyLessIrreflexive(a[1..]); }
  }

  /** The first unit in which two keys differ decides; a key comes before its extensions. */
  lemma {:induction false} KeyLessByFirstDifference(a: Text, b: Text, i: nat)
    requires i <= |a| && i <= |b| && a[..i] == b[..i]
    ensures i < |a| && i < |b| && a[i] != b[i] ==> (KeyLess(a, b) <==> a[i] < b[i])
    ensures i == |a| ==> (KeyLess(a, b) <==> |a| < |b|)
    ensures i == |b| ==> !KeyLess(a, b)
  {
    if i > 0 {
      assert a[0] == a[..i][0] && b[0] == b[..i][0];
      assert a[1..][..i - 1] == a[..i][1..] && b[1..][..i - 1] == b[..i][1..];
      KeyLessByFirstDifference(a[1..], b[1..], i - 1);
    }
  }

  predicate StrictlySorted(ks: seq<Text>) {
    forall i, j | 0 <= i < j < |ks| :: KeyLess(ks[i], ks[j])
  }

  function InsertKey(k: Text, ks: seq<Text>): seq<Text> {
    if ks == [] || !KeyLess(ks[0], k) then [k] + ks else [ks[0]] + InsertKey(k, ks[1..])
  }

  function SortKeys(ks: seq<Text>): seq<Text> {
    if ks == [] then [] else InsertKey(ks[0], SortKeys(ks[1..]))
  }

  lemma {:induction false} InsertKeySorts(k: Text, ks: seq<Text>)
    requires StrictlySorted(ks) && k !in ks
    ensures StrictlySorted(InsertKey(k, ks))
    ensures L.Elements(InsertKey(k, ks)) == L.Elements(ks) + {k}
  {
    if ks == [] {
    } else if KeyLess(ks[0], k) {
      InsertKeySorts(k, ks[1..]);
      var rest := InsertKey(k, ks[1..]);
      forall j | 0 <= j < |rest| ensures KeyLess(ks[0], rest[j]) {
        assert rest[j] in L.Elements(rest);
      }
      assert ks == [ks[0]] + ks[1..];
      assert L.Elements(InsertKey(k, ks)) == {ks[0]} + L.Elements(rest);
    } else {
      KeyLessTotal(ks[0], k);
      forall j | 0 <= j < |ks| ensures KeyLess(k, ks[j]) {
        if j > 0 { KeyLessTransitive(k, ks[0], ks[j]); }
      }
    }
  }

  lemma {:induction false} SortKeysSorts(ks: seq<Text>)
    requires forall i, j | 0 <= i < j < |ks| :: ks[i] != ks[j]
    ensures StrictlySorted(SortKeys(ks))
    ensures L.Elements(SortKeys(ks)) == L.Elements(ks)
  {
    if ks != [] {
      SortKeysSorts(ks[1..]);
      assert ks == [ks[0]] + ks[1..];
      assert ks[0] !in L.Elements(ks[1..]);
      assert ks[0] !in L.Elements(SortKeys(ks[1..]));
      InsertKeySorts(ks[0], SortKeys(ks[1..]));
    }
  }

  /** A set of keys has one sorted order. */
  lemma {:induction false} SortedOrderUnique(xs: seq<Text>, ys: seq<Text>)
    requires StrictlySorted(xs) && StrictlySorted(ys) && L.Elements(xs) == L.Elements(ys)
    ensures xs == ys
  {
    if xs == [] {
      assert forall i | 0 <= i < |ys| :: ys[i] in L.Elements(ys);
    } else {
      assert xs[0] in L.Elements(ys);
      var i :| 0 <= i < |ys| && ys[i] == xs[0];
      assert ys[0] in L.Elements(xs);
      var j :| 0 <= j < |xs| && xs[j] == ys[0];
      if i > 0 && j > 0 {
        KeyLessTransitive(xs[0], xs[j], xs[0]);
        KeyLessIrreflexive(xs[0]);
      }
      assert xs[0] == ys[0];
      HeadNotInTail(xs);
      HeadNotInTail(ys);
      assert L.Elements(xs[1..]) == L.Elements(xs) - {xs[0]};
      assert L.Elements(ys[1..]) == L.Elements(ys) - {ys[0]};
      SortedOrderUnique(xs[1..], ys[1..]);
      assert xs == [xs[0]] + xs[1..] && ys == [ys[0]] + ys[1..];
    }
  }

  lemma HeadNotInTail(xs: seq<Text>)
    requires StrictlySorted(xs) && xs != []
    ensures xs[0] !in xs[1..]
  {
    KeyLessIrreflexive(xs[0]);
  }

  // ---------------------------------------------------------------- serializer

  /** Keys of the members whose value is not undefined, in insertion order. */
  function DefinedKeys(ms: seq<Member>): (ks: seq<Text>)
    ensures forall k :: k in ks <==> exists i :: 0 <= i < |ms| && ms[i].key == k && !ms[i].value.Undefined?
  {
    if ms == [] then []
    else if ms[0].value.Undefined? then DefinedKeys(ms[1..])
    else [ms[0].key] + DefinedKeys(ms[1..])
  }

  function KeyOf(m: Member): Text { m.key }

  function ValueAt(ms: seq<Member>, k: Text): Value
    requires HasKey(ms, k)
  {
    ms[Tables.Find(KeyOf, ms, k).value].value
  }

  function Canon(v: Value): Text
    decreases v, 1
  {
    match v
    case Undefined => TEXT_NULL
    case Null => TEXT_NULL
    case NonFinite => TEXT_NULL
    case Bool(b) => if b then TEXT_TRUE else TEXT_FALSE
    case Number(n) => n
    case Str(s) => Quote(s)
    case Arr(items) => [OPEN_BRACKET] + JoinItems(items) + [CLOSE_BRACKET]
    case Obj(ms) => [OPEN_BRACE] + JoinMembers(SortedKeys(ms), ms) + [CLOSE_BRACE]
  }

  function SortedKeys(ms: seq<Member>): seq<Text> { SortKeys(DefinedKeys(ms)) }

  function JoinItems(items: seq<Value>): Text
    decreases items, 0
  {
    if items == [] then []
    else Canon(items[0]) + (if |items| == 1 then [] else [COMMA] + JoinItems(items[1..]))
  }

  /** One `key:value` entry and the text after it. */
  function Entry(key: Text, value: Text, after: Text): Text { key + ([COLON] + (value + after)) }

  /** The members of `ms` named by `ks`; keys absent from `ms` are never asked for. */
  function JoinMembers(ks: seq<Text>, ms: seq<Member>): Text
    decreases ms, 0, |ks|
  {
    if ks == [] then []
    else
      Entry(
        Quote(ks[0]),
        if HasKey(ms, ks[0]) then Canon(ValueAt(ms, ks[0])) else [],
        if |ks| == 1 then [] else [COMMA] + JoinMembers(ks[1..], ms))
  }

  predicate HasKey(ms: seq<Member>, k: Text) { exists i :: 0 <= i < |ms| && ms[i].key == k }

  // ---------------------------------------------------------------- meaning

  predicate PrintsNull(v: Value) { v.Undefined? || v.Null? || v.NonFinite? }

  predicate DefinedAt(ms: seq<Member>, i: int) { 0 <= i < |ms| && !ms[i].value.Undefined? }

  /** Same request: equal up to member order and undefined members, with an
      undefined element (and a non-finite number) standing for null. */
  ghost predicate Same(v: Value, w: Value)
    decreases v
  {
    match v
    case Bool(b) => w == Bool(b)
    case Number(n) => w == Number(n)
    case Str(s) => w == Str(s)
    case Arr(items) =>
      w.Arr? && |items| == |w.items| && forall i | 0 <= i < |items| :: Same(items[i], w.items[i])
    case Obj(ms) =>
      && w.Obj?
      && L.Elements(DefinedKeys(ms)) == L.Elements(DefinedKeys(w.members))
      && forall i | DefinedAt(ms, i) && HasKey(w.members, ms[i].key) ::
           Same(ms[i].value, ValueAt(w.members, ms[i].key))
    case _ => PrintsNull(w)
  }

  // ---------------------------------------------------------------- text determines the value

  /** What may follow a complete value inside a document. */
  predicate Delimited(r: Text) { r == [] || r[0] == COMMA || r[0] == CLOSE_BRACKET || r[0] == CLOSE_BRACE }

  lemma {:induction false} CanonHead(v: Value)
    requires Valid(v)
    ensures Canon(v) != []
    ensures Canon(v)[0] == TEXT_NULL[0] <==> PrintsNull(v)
    ensures Canon(v)[0] == TEXT_TRUE[0] <==> v == Bool(true)
    ensures Canon(v)[0] == TEXT_FALSE[0] <==> v == Bool(false)
    ensures Canon(v)[0] == QUOTE <==> v.Str?
    ensures Canon(v)[0] == OPEN_BRACKET <==> v.Arr?
    ensures Canon(v)[0] == OPEN_BRACE <==> v.Obj?
    ensures !Delimited(Canon(v))
  {
  }

  lemma CutPrefix(a: Text, r1: Text, b: Text, r2: Text)
    requires a + r1 == b + r2 && |a| == |b|
    ensures a == b && r1 == r2
  {
    assert a == (a + r1)[..|a|] && b == (b + r2)[..|b|];
    assert r1 == (a + r1)[|a|..] && r2 == (b + r2)[|b|..];
  }

  lemma NumeralEnds(a: Text, r: Text)
    requires IsNumeral(a) && Delimited(r)
    ensures forall i | 0 <= i < |a| :: IsNumeralUnit((a + r)[i])
    ensures r != [] ==> !IsNumeralUnit((a + r)[|a|])
  {
  }

  lemma NumeralUnambiguous(a: Text, r1: Text, b: Text, r2: Text)
    requires IsNumeral(a) && IsNumeral(b) && Delimited(r1) && Delimited(r2) && a + r1 == b + r2
    ensures a == b && r1 == r2
  {
    NumeralEnds(a, r1);
    NumeralEnds(b, r2);
    assert |a| == |b|;
    CutPrefix(a, r1, b, r2);
  }

  lemma QuoteUnambiguous(a: Text, r1: Text, b: Text, r2: Text)
    requires Quote(a) + r1 == Quote(b) + r2
    ensures a == b && r1 == r2
  {
    QuoteOpens(a, r1);
    QuoteOpens(b, r2);
    ReadStringInvertsEscape(a, r1);
    ReadStringInvertsEscape(b, r2);
  }

  lemma {:induction false} QuoteOpens(s: Text, r: Text)
    ensures (Quote(s) + r)[1..] == Escape(s) + ([QUOTE] + r)
  {
  }

  /** Two valid values whose texts agree up to what follows mean the same, and
      the same text follows. */
  lemma {:induction false} Unambiguous(v: Value, w: Value, r1: Text, r2: Text)
    requires Valid(v) && Valid(w) && Delimited(r1) && Delimited(r2)
    requires Canon(v) + r1 == Canon(w) + r2
    ensures Same(v, w) && r1 == r2
    decreases v, 1
  {
    CanonHead(v);
    CanonHead(w);
    assert (Canon(v) + r1)[0] == Canon(v)[0] && (Canon(w) + r2)[0] == Canon(w)[0];
    match v
    case Number(n) =>
      NumeralUnambiguous(n, r1, w.numeral, r2);
    case Str(s) =>
      QuoteUnambiguous(s, r1, w.s, r2);
    case Arr(items) =>
      ArrOpens(items, r1);
      ArrOpens(w.items, r2);
      ItemsUnambiguous(items, w.items, [CLOSE_BRACKET] + r1, [CLOSE_BRACKET] + r2);
      CutPrefix([CLOSE_BRACKET], r1, [CLOSE_BRACKET], r2);
    case Obj(ms) =>
      ObjUnambiguous(ms, w.members, r1, r2);
    case _ =>
      CutPrefix(Canon(v), r1, Canon(w), r2);
  }

  lemma {:induction false} ArrOpens(items: seq<Value>, r: Text)
    ensures (Canon(Arr(items)) + r)[1..] == JoinItems(items) + ([CLOSE_BRACKET] + r)
  {
  }

  lemma {:induction false} ObjOpens(ms: seq<Member>, r: Text)
    ensures (Canon(Obj(ms)) + r)[1..] == JoinMembers(SortedKeys(ms), ms) + ([CLOSE_BRACE] + r)
  {
  }

  function ItemsTail(items: seq<Value>, r: Text): Text
    requires items != []
  {
    (if |items| == 1 then [] else [COMMA] + JoinItems(items[1..])) + r
  }

  lemma {:induction false} JoinItemsOpens(items: seq<Value>, r: Text)
    requires items != []
    ensures JoinItems(items) + r == Canon(items[0]) + ItemsTail(items, r)
  {
    if |items| > 1 { Regroup(Canon(items[0]), [COMMA] + JoinItems(items[1..]), r); }
  }

  lemma Regroup(a: Text, b: Text, c: Text)
    ensures (a + b) + c == a + (b + c)
  {
  }

  lemma ItemsTailOpens(items: seq<Value>, r: Text)
    requires items != [] && r != [] && r[0] == CLOSE_BRACKET
    ensures Delimited(ItemsTail(items, r))
    ensures |items| == 1 ==> ItemsTail(items, r) == r
    ensures |items| > 1 ==> ItemsTail(items, r) == [COMMA] + (JoinItems(items[1..]) + r)
  {
  }

  lemma {:induction false} ItemsUnambiguous(a: seq<Value>, b: seq<Value>, r1: Text, r2: Text)
    requires forall i | 0 <= i < |a| :: Valid(a[i])
    requires forall i | 0 <= i < |b| :: Valid(b[i])
    requires r1 != [] && r2 != [] && r1[0] == r2[0] == CLOSE_BRACKET
    requires JoinItems(a) + r1 == JoinItems(b) + r2
    ensures |a| == |b| && r1 == r2
    ensures forall i | 0 <= i < |a| :: Same(a[i], b[i])
    decreases a, 0
  {
    if a == [] || b == [] {
      ItemsEmpty(a, r1);
      ItemsEmpty(b, r2);
      assert JoinItems(a) == [] && JoinItems(b) == [];
      assert r1 == [] + r1 && r2 == [] + r2;
    } else {
      JoinItemsOpens(a, r1);
      JoinItemsOpens(b, r2);
      var t1, t2 := ItemsTail(a, r1), ItemsTail(b, r2);
      ItemsTailOpens(a, r1);
      ItemsTailOpens(b, r2);
      Unambiguous(a[0], b[0], t1, t2);
      if |a| > 1 {
        assert |b| > 1;
        CutPrefix([COMMA], JoinItems(a[1..]) + r1, [COMMA], JoinItems(b[1..]) + r2);
        ItemsUnambiguous(a[1..], b[1..], r1, r2);
        forall i | 0 <= i < |a| ensures Same(a[i], b[i]) {
          if i > 0 { assert a[i] == a[1..][i - 1] && b[i] == b[1..][i - 1]; }
        }
      }
    }
  }

  lemma {:induction false} ItemsEmpty(items: seq<Value>, r: Text)
    requires forall i | 0 <= i < |items| :: Valid(items[i])
    requires r != [] && r[0] == CLOSE_BRACKET
    ensures (JoinItems(items) + r)[0] == CLOSE_BRACKET <==> items == []
  {
    if items != [] {
      JoinItemsOpens(items, r);
      CanonHead(items[0]);
    }
  }

  lemma {:induction false} DefinedKeysDistinct(ms: seq<Member>)
    requires DistinctKeys(ms)
    ensures forall i, j | 0 <= i < j < |DefinedKeys(ms)| :: DefinedKeys(ms)[i] != DefinedKeys(ms)[j]
  {
    if ms != [] {
      DefinedKeysDistinct(ms[1..]);
      forall k | k in DefinedKeys(ms[1..]) ensures k != ms[0].key {
        var i :| 0 <= i < |ms[1..]| && ms[1..][i].key == k;
        assert ms[i + 1].key == k;
      }
      forall j | 0 <= j < |DefinedKeys(ms[1..])| ensures DefinedKeys(ms[1..])[j] != ms[0].key {
        assert DefinedKeys(ms[1..])[j] in DefinedKeys(ms[1..]);
      }
    }
  }

  lemma {:induction false} SortedKeysSort(ms: seq<Member>)
    requires DistinctKeys(ms)
    ensures StrictlySorted(SortedKeys(ms))
    ensures L.Elements(SortedKeys(ms)) == L.Elements(DefinedKeys(ms))
    ensures forall k :: k in SortedKeys(ms) <==> k in DefinedKeys(ms)
    ensures forall k | k in SortedKeys(ms) :: HasKey(ms, k)
  {
    DefinedKeysDistinct(ms);
    SortKeysSorts(DefinedKeys(ms));
    forall k ensures k in SortedKeys(ms) <==> k in DefinedKeys(ms) {
      assert k in SortedKeys(ms) <==> k in L.Elements(SortedKeys(ms));
      assert k in DefinedKeys(ms) <==> k in L.Elements(DefinedKeys(ms));
    }
  }

  lemma ValueAtMember(ms: seq<Member>, i: nat)
    requires DistinctKeys(ms) && i < |ms|
    ensures HasKey(ms, ms[i].key) && ValueAt(ms, ms[i].key) == ms[i].value
  {
  }

  function MembersTail(ks: seq<Text>, ms: seq<Member>, r: Text): Text
    requires ks != []
  {
    (if |ks| == 1 then [] else [COMMA] + JoinMembers(ks[1..], ms)) + r
  }

  lemma {:induction false} JoinMembersOpens(ks: seq<Text>, ms: seq<Member>, r: Text)
    requires ks != [] && HasKey(ms, ks[0])
    ensures JoinMembers(ks, ms) + r == Entry(Quote(ks[0]), Canon(ValueAt(ms, ks[0])), MembersTail(ks, ms, r))
  {
    var key, value := Quote(ks[0]), Canon(ValueAt(ms, ks[0]));
    EntryExtends(key, value, if |ks| == 1 then [] else [COMMA] + JoinMembers(ks[1..], ms), r);
  }

  lemma EntryExtends(key: Text, value: Text, after: Text, r: Text)
    ensures Entry(key, value, after) + r == Entry(key, value, after + r)
  {
  }

  lemma {:induction false} MembersTailOpens(ks: seq<Text>, ms: seq<Member>, r: Text)
    requires ks != [] && r != [] && r[0] == CLOSE_BRACE
    ensures Delimited(MembersTail(ks, ms, r))
    ensures |ks| == 1 ==> MembersTail(ks, ms, r) == r
    ensures |ks| > 1 ==> MembersTail(ks, ms, r) == [COMMA] + (JoinMembers(ks[1..], ms) + r)
  {
  }

  lemma EntryUnambiguous(k1: Text, c1: Text, t1: Text, k2: Text, c2: Text, t2: Text)
    requires Entry(Quote(k1), c1, t1) == Entry(Quote(k2), c2, t2)
    ensures k1 == k2 && c1 + t1 == c2 + t2
  {
    QuoteUnambiguous(k1, [COLON] + (c1 + t1), k2, [COLON] + (c2 + t2));
    CutPrefix([COLON], c1 + t1, [COLON], c2 + t2);
  }

  ghost predicate SameAt(ms1: seq<Member>, ms2: seq<Member>, k: Text) {
    HasKey(ms1, k) && HasKey(ms2, k) && Same(ValueAt(ms1, k), ValueAt(ms2, k))
  }

  lemma {:induction false} FirstMemberUnambiguous(
      ks1: seq<Text>, ms1: seq<Member>, ks2: seq<Text>, ms2: seq<Member>, r1: Text, r2: Text)
    requires ks1 != [] && HasKey(ms1, ks1[0]) && Valid(ValueAt(ms1, ks1[0]))
    requires ks2 != [] && HasKey(ms2, ks2[0]) && Valid(ValueAt(ms2, ks2[0]))
    requires r1 != [] && r2 != [] && r1[0] == r2[0] == CLOSE_BRACE
    requires JoinMembers(ks1, ms1) + r1 == JoinMembers(ks2, ms2) + r2
    ensures ks1[0] == ks2[0] && SameAt(ms1, ms2, ks1[0])
    ensures MembersTail(ks1, ms1, r1) == MembersTail(ks2, ms2, r2)
    decreases ms1, 0, 0
  {
    var v1, v2 := ValueAt(ms1, ks1[0]), ValueAt(ms2, ks2[0]);
    var t1, t2 := MembersTail(ks1, ms1, r1), MembersTail(ks2, ms2, r2);
    JoinMembersOpens(ks1, ms1, r1);
    JoinMembersOpens(ks2, ms2, r2);
    MembersTailOpens(ks1, ms1, r1);
    MembersTailOpens(ks2, ms2, r2);
    EntryUnambiguous(ks1[0], Canon(v1), t1, ks2[0], Canon(v2), t2);
    Unambiguous(v1, v2, t1, t2);
  }

  lemma {:induction false} MembersUnambiguous(
      ks1: seq<Text>, ms1: seq<Member>, ks2: seq<Text>, ms2: seq<Member>, r1: Text, r2: Text)
    requires forall k | k in ks1 :: HasKey(ms1, k) && Valid(ValueAt(ms1, k))
    requires forall k | k in ks2 :: HasKey(ms2, k) && Valid(ValueAt(ms2, k))
    requires r1 != [] && r2 != [] && r1[0] == r2[0] == CLOSE_BRACE
    requires JoinMembers(ks1, ms1) + r1 == JoinMembers(ks2, ms2) + r2
    ensures ks1 == ks2 && r1 == r2
    ensures forall k | k in ks1 :: SameAt(ms1, ms2, k)
    decreases ms1, 0, |ks1|
  {
    if ks1 == [] || ks2 == [] {
      MembersEmpty(ks1, ms1, r1);
      MembersEmpty(ks2, ms2, r2);
      assert r1 == [] + r1 && r2 == [] + r2;
    } else {
      FirstMemberUnambiguous(ks1, ms1, ks2, ms2, r1, r2);
      MembersTailOpens(ks1, ms1, r1);
      MembersTailOpens(ks2, ms2, r2);
      if |ks1| > 1 {
        assert |ks2| > 1;
        CutPrefix([COMMA], JoinMembers(ks1[1..], ms1) + r1, [COMMA], JoinMembers(ks2[1..], ms2) + r2);
        MembersUnambiguous(ks1[1..], ms1, ks2[1..], ms2, r1, r2);
        assert ks1 == [ks1[0]] + ks1[1..] && ks2 == [ks2[0]] + ks2[1..];
      }
    }
  }

  lemma {:induction false} MembersEmpty(ks: seq<Text>, ms: seq<Member>, r: Text)
    requires forall k | k in ks :: HasKey(ms, k)
    requires r != [] && r[0] == CLOSE_BRACE
    ensures (JoinMembers(ks, ms) + r)[0] == CLOSE_BRACE <==> ks == []
  {
  }

  lemma {:induction false} ObjUnambiguous(ms1: seq<Member>, ms2: seq<Member>, r1: Text, r2: Text)
    requires Valid(Obj(ms1)) && Valid(Obj(ms2))
    requires Canon(Obj(ms1)) + r1 == Canon(Obj(ms2)) + r2
    ensures Same(Obj(ms1), Obj(ms2)) && r1 == r2
    decreases ms1, 1
  {
    var ks1, ks2 := SortedKeys(ms1), SortedKeys(ms2);
    SortedKeysSort(ms1);
    SortedKeysSort(ms2);
    ObjOpens(ms1, r1);
    ObjOpens(ms2, r2);
    MembersUnambiguous(ks1, ms1, ks2, ms2, [CLOSE_BRACE] + r1, [CLOSE_BRACE] + r2);
    CutPrefix([CLOSE_BRACE], r1, [CLOSE_BRACE], r2);
    forall i | DefinedAt(ms1, i) && HasKey(ms2, ms1[i].key)
      ensures Same(ms1[i].value, ValueAt(ms2, ms1[i].key))
    {
      ValueAtMember(ms1, i);
      assert ms1[i].key in ks1;
    }
  }

  // ---------------------------------------------------------------- the value determines the text

  lemma {:induction false} SameText(v: Value, w: Value)
    requires Valid(v) && Valid(w) && Same(v, w)
    ensures Canon(v) == Canon(w)
    decreases v, 1
  {
    match v
    case Arr(items) => ItemsSameText(items, w.items);
    case Obj(ms) =>
      SortedKeysSort(ms);
      SortedKeysSort(w.members);
      SortedOrderUnique(SortedKeys(ms), SortedKeys(w.members));
      forall k | k in SortedKeys(ms) ensures Canon(ValueAt(ms, k)) == Canon(ValueAt(w.members, k)) {
        assert k in DefinedKeys(ms);
        var i :| 0 <= i < |ms| && ms[i].key == k && !ms[i].value.Undefined?;
        assert DefinedAt(ms, i);
        ValueAtMember(ms, i);
        SameText(ms[i].value, ValueAt(w.members, k));
      }
      MembersSameText(SortedKeys(ms), ms, w.members);
    case _ =>
  }

  lemma {:induction false} ItemsSameText(a: seq<Value>, b: seq<Value>)
    requires |a| == |b|
    requires forall i | 0 <= i < |a| :: Valid(a[i]) && Valid(b[i]) && Same(a[i], b[i])
    ensures JoinItems(a) == JoinItems(b)
    decreases a, 0
  {
    if a != [] {
      SameText(a[0], b[0]);
      ItemsSameText(a[1..], b[1..]);
    }
  }

  lemma {:induction false} MembersSameText(ks: seq<Text>, ms1: seq<Member>, ms2: seq<Member>)
    requires forall k | k in ks :: HasKey(ms1, k) && HasKey(ms2, k) && Canon(ValueAt(ms1, k)) == Canon(ValueAt(ms2, k))
    ensures JoinMembers(ks, ms1) == JoinMembers(ks, ms2)
  {
    if ks != [] { MembersSameText(ks[1..], ms1, ms2); }
  }

  /** The request text identifies the request. */
  lemma {:induction false} CanonIdentifiesRequest(v: Value, w: Value)
    requires Valid(v) && Valid(w)
    ensures Canon(v) == Canon(w) <==> Same(v, w)
  {
    if Canon(v) == Canon(w) {
      assert Canon(v) + [] == Canon(w) + [];
      Unambiguous(v, w, [], []);
    }
    if Same(v, w) {
      SameText(v, w);
    }
  }

  /** computeRequestHash over any digest without collisions: the stored hashes of
      two requests agree exactly when the requests are the same. */
  lemma {:induction false} RequestHashIdentifiesRequest<Digest(!new)>(digest: Text -> Digest, v: Value, w: Value)
    requires forall s: Text, t: Text | digest(s) == digest(t) :: s == t
    requires Valid(v) && Valid(w)
    ensures digest(Canon(v)) == digest(Canon(w)) <==> Same(v, w)
  {
    CanonIdentifiesRequest(v, w);
  }
}
