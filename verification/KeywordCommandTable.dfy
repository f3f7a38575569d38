/** The table of configured commands: application-wide rows, and each tenant's own. */
module KeywordCommandTable {
  import opened Wrappers
  import opened KeywordGrammar
  import opened KeywordCommands
  import Tables

  datatype Row = Row(appId: string, tenantId: Option<string>, definition: Definition)

  datatype Reply = Stored(row: Row) | Invalid(field: string) | Conflict(phrase: string, claimedBy: string)

  /** The table's unique index. */
  function KeyOf(r: Row): (string, Option<string>, string) { (r.appId, r.tenantId, r.definition.keyword) }

  predicate SameKey(r: Row, appId: string, tenantId: Option<string>, keyword: string) {
    r.appId == appId && r.tenantId == tenantId && r.definition.keyword == keyword
  }

  ghost predicate Keyed(rows: seq<Row>) {
    forall i, j | 0 <= i < j < |rows| ::
      !SameKey(rows[i], rows[j].appId, rows[j].tenantId, rows[j].definition.keyword)
  }

  predicate SharesPhrase(d: Definition, e: Definition) { exists p | p in Phrases(d) :: p in Phrases(e) }

  predicate Clashes(d: Definition, e: Definition) { d.keyword != e.keyword && SharesPhrase(d, e) }

  /** The rows that answer for the application itself. */
  predicate ForApplication(r: Row, appId: string) {
    r.appId == appId && r.tenantId == None && r.definition.enabled
  }

  predicate HasOwn(rows: seq<Row>, appId: string, tenantId: string, keyword: string) {
    exists r | r in rows :: SameKey(r, appId, Some(tenantId), keyword)
  }

  /** The rows in force for a tenant: its own, and the application's it does not
      replace; a disabled row of its own silences the application's. */
  predicate ForTenant(rows: seq<Row>, r: Row, appId: string, tenantId: string) {
    && r in rows && r.appId == appId && r.definition.enabled
    && (r.tenantId == Some(tenantId)
        || (r.tenantId == None && !HasOwn(rows, appId, tenantId, r.definition.keyword)))
  }

  predicate InForce(rows: seq<Row>, r: Row, appId: string, tenantId: Option<string>) {
    if tenantId == None then r in rows && ForApplication(r, appId) else ForTenant(rows, r, appId, tenantId.value)
  }

  /** Of one keyword, a tenant's own row decides: it is in force exactly if it is
      enabled, and then alone; without one, the application's enabled row is. */
  lemma OwnRowDecides(rows: seq<Row>, o: Row, r: Row, appId: string, tenantId: string)
    requires Keyed(rows) && r in rows && r.definition.keyword == o.definition.keyword
    ensures o in rows && o.appId == appId && o.tenantId == Some(tenantId) ==>
      (InForce(rows, r, appId, Some(tenantId)) <==> r == o && o.definition.enabled)
    ensures
      (forall x | x in rows && x.appId == appId && x.tenantId == Some(tenantId) ::
        x.definition.keyword != o.definition.keyword) ==>
      (InForce(rows, r, appId, Some(tenantId)) <==>
        r.appId == appId && r.tenantId == None && r.definition.enabled)
  {
  }

  /** Nobody else's rows matter: not another application's, not another tenant's. */
  lemma OthersDoNotMatter(rows: seq<Row>, others: seq<Row>, r: Row, appId: string, tenantId: string)
    requires forall x: Row | x.appId == appId && x.tenantId in [None, Some(tenantId)] :: x in rows <==> x in others
    ensures InForce(rows, r, appId, Some(tenantId)) <==> InForce(others, r, appId, Some(tenantId))
    ensures InForce(rows, r, appId, None) <==> InForce(others, r, appId, None)
    ensures InForce(rows, r, appId, Some(tenantId)) || InForce(rows, r, appId, None) ==>
      r.appId == appId && r.tenantId in [None, Some(tenantId)] && r.definition.enabled
  {
    forall keyword
      ensures HasOwn(rows, appId, tenantId, keyword) <==> HasOwn(others, appId, tenantId, keyword)
    {
      if x :| x in rows && SameKey(x, appId, Some(tenantId), keyword) { assert x in others; }
      if x :| x in others && SameKey(x, appId, Some(tenantId), keyword) { assert x in rows; }
    }
  }

  // ---------------------------------------------------------------- the merge and the conflict search

  /** Map.set on the merge's map from keyword to row. */
  function Overlaid(rows: seq<Row>, r: Row): seq<Row> {
    if rows == [] then [r]
    else if rows[0].definition.keyword == r.definition.keyword then [r] + rows[1..]
    else [rows[0]] + Overlaid(rows[1..], r)
  }

  ghost predicate ByKeyword(rows: seq<Row>) {
    forall i, j | 0 <= i < j < |rows| :: rows[i].definition.keyword != rows[j].definition.keyword
  }

  lemma {:induction false} OverlaidHas(rows: seq<Row>, r: Row, x: Row)
    requires ByKeyword(rows)
    ensures x in Overlaid(rows, r) <==> x == r || (x in rows && x.definition.keyword != r.definition.keyword)
    ensures ByKeyword(Overlaid(rows, r))
    decreases |rows|
  {
    if rows != [] {
      OverlaidHas(rows[1..], r, x);
      var o := Overlaid(rows[1..], r);
      forall i | 0 <= i < |o| && rows[0].definition.keyword != r.definition.keyword
        ensures o[i].definition.keyword != rows[0].definition.keyword
      {
        OverlaidHas(rows[1..], r, o[i]);
        assert o[i] in o;
      }
    }
  }

  /** What the map holds once the application's rows and the tenant's rows among the
      first `own` are in. */
  ghost predicate Merged(m: seq<Row>, rows: seq<Row>, appId: string, tenantId: string, own: nat)
    requires own <= |rows|
  {
    ByKeyword(m) && forall x :: x in m <==> MergedHas(x, rows, appId, tenantId, own)
  }

  predicate MergedHas(x: Row, rows: seq<Row>, appId: string, tenantId: string, own: nat)
    requires own <= |rows|
  {
    x.appId == appId &&
    if x.tenantId == Some(tenantId) then x in rows[..own]
    else x in rows && x.tenantId == None && !HasOwn(rows[..own], appId, tenantId, x.definition.keyword)
  }

  ghost predicate ApplicationRows(m: seq<Row>, rows: seq<Row>, appId: string) {
    ByKeyword(m) && forall x :: x in m <==> x in rows && x.appId == appId && x.tenantId == None
  }

  lemma {:induction false} AddApplicationRow(m: seq<Row>, rows: seq<Row>, i: nat, appId: string)
    requires Keyed(rows) && i < |rows| && ApplicationRows(m, rows[..i], appId)
    ensures rows[i].appId == appId && rows[i].tenantId == None ==>
      ApplicationRows(Overlaid(m, rows[i]), rows[..i + 1], appId)
    ensures !(rows[i].appId == appId && rows[i].tenantId == None) ==> ApplicationRows(m, rows[..i + 1], appId)
  {
    assert rows[..i + 1] == rows[..i] + [rows[i]];
    if rows[i].appId == appId && rows[i].tenantId == None {
      OverlaidHas(m, rows[i], rows[i]);
      forall x ensures x in Overlaid(m, rows[i]) <==> x in rows[..i + 1] && x.appId == appId && x.tenantId == None {
        OverlaidHas(m, rows[i], x);
      }
    }
  }

  lemma {:induction false} AddOwnRow(m: seq<Row>, rows: seq<Row>, i: nat, appId: string, tenantId: string)
    requires Keyed(rows) && i < |rows| && Merged(m, rows, appId, tenantId, i)
    ensures rows[i].appId == appId && rows[i].tenantId == Some(tenantId) ==>
      Merged(Overlaid(m, rows[i]), rows, appId, tenantId, i + 1)
    ensures !(rows[i].appId == appId && rows[i].tenantId == Some(tenantId)) ==> Merged(m, rows, appId, tenantId, i + 1)
  {
    var r := rows[i];
    assert rows[..i + 1] == rows[..i] + [r];
    forall keyword
      ensures HasOwn(rows[..i + 1], appId, tenantId, keyword) <==>
        HasOwn(rows[..i], appId, tenantId, keyword) || SameKey(r, appId, Some(tenantId), keyword)
    {
      if SameKey(r, appId, Some(tenantId), keyword) { assert r in rows[..i + 1]; }
    }
    if r.appId == appId && r.tenantId == Some(tenantId) {
      OverlaidHas(m, r, r);
      forall x ensures x in Overlaid(m, r) <==> MergedHas(x, rows, appId, tenantId, i + 1) {
        OverlaidHas(m, r, x);
      }
    } else {
      forall x ensures MergedHas(x, rows, appId, tenantId, i) <==> MergedHas(x, rows, appId, tenantId, i + 1) {}
    }
  }

  function OnlyEnabled(rows: seq<Row>): (r: seq<Row>)
    ensures forall x :: x in r <==> x in rows && x.definition.enabled
  {
    if rows == [] then []
    else if rows[0].definition.enabled then [rows[0]] + OnlyEnabled(rows[1..])
    else OnlyEnabled(rows[1..])
  }

  /** The commands in force for one tenant, in no particular order. */
  method MergeEffective(rows: seq<Row>, appId: string, tenantId: string) returns (effective: seq<Row>)
    requires Keyed(rows)
    ensures forall x :: x in effective <==> ForTenant(rows, x, appId, tenantId)
  {
    var byKeyword: seq<Row> := [];
    var i := 0;
    while i < |rows|
      invariant 0 <= i <= |rows|
      invariant ApplicationRows(byKeyword, rows[..i], appId)
    {
      AddApplicationRow(byKeyword, rows, i, appId);
      if rows[i].appId == appId && rows[i].tenantId == None { byKeyword := Overlaid(byKeyword, rows[i]); }
      i := i + 1;
    }
    assert rows[..i] == rows;
    i := 0;
    while i < |rows|
      invariant 0 <= i <= |rows|
      invariant Merged(byKeyword, rows, appId, tenantId, i)
    {
      AddOwnRow(byKeyword, rows, i, appId, tenantId);
      if rows[i].appId == appId && rows[i].tenantId == Some(tenantId) { byKeyword := Overlaid(byKeyword, rows[i]); }
      i := i + 1;
    }
    assert rows[..i] == rows;
    effective := OnlyEnabled(byKeyword);
  }

  function FirstShared(phrases: seq<string>, claimed: seq<string>): (p: Option<string>)
    ensures p.Some? ==> p.value in phrases && p.value in claimed
    ensures p == None ==> forall q | q in phrases :: q !in claimed
  {
    if phrases == [] then None
    else if phrases[0] in claimed then Some(phrases[0])
    else FirstShared(phrases[1..], claimed)
  }

  method FindPhraseConflict(candidate: Definition, existing: seq<Row>) returns (conflict: Option<(string, string)>)
    ensures conflict == None <==> forall r | r in existing :: !Clashes(candidate, r.definition)
    ensures conflict.Some? ==> exists r | r in existing ::
      && r.definition.keyword == conflict.value.1 && r.definition.keyword != candidate.keyword
      && conflict.value.0 in Phrases(candidate) && conflict.value.0 in Phrases(r.definition)
  {
    var i := 0;
    while i < |existing|
      invariant 0 <= i <= |existing|
      invariant forall j | 0 <= j < i :: !Clashes(candidate, existing[j].definition)
    {
      var row := existing[i];
      if row.definition.keyword != candidate.keyword {
        var phrase := FirstShared(Phrases(candidate), Phrases(row.definition));
        if phrase.Some? {
          assert Clashes(candidate, row.definition);
          return Some((phrase.value, row.definition.keyword));
        }
      }
      i := i + 1;
    }
    return None;
  }

  // ---------------------------------------------------------------- the repository

  ghost predicate NoClash(rows: seq<Row>, appId: string, tenantId: Option<string>, d: Definition) {
    forall r | InForce(rows, r, appId, tenantId) :: !Clashes(d, r.definition)
  }

  /** `after` is `before` with `row` in the place of the row of its key, if any. */
  ghost predicate Replaced(before: seq<Row>, after: seq<Row>, row: Row) {
    forall x :: x in after <==>
      x == row || (x in before && !SameKey(x, row.appId, row.tenantId, row.definition.keyword))
  }

  ghost predicate Upserted(before: seq<Row>, after: seq<Row>, appId: string, tenantId: Option<string>, input: Input) {
    if Acceptable(input) && NoClash(before, appId, tenantId, Canonical(input))
    then Replaced(before, after, Row(appId, tenantId, Canonical(input)))
    else after == before
  }

  ghost predicate Removed(before: seq<Row>, after: seq<Row>, appId: string, tenantId: Option<string>, keyword: string) {
    forall x :: x in after <==> x in before && !SameKey(x, appId, tenantId, keyword)
  }

  function OnlyApplication(rows: seq<Row>, appId: string): (r: seq<Row>)
    ensures forall x :: x in r <==> x in rows && ForApplication(x, appId)
  {
    if rows == [] then []
    else if ForApplication(rows[0], appId) then [rows[0]] + OnlyApplication(rows[1..], appId)
    else OnlyApplication(rows[1..], appId)
  }

  function Except(rows: seq<Row>, appId: string, tenantId: Option<string>, keyword: string): (r: seq<Row>)
    requires Keyed(rows)
    ensures forall x :: x in r <==> x in rows && !SameKey(x, appId, tenantId, keyword)
    ensures Keyed(r) && |r| <= |rows|
    ensures |r| == |rows| ==> r == rows
  {
    if rows == [] then []
    else
      var rest := Except(rows[1..], appId, tenantId, keyword);
      if SameKey(rows[0], appId, tenantId, keyword) then rest
      else
        assert forall i | 0 <= i < |rest| :: rest[i] in rows[1..];
        [rows[0]] + rest
  }

  lemma PutKeyed(rows: seq<Row>, i: nat, row: Row)
    requires Keyed(rows) && i < |rows| && SameKey(rows[i], row.appId, row.tenantId, row.definition.keyword)
    ensures Keyed(rows[i := row]) && Replaced(rows, rows[i := row], row)
  {
    var after := rows[i := row];
    forall x ensures x in after <==>
      x == row || (x in rows && !SameKey(x, row.appId, row.tenantId, row.definition.keyword))
    {
      if x in rows && !SameKey(x, row.appId, row.tenantId, row.definition.keyword) {
        var j :| 0 <= j < |rows| && rows[j] == x;
        assert after[j] == x;
      }
      if x == row { assert after[i] == row; }
    }
  }

  class KeywordCommandRepository {
    var rows: seq<Row>

    constructor ()
      ensures rows == []
    {
      rows := [];
    }

    method Upsert(appId: string, tenantId: Option<string>, input: Input) returns (reply: Reply)
      requires Keyed(rows)
      modifies this
      ensures Keyed(rows) && Upserted(old(rows), rows, appId, tenantId, input)
      ensures reply.Stored? <==> Acceptable(input) && NoClash(old(rows), appId, tenantId, Canonical(input))
      ensures reply.Invalid? <==> !Acceptable(input)
      ensures reply.Stored? ==> reply.row == Row(appId, tenantId, Canonical(input))
      ensures reply.Conflict? ==> exists r | InForce(old(rows), r, appId, tenantId) ::
        && r.definition.keyword == reply.claimedBy != NormalizeKeywordText(input.keyword)
        && reply.phrase in Phrases(Canonical(input)) && reply.phrase in Phrases(r.definition)
    {
      var verdict := ValidateKeywordCommand(input);
      if verdict.Refused? { return Invalid(verdict.field); }
      var d := verdict.definition;
      var inForce;
      if tenantId == None {
        inForce := OnlyApplication(rows, appId);
      } else {
        inForce := MergeEffective(rows, appId, tenantId.value);
      }
      assert forall r :: r in inForce <==> InForce(rows, r, appId, tenantId);
      var conflict := FindPhraseConflict(d, inForce);
      if conflict.Some? { return Conflict(conflict.value.0, conflict.value.1); }
      var row := Row(appId, tenantId, d);
      var at := Tables.Find(KeyOf, rows, (appId, tenantId, d.keyword));
      if at == None {
        rows := rows + [row];
      } else {
        PutKeyed(rows, at.value, row);
        rows := rows[at.value := row];
      }
      return Stored(row);
    }

    method Remove(appId: string, tenantId: Option<string>, keyword: string) returns (removed: bool)
      requires Keyed(rows)
      modifies this
      ensures Keyed(rows) && Removed(old(rows), rows, appId, tenantId, NormalizeKeywordText(keyword))
      ensures removed <==> rows != old(rows)
    {
      var k := NormalizeKeywordText(keyword);
      var before := |rows|;
      rows := Except(rows, appId, tenantId, k);
      removed := |rows| < before;
    }
  }

  // ---------------------------------------------------------------- runs

  datatype Op =
    | Put(appId: string, tenantId: Option<string>, input: Input)
    | Delete(appId: string, tenantId: Option<string>, keyword: string)

  ghost predicate Step(before: seq<Row>, op: Op, after: seq<Row>) {
    match op
    case Put(appId, tenantId, input) => Upserted(before, after, appId, tenantId, input)
    case Delete(appId, tenantId, keyword) => Removed(before, after, appId, tenantId, NormalizeKeywordText(keyword))
  }

  /** No two commands in force for an owner answer to the same phrase. */
  ghost predicate Unambiguous(rows: seq<Row>, appId: string, tenantId: Option<string>) {
    forall r, s | InForce(rows, r, appId, tenantId) && InForce(rows, s, appId, tenantId) ::
      !Clashes(r.definition, s.definition)
  }

  lemma ClashesBothWays(d: Definition, e: Definition)
    ensures Clashes(d, e) <==> Clashes(e, d)
  {
  }

  lemma StepKeepsApplicationUnambiguous(before: seq<Row>, op: Op, after: seq<Row>, appId: string)
    requires Unambiguous(before, appId, None) && Step(before, op, after)
    ensures Unambiguous(after, appId, None)
  {
  }

  /** Over every sequence of upserts and removals, of any application and tenant, the
      enabled application-wide commands stay unambiguous. */
  lemma {:induction false} RunKeepsApplicationUnambiguous(tables: seq<seq<Row>>, ops: seq<Op>, appId: string)
    requires |tables| == |ops| + 1 && tables[0] == []
    requires forall i | 0 <= i < |ops| :: Step(tables[i], ops[i], tables[i + 1])
    ensures Unambiguous(tables[|ops|], appId, None)
    decreases |ops|
  {
    if ops != [] {
      var n := |ops| - 1;
      RunKeepsApplicationUnambiguous(tables[..n + 1], ops[..n], appId);
      StepKeepsApplicationUnambiguous(tables[n], ops[n], tables[n + 1], appId);
    }
  }

  /** A tenant's own upsert keeps what is in force for that tenant unambiguous. */
  lemma TenantUpsertKeepsUnambiguous(before: seq<Row>, after: seq<Row>, appId: string, tenantId: string, input: Input)
    requires Keyed(before) && Unambiguous(before, appId, Some(tenantId))
    requires Upserted(before, after, appId, Some(tenantId), input)
    ensures Unambiguous(after, appId, Some(tenantId))
  {
    forall r, s | InForce(after, r, appId, Some(tenantId)) && InForce(after, s, appId, Some(tenantId))
      ensures !Clashes(r.definition, s.definition)
    {
      ClashesBothWays(r.definition, s.definition);
      StillInForce(before, after, r, appId, tenantId, input);
      StillInForce(before, after, s, appId, tenantId, input);
    }
  }

  /** What is in force afterwards was so before, or is what was just stored. */
  lemma StillInForce(before: seq<Row>, after: seq<Row>, r: Row, appId: string, tenantId: string, input: Input)
    requires Upserted(before, after, appId, Some(tenantId), input) && InForce(after, r, appId, Some(tenantId))
    ensures InForce(before, r, appId, Some(tenantId)) ||
      (after != before && r == Row(appId, Some(tenantId), Canonical(input)))
  {
    if after != before && r != Row(appId, Some(tenantId), Canonical(input)) && r.tenantId == None {
      var row := Row(appId, Some(tenantId), Canonical(input));
      if HasOwn(before, appId, tenantId, r.definition.keyword) {
        var own :| own in before && SameKey(own, appId, Some(tenantId), r.definition.keyword);
        assert own in after || SameKey(row, appId, Some(tenantId), r.definition.keyword);
        assert row in after;
      }
    }
  }

  /** An application-wide upsert is checked against the application's rows only: it
      keeps a tenant's commands unambiguous exactly when it is disabled, the tenant
      has its own row of that keyword, or it clashes with nothing in force there. */
  lemma ApplicationUpsertAndTenant(before: seq<Row>, after: seq<Row>, appId: string, tenantId: string, d: Definition)
    requires Unambiguous(before, appId, Some(tenantId)) && Replaced(before, after, Row(appId, None, d))
    ensures Unambiguous(after, appId, Some(tenantId)) <==>
      || !d.enabled || HasOwn(before, appId, tenantId, d.keyword)
      || forall r | InForce(before, r, appId, Some(tenantId)) :: !Clashes(d, r.definition)
  {
  }

  /** A removal can uncover the application's row of that keyword: what is in force for
      a tenant stays unambiguous exactly if the row removed is not the tenant's own, or
      the row it uncovers clashes with nothing in force there. */
  lemma RemovalAndTenant(
      before: seq<Row>, after: seq<Row>, appId: string, owner: Option<string>, keyword: string, tenantId: string)
    requires Unambiguous(before, appId, Some(tenantId)) && Removed(before, after, appId, owner, keyword)
    ensures Unambiguous(after, appId, Some(tenantId)) <==>
      || owner != Some(tenantId)
      || forall a, r | a in before && ForApplication(a, appId) && a.definition.keyword == keyword
           && InForce(before, r, appId, Some(tenantId)) :: !Clashes(a.definition, r.definition)
  {
  }
}
