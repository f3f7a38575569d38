/** The idempotency record store: one record per (app, tenant, operation, key),
    claimed, completed or failed under an id that rotates with every claim. */
module IdempotencyLedger {
  import opened Wrappers
  import opened Tables

  datatype Scope = Scope(appId: string, tenantId: string, operation: string, key: string)
  datatype Status = Processing | Completed | Failed
  type Token = nat
  type Payload = string

  datatype Record = Record(
    id: Token, scope: Scope, requestHash: string, status: Status, result: Option<Payload>, expiresAt: int)

  datatype ClaimReply = Granted(record: Record) | Refused(existing: Record)

  function ScopeOf(r: Record): Scope { r.scope }

  /** The store as a table; `issued` counts the ids drawn so far, so that the
      next id (a random UUID in the source) is one never seen before. */
  datatype Ledger = Ledger(rows: map<Scope, Record>, issued: Token)

  // ---------------------------------------------------------------- one statement at a time

  predicate Reclaimable(r: Record, requestHash: string, now: int) {
    r.expiresAt <= now || (r.status == Failed && (r.requestHash == "" || r.requestHash == requestHash))
  }

  function FreshClaim(l: Ledger, scope: Scope, requestHash: string, now: int, ttlMs: int): Record {
    Record(l.issued, scope, requestHash, Processing, None, now + Max(0, ttlMs))
  }

  predicate Grants(l: Ledger, scope: Scope, requestHash: string, now: int) {
    scope in l.rows ==> Reclaimable(l.rows[scope], requestHash, now)
  }

  function AfterClaim(l: Ledger, scope: Scope, requestHash: string, now: int, ttlMs: int): Ledger {
    if Grants(l, scope, requestHash, now)
    then Ledger(l.rows[scope := FreshClaim(l, scope, requestHash, now, ttlMs)], l.issued + 1)
    else l
  }

  function ReplyToClaim(l: Ledger, scope: Scope, requestHash: string, now: int, ttlMs: int): ClaimReply {
    if Grants(l, scope, requestHash, now)
    then Granted(FreshClaim(l, scope, requestHash, now, ttlMs))
    else Refused(l.rows[scope])
  }

  /** A claim is granted when the key is free, expired, or failed for the same or a legacy
      request, and then the record is the claimant's: a fresh id, its hash, no result, and
      the deadline now plus the time to live. Otherwise the record is shown as it is. */
  lemma ClaimMeans(l: Ledger, scope: Scope, requestHash: string, now: int, ttlMs: int)
    ensures var reply, after := ReplyToClaim(l, scope, requestHash, now, ttlMs),
      AfterClaim(l, scope, requestHash, now, ttlMs);
      && (reply.Granted? <==>
            scope in l.rows ==>
              now >= l.rows[scope].expiresAt ||
              (l.rows[scope].status == Failed && l.rows[scope].requestHash in {"", requestHash}))
      && (reply.Granted? ==>
            && reply.record == Record(l.issued, scope, requestHash, Processing, None, now + Max(0, ttlMs))
            && after == Ledger(l.rows[scope := reply.record], l.issued + 1))
      && (reply.Refused? ==> scope in l.rows && reply.existing == l.rows[scope] && after == l)
  {
  }

  predicate Owns(r: Record, id: Token) { r.id == id && r.status == Processing }

  ghost predicate HasOwner(l: Ledger, id: Token) { exists s :: s in l.rows && Owns(l.rows[s], id) }

  /** `status` and `result` written to the processing record holding `id`, if any. */
  ghost function AfterSettle(l: Ledger, id: Token, status: Status, result: Payload): Ledger {
    l.(rows := map s | s in l.rows ::
      if Owns(l.rows[s], id) then l.rows[s].(status := status, result := Some(result)) else l.rows[s])
  }

  /** The processing record of `k`, under this id, is the one row changed: it has the
      status and the result. */
  ghost predicate SettledAt(before: Ledger, after: Ledger, k: Scope, id: Token, status: Status, result: Payload) {
    && k in before.rows && before.rows[k].id == id && before.rows[k].status == Processing
    && after == Ledger(before.rows[k := before.rows[k].(status := status, result := Some(result))], before.issued)
  }

  // ---------------------------------------------------------------- the store

  ghost predicate ValidRows(records: seq<Record>, issued: Token) {
    && Keyed(ScopeOf, records)
    && (forall i | 0 <= i < |records| :: records[i].id < issued)
    && (forall i, j | 0 <= i < j < |records| :: records[i].id != records[j].id)
  }

  ghost function ViewOf(records: seq<Record>, issued: Token): Ledger
    requires ValidRows(records, issued)
  {
    Ledger(Index(ScopeOf, records), issued)
  }

  lemma {:induction false} PushRow(records: seq<Record>, issued: Token, row: Record)
    requires ValidRows(records, issued)
    requires row.id == issued && Find(ScopeOf, records, row.scope) == None
    ensures ValidRows(records + [row], issued + 1)
    ensures row.scope !in ViewOf(records, issued).rows
    ensures ViewOf(records + [row], issued + 1) == Ledger(ViewOf(records, issued).rows[row.scope := row], issued + 1)
  {
    IndexLookup(ScopeOf, records, row.scope);
    IndexPush(ScopeOf, records, row);
  }

  lemma PutRow(records: seq<Record>, issued: Token, i: nat, row: Record, issued': Token)
    requires ValidRows(records, issued) && i < |records| && row.scope == records[i].scope
    requires issued <= issued' && row.id < issued' && (row.id == records[i].id || row.id == issued)
    ensures ValidRows(records[i := row], issued')
    ensures row.scope in ViewOf(records, issued).rows && ViewOf(records, issued).rows[row.scope] == records[i]
    ensures ViewOf(records[i := row], issued') == Ledger(ViewOf(records, issued).rows[row.scope := row], issued')
  {
    assert ScopeOf(records[i]) in Index(ScopeOf, records);
    IndexPut(ScopeOf, records, i, row);
  }

  lemma {:induction false} ClaimOpensRow(records: seq<Record>, issued: Token, scope: Scope, requestHash: string,
      now: int, ttlMs: int)
    requires ValidRows(records, issued) && Find(ScopeOf, records, scope) == None
    ensures var l, row := ViewOf(records, issued), FreshClaim(ViewOf(records, issued), scope, requestHash, now, ttlMs);
      && ValidRows(records + [row], issued + 1)
      && ViewOf(records + [row], issued + 1) == AfterClaim(l, scope, requestHash, now, ttlMs)
      && ReplyToClaim(l, scope, requestHash, now, ttlMs) == Granted(row)
  {
    PushRow(records, issued, FreshClaim(ViewOf(records, issued), scope, requestHash, now, ttlMs));
  }

  lemma ClaimMeetsRow(records: seq<Record>, issued: Token, i: nat, requestHash: string, now: int, ttlMs: int)
    requires ValidRows(records, issued) && i < |records|
    ensures var l, scope := ViewOf(records, issued), records[i].scope;
      var row := FreshClaim(l, scope, requestHash, now, ttlMs);
      if Reclaimable(records[i], requestHash, now) then
        && ValidRows(records[i := row], issued + 1)
        && ViewOf(records[i := row], issued + 1) == AfterClaim(l, scope, requestHash, now, ttlMs)
        && ReplyToClaim(l, scope, requestHash, now, ttlMs) == Granted(row)
      else
        && AfterClaim(l, scope, requestHash, now, ttlMs) == l
        && ReplyToClaim(l, scope, requestHash, now, ttlMs) == Refused(records[i])
  {
    var l := ViewOf(records, issued);
    PutRow(records, issued, i, FreshClaim(l, records[i].scope, requestHash, now, ttlMs), issued + 1);
  }

  lemma OthersHoldOtherIds(records: seq<Record>, issued: Token, i: nat, s: Scope)
    requires ValidRows(records, issued) && i < |records|
    ensures var rows := ViewOf(records, issued).rows;
      s in rows && s != records[i].scope ==> rows[s].id != records[i].id
  {
    if s in ViewOf(records, issued).rows {
      var j :| 0 <= j < |records| && ScopeOf(records[j]) == s && ViewOf(records, issued).rows[s] == records[j];
    }
  }

  lemma SettleRow(records: seq<Record>, issued: Token, i: nat, status: Status, result: Payload)
    requires ValidRows(records, issued) && i < |records| && records[i].status == Processing
    ensures var row := records[i].(status := status, result := Some(result));
      ValidRows(records[i := row], issued) &&
      ViewOf(records[i := row], issued) == AfterSettle(ViewOf(records, issued), row.id, status, result)
    ensures HasOwner(ViewOf(records, issued), records[i].id)
    ensures SettledAt(
      ViewOf(records, issued), ViewOf(records[i := records[i].(status := status, result := Some(result))], issued),
      records[i].scope, records[i].id, status, result)
  {
    var row := records[i].(status := status, result := Some(result));
    var l := ViewOf(records, issued);
    PutRow(records, issued, i, row, issued);
    assert Owns(l.rows[row.scope], row.id);
    forall s | s in l.rows && s != row.scope ensures !Owns(l.rows[s], row.id) {
      OthersHoldOtherIds(records, issued, i, s);
    }
  }

  lemma NothingToSettle(records: seq<Record>, issued: Token, id: Token, status: Status, result: Payload)
    requires ValidRows(records, issued)
    requires forall i | 0 <= i < |records| :: !Owns(records[i], id)
    ensures !HasOwner(ViewOf(records, issued), id)
    ensures AfterSettle(ViewOf(records, issued), id, status, result) == ViewOf(records, issued)
  {
  }

  class IdempotencyRecords {
    var records: seq<Record>
    var issued: Token

    ghost predicate Valid()
      reads this
    {
      ValidRows(records, issued)
    }

    ghost function View(): Ledger
      reads this
      requires Valid()
    {
      ViewOf(records, issued)
    }

    constructor ()
      ensures Valid() && View() == Ledger(map[], 0)
    {
      records := [];
      issued := 0;
    }

    method Claim(scope: Scope, requestHash: string, now: int, ttlMs: int) returns (reply: ClaimReply)
      requires Valid()
      modifies this
      ensures Valid()
      ensures View() == AfterClaim(old(View()), scope, requestHash, now, ttlMs)
      ensures reply == ReplyToClaim(old(View()), scope, requestHash, now, ttlMs)
      ensures reply.Granted? ==>
        reply.record == Record(old(issued), scope, requestHash, Processing, None, now + Max(0, ttlMs))
    {
      var expiresAt := now + Max(0, ttlMs);
      ghost var l := View();
      var at := Find(ScopeOf, records, scope);
      if at == None {
        ClaimOpensRow(records, issued, scope, requestHash, now, ttlMs);
        var row := Record(issued, scope, requestHash, Processing, None, expiresAt);
        assert row == FreshClaim(l, scope, requestHash, now, ttlMs);
        records, issued := records + [row], issued + 1;
        return Granted(row);
      }
      var existing := records[at.value];
      ClaimMeetsRow(records, issued, at.value, requestHash, now, ttlMs);
      if Reclaimable(existing, requestHash, now) {
        var row := existing.(
          id := issued, status := Processing, requestHash := requestHash, result := None, expiresAt := expiresAt);
        assert row == FreshClaim(l, scope, requestHash, now, ttlMs);
        records, issued := records[at.value := row], issued + 1;
        return Granted(row);
      }
      return Refused(existing);
    }

    method Complete(id: Token, result: Payload) returns (done: bool)
      requires Valid()
      modifies this
      ensures Valid()
      ensures View() == AfterSettle(old(View()), id, Completed, result)
      ensures
        if done then exists s :: SettledAt(old(View()), View(), s, id, Completed, result) else View() == old(View())
      ensures !done <==> forall s | s in old(View()).rows ::
        !(old(View()).rows[s].id == id && old(View()).rows[s].status == Processing)
    {
      done := Settle(id, Completed, result);
    }

    method Fail(id: Token, error: Payload) returns (done: bool)
      requires Valid()
      modifies this
      ensures Valid()
      ensures View() == AfterSettle(old(View()), id, Failed, error)
      ensures if done then exists s :: SettledAt(old(View()), View(), s, id, Failed, error) else View() == old(View())
      ensures !done <==> forall s | s in old(View()).rows ::
        !(old(View()).rows[s].id == id && old(View()).rows[s].status == Processing)
    {
      done := Settle(id, Failed, error);
    }

    /** The conditional update both endings share. */
    method Settle(id: Token, status: Status, result: Payload) returns (done: bool)
      requires Valid()
      modifies this
      ensures Valid()
      ensures View() == AfterSettle(old(View()), id, status, result)
      ensures if done then exists s :: SettledAt(old(View()), View(), s, id, status, result) else View() == old(View())
      ensures done <==> HasOwner(old(View()), id)
    {
      var at := Find(r => Owns(r, id), records, true);
      if at == None {
        NothingToSettle(records, issued, id, status, result);
        return false;
      }
      SettleRow(records, issued, at.value, status, result);
      var row := records[at.value];
      records := records[at.value := row.(status := status, result := Some(result))];
      return true;
    }
  }

  // ---------------------------------------------------------------- runs

  /** One statement some client issues, with the clock it reads. */
  datatype Op =
    | Claim(scope: Scope, requestHash: string, now: int, ttlMs: int)
    | Complete(id: Token, result: Payload)
    | Fail(id: Token, error: Payload)

  ghost function Step(l: Ledger, op: Op): Ledger {
    match op
    case Claim(s, h, now, ttl) => AfterClaim(l, s, h, now, ttl)
    case Complete(id, result) => AfterSettle(l, id, Completed, result)
    case Fail(id, error) => AfterSettle(l, id, Failed, error)
  }

  ghost function Run(l: Ledger, ops: seq<Op>): Ledger
    decreases |ops|
  {
    if ops == [] then l else Run(Step(l, ops[0]), ops[1..])
  }

  /** No claim of `k` in the run comes at or after the expiry of its record. */
  ghost predicate Unexpired(l: Ledger, ops: seq<Op>, k: Scope)
    decreases |ops|
  {
    ops == [] || (
      && (ops[0].Claim? && ops[0].scope == k && k in l.rows ==> ops[0].now < l.rows[k].expiresAt)
      && Unexpired(Step(l, ops[0]), ops[1..], k))
  }

  ghost predicate SettlesRecordOf(l: Ledger, k: Scope, id: Token) { k in l.rows && Owns(l.rows[k], id) }

  /** Claims of `k` granted in the run. */
  ghost function GrantedClaims(l: Ledger, ops: seq<Op>, k: Scope): nat
    decreases |ops|
  {
    if ops == [] then 0
    else
      One(ops[0].Claim? && ops[0].scope == k && Grants(l, k, ops[0].requestHash, ops[0].now))
      + GrantedClaims(Step(l, ops[0]), ops[1..], k)
  }

  /** `fail` calls of the run that took effect on the record of `k`. */
  ghost function EffectiveFails(l: Ledger, ops: seq<Op>, k: Scope): nat
    decreases |ops|
  {
    if ops == [] then 0
    else One(ops[0].Fail? && SettlesRecordOf(l, k, ops[0].id)) + EffectiveFails(Step(l, ops[0]), ops[1..], k)
  }

  /** `complete` calls of the run that took effect on the record of `k`. */
  ghost function EffectiveCompletes(l: Ledger, ops: seq<Op>, k: Scope): nat
    decreases |ops|
  {
    if ops == [] then 0
    else One(ops[0].Complete? && SettlesRecordOf(l, k, ops[0].id)) + EffectiveCompletes(Step(l, ops[0]), ops[1..], k)
  }

  ghost predicate Held(l: Ledger, k: Scope) { k in l.rows && l.rows[k].status != Failed }

  ghost predicate Done(l: Ledger, k: Scope) { k in l.rows && l.rows[k].status == Completed }

  /** The books balance exactly: every granted claim has failed, or holds the
      record now; every effective completion is the record now being complete. */
  lemma {:induction false} BooksBalance(l: Ledger, ops: seq<Op>, k: Scope)
    requires Unexpired(l, ops, k)
    ensures One(Held(l, k)) + GrantedClaims(l, ops, k) == EffectiveFails(l, ops, k) + One(Held(Run(l, ops), k))
    ensures One(Done(l, k)) + EffectiveCompletes(l, ops, k) == One(Done(Run(l, ops), k))
    decreases |ops|
  {
    if ops != [] {
      BooksBalance(Step(l, ops[0]), ops[1..], k);
    }
  }

  /** From a store without the key: at most one claim more than effective fails
      is granted, and at most one completion takes effect. */
  lemma {:induction false} AtMostOneEffect(l: Ledger, ops: seq<Op>, k: Scope)
    requires k !in l.rows && Unexpired(l, ops, k)
    ensures GrantedClaims(l, ops, k) <= EffectiveFails(l, ops, k) + 1
    ensures EffectiveCompletes(l, ops, k) <= 1
    ensures EffectiveCompletes(l, ops, k) == 1 ==> GrantedClaims(l, ops, k) == EffectiveFails(l, ops, k) + 1
  {
    BooksBalance(l, ops, k);
  }

  /** A completed record never changes before it expires, so every later claim,
      whatever its request hash, is refused with that very record. */
  lemma {:induction false} CompletedIsReplayed(l: Ledger, ops: seq<Op>, k: Scope, requestHash: string, now: int,
      ttlMs: int)
    requires Done(l, k) && Unexpired(l, ops, k) && now < l.rows[k].expiresAt
    ensures k in Run(l, ops).rows && Run(l, ops).rows[k] == l.rows[k]
    ensures ReplyToClaim(Run(l, ops), k, requestHash, now, ttlMs) == Refused(l.rows[k])
    decreases |ops|
  {
    if ops != [] {
      CompletedIsReplayed(Step(l, ops[0]), ops[1..], k, requestHash, now, ttlMs);
    }
  }

  function ExpiryOf(l: Ledger, k: Scope): int { if k in l.rows then l.rows[k].expiresAt else 0 }

  /** Until it expires a key belongs to the request it was claimed for: whatever happened
      since, failing and being retaken included, another request is refused and shown the
      first one's hash. */
  lemma {:induction false} HashIsKept(l: Ledger, ops: seq<Op>, k: Scope, other: string, now: int, ttlMs: int)
    requires k in l.rows && l.rows[k].requestHash != "" && Unexpired(l, ops, k)
    ensures k in Run(l, ops).rows && Run(l, ops).rows[k].requestHash == l.rows[k].requestHash
    ensures now < ExpiryOf(Run(l, ops), k) && other != l.rows[k].requestHash ==>
      var reply := ReplyToClaim(Run(l, ops), k, other, now, ttlMs);
      reply.Refused? && reply.existing.requestHash == l.rows[k].requestHash
    decreases |ops|
  {
    if ops != [] { HashIsKept(Step(l, ops[0]), ops[1..], k, other, now, ttlMs); }
  }

  /** A granted claim is for the request that made it, until its deadline. */
  lemma {:induction false} ClaimedKeyIsKept(
      l: Ledger, k: Scope, requestHash: string, at: int, ttlMs: int, ops: seq<Op>, other: string, now: int,
      otherTtlMs: int)
    requires Grants(l, k, requestHash, at) && requestHash != ""
    requires Unexpired(Step(l, Claim(k, requestHash, at, ttlMs)), ops, k)
    requires other != requestHash
    requires forall op | op in ops :: !op.Claim? || op.scope != k || op.requestHash != requestHash
    requires now < at + Max(0, ttlMs)
    ensures var after := Run(Step(l, Claim(k, requestHash, at, ttlMs)), ops);
      var reply := ReplyToClaim(after, k, other, now, otherTtlMs);
      reply.Refused? && reply.existing.requestHash == requestHash
  {
    var held := Step(l, Claim(k, requestHash, at, ttlMs));
    HashIsKept(held, ops, k, other, now, otherTtlMs);
    ExpiryIsKept(held, ops, k);
  }

  /** Only a claim for the same request moves the deadline. */
  lemma {:induction false} ExpiryIsKept(l: Ledger, ops: seq<Op>, k: Scope)
    requires k in l.rows && l.rows[k].requestHash != "" && Unexpired(l, ops, k)
    requires forall op | op in ops :: !op.Claim? || op.scope != k || op.requestHash != l.rows[k].requestHash
    ensures ExpiryOf(Run(l, ops), k) == l.rows[k].expiresAt
    decreases |ops|
  {
    if ops != [] {
      assert ops[0] in ops;
      HashIsKept(l, [ops[0]], k, "", 0, 0);
      ExpiryIsKept(Step(l, ops[0]), ops[1..], k);
    }
  }

  ghost predicate Current(l: Ledger, id: Token) { exists s :: s in l.rows && l.rows[s].id == id }

  /** An id that was issued and is on no record never comes back, and acting
      under it changes nothing. */
  lemma {:induction false} SupersededIsInert(l: Ledger, ops: seq<Op>, id: Token, status: Status, result: Payload)
    requires id < l.issued && !Current(l, id)
    ensures !Current(Run(l, ops), id)
    ensures !HasOwner(Run(l, ops), id)
    ensures AfterSettle(Run(l, ops), id, status, result) == Run(l, ops)
    decreases |ops|
  {
    if ops == [] {
      assert AfterSettle(l, id, status, result).rows == l.rows;
    } else {
      var l' := Step(l, ops[0]);
      assert !Current(l', id);
      SupersededIsInert(l', ops[1..], id, status, result);
    }
  }

  /** Taking over a record supersedes the id it carried. */
  lemma ReclaimSupersedes(l: Ledger, k: Scope, requestHash: string, now: int, ttlMs: int)
    requires forall s | s in l.rows :: l.rows[s].id < l.issued
    requires forall s, t | s in l.rows && t in l.rows && l.rows[s].id == l.rows[t].id :: s == t
    requires k in l.rows && Grants(l, k, requestHash, now)
    ensures var l' := AfterClaim(l, k, requestHash, now, ttlMs);
      !Current(l', l.rows[k].id) && l.rows[k].id < l'.issued && Owns(l'.rows[k], l.issued)
  {
  }

  /** What a refusal can carry: never a record the same request could retake. */
  lemma RefusalIsFinal(l: Ledger, k: Scope, requestHash: string, now: int, ttlMs: int)
    requires ReplyToClaim(l, k, requestHash, now, ttlMs).Refused?
    ensures var e := ReplyToClaim(l, k, requestHash, now, ttlMs).existing;
      && now < e.expiresAt
      && (e.status == Failed ==> e.requestHash != "" && e.requestHash != requestHash)
  {
  }
}
