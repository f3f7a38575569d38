/** Safety of one payment row over every run of statements after its allocation. */
module PaymentRowSafety {
  import opened Wrappers
  import opened TransactionStatus
  import opened TransactionRows

  /** A statement addressed to the row, with whatever arguments its caller chose;
      a webhook's guard is the graph's. */
  datatype RowOp =
    | Transition(to: Status, options: Options, now: int)
    | Webhook(to: Status, ref: ProviderRef, now: int)
    | Reopen

  function NextRow(r: Row, op: RowOp): Row {
    match op
    case Transition(to, o, now) => if GuardPasses(r, to, o) then Transitioned(r, to, o, now) else r
    case Webhook(to, ref, now) => if to in Transitions(r.status) then WebhookApplied(r, to, ref, now) else r
    case Reopen => if Reopenable(r) then r.(status := Processing) else r
  }

  function RowAfter(r: Row, ops: seq<RowOp>): Row
    decreases |ops|
  {
    if ops == [] then r else RowAfter(NextRow(r, ops[0]), ops[1..])
  }

  predicate FreshlyAllocated(r: Row) {
    r == Allocated(r.id, r.appId, r.tenantId, r.idempotencyKey, r.providerId)
  }

  predicate RowInvariant(r: Row) {
    && (r.status == Processing ==> r.providerTransactionId == None && r.outcomeUnknownAt == None)
    && (Ambiguous(r.status) ==> r.outcomeUnknownAt.Some?)
  }

  lemma StepKeepsInvariant(r: Row, op: RowOp)
    requires RowInvariant(r)
    ensures RowInvariant(NextRow(r, op))
    ensures r.outcomeUnknownAt.Some? ==> NextRow(r, op).outcomeUnknownAt == r.outcomeUnknownAt
  {
  }

  lemma {:induction false} RunKeepsInvariant(r: Row, ops: seq<RowOp>)
    requires RowInvariant(r)
    ensures RowInvariant(RowAfter(r, ops))
    ensures r.outcomeUnknownAt.Some? ==> RowAfter(r, ops).outcomeUnknownAt == r.outcomeUnknownAt
    decreases |ops|
  {
    if ops != [] {
      StepKeepsInvariant(r, ops[0]);
      RunKeepsInvariant(NextRow(r, ops[0]), ops[1..]);
    }
  }

  /** A row that was ever ambiguous is never charged again. */
  lemma {:induction false} AmbiguousNeverReprocessed(r: Row, before: seq<RowOp>, after: seq<RowOp>)
    requires FreshlyAllocated(r) && Ambiguous(RowAfter(r, before).status)
    ensures RowAfter(RowAfter(r, before), after).status != Processing
    ensures !Reopenable(RowAfter(RowAfter(r, before), after))
  {
    RunKeepsInvariant(r, before);
    RunKeepsInvariant(RowAfter(r, before), after);
  }

  lemma {:induction false} ProcessingHasNoProviderId(r: Row, ops: seq<RowOp>)
    requires FreshlyAllocated(r) && RowAfter(r, ops).status == Processing
    ensures RowAfter(r, ops).providerTransactionId == None
  {
    RunKeepsInvariant(r, ops);
  }

  /** From any row: once paid, no unresolved, failed or cancelled state follows,
      and a refund is never undone. */
  lemma {:induction false} PaidStaysPaid(r: Row, ops: seq<RowOp>)
    requires Paid(r.status)
    ensures Paid(RowAfter(r, ops).status)
    ensures r.status != Success ==> RowAfter(r, ops).status != Success
    ensures r.status == Refunded ==> RowAfter(r, ops) == r
    decreases |ops|
  {
    if ops != [] {
      PaidStaysPaid(NextRow(r, ops[0]), ops[1..]);
    }
  }

  lemma RefundNeedsSuccessNow(r: Row, op: RowOp)
    requires r.status != PartiallyRefunded && r.status != Refunded && r.status != Success
    ensures NextRow(r, op).status != PartiallyRefunded && NextRow(r, op).status != Refunded
  {
  }

  lemma {:induction false} PrefixAfterFirst(r: Row, ops: seq<RowOp>, i: nat)
    requires ops != [] && i < |ops|
    ensures RowAfter(r, ops[..i + 1]) == RowAfter(NextRow(r, ops[0]), ops[1..][..i])
  {
    assert ops[..i + 1][1..] == ops[1..][..i] && ops[..i + 1][0] == ops[0];
  }

  /** A refund state is only ever reached through success. */
  lemma {:induction false} RefundFollowsSuccess(r: Row, ops: seq<RowOp>)
    requires r.status != PartiallyRefunded && r.status != Refunded
    requires RowAfter(r, ops).status == PartiallyRefunded || RowAfter(r, ops).status == Refunded
    ensures exists i :: 0 <= i <= |ops| && RowAfter(r, ops[..i]).status == Success
    decreases |ops|
  {
    if r.status == Success {
      assert ops[..0] == [];
      assert RowAfter(r, ops[..0]).status == Success;
    } else {
      RefundNeedsSuccessNow(r, ops[0]);
      RefundFollowsSuccess(NextRow(r, ops[0]), ops[1..]);
      var i :| 0 <= i <= |ops[1..]| && RowAfter(NextRow(r, ops[0]), ops[1..][..i]).status == Success;
      PrefixAfterFirst(r, ops, i);
    }
  }

  /** The reopening edge is meant for attempts that never received a provider id.
      A row that holds one loses that protection in a single transition exactly
      when the caller clears the id while failing a never-ambiguous payment. */
  lemma ProviderIdLostExactlyWhenCleared(r: Row, to: Status, o: Options, now: int)
    requires r.providerTransactionId.Some? && GuardPasses(r, to, o)
    ensures Reopenable(Transitioned(r, to, o, now)) <==>
      && to == Failed && r.outcomeUnknownAt == None
      && o.providerTransactionId == Some(None) && o.fillProviderTransactionId == None
  {
  }

  /** Such a caller exists among those the interface admits. */
  lemma ClearedRowIsReprocessed(now: int)
    ensures
      var paid := Allocated(0, "a", "t", None, "p");
      var ops := [
        Transition(Pending, NO_OPTIONS.(fillProviderTransactionId := Some("pi")), now),
        Transition(Failed, NO_OPTIONS.(providerTransactionId := Some(None)), now),
        Reopen];
      && RowAfter(paid, ops[..1]).providerTransactionId == Some("pi")
      && RowAfter(paid, ops).status == Processing
  {
    var r := Allocated(0, "a", "t", None, "p");
    var a := Transition(Pending, NO_OPTIONS.(fillProviderTransactionId := Some("pi")), now);
    var b := Transition(Failed, NO_OPTIONS.(providerTransactionId := Some(None)), now);
    var ops := [a, b, Reopen];
    assert ops[..1] == [a] && [a][1..] == [];
    assert ops[1..] == [b, Reopen] && [b, Reopen][1..] == [Reopen] && [Reopen][1..] == [];
    var r1, r2 := NextRow(r, a), NextRow(NextRow(r, a), b);
    assert RowAfter(r2, [Reopen]) == NextRow(r2, Reopen);
    assert RowAfter(r1, [b, Reopen]) == RowAfter(r2, [Reopen]);
  }

  // ---------------------------------------------------------------- the table moves by row statements

  /** Each row of a transition of the table moves by that statement, or not at all. */
  lemma TransitionMovesRows(t: Table, id: nat, to: Status, o: Options, now: int)
    ensures AfterTransition(t, id, Some(to), o, now).Keys == t.Keys
    ensures forall k | k in t ::
      AfterTransition(t, id, Some(to), o, now)[k] == if k == id then NextRow(t[k], Transition(to, o, now)) else t[k]
  {
  }
}
