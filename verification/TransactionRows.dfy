/** The payment transaction rows: allocation before any provider call, guarded
    transitions, the webhook's status change and the single reopening edge. */
module TransactionRows {
  import opened Wrappers
  import opened Tables
  import opened TransactionStatus

  /** A provider's own id for a payment, never the empty string. */
  type ProviderRef = s: string | s != "" witness "p"

  datatype Row = Row(
    id: nat,
    appId: string,
    tenantId: string,
    idempotencyKey: Option<string>,
    providerId: string,
    providerTransactionId: Option<ProviderRef>,
    status: Status,
    outcomeUnknownAt: Option<int>,
    reconciliationRequiredAt: Option<int>,
    reconciliationResolvedAt: Option<int>)

  function IdOf(r: Row): nat { r.id }

  /** Options of a transition. For the provider's id the outer None leaves it
      alone, Some(None) clears it. */
  datatype Options = Options(
    from: Option<seq<Status>>,
    providerId: Option<string>,
    providerTransactionId: Option<Option<ProviderRef>>,
    fillProviderTransactionId: Option<ProviderRef>,
    resolution: bool)

  const NO_OPTIONS := Options(None, None, None, None, false)

  datatype Outcome = InvalidStatus | NotFound | Rejected(current: Status) | Applied(row: Row)

  function OrElse<T>(a: Option<T>, b: Option<T>): Option<T> { if a.Some? then a else b }

  // ---------------------------------------------------------------- one row

  function Allocated(id: nat, appId: string, tenantId: string, key: Option<string>, providerId: string): Row {
    Row(id, appId, tenantId, key, providerId, None, Processing, None, None, None)
  }

  function Transitioned(r: Row, to: Status, o: Options, now: int): Row {
    var ref := if o.providerTransactionId.Some? then o.providerTransactionId.value else r.providerTransactionId;
    r.(
      providerId := if o.providerId.Some? then o.providerId.value else r.providerId,
      providerTransactionId := OrElse(ref, o.fillProviderTransactionId),
      outcomeUnknownAt := if Ambiguous(to) then OrElse(r.outcomeUnknownAt, Some(now)) else r.outcomeUnknownAt,
      reconciliationRequiredAt :=
        if to == RequiresReconciliation then OrElse(r.reconciliationRequiredAt, Some(now))
        else r.reconciliationRequiredAt,
      reconciliationResolvedAt :=
        if !Ambiguous(to) && (o.resolution || Ambiguous(r.status)) then Some(now) else r.reconciliationResolvedAt,
      status := to)
  }

  /** The status change of a provider webhook, written with its events row. */
  function WebhookApplied(r: Row, to: Status, ref: ProviderRef, now: int): Row {
    r.(
      providerTransactionId := OrElse(r.providerTransactionId, Some(ref)),
      outcomeUnknownAt := if Ambiguous(to) then OrElse(r.outcomeUnknownAt, Some(now)) else r.outcomeUnknownAt,
      reconciliationResolvedAt :=
        if !Ambiguous(to) && Ambiguous(r.status) then Some(now) else r.reconciliationResolvedAt,
      status := to)
  }

  // ---------------------------------------------------------------- what an applied change means, field by field

  /** The provider is the caller's if one is given; the provider's id is the caller's,
      else the one there, else the fill. */
  predicate ProviderNamed(r: Row, after: Row, o: Options) {
    && after.providerId == (match o.providerId case Some(p) => p case None => r.providerId)
    && (o.providerTransactionId.Some? && o.providerTransactionId.value.Some? ==>
          after.providerTransactionId == o.providerTransactionId.value)
    && (o.providerTransactionId == None && r.providerTransactionId.Some? ==>
          after.providerTransactionId == r.providerTransactionId)
    && (o.providerTransactionId == Some(None)
        || (o.providerTransactionId == None && r.providerTransactionId == None) ==>
          after.providerTransactionId == o.fillProviderTransactionId)
  }

  /** First times are kept: of not knowing the outcome, of needing reconciliation. The
      resolution is dated when the row leaves either, or is resolved by someone. */
  predicate Dated(r: Row, after: Row, to: Status, resolution: bool, escalates: bool, now: int) {
    var ambiguous := to == Unknown || to == RequiresReconciliation;
    && (r.outcomeUnknownAt.Some? || !ambiguous ==> after.outcomeUnknownAt == r.outcomeUnknownAt)
    && (r.outcomeUnknownAt == None && ambiguous ==> after.outcomeUnknownAt == Some(now))
    && (r.reconciliationRequiredAt.Some? || !escalates ==> after.reconciliationRequiredAt == r.reconciliationRequiredAt)
    && (r.reconciliationRequiredAt == None && escalates ==> after.reconciliationRequiredAt == Some(now))
    && (!ambiguous && (resolution || r.status == Unknown || r.status == RequiresReconciliation) ==>
          after.reconciliationResolvedAt == Some(now))
    && (ambiguous || (!resolution && r.status != Unknown && r.status != RequiresReconciliation) ==>
          after.reconciliationResolvedAt == r.reconciliationResolvedAt)
  }

  predicate SamePayment(r: Row, after: Row) {
    && after.id == r.id && after.appId == r.appId && after.tenantId == r.tenantId
    && after.idempotencyKey == r.idempotencyKey
  }

  predicate MovedTo(r: Row, after: Row, to: Status, o: Options, now: int) {
    && after.status == to && SamePayment(r, after) && ProviderNamed(r, after, o)
    && Dated(r, after, to, o.resolution, to == RequiresReconciliation, now)
  }

  lemma TransitionedMeans(r: Row, to: Status, o: Options, now: int)
    ensures MovedTo(r, Transitioned(r, to, o, now), to, o, now)
  {
  }

  /** A webhook names the provider's id and no provider, and never asks for
      reconciliation itself. */
  predicate MovedByWebhook(r: Row, after: Row, to: Status, ref: ProviderRef, now: int) {
    && after.status == to && SamePayment(r, after)
    && ProviderNamed(r, after, NO_OPTIONS.(fillProviderTransactionId := Some(ref)))
    && Dated(r, after, to, false, false, now)
  }

  predicate Reopenable(r: Row) {
    r.status == Failed && r.providerTransactionId == None && r.outcomeUnknownAt == None
  }

  predicate GuardPasses(r: Row, to: Status, o: Options) {
    to in Transitions(r.status) && (o.from.Some? ==> r.status in o.from.value)
  }

  // ---------------------------------------------------------------- the table

  type Table = map<nat, Row>

  function AfterTransition(t: Table, id: nat, to: Option<Status>, o: Options, now: int): Table {
    if to.Some? && id in t && GuardPasses(t[id], to.value, o)
    then t[id := Transitioned(t[id], to.value, o, now)] else t
  }

  function TransitionOutcome(t: Table, id: nat, to: Option<Status>, o: Options, now: int): Outcome {
    if to == None then InvalidStatus
    else if id !in t then NotFound
    else if GuardPasses(t[id], to.value, o) then Applied(Transitioned(t[id], to.value, o, now))
    else Rejected(t[id].status)
  }

  predicate SameKey(r: Row, appId: string, tenantId: string, key: string) {
    r.appId == appId && r.tenantId == tenantId && r.idempotencyKey == Some(key)
  }

  /** The row a webhook names: by the provider's id, else by the platform's own
      id while the row has no provider id and belongs to no other provider. */
  function WebhookTarget(rows: seq<Row>, providerId: string, ref: ProviderRef,
      paymentTransactionId: Option<nat>): Option<nat>
  {
    var byRef := Find((r: Row) => r.providerTransactionId, rows, Some(ref));
    if byRef.Some? then byRef
    else if paymentTransactionId == None then None
    else Find((r: Row) => r.id == paymentTransactionId.value && NamedByOwnId(r, providerId), rows, true)
  }

  predicate NamedByOwnId(r: Row, providerId: string) {
    r.providerTransactionId == None && (r.providerId == providerId || r.providerId == "unassigned")
  }

  /** The row has the provider's id; or no row has, and it is the platform's own payment,
      without an id yet and of this provider or of none. */
  lemma WebhookTargetMeans(rows: seq<Row>, providerId: string, ref: ProviderRef, paymentTransactionId: Option<nat>)
    ensures var at := WebhookTarget(rows, providerId, ref, paymentTransactionId);
      && (at.Some? ==>
            var r := rows[at.value];
            || r.providerTransactionId == Some(ref)
            || (&& (forall x | x in rows :: x.providerTransactionId != Some(ref))
                && paymentTransactionId == Some(r.id) && r.providerTransactionId == None
                && r.providerId in {providerId, "unassigned"}))
      && (at == None ==> forall x | x in rows ::
            && x.providerTransactionId != Some(ref)
            && (paymentTransactionId == Some(x.id) ==>
                  x.providerTransactionId.Some? || x.providerId !in {providerId, "unassigned"}))
  {
    var at := WebhookTarget(rows, providerId, ref, paymentTransactionId);
    assert at.Some? ==> rows[at.value] in rows;
  }

  ghost predicate ValidRows(rows: seq<Row>, issued: nat) {
    Keyed(IdOf, rows) && forall i | 0 <= i < |rows| :: rows[i].id < issued
  }

  class TransactionRepository {
    var transactions: seq<Row>
    var issued: nat

    ghost predicate Valid()
      reads this
    {
      ValidRows(transactions, issued)
    }

    ghost function View(): Table
      reads this
      requires Valid()
    {
      Index(IdOf, transactions)
    }

    constructor ()
      ensures Valid() && View() == map[] && issued == 0
    {
      transactions := [];
      issued := 0;
    }

    /** Refused when the idempotency key already produced a row. */
    method AllocatePaymentAttempt(appId: string, tenantId: string, key: Option<string>, providerId: Option<string>)
      returns (r: Option<Row>)
      requires Valid()
      modifies this
      ensures Valid() && issued == old(issued) + if r.Some? then 1 else 0
      ensures r == None <==>
        key.Some? && key.value != "" && exists i ::
          0 <= i < |old(transactions)| && old(transactions)[i].idempotencyKey == key
          && old(transactions)[i].appId == appId && old(transactions)[i].tenantId == tenantId
      ensures r == None ==> View() == old(View())
      ensures r.Some? ==>
        && r.value.id == old(issued) && r.value.id !in old(View())
        && View() == old(View())[r.value.id := r.value]
        && r.value == Allocated(old(issued), appId, tenantId, if key == Some("") then None else key,
                                if providerId.Some? && providerId.value != "" then providerId.value else "unassigned")
        && r.value.status == Processing && r.value.appId == appId && r.value.tenantId == tenantId
        && (r.value.idempotencyKey == if key == Some("") then None else key)
        && (r.value.providerId == "unassigned" || providerId == Some(r.value.providerId))
        && (providerId.Some? && providerId.value != "" ==> r.value.providerId == providerId.value)
        && r.value.providerTransactionId == None && r.value.outcomeUnknownAt == None
    {
      var k := if key == Some("") then None else key;
      if k.Some? {
        var at := Find((r: Row) => SameKey(r, appId, tenantId, k.value), transactions, true);
        if at.Some? {
          return None;
        }
      }
      var row := Allocated(issued, appId, tenantId, k,
                           if providerId.Some? && providerId.value != "" then providerId.value else "unassigned");
      FreshRow(transactions, issued, row);
      transactions, issued := transactions + [row], issued + 1;
      return Some(row);
    }

    method TransitionStatus(id: nat, to: Option<Status>, o: Options, now: int) returns (outcome: Outcome)
      requires Valid()
      modifies this
      ensures Valid() && issued == old(issued)
      ensures View() == AfterTransition(old(View()), id, to, o, now)
      ensures outcome == TransitionOutcome(old(View()), id, to, o, now)
      ensures outcome.Applied? <==>
        && to.Some? && id in old(View()) && to.value in Transitions(old(View())[id].status)
        && (o.from.Some? ==> old(View())[id].status in o.from.value)
      ensures outcome.Applied? ==>
        && MovedTo(old(View())[id], outcome.row, to.value, o, now)
        && View() == old(View())[id := outcome.row]
      ensures !outcome.Applied? ==> View() == old(View())
      ensures outcome.InvalidStatus? <==> to == None
      ensures outcome.NotFound? <==> to.Some? && id !in old(View())
      ensures outcome.Rejected? ==> id in old(View()) && outcome.current == old(View())[id].status
    {
      if to == None {
        return InvalidStatus;
      }
      var allowedFrom := TransactionStatusesAllowedInto(to.value);
      var at := Find(IdOf, transactions, id);
      IndexLookup(IdOf, transactions, id);
      if at == None {
        return NotFound;
      }
      var row := transactions[at.value];
      TransitionMeetsRow(transactions, issued, at.value, to.value, o, now);
      if !(row.status in allowedFrom && (o.from.Some? ==> row.status in o.from.value)) {
        return Rejected(row.status);
      }
      var moved := Transitioned(row, to.value, o, now);
      TransitionedMeans(row, to.value, o, now);
      transactions := transactions[at.value := moved];
      return Applied(moved);
    }

    /** The outcome of the provider call, accepted only while still processing. */
    method RecordPaymentAttemptOutcome(id: nat, providerId: string, ref: Option<ProviderRef>, to: Status, now: int)
      returns (r: Option<Row>)
      requires Valid()
      modifies this
      ensures Valid() && issued == old(issued)
      ensures View() == AfterTransition(old(View()), id, Some(to), RecordOptions(providerId, ref), now)
      ensures r.Some? <==> id in old(View()) && old(View())[id].status == Processing && to in Transitions(Processing)
      ensures r.Some? ==>
        && id in View() && r.value == View()[id] && r.value.status == to
        && r.value.providerId == providerId && r.value.providerTransactionId == ref
      ensures r == None ==> View() == old(View())
    {
      var outcome := TransitionStatus(id, Some(to), RecordOptions(providerId, ref), now);
      r := if outcome.Applied? then Some(outcome.row) else None;
    }

    method ReopenFailedPaymentAttempt(id: nat) returns (r: Option<Row>)
      requires Valid()
      modifies this
      ensures Valid() && issued == old(issued)
      ensures r.Some? <==> id in old(View()) && Reopenable(old(View())[id])
      ensures r.Some? ==> View() == old(View())[id := r.value] && r.value == old(View())[id].(status := Processing)
      ensures r == None ==> View() == old(View())
    {
      var at := Find(IdOf, transactions, id);
      IndexLookup(IdOf, transactions, id);
      if at == None || !Reopenable(transactions[at.value]) {
        return None;
      }
      var row := transactions[at.value].(status := Processing);
      RewriteRow(transactions, issued, at.value, row);
      transactions := transactions[at.value := row];
      return Some(row);
    }

    /** The transaction part of a webhook's single-statement write. */
    method ApplyWebhookStatus(
        providerId: string, ref: ProviderRef, paymentTransactionId: Option<nat>, to: Status,
        allowedFrom: seq<Status>, now: int)
      returns (updated: bool)
      requires Valid()
      modifies this
      ensures Valid() && issued == old(issued)
      ensures var at := WebhookTarget(old(transactions), providerId, ref, paymentTransactionId);
        && (updated <==> at.Some? && old(transactions)[at.value].status in allowedFrom)
        && (updated ==>
              var row := old(transactions)[at.value];
              && transactions == old(transactions)[at.value := WebhookApplied(row, to, ref, now)]
              && row.id in old(View()) && old(View())[row.id] == row
              && View() == old(View())[row.id := WebhookApplied(row, to, ref, now)]
              && MovedByWebhook(row, View()[row.id], to, ref, now))
        && (!updated ==> transactions == old(transactions))
    {
      var at := WebhookTarget(transactions, providerId, ref, paymentTransactionId);
      if at == None || transactions[at.value].status !in allowedFrom {
        return false;
      }
      var row := WebhookApplied(transactions[at.value], to, ref, now);
      RewriteRow(transactions, issued, at.value, row);
      transactions := transactions[at.value := row];
      return true;
    }
  }

  function RecordOptions(providerId: string, ref: Option<ProviderRef>): Options {
    Options(Some([Processing]), Some(providerId), Some(ref), None, false)
  }

  lemma FreshRow(rows: seq<Row>, issued: nat, row: Row)
    requires ValidRows(rows, issued) && row.id == issued
    ensures row.id !in Index(IdOf, rows)
    ensures ValidRows(rows + [row], issued + 1) && Index(IdOf, rows + [row]) == Index(IdOf, rows)[row.id := row]
  {
    assert IdOf(row) !in Index(IdOf, rows);
    IndexPush(IdOf, rows, row);
  }

  lemma RewriteRow(rows: seq<Row>, issued: nat, i: nat, row: Row)
    requires ValidRows(rows, issued) && i < |rows| && row.id == rows[i].id
    ensures ValidRows(rows[i := row], issued) && Index(IdOf, rows[i := row]) == Index(IdOf, rows)[row.id := row]
    ensures row.id in Index(IdOf, rows) && Index(IdOf, rows)[row.id] == rows[i]
  {
    assert IdOf(rows[i]) in Index(IdOf, rows);
    IndexPut(IdOf, rows, i, row);
  }

  lemma TransitionMeetsRow(rows: seq<Row>, issued: nat, i: nat, to: Status, o: Options, now: int)
    requires ValidRows(rows, issued) && i < |rows|
    ensures var t, id, moved := Index(IdOf, rows), rows[i].id, Transitioned(rows[i], to, o, now);
      if GuardPasses(rows[i], to, o) then
        && ValidRows(rows[i := moved], issued)
        && Index(IdOf, rows[i := moved]) == AfterTransition(t, id, Some(to), o, now)
        && TransitionOutcome(t, id, Some(to), o, now) == Applied(moved)
      else
        && AfterTransition(t, id, Some(to), o, now) == t
        && TransitionOutcome(t, id, Some(to), o, now) == Rejected(rows[i].status)
  {
    RewriteRow(rows, issued, i, Transitioned(rows[i], to, o, now));
  }
}
