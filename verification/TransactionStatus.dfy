/** The payment state machine: statuses, the generic transition graph and the
    question the stores ask of it. */
module TransactionStatus {
  datatype Status =
    | Processing | Pending | RequiresAction | Success | Failed | Cancelled
    | PartiallyRefunded | Refunded | Unknown | RequiresReconciliation

  const STATUSES: seq<Status> :=
    [Processing, Pending, RequiresAction, Unknown, RequiresReconciliation, Success, PartiallyRefunded, Failed,
     Cancelled, Refunded]

  /** The statuses a row may move to by a generic transition. */
  function Transitions(s: Status): seq<Status> {
    match s
    case Processing => [Success, Failed, Unknown, Cancelled, Pending, RequiresAction, RequiresReconciliation]
    case Pending => [Success, Failed, Unknown, Cancelled, RequiresAction, RequiresReconciliation]
    case RequiresAction => [Success, Failed, Unknown, Cancelled, Pending, RequiresReconciliation]
    case Unknown => [Success, Failed, Cancelled, Pending, RequiresAction, RequiresReconciliation]
    case RequiresReconciliation => [Success, Failed, Cancelled]
    case Success => [Refunded, PartiallyRefunded]
    case PartiallyRefunded => [PartiallyRefunded, Refunded]
    case Failed => []
    case Cancelled => []
    case Refunded => []
  }

  function Filter(froms: seq<Status>, to: Status): seq<Status> {
    if froms == [] then []
    else (if to in Transitions(froms[0]) then [froms[0]] else []) + Filter(froms[1..], to)
  }

  /** The statuses a row may move into `to` from, the guard pushed into each write. */
  function AllowedInto(to: Status): seq<Status> { Filter(STATUSES, to) }

  lemma {:induction false} FilterSelects(froms: seq<Status>, from: Status, to: Status)
    ensures from in Filter(froms, to) <==> from in froms && to in Transitions(from)
  {
    if froms != [] {
      FilterSelects(froms[1..], from, to);
      assert froms == [froms[0]] + froms[1..];
    }
  }

  lemma EveryStatusListed(s: Status)
    ensures s in STATUSES
  {
  }

  /** The guard admits exactly the edges of the graph. */
  lemma GuardIsGraph(from: Status, to: Status)
    ensures from in AllowedInto(to) <==> to in Transitions(from)
  {
    EveryStatusListed(from);
    FilterSelects(STATUSES, from, to);
  }

  /** The guard as the stores obtain it, membership being all they ask of it. */
  method TransactionStatusesAllowedInto(to: Status) returns (froms: seq<Status>)
    ensures forall from :: from in froms <==> to in Transitions(from)
  {
    froms := AllowedInto(to);
    forall from ensures from in froms <==> to in Transitions(from) {
      GuardIsGraph(from, to);
    }
  }

  /** The edges, by kind: what is unresolved may always be decided; until a person is
      asked it may also change its way of being unresolved, though not back to processing
      or to where it is; and what is paid may be refunded, in parts or whole. */
  lemma EdgesByKind(from: Status, to: Status)
    ensures to in Transitions(from) <==>
      var unresolved := {Processing, Pending, RequiresAction, Unknown, RequiresReconciliation};
      || (from in unresolved && to in {Success, Failed, Cancelled})
      || (from in unresolved - {RequiresReconciliation} && to in unresolved - {Processing, from})
      || (from in {Success, PartiallyRefunded} && to in {PartiallyRefunded, Refunded})
  {
  }

  predicate Ambiguous(s: Status) { s == Unknown || s == RequiresReconciliation }

  /** Money is known to have moved. */
  predicate Paid(s: Status) { s == Success || s == PartiallyRefunded || s == Refunded }
}
