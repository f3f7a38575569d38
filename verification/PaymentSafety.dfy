/** One payment across the three layers: the row's statements, the routing of each
    charge attempt, and whoever else may move the row meanwhile. */
module PaymentSafety {
  import opened Wrappers
  import Lists
  import opened TransactionStatus
  import opened TransactionRows
  import opened ProviderCalls
  import opened PaymentRouting
  import opened PaymentRowSafety

  /** The id an event carries: the platform's own, none, or one from the provider. */
  datatype EventId = OwnId | NoId | ProviderId(ref: ProviderRef)

  function StatusOfEvent(s: EventStatus): Status {
    match s
    case EvSuccess => Success
    case EvFailed => Failed
    case EvPending => Pending
    case EvUnknown => Unknown
  }

  function RefOfEvent(id: EventId): Option<ProviderRef> {
    match id
    case ProviderId(ref) => Some(ref)
    case _ => None
  }

  /** What the gateway writes when routing ends. */
  function Recorded(row: Row, result: RouteResult, id: EventId, now: int): Row {
    match result
    case Event(provider, status) =>
      NextRow(row, Transition(StatusOfEvent(status), RecordOptions(provider, RefOfEvent(id)), now))
    case Exhausted =>
      NextRow(row, Transition(Failed, RecordOptions(row.providerId, None), now))
  }

  /** `inFlight`: a gateway is routing a charge for the row. `charged`: some past
      attempt of this payment may have moved money. */
  datatype Payment = Payment(row: Row, inFlight: bool, charged: bool)

  /** A finished routing makes the calls it made and leaves the result of their
      outcomes; a gateway that crashes may have charged or not. */
  datatype Step =
    | Retry
    | Finish(routing: Routing, id: EventId, written: bool, now: int)
    | Crash(moved: bool)
    | ProviderWebhook(to: Status, ref: ProviderRef, now: int)
    | StatusCheck(to: Status, ref: ProviderRef, now: int)
    | Escalate(now: int)
    | OperatorResolve(to: Status, filled: Option<ProviderRef>, now: int)

  function Fill(from: seq<Status>, ref: Option<ProviderRef>): Options {
    NO_OPTIONS.(from := Some(from), fillProviderTransactionId := ref, resolution := true)
  }

  /** Steps that can be taken: a retry only starts on a reopened row, and what
      finishes is a routing of a charge in flight. */
  ghost predicate CanTake(p: Payment, s: Step) {
    match s
    case Retry => Reopenable(p.row)
    case Finish(routing, _, _, _) => p.inFlight && IsRouting(routing)
    case Crash(_) => p.inFlight
    case _ => true
  }

  ghost predicate MayHaveMoved(x: Routing) { Charged(x.calls, x.tries) }

  ghost function Take(p: Payment, s: Step): Payment {
    match s
    case Retry => p.(row := NextRow(p.row, Reopen), inFlight := true)
    case Finish(routing, id, written, now) =>
      var row := if written then Recorded(p.row, routing.result, id, now) else p.row;
      Payment(row, false, p.charged || MayHaveMoved(routing))
    case Crash(moved) => Payment(p.row, false, p.charged || moved)
    case ProviderWebhook(to, ref, now) => p.(row := NextRow(p.row, Webhook(to, ref, now)))
    case StatusCheck(to, ref, now) => p.(row := NextRow(p.row, Transition(to, Fill([p.row.status], Some(ref)), now)))
    case Escalate(now) =>
      p.(row := NextRow(p.row, Transition(RequiresReconciliation, NO_OPTIONS.(from := Some([p.row.status])), now)))
    case OperatorResolve(to, filled, now) =>
      p.(row := NextRow(p.row, Transition(to, Fill([Unknown, RequiresReconciliation], filled), now)))
  }

  /** Written on the row, the answer is a failure that names no charge of a provider. */
  predicate LeavesOpen(row: Row, result: RouteResult, id: EventId) {
    row.status == Processing && (result.Exhausted? || (result.status == EvFailed && !id.ProviderId?))
  }

  /** The one way to lose track of a charge: a decline of a retried ambiguous attempt
      was believed, and the routing's end was written as a failure anyone may retry. */
  ghost predicate Forgets(p: Payment, s: Step) {
    && s.Finish? && !NoneBelieved(s.routing.calls, s.routing.tries)
    && s.written && LeavesOpen(p.row, s.routing.result, s.id)
  }

  predicate Safe(p: Payment) {
    && RowInvariant(p.row)
    && (p.inFlight ==> !p.charged && !Reopenable(p.row))
    && (p.charged ==> !Reopenable(p.row))
  }

  lemma FinishChargesWhenBelieved(p: Payment, s: Step)
    requires CanTake(p, s) && s.Finish?
    ensures RouteSound(s.routing.result, true) ||
      (MayHaveMoved(s.routing) <==> !NoneBelieved(s.routing.calls, s.routing.tries))
  {
    if !RouteSound(s.routing.result, true) { ChargedExactlyWhenBelieved(s.routing); }
  }

  lemma RecordedReopens(row: Row, result: RouteResult, id: EventId, now: int)
    requires RowInvariant(row)
    ensures RowInvariant(Recorded(row, result, id, now))
    ensures LeavesOpen(row, result, id) ==> Reopenable(Recorded(row, result, id, now))
    ensures !Reopenable(row) && !LeavesOpen(row, result, id) ==> !Reopenable(Recorded(row, result, id, now))
  {
  }

  lemma FinishSafeExactlyUnlessForgets(p: Payment, s: Step)
    requires Safe(p) && CanTake(p, s) && s.Finish?
    ensures Safe(Take(p, s)) <==> !Forgets(p, s)
  {
    FinishChargesWhenBelieved(p, s);
    RecordedReopens(p.row, s.routing.result, s.id, s.now);
  }

  lemma OtherStepsSafe(p: Payment, s: Step)
    requires Safe(p) && CanTake(p, s) && !s.Finish?
    ensures Safe(Take(p, s))
  {
  }

  /** Any step but a forgetting one keeps a charged payment from being charged again,
      and a forgetting one never does. */
  lemma StepSafeExactlyUnlessForgets(p: Payment, s: Step)
    requires Safe(p) && CanTake(p, s)
    ensures Safe(Take(p, s)) <==> !Forgets(p, s)
  {
    if s.Finish? { FinishSafeExactlyUnlessForgets(p, s); } else { OtherStepsSafe(p, s); }
  }

  /** Whatever went before, a forgetting step leaves a charged payment open to a retry. */
  lemma ForgettingReopens(p: Payment, s: Step)
    requires RowInvariant(p.row) && CanTake(p, s) && Forgets(p, s)
    ensures SecondChargePossible(Take(p, s))
  {
    FinishChargesWhenBelieved(p, s);
    RecordedReopens(p.row, s.routing.result, s.id, s.now);
  }

  /** A same-key retry would start another charge of a payment that may be paid. */
  predicate SecondChargePossible(p: Payment) { p.charged && Reopenable(p.row) }

  // ---------------------------------------------------------------- whole runs

  ghost predicate Possible(p: Payment, steps: seq<Step>)
    decreases |steps|
  {
    steps == [] || (CanTake(p, steps[0]) && Possible(Take(p, steps[0]), steps[1..]))
  }

  ghost function Play(p: Payment, steps: seq<Step>): Payment
    decreases |steps|
  {
    if steps == [] then p else Play(Take(p, steps[0]), steps[1..])
  }

  /** Some step of the run forgets a charge. */
  ghost predicate SomeForgets(p: Payment, steps: seq<Step>)
    decreases |steps|
  {
    steps != [] && (Forgets(p, steps[0]) || SomeForgets(Take(p, steps[0]), steps[1..]))
  }

  /** At some moment of the run, its end included, a second charge is possible. */
  ghost predicate EverTwice(p: Payment, steps: seq<Step>)
    decreases |steps|
  {
    SecondChargePossible(p) || (steps != [] && EverTwice(Take(p, steps[0]), steps[1..]))
  }

  lemma {:induction false} RunKeepsSafe(p: Payment, steps: seq<Step>)
    requires Safe(p) && Possible(p, steps) && !SomeForgets(p, steps)
    ensures Safe(Play(p, steps)) && !EverTwice(p, steps)
    decreases |steps|
  {
    if steps != [] {
      StepSafeExactlyUnlessForgets(p, steps[0]);
      RunKeepsSafe(Take(p, steps[0]), steps[1..]);
    }
  }

  lemma StepKeepsRow(p: Payment, s: Step)
    requires RowInvariant(p.row) && CanTake(p, s)
    ensures RowInvariant(Take(p, s).row)
  {
    if s.Finish? { RecordedReopens(p.row, s.routing.result, s.id, s.now); }
  }

  lemma {:induction false} ForgettingIsTwice(p: Payment, steps: seq<Step>)
    requires RowInvariant(p.row) && Possible(p, steps) && SomeForgets(p, steps)
    ensures EverTwice(p, steps)
    decreases |steps|
  {
    if Forgets(p, steps[0]) {
      ForgettingReopens(p, steps[0]);
    } else {
      StepKeepsRow(p, steps[0]);
      ForgettingIsTwice(Take(p, steps[0]), steps[1..]);
    }
  }

  /** Over every run from allocation, across the calls of every routing in it, a
      payment that may be paid can be charged again at some moment exactly when some
      step forgot a charge. */
  lemma {:induction false} SecondChargeExactlyWhenForgotten(row: Row, steps: seq<Step>)
    requires FreshlyAllocated(row) && Possible(Payment(row, true, false), steps)
    ensures EverTwice(Payment(row, true, false), steps) <==> SomeForgets(Payment(row, true, false), steps)
  {
    if SomeForgets(Payment(row, true, false), steps) {
      ForgettingIsTwice(Payment(row, true, false), steps);
    } else {
      RunKeepsSafe(Payment(row, true, false), steps);
    }
  }

  /** No routing of the run retries ambiguous attempts, as charges ask of the loop when
      their provider does not deduplicate. */
  ghost predicate NoAmbiguousRetries(steps: seq<Step>) {
    forall s, id | s in steps && s.Finish? :: !s.routing.calls(id).retryAmbiguous
  }

  lemma UnretriedNeverForgets(p: Payment, s: Step)
    requires CanTake(p, s) && (s.Finish? ==> forall id :: !s.routing.calls(id).retryAmbiguous)
    ensures !Forgets(p, s)
  {
    if s.Finish? {
      forall t | t in s.routing.tries ensures !BelievedDecline(s.routing.calls, t) {
        ReportIsTrue(s.routing.calls(t.provider), t.attempts, t.outcome);
      }
    }
  }

  lemma {:induction false} UnretriedRunNeverForgets(p: Payment, steps: seq<Step>)
    requires Possible(p, steps) && NoAmbiguousRetries(steps)
    ensures !SomeForgets(p, steps)
    decreases |steps|
  {
    if steps != [] {
      assert steps[0] in steps;
      UnretriedNeverForgets(p, steps[0]);
      UnretriedRunNeverForgets(Take(p, steps[0]), steps[1..]);
    }
  }

  /** No second charge: over every run from allocation that forgets no charge, whenever
      another may start, no earlier attempt may have moved money and none is running. */
  lemma {:induction false} NoSecondCharge(row: Row, steps: seq<Step>)
    requires FreshlyAllocated(row)
    requires Possible(Payment(row, true, false), steps) && !SomeForgets(Payment(row, true, false), steps)
    requires CanTake(Play(Payment(row, true, false), steps), Retry)
    ensures !Play(Payment(row, true, false), steps).charged
    ensures !Play(Payment(row, true, false), steps).inFlight
  {
    RunKeepsSafe(Payment(row, true, false), steps);
  }

  /** In particular over every run in which ambiguous attempts are not retried. */
  lemma {:induction false} NoSecondChargeUnretried(row: Row, steps: seq<Step>)
    requires FreshlyAllocated(row) && NoAmbiguousRetries(steps) && Possible(Payment(row, true, false), steps)
    ensures !EverTwice(Payment(row, true, false), steps)
  {
    UnretriedRunNeverForgets(Payment(row, true, false), steps);
    RunKeepsSafe(Payment(row, true, false), steps);
  }

  /** The retry is not vacuous: a routing that threw without believing such a decline
      leaves a row the same key can reopen, exactly when the write lands. */
  lemma RoutingFailureCanRetry(row: Row, routing: Routing, written: bool, id: EventId, now: int)
    requires FreshlyAllocated(row) && IsRouting(routing)
    requires routing.result.Exhausted? && NoneBelieved(routing.calls, routing.tries)
    ensures var p := Take(Payment(row, true, false), Finish(routing, id, written, now));
      !p.charged && (CanTake(p, Retry) <==> written)
  {
    ChargedExactlyWhenBelieved(routing);
  }

  // ---------------------------------------------------------------- what is written

  /** The last provider's reading of its answer reaches the row: approved is success, in
      progress pending, declined failed, unreadable unknown; and the row names it. */
  lemma ReadingIsRecorded(p: Payment, s: Step)
    requires CanTake(p, s) && s.Finish? && s.written && p.row.status == Processing
    requires var t := s.routing.tries[|s.routing.tries| - 1]; var c := s.routing.calls(t.provider);
      c.ready && !c.timesOut && !c.unclassified && Read(c, t.attempts)
    ensures var t := s.routing.tries[|s.routing.tries| - 1];
      var reading, row := s.routing.calls(t.provider).attempt(t.attempts - 1).reading, Take(p, s).row;
      && (reading == Approved <==> row.status == Success) && (reading == Reading.InProgress <==> row.status == Pending)
      && (reading == Declined <==> row.status == Failed) && (reading == Unreadable <==> row.status == Unknown)
      && row.providerId == t.provider
      && row.providerTransactionId == (match s.id case ProviderId(ref) => Some(ref) case _ => None)
  {
    var t := s.routing.tries[|s.routing.tries| - 1];
    assert t in s.routing.tries;
    ReportedAsRead(s.routing.calls(t.provider), t.attempts, t.outcome);
  }

  /** A routing that threw leaves the provider as it was and no id. */
  lemma ThrownIsRecordedFailed(p: Payment, s: Step)
    requires CanTake(p, s) && s.Finish? && s.written && p.row.status == Processing && s.routing.result.Exhausted?
    ensures var row := Take(p, s).row;
      row.status == Failed && row.providerId == p.row.providerId && row.providerTransactionId == None
  {
  }

  /** Nobody else changes which provider a payment names. */
  lemma {:induction false} ProviderIsRemembered(p: Payment, steps: seq<Step>)
    requires forall s | s in steps :: !s.Finish?
    ensures Play(p, steps).row.providerId == p.row.providerId
    decreases |steps|
  {
    if steps != [] {
      assert steps[0] in steps;
      ProviderIsRemembered(Take(p, steps[0]), steps[1..]);
    }
  }

  // ---------------------------------------------------------------- it happens

  const NEVER := (n: nat) => false

  function LostThenDeclined(n: nat): Attempt { if n == 0 then Broken else Answered(200, Declined) }

  /** Provider "a" loses the first attempt and declines its retry; "b" is offline. */
  function TwoProviders(id: string): Call {
    Call(id == "a", LostThenDeclined, 2, true, NEVER, NEVER, NEVER, false, false)
  }

  const LOST_CHARGE := Routing(
    TwoProviders, "a", ["a", "b"], 3, Exhausted, [Try("a", 2, Returned(EvFailed)), Try("b", 0, Threw(Some(false)))])

  lemma LostChargeAtFirst()
    ensures Reports(TwoProviders("a"), 2, Returned(EvFailed))
    ensures DeclinedRetry(TwoProviders("a"), 2) && !NothingCharged(TwoProviders("a"), 2)
  {
    DeclinedRetryHappens(TwoProviders("a"));
  }

  lemma LostChargeInOrder()
    ensures InOrder(TwoProviders, "a", ["a", "b"], Exhausted, LOST_CHARGE.tries)
  {
    LostChargeAtFirst();
    var tries := LOST_CHARGE.tries;
    assert tries[..1] == [tries[0]];
    assert Asked(tries) == ["a", "b"] && ["a", "b"][..1] == ["a"];
    assert Lists.Without(["a", "b"], "a") == ["b"];
  }

  lemma LostChargeTruthful()
    ensures Truthful(TwoProviders, "a", ["a", "b"], 3, Exhausted, LOST_CHARGE.tries)
    ensures !NoneBelieved(TwoProviders, LOST_CHARGE.tries)
  {
    LostChargeAtFirst();
    var tries := LOST_CHARGE.tries;
    assert tries[0] in tries && tries[..1] == [tries[0]];
    assert Asked(tries) == ["a", "b"];
  }

  lemma LostChargeIsRouting()
    ensures IsRouting(LOST_CHARGE) && !NoneBelieved(LOST_CHARGE.calls, LOST_CHARGE.tries)
  {
    LostChargeInOrder();
    LostChargeTruthful();
  }

  /** One charge is lost, its retry declined and believed, the next provider offline:
      the failure is written without a provider id and the same key charges again. */
  lemma LostChargeIsChargedAgain(row: Row, now: int)
    requires FreshlyAllocated(row)
    ensures var p, s := Payment(row, true, false), Finish(LOST_CHARGE, NoId, true, now);
      && Possible(p, [s, Retry]) && Play(p, [s, Retry]).charged && Play(p, [s, Retry]).inFlight
  {
    LostChargeIsRouting();
    var p, s := Payment(row, true, false), Finish(LOST_CHARGE, NoId, true, now);
    ForgettingReopens(p, s);
    RetryOnce(Take(p, s));
    assert [s, Retry][1..] == [Retry];
  }

  lemma {:induction false} RetryOnce(p: Payment)
    requires SecondChargePossible(p)
    ensures Possible(p, [Retry]) && Play(p, [Retry]).charged && Play(p, [Retry]).inFlight
  {
    var after := Take(p, Retry);
    assert [Retry][1..] == [] && Possible(after, []) && Play(after, []) == after;
  }
}
