/** One provider call of a payment: the HTTP retry loop, the classification of its
    failures and the event an adapter reports, for every behaviour of the network. */
module ProviderCalls {
  import opened Wrappers

  /** What the body of an answer below 400 says about the charge. */
  datatype Reading = Approved | InProgress | Declined | Unreadable

  /** How one HTTP attempt ends: a complete answer, a transport failure before any
      byte was sent, or one after (timeout, reset, unreadable body). */
  datatype Attempt = Answered(status: nat, reading: Reading) | NotSent | Broken

  /** One call and everything outside the platform that shapes it. `attempt(n)` is
      the fate of the n-th HTTP attempt if it is made; the three `cut` functions
      say where the caller's abort signal is seen. */
  datatype Call = Call(
    ready: bool,
    attempt: nat -> Attempt,
    maxAttempts: nat,
    retryAmbiguous: bool,
    cutBefore: nat -> bool,
    cutInFlight: nat -> bool,
    cutWhileWaiting: nat -> bool,
    unclassified: bool,
    timesOut: bool)

  datatype HttpResult =
    | Response(status: nat, reading: Reading, attempts: nat, ambiguousPrior: nat)
    | CallError(ambiguous: bool, cancelled: bool, attempts: nat)

  /** An attempt the loop counts as ambiguous. */
  predicate AmbiguousAttempt(a: Attempt) { a.Broken? || (a.Answered? && a.status >= 500) }

  /** The truth about an attempt: the provider may have moved money. A 408 or 409 is
      no decision about the charge; any other 4xx, or a decline, is a refusal. */
  predicate MayHaveCharged(a: Attempt) {
    || AmbiguousAttempt(a)
    || (a.Answered? && (a.status == 408 || a.status == 409))
    || (a.Answered? && a.status < 400 && a.reading != Declined)
  }

  predicate Retried(a: Attempt, retryAmbiguous: bool) {
    a.NotSent? || (a.Answered? && a.status == 429) || (AmbiguousAttempt(a) && retryAmbiguous)
  }

  function AmbiguousCount(attempt: nat -> Attempt, n: nat): nat {
    if n == 0 then 0 else AmbiguousCount(attempt, n - 1) + (if AmbiguousAttempt(attempt(n - 1)) then 1 else 0)
  }

  lemma {:induction false} NoneAmbiguous(attempt: nat -> Attempt, n: nat)
    ensures AmbiguousCount(attempt, n) == 0 <==> forall i: nat | i < n :: !AmbiguousAttempt(attempt(i))
  {
    if n > 0 { NoneAmbiguous(attempt, n - 1); }
  }

  /** The caller's signal is seen while an attempt fails: it may be under way. */
  predicate Interrupted(c: Call, n: nat) { !c.cutBefore(n) && !c.attempt(n).Answered? && c.cutInFlight(n) }

  /** The n-th attempt is made, ends, and is to be retried after a wait. */
  predicate WaitsAfter(c: Call, n: nat) {
    !c.cutBefore(n) && !Interrupted(c, n) && Retried(c.attempt(n), c.retryAmbiguous) && n + 1 < c.maxAttempts
  }

  predicate GoesOn(c: Call, n: nat) { WaitsAfter(c, n) && !c.cutWhileWaiting(n) }

  /** The caller's signal is seen between attempts. */
  predicate CutBetween(c: Call, attempts: nat) {
    || (attempts < c.maxAttempts && c.cutBefore(attempts) && (attempts > 0 ==> GoesOn(c, attempts - 1)))
    || (attempts > 0 && WaitsAfter(c, attempts - 1) && c.cutWhileWaiting(attempts - 1))
  }

  /** A failure that is not retried, or no attempt at all is allowed. */
  predicate GaveUp(c: Call, attempts: nat) {
    if attempts == 0 then c.maxAttempts == 0
    else
      var n := attempts - 1;
      !c.cutBefore(n) && !Interrupted(c, n) && !c.attempt(n).Answered? && !WaitsAfter(c, n)
  }

  /** What a result says about the attempts behind it. */
  predicate Explains(c: Call, r: HttpResult) {
    && r.attempts <= c.maxAttempts
    && (forall n: nat | n + 1 < r.attempts :: GoesOn(c, n))
    && match r
       case Response(status, reading, attempts, prior) =>
         && attempts > 0 && !c.cutBefore(attempts - 1) && !WaitsAfter(c, attempts - 1)
         && c.attempt(attempts - 1) == Answered(status, reading)
         && prior == AmbiguousCount(c.attempt, attempts - 1)
       case CallError(ambiguous, cancelled, attempts) =>
         if attempts > 0 && Interrupted(c, attempts - 1) then ambiguous && cancelled
         else
           && ambiguous == (AmbiguousCount(c.attempt, attempts) > 0)
           && if cancelled then CutBetween(c, attempts) else GaveUp(c, attempts)
  }

  /** An attempt that was made was not cut off, and the one before it went on. */
  lemma Reached(c: Call, r: HttpResult, n: nat)
    requires Explains(c, r)
    ensures n < r.attempts ==> !c.cutBefore(n) && (n > 0 ==> GoesOn(c, n - 1))
  {
    if n + 1 < r.attempts { assert GoesOn(c, n); }
  }

  lemma StopsOnce(c: Call, r: HttpResult, s: HttpResult)
    requires Explains(c, r) && Explains(c, s)
    ensures r.attempts >= s.attempts
  {
    Reached(c, s, r.attempts);
  }

  /** Nothing is left open: the network's behaviour has one result. */
  lemma ResultIsDetermined(c: Call, r: HttpResult, s: HttpResult)
    requires Explains(c, r) && Explains(c, s)
    ensures r == s
  {
    StopsOnce(c, r, s);
    StopsOnce(c, s, r);
  }

  /** Before any byte went out; told to slow down; or, if the caller asked for it, after
      a failure that leaves the outcome open. */
  predicate WorthRetrying(a: Attempt, retryAmbiguous: bool) {
    match a
    case NotSent => true
    case Broken => retryAmbiguous
    case Answered(status, _) => status == 429 || (status >= 500 && retryAmbiguous)
  }

  /** An attempt worth retrying is followed by another while there is one left and the
      caller has not gone. */
  lemma RetriesWhileItMay(c: Call, r: HttpResult, n: nat)
    requires Explains(c, r) && n < r.attempts && WorthRetrying(c.attempt(n), c.retryAmbiguous)
    requires n + 1 < c.maxAttempts && !c.cutInFlight(n) && !c.cutWhileWaiting(n) && !c.cutBefore(n + 1)
    ensures r.attempts > n + 1
  {
    Reached(c, r, n);
  }

  /** Any other attempt is the last. */
  lemma StopsAtAnythingElse(c: Call, r: HttpResult, n: nat)
    requires Explains(c, r) && n < r.attempts
    requires !WorthRetrying(c.attempt(n), c.retryAmbiguous) || n + 1 == c.maxAttempts
    ensures r.attempts == n + 1
    ensures c.attempt(n).Answered? ==> r.Response? && Answered(r.status, r.reading) == c.attempt(n)
    ensures !c.attempt(n).Answered? ==> r.CallError?
  {
    Reached(c, r, n);
    assert n + 1 < r.attempts ==> GoesOn(c, n);
  }

  method HttpRequest(c: Call) returns (r: HttpResult)
    ensures Explains(c, r)
  {
    var started := 0;
    var ambiguousAttempts := 0;
    for attempt := 1 to c.maxAttempts + 1
      invariant started == attempt - 1 && (started == c.maxAttempts ==> started == 0)
      invariant ambiguousAttempts == AmbiguousCount(c.attempt, started)
      invariant forall n: nat | n < started :: GoesOn(c, n)
    {
      if c.cutBefore(started) {
        assert started > 0 ==> GoesOn(c, started - 1);
        return CallError(ambiguousAttempts > 0, true, started);
      }
      var n := started;
      started := started + 1;
      match c.attempt(n) {
        case Answered(status, reading) =>
          var ambiguousStatus := status >= 500;
          var retryable := status == 429 || (ambiguousStatus && c.retryAmbiguous);
          if retryable && attempt < c.maxAttempts {
            if ambiguousStatus { ambiguousAttempts := ambiguousAttempts + 1; }
            if c.cutWhileWaiting(n) {
              return CallError(ambiguousAttempts > 0, true, started);
            }
          } else {
            return Response(status, reading, started, ambiguousAttempts);
          }
        case failure =>
          if c.cutInFlight(n) {
            return CallError(true, true, started);
          }
          var preSend := failure.NotSent?;
          if !preSend { ambiguousAttempts := ambiguousAttempts + 1; }
          var canRetry := attempt < c.maxAttempts && (preSend || c.retryAmbiguous);
          if !canRetry {
            return CallError(ambiguousAttempts > 0, false, started);
          }
          if c.cutWhileWaiting(n) {
            return CallError(ambiguousAttempts > 0, true, started);
          }
      }
    }
    return CallError(ambiguousAttempts > 0, false, started);
  }

  // ---------------------------------------------------------------- adapters

  datatype EventStatus = EvSuccess | EvPending | EvFailed | EvUnknown

  /** What the router sees of a provider call. A thrown error may carry a flag
      saying whether its outcome is ambiguous. */
  datatype Outcome = Returned(status: EventStatus) | Threw(ambiguous: Option<bool>) | TimedOut

  /** The classification of an HTTP error status from a money-moving call. */
  predicate HttpErrorAmbiguous(status: nat, ambiguousPrior: nat) {
    status >= 500 || status == 408 || status == 409 || ambiguousPrior > 0
  }

  predicate NothingCharged(c: Call, started: nat) { forall n: nat | n < started :: !MayHaveCharged(c.attempt(n)) }

  /** A decline read from an answer below 400 to a retry of an ambiguous attempt. */
  predicate DeclinedRetry(c: Call, started: nat) {
    && started > 0
    && c.attempt(started - 1).Answered? && c.attempt(started - 1).status < 400
    && c.attempt(started - 1).reading == Declined
    && AmbiguousCount(c.attempt, started - 1) > 0
  }

  /** The outcome claims that no money moved. */
  predicate ClaimsUncharged(o: Outcome) { o == Returned(EvFailed) || o == Threw(Some(false)) }

  /** The exception is real: a lost first attempt, retried, then declined with 200. */
  lemma DeclinedRetryHappens(c: Call)
    requires c.retryAmbiguous && c.maxAttempts >= 2
    requires c.attempt(0) == Broken && c.attempt(1) == Answered(200, Declined)
    requires !c.cutBefore(0) && !c.cutInFlight(0) && !c.cutWhileWaiting(0) && !c.cutBefore(1)
    ensures Explains(c, Response(200, Declined, 2, 1))
    ensures DeclinedRetry(c, 2) && !NothingCharged(c, 2)
  {
  }

  lemma OnlyAmbiguousOrRefusedRetried(c: Call, r: HttpResult)
    requires Explains(c, r)
    ensures forall n: nat | n + 1 < r.attempts && MayHaveCharged(c.attempt(n)) ::
      c.retryAmbiguous && AmbiguousAttempt(c.attempt(n))
  {
    forall n: nat | n + 1 < r.attempts ensures Retried(c.attempt(n), c.retryAmbiguous) { assert GoesOn(c, n); }
  }

  function StatusFor(r: Reading): EventStatus {
    match r
    case Approved => EvSuccess
    case InProgress => EvPending
    case Declined => EvFailed
    case Unreadable => EvUnknown
  }

  /** The last attempt was answered below 400. */
  predicate Read(c: Call, started: nat) {
    started > 0 && c.attempt(started - 1).Answered? && c.attempt(started - 1).status < 400
  }

  /** An adapter's reading of the loop's result. */
  function OutcomeOf(c: Call, r: HttpResult): Outcome {
    if c.timesOut then TimedOut
    else if c.unclassified then Threw(None)
    else
      match r
      case Response(status, reading, _, ambiguousPrior) =>
        if status < 400 then Returned(StatusFor(reading))
        else Returned(if HttpErrorAmbiguous(status, ambiguousPrior) then EvUnknown else EvFailed)
      case CallError(ambiguous, _, _) => Returned(if ambiguous then EvUnknown else EvFailed)
  }

  /** What a call reports, and after how many attempts: one answer, by ResultIsDetermined. */
  ghost predicate Reports(c: Call, started: nat, o: Outcome) {
    if !c.ready then o == Threw(Some(false)) && started == 0
    else exists r :: Explains(c, r) && r.attempts == started && o == OutcomeOf(c, r)
  }

  /** An answer below 400 is reported as read, anything else as failed or unknown. */
  lemma ReportedAsRead(c: Call, started: nat, o: Outcome)
    requires Reports(c, started, o) && c.ready && !c.timesOut && !c.unclassified
    ensures if Read(c, started) then o == Returned(StatusFor(c.attempt(started - 1).reading))
            else o == Returned(EvFailed) || o == Returned(EvUnknown)
  {
  }

  /** The truth against what is reported, for every network. */
  lemma ReportIsTrue(c: Call, started: nat, o: Outcome)
    requires Reports(c, started, o)
    ensures started <= c.maxAttempts
    ensures ClaimsUncharged(o) ==> (NothingCharged(c, started) <==> !DeclinedRetry(c, started))
    ensures !c.retryAmbiguous ==>
      !DeclinedRetry(c, started) && NothingCharged(c, started - if started > 0 then 1 else 0)
    ensures o == Returned(EvUnknown) ==>
      !NothingCharged(c, started) || (started > 0 && c.attempt(started - 1).NotSent? && c.cutInFlight(started - 1))
  {
    if c.ready {
      var r :| Explains(c, r) && r.attempts == started && o == OutcomeOf(c, r);
      NoneAmbiguous(c.attempt, started);
      if started > 0 { NoneAmbiguous(c.attempt, started - 1); }
      OnlyAmbiguousOrRefusedRetried(c, r);
    }
  }

  method ProcessRequest(c: Call) returns (o: Outcome, started: nat)
    ensures Reports(c, started, o)
  {
    if !c.ready {
      return Threw(Some(false)), 0;
    }
    var r := HttpRequest(c);
    started := r.attempts;
    if c.timesOut {
      return TimedOut, started;
    }
    if c.unclassified {
      return Threw(None), started;
    }
    match r {
      case Response(status, reading, _, ambiguousPrior) =>
        if status < 400 {
          o := Returned(StatusFor(reading));
        } else {
          o := Returned(if HttpErrorAmbiguous(status, ambiguousPrior) then EvUnknown else EvFailed);
        }
      case CallError(ambiguous, _, _) =>
        o := Returned(if ambiguous then EvUnknown else EvFailed);
    }
  }
}
