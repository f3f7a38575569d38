/** The claim loop above the idempotency store: claim, wait for an in-flight
    twin, retry narrow races, and answer. The store's replies and the passing of
    time are arbitrary. */
module CheckAndClaim {
  import opened Wrappers
  import Ledger = IdempotencyLedger

  /** What `store.claim` may answer; the status is whatever the row holds. */
  datatype StoreReply =
    | Claimed(id: nat)
    | Existing(status: RowStatus, requestHash: string, result: Option<string>)
    | Unreadable

  datatype RowStatus = Processing | Completed | Failed | Other

  datatype Answer =
    | HashRequired
    | ClaimedKey(id: nat)
    | Replay(result: Option<string>)
    | InProgress
    | Conflict(result: Option<string>)

  const MAX_RACE_RETRIES := 5

  /** The stored hash names a different request; an empty one is a legacy row. */
  predicate DifferentRequest(r: StoreReply, requestHash: string) {
    r.Existing? && r.requestHash != "" && r.requestHash != requestHash
  }

  /** A same-request row that is still running. */
  predicate StillRunning(r: StoreReply, requestHash: string) {
    r.Existing? && !DifferentRequest(r, requestHash) && r.status == Processing
  }

  /** The reply ends the loop whatever the clock says. */
  predicate Decisive(r: StoreReply, requestHash: string) {
    r.Claimed? || DifferentRequest(r, requestHash) || (r.Existing? && r.status == Completed)
  }

  // ---------------------------------------------------------------- the clock of one call

  /** What one call depends on: `store(n)` is the reply to its n-th claim and `elapse(n)`
      the time that passes before its n-th look at the clock. */
  datatype Call = Call(
    store: nat -> StoreReply, elapse: nat -> nat, start: int, requestHash: string, waitMs: nat, pollMs: nat)

  function Deadline(c: Call): int { c.start + c.waitMs }

  /** When the call wakes from its k-th sleep: it looks twice for each running reply, to
      ask whether time is left and how long to sleep. */
  function Wake(c: Call, k: nat): int
    decreases k, 0
  {
    if k == 0 then c.start
    else
      var asleep := LookAt(c, k - 1) + c.elapse(2 * k - 1);
      asleep + Min(c.pollMs, Max(0, Deadline(c) - asleep))
  }

  /** When it asks whether time is left after the k-th running reply. */
  function LookAt(c: Call, k: nat): int
    decreases k, 1
  {
    Wake(c, k) + c.elapse(2 * k)
  }

  /** A sleep lasts a poll interval or until the deadline, and never goes past it. */
  lemma {:induction false} SleepsBetweenPolls(c: Call, k: nat)
    requires LookAt(c, k) < Deadline(c)
    ensures Wake(c, k + 1) >= Min(LookAt(c, k) + c.pollMs, Deadline(c))
    ensures Wake(c, k + 1) <= Max(LookAt(c, k) + c.elapse(2 * k + 1), Deadline(c))
  {
  }

  /** Running replies among the first n. */
  function Running(c: Call, n: nat): nat {
    if n == 0 then 0 else Running(c, n - 1) + One(StillRunning(c.store(n - 1), c.requestHash))
  }

  /** Replies among the first n that are neither decisive nor running: lost races. */
  function Races(c: Call, n: nat): nat {
    if n == 0 then 0
    else
      var r := c.store(n - 1);
      Races(c, n - 1) + One(!Decisive(r, c.requestHash) && !StillRunning(r, c.requestHash))
  }

  // ---------------------------------------------------------------- what the call answers

  /** An earlier reply asks for another claim: a running one before the deadline, or a
      race while retries are left. */
  ghost predicate AsksAgain(c: Call, i: nat) {
    var r := c.store(i);
    && !Decisive(r, c.requestHash)
    && if StillRunning(r, c.requestHash) then LookAt(c, Running(c, i)) < Deadline(c) else Races(c, i) < MAX_RACE_RETRIES
  }

  function TimeSpent(c: Call, calls: nat): int
    requires calls > 0
  {
    var k := Running(c, calls - 1);
    (if StillRunning(c.store(calls - 1), c.requestHash) then LookAt(c, k) else Wake(c, k)) - c.start
  }

  /** Every reply but the last asked for another claim, the last did not, and it is the
      answer; a running one only at or after the deadline. */
  ghost predicate Answers(c: Call, answer: Answer, calls: nat, waited: int) {
    && calls > 0 && (forall i: nat | i < calls - 1 :: AsksAgain(c, i)) && !AsksAgain(c, calls - 1)
    && waited == TimeSpent(c, calls)
    && var last := c.store(calls - 1);
       match answer
       case ClaimedKey(id) => last == Claimed(id)
       case Conflict(result) =>
         DifferentRequest(last, c.requestHash) && result == (if last.status == Completed then last.result else None)
       case Replay(result) =>
         && last.Existing? && (last.requestHash == "" || last.requestHash == c.requestHash)
         && last.status == Completed && result == last.result
       case InProgress => !Decisive(last, c.requestHash)
       case HashRequired => false
  }

  lemma EarlierAsk(c: Call, answer: Answer, calls: nat, waited: int, i: nat)
    requires Answers(c, answer, calls, waited)
    ensures i < calls - 1 ==> AsksAgain(c, i)
  {
  }

  lemma LastStops(c: Call, answer: Answer, calls: nat, waited: int)
    requires Answers(c, answer, calls, waited)
    ensures calls > 0 && !AsksAgain(c, calls - 1)
  {
  }

  /** The replies and the clock leave one answer, after one number of claims. */
  lemma AnswerIsDetermined(c: Call, a: Answer, m: nat, v: int, b: Answer, n: nat, w: int)
    requires Answers(c, a, m, v) && Answers(c, b, n, w)
    ensures a == b && m == n && v == w
  {
    EarlierAsk(c, b, n, w, m - 1);
    EarlierAsk(c, a, m, v, n - 1);
  }

  /** Waiting for a twin pays off: when the replies so far were all running and a decisive
      one comes before the deadline, the answer is that one. */
  lemma {:induction false} TwinsAnswerIsReturned(c: Call, n: nat, a: Answer, calls: nat, waited: int)
    requires Answers(c, a, calls, waited)
    requires forall i: nat | i < n :: StillRunning(c.store(i), c.requestHash) && LookAt(c, i) < Deadline(c)
    requires Decisive(c.store(n), c.requestHash)
    ensures calls == n + 1
    ensures c.store(n).Claimed? ==> a == ClaimedKey(c.store(n).id)
    ensures c.store(n).Existing? && c.store(n).requestHash == c.requestHash ==> a == Replay(c.store(n).result)
    ensures c.store(n).Existing? && c.store(n).requestHash !in {"", c.requestHash} ==> a.Conflict?
  {
    AllRunning(c, n);
    forall i: nat | i < n ensures AsksAgain(c, i) { AllRunning(c, i); }
    EarlierAsk(c, a, calls, waited, n);
    LastStops(c, a, calls, waited);
  }

  lemma {:induction false} AllRunning(c: Call, n: nat)
    requires forall i: nat | i < n :: StillRunning(c.store(i), c.requestHash)
    ensures Running(c, n) == n
  {
    if n > 0 { AllRunning(c, n - 1); }
  }

  /** Polls that fit in the waiting time, the last one possibly cut short. */
  function PollsFor(waitMs: nat, pollMs: nat): nat
    requires pollMs > 0
  {
    (waitMs + pollMs - 1) / pollMs
  }

  /** So many polls, none cut short, fit in so much time. */
  predicate FitIn(polls: nat, pollMs: nat, time: int) { polls * pollMs <= time }

  /** Falling asleep once more before the deadline. */
  lemma OneMorePoll(polls: nat, waitMs: nat, pollMs: nat, time: int, asleep: int)
    requires pollMs > 0 && FitIn(polls, pollMs, time) && time < waitMs && time <= asleep
    ensures polls + 1 <= PollsFor(waitMs, pollMs)
    ensures var woken := asleep + Min(pollMs, Max(0, waitMs - asleep));
      woken < waitMs ==> FitIn(polls + 1, pollMs, woken)
  {
    assert (polls + 1) * pollMs == polls * pollMs + pollMs;
  }

  /** The reply that ends the loop is the answer. */
  function AnswerTo(c: Call, r: StoreReply): Answer {
    if r.Claimed? then ClaimedKey(r.id)
    else if DifferentRequest(r, c.requestHash) then Conflict(if r.status == Completed then r.result else None)
    else if r.Existing? && r.status == Completed then Replay(r.result)
    else InProgress
  }

  // ---------------------------------------------------------------- the loop

  /** After so many claims, each of which asked for another. */
  ghost predicate Underway(c: Call, calls: nat, polls: nat, races: nat, now: int) {
    && c.pollMs > 0
    && calls == polls + races && polls == Running(c, calls) && races == Races(c, calls) <= MAX_RACE_RETRIES
    && c.start <= now == Wake(c, polls) && polls <= PollsFor(c.waitMs, c.pollMs)
    && (now < Deadline(c) ==> FitIn(polls, c.pollMs, now - c.start))
    && (forall i: nat | i < calls :: AsksAgain(c, i))
  }

  lemma Raced(c: Call, calls: nat, polls: nat, races: nat, now: int)
    requires Underway(c, calls, polls, races, now) && races < MAX_RACE_RETRIES
    requires !Decisive(c.store(calls), c.requestHash) && !StillRunning(c.store(calls), c.requestHash)
    ensures Underway(c, calls + 1, polls, races + 1, now)
  {
  }

  lemma {:induction false} Slept(c: Call, calls: nat, polls: nat, races: nat, now: int)
    requires Underway(c, calls, polls, races, now)
    requires StillRunning(c.store(calls), c.requestHash) && LookAt(c, polls) < Deadline(c)
    ensures Underway(c, calls + 1, polls + 1, races, Wake(c, polls + 1))
  {
    var look := LookAt(c, polls);
    OneMorePoll(polls, c.waitMs, c.pollMs, look - c.start, look + c.elapse(2 * polls + 1) - c.start);
  }

  lemma {:induction false} Ends(c: Call, calls: nat, polls: nat, races: nat, now: int)
    requires Underway(c, calls, polls, races, now) && !AsksAgain(c, calls)
    ensures var r := c.store(calls);
      var time := (if StillRunning(r, c.requestHash) then LookAt(c, polls) else now) - c.start;
      Answers(c, AnswerTo(c, r), calls + 1, time)
    ensures calls + 1 <= 1 + MAX_RACE_RETRIES + PollsFor(c.waitMs, c.pollMs)
  {
  }

  /** A reply that settles the call at once. */
  method SettledBy(res: StoreReply, requestHash: string) returns (answer: Option<Answer>)
    ensures answer.Some? <==> Decisive(res, requestHash)
    ensures forall c: Call | c.requestHash == requestHash && answer.Some? :: answer.value == AnswerTo(c, res)
  {
    if res.Claimed? { return Some(ClaimedKey(res.id)); }
    if res.Unreadable? { return None; }
    if res.requestHash != "" && res.requestHash != requestHash {
      return Some(Conflict(if res.status == Completed then res.result else None));
    }
    return if res.status == Completed then Some(Replay(res.result)) else None;
  }

  method ClaimLoop(c: Call) returns (answer: Answer, calls: nat, waited: int)
    requires c.pollMs > 0
    ensures Answers(c, answer, calls, waited)
    ensures calls <= 1 + MAX_RACE_RETRIES + PollsFor(c.waitMs, c.pollMs)
  {
    var deadline := c.start + c.waitMs;
    var now, looks := c.start, 0;
    var raceRetries := 0;
    ghost var polls: nat := 0;
    calls := 0;
    while true
      invariant Underway(c, calls, polls, raceRetries, now) && looks == 2 * polls
      decreases Max(0, deadline - now), MAX_RACE_RETRIES - raceRetries
    {
      var res := c.store(calls);
      if !AsksAgain(c, calls) { Ends(c, calls, polls, raceRetries, now); }
      calls := calls + 1;
      var settled := SettledBy(res, c.requestHash);
      if settled.Some? { return settled.value, calls, now - c.start; }
      if res.Existing? && res.status == Processing {
        now, looks := now + c.elapse(looks), looks + 1;
        if now >= deadline { return InProgress, calls, now - c.start; }
        Slept(c, calls - 1, polls, raceRetries, Wake(c, polls));
        now, looks := now + c.elapse(looks), looks + 1;
        now := now + Min(c.pollMs, Max(0, deadline - now));
        polls := polls + 1;
      } else {
        if raceRetries >= MAX_RACE_RETRIES { return InProgress, calls, now - c.start; }
        Raced(c, calls - 1, polls, raceRetries, now);
        raceRetries := raceRetries + 1;
      }
    }
  }

  method Run(
      store: nat -> StoreReply, elapse: nat -> nat, start: int, requestHash: string,
      waitForInFlightMs: int, pollIntervalMs: int)
    returns (answer: Answer, calls: nat, waited: int)
    ensures answer == HashRequired <==> requestHash == ""
    ensures requestHash == "" ==> calls == 0
    ensures requestHash != "" ==>
      && Answers(
           Call(store, elapse, start, requestHash, Max(0, waitForInFlightMs), Max(10, pollIntervalMs)),
           answer, calls, waited)
      && calls <= 1 + MAX_RACE_RETRIES + PollsFor(Max(0, waitForInFlightMs), Max(10, pollIntervalMs))
  {
    if requestHash == "" { return HashRequired, 0, 0; }
    answer, calls, waited :=
      ClaimLoop(Call(store, elapse, start, requestHash, Max(0, waitForInFlightMs), Max(10, pollIntervalMs)));
  }

  // ---------------------------------------------------------------- over the record store

  function FromLedger(reply: Ledger.ClaimReply): StoreReply {
    match reply
    case Granted(record) => Claimed(record.id)
    case Refused(e) =>
      var status := match e.status case Processing => Processing case Completed => Completed case Failed => Failed;
      Existing(status, e.requestHash, e.result)
  }

  /** A key that another request holds or has completed is answered as a conflict. */
  lemma {:induction false} OtherRequestConflicts(
      l: Ledger.Ledger, ops: seq<Ledger.Op>, k: Ledger.Scope, requestHash: string, now: int, ttlMs: int, c: Call,
      n: nat)
    requires k in l.rows && l.rows[k].requestHash != "" && Ledger.Unexpired(l, ops, k)
    requires now < Ledger.ExpiryOf(Ledger.Run(l, ops), k) && requestHash != "" && requestHash != l.rows[k].requestHash
    requires c.requestHash == requestHash
    requires c.store(n) == FromLedger(Ledger.ReplyToClaim(Ledger.Run(l, ops), k, requestHash, now, ttlMs))
    ensures AnswerTo(c, c.store(n)).Conflict? && Decisive(c.store(n), requestHash)
  {
    Ledger.HashIsKept(l, ops, k, requestHash, now, ttlMs);
  }

  /** Against the record store every reply is decisive or a running twin: the
      race path, and with it the retry budget, is never entered. */
  lemma LedgerNeverRaces(l: Ledger.Ledger, k: Ledger.Scope, requestHash: string, now: int, ttlMs: int)
    requires requestHash != ""
    ensures var r := FromLedger(Ledger.ReplyToClaim(l, k, requestHash, now, ttlMs));
      Decisive(r, requestHash) || StillRunning(r, requestHash)
  {
  }
}
