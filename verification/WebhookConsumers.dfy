/** Per-consumer processing of durable webhooks: fencing by claim token over every
    interleaving of store statements, and exactly-once effects above it. */
module WebhookConsumers {
  import opened Wrappers
  import opened WebhookStore
  import opened WebhookEffects
  import Rows = TransactionRows

  // ---------------------------------------------------------------- statements in any order

  datatype Statement =
    | Insert(row: EventRow)
    | Acquire(id: EventId, now: int, leaseMs: int)
    | Mark(id: EventId, jobs: seq<JobType>, now: int)
    | Release(id: EventId, jobs: seq<JobType>)
    | Sweep(ids: set<EventId>, now: int, leaseMs: int)
    | ClaimFor(key: ConsumerKey, now: int, leaseMs: int)
    | Complete(key: ConsumerKey, token: Token)
    | Fail(key: ConsumerKey, token: Token)

  /** An insert is a first sighting under a fresh id; consumers are only claimed
      for an event row that was resolved first. */
  predicate CanIssue(db: Db, s: Statement) {
    match s
    case Insert(row) => row.id == db.issued && row.status == Received
    case ClaimFor(k, _, _) => k.event in db.events
    case _ => true
  }

  ghost function Execute(db: Db, s: Statement): Db {
    match s
    case Insert(row) => AfterInsert(db, row)
    case Acquire(id, now, lease) => AfterAcquire(db, id, now, lease)
    case Mark(id, jobs, now) => AfterMark(db, id, jobs, now)
    case Release(id, jobs) => AfterRelease(db, id, jobs)
    case Sweep(ids, now, lease) => AfterSweep(db, ids, now, lease)
    case ClaimFor(k, now, lease) => AfterClaimConsumer(db, k, now, lease)
    case Complete(k, token) => AfterComplete(db, k, token)
    case Fail(k, token) => AfterFail(db, k, token)
  }

  ghost predicate Possible(db: Db, ss: seq<Statement>)
    decreases |ss|
  {
    ss == [] || (CanIssue(db, ss[0]) && Possible(Execute(db, ss[0]), ss[1..]))
  }

  ghost function Run(db: Db, ss: seq<Statement>): Db
    decreases |ss|
  {
    if ss == [] then db else Run(Execute(db, ss[0]), ss[1..])
  }

  const EMPTY := Db(map[], map[], 0)

  ghost predicate WellKeyed(db: Db) {
    && (forall id | id in db.events :: db.events[id].id == id && id < db.issued)
    && (forall k | k in db.consumers ::
        k.event in db.events && db.consumers[k].key == k && db.consumers[k].claimToken < db.issued)
  }

  /** The event's status and its consumers' agree. */
  ghost predicate Agreed(db: Db, id: EventId)
    requires id in db.events
  {
    db.events[id].expectedConsumers != [] ==>
      (db.events[id].status == Processed <==> AllFinished(db, db.events[id]))
  }

  ghost predicate Consistent(db: Db) {
    WellKeyed(db) && forall id | id in db.events :: Agreed(db, id)
  }

  lemma InsertKeeps(db: Db, row: EventRow)
    requires Consistent(db) && CanIssue(db, Insert(row))
    ensures Consistent(AfterInsert(db, row))
  {
    var db' := AfterInsert(db, row);
    forall id | id in db'.events ensures Agreed(db', id) {
      if id == row.id {
        if row.expectedConsumers != [] {
          assert row.expectedConsumers[0] in row.expectedConsumers;
          assert !FinishedFor(db', id, row.expectedConsumers[0]);
        }
      } else {
        assert Agreed(db, id);
      }
    }
  }

  /** Statements on the enqueue columns leave status and consumers alone. */
  lemma EnqueueColumnsKeep(db: Db, db': Db)
    requires Consistent(db) && db'.consumers == db.consumers && db'.issued == db.issued
    requires db'.events.Keys == db.events.Keys
    requires forall id | id in db.events ::
      && db'.events[id].id == id && db'.events[id].status == db.events[id].status
      && db'.events[id].expectedConsumers == db.events[id].expectedConsumers
    ensures Consistent(db')
  {
  }

  /** Consumer rows change for `k` only, which was not finished before. */
  lemma ClaimOrFailKeeps(db: Db, db': Db, k: ConsumerKey, s: EventStatus)
    requires Consistent(db) && s != Processed && k.event in db.events && db.issued <= db'.issued
    requires k in db.consumers ==> db.consumers[k].status != Finished
    requires db'.events == WithStatus(db, k.event, s)
    requires k in db'.consumers && db'.consumers == db.consumers[k := db'.consumers[k]]
    requires db'.consumers[k].key == k && db'.consumers[k].status != Finished &&
      db'.consumers[k].claimToken < db'.issued
    ensures Consistent(db')
  {
    forall id | id in db'.events ensures Agreed(db', id) {
      assert Agreed(db, id);
      var r := db.events[id];
      forall c | c in r.expectedConsumers ensures FinishedFor(db', id, c) <==> FinishedFor(db, id, c) {
      }
    }
  }

  lemma CompleteKeeps(db: Db, k: ConsumerKey, token: Token)
    requires Consistent(db) && HoldsClaim(db, k, token)
    ensures Consistent(AfterComplete(db, k, token))
  {
    var done := db.(consumers := db.consumers[k := Ended(db.consumers[k], Finished)]);
    var db' := AfterComplete(db, k, token);
    forall id | id in db'.events ensures Agreed(db', id) {
      assert Agreed(db, id);
      var r := db.events[id];
      forall c | c in r.expectedConsumers
        ensures FinishedFor(db', id, c) <==> FinishedFor(db, id, c) || ConsumerKey(id, c) == k
      {
      }
      if id == k.event {
        assert AllFinished(db', db'.events[id]) <==> AllFinished(done, r);
      }
    }
  }

  lemma StatementKeepsConsistent(db: Db, s: Statement)
    requires Consistent(db) && CanIssue(db, s)
    ensures Consistent(Execute(db, s))
  {
    match s
    case Insert(row) => InsertKeeps(db, row);
    case ClaimFor(k, now, lease) =>
      if Claimable(db, k, now) { ClaimOrFailKeeps(db, Execute(db, s), k, Processing); }
    case Complete(k, token) =>
      if HoldsClaim(db, k, token) { CompleteKeeps(db, k, token); }
    case Fail(k, token) =>
      if HoldsClaim(db, k, token) { ClaimOrFailKeeps(db, Execute(db, s), k, Failed); }
    case _ => EnqueueColumnsKeep(db, Execute(db, s));
  }

  /** Over every run: a processed event is one whose expected consumers all are. */
  lemma {:induction false} EventProcessedExactlyWhenConsumersAre(db: Db, ss: seq<Statement>)
    requires Consistent(db) && Possible(db, ss)
    ensures Consistent(Run(db, ss))
    decreases |ss|
  {
    if ss != [] {
      StatementKeepsConsistent(db, ss[0]);
      EventProcessedExactlyWhenConsumersAre(Execute(db, ss[0]), ss[1..]);
    }
  }

  /** A finished consumer row is never touched again, and a processed event stays so. */
  lemma {:induction false} FinishedIsForever(db: Db, ss: seq<Statement>, k: ConsumerKey, id: EventId)
    requires WellKeyed(db) && Possible(db, ss)
    ensures k in db.consumers && db.consumers[k].status == Finished ==>
      k in Run(db, ss).consumers && Run(db, ss).consumers[k] == db.consumers[k]
    ensures id in db.events && db.events[id].status == Processed ==>
      id in Run(db, ss).events && Run(db, ss).events[id].status == Processed
    decreases |ss|
  {
    if ss != [] {
      StatementKeepsKeys(db, ss[0]);
      if k in db.consumers && db.consumers[k].status == Finished { FinishedStaysFinished(db, ss[0], k); }
      if id in db.events && db.events[id].status == Processed { ProcessedStaysProcessed(db, ss[0], id); }
      FinishedIsForever(Execute(db, ss[0]), ss[1..], k, id);
    }
  }

  lemma StatementKeepsKeys(db: Db, s: Statement)
    requires WellKeyed(db) && CanIssue(db, s)
    ensures WellKeyed(Execute(db, s))
  {
  }

  lemma FinishedStaysFinished(db: Db, s: Statement, k: ConsumerKey)
    requires k in db.consumers && db.consumers[k].status == Finished
    ensures k in Execute(db, s).consumers && Execute(db, s).consumers[k] == db.consumers[k]
  {
  }

  lemma ProcessedStaysProcessed(db: Db, s: Statement, id: EventId)
    requires WellKeyed(db) && CanIssue(db, s) && id in db.events && db.events[id].status == Processed
    ensures id in Execute(db, s).events && Execute(db, s).events[id].status == Processed
  {
  }

  /** A claim that is not live now - superseded, ended or never granted - is never
      live again, so acting under its token changes nothing. */
  lemma {:induction false} LostClaimIsInert(db: Db, ss: seq<Statement>, k: ConsumerKey, token: Token)
    requires token < db.issued && !HoldsClaim(db, k, token)
    ensures !HoldsClaim(Run(db, ss), k, token)
    ensures AfterComplete(Run(db, ss), k, token) == Run(db, ss)
    ensures AfterFail(Run(db, ss), k, token) == Run(db, ss)
    decreases |ss|
  {
    if ss != [] {
      ClaimNotRevived(db, ss[0], k, token);
      LostClaimIsInert(Execute(db, ss[0]), ss[1..], k, token);
    }
  }

  lemma ClaimNotRevived(db: Db, s: Statement, k: ConsumerKey, token: Token)
    requires token < db.issued && !HoldsClaim(db, k, token)
    ensures token < Execute(db, s).issued && !HoldsClaim(Execute(db, s), k, token)
  {
  }

  /** Taking a consumer over makes the previous token lost. */
  lemma TakeoverFences(db: Db, k: ConsumerKey, now: int, leaseMs: int)
    requires WellKeyed(db) && k in db.consumers && Claimable(db, k, now)
    ensures var db' := AfterClaimConsumer(db, k, now, leaseMs);
      && HoldsClaim(db', k, db.issued) && !HoldsClaim(db', k, db.consumers[k].claimToken)
      && db.consumers[k].claimToken < db'.issued
  {
  }

  // ---------------------------------------------------------------- exactly-once effects

  /** A worker between its claim and the outcome it reports; `wrote` once its
      `work` has written its effects. */
  datatype Job = Working(key: ConsumerKey, token: Token, wrote: bool) | Throwing(key: ConsumerKey, token: Token)

  type Worker = nat

  datatype World = World(db: Db, effects: Effects, jobs: map<Worker, Job>)

  datatype Move =
    | Other(s: Statement)
    | Begin(w: Worker, key: ConsumerKey, now: int, leaseMs: int)
    | Write(w: Worker, target: Option<Target>, now: int)
    | Throw(w: Worker)
    | Succeed(w: Worker)
    | ReportFailure(w: Worker)
    | Crash(w: Worker)
    | Elsewhere(rows: seq<Rows.Row>)

  predicate Enabled(world: World, m: Move) {
    match m
    case Other(s) => CanIssue(world.db, s) && !s.ClaimFor? && !s.Complete? && !s.Fail?
    case Begin(w, k, _, _) => w !in world.jobs && k.event in world.db.events
    case Write(w, _, _) => w in world.jobs && world.jobs[w].Working?
    case Throw(w) => w in world.jobs && world.jobs[w].Working?
    case Succeed(w) => w in world.jobs && world.jobs[w].Working? && world.jobs[w].wrote
    case ReportFailure(w) => w in world.jobs && world.jobs[w].Throwing?
    case Crash(w) => w in world.jobs
    case Elsewhere(_) => true
  }

  ghost function Apply(world: World, m: Move): World
    requires Enabled(world, m)
  {
    match m
    case Other(s) => world.(db := Execute(world.db, s))
    case Begin(w, k, now, lease) =>
      if Claimable(world.db, k, now)
      then World(AfterClaimConsumer(world.db, k, now, lease), world.effects,
          world.jobs[w := Working(k, world.db.issued, false)])
      else world
    case Write(w, target, now) =>
      World(world.db, AfterPersist(world.effects, world.jobs[w].key, target, now),
          world.jobs[w := world.jobs[w].(wrote := true)])
    case Throw(w) => world.(jobs := world.jobs[w := Throwing(world.jobs[w].key, world.jobs[w].token)])
    case Succeed(w) =>
      World(AfterComplete(world.db, world.jobs[w].key, world.jobs[w].token), world.effects, world.jobs - {w})
    case ReportFailure(w) =>
      World(AfterFail(world.db, world.jobs[w].key, world.jobs[w].token), world.effects, world.jobs - {w})
    case Crash(w) => world.(jobs := world.jobs - {w})
    case Elsewhere(rows) => world.(effects := world.effects.(rows := rows))
  }

  ghost predicate OnePerKey(events: seq<Effect>) {
    forall i, j | 0 <= i < j < |events| :: events[i].key != events[j].key
  }

  ghost predicate ExactlyOnce(world: World) {
    && OnePerKey(world.effects.events)
    && (forall w | w in world.jobs && world.jobs[w].Working? && world.jobs[w].wrote ::
          Recorded(world.effects.events, world.jobs[w].key))
    && (forall k | k in world.db.consumers && world.db.consumers[k].status == Finished ::
        Recorded(world.effects.events, k))
  }

  lemma PersistKeeps(e: Effects, k: ConsumerKey, target: Option<Target>, now: int)
    requires OnePerKey(e.events)
    ensures var after := AfterPersist(e, k, target, now).events;
      && OnePerKey(after) && Recorded(after, k) && forall x | Recorded(e.events, x) :: Recorded(after, x)
  {
    var after := AfterPersist(e, k, target, now).events;
    if !Recorded(e.events, k) {
      assert after[|e.events|].key == k;
      assert forall i | 0 <= i < |e.events| :: after[i] == e.events[i];
      forall x | Recorded(e.events, x) ensures Recorded(after, x) {
        var i :| 0 <= i < |e.events| && e.events[i].key == x;
        assert after[i].key == x;
      }
    }
  }

  lemma MoveKeepsExactlyOnce(world: World, m: Move)
    requires ExactlyOnce(world) && Enabled(world, m)
    ensures ExactlyOnce(Apply(world, m))
  {
    if m.Write? { PersistKeeps(world.effects, world.jobs[m.w].key, m.target, m.now); }
  }

  ghost predicate Feasible(world: World, ms: seq<Move>)
    decreases |ms|
  {
    ms == [] || (Enabled(world, ms[0]) && Feasible(Apply(world, ms[0]), ms[1..]))
  }

  ghost function Play(world: World, ms: seq<Move>): World
    requires Feasible(world, ms)
    decreases |ms|
  {
    if ms == [] then world else Play(Apply(world, ms[0]), ms[1..])
  }

  lemma {:induction false} RunKeepsExactlyOnce(world: World, ms: seq<Move>)
    requires ExactlyOnce(world) && Feasible(world, ms)
    ensures ExactlyOnce(Play(world, ms))
    decreases |ms|
  {
    if ms != [] {
      MoveKeepsExactlyOnce(world, ms[0]);
      RunKeepsExactlyOnce(Apply(world, ms[0]), ms[1..]);
    }
  }

  // ---------------------------------------------------------------- runs nobody disturbs

  lemma {:induction false} PlayOne(world: World, m: Move, ms: seq<Move>)
    requires Enabled(world, m) && Feasible(Apply(world, m), ms)
    ensures Feasible(world, [m] + ms) && Play(world, [m] + ms) == Play(Apply(world, m), ms)
  {
    assert ([m] + ms)[1..] == ms;
  }

  ghost predicate IsFree(world: World, w: Worker, k: ConsumerKey, now: int) {
    w !in world.jobs && k.event in world.db.events && Claimable(world.db, k, now)
  }

  /** A consumer that can be claimed, worked on by one worker whom nobody disturbs, is
      processed, with its effects written under its key. */
  lemma {:induction false} UndisturbedWorkIsProcessed(
      world: World, w: Worker, k: ConsumerKey, target: Option<Target>, now: int, leaseMs: int, later: int)
    requires IsFree(world, w, k, now)
    ensures
      var ms := [Begin(w, k, now, leaseMs), Write(w, target, later), Succeed(w)];
      && Feasible(world, ms) && FinishedFor(Play(world, ms).db, k.event, k.consumer)
      && Play(world, ms).effects == AfterPersist(world.effects, k, target, later)
      && Play(world, ms).jobs == world.jobs
  {
    var w1 := Apply(world, Begin(w, k, now, leaseMs));
    var w2 := Apply(w1, Write(w, target, later));
    PlayOne(w2, Succeed(w), []);
    PlayOne(w1, Write(w, target, later), [Succeed(w)]);
    PlayOne(world, Begin(w, k, now, leaseMs), [Write(w, target, later), Succeed(w)]);
  }

  /** After work that failed, anybody can claim the consumer at once; after a worker
      that died, once its lease has run out. */
  lemma {:induction false} LostWorkIsTakenOver(
      world: World, w: Worker, other: Worker, k: ConsumerKey, now: int, leaseMs: int, later: int)
    requires IsFree(world, w, k, now) && other !in world.jobs
    ensures var ms := [Begin(w, k, now, leaseMs), Throw(w), ReportFailure(w)];
      Feasible(world, ms) && IsFree(Play(world, ms), other, k, later)
    ensures var ms := [Begin(w, k, now, leaseMs), Crash(w)];
      Feasible(world, ms) && (IsFree(Play(world, ms), other, k, later) <==> later >= now + Lasting(leaseMs))
  {
    var begin := Begin(w, k, now, leaseMs);
    var w1 := Apply(world, begin);
    var w2 := Apply(w1, Throw(w));
    PlayOne(w2, ReportFailure(w), []);
    PlayOne(w1, Throw(w), [ReportFailure(w)]);
    PlayOne(world, begin, [Throw(w), ReportFailure(w)]);
    PlayOne(w1, Crash(w), []);
    PlayOne(world, begin, [Crash(w)]);
    ClaimExcludesUntilItEnds(world.db, k, leaseMs, now, later);
  }

  // ---------------------------------------------------------------- its transaction moves at most once

  /** The statement of a worker for this consumer moves the transaction it names. */
  ghost predicate MovesFor(world: World, m: Move, k: ConsumerKey)
    requires Enabled(world, m)
  {
    m.Write? && world.jobs[m.w].key == k && !Recorded(world.effects.events, k) && Applies(world.effects.rows, m.target)
  }

  ghost function MovesIn(world: World, ms: seq<Move>, k: ConsumerKey): nat
    requires Feasible(world, ms)
    decreases |ms|
  {
    if ms == [] then 0 else One(MovesFor(world, ms[0], k)) + MovesIn(Apply(world, ms[0]), ms[1..], k)
  }

  /** A worker's write changes the transactions only when it moves for its consumer. */
  lemma OnlyMovesChangeRows(world: World, m: Move)
    requires Enabled(world, m) && !m.Elsewhere?
    ensures Apply(world, m).effects.rows != world.effects.rows ==> m.Write? && MovesFor(world, m, world.jobs[m.w].key)
  {
  }

  /** The events row of a key says that its statement moved a transaction. */
  ghost predicate SaysMoved(events: seq<Effect>, k: ConsumerKey) {
    exists i :: 0 <= i < |events| && events[i] == Effect(k, true)
  }

  lemma MoveIsRecorded(world: World, m: Move, k: ConsumerKey)
    requires Enabled(world, m)
    ensures var before, after := world.effects.events, Apply(world, m).effects.events;
      && (Recorded(before, k) || MovesFor(world, m, k) ==> Recorded(after, k))
      && (SaysMoved(after, k) <==> SaysMoved(before, k) || MovesFor(world, m, k))
  {
    var before, after := world.effects.events, Apply(world, m).effects.events;
    if after != before {
      assert forall i | 0 <= i < |before| :: after[i] == before[i];
      assert after[|before|].key == world.jobs[m.w].key;
      if i: nat :| i < |before| && before[i].key == k { assert after[i].key == k; }
      if i: nat :| i < |before| && before[i] == Effect(k, true) { assert after[i] == Effect(k, true); }
      if MovesFor(world, m, k) { assert after[|before|] == Effect(k, true); }
    }
  }

  lemma {:induction false} RunMovesAtMostOnce(world: World, ms: seq<Move>, k: ConsumerKey)
    requires Feasible(world, ms)
    ensures MovesIn(world, ms, k) <= One(!Recorded(world.effects.events, k))
    ensures SaysMoved(Play(world, ms).effects.events, k) <==>
      SaysMoved(world.effects.events, k) || MovesIn(world, ms, k) == 1
    decreases |ms|
  {
    if ms != [] {
      MoveIsRecorded(world, ms[0], k);
      RunMovesAtMostOnce(Apply(world, ms[0]), ms[1..], k);
    }
  }

  /** Over every interleaving, whoever crashed, overran a lease or replayed on the way,
      and whatever others did to the transactions meanwhile: the statements of one
      consumer move its transaction at most once; and once the consumer is processed,
      its effects are in the events table exactly once and say whether they did. */
  lemma {:induction false} EffectsExactlyOnce(rows: seq<Rows.Row>, ms: seq<Move>, k: ConsumerKey)
    requires Feasible(World(EMPTY, Effects([], rows), map[]), ms)
    ensures var start := World(EMPTY, Effects([], rows), map[]);
      var world := Play(start, ms);
      && MovesIn(start, ms, k) <= 1
      && (k in world.db.consumers && world.db.consumers[k].status == Finished ==>
            exists i :: 0 <= i < |world.effects.events| && world.effects.events[i].key == k
              && (world.effects.events[i].moved <==> MovesIn(start, ms, k) == 1)
              && forall j | 0 <= j < |world.effects.events| && world.effects.events[j].key == k :: j == i)
  {
    var start := World(EMPTY, Effects([], rows), map[]);
    RunKeepsExactlyOnce(start, ms);
    RunMovesAtMostOnce(start, ms, k);
    var events := Play(start, ms).effects.events;
    if i: nat :| i < |events| && events[i].key == k {
      assert events[i].moved ==> events[i] == Effect(k, true);
    }
  }
}
