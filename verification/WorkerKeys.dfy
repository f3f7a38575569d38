/** Worker idempotency keys: the claim protocol over the store, the worker's handling
    of one job, and what interleaved workers can and cannot do with one key. */
module WorkerKeys {
  import opened Wrappers
  import opened WorkerTypes
  import opened MemoryStore
  import Q = JobQueue

  datatype ClaimReply = New | Known(status: ClaimStatus)

  /** A live claim record: the status its text holds. */
  function ClaimAt(c: Contents, name: string, now: int): Option<ClaimStatus> {
    var key := IdempotencyKey(name);
    if Live(c, key, now) && c.kv[key].value.ClaimText? then Some(c.kv[key].value.claim) else None
  }

  ghost predicate ClaimsStored(c: Contents) {
    forall name | IdempotencyKey(name) in c.kv :: c.kv[IdempotencyKey(name)].value.ClaimText?
  }

  function WithClaim(c: Contents, name: string, status: ClaimStatus, ttlMs: int, now: int): Contents {
    Put(c, IdempotencyKey(name), ClaimText(status), Deadline(now, ttlMs))
  }

  class IdempotencyStore {
    const store: Store
    const ttlMs: nat

    constructor (store: Store, ttlMs: nat)
      ensures this.store == store && this.ttlMs == ttlMs
    {
      this.store, this.ttlMs := store, ttlMs;
    }

    /** Nothing runs between its store calls here; the machine below lets it. */
    method Claim(name: string, now: int) returns (reply: ClaimReply)
      requires ClaimsStored(store.View())
      modifies store
      ensures var c := old(store.View());
        match ClaimAt(c, name, now)
        case Some(status) => reply == Known(status) && store.View() == c
        case None =>
          && reply == New
          && store.View() == WithClaim(Settled(c, IdempotencyKey(name), now), name, ClaimProcessing, ttlMs, now)
    {
      var existing := store.Get(IdempotencyKey(name), now);
      if existing.Some? { return Known(existing.value.claim); }
      var claimed := store.SetNx(IdempotencyKey(name), ClaimText(ClaimProcessing), ttlMs, now);
      assert claimed;
      return New;
    }

    method Complete(name: string, now: int)
      modifies store
      ensures store.View() == WithClaim(old(store.View()), name, ClaimCompleted, ttlMs, now)
    {
      store.Set(IdempotencyKey(name), ClaimText(ClaimCompleted), ttlMs, now);
    }

    method Fail(name: string, now: int)
      modifies store
      ensures store.View() == WithClaim(old(store.View()), name, ClaimFailed, ttlMs, now)
    {
      store.Set(IdempotencyKey(name), ClaimText(ClaimFailed), ttlMs, now);
    }

    method Release(name: string)
      modifies store
      ensures store.View() == Drop(old(store.View()), IdempotencyKey(name))
    {
      store.Del(IdempotencyKey(name));
    }
  }

  // ---------------------------------------------------------------- one job, start to finish

  /** A job runs if a processor is registered and its key, if any, is not taken. */
  predicate Runs(c: Contents, job: Job, registered: bool, now: int) {
    && registered
    && (job.idempotencyKey.Some? ==>
        ClaimAt(c, job.idempotencyKey.value, now) !in {Some(ClaimProcessing), Some(ClaimCompleted)})
  }

  /** The store once the key, if any, is claimed; a 'failed' record is left as it is. */
  function Claimed(c: Contents, key: Option<string>, ttlMs: nat, now: int): Contents {
    if key == None || ClaimAt(c, key.value, now).Some? then c
    else WithClaim(Settled(c, IdempotencyKey(key.value), now), key.value, ClaimProcessing, ttlMs, now)
  }

  function AfterProcess(
      c: Contents, cfg: Q.Config, ttlMs: nat, job: Job, registered: bool, ok: bool, delay: nat, now: int): Contents
  {
    var key := job.idempotencyKey;
    if !registered then Q.AfterFail(c, cfg, Q.Buried(job, now), now)
    else if !Runs(c, job, registered, now) then Q.Saved(c, cfg, Q.Finished(job, now), now)
    else
      var d := Claimed(c, key, ttlMs, now);
      if ok then
        var e := if key.Some? then WithClaim(d, key.value, ClaimCompleted, ttlMs, now) else d;
        Q.Saved(e, cfg, Q.Finished(job, now), now)
      else
        Q.AfterFail(if key.Some? then Drop(d, IdempotencyKey(key.value)) else d, cfg, Q.Failed(job, delay, now), now)
  }

  /** The worker's handling of one dequeued job, no other worker in between; `ok` is
      how its processor ends. */
  method ProcessJob(queue: Q.Queue, keys: IdempotencyStore, job: Job, registered: bool, ok: bool, delay: nat, now: int)
      returns (ran: bool)
    requires queue.store == keys.store && ClaimsStored(queue.store.View())
    modifies queue.store
    ensures ran == Runs(old(queue.store.View()), job, registered, now)
    ensures queue.store.View() ==
      AfterProcess(old(queue.store.View()), queue.cfg, keys.ttlMs, job, registered, ok, delay, now)
  {
    if !registered {
      var _ := queue.DeadLetter(job, now);
      return false;
    }
    if job.idempotencyKey.Some? {
      var reply := keys.Claim(job.idempotencyKey.value, now);
      if reply.Known? && reply.status != ClaimFailed {
        var _ := queue.Complete(job, now);
        return false;
      }
    }
    if ok {
      if job.idempotencyKey.Some? { keys.Complete(job.idempotencyKey.value, now); }
      var _ := queue.Complete(job, now);
    } else {
      if job.idempotencyKey.Some? { keys.Release(job.idempotencyKey.value); }
      var _ := queue.Fail(job, delay, now);
    }
    return true;
  }

  /** No live record, or one that says 'failed'. */
  predicate KeyIsFree(c: Contents, name: string, now: int) {
    var key := IdempotencyKey(name);
    key in c.kv && c.kv[key].value.ClaimText? && (c.kv[key].expiresAt.Some? ==> now <= c.kv[key].expiresAt.value) ==>
      c.kv[key].value.claim == ClaimFailed
  }

  /** A job nobody can process goes to the dead list; one whose key is taken counts as
      completed without being run; one that ran is completed or counts one more attempt. */
  lemma JobAfterwards(
      c: Contents, cfg: Q.Config, ttlMs: nat, job: Job, registered: bool, ok: bool, delay: nat, now: int)
    ensures var d := AfterProcess(c, cfg, ttlMs, job, registered, ok, delay, now);
      var ran := registered && (job.idempotencyKey.Some? ==> KeyIsFree(c, job.idempotencyKey.value, now));
      && ran == Runs(c, job, registered, now)
      && JobKey(job.id) in d.kv && d.kv[JobKey(job.id)].value.JobText?
      && var after := d.kv[JobKey(job.id)].value.job;
         && after.attempts == job.attempts + One(ran && !ok)
         && after == job.(attempts := after.attempts, status := after.status, updatedAt := now, runAt := after.runAt)
         && (after.status == Completed <==> registered && (!ran || ok))
         && (after.status == Dead <==> !registered || (ran && !ok && job.attempts + 1 >= job.maxAttempts))
         && (after.status == Pending ==> after.runAt == now + delay)
  {
  }

  /** And it is listed where that status belongs. */
  lemma PlaceAfterwards(
      c: Contents, cfg: Q.Config, ttlMs: nat, job: Job, registered: bool, ok: bool, delay: nat, now: int)
    ensures var d := AfterProcess(c, cfg, ttlMs, job, registered, ok, delay, now);
      var ran := Runs(c, job, registered, now);
      && (registered && (!ran || ok) ==> d.lines == c.lines)
      && (!registered || (ran && !ok && job.attempts + 1 >= job.maxAttempts) ==>
            Q.Listed(c.lines, d.lines, DeadKey(job.kind), job.id))
      && (ran && !ok && job.attempts + 1 < job.maxAttempts ==>
            Q.WaitsIn(c.lines, d.lines, DelayedKey(job.kind), job.id, now + delay))
  {
    Q.FailureMoves(c, cfg, Q.Buried(job, now), now);
    var held := Claimed(c, job.idempotencyKey, ttlMs, now);
    var freed := if job.idempotencyKey.Some? then Drop(held, IdempotencyKey(job.idempotencyKey.value)) else held;
    Q.FailureMoves(freed, cfg, Q.Failed(job, delay, now), now);
  }

  /** Its key is completed after a run that ended well, free after one that failed, and
      untouched if nothing ran. */
  lemma KeyAfterwards(
      c: Contents, cfg: Q.Config, ttlMs: nat, job: Job, registered: bool, ok: bool, delay: nat, now: int)
    requires job.idempotencyKey.Some?
    ensures var d, key := AfterProcess(c, cfg, ttlMs, job, registered, ok, delay, now), job.idempotencyKey.value;
      if !Runs(c, job, registered, now) then ClaimAt(d, key, now) == ClaimAt(c, key, now)
      else ClaimAt(d, key, now) == if ok then Some(ClaimCompleted) else None
    ensures forall name | name != job.idempotencyKey.value ::
      ClaimAt(AfterProcess(c, cfg, ttlMs, job, registered, ok, delay, now), name, now) == ClaimAt(c, name, now)
  {
  }

  /** After a run, a later delivery of the same key runs exactly when the run failed
      or the key's record has expired. */
  lemma LaterDeliveryRuns(
      c: Contents, cfg: Q.Config, ttlMs: nat, job: Job, ok: bool, delay: nat, now: int, later: Job, thenAt: int)
    requires job.idempotencyKey.Some? && later.idempotencyKey == job.idempotencyKey
    requires Runs(c, job, true, now) && now <= thenAt
    ensures Runs(AfterProcess(c, cfg, ttlMs, job, true, ok, delay, now), later, true, thenAt) <==>
      !ok || (ttlMs > 0 && now + ttlMs < thenAt)
  {
  }

  // ---------------------------------------------------------------- interleaved workers

  /** Where a worker is with a job of the key: before the first read, between the
      read and the set, after losing the set, in the processor, about to record
      completion, about to complete the job, in the error handler (`ran`: the
      processor had succeeded), or done with it. */
  datatype Pc = Fetched | Setting | Rereading | Running | Recording | Settling | Handling(ran: bool) | Done

  type Worker = nat

  /** The record of one key, what each worker is doing with it, and how many runs
      of a processor for the key have succeeded. */
  datatype World = World(record: Option<ClaimStatus>, workers: map<Worker, Pc>, successes: nat)

  /** `written` says whether a store call took effect, `threw` whether it failed. */
  datatype Move =
    | Fetch(a: Worker)
    | Read(a: Worker)
    | SetNx(a: Worker)
    | Reread(a: Worker)
    | RunEnds(a: Worker, ok: bool)
    | RecordCompleted(a: Worker, written: bool, threw: bool)
    | CompleteJob(a: Worker, threw: bool)
    | Release(a: Worker, written: bool)
    | Crash(a: Worker)

  predicate At(w: World, a: Worker, pc: Pc) { a in w.workers && w.workers[a] == pc }

  predicate Enabled(w: World, m: Move) {
    match m
    case Fetch(a) => a in w.workers ==> w.workers[a] == Done
    case Read(a) => At(w, a, Fetched)
    case SetNx(a) => At(w, a, Setting)
    case Reread(a) => At(w, a, Rereading)
    case RunEnds(a, _) => At(w, a, Running)
    case RecordCompleted(a, written, threw) => At(w, a, Recording) && (written || threw)
    case CompleteJob(a, _) => At(w, a, Settling)
    case Release(a, _) => a in w.workers && w.workers[a].Handling?
    case Crash(a) => a in w.workers
  }

  /** What a worker does with a status it has read: only 'failed' lets it run. */
  function OnStatus(status: ClaimStatus): Pc { if status == ClaimFailed then Running else Done }

  function Apply(w: World, m: Move): World
    requires Enabled(w, m)
  {
    match m
    case Fetch(a) => w.(workers := w.workers[a := Fetched])
    case Read(a) => w.(workers := w.workers[a := if w.record == None then Setting else OnStatus(w.record.value)])
    case SetNx(a) =>
      if w.record == None then w.(record := Some(ClaimProcessing), workers := w.workers[a := Running])
      else w.(workers := w.workers[a := Rereading])
    case Reread(a) => w.(workers := w.workers[a := if w.record == None then Done else OnStatus(w.record.value)])
    case RunEnds(a, ok) =>
      w.(workers := w.workers[a := if ok then Recording else Handling(false)], successes := w.successes + One(ok))
    case RecordCompleted(a, written, threw) =>
      w.(record := if written then Some(ClaimCompleted) else w.record,
         workers := w.workers[a := if threw then Handling(true) else Settling])
    case CompleteJob(a, threw) => w.(workers := w.workers[a := if threw then Handling(true) else Done])
    case Release(a, written) => w.(record := if written then None else w.record, workers := w.workers[a := Done])
    case Crash(a) => w.(workers := w.workers - {a})
  }

  /** Between winning the key and being done with it. */
  predicate Inside(pc: Pc) { pc.Running? || pc.Recording? || pc.Settling? || pc.Handling? }

  /** At most one worker is inside; while one is, the key is taken; and until its
      processor has succeeded, the record says 'processing'. */
  ghost predicate Exclusive(w: World) {
    && w.record != Some(ClaimFailed)
    && (forall a, b | a in w.workers && b in w.workers && Inside(w.workers[a]) && Inside(w.workers[b]) :: a == b)
    && (forall a | a in w.workers && Inside(w.workers[a]) :: w.record != None)
  }

  ghost predicate RunsOnce(w: World) {
    && Exclusive(w)
    && w.successes <= 1
    && (w.successes == 1 ==> w.record != None && forall a | a in w.workers ::
        w.workers[a] !in {Running, Handling(false)})
    && (forall a | a in w.workers && w.workers[a] in {Recording, Settling, Handling(true)} :: w.successes == 1)
  }

  lemma MoveKeepsExclusive(w: World, m: Move)
    requires Exclusive(w) && Enabled(w, m)
    ensures Exclusive(Apply(w, m))
  {
  }

  /** The error handler of a run that had succeeded gives the key back. */
  predicate ReleasesSuccess(w: World, m: Move)
    requires Enabled(w, m)
  {
    m.Release? && m.written && w.workers[m.a] == Handling(true)
  }

  /** A move keeps at most one success per key exactly when it is not the error
      handler releasing a key whose processor had already succeeded. */
  lemma RunsOnceUnlessSuccessReleased(w: World, m: Move)
    requires RunsOnce(w) && Enabled(w, m)
    ensures RunsOnce(Apply(w, m)) <==> !ReleasesSuccess(w, m)
  {
    MoveKeepsExclusive(w, m);
    if ReleasesSuccess(w, m) {
      assert w.successes == 1;
    }
  }

  // ---------------------------------------------------------------- whole runs

  ghost predicate Feasible(w: World, moves: seq<Move>)
    decreases |moves|
  {
    moves == [] || (Enabled(w, moves[0]) && Feasible(Apply(w, moves[0]), moves[1..]))
  }

  function After(w: World, moves: seq<Move>): World
    requires Feasible(w, moves)
    decreases |moves|
  {
    if moves == [] then w else After(Apply(w, moves[0]), moves[1..])
  }

  /** A key nobody has claimed. */
  const UNCLAIMED := World(None, map[], 0)

  /** Over every run, with store calls failing at any point and workers crashing, at
      most one worker is in the processor at any moment. */
  lemma {:induction false} OneRunnerAtATime(w: World, moves: seq<Move>, a: Worker, b: Worker)
    requires Exclusive(w) && Feasible(w, moves)
    ensures Exclusive(After(w, moves))
    ensures At(After(w, moves), a, Running) && At(After(w, moves), b, Running) ==> a == b
    decreases |moves|
  {
    if moves != [] {
      MoveKeepsExclusive(w, moves[0]);
      OneRunnerAtATime(Apply(w, moves[0]), moves[1..], a, b);
    }
  }

  /** Some move of the run gives the key of a successful run back. */
  ghost predicate SomeReleases(w: World, moves: seq<Move>)
    requires Feasible(w, moves)
    decreases |moves|
  {
    moves != [] && (ReleasesSuccess(w, moves[0]) || SomeReleases(Apply(w, moves[0]), moves[1..]))
  }

  /** However store calls fail otherwise, and whoever crashes: without such a move at
      most one run per key succeeds. */
  lemma {:induction false} OneSuccessPerKey(w: World, moves: seq<Move>)
    requires RunsOnce(w) && Feasible(w, moves) && !SomeReleases(w, moves)
    ensures RunsOnce(After(w, moves)) && After(w, moves).successes <= 1
    decreases |moves|
  {
    if moves != [] {
      RunsOnceUnlessSuccessReleased(w, moves[0]);
      OneSuccessPerKey(Apply(w, moves[0]), moves[1..]);
    }
  }

  /** Deliveries that release no success can bring the key to two successful runs. */
  ghost predicate CanSucceedTwice(w: World) {
    exists moves :: Feasible(w, moves) && !SomeReleases(w, moves) && After(w, moves).successes >= 2
  }

  /** At some moment of the run, its end included. */
  ghost predicate EverTwice(w: World, moves: seq<Move>)
    requires Feasible(w, moves)
    decreases |moves|
  {
    CanSucceedTwice(w) || (moves != [] && EverTwice(Apply(w, moves[0]), moves[1..]))
  }

  lemma ReleasedSucceedsTwice(w: World, m: Move)
    requires RunsOnce(w) && Enabled(w, m) && ReleasesSuccess(w, m)
    ensures CanSucceedTwice(Apply(w, m))
  {
    var v := Apply(w, m);
    var v1 := Apply(v, Fetch(m.a));
    var v2 := Apply(v1, Read(m.a));
    var v3 := Apply(v2, SetNx(m.a));
    OneMoveFirst(v3, RunEnds(m.a, true), []);
    assert [RunEnds(m.a, true)] + [] == [RunEnds(m.a, true)];
    OneMoveFirst(v2, SetNx(m.a), [RunEnds(m.a, true)]);
    OneMoveFirst(v1, Read(m.a), [SetNx(m.a)] + [RunEnds(m.a, true)]);
    OneMoveFirst(v, Fetch(m.a), [Read(m.a)] + ([SetNx(m.a)] + [RunEnds(m.a, true)]));
  }

  lemma {:induction false} OneMoveFirst(w: World, m: Move, moves: seq<Move>)
    requires Enabled(w, m) && !ReleasesSuccess(w, m)
    requires Feasible(Apply(w, m), moves) && !SomeReleases(Apply(w, m), moves)
    ensures Feasible(w, [m] + moves) && !SomeReleases(w, [m] + moves)
    ensures After(w, [m] + moves) == After(Apply(w, m), moves)
  {
    assert ([m] + moves)[1..] == moves;
  }

  /** The promise about a key, over every run: at some moment a second run of its
      processor can succeed exactly when the error handler has released the key of one
      that had. */
  lemma {:induction false} SecondSuccessExactlyWhenReleased(w: World, moves: seq<Move>)
    requires RunsOnce(w) && Feasible(w, moves)
    ensures EverTwice(w, moves) <==> SomeReleases(w, moves)
    decreases |moves|
  {
    NeverTwiceYet(w);
    if moves != [] {
      RunsOnceUnlessSuccessReleased(w, moves[0]);
      if ReleasesSuccess(w, moves[0]) {
        ReleasedSucceedsTwice(w, moves[0]);
      } else {
        SecondSuccessExactlyWhenReleased(Apply(w, moves[0]), moves[1..]);
      }
    }
  }

  lemma NeverTwiceYet(w: World)
    requires RunsOnce(w)
    ensures !CanSucceedTwice(w)
  {
    forall moves | Feasible(w, moves) && !SomeReleases(w, moves) ensures After(w, moves).successes <= 1 {
      OneSuccessPerKey(w, moves);
    }
  }

  /** The first worker's job cannot be completed after its success was recorded: its
      error handler frees the key, and a second delivery of the job runs again. */
  lemma FailedCompletionRunsTwice()
    ensures var first := [Fetch(0), Read(0), SetNx(0), RunEnds(0, true), RecordCompleted(0, true, false),
                          CompleteJob(0, true), Release(0, true)];
      && Feasible(UNCLAIMED, first) && After(UNCLAIMED, first) == World(None, map[0 := Done], 1)
    ensures var second := [Fetch(1), Read(1), SetNx(1), RunEnds(1, true)];
      var w := World(None, map[0 := Done], 1);
      && Feasible(w, second) && After(w, second).successes == 2
  {
    var w1 := Apply(UNCLAIMED, Fetch(0));
    var w2 := Apply(Apply(w1, Read(0)), SetNx(0));
    var w3 := Apply(w2, RunEnds(0, true));
    var w4 := Apply(Apply(w3, RecordCompleted(0, true, false)), CompleteJob(0, true));
  }

  /** A fact of the interface only, since the worker settles a key by completing or
      releasing it: after `fail`, nobody claims the key again and two callers of `claim`
      may both run. */
  lemma FailedRecordAdmitsTwo()
    ensures var w := World(Some(ClaimFailed), map[], 0);
      var moves := [Fetch(0), Read(0), Fetch(1), Read(1)];
      Feasible(w, moves) && After(w, moves).workers == map[0 := Running, 1 := Running]
  {
  }
}
