/** The job queue over the in-memory store. Each method is one atomic step; job
    ids and back-off delays, random in the source, are parameters. */
module JobQueue {
  import opened Wrappers
  import opened WorkerTypes
  import opened MemoryStore

  /** A `maxQueueDepth` of zero or less turns the depth check off. */
  datatype Config = Config(maxQueueDepth: int, jobTtlMs: nat)

  datatype EnqueueReply = Enqueued(job: Job) | Backpressure(depth: nat)

  /** Every job key holds the text of the job of that id. */
  ghost predicate JobsStored(c: Contents) {
    forall id | JobKey(id) in c.kv :: c.kv[JobKey(id)].value.JobText? && c.kv[JobKey(id)].value.job.id == id
  }

  function JobAt(c: Contents, id: JobId): Job
    requires JobsStored(c) && JobKey(id) in c.kv
  {
    c.kv[JobKey(id)].value.job
  }

  // ---------------------------------------------------------------- one step each

  function Depth(c: Contents, kind: JobType): nat {
    |ListAt(c.lines, ReadyKey(kind))| + |SetAt(c.lines, DelayedKey(kind))|
  }

  predicate Full(c: Contents, cfg: Config, kind: JobType) {
    0 < cfg.maxQueueDepth <= Depth(c, kind)
  }

  function Saved(c: Contents, cfg: Config, job: Job, now: int): Contents {
    Put(c, JobKey(job.id), JobText(job), Deadline(now, cfg.jobTtlMs))
  }

  function NewJob(id: JobId, kind: JobType, maxAttempts: nat, runAt: int, key: Option<string>, now: int): Job {
    Job(id, kind, 0, maxAttempts, Pending, now, runAt, key, 0)
  }

  function AfterEnqueue(c: Contents, cfg: Config, job: Job, now: int): Contents {
    var saved := Saved(c, cfg, job, now);
    saved.(lines :=
      if job.runAt > now then ScoredIn(c.lines, DelayedKey(job.kind), Scored(job.id, job.runAt))
      else Pushed(c.lines, ReadyKey(job.kind), job.id))
  }

  function Revived(job: Job, id: JobId, now: int): Job {
    job.(id := id, attempts := 0, status := Pending, updatedAt := now, runAt := now, deadRetries := job.deadRetries + 1)
  }

  function AfterReplay(c: Contents, cfg: Config, revived: Job, now: int): Contents {
    Saved(c, cfg, revived, now).(lines := Pushed(c.lines, ReadyKey(revived.kind), revived.id))
  }

  function MoveDue(l: Lines, kind: JobType, due: seq<JobId>): Lines
    decreases |due|
  {
    if due == [] then l
    else MoveDue(Pushed(ScoredOut(l, DelayedKey(kind), due[0]), ReadyKey(kind), due[0]), kind, due[1..])
  }

  function Due(l: Lines, kind: JobType, now: int): seq<JobId> { RangeByScore(SetAt(l, DelayedKey(kind)), 0, now) }

  function AfterPromote(l: Lines, kind: JobType, now: int): Lines { MoveDue(l, kind, Due(l, kind, now)) }

  function Started(job: Job, now: int): Job { job.(status := Processing, updatedAt := now) }

  /** The store once a dequeue has promoted what is due, if nothing was ready. */
  function BeforePop(c: Contents, kind: JobType, now: int): Contents {
    if ListAt(c.lines, ReadyKey(kind)) == [] then c.(lines := AfterPromote(c.lines, kind, now)) else c
  }

  function TakeFirst(c: Contents, cfg: Config, kind: JobType, now: int): (Contents, Option<Job>)
    requires JobsStored(c)
  {
    var list := ListAt(c.lines, ReadyKey(kind));
    if list == [] then (c, None)
    else
      var id := list[0];
      var popped := c.(lines := Popped(c.lines, ReadyKey(kind)));
      if !Live(popped, JobKey(id), now) then (Settled(popped, JobKey(id), now), None)
      else if JobAt(popped, id).status == Dead then (popped, None)
      else
        var job := Started(JobAt(popped, id), now);
        (Saved(popped, cfg, job, now), Some(job))
  }

  function AfterDequeue(c: Contents, cfg: Config, kind: JobType, now: int): (Contents, Option<Job>)
    requires JobsStored(c)
  {
    TakeFirst(BeforePop(c, kind, now), cfg, kind, now)
  }

  function Finished(job: Job, now: int): Job { job.(status := Completed, updatedAt := now) }

  function Failed(job: Job, delay: nat, now: int): Job {
    if job.attempts + 1 >= job.maxAttempts
    then job.(attempts := job.attempts + 1, status := Dead, updatedAt := now)
    else job.(attempts := job.attempts + 1, status := Pending, updatedAt := now, runAt := now + delay)
  }

  function AfterFail(c: Contents, cfg: Config, failed: Job, now: int): Contents {
    var saved := Saved(c, cfg, failed, now);
    saved.(lines :=
      if failed.status == Dead then Pushed(c.lines, DeadKey(failed.kind), failed.id)
      else ScoredIn(c.lines, DelayedKey(failed.kind), Scored(failed.id, failed.runAt)))
  }

  function Buried(job: Job, now: int): Job { job.(status := Dead, updatedAt := now) }

  predicate Stuck(job: Job, now: int, threshold: int) {
    job.status == Processing && threshold <= now - job.updatedAt
  }

  function Rescued(job: Job, now: int): Job { job.(status := Pending, runAt := now, updatedAt := now) }

  function RescueOne(c: Contents, cfg: Config, id: JobId, now: int, threshold: int): Contents
    requires JobsStored(c)
  {
    if !Live(c, JobKey(id), now) then Settled(c, JobKey(id), now)
    else
      var job := JobAt(c, id);
      if !Stuck(job, now, threshold) then c
      else Saved(c, cfg, Rescued(job, now), now).(lines := Pushed(c.lines, ReadyKey(job.kind), id))
  }

  function AfterRescue(c: Contents, cfg: Config, keys: seq<Key>, now: int, threshold: int): (r: Contents)
    requires JobsStored(c) && forall k | k in keys :: k.JobKey?
    ensures JobsStored(r)
    decreases |keys|
  {
    if keys == [] then c
    else AfterRescue(RescueOne(c, cfg, keys[0].id, now, threshold), cfg, keys[1..], now, threshold)
  }

  /** How many jobs that freed. */
  function RescueCount(c: Contents, cfg: Config, keys: seq<Key>, now: int, threshold: int): nat
    requires JobsStored(c) && forall k | k in keys :: k.JobKey?
    decreases |keys|
  {
    if keys == [] then 0
    else
      (if Live(c, keys[0], now) && Stuck(JobAt(c, keys[0].id), now, threshold) then 1 else 0)
      + RescueCount(RescueOne(c, cfg, keys[0].id, now, threshold), cfg, keys[1..], now, threshold)
  }

  // ---------------------------------------------------------------- what a step changes, read off the store

  /** `id` went to the end of one list, and no other list or set changed. */
  ghost predicate Listed(l: Lines, m: Lines, key: Key, id: JobId) {
    && m.zsets == l.zsets
    && ListAt(m, key) == ListAt(l, key) + [id]
    && forall k | k != key :: ListAt(m, k) == ListAt(l, k)
  }

  /** `id` waits in one set until `due`, and nothing else moved. */
  ghost predicate WaitsIn(l: Lines, m: Lines, key: Key, id: JobId, due: int) {
    && m.lists == l.lists
    && Scored(id, due) in SetAt(m, key)
    && (forall x: Scored | x.member != id :: x in SetAt(m, key) <==> x in SetAt(l, key))
    && forall k | k != key :: SetAt(m, k) == SetAt(l, k)
  }

  /** The text of one job was written, to last as long as the store keeps jobs. */
  ghost predicate Written(c: Contents, d: Contents, cfg: Config, job: Job, now: int) {
    && d.kv.Keys == c.kv.Keys + {JobKey(job.id)}
    && d.kv[JobKey(job.id)] == Entry(JobText(job), if cfg.jobTtlMs == 0 then None else Some(now + cfg.jobTtlMs))
    && forall k | k in c.kv && k != JobKey(job.id) :: d.kv[k] == c.kv[k]
  }

  /** A job whose time has come is ready, behind those that were; another one waits. */
  ghost predicate Accepted(c: Contents, d: Contents, cfg: Config, job: Job, now: int) {
    && Written(c, d, cfg, job, now)
    && (job.runAt <= now ==> Listed(c.lines, d.lines, ReadyKey(job.kind), job.id))
    && (job.runAt > now ==> WaitsIn(c.lines, d.lines, DelayedKey(job.kind), job.id, job.runAt))
  }

  /** A dead job is listed as dead; another one waits for its next attempt. */
  ghost predicate LetGo(c: Contents, d: Contents, cfg: Config, job: Job, now: int) {
    && Written(c, d, cfg, job, now)
    && (job.status == Dead ==> Listed(c.lines, d.lines, DeadKey(job.kind), job.id))
    && (job.status != Dead ==> WaitsIn(c.lines, d.lines, DelayedKey(job.kind), job.id, job.runAt))
  }

  lemma SavedIsWritten(c: Contents, cfg: Config, job: Job, now: int, l: Lines)
    ensures Written(c, Saved(c, cfg, job, now).(lines := l), cfg, job, now)
  {
  }

  lemma PushedIsListed(l: Lines, key: Key, id: JobId)
    ensures Listed(l, Pushed(l, key, id), key, id)
  {
  }

  lemma ScoredInWaits(l: Lines, key: Key, id: JobId, due: int)
    ensures WaitsIn(l, ScoredIn(l, key, Scored(id, due)), key, id, due)
  {
    var z, m := SetAt(l, key), ScoredIn(l, key, Scored(id, due));
    RescoredOnly(z, Scored(id, due));
    assert SetAt(m, key) == Rescored(z, Scored(id, due));
    assert forall k | k != key :: SetAt(m, k) == SetAt(l, k);
  }

  lemma {:induction false} RescoredOnly(z: seq<Scored>, x: Scored)
    ensures x in Rescored(z, x)
    ensures forall y: Scored | y.member != x.member :: y in Rescored(z, x) <==> y in z
  {
  }

  lemma EnqueueMoves(c: Contents, cfg: Config, job: Job, now: int)
    ensures var l := AfterEnqueue(c, cfg, job, now).lines;
      if job.runAt > now then WaitsIn(c.lines, l, DelayedKey(job.kind), job.id, job.runAt)
      else Listed(c.lines, l, ReadyKey(job.kind), job.id)
  {
    PushedIsListed(c.lines, ReadyKey(job.kind), job.id);
    ScoredInWaits(c.lines, DelayedKey(job.kind), job.id, job.runAt);
  }

  lemma EnqueueAccepts(c: Contents, cfg: Config, job: Job, now: int)
    ensures Accepted(c, AfterEnqueue(c, cfg, job, now), cfg, job, now)
  {
    SavedIsWritten(c, cfg, job, now, AfterEnqueue(c, cfg, job, now).lines);
    EnqueueMoves(c, cfg, job, now);
  }

  lemma FailureMoves(c: Contents, cfg: Config, failed: Job, now: int)
    ensures var l := AfterFail(c, cfg, failed, now).lines;
      if failed.status == Dead then Listed(c.lines, l, DeadKey(failed.kind), failed.id)
      else WaitsIn(c.lines, l, DelayedKey(failed.kind), failed.id, failed.runAt)
  {
    PushedIsListed(c.lines, DeadKey(failed.kind), failed.id);
    ScoredInWaits(c.lines, DelayedKey(failed.kind), failed.id, failed.runAt);
  }

  lemma FailureLetsGo(c: Contents, cfg: Config, failed: Job, now: int)
    ensures LetGo(c, AfterFail(c, cfg, failed, now), cfg, failed, now)
  {
    SavedIsWritten(c, cfg, failed, now, AfterFail(c, cfg, failed, now).lines);
    FailureMoves(c, cfg, failed, now);
  }

  /** The job at the head of the ready list is gone from it, and a worker has it
      unless its text expired or says that it is dead. */
  ghost predicate TookFirst(c: Contents, d: Contents, cfg: Config, kind: JobType, now: int, job: Option<Job>)
    requires JobsStored(c)
  {
    var list := ListAt(c.lines, ReadyKey(kind));
    && d.lines.zsets == c.lines.zsets
    && (forall k | k != ReadyKey(kind) :: ListAt(d.lines, k) == ListAt(c.lines, k))
    && if list == [] then job == None && d.lines == c.lines
       else
         var key := JobKey(list[0]);
         && ListAt(d.lines, ReadyKey(kind)) == list[1..]
         && (job == None <==>
             key !in c.kv || (c.kv[key].expiresAt.Some? && c.kv[key].expiresAt.value < now) ||
             c.kv[key].value.job.status == Dead)
         && (job.Some? ==>
             && job.value == c.kv[key].value.job.(status := Processing, updatedAt := now)
             && Written(c, d, cfg, job.value, now))
  }

  // ---------------------------------------------------------------- the queue

  class Queue {
    const store: Store
    const cfg: Config

    constructor (store: Store, cfg: Config)
      ensures this.store == store && this.cfg == cfg
    {
      this.store, this.cfg := store, cfg;
    }

    /** `runAt` is the caller's, or now plus the caller's delay, or now. */
    method Enqueue(id: JobId, kind: JobType, maxAttempts: nat, runAt: int, key: Option<string>, now: int)
        returns (reply: EnqueueReply)
      modifies store
      ensures var c, job := old(store.View()), NewJob(id, kind, maxAttempts, runAt, key, now);
        if Full(c, cfg, kind) then reply == Backpressure(Depth(c, kind)) && store.View() == c
        else reply == Enqueued(job) && store.View() == AfterEnqueue(c, cfg, job, now)
      ensures var c := old(store.View());
        var depth := |ListAt(c.lines, ReadyKey(kind))| + |SetAt(c.lines, DelayedKey(kind))|;
        reply.Backpressure? <==> cfg.maxQueueDepth > 0 && depth >= cfg.maxQueueDepth
      ensures var c, d := old(store.View()), store.View();
        reply.Enqueued? ==>
          && reply.job == Job(id, kind, 0, maxAttempts, Pending, now, runAt, key, 0)
          && Accepted(c, d, cfg, reply.job, now)
    {
      EnqueueAccepts(store.View(), cfg, NewJob(id, kind, maxAttempts, runAt, key, now), now);
      if cfg.maxQueueDepth > 0 {
        var ready := store.LLen(ReadyKey(kind));
        var delayed := store.ZCard(DelayedKey(kind));
        if ready + delayed >= cfg.maxQueueDepth { return Backpressure(ready + delayed); }
      }
      var job := Job(id, kind, 0, maxAttempts, Pending, now, runAt, key, 0);
      store.Set(JobKey(id), JobText(job), cfg.jobTtlMs, now);
      if runAt > now {
        store.ZAdd(DelayedKey(kind), runAt, id);
      } else {
        var _ := store.RPush(ReadyKey(kind), id);
      }
      return Enqueued(job);
    }

    method EnqueueDead(job: Job, id: JobId, now: int) returns (revived: Job)
      modifies store
      ensures revived == Revived(job, id, now)
      ensures store.View() == AfterReplay(old(store.View()), cfg, revived, now)
      ensures revived == Job(
        id, job.kind, 0, job.maxAttempts, Pending, now, now, job.idempotencyKey, job.deadRetries + 1)
      ensures Written(old(store.View()), store.View(), cfg, revived, now)
      ensures Listed(old(store.View()).lines, store.View().lines, ReadyKey(job.kind), id)
    {
      revived := job.(id := id, attempts := 0, status := Pending, updatedAt := now, runAt := now,
                    deadRetries := job.deadRetries + 1);
      store.Set(JobKey(id), JobText(revived), cfg.jobTtlMs, now);
      var _ := store.RPush(ReadyKey(revived.kind), id);
    }

    method PromoteDelayed(kind: JobType, now: int)
      modifies store
      ensures store.View() == old(store.View()).(lines := AfterPromote(old(store.View()).lines, kind, now))
    {
      var due := store.ZRangeByScore(DelayedKey(kind), 0, now);
      var i := 0;
      while i < |due|
        invariant 0 <= i <= |due|
        invariant store.kv == old(store.kv) && store.order == old(store.order)
        invariant MoveDue(store.View().lines, kind, due[i..]) == MoveDue(old(store.View()).lines, kind, due)
      {
        assert due[i..][1..] == due[i + 1..];
        store.ZRem(DelayedKey(kind), due[i]);
        var _ := store.RPush(ReadyKey(kind), due[i]);
        i := i + 1;
      }
    }

    method Dequeue(kind: JobType, now: int) returns (job: Option<Job>)
      requires JobsStored(store.View())
      modifies store
      ensures (store.View(), job) == AfterDequeue(old(store.View()), cfg, kind, now)
      ensures JobsStored(store.View())
    {
      ghost var c := store.View();
      var ready := store.LLen(ReadyKey(kind));
      if ready == 0 { PromoteDelayed(kind, now); }
      assert store.View() == BeforePop(c, kind, now);
      job := PopReady(kind, now);
    }

    /** The rest of a dequeue, once anything due has been promoted. */
    method PopReady(kind: JobType, now: int) returns (job: Option<Job>)
      requires JobsStored(store.View())
      modifies store
      ensures (store.View(), job) == TakeFirst(old(store.View()), cfg, kind, now)
      ensures JobsStored(store.View())
      ensures TookFirst(old(store.View()), store.View(), cfg, kind, now, job)
    {
      var id := store.LPop(ReadyKey(kind));
      if id == None { return None; }
      ghost var popped := store.View();
      var raw := store.Get(JobKey(id.value), now);
      if raw == None { return None; }
      assert store.View() == popped;
      var stored := raw.value.job;
      if stored.status == Dead { return None; }
      var started := stored.(status := Processing, updatedAt := now);
      store.Set(JobKey(id.value), JobText(started), cfg.jobTtlMs, now);
      return Some(started);
    }

    method Complete(job: Job, now: int) returns (done: Job)
      modifies store
      ensures done == Finished(job, now)
      ensures store.View() == Saved(old(store.View()), cfg, done, now)
      ensures done == job.(status := Completed, updatedAt := now)
      ensures Written(old(store.View()), store.View(), cfg, done, now)
      ensures store.View().lines == old(store.View()).lines
    {
      done := job.(status := Completed, updatedAt := now);
      store.Set(JobKey(job.id), JobText(done), cfg.jobTtlMs, now);
    }

    method Fail(job: Job, delay: nat, now: int) returns (failed: Job)
      modifies store
      ensures failed == Failed(job, delay, now)
      ensures store.View() == AfterFail(old(store.View()), cfg, failed, now)
      ensures failed.attempts == job.attempts + 1 && failed.updatedAt == now
      ensures failed ==
        job.(attempts := failed.attempts, status := failed.status, updatedAt := now, runAt := failed.runAt)
      ensures failed.status == Dead <==> job.attempts + 1 >= job.maxAttempts
      ensures failed.status != Dead ==> failed.status == Pending && failed.runAt == now + delay
      ensures LetGo(old(store.View()), store.View(), cfg, failed, now)
    {
      FailureLetsGo(store.View(), cfg, Failed(job, delay, now), now);
      failed := job.(attempts := job.attempts + 1, updatedAt := now);
      if failed.attempts >= failed.maxAttempts {
        failed := failed.(status := Dead);
        store.Set(JobKey(job.id), JobText(failed), cfg.jobTtlMs, now);
        var _ := store.RPush(DeadKey(job.kind), job.id);
        return;
      }
      failed := failed.(status := Pending, runAt := now + delay);
      store.Set(JobKey(job.id), JobText(failed), cfg.jobTtlMs, now);
      store.ZAdd(DelayedKey(job.kind), failed.runAt, job.id);
    }

    method DeadLetter(job: Job, now: int) returns (dead: Job)
      modifies store
      ensures dead == Buried(job, now)
      ensures store.View() == AfterFail(old(store.View()), cfg, dead, now)
      ensures dead == job.(status := Dead, updatedAt := now)
      ensures LetGo(old(store.View()), store.View(), cfg, dead, now)
    {
      FailureLetsGo(store.View(), cfg, Buried(job, now), now);
      dead := job.(status := Dead, updatedAt := now);
      store.Set(JobKey(job.id), JobText(dead), cfg.jobTtlMs, now);
      var _ := store.RPush(DeadKey(job.kind), job.id);
    }

    method RemoveDead(kind: JobType, id: JobId)
      modifies store
      ensures store.View() == old(store.View()).(lines := Removed(old(store.View()).lines, DeadKey(kind), id))
      ensures forall x :: x in ListAt(store.View().lines, DeadKey(kind)) <==>
        x in ListAt(old(store.View()).lines, DeadKey(kind)) && x != id
    {
      var _ := store.LRem(DeadKey(kind), id);
    }

    method RescueStuckJobs(threshold: int, now: int) returns (rescued: nat)
      requires JobsStored(store.View())
      modifies store
      ensures store.View() == AfterRescue(old(store.View()), cfg, OnlyJobs(old(store.order)), now, threshold)
      ensures rescued == RescueCount(old(store.View()), cfg, OnlyJobs(old(store.order)), now, threshold)
      ensures JobsStored(store.View())
    {
      var keys := store.JobKeys();
      rescued := 0;
      var i := 0;
      while i < |keys|
        invariant 0 <= i <= |keys|
        invariant JobsStored(store.View())
        invariant AfterRescue(store.View(), cfg, keys[i..], now, threshold) ==
          AfterRescue(old(store.View()), cfg, keys, now, threshold)
        invariant rescued + RescueCount(store.View(), cfg, keys[i..], now, threshold) ==
          RescueCount(old(store.View()), cfg, keys, now, threshold)
      {
        ghost var before := store.View();
        assert keys[i..][0] == keys[i] && keys[i..][1..] == keys[i + 1..];
        var key := keys[i];
        assert key == JobKey(key.id);
        i := i + 1;
        var raw := store.Get(key, now);
        if raw == None { continue; }
        assert store.View() == before;
        var job := raw.value.job;
        if job.status != Processing { continue; }
        if now - job.updatedAt < threshold { continue; }
        var freed := job.(status := Pending, runAt := now, updatedAt := now);
        store.Set(key, JobText(freed), cfg.jobTtlMs, now);
        var _ := store.RPush(ReadyKey(job.kind), job.id);
        rescued := rescued + 1;
      }
    }
  }
}
