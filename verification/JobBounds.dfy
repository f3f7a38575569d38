/** What runs of the queue keep beyond conservation: a bound on the outstanding
    work of each job type, and a bound on how often a job is started. */
module JobBounds {
  import opened Wrappers
  import opened WorkerTypes
  import opened Lists
  import opened MemoryStore
  import opened JobQueue
  import opened JobPlaces
  import opened JobConservation
  import opened JobRuns

  // ---------------------------------------------------------------- outstanding work

  predicate IsBusy(p: Place) { p == Held || p == Lost }

  /** The jobs of one type that a worker holds, or held when it died. */
  function Busy(f: Floor, kind: JobType): set<JobId> {
    set id | id in f.at && IsBusy(f.at[id]) && id in f.jobs && f.jobs[id].kind == kind
  }

  function LostJobs(f: Floor): set<JobId> { set id | id in f.at && f.at[id] == Lost }

  function Outstanding(w: World, kind: JobType): nat { Depth(w.c, kind) + |Busy(w.floor, kind)| }

  /** Workers hold at most one job each, and a job type has at most this much work:
      the configured depth, one job per worker, and what crashes and dead-letter
      replays, which no depth check guards, have added. */
  ghost predicate Bounded(w: World, cfg: Config, workers: nat) {
    && |w.floor.held.Keys| <= workers
    && |LostJobs(w.floor)| <= w.crashes
    && (cfg.maxQueueDepth > 0 ==>
        forall kind :: Outstanding(w, kind) <= cfg.maxQueueDepth + workers + w.crashes + w.replays)
  }

  lemma SetGrows(s: set<JobId>, id: JobId)
    ensures |s + {id}| == |s| + One(id !in s) && |s - {id}| == |s| - One(id in s)
  {
  }

  lemma BusyMovedSet(f: Floor, job: Job, p: Place, kind: JobType)
    requires f.at.Keys == f.jobs.Keys
    ensures var rest := Busy(f, kind) - {job.id};
      Busy(Moved(f, job, p), kind) == if IsBusy(p) && job.kind == kind then rest + {job.id} else rest
  {
  }

  lemma BusyMoved(f: Floor, job: Job, p: Place, kind: JobType)
    requires f.at.Keys == f.jobs.Keys
    ensures |Busy(Moved(f, job, p), kind)|
      == |Busy(f, kind)| - One(job.id in Busy(f, kind)) + One(IsBusy(p) && job.kind == kind)
  {
    BusyMovedSet(f, job, p, kind);
    SetGrows(Busy(f, kind), job.id);
    SetGrows(Busy(f, kind) - {job.id}, job.id);
  }

  lemma LostMovedSet(f: Floor, job: Job, p: Place)
    ensures var rest := LostJobs(f) - {job.id};
      LostJobs(Moved(f, job, p)) == if p == Lost then rest + {job.id} else rest
  {
  }

  lemma LostMoved(f: Floor, job: Job, p: Place)
    ensures |LostJobs(Moved(f, job, p))| == |LostJobs(f)| - One(job.id in LostJobs(f)) + One(p == Lost)
  {
    LostMovedSet(f, job, p);
    SetGrows(LostJobs(f), job.id);
    SetGrows(LostJobs(f) - {job.id}, job.id);
  }

  lemma FewBusy(f: Floor, kind: JobType)
    requires Tidy(f)
    ensures |Busy(f, kind)| <= |f.held.Keys| + |LostJobs(f)|
  {
    forall id | id in Busy(f, kind) ensures id in f.held.Keys + LostJobs(f) {
      assert id in f.held <==> IsAt(f, id, Held);
    }
    SubsetSize(Busy(f, kind), f.held.Keys + LostJobs(f));
    assert |f.held.Keys + LostJobs(f)| <= |f.held.Keys| + |LostJobs(f)|;
  }

  lemma SubsetSize(a: set<JobId>, b: set<JobId>)
    requires a <= b
    ensures |a| <= |b|
  {
    assert b == a + (b - a);
    assert |a + (b - a)| == |a| + |b - a|;
  }

  lemma PromotedBusy(f: Floor, kind: JobType, due: seq<JobId>)
    requires forall id | id in due && id in f.at :: !IsBusy(f.at[id])
    ensures forall k :: Busy(PromotedFloor(f, kind, due), k) == Busy(f, k)
    ensures LostJobs(PromotedFloor(f, kind, due)) == LostJobs(f)
  {
  }

  lemma DueIsDelayed(c: Contents, f: Floor, kind: JobType, now: int)
    requires KeptIn(c, f)
    ensures forall id | id in Due(c.lines, kind, now) && id in f.at :: !IsBusy(f.at[id])
  {
    var due := Due(c.lines, kind, now);
    forall id | id in due && id in f.at ensures !IsBusy(f.at[id]) {
      NotAMember(due, id);
      DueWithin(SetAt(c.lines, DelayedKey(kind)), now, id);
      CountsAt(c.lines, f, DelayedKey(kind), id);
    }
  }

  // how the depth of a type changes

  lemma PushedDepth(c: Contents, key: Key, id: JobId, kind: JobType)
    requires key.ReadyKey? || key.DeadKey?
    ensures Depth(c.(lines := Pushed(c.lines, key, id)), kind) == Depth(c, kind) + One(key == ReadyKey(kind))
  {
  }

  lemma DelayedDepth(c: Contents, x: Scored, k: JobType, kind: JobType)
    requires Occurrences(c.lines, DelayedKey(k), x.member) == 0
    ensures Depth(c.(lines := ScoredIn(c.lines, DelayedKey(k), x)), kind) == Depth(c, kind) + One(k == kind)
  {
    RescoredNew(SetAt(c.lines, DelayedKey(k)), x);
    assert |Members(SetAt(ScoredIn(c.lines, DelayedKey(k), x), DelayedKey(k)))| == |SetAt(c.lines, DelayedKey(k))| + 1;
  }

  /** No job type has more outstanding work than before, no worker has died
      uncounted, and no worker holds more. */
  ghost predicate NoWorse(w: World, v: World) {
    && (forall kind :: Outstanding(v, kind) <= Outstanding(w, kind))
    && |v.floor.held.Keys| <= |w.floor.held.Keys|
    && |LostJobs(v.floor)| + w.crashes <= |LostJobs(w.floor)| + v.crashes
    && w.crashes <= v.crashes && w.replays <= v.replays
  }

  lemma NoWorseIsBounded(w: World, v: World, cfg: Config, workers: nat)
    requires Bounded(w, cfg, workers) && NoWorse(w, v)
    ensures Bounded(v, cfg, workers)
  {
  }

  lemma MoveSizes(f: Floor, job: Job, p: Place, kind: JobType)
    requires f.at.Keys == f.jobs.Keys && (job.id in f.jobs ==> f.jobs[job.id].kind == job.kind)
    ensures var g := Moved(f, job, p);
      var busy := job.id in f.at && IsBusy(f.at[job.id]);
      && |Busy(g, kind)| == |Busy(f, kind)| + (if job.kind != kind then 0 else One(IsBusy(p)) - One(busy))
      && |g.held.Keys| == |f.held.Keys| - One(job.id in f.held) + One(p == Held)
      && |LostJobs(g)| == |LostJobs(f)| - One(IsAt(f, job.id, Lost)) + One(p == Lost)
  {
    BusyMoved(f, job, p, kind);
    LostMoved(f, job, p);
  }

  lemma NewJobSizes(w: World, v: World, job: Job, key: Key)
    requires Kept(w) && job.id !in w.floor.jobs && v.floor == Moved(w.floor, job, On(key))
    requires forall k :: Depth(v.c, k) == Depth(w.c, k) + One(k == job.kind)
    ensures forall k :: Outstanding(v, k) == Outstanding(w, k) + One(k == job.kind)
    ensures |v.floor.held.Keys| == |w.floor.held.Keys| && |LostJobs(v.floor)| == |LostJobs(w.floor)|
  {
    forall k ensures Outstanding(v, k) == Outstanding(w, k) + One(k == job.kind) {
      MoveSizes(w.floor, job, On(key), k);
    }
    MoveSizes(w.floor, job, On(key), job.kind);
    assert job.id !in w.floor.held by { HeldAsStored(w.c, w.floor, job.id); }
  }

  lemma AcceptBounded(w: World, cfg: Config, workers: nat, job: Job, now: int)
    requires Kept(w) && Bounded(w, cfg, workers) && job.id !in w.floor.jobs && !Full(w.c, cfg, job.kind)
    ensures Bounded(AfterAccept(w, cfg, job, now), cfg, workers)
  {
    var v := AfterAccept(w, cfg, job, now);
    var key := if job.runAt > now then DelayedKey(job.kind) else ReadyKey(job.kind);
    forall k ensures Depth(v.c, k) == Depth(w.c, k) + One(k == job.kind) {
      CountsAt(w.c.lines, w.floor, DelayedKey(job.kind), job.id);
      if job.runAt > now {
        DelayedDepth(w.c, Scored(job.id, job.runAt), job.kind, k);
      } else {
        PushedDepth(w.c, ReadyKey(job.kind), job.id, k);
      }
    }
    NewJobSizes(w, v, job, key);
    if cfg.maxQueueDepth > 0 {
      forall k ensures Outstanding(v, k) <= cfg.maxQueueDepth + workers + v.crashes + v.replays {
        assert Outstanding(w, k) <= cfg.maxQueueDepth + workers + w.crashes + w.replays;
        FewBusy(w.floor, k);
      }
    }
  }

  lemma RevivalBounded(w: World, cfg: Config, workers: nat, job: Job, now: int)
    requires Kept(w) && Bounded(w, cfg, workers) && job.id !in w.floor.jobs
    ensures Bounded(AfterRevival(w, cfg, job, now), cfg, workers)
  {
    var v := AfterRevival(w, cfg, job, now);
    forall k ensures Depth(v.c, k) == Depth(w.c, k) + One(k == job.kind) {
      PushedDepth(w.c, ReadyKey(job.kind), job.id, k);
    }
    NewJobSizes(w, v, job, ReadyKey(job.kind));
    if cfg.maxQueueDepth > 0 {
      forall k ensures Outstanding(v, k) <= cfg.maxQueueDepth + workers + v.crashes + v.replays {
        assert Outstanding(w, k) <= cfg.maxQueueDepth + workers + w.crashes + w.replays;
      }
    }
  }

  /** A busy job is let go of: at worst it goes back to be run again. */
  lemma LetGoNoWorse(w: World, v: World, job: Job, p: Place)
    requires Kept(w) && job.id in w.floor.jobs && IsBusy(w.floor.at[job.id])
    requires job.kind == w.floor.jobs[job.id].kind && !IsBusy(p)
    requires v.floor == Moved(w.floor, job, p) && v.crashes == w.crashes && v.replays == w.replays
    requires forall k :: Depth(v.c, k) <= Depth(w.c, k) + One(k == job.kind)
    ensures NoWorse(w, v)
  {
    forall k ensures Outstanding(v, k) <= Outstanding(w, k) { MoveSizes(w.floor, job, p, k); }
    MoveSizes(w.floor, job, p, job.kind);
  }

  lemma FailureNoWorse(w: World, cfg: Config, job: Job, now: int)
    requires Kept(w) && job.id in w.floor.held && job.kind == w.floor.jobs[job.id].kind
    ensures NoWorse(w, AfterFailure(w, cfg, job, now))
  {
    var v := AfterFailure(w, cfg, job, now);
    HeldAsStored(w.c, w.floor, job.id);
    CountsAt(w.c.lines, w.floor, DelayedKey(job.kind), job.id);
    forall k ensures Depth(v.c, k) <= Depth(w.c, k) + One(k == job.kind) {
      if job.status == Dead {
        PushedDepth(w.c, DeadKey(job.kind), job.id, k);
      } else {
        DelayedDepth(w.c, Scored(job.id, job.runAt), job.kind, k);
      }
    }
    LetGoNoWorse(w, v, job, On(if job.status == Dead then DeadKey(job.kind) else DelayedKey(job.kind)));
  }

  lemma CrashNoWorse(w: World, id: JobId)
    requires Kept(w) && id in w.floor.held
    ensures NoWorse(w, w.(floor := Moved(w.floor, w.floor.held[id], Lost), crashes := w.crashes + 1))
  {
    var job := w.floor.held[id];
    var v := w.(floor := Moved(w.floor, job, Lost), crashes := w.crashes + 1);
    HeldAsStored(w.c, w.floor, id);
    forall k ensures Outstanding(v, k) <= Outstanding(w, k) { MoveSizes(w.floor, job, Lost, k); }
    MoveSizes(w.floor, job, Lost, job.kind);
  }

  lemma PromotionNoWorse(w: World, kind: JobType, now: int)
    requires Kept(w)
    ensures NoWorse(w, w.(c := w.c.(lines := AfterPromote(w.c.lines, kind, now)),
                          floor := PromotedFloor(w.floor, kind, Due(w.c.lines, kind, now))))
    ensures NoWorse(w, w.(c := BeforePop(w.c, kind, now), floor := FloorBeforePop(w.c, w.floor, kind, now)))
  {
    PromotionKept(w.c, w.floor, kind, now);
    DueIsDelayed(w.c, w.floor, kind, now);
    PromotedBusy(w.floor, kind, Due(w.c.lines, kind, now));
  }

  lemma RescueJobNoWorse(w: World, cfg: Config, id: JobId, now: int, threshold: int)
    requires Kept(w) && OnlyTheDeadAreStuck(w.floor, threshold, now)
    requires JobKey(id) in w.c.kv ==> Live(w.c, JobKey(id), now)
    ensures NoWorse(w, RescueJob(w, cfg, id, now, threshold))
  {
    if JobKey(id) in w.c.kv && Stuck(JobAt(w.c, id), now, threshold) {
      var f, job := w.floor, Rescued(JobAt(w.c, id), now);
      assert f.jobs[id] == JobAt(w.c, id);
      HeldAsStored(w.c, f, id);
      assert Agrees(f.jobs[id], f.at[id]);
      forall k ensures Depth(RescueOne(w.c, cfg, id, now, threshold), k) <= Depth(w.c, k) + One(k == job.kind) {
        PushedDepth(w.c, ReadyKey(job.kind), id, k);
      }
      RescuedIsMoved(f, job);
      LetGoNoWorse(w, RescueJob(w, cfg, id, now, threshold), job, On(ReadyKey(job.kind)));
    }
  }

  lemma {:induction false} RescueBounded(w: World, cfg: Config, workers: nat, keys: seq<Key>, now: int, threshold: int)
    requires Kept(w) && Bounded(w, cfg, workers) && Unexpired(w.c, now) && OnlyTheDeadAreStuck(w.floor, threshold, now)
    requires forall k | k in keys :: k.JobKey?
    ensures Bounded(AfterRescueOf(w, cfg, keys, now, threshold), cfg, workers)
    decreases |keys|
  {
    if keys != [] {
      var v := RescueJob(w, cfg, keys[0].id, now, threshold);
      RescueJobKept(w, cfg, keys[0].id, now, threshold);
      RescueJobNoWorse(w, cfg, keys[0].id, now, threshold);
      NoWorseIsBounded(w, v, cfg, workers);
      RescueBounded(v, cfg, workers, keys[1..], now, threshold);
    }
  }

  lemma PoppedDepth(c: Contents, kind: JobType, k: JobType)
    requires ListAt(c.lines, ReadyKey(kind)) != []
    ensures Depth(c.(lines := Popped(c.lines, ReadyKey(kind))), k) + One(k == kind) == Depth(c, k)
  {
  }

  /** The popped job trades its place in the ready list for one with a worker. */
  lemma PopSizes(w: World, v: World, job: Job)
    requires Kept(w) && job.id in w.floor.jobs && job.kind == w.floor.jobs[job.id].kind
    requires w.floor.at[job.id].On? && v.floor == Moved(w.floor, job, Held)
    requires forall k :: Depth(v.c, k) + One(k == job.kind) == Depth(w.c, k)
    ensures forall k :: Outstanding(v, k) == Outstanding(w, k)
    ensures |v.floor.held.Keys| == |w.floor.held.Keys| + 1 && |LostJobs(v.floor)| == |LostJobs(w.floor)|
  {
    forall k ensures Outstanding(v, k) == Outstanding(w, k) { MoveSizes(w.floor, job, Held, k); }
    MoveSizes(w.floor, job, Held, job.kind);
    HeldAsStored(w.c, w.floor, job.id);
  }

  ghost predicate CanPop(w: World, kind: JobType, now: int) {
    && Kept(w) && ListAt(w.c.lines, ReadyKey(kind)) != []
    && Live(w.c, JobKey(ListAt(w.c.lines, ReadyKey(kind))[0]), now)
  }

  lemma PopEffect(w: World, cfg: Config, kind: JobType, now: int)
    requires CanPop(w, kind, now)
    ensures var id := ListAt(w.c.lines, ReadyKey(kind))[0];
      && id in w.floor.jobs && w.floor.jobs[id].id == id && w.floor.jobs[id].kind == kind && w.floor.at[id].On?
      && w.floor.jobs[id].status == Pending
      && AfterPop(w, cfg, kind, now).floor == Moved(w.floor, Started(w.floor.jobs[id], now), Held)
      && AfterPop(w, cfg, kind, now).starts == Bumped(w.starts, id)
    ensures forall k :: Depth(AfterPop(w, cfg, kind, now).c, k) + One(k == kind) == Depth(w.c, k)
  {
    FirstReadyAt(w.c, w.floor, kind);
    forall k { PoppedDepth(w.c, kind, k); }
  }

  lemma PopBounded(w: World, cfg: Config, workers: nat, kind: JobType, now: int)
    requires CanPop(w, kind, now) && Bounded(w, cfg, workers) && |w.floor.held.Keys| < workers
    ensures Bounded(AfterPop(w, cfg, kind, now), cfg, workers)
  {
    var v := AfterPop(w, cfg, kind, now);
    PopEffect(w, cfg, kind, now);
    PopSizes(w, v, Started(w.floor.jobs[ListAt(w.c.lines, ReadyKey(kind))[0]], now));
  }

  lemma TakeBounded(w: World, cfg: Config, workers: nat, kind: JobType, now: int)
    requires Kept(w) && Bounded(w, cfg, workers) && |w.floor.held.Keys| < workers && Unexpired(w.c, now)
    ensures Bounded(AfterTake(w, cfg, kind, now), cfg, workers)
  {
    var b := WorldBeforePop(w, kind, now);
    BeforePopKept(w, kind, now);
    PromotionNoWorse(w, kind, now);
    NoWorseIsBounded(w, b, cfg, workers);
    if ListAt(b.c.lines, ReadyKey(kind)) != [] {
      FirstReadyAt(b.c, b.floor, kind);
      PopBounded(b, cfg, workers, kind, now);
    }
  }

  lemma RetireNoWorse(w: World, id: JobId)
    requires Kept(w) && id in w.floor.jobs && IsAt(w.floor, id, On(DeadKey(w.floor.jobs[id].kind)))
    ensures NoWorse(w, w.(c := w.c.(lines := Removed(w.c.lines, DeadKey(w.floor.jobs[id].kind), id)),
                          floor := Moved(w.floor, w.floor.jobs[id], Retired)))
  {
    var f := w.floor;
    var v := w.(
      c := w.c.(lines := Removed(w.c.lines, DeadKey(f.jobs[id].kind), id)), floor := Moved(f, f.jobs[id], Retired));
    forall k ensures Outstanding(v, k) <= Outstanding(w, k) { MoveSizes(f, f.jobs[id], Retired, k); }
    MoveSizes(f, f.jobs[id], Retired, f.jobs[id].kind);
  }

  lemma CompleteNoWorse(w: World, cfg: Config, id: JobId, now: int)
    requires Kept(w) && id in w.floor.held
    ensures var job := Finished(w.floor.held[id], now);
      NoWorse(w, w.(c := Saved(w.c, cfg, job, now), floor := Moved(w.floor, job, Done)))
  {
    var job := Finished(w.floor.held[id], now);
    HeldAsStored(w.c, w.floor, id);
    LetGoNoWorse(w, w.(c := Saved(w.c, cfg, job, now), floor := Moved(w.floor, job, Done)), job, Done);
  }

  lemma WorkerStepBounded(w: World, cfg: Config, workers: nat, s: Step)
    requires Kept(w) && Bounded(w, cfg, workers) && Enabled(w, workers, s) && ByWorker(s)
    ensures Bounded(Next(w, cfg, workers, s), cfg, workers)
  {
    if s.Take? {
      TakeBounded(w, cfg, workers, s.kind, s.now);
    } else {
      HeldAsStored(w.c, w.floor, s.id);
      match s
      case Complete(id, now) => CompleteNoWorse(w, cfg, id, now);
      case Fail(id, delay, now) => FailureNoWorse(w, cfg, Failed(w.floor.held[id], delay, now), now);
      case Bury(id, now) => FailureNoWorse(w, cfg, Buried(w.floor.held[id], now), now);
      case Crash(id) => CrashNoWorse(w, id);
    }
    if !s.Take? { NoWorseIsBounded(w, Next(w, cfg, workers, s), cfg, workers); }
  }

  lemma UpkeepStepBounded(w: World, cfg: Config, workers: nat, s: Step)
    requires Kept(w) && Bounded(w, cfg, workers) && Enabled(w, workers, s) && (s.Retire? || s.Promote? || s.Rescue?)
    ensures Bounded(Next(w, cfg, workers, s), cfg, workers)
  {
    match s
    case Retire(id) =>
      RetireNoWorse(w, id);
      NoWorseIsBounded(w, Next(w, cfg, workers, s), cfg, workers);
    case Promote(kind, now) =>
      PromotionNoWorse(w, kind, now);
      NoWorseIsBounded(w, Next(w, cfg, workers, s), cfg, workers);
    case Rescue(threshold, now) => RescueBounded(w, cfg, workers, OnlyJobs(w.c.order), now, threshold);
  }

  /** No step takes a job type past its bound, although a failing job goes back to
      the delayed set without a depth check. */
  lemma StepBounded(w: World, cfg: Config, workers: nat, s: Step)
    requires Kept(w) && Bounded(w, cfg, workers) && Enabled(w, workers, s)
    ensures Bounded(Next(w, cfg, workers, s), cfg, workers)
  {
    if ByWorker(s) {
      WorkerStepBounded(w, cfg, workers, s);
    } else if s.Enqueue? {
      if !Full(w.c, cfg, s.kind) {
        AcceptBounded(w, cfg, workers, NewJob(s.id, s.kind, s.maxAttempts, s.runAt, s.key, s.now), s.now);
      }
    } else if s.Replay? {
      RevivalBounded(w, cfg, workers, Revived(w.floor.jobs[s.dead], s.id, s.now), s.now);
    } else {
      UpkeepStepBounded(w, cfg, workers, s);
    }
  }

  // ---------------------------------------------------------------- how often a job is started

  function Budget(job: Job): nat { if job.maxAttempts == 0 then 1 else job.maxAttempts }

  /** `s` starts and `r` rescues of a job are accounted for by its attempts. */
  predicate Accounted(job: Job, s: nat, r: nat) {
    match job.status
    case Pending => job.attempts < Budget(job) && s <= job.attempts + r
    case Processing => job.attempts < Budget(job) && s <= job.attempts + 1 + r
    case Completed => s <= Budget(job) + r
    case Dead => s <= Budget(job) + r
  }

  ghost predicate BudgetIn(f: Floor, starts: map<JobId, nat>, rescues: map<JobId, nat>) {
    && (forall id | id in f.jobs :: Accounted(f.jobs[id], Count(starts, id), Count(rescues, id)))
    && (forall id | id !in f.jobs :: Count(starts, id) == 0)
  }

  ghost predicate WithinBudget(w: World) { BudgetIn(w.floor, w.starts, w.rescues) }

  lemma MoveWithinBudget(f: Floor, starts: map<JobId, nat>, rescues: map<JobId, nat>, job: Job, p: Place)
    requires BudgetIn(f, starts, rescues) && Accounted(job, Count(starts, job.id), Count(rescues, job.id))
    ensures BudgetIn(Moved(f, job, p), starts, rescues)
  {
  }

  lemma StartWithinBudget(f: Floor, starts: map<JobId, nat>, rescues: map<JobId, nat>, id: JobId, now: int)
    requires BudgetIn(f, starts, rescues) && id in f.jobs && f.jobs[id].status == Pending && f.jobs[id].id == id
    ensures BudgetIn(Moved(f, Started(f.jobs[id], now), Held), Bumped(starts, id), rescues)
  {
  }

  lemma PopWithinBudget(w: World, cfg: Config, kind: JobType, now: int)
    requires CanPop(w, kind, now) && WithinBudget(w)
    ensures WithinBudget(AfterPop(w, cfg, kind, now))
  {
    PopEffect(w, cfg, kind, now);
    StartWithinBudget(w.floor, w.starts, w.rescues, ListAt(w.c.lines, ReadyKey(kind))[0], now);
  }

  lemma RescuedWithinBudget(f: Floor, starts: map<JobId, nat>, rescues: map<JobId, nat>, job: Job, g: Floor)
    requires BudgetIn(f, starts, rescues) && job.id in f.jobs && f.jobs[job.id].status == Processing
    requires job.status == Pending && job.attempts == f.jobs[job.id].attempts &&
      job.maxAttempts == f.jobs[job.id].maxAttempts
    requires g.jobs == f.jobs[job.id := job]
    ensures BudgetIn(g, starts, Bumped(rescues, job.id))
  {
  }

  lemma RescueJobWithinBudget(w: World, cfg: Config, id: JobId, now: int, threshold: int)
    requires Kept(w) && WithinBudget(w)
    ensures WithinBudget(RescueJob(w, cfg, id, now, threshold))
    ensures RescueJob(w, cfg, id, now, threshold).floor.jobs.Keys == w.floor.jobs.Keys
  {
    if Live(w.c, JobKey(id), now) && Stuck(JobAt(w.c, id), now, threshold) {
      assert w.floor.jobs[id] == JobAt(w.c, id);
      var v := RescueJob(w, cfg, id, now, threshold);
      RescuedWithinBudget(w.floor, w.starts, w.rescues, Rescued(JobAt(w.c, id), now), v.floor);
    }
  }

  lemma {:induction false} RescueWithinBudget(w: World, cfg: Config, keys: seq<Key>, now: int, threshold: int)
    requires Kept(w) && Unexpired(w.c, now) && OnlyTheDeadAreStuck(w.floor, threshold, now) && WithinBudget(w)
    requires forall k | k in keys :: k.JobKey?
    ensures WithinBudget(AfterRescueOf(w, cfg, keys, now, threshold))
    ensures AfterRescueOf(w, cfg, keys, now, threshold).floor.jobs.Keys == w.floor.jobs.Keys
    decreases |keys|
  {
    if keys != [] {
      var v := RescueJob(w, cfg, keys[0].id, now, threshold);
      RescueJobKept(w, cfg, keys[0].id, now, threshold);
      RescueJobWithinBudget(w, cfg, keys[0].id, now, threshold);
      RescueWithinBudget(v, cfg, keys[1..], now, threshold);
    }
  }

  lemma TakeWithinBudget(w: World, cfg: Config, kind: JobType, now: int)
    requires Kept(w) && WithinBudget(w) && Unexpired(w.c, now)
    ensures WithinBudget(AfterTake(w, cfg, kind, now))
    ensures w.floor.jobs.Keys <= AfterTake(w, cfg, kind, now).floor.jobs.Keys
  {
    var b := WorldBeforePop(w, kind, now);
    BeforePopKept(w, kind, now);
    if ListAt(b.c.lines, ReadyKey(kind)) != [] {
      FirstReadyAt(b.c, b.floor, kind);
      PopWithinBudget(b, cfg, kind, now);
      PopEffect(b, cfg, kind, now);
    }
  }

  /** However a worker lets go of a job, its starts stay accounted for. */
  lemma LetGoAccounted(job: Job, s: nat, r: nat, delay: nat, now: int)
    requires job.status == Processing && Accounted(job, s, r)
    ensures Accounted(Finished(job, now), s, r) && Accounted(Failed(job, delay, now), s, r) &&
      Accounted(Buried(job, now), s, r)
  {
  }

  lemma HeldAccounted(w: World, id: JobId, delay: nat, now: int)
    requires Kept(w) && WithinBudget(w) && id in w.floor.held
    ensures id in w.floor.jobs && w.floor.held[id] == w.floor.jobs[id] && w.floor.held[id].id == id
    ensures var job, s, r := w.floor.held[id], Count(w.starts, id), Count(w.rescues, id);
      Accounted(job, s, r) && Accounted(Finished(job, now), s, r) && Accounted(Failed(job, delay, now), s, r)
      && Accounted(Buried(job, now), s, r)
  {
    HeldAsStored(w.c, w.floor, id);
    LetGoAccounted(w.floor.held[id], Count(w.starts, id), Count(w.rescues, id), delay, now);
  }

  lemma NewJobWithinBudget(w: World, job: Job, p: Place)
    requires Kept(w) && WithinBudget(w) && job.id !in w.floor.jobs && job.status == Pending && job.attempts == 0
    ensures BudgetIn(Moved(w.floor, job, p), w.starts, w.rescues)
  {
  }

  lemma FailureWithinBudget(w: World, cfg: Config, job: Job, now: int)
    requires WithinBudget(w) && Accounted(job, Count(w.starts, job.id), Count(w.rescues, job.id))
    ensures WithinBudget(AfterFailure(w, cfg, job, now))
  {
  }

  lemma FailStepWithinBudget(w: World, cfg: Config, workers: nat, s: Step)
    requires Kept(w) && WithinBudget(w) && Enabled(w, workers, s) && (s.Fail? || s.Bury?)
    ensures WithinBudget(Next(w, cfg, workers, s))
    ensures w.floor.jobs.Keys <= Next(w, cfg, workers, s).floor.jobs.Keys
  {
    var delay := if s.Fail? then s.delay else 0;
    HeldAccounted(w, s.id, delay, s.now);
    var job := w.floor.held[s.id];
    FailureWithinBudget(w, cfg, if s.Fail? then Failed(job, delay, s.now) else Buried(job, s.now), s.now);
  }

  lemma LetGoStepWithinBudget(w: World, cfg: Config, workers: nat, s: Step)
    requires Kept(w) && WithinBudget(w) && Enabled(w, workers, s) && (s.Complete? || s.Crash?)
    ensures WithinBudget(Next(w, cfg, workers, s))
    ensures w.floor.jobs.Keys <= Next(w, cfg, workers, s).floor.jobs.Keys
  {
    var job, now := w.floor.held[s.id], if s.Crash? then 0 else s.now;
    HeldAccounted(w, s.id, 0, now);
    MoveWithinBudget(w.floor, w.starts, w.rescues, Finished(job, now), Done);
    MoveWithinBudget(w.floor, w.starts, w.rescues, job, Lost);
  }

  lemma ProducerStepWithinBudget(w: World, cfg: Config, workers: nat, s: Step)
    requires Kept(w) && WithinBudget(w) && Enabled(w, workers, s) && (s.Enqueue? || s.Replay? || s.Retire?)
    ensures WithinBudget(Next(w, cfg, workers, s))
    ensures w.floor.jobs.Keys <= Next(w, cfg, workers, s).floor.jobs.Keys
  {
    match s
    case Enqueue(id, kind, maxAttempts, runAt, key, now) =>
      var job := NewJob(id, kind, maxAttempts, runAt, key, now);
      NewJobWithinBudget(w, job, On(if runAt > now then DelayedKey(kind) else ReadyKey(kind)));
    case Replay(dead, id, now) =>
      NewJobWithinBudget(w, Revived(w.floor.jobs[dead], id, now), On(ReadyKey(w.floor.jobs[dead].kind)));
    case Retire(id) => MoveWithinBudget(w.floor, w.starts, w.rescues, w.floor.jobs[id], Retired);
  }

  lemma StepWithinBudget(w: World, cfg: Config, workers: nat, s: Step)
    requires Kept(w) && WithinBudget(w) && Enabled(w, workers, s)
    ensures WithinBudget(Next(w, cfg, workers, s))
    ensures w.floor.jobs.Keys <= Next(w, cfg, workers, s).floor.jobs.Keys
  {
    if s.Take? {
      TakeWithinBudget(w, cfg, s.kind, s.now);
    } else if s.Fail? || s.Bury? {
      FailStepWithinBudget(w, cfg, workers, s);
    } else if ByWorker(s) {
      LetGoStepWithinBudget(w, cfg, workers, s);
    } else if s.Rescue? {
      RescueWithinBudget(w, cfg, OnlyJobs(w.c.order), s.now, s.threshold);
    } else if !s.Promote? {
      ProducerStepWithinBudget(w, cfg, workers, s);
    }
  }

  // ---------------------------------------------------------------- whole runs

  ghost predicate Sound(w: World, cfg: Config, workers: nat) { Kept(w) && Bounded(w, cfg, workers) && WithinBudget(w) }

  /** Each step can be taken when its turn comes; the job keys hold jobs throughout,
      as every step from a sound world sees to. */
  ghost predicate Feasible(w: World, cfg: Config, workers: nat, steps: seq<Step>)
    decreases |steps|
  {
    steps == [] ||
    (JobsStored(w.c) && Enabled(w, workers, steps[0])
      && Feasible(Next(w, cfg, workers, steps[0]), cfg, workers, steps[1..]))
  }

  ghost function After(w: World, cfg: Config, workers: nat, steps: seq<Step>): World
    requires Feasible(w, cfg, workers, steps)
    decreases |steps|
  {
    if steps == [] then w else After(Next(w, cfg, workers, steps[0]), cfg, workers, steps[1..])
  }

  /** Every run keeps the world sound and forgets no job. */
  lemma {:induction false} RunKeepsSound(w: World, cfg: Config, workers: nat, steps: seq<Step>)
    requires Sound(w, cfg, workers) && Feasible(w, cfg, workers, steps)
    ensures Sound(After(w, cfg, workers, steps), cfg, workers)
    ensures w.floor.jobs.Keys <= After(w, cfg, workers, steps).floor.jobs.Keys
    decreases |steps|
  {
    if steps != [] {
      StepKept(w, cfg, workers, steps[0]);
      StepBounded(w, cfg, workers, steps[0]);
      StepWithinBudget(w, cfg, workers, steps[0]);
      RunKeepsSound(Next(w, cfg, workers, steps[0]), cfg, workers, steps[1..]);
    }
  }

  lemma StartIsSound(cfg: Config, workers: nat)
    ensures Sound(START, cfg, workers)
  {
  }

  /** No job is lost or duplicated: whatever was accepted is there after every run
      that follows, in exactly one place. */
  lemma {:induction false} NoJobLostOrDuplicated(w: World, cfg: Config, workers: nat, steps: seq<Step>, id: JobId)
    requires Sound(w, cfg, workers) && Feasible(w, cfg, workers, steps) && id in w.floor.jobs
    ensures id in After(w, cfg, workers, steps).floor.jobs
    ensures InOnePlace(After(w, cfg, workers, steps).c, After(w, cfg, workers, steps).floor, id)
  {
    RunKeepsSound(w, cfg, workers, steps);
    ExactlyOnePlace(After(w, cfg, workers, steps).c, After(w, cfg, workers, steps).floor, id);
  }

  /** Over every run from an empty queue, without crashes or dead-letter replays, a job
      type never has more than `maxQueueDepth` plus one job per worker outstanding. */
  lemma {:induction false} OutstandingWorkIsBounded(cfg: Config, workers: nat, steps: seq<Step>, kind: JobType)
    requires Feasible(START, cfg, workers, steps) && cfg.maxQueueDepth > 0
    requires After(START, cfg, workers, steps).crashes == 0 && After(START, cfg, workers, steps).replays == 0
    ensures Outstanding(After(START, cfg, workers, steps), kind) <= cfg.maxQueueDepth + workers
  {
    StartIsSound(cfg, workers);
    RunKeepsSound(START, cfg, workers, steps);
  }

  /** In a sound world, so after every run from an empty queue, a job was handed to a
      worker at most `maxAttempts` times (once if that is zero), plus once for each
      time it was rescued. */
  lemma {:induction false} StartsAreBounded(w: World, cfg: Config, workers: nat, steps: seq<Step>, id: JobId)
    requires Sound(w, cfg, workers) && Feasible(w, cfg, workers, steps) && id in w.floor.jobs
    ensures var v := After(w, cfg, workers, steps);
      id in v.floor.jobs && Count(v.starts, id) <= Budget(v.floor.jobs[id]) + Count(v.rescues, id)
  {
    RunKeepsSound(w, cfg, workers, steps);
    BudgetBoundsStarts(After(w, cfg, workers, steps), id);
  }

  lemma BudgetBoundsStarts(w: World, id: JobId)
    requires WithinBudget(w) && id in w.floor.jobs
    ensures Count(w.starts, id) <= Budget(w.floor.jobs[id]) + Count(w.rescues, id)
  {
    assert Accounted(w.floor.jobs[id], Count(w.starts, id), Count(w.rescues, id));
  }

  // ---------------------------------------------------------------- how a job comes to be dead

  /** A dead job has been attempted as often as it may be. */
  predicate Spent(f: Floor, id: JobId) {
    id in f.jobs && f.jobs[id].status == Dead ==> f.jobs[id].attempts >= f.jobs[id].maxAttempts
  }

  lemma {:induction false} RescueKillsNone(w: World, cfg: Config, keys: seq<Key>, now: int, threshold: int, id: JobId)
    requires Kept(w) && Unexpired(w.c, now) && OnlyTheDeadAreStuck(w.floor, threshold, now) && Spent(w.floor, id)
    requires forall k | k in keys :: k.JobKey?
    ensures Spent(AfterRescueOf(w, cfg, keys, now, threshold).floor, id)
    decreases |keys|
  {
    if keys != [] {
      RescueJobKept(w, cfg, keys[0].id, now, threshold);
      RescueKillsNone(RescueJob(w, cfg, keys[0].id, now, threshold), cfg, keys[1..], now, threshold, id);
    }
  }

  lemma TakeKillsNone(w: World, cfg: Config, kind: JobType, now: int, id: JobId)
    requires Kept(w) && Unexpired(w.c, now) && Spent(w.floor, id)
    ensures Spent(AfterTake(w, cfg, kind, now).floor, id)
  {
    var b := WorldBeforePop(w, kind, now);
    BeforePopKept(w, kind, now);
    if ListAt(b.c.lines, ReadyKey(kind)) != [] {
      FirstReadyAt(b.c, b.floor, kind);
      PopEffect(b, cfg, kind, now);
    }
  }

  lemma FailureKillsOnlyTheSpent(w: World, cfg: Config, job: Job, now: int, id: JobId)
    requires Spent(w.floor, id) && (job.id == id && job.status == Dead ==> job.attempts >= job.maxAttempts)
    ensures Spent(AfterFailure(w, cfg, job, now).floor, id)
  {
  }

  lemma LetGoKillsOnlyTheSpent(w: World, cfg: Config, workers: nat, s: Step, id: JobId)
    requires Kept(w) && Enabled(w, workers, s) && Spent(w.floor, id) && !(s.Bury? && s.id == id)
    requires s.Complete? || s.Fail? || s.Bury? || s.Crash?
    ensures Spent(Next(w, cfg, workers, s).floor, id)
  {
    HeldAsStored(w.c, w.floor, s.id);
    if s.Fail? {
      FailureKillsOnlyTheSpent(w, cfg, Failed(w.floor.held[s.id], s.delay, s.now), s.now, id);
    } else if s.Bury? {
      FailureKillsOnlyTheSpent(w, cfg, Buried(w.floor.held[s.id], s.now), s.now, id);
    }
  }

  lemma OthersKillNone(w: World, cfg: Config, workers: nat, s: Step, id: JobId)
    requires Kept(w) && Enabled(w, workers, s) && Spent(w.floor, id)
    requires s.Enqueue? || s.Replay? || s.Retire? || s.Promote?
    ensures Spent(Next(w, cfg, workers, s).floor, id)
  {
  }

  lemma StepKillsOnlyTheSpent(w: World, cfg: Config, workers: nat, s: Step, id: JobId)
    requires Kept(w) && Enabled(w, workers, s) && Spent(w.floor, id) && !(s.Bury? && s.id == id)
    ensures Spent(Next(w, cfg, workers, s).floor, id)
  {
    if s.Take? {
      TakeKillsNone(w, cfg, s.kind, s.now, id);
    } else if s.Rescue? {
      RescueKillsNone(w, cfg, OnlyJobs(w.c.order), s.now, s.threshold, id);
    } else if ByWorker(s) {
      LetGoKillsOnlyTheSpent(w, cfg, workers, s, id);
    } else {
      OthersKillNone(w, cfg, workers, s, id);
    }
  }

  ghost predicate NeverBuried(steps: seq<Step>, id: JobId) { forall s | s in steps :: !(s.Bury? && s.id == id) }

  /** Over every run, a job that no step buried for want of a processor is dead only
      once it has used all its attempts. */
  lemma {:induction false} DeadHasUsedItsAttempts(w: World, cfg: Config, workers: nat, steps: seq<Step>, id: JobId)
    requires Sound(w, cfg, workers) && Feasible(w, cfg, workers, steps) && NeverBuried(steps, id) && Spent(w.floor, id)
    ensures Spent(After(w, cfg, workers, steps).floor, id)
    decreases |steps|
  {
    if steps != [] {
      StepKept(w, cfg, workers, steps[0]);
      StepBounded(w, cfg, workers, steps[0]);
      StepWithinBudget(w, cfg, workers, steps[0]);
      StepKillsOnlyTheSpent(w, cfg, workers, steps[0], id);
      DeadHasUsedItsAttempts(Next(w, cfg, workers, steps[0]), cfg, workers, steps[1..], id);
    }
  }
}
