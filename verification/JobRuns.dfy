/** Runs of the queue: producers, workers, crashes, rescues and dead-letter replays
    in any order, one queue method at a time. */
module JobRuns {
  import opened Wrappers
  import opened WorkerTypes
  import opened Lists
  import opened MemoryStore
  import opened JobQueue
  import opened JobPlaces
  import opened JobConservation

  /** `starts` and `rescues` count, per job, how often it was handed to a worker
      and how often a rescue put it back. */
  datatype World = World(
    c: Contents, floor: Floor, starts: map<JobId, nat>, rescues: map<JobId, nat>, crashes: nat, replays: nat)

  const START := World(EMPTY, Floor(map[], map[], map[]), map[], map[], 0, 0)

  ghost predicate Kept(w: World) { KeptIn(w.c, w.floor) && JobsStored(w.c) }

  datatype Step =
    | Enqueue(id: JobId, kind: JobType, maxAttempts: nat, runAt: int, key: Option<string>, now: int)
    | Replay(dead: JobId, id: JobId, now: int)
    | Retire(id: JobId)
    | Promote(kind: JobType, now: int)
    | Take(kind: JobType, now: int)
    | Complete(id: JobId, now: int)
    | Fail(id: JobId, delay: nat, now: int)
    | Bury(id: JobId, now: int)
    | Crash(id: JobId)
    | Rescue(threshold: int, now: int)

  ghost predicate Unexpired(c: Contents, now: int) {
    forall id | JobKey(id) in c.kv :: Live(c, JobKey(id), now)
  }

  /** No job that a rescue would take is in the hands of a worker. */
  ghost predicate OnlyTheDeadAreStuck(f: Floor, threshold: int, now: int) {
    forall id | id in f.held :: !Stuck(f.held[id], now, threshold)
  }

  ghost predicate Enabled(w: World, workers: nat, s: Step) {
    match s
    case Enqueue(id, _, _, _, _, _) => id !in w.floor.jobs
    case Replay(dead, id, _) => dead in w.floor.jobs && w.floor.jobs[dead].status == Dead && id !in w.floor.jobs
    case Retire(id) => id in w.floor.jobs && IsAt(w.floor, id, On(DeadKey(w.floor.jobs[id].kind)))
    case Promote(_, _) => true
    case Take(_, now) => |w.floor.held.Keys| < workers && Unexpired(w.c, now)
    case Complete(id, _) => id in w.floor.held
    case Fail(id, _, _) => id in w.floor.held
    case Bury(id, _) => id in w.floor.held
    case Crash(id) => id in w.floor.held
    case Rescue(threshold, now) => Unexpired(w.c, now) && OnlyTheDeadAreStuck(w.floor, threshold, now)
  }

  function Count(m: map<JobId, nat>, id: JobId): nat { if id in m then m[id] else 0 }

  function Bumped(m: map<JobId, nat>, id: JobId): map<JobId, nat> { m[id := Count(m, id) + 1] }

  // ---------------------------------------------------------------- promotion and taking

  function PromotedFloor(f: Floor, kind: JobType, due: seq<JobId>): Floor {
    f.(at := map id | id in f.at :: if id in due then On(ReadyKey(kind)) else f.at[id])
  }

  lemma PromoteOneFloor(f: Floor, kind: JobType, due: seq<JobId>)
    requires Tidy(f) && due != [] && due[0] in f.jobs && IsAt(f, due[0], On(DelayedKey(kind)))
    ensures PromotedFloor(Moved(f, f.jobs[due[0]], On(ReadyKey(kind))), kind, due[1..]) == PromotedFloor(f, kind, due)
  {
  }

  lemma PromoteOneDepth(l: Lines, kind: JobType, id: JobId, k: JobType)
    requires Occurrences(l, DelayedKey(kind), id) == 1
    ensures var m := MoveOne(l, kind, id);
      |ListAt(m, ReadyKey(k))| + |SetAt(m, DelayedKey(k))| == |ListAt(l, ReadyKey(k))| + |SetAt(l, DelayedKey(k))|
  {
    WithoutShrinks(Members(SetAt(l, DelayedKey(kind))), id);
    assert |Members(SetAt(ScoredOut(l, DelayedKey(kind), id), DelayedKey(kind)))| == |SetAt(l, DelayedKey(kind))| - 1;
  }

  /** `due` lists jobs of the delayed set, none twice. */
  ghost predicate AllDelayed(l: Lines, kind: JobType, due: seq<JobId>) {
    forall id :: Times(due, id) <= Occurrences(l, DelayedKey(kind), id)
  }

  function MoveOne(l: Lines, kind: JobType, id: JobId): Lines {
    Pushed(ScoredOut(l, DelayedKey(kind), id), ReadyKey(kind), id)
  }

  lemma RestAllDelayed(l: Lines, f: Floor, m: Lines, g: Floor, kind: JobType, due: seq<JobId>, job: Job)
    requires Counted(f, CountsOf(l)) && due != [] && AllDelayed(l, kind, due) && job.id == due[0]
    requires g == Moved(f, job, On(ReadyKey(kind))) && Counted(g, CountsOf(m))
    ensures AllDelayed(m, kind, due[1..])
  {
    forall i ensures Times(due[1..], i) <= Occurrences(m, DelayedKey(kind), i) {
      CountsAt(l, f, DelayedKey(kind), i);
      CountsAt(m, g, DelayedKey(kind), i);
      assert Times(due, i) == One(due[0] == i) + Times(due[1..], i);
    }
  }

  lemma {:induction false} MovingKept(c: Contents, f: Floor, kind: JobType, due: seq<JobId>)
    requires KeptIn(c, f) && AllDelayed(c.lines, kind, due)
    ensures KeptIn(c.(lines := MoveDue(c.lines, kind, due)), PromotedFloor(f, kind, due))
    ensures forall k :: Depth(c.(lines := MoveDue(c.lines, kind, due)), k) == Depth(c, k)
    decreases |due|
  {
    if due == [] {
      assert PromotedFloor(f, kind, due) == f;
    } else {
      var id := due[0];
      assert Times(due, id) >= 1;
      CountsAt(c.lines, f, DelayedKey(kind), id);
      PromoteOneKept(c, f, kind, id);
      PromoteOneFloor(f, kind, due);
      var d, g := c.(lines := MoveOne(c.lines, kind, id)), Moved(f, f.jobs[id], On(ReadyKey(kind)));
      RestAllDelayed(c.lines, f, d.lines, g, kind, due, f.jobs[id]);
      MovingKept(d, g, kind, due[1..]);
      forall k ensures Depth(d, k) == Depth(c, k) { PromoteOneDepth(c.lines, kind, id, k); }
    }
  }

  lemma PromotionKept(c: Contents, f: Floor, kind: JobType, now: int)
    requires KeptIn(c, f)
    ensures KeptIn(c.(lines := AfterPromote(c.lines, kind, now)), PromotedFloor(f, kind, Due(c.lines, kind, now)))
    ensures forall k :: Depth(c.(lines := AfterPromote(c.lines, kind, now)), k) == Depth(c, k)
  {
    forall id ensures Times(Due(c.lines, kind, now), id) <= Occurrences(c.lines, DelayedKey(kind), id) {
      DueWithin(SetAt(c.lines, DelayedKey(kind)), now, id);
    }
    MovingKept(c, f, kind, Due(c.lines, kind, now));
  }

  ghost predicate InScoreOrder(z: seq<Scored>) { forall i, j | 0 <= i < j < |z| :: z[i].score <= z[j].score }

  lemma {:induction false} SortedByScore(z: seq<Scored>)
    ensures InScoreOrder(SortByScore(z))
  {
    if z != [] {
      SortedByScore(z[1..]);
      InsertedInOrder(z[0], SortByScore(z[1..]));
    }
  }

  lemma {:induction false} InsertedInOrder(x: Scored, sorted: seq<Scored>)
    requires InScoreOrder(sorted)
    ensures InScoreOrder(Inserted(x, sorted))
  {
    if sorted != [] && x.score > sorted[0].score {
      InsertedInOrder(x, sorted[1..]);
      var r := Inserted(x, sorted[1..]);
      forall i | 0 <= i < |r| ensures sorted[0].score <= r[i].score {
        assert r[i] in multiset(r);
        assert r[i] == x || r[i] in sorted[1..];
      }
      assert Inserted(x, sorted) == [sorted[0]] + r;
    }
  }

  lemma {:induction false} ReadyAfterMove(l: Lines, kind: JobType, due: seq<JobId>)
    ensures ListAt(MoveDue(l, kind, due), ReadyKey(kind)) == ListAt(l, ReadyKey(kind)) + due
    decreases |due|
  {
    if due != [] {
      ReadyAfterMove(MoveOne(l, kind, due[0]), kind, due[1..]);
      assert ListAt(MoveOne(l, kind, due[0]), ReadyKey(kind)) == ListAt(l, ReadyKey(kind)) + [due[0]];
      assert due == [due[0]] + due[1..];
    }
  }

  /** A promotion puts exactly the jobs that are due behind those already ready, the
      one due longest first. */
  lemma {:induction false} PromotionIsInDueOrder(l: Lines, kind: JobType, now: int)
    ensures var due := SortByScore(Within(SetAt(l, DelayedKey(kind)), 0, now));
      && ListAt(AfterPromote(l, kind, now), ReadyKey(kind)) == ListAt(l, ReadyKey(kind)) + Members(due)
      && (forall x: Scored :: x in due <==> x in SetAt(l, DelayedKey(kind)) && 0 <= x.score <= now)
      && InScoreOrder(due)
  {
    var due := SortByScore(Within(SetAt(l, DelayedKey(kind)), 0, now));
    ReadyAfterMove(l, kind, Members(due));
    SortedByScore(Within(SetAt(l, DelayedKey(kind)), 0, now));
    assert forall x: Scored :: x in due <==> x in multiset(due);
  }

  lemma HeadIsTaken(c: Contents, cfg: Config, kind: JobType, now: int)
    requires JobsStored(c)
    ensures var list := ListAt(c.lines, ReadyKey(kind));
      var (d, job) := TakeFirst(c, cfg, kind, now);
      if list == [] then job == None else
        ListAt(d.lines, ReadyKey(kind)) == list[1..] && (job.Some? ==> job.value.id == list[0])
    ensures TakeFirst(c, cfg, kind, now).0.lines.zsets == c.lines.zsets
  {
  }

  /** A dequeue takes the head of the ready list or, with nothing ready, the delayed
      job that has been due longest. */
  lemma {:induction false} DequeueTakesFirst(c: Contents, cfg: Config, kind: JobType, now: int)
    requires JobsStored(c)
    ensures var ready := ListAt(c.lines, ReadyKey(kind));
      var list := if ready != [] then ready else Members(SortByScore(Within(SetAt(c.lines, DelayedKey(kind)), 0, now)));
      var (d, job) := AfterDequeue(c, cfg, kind, now);
      if list == [] then job == None else
        ListAt(d.lines, ReadyKey(kind)) == list[1..] && (job.Some? ==> job.value.id == list[0])
  {
    PromotionIsInDueOrder(c.lines, kind, now);
    HeadIsTaken(BeforePop(c, kind, now), cfg, kind, now);
    assert ListAt(c.lines, ReadyKey(kind)) == [] ==>
      ListAt(BeforePop(c, kind, now).lines, ReadyKey(kind)) ==
        Members(SortByScore(Within(SetAt(c.lines, DelayedKey(kind)), 0, now)));
  }

  // ---------------------------------------------------------------- waiting

  /** The job waits in the delayed set of its type until `due`. */
  predicate Waits(c: Contents, kind: JobType, id: JobId, due: int) {
    Scored(id, due) in SetAt(c.lines, DelayedKey(kind))
  }

  lemma {:induction false} AMember(z: seq<Scored>, x: Scored)
    requires x in z
    ensures Times(Members(z), x.member) >= 1
  {
    if x != z[0] { AMember(z[1..], x); }
  }

  lemma {:induction false} OneScore(z: seq<Scored>, x: Scored, y: Scored)
    requires x in z && y in z && x.member == y.member && Times(Members(z), x.member) <= 1
    ensures x == y
  {
    if x == z[0] || y == z[0] {
      if x != y { AMember(z[1..], if x == z[0] then y else x); }
    } else {
      OneScore(z[1..], x, y);
    }
  }

  lemma {:induction false} DueMember(z: seq<Scored>, id: JobId)
    requires id in Members(z)
    ensures exists x: Scored :: x in z && x.member == id
  {
    var i :| 0 <= i < |z| && Members(z)[i] == id;
    assert z[i].member == id;
  }

  /** What is not yet due is not among the jobs a promotion moves. */
  lemma NotYetDue(c: Contents, f: Floor, kind: JobType, id: JobId, due: int, now: int)
    requires KeptIn(c, f) && Waits(c, kind, id, due) && now < due
    ensures id !in Due(c.lines, kind, now)
  {
    var z := SetAt(c.lines, DelayedKey(kind));
    var sorted := SortByScore(Within(z, 0, now));
    if id in Members(sorted) {
      DueMember(sorted, id);
      var x :| x in sorted && x.member == id;
      assert x in multiset(sorted);
      CountsAt(c.lines, f, DelayedKey(kind), id);
      OneScore(z, x, Scored(id, due));
    }
  }

  lemma {:induction false} MovingKeepsWaiting(l: Lines, kind: JobType, moved: seq<JobId>, key: Key, x: Scored)
    requires x in SetAt(l, key) && (key == DelayedKey(kind) ==> x.member !in moved)
    ensures x in SetAt(MoveDue(l, kind, moved), key)
    decreases |moved|
  {
    if moved != [] {
      assert x in SetAt(MoveOne(l, kind, moved[0]), key);
      MovingKeepsWaiting(MoveOne(l, kind, moved[0]), kind, moved[1..], key, x);
    }
  }

  lemma PromotionKeepsWaiting(c: Contents, f: Floor, kind: JobType, id: JobId, due: int, promoted: JobType, now: int)
    requires KeptIn(c, f) && Waits(c, kind, id, due) && (promoted == kind ==> now < due)
    ensures Waits(c.(lines := AfterPromote(c.lines, promoted, now)), kind, id, due)
    ensures Waits(BeforePop(c, promoted, now), kind, id, due)
  {
    if promoted == kind { NotYetDue(c, f, kind, id, due, now); }
    MovingKeepsWaiting(c.lines, promoted, Due(c.lines, promoted, now), DelayedKey(kind), Scored(id, due));
  }

  function FloorBeforePop(c: Contents, f: Floor, kind: JobType, now: int): Floor {
    if ListAt(c.lines, ReadyKey(kind)) == [] then PromotedFloor(f, kind, Due(c.lines, kind, now)) else f
  }

  function WorldBeforePop(w: World, kind: JobType, now: int): World {
    w.(c := BeforePop(w.c, kind, now), floor := FloorBeforePop(w.c, w.floor, kind, now))
  }

  /** The job popped, if any, is the worker's from then on. */
  function AfterPop(w: World, cfg: Config, kind: JobType, now: int): World
    requires JobsStored(w.c)
  {
    var (c, job) := TakeFirst(w.c, cfg, kind, now);
    if job == None then w.(c := c)
    else w.(c := c, floor := Moved(w.floor, job.value, Held), starts := Bumped(w.starts, job.value.id))
  }

  function AfterTake(w: World, cfg: Config, kind: JobType, now: int): World
    requires JobsStored(w.c)
  {
    AfterPop(WorldBeforePop(w, kind, now), cfg, kind, now)
  }

  lemma BeforePopKept(w: World, kind: JobType, now: int)
    requires Kept(w)
    ensures KeptIn(BeforePop(w.c, kind, now), FloorBeforePop(w.c, w.floor, kind, now))
    ensures JobsStored(BeforePop(w.c, kind, now))
    ensures forall k :: Depth(BeforePop(w.c, kind, now), k) == Depth(w.c, k)
  {
    PromotionKept(w.c, w.floor, kind, now);
  }

  lemma TakeKept(w: World, cfg: Config, kind: JobType, now: int)
    requires Kept(w) && Unexpired(w.c, now)
    ensures Kept(AfterTake(w, cfg, kind, now))
  {
    var b, f := BeforePop(w.c, kind, now), FloorBeforePop(w.c, w.floor, kind, now);
    BeforePopKept(w, kind, now);
    if ListAt(b.lines, ReadyKey(kind)) != [] {
      FirstReadyAt(b, f, kind);
      PopKept(b, f, cfg, kind, now);
    }
    var v := AfterTake(w, cfg, kind, now);
    KeptIsStored(v.c, v.floor);
  }

  /** A ready job survives the dequeue that pops it exactly when its stored text has
      not expired; otherwise its id is in no list and its text is deleted. */
  lemma ExpiredJobIsDropped(w: World, cfg: Config, kind: JobType, now: int)
    requires Kept(w) && ListAt(BeforePop(w.c, kind, now).lines, ReadyKey(kind)) != []
    ensures var id := ListAt(BeforePop(w.c, kind, now).lines, ReadyKey(kind))[0];
      && id in w.floor.jobs
      && (Live(w.c, JobKey(id), now) <==> Kept(AfterTake(w, cfg, kind, now)))
      && (!Live(w.c, JobKey(id), now) ==>
          && JobKey(id) !in AfterTake(w, cfg, kind, now).c.kv
          && AfterDequeue(w.c, cfg, kind, now).1 == None
          && forall key :: Occurrences(AfterTake(w, cfg, kind, now).c.lines, key, id) == 0)
  {
    var b, f := BeforePop(w.c, kind, now), FloorBeforePop(w.c, w.floor, kind, now);
    BeforePopKept(w, kind, now);
    FirstReadyAt(b, f, kind);
    var id := ListAt(b.lines, ReadyKey(kind))[0];
    if Live(w.c, JobKey(id), now) {
      PopKept(b, f, cfg, kind, now);
      var v := AfterTake(w, cfg, kind, now);
      KeptIsStored(v.c, v.floor);
    } else {
      CountsAt(b.lines, f, ReadyKey(kind), id);
      PopClears(b.lines, ReadyKey(kind));
      var n, m := CountsOf(b.lines), CountsOf(Popped(b.lines, ReadyKey(kind)));
      forall key ensures Occurrences(Popped(b.lines, ReadyKey(kind)), key, id) == 0 {
        CountsAt(b.lines, f, key, id);
        assert m(key, id) == if key == ReadyKey(kind) then 0 else n(key, id);
      }
    }
  }

  // ---------------------------------------------------------------- rescue

  /** A rescue looks at one job key. It never asks whether a worker still holds the
      job, so what the workers hold does not change. */
  function RescueJob(w: World, cfg: Config, id: JobId, now: int, threshold: int): World
    requires JobsStored(w.c)
  {
    var c := RescueOne(w.c, cfg, id, now, threshold);
    if !Live(w.c, JobKey(id), now) || !Stuck(JobAt(w.c, id), now, threshold) then w.(c := c)
    else
      var job := Rescued(JobAt(w.c, id), now);
      w.(c := c, rescues := Bumped(w.rescues, id),
         floor := Floor(w.floor.jobs[id := job], w.floor.held, w.floor.at[id := On(ReadyKey(job.kind))]))
  }

  function AfterRescueOf(w: World, cfg: Config, keys: seq<Key>, now: int, threshold: int): (r: World)
    requires JobsStored(w.c) && forall k | k in keys :: k.JobKey?
    ensures r.c == AfterRescue(w.c, cfg, keys, now, threshold) && r.floor.held == w.floor.held
    decreases |keys|
  {
    if keys == [] then w
    else AfterRescueOf(RescueJob(w, cfg, keys[0].id, now, threshold), cfg, keys[1..], now, threshold)
  }

  lemma HeldAsStored(c: Contents, f: Floor, id: JobId)
    requires KeptIn(c, f) && JobsStored(c)
    ensures id in f.held ==> JobKey(id) in c.kv && f.held[id] == JobAt(c, id) && JobAt(c, id).status == Processing
    ensures id in f.held ==> id in f.jobs && IsAt(f, id, Held) && f.held[id] == f.jobs[id] && f.jobs[id].id == id
  {
  }

  lemma RescuedIsMoved(f: Floor, job: Job)
    requires job.id !in f.held
    ensures Moved(f, job, On(ReadyKey(job.kind))) ==
      Floor(f.jobs[job.id := job], f.held, f.at[job.id := On(ReadyKey(job.kind))])
  {
  }

  lemma RescueStuckKept(c: Contents, f: Floor, cfg: Config, id: JobId, now: int)
    requires KeptIn(c, f) && id in f.jobs && f.jobs[id].status == Processing && id !in f.held
    ensures var job := Rescued(f.jobs[id], now);
      KeptIn(Saved(c, cfg, job, now).(lines := Pushed(c.lines, ReadyKey(job.kind), id)),
             Floor(f.jobs[id := job], f.held, f.at[id := On(ReadyKey(job.kind))]))
  {
    var job := Rescued(f.jobs[id], now);
    assert Agrees(f.jobs[id], f.at[id]) && job.id == id;
    PushKept(c, f, cfg, job, now, ReadyKey(job.kind));
    RescuedIsMoved(f, job);
  }

  lemma RescueJobKept(w: World, cfg: Config, id: JobId, now: int, threshold: int)
    requires Kept(w) && Unexpired(w.c, now) && OnlyTheDeadAreStuck(w.floor, threshold, now)
    ensures Kept(RescueJob(w, cfg, id, now, threshold))
    ensures Unexpired(RescueJob(w, cfg, id, now, threshold).c, now)
  {
    if JobKey(id) in w.c.kv && Stuck(JobAt(w.c, id), now, threshold) {
      assert Live(w.c, JobKey(id), now);
      assert w.floor.jobs[id] == JobAt(w.c, id);
      HeldAsStored(w.c, w.floor, id);
      RescueStuckKept(w.c, w.floor, cfg, id, now);
    }
  }

  lemma {:induction false} RescueKept(w: World, cfg: Config, keys: seq<Key>, now: int, threshold: int)
    requires Kept(w) && Unexpired(w.c, now) && OnlyTheDeadAreStuck(w.floor, threshold, now)
    requires forall k | k in keys :: k.JobKey?
    ensures Kept(AfterRescueOf(w, cfg, keys, now, threshold))
    decreases |keys|
  {
    if keys != [] {
      RescueJobKept(w, cfg, keys[0].id, now, threshold);
      RescueKept(RescueJob(w, cfg, keys[0].id, now, threshold), cfg, keys[1..], now, threshold);
    }
  }

  predicate IsStale(job: Job, now: int, threshold: int) {
    job.status == Processing && job.updatedAt + threshold <= now
  }

  lemma RescueOneMeans(c: Contents, cfg: Config, taken: JobId, id: JobId, now: int, threshold: int)
    requires JobsStored(c) && Unexpired(c, now) && JobKey(id) in c.kv
    ensures var d := RescueOne(c, cfg, taken, now, threshold);
      && JobsStored(d) && Unexpired(d, now) && JobKey(id) in d.kv
      && JobAt(d, id) ==
        (if taken == id && IsStale(JobAt(c, id), now, threshold)
         then JobAt(c, id).(status := Pending, runAt := now, updatedAt := now) else JobAt(c, id))
      && (forall k :: ListAt(c.lines, k) <= ListAt(d.lines, k))
      && (taken == id && IsStale(JobAt(c, id), now, threshold) ==> id in ListAt(d.lines, ReadyKey(JobAt(c, id).kind)))
  {
  }

  /** A scan puts each stale job it meets back in its ready list as pending from now
      on, and leaves the text of every other job alone. */
  lemma {:induction false} RescueMeans(c: Contents, cfg: Config, keys: seq<Key>, id: JobId, now: int, threshold: int)
    requires JobsStored(c) && Unexpired(c, now) && JobKey(id) in c.kv && (forall k | k in keys :: k.JobKey?)
    ensures var d := AfterRescue(c, cfg, keys, now, threshold);
      var freed := JobKey(id) in keys && IsStale(JobAt(c, id), now, threshold);
      && JobKey(id) in d.kv
      && JobAt(d, id) ==
        (if freed then JobAt(c, id).(status := Pending, runAt := now, updatedAt := now) else JobAt(c, id))
      && (freed ==> id in ListAt(d.lines, ReadyKey(JobAt(c, id).kind)))
      && (forall k :: ListAt(c.lines, k) <= ListAt(d.lines, k))
    decreases |keys|
  {
    if keys != [] {
      var d := RescueOne(c, cfg, keys[0].id, now, threshold);
      RescueOneMeans(c, cfg, keys[0].id, id, now, threshold);
      RescueMeans(d, cfg, keys[1..], id, now, threshold);
    }
  }

  ghost function StaleIn(c: Contents, keys: seq<Key>, now: int, threshold: int): set<Key>
    requires JobsStored(c) && forall k | k in keys :: k.JobKey?
  {
    set k | k in keys && k in c.kv && IsStale(JobAt(c, k.id), now, threshold)
  }

  lemma StaleAfterOne(c: Contents, cfg: Config, keys: seq<Key>, now: int, threshold: int)
    requires JobsStored(c) && Unexpired(c, now) && keys != [] && Distinct(keys) && (forall k | k in keys :: k.JobKey?)
    ensures var d := RescueOne(c, cfg, keys[0].id, now, threshold);
      && JobsStored(d) && Unexpired(d, now)
      && StaleIn(d, keys[1..], now, threshold) == StaleIn(c, keys, now, threshold) - {keys[0]}
  {
    var d := RescueOne(c, cfg, keys[0].id, now, threshold);
    assert keys == [keys[0]] + keys[1..] && keys[0] !in keys[1..];
    forall k | k in keys[1..] && k in c.kv ensures JobAt(d, k.id) == JobAt(c, k.id) {
      RescueOneMeans(c, cfg, keys[0].id, k.id, now, threshold);
    }
    assert d.kv.Keys == c.kv.Keys;
  }

  /** The scan reports how many jobs it freed. */
  lemma {:induction false} RescueCountsTheFreed(c: Contents, cfg: Config, keys: seq<Key>, now: int, threshold: int)
    requires JobsStored(c) && Unexpired(c, now) && Distinct(keys) && (forall k | k in keys :: k.JobKey?)
    ensures RescueCount(c, cfg, keys, now, threshold) == |StaleIn(c, keys, now, threshold)|
    decreases |keys|
  {
    if keys == [] {
      assert StaleIn(c, keys, now, threshold) == {};
    } else {
      StaleAfterOne(c, cfg, keys, now, threshold);
      RescueCountsTheFreed(RescueOne(c, cfg, keys[0].id, now, threshold), cfg, keys[1..], now, threshold);
      assert keys[0] in StaleIn(c, keys, now, threshold) <==>
        Live(c, keys[0], now) && Stuck(JobAt(c, keys[0].id), now, threshold);
    }
  }

  /** A rescue keeps every job in one place exactly when every job it takes had lost
      its worker: a live worker slower than the threshold has its job started again. */
  lemma {:induction false} RescueIsSafeExactlyForLostJobs(w: World, cfg: Config, now: int, threshold: int)
    requires Kept(w) && Unexpired(w.c, now)
    ensures Kept(AfterRescueOf(w, cfg, OnlyJobs(w.c.order), now, threshold)) <==>
      OnlyTheDeadAreStuck(w.floor, threshold, now)
  {
    var v := AfterRescueOf(w, cfg, OnlyJobs(w.c.order), now, threshold);
    if OnlyTheDeadAreStuck(w.floor, threshold, now) {
      RescueKept(w, cfg, OnlyJobs(w.c.order), now, threshold);
    } else {
      var id :| id in w.floor.held && Stuck(w.floor.held[id], now, threshold);
      HeldAsStored(w.c, w.floor, id);
      RescueMeans(w.c, cfg, OnlyJobs(w.c.order), id, now, threshold);
      if Kept(v) { HeldAsStored(v.c, v.floor, id); }
    }
  }

  // ---------------------------------------------------------------- every step, every run

  function Next(w: World, cfg: Config, workers: nat, s: Step): World
    requires JobsStored(w.c) && Enabled(w, workers, s)
  {
    var f := w.floor;
    match s
    case Enqueue(id, kind, maxAttempts, runAt, key, now) =>
      if Full(w.c, cfg, kind) then w else AfterAccept(w, cfg, NewJob(id, kind, maxAttempts, runAt, key, now), now)
    case Replay(dead, id, now) => AfterRevival(w, cfg, Revived(f.jobs[dead], id, now), now)
    case Retire(id) =>
      w.(c := w.c.(lines := Removed(w.c.lines, DeadKey(f.jobs[id].kind), id)), floor := Moved(f, f.jobs[id], Retired))
    case Promote(kind, now) =>
      w.(c := w.c.(lines := AfterPromote(w.c.lines, kind, now)),
         floor := PromotedFloor(f, kind, Due(w.c.lines, kind, now)))
    case Take(kind, now) => AfterTake(w, cfg, kind, now)
    case Complete(id, now) =>
      var job := Finished(f.held[id], now);
      w.(c := Saved(w.c, cfg, job, now), floor := Moved(f, job, Done))
    case Fail(id, delay, now) => AfterFailure(w, cfg, Failed(f.held[id], delay, now), now)
    case Bury(id, now) => AfterFailure(w, cfg, Buried(f.held[id], now), now)
    case Crash(id) => w.(floor := Moved(f, f.held[id], Lost), crashes := w.crashes + 1)
    case Rescue(threshold, now) => AfterRescueOf(w, cfg, OnlyJobs(w.c.order), now, threshold)
  }

  function AfterAccept(w: World, cfg: Config, job: Job, now: int): World {
    w.(c := AfterEnqueue(w.c, cfg, job, now),
       floor := Moved(w.floor, job, On(if job.runAt > now then DelayedKey(job.kind) else ReadyKey(job.kind))))
  }

  function AfterRevival(w: World, cfg: Config, job: Job, now: int): World {
    w.(c := AfterReplay(w.c, cfg, job, now), floor := Moved(w.floor, job, On(ReadyKey(job.kind))),
       replays := w.replays + 1)
  }

  function AfterFailure(w: World, cfg: Config, job: Job, now: int): World {
    w.(c := AfterFail(w.c, cfg, job, now),
       floor := Moved(w.floor, job, On(if job.status == Dead then DeadKey(job.kind) else DelayedKey(job.kind))))
  }

  lemma FailureKept(w: World, cfg: Config, job: Job, now: int)
    requires Kept(w) && IsAt(w.floor, job.id, Held) && job.status in {Pending, Dead}
    ensures Kept(AfterFailure(w, cfg, job, now))
  {
    if job.status == Dead {
      PushKept(w.c, w.floor, cfg, job, now, DeadKey(job.kind));
    } else {
      DelayKept(w.c, w.floor, cfg, job, now);
    }
  }

  lemma EnqueueKept(w: World, cfg: Config, job: Job, now: int)
    requires Kept(w) && job.id !in w.floor.jobs && job.status == Pending
    ensures Kept(AfterAccept(w, cfg, job, now))
  {
    if job.runAt > now {
      DelayKept(w.c, w.floor, cfg, job, now);
    } else {
      PushKept(w.c, w.floor, cfg, job, now, ReadyKey(job.kind));
    }
  }

  lemma CrashKept(w: World, id: JobId)
    requires Kept(w) && id in w.floor.held
    ensures Kept(w.(floor := Moved(w.floor, w.floor.held[id], Lost)))
  {
    HeldAsStored(w.c, w.floor, id);
    UnlistedMoveCounted(w.floor, CountsOf(w.c.lines), w.floor.jobs[id], Lost);
    RelistedKept(w.c, w.floor, id, Lost, w.c.lines);
  }

  /** A worker is done with the job it holds, one way or another. */
  lemma LetGoKept(w: World, cfg: Config, id: JobId, delay: nat, now: int)
    requires Kept(w) && id in w.floor.held
    ensures Kept(w.(c := Saved(w.c, cfg, Finished(w.floor.held[id], now), now),
                    floor := Moved(w.floor, Finished(w.floor.held[id], now), Done)))
    ensures Kept(AfterFailure(w, cfg, Failed(w.floor.held[id], delay, now), now))
    ensures Kept(AfterFailure(w, cfg, Buried(w.floor.held[id], now), now))
  {
    HeldAsStored(w.c, w.floor, id);
    SaveKept(w.c, w.floor, cfg, Finished(w.floor.held[id], now), now, Done);
    FailureKept(w, cfg, Failed(w.floor.held[id], delay, now), now);
    FailureKept(w, cfg, Buried(w.floor.held[id], now), now);
  }

  lemma ReplayKept(w: World, cfg: Config, job: Job, now: int)
    requires Kept(w) && job.id !in w.floor.jobs && job.status == Pending
    ensures Kept(AfterRevival(w, cfg, job, now))
  {
    PushKept(w.c, w.floor, cfg, job, now, ReadyKey(job.kind));
  }

  predicate ByWorker(s: Step) { s.Take? || s.Complete? || s.Fail? || s.Bury? || s.Crash? }

  lemma WorkerStepKept(w: World, cfg: Config, workers: nat, s: Step)
    requires Kept(w) && Enabled(w, workers, s) && ByWorker(s)
    ensures Kept(Next(w, cfg, workers, s))
  {
    match s
    case Take(kind, now) => TakeKept(w, cfg, kind, now);
    case Complete(id, now) => LetGoKept(w, cfg, id, 0, now);
    case Fail(id, delay, now) => LetGoKept(w, cfg, id, delay, now);
    case Bury(id, now) => LetGoKept(w, cfg, id, 0, now);
    case Crash(id) => CrashKept(w, id);
  }

  lemma ProducerStepKept(w: World, cfg: Config, workers: nat, s: Step)
    requires Kept(w) && Enabled(w, workers, s) && (s.Enqueue? || s.Replay?)
    ensures Kept(Next(w, cfg, workers, s))
  {
    match s
    case Enqueue(id, kind, maxAttempts, runAt, key, now) =>
      EnqueueKept(w, cfg, NewJob(id, kind, maxAttempts, runAt, key, now), now);
    case Replay(dead, id, now) => ReplayKept(w, cfg, Revived(w.floor.jobs[dead], id, now), now);
  }

  lemma UpkeepStepKept(w: World, cfg: Config, workers: nat, s: Step)
    requires Kept(w) && Enabled(w, workers, s) && (s.Retire? || s.Promote? || s.Rescue?)
    ensures Kept(Next(w, cfg, workers, s))
  {
    match s
    case Retire(id) => RetireKept(w.c, w.floor, id);
    case Promote(kind, now) => PromotionKept(w.c, w.floor, kind, now);
    case Rescue(threshold, now) => RescueKept(w, cfg, OnlyJobs(w.c.order), now, threshold);
  }

  /** Every step leaves every job in one place, with the status that names it. */
  lemma StepKept(w: World, cfg: Config, workers: nat, s: Step)
    requires Kept(w) && Enabled(w, workers, s)
    ensures Kept(Next(w, cfg, workers, s))
  {
    if ByWorker(s) {
      WorkerStepKept(w, cfg, workers, s);
    } else if s.Enqueue? || s.Replay? {
      ProducerStepKept(w, cfg, workers, s);
    } else {
      UpkeepStepKept(w, cfg, workers, s);
    }
  }

  // ---------------------------------------------------------------- nothing runs before its time

  /** The step that may take a job out of the delayed set: a promotion, or a dequeue,
      of its type and not before its time. */
  predicate MayPromote(s: Step, kind: JobType, due: int) {
    (s.Promote? || s.Take?) && s.kind == kind && due <= s.now
  }

  lemma {:induction false} RescueKeepsWaiting(w: World, cfg: Config, keys: seq<Key>, now: int, threshold: int)
    requires JobsStored(w.c) && forall k | k in keys :: k.JobKey?
    ensures AfterRescueOf(w, cfg, keys, now, threshold).c.lines.zsets == w.c.lines.zsets
    decreases |keys|
  {
    if keys != [] {
      RescueKeepsWaiting(RescueJob(w, cfg, keys[0].id, now, threshold), cfg, keys[1..], now, threshold);
    }
  }

  lemma WaitingIsListed(w: World, kind: JobType, id: JobId, due: int)
    requires Kept(w) && Waits(w.c, kind, id, due)
    ensures id in w.floor.jobs && id !in w.floor.held
  {
    AMember(SetAt(w.c.lines, DelayedKey(kind)), Scored(id, due));
    CountsAt(w.c.lines, w.floor, DelayedKey(kind), id);
    HeldAsStored(w.c, w.floor, id);
  }

  lemma LetGoKeepsWaiting(w: World, cfg: Config, job: Job, now: int, kind: JobType, id: JobId, due: int)
    requires Waits(w.c, kind, id, due) && job.id != id
    ensures Waits(AfterFailure(w, cfg, job, now).c, kind, id, due)
    ensures Waits(AfterAccept(w, cfg, job, now).c, kind, id, due)
  {
  }

  lemma EnqueueKeepsWaiting(w: World, cfg: Config, workers: nat, s: Step, kind: JobType, id: JobId, due: int)
    requires Kept(w) && Enabled(w, workers, s) && Waits(w.c, kind, id, due) && s.Enqueue?
    ensures Waits(Next(w, cfg, workers, s).c, kind, id, due)
  {
    WaitingIsListed(w, kind, id, due);
    LetGoKeepsWaiting(w, cfg, NewJob(s.id, s.kind, s.maxAttempts, s.runAt, s.key, s.now), s.now, kind, id, due);
  }

  lemma FailureKeepsWaiting(w: World, cfg: Config, workers: nat, s: Step, kind: JobType, id: JobId, due: int)
    requires Kept(w) && Enabled(w, workers, s) && Waits(w.c, kind, id, due) && (s.Fail? || s.Bury?)
    ensures Waits(Next(w, cfg, workers, s).c, kind, id, due)
  {
    WaitingIsListed(w, kind, id, due);
    HeldAsStored(w.c, w.floor, s.id);
    var job := w.floor.held[s.id];
    var after := if s.Fail? then Failed(job, s.delay, s.now) else Buried(job, s.now);
    LetGoKeepsWaiting(w, cfg, after, s.now, kind, id, due);
  }

  lemma TakeIsDequeue(w: World, cfg: Config, kind: JobType, now: int)
    requires JobsStored(w.c) && JobsStored(BeforePop(w.c, kind, now))
    ensures AfterTake(w, cfg, kind, now).c == TakeFirst(BeforePop(w.c, kind, now), cfg, kind, now).0
  {
  }

  lemma TakeKeepsWaiting(w: World, cfg: Config, taken: JobType, now: int, kind: JobType, id: JobId, due: int)
    requires Kept(w) && Waits(w.c, kind, id, due) && (taken == kind ==> now < due)
    ensures Waits(AfterTake(w, cfg, taken, now).c, kind, id, due)
  {
    PromotionKeepsWaiting(w.c, w.floor, kind, id, due, taken, now);
    BeforePopKept(w, taken, now);
    TakeIsDequeue(w, cfg, taken, now);
    HeadIsTaken(BeforePop(w.c, taken, now), cfg, taken, now);
  }

  /** Whatever step comes next, a delayed job stays where it is, under the time it was
      given, unless the step may promote it. */
  lemma DelayedUntilDue(w: World, cfg: Config, workers: nat, s: Step, kind: JobType, id: JobId, due: int)
    requires Kept(w) && Enabled(w, workers, s) && Waits(w.c, kind, id, due) && !MayPromote(s, kind, due)
    ensures Waits(Next(w, cfg, workers, s).c, kind, id, due)
  {
    if s.Enqueue? {
      EnqueueKeepsWaiting(w, cfg, workers, s, kind, id, due);
    } else if s.Fail? || s.Bury? {
      FailureKeepsWaiting(w, cfg, workers, s, kind, id, due);
    } else if s.Promote? {
      PromotionKeepsWaiting(w.c, w.floor, kind, id, due, s.kind, s.now);
    } else if s.Take? {
      TakeKeepsWaiting(w, cfg, s.kind, s.now, kind, id, due);
    } else if s.Rescue? {
      RescueKeepsWaiting(w, cfg, OnlyJobs(w.c.order), s.now, s.threshold);
    }
  }
}
