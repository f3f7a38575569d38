/** Job conservation: over every run of producers, workers, crashes, rescues and
    dead-letter replays, each job ever accepted is in exactly one place. Here is
    what one job's move does to the store; JobRuns puts the moves together. */
module JobConservation {
  import opened Wrappers
  import opened WorkerTypes
  import opened Lists
  import opened MemoryStore
  import opened JobQueue
  import opened JobPlaces

  function Occurrences(l: Lines, key: Key, id: JobId): nat {
    if key.DelayedKey? then Times(Members(SetAt(l, key)), id) else Times(ListAt(l, key), id)
  }

  function CountsOf(l: Lines): Counts { (key, id) => Occurrences(l, key, id) }

  /** The job table of the proof is what the job keys of the store hold. */
  ghost predicate Mirrors(c: Contents, f: Floor) {
    && (forall id :: id in f.jobs <==> JobKey(id) in c.kv)
    && (forall id | id in f.jobs :: c.kv[JobKey(id)].value == JobText(f.jobs[id]) && JobKey(id) in c.order)
  }

  ghost predicate KeptIn(c: Contents, f: Floor) { Mirrors(c, f) && Counted(f, CountsOf(c.lines)) && Tidy(f) }

  lemma KeptIsStored(c: Contents, f: Floor)
    requires Mirrors(c, f) && Tidy(f)
    ensures JobsStored(c)
  {
  }

  lemma CountsAt(l: Lines, f: Floor, key: Key, id: JobId)
    requires Counted(f, CountsOf(l))
    ensures Occurrences(l, key, id) == One(IsAt(f, id, On(key)))
  {
  }

  /** A job is in one place and one place only, and its stored status says which. */
  ghost predicate InOnePlace(c: Contents, f: Floor, id: JobId)
    requires id in f.jobs
  {
    var job, l := f.jobs[id], c.lines;
    && JobKey(id) in c.kv && c.kv[JobKey(id)].value == JobText(job)
    && Occurrences(l, ReadyKey(job.kind), id) + Occurrences(l, DelayedKey(job.kind), id) == One(job.status == Pending)
    && Occurrences(l, DeadKey(job.kind), id) + One(IsAt(f, id, Retired)) == One(job.status == Dead)
    && One(id in f.held) + One(IsAt(f, id, Lost)) == One(job.status == Processing)
    && (forall key | key !in [ReadyKey(job.kind), DelayedKey(job.kind), DeadKey(job.kind)] ::
        Occurrences(l, key, id) == 0)
  }

  lemma ExactlyOnePlace(c: Contents, f: Floor, id: JobId)
    requires KeptIn(c, f) && id in f.jobs
    ensures InOnePlace(c, f, id)
  {
    var job, l := f.jobs[id], c.lines;
    assert Agrees(job, f.at[id]);
    CountsAt(l, f, ReadyKey(job.kind), id);
    CountsAt(l, f, DelayedKey(job.kind), id);
    CountsAt(l, f, DeadKey(job.kind), id);
    forall key | key !in [ReadyKey(job.kind), DelayedKey(job.kind), DeadKey(job.kind)]
      ensures Occurrences(l, key, id) == 0
    {
      CountsAt(l, f, key, id);
    }
  }

  // ---------------------------------------------------------------- what the store calls do to the counts

  lemma PushGains(l: Lines, key: Key, id: JobId)
    requires !key.DelayedKey?
    ensures Gains(CountsOf(l), CountsOf(Pushed(l, key, id)), key, id)
  {
    var m := Pushed(l, key, id);
    forall k, i ensures Occurrences(m, k, i) == Occurrences(l, k, i) + One(k == key && i == id) {
      TimesAppend(ListAt(l, key), id, i);
    }
  }

  lemma PopClears(l: Lines, key: Key)
    requires !key.DelayedKey? && ListAt(l, key) != [] && Occurrences(l, key, ListAt(l, key)[0]) == 1
    ensures Clears(CountsOf(l), CountsOf(Popped(l, key)), key, ListAt(l, key)[0])
  {
  }

  lemma RemoveClears(l: Lines, key: Key, id: JobId)
    requires !key.DelayedKey?
    ensures Clears(CountsOf(l), CountsOf(Removed(l, key, id)), key, id)
  {
    var m := Removed(l, key, id);
    forall k, i ensures Occurrences(m, k, i) == if k == key && i == id then 0 else Occurrences(l, k, i) {
      TimesWithout(ListAt(l, key), id, i);
    }
  }

  lemma {:induction false} RescoredNew(z: seq<Scored>, x: Scored)
    requires Times(Members(z), x.member) == 0
    ensures Members(Rescored(z, x)) == Members(z) + [x.member]
  {
    NotAMember(Members(z), x.member);
  }

  lemma {:induction false} DelayCount(l: Lines, key: Key, x: Scored, i: JobId)
    requires key.DelayedKey? && Times(Members(SetAt(l, key)), x.member) == 0
    ensures Times(Members(SetAt(ScoredIn(l, key, x), key)), i) == Times(Members(SetAt(l, key)), i) + One(i == x.member)
  {
    RescoredNew(SetAt(l, key), x);
    TimesAppend(Members(SetAt(l, key)), x.member, i);
  }

  lemma DelayGains(l: Lines, key: Key, x: Scored)
    requires key.DelayedKey? && Occurrences(l, key, x.member) == 0
    ensures Gains(CountsOf(l), CountsOf(ScoredIn(l, key, x)), key, x.member)
  {
    var m := ScoredIn(l, key, x);
    forall k, i ensures CountsOf(m)(k, i) == CountsOf(l)(k, i) + One(k == key && i == x.member) {
      DelayCount(l, key, x, i);
      if k != key { assert SetAt(m, k) == SetAt(l, k) && ListAt(m, k) == ListAt(l, k); }
    }
  }

  lemma {:induction false} UndelayCount(l: Lines, key: Key, id: JobId, i: JobId)
    requires key.DelayedKey?
    ensures Times(Members(SetAt(ScoredOut(l, key, id), key)), i) ==
      if i == id then 0 else Times(Members(SetAt(l, key)), i)
  {
    assert Members(SetAt(ScoredOut(l, key, id), key)) == Without(Members(SetAt(l, key)), id);
    TimesWithout(Members(SetAt(l, key)), id, i);
  }

  lemma UndelayClears(l: Lines, key: Key, id: JobId)
    requires key.DelayedKey?
    ensures Clears(CountsOf(l), CountsOf(ScoredOut(l, key, id)), key, id)
  {
    var m := ScoredOut(l, key, id);
    forall k, i ensures CountsOf(m)(k, i) == if k == key && i == id then 0 else CountsOf(l)(k, i) {
      UndelayCount(l, key, id, i);
      if k != key { assert SetAt(m, k) == SetAt(l, k) && ListAt(m, k) == ListAt(l, k); }
    }
  }

  /** What is due is in the set, and no more often than in the set. */
  lemma {:induction false} DueWithin(z: seq<Scored>, now: int, id: JobId)
    ensures Times(RangeByScore(z, 0, now), id) <= Times(Members(z), id)
  {
    SortingKeepsMembers(Within(z, 0, now), id);
    WithinMembers(z, now, id);
  }

  lemma {:induction false} SortingKeepsMembers(z: seq<Scored>, id: JobId)
    ensures Times(Members(SortByScore(z)), id) == Times(Members(z), id)
  {
    if z != [] {
      SortingKeepsMembers(z[1..], id);
      InsertedMembers(z[0], SortByScore(z[1..]), id);
    }
  }

  lemma {:induction false} InsertedMembers(x: Scored, sorted: seq<Scored>, id: JobId)
    ensures Times(Members(Inserted(x, sorted)), id) == Times(Members(sorted), id) + One(x.member == id)
  {
    if sorted == [] || x.score <= sorted[0].score {
      assert ([x] + sorted)[1..] == sorted;
    } else {
      InsertedMembers(x, sorted[1..], id);
      assert ([sorted[0]] + Inserted(x, sorted[1..]))[1..] == Inserted(x, sorted[1..]);
    }
  }

  lemma {:induction false} WithinMembers(z: seq<Scored>, now: int, id: JobId)
    ensures Times(Members(Within(z, 0, now)), id) <= Times(Members(z), id)
  {
    if z != [] {
      WithinMembers(z[1..], now, id);
      assert ([z[0]] + Within(z[1..], 0, now))[1..] == Within(z[1..], 0, now);
    }
  }

  // ---------------------------------------------------------------- one job moves

  lemma SavedMirrors(c: Contents, f: Floor, cfg: Config, job: Job, now: int, p: Place, l: Lines)
    requires Mirrors(c, f)
    ensures Mirrors(Saved(c, cfg, job, now).(lines := l), Moved(f, job, p))
  {
  }

  lemma UnlistedTimes(l: Lines, f: Floor, id: JobId, key: Key)
    requires Counted(f, CountsOf(l)) && Unlisted(f, id)
    ensures Occurrences(l, key, id) == 0
  {
    CountsAt(l, f, key, id);
  }

  /** A job that is in no list is saved and pushed to the list its status names. */
  lemma PushKept(c: Contents, f: Floor, cfg: Config, job: Job, now: int, key: Key)
    requires KeptIn(c, f) && !key.DelayedKey? && Agrees(job, On(key)) && Unlisted(f, job.id)
    ensures KeptIn(Saved(c, cfg, job, now).(lines := Pushed(c.lines, key, job.id)), Moved(f, job, On(key)))
  {
    var l := Pushed(c.lines, key, job.id);
    PushGains(c.lines, key, job.id);
    ArrivalCounted(f, CountsOf(c.lines), CountsOf(l), job, key);
    MoveKeepsTidy(f, job, On(key));
    SavedMirrors(c, f, cfg, job, now, On(key), l);
  }

  /** A job that is in no list is saved and delayed. */
  lemma DelayKept(c: Contents, f: Floor, cfg: Config, job: Job, now: int)
    requires KeptIn(c, f) && job.status == Pending && Unlisted(f, job.id)
    ensures var key := DelayedKey(job.kind);
      KeptIn(
        Saved(c, cfg, job, now).(lines := ScoredIn(c.lines, key, Scored(job.id, job.runAt))), Moved(f, job, On(key)))
  {
    var key, x := DelayedKey(job.kind), Scored(job.id, job.runAt);
    var l := ScoredIn(c.lines, key, x);
    UnlistedTimes(c.lines, f, job.id, key);
    DelayGains(c.lines, key, x);
    ArrivalCounted(f, CountsOf(c.lines), CountsOf(l), job, key);
    MoveKeepsTidy(f, job, On(key));
    SavedMirrors(c, f, cfg, job, now, On(key), l);
  }

  /** A job that is in no list is saved and stays in none. */
  lemma SaveKept(c: Contents, f: Floor, cfg: Config, job: Job, now: int, p: Place)
    requires KeptIn(c, f) && !p.On? && Agrees(job, p) && Unlisted(f, job.id)
    ensures KeptIn(Saved(c, cfg, job, now), Moved(f, job, p))
  {
    UnlistedMoveCounted(f, CountsOf(c.lines), job, p);
    MoveKeepsTidy(f, job, p);
    SavedMirrors(c, f, cfg, job, now, p, c.lines);
  }

  /** A job changes lists only: its text stays as it is stored. */
  lemma RelistedKept(c: Contents, f: Floor, id: JobId, p: Place, l: Lines)
    requires KeptIn(c, f) && id in f.jobs && Agrees(f.jobs[id], p)
    requires Counted(Moved(f, f.jobs[id], p), CountsOf(l))
    ensures KeptIn(c.(lines := l), Moved(f, f.jobs[id], p))
  {
    MoveKeepsTidy(f, f.jobs[id], p);
  }

  lemma RetireKept(c: Contents, f: Floor, id: JobId)
    requires KeptIn(c, f) && id in f.jobs && IsAt(f, id, On(DeadKey(f.jobs[id].kind)))
    ensures KeptIn(c.(lines := Removed(c.lines, DeadKey(f.jobs[id].kind), id)), Moved(f, f.jobs[id], Retired))
  {
    var key := DeadKey(f.jobs[id].kind);
    var l := Removed(c.lines, key, id);
    RemoveClears(c.lines, key, id);
    DepartureCounted(f, CountsOf(c.lines), CountsOf(l), f.jobs[id], key, Retired);
    assert Agrees(f.jobs[id], f.at[id]);
    RelistedKept(c, f, id, Retired, l);
  }

  lemma TransferKept(c: Contents, f: Floor, id: JobId, source: Key, out: Lines, target: Key, l: Lines)
    requires KeptIn(c, f) && id in f.jobs && IsAt(f, id, On(source)) && Agrees(f.jobs[id], On(target))
    requires Clears(CountsOf(c.lines), CountsOf(out), source, id) && Gains(CountsOf(out), CountsOf(l), target, id)
    ensures KeptIn(c.(lines := l), Moved(f, f.jobs[id], On(target)))
  {
    TransferCounted(f, CountsOf(c.lines), CountsOf(out), CountsOf(l), f.jobs[id], source, target);
    RelistedKept(c, f, id, On(target), l);
  }

  lemma PromoteOneKept(c: Contents, f: Floor, kind: JobType, id: JobId)
    requires KeptIn(c, f) && id in f.jobs && IsAt(f, id, On(DelayedKey(kind)))
    ensures KeptIn(c.(lines := Pushed(ScoredOut(c.lines, DelayedKey(kind), id), ReadyKey(kind), id)),
                   Moved(f, f.jobs[id], On(ReadyKey(kind))))
  {
    var out := ScoredOut(c.lines, DelayedKey(kind), id);
    UndelayClears(c.lines, DelayedKey(kind), id);
    PushGains(out, ReadyKey(kind), id);
    assert Agrees(f.jobs[id], f.at[id]);
    TransferKept(c, f, id, DelayedKey(kind), out, ReadyKey(kind), Pushed(out, ReadyKey(kind), id));
  }

  lemma FirstReadyAt(c: Contents, f: Floor, kind: JobType)
    requires KeptIn(c, f) && ListAt(c.lines, ReadyKey(kind)) != []
    ensures var id := ListAt(c.lines, ReadyKey(kind))[0];
      IsAt(f, id, On(ReadyKey(kind))) && id in f.jobs && f.jobs[id].status == Pending && f.jobs[id].kind == kind
      && f.jobs[id].id == id && c.kv[JobKey(id)].value == JobText(f.jobs[id])
  {
  }

  /** A job leaves its list and is saved with the status of a place that is no list. */
  lemma DepartKept(c: Contents, f: Floor, cfg: Config, job: Job, now: int, key: Key, l: Lines, p: Place)
    requires KeptIn(c, f) && IsAt(f, job.id, On(key)) && Agrees(job, p) && !p.On?
    requires Clears(CountsOf(c.lines), CountsOf(l), key, job.id)
    ensures KeptIn(Saved(c, cfg, job, now).(lines := l), Moved(f, job, p))
  {
    DepartureCounted(f, CountsOf(c.lines), CountsOf(l), job, key, p);
    MoveKeepsTidy(f, job, p);
    SavedMirrors(c, f, cfg, job, now, p, l);
  }

  lemma PopKept(c: Contents, f: Floor, cfg: Config, kind: JobType, now: int)
    requires KeptIn(c, f) && JobsStored(c) && ListAt(c.lines, ReadyKey(kind)) != []
    requires Live(c, JobKey(ListAt(c.lines, ReadyKey(kind))[0]), now)
    ensures var id := ListAt(c.lines, ReadyKey(kind))[0];
      && id in f.jobs
      && TakeFirst(c, cfg, kind, now).1 == Some(Started(f.jobs[id], now))
      && KeptIn(TakeFirst(c, cfg, kind, now).0, Moved(f, Started(f.jobs[id], now), Held))
  {
    var key := ReadyKey(kind);
    var id := ListAt(c.lines, key)[0];
    FirstReadyAt(c, f, kind);
    CountsAt(c.lines, f, key, id);
    PopClears(c.lines, key);
    DepartKept(c, f, cfg, Started(f.jobs[id], now), now, key, Popped(c.lines, key), Held);
  }
}
