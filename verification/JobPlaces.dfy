/** Where each job of the queue is: `at` names the one place of every job ever
    issued, and `n(key, id)` counts its occurrences in a list or scored set. */
module JobPlaces {
  import opened Wrappers
  import opened WorkerTypes

  /** `On(key)`: in the list or scored set of that key; `Held`: with a worker;
      `Lost`: with a worker that died; `Retired`: taken off the dead list. */
  datatype Place = On(key: Key) | Held | Lost | Retired | Done

  type Counts = (Key, JobId) -> nat

  datatype Floor = Floor(jobs: map<JobId, Job>, held: map<JobId, Job>, at: map<JobId, Place>)

  predicate Agrees(job: Job, p: Place) {
    match job.status
    case Pending => p == On(ReadyKey(job.kind)) || p == On(DelayedKey(job.kind))
    case Processing => p == Held || p == Lost
    case Completed => p == Done
    case Dead => p == On(DeadKey(job.kind)) || p == Retired
  }

  predicate IsAt(f: Floor, id: JobId, p: Place) { id in f.at && f.at[id] == p }

  /** Each job occurs once at its place and nowhere else. */
  ghost predicate Counted(f: Floor, n: Counts) {
    forall key, id :: n(key, id) == One(IsAt(f, id, On(key)))
  }

  /** A job's status names its place, and a worker sees the job as it is stored. */
  ghost predicate Tidy(f: Floor) {
    && f.at.Keys == f.jobs.Keys
    && (forall id | id in f.jobs :: f.jobs[id].id == id && Agrees(f.jobs[id], f.at[id]))
    && (forall id :: id in f.held <==> IsAt(f, id, Held))
    && (forall id | id in f.held :: f.held[id] == f.jobs[id])
  }

  function Moved(f: Floor, job: Job, p: Place): Floor {
    Floor(f.jobs[job.id := job], if p == Held then f.held[job.id := job] else f.held - {job.id}, f.at[job.id := p])
  }

  lemma MoveKeepsTidy(f: Floor, job: Job, p: Place)
    requires Tidy(f) && Agrees(job, p)
    ensures Tidy(Moved(f, job, p))
  {
  }

  // ---------------------------------------------------------------- what a move does to the counts

  /** One more occurrence of `id` under `key`, and no other change. */
  ghost predicate Gains(n: Counts, m: Counts, key: Key, id: JobId) {
    forall k, i :: m(k, i) == n(k, i) + One(k == key && i == id)
  }

  /** All occurrences of `id` under `key` gone, and no other change. */
  ghost predicate Clears(n: Counts, m: Counts, key: Key, id: JobId) {
    forall k, i :: m(k, i) == if k == key && i == id then 0 else n(k, i)
  }

  predicate Unlisted(f: Floor, id: JobId) { id in f.at ==> !f.at[id].On? }

  lemma ArrivalCounted(f: Floor, n: Counts, m: Counts, job: Job, key: Key)
    requires Counted(f, n) && Unlisted(f, job.id) && Gains(n, m, key, job.id)
    ensures Counted(Moved(f, job, On(key)), m)
  {
  }

  lemma DepartureCounted(f: Floor, n: Counts, m: Counts, job: Job, key: Key, p: Place)
    requires Counted(f, n) && IsAt(f, job.id, On(key)) && Clears(n, m, key, job.id) && !p.On?
    ensures Counted(Moved(f, job, p), m)
  {
  }

  lemma UnlistedMoveCounted(f: Floor, n: Counts, job: Job, p: Place)
    requires Counted(f, n) && Unlisted(f, job.id) && !p.On?
    ensures Counted(Moved(f, job, p), n)
  {
  }

  /** From one list straight to another. */
  lemma TransferCounted(f: Floor, n: Counts, l: Counts, m: Counts, job: Job, source: Key, target: Key)
    requires Counted(f, n) && IsAt(f, job.id, On(source))
    requires Clears(n, l, source, job.id) && Gains(l, m, target, job.id)
    ensures Counted(Moved(f, job, On(target)), m)
  {
  }
}
