/** The gateway's and the worker's code over the webhook store, each run alone:
    the enqueue loop, ingestion, and one durable consumer run. */
module WebhookDrivers {
  import opened Wrappers
  import opened WebhookStore
  import opened WebhookIngest
  import opened WebhookEffects

  // ---------------------------------------------------------------- enqueueing

  /** Hands the wanted jobs to the queue, skipping those recorded as enqueued, and
      records the result: marked when all were taken, else the lease is released
      with what did go out. `handed` lists the enqueue calls that succeeded. */
  method EnqueueWebhookEventJobs(
      store: WebhookEventRepository, event: EventRow, only: Option<seq<JobType>>, accepts: JobType -> bool, now: int)
    returns (ok: bool, jobs: seq<JobType>, handed: seq<JobType>)
    requires store.Valid()
    modifies store
    ensures store.Valid()
    ensures store.View() ==
      if ok then AfterMark(old(store.View()), event.id, jobs, now) else AfterRelease(old(store.View()), event.id, jobs)
    ensures forall j :: j in jobs <==> j in event.enqueuedJobs || j in handed
    ensures forall j | j in handed :: accepts(j) && Wants(event, only, j)
    ensures ok <==> forall j | Wants(event, only, j) :: accepts(j)
    ensures ok ==> forall j :: j in handed <==> Wants(event, only, j)
    ensures ok && only == None ==> forall j: JobType :: j in jobs
  {
    ok, jobs, handed := HandOverJobs(event, only, accepts);
    if ok {
      var _ := store.MarkEnqueued(event.id, jobs, now);
    } else {
      store.ReleaseEnqueueLease(event.id, jobs);
    }
  }

  /** The loop over the jobs, stopping at the first the queue refuses. */
  method HandOverJobs(event: EventRow, only: Option<seq<JobType>>, accepts: JobType -> bool)
    returns (ok: bool, done: seq<JobType>, handed: seq<JobType>)
    ensures forall j :: j in done <==> j in event.enqueuedJobs || j in handed
    ensures forall j | j in handed :: accepts(j) && Wants(event, only, j)
    ensures ok <==> forall j | Wants(event, only, j) :: accepts(j)
    ensures ok ==> forall j :: j in handed <==> Wants(event, only, j)
  {
    done, handed := event.enqueuedJobs, [];
    forall j: JobType ensures j in WEBHOOK_JOB_TYPES { EveryJobListed(j); }
    for i := 0 to |WEBHOOK_JOB_TYPES|
      invariant forall j :: j in done <==> j in event.enqueuedJobs || j in handed
      invariant forall j :: j in handed <==> j in WEBHOOK_JOB_TYPES[..i] && Wants(event, only, j)
      invariant forall j | j in handed :: accepts(j)
    {
      var job := WEBHOOK_JOB_TYPES[i];
      OneEach(i);
      if (only.Some? ==> job in only.value) && !(job in done && only == None) {
        if !accepts(job) {
          return false, done, handed;
        }
        handed := handed + [job];
        if job !in done { done := done + [job]; }
      }
    }
    assert WEBHOOK_JOB_TYPES[..|WEBHOOK_JOB_TYPES|] == WEBHOOK_JOB_TYPES;
    return true, done, handed;
  }

  /** The jobs an enqueue run is to hand over. */
  predicate Wants(event: EventRow, only: Option<seq<JobType>>, j: JobType) {
    if only.Some? then j in only.value else j !in event.enqueuedJobs
  }

  lemma OneEach(i: nat)
    requires i < |WEBHOOK_JOB_TYPES|
    ensures WEBHOOK_JOB_TYPES[i] !in WEBHOOK_JOB_TYPES[..i]
    ensures forall j :: j in WEBHOOK_JOB_TYPES[..i + 1] <==> j in WEBHOOK_JOB_TYPES[..i] || j == WEBHOOK_JOB_TYPES[i]
  {
  }

  predicate KnownByIdentity(db: Db, providerId: string, providerEventId: string) {
    exists id | id in db.events :: SameIdentity(db.events[id], providerId, providerEventId)
  }

  /** No other event's row changed, and no consumer's. */
  ghost predicate OnlyTouches(before: Db, after: Db, id: EventId) {
    && after.consumers == before.consumers
    && forall x | x in before.events && x != id :: x in after.events && after.events[x] == before.events[x]
  }

  /** Persist, enqueue, answer. `accepts` is the queue's readiness. */
  method IngestWebhook(
      store: WebhookEventRepository, providerId: string, providerEventId: string, leaseMs: int,
      accepts: JobType -> bool, now: int)
    returns (outcome: Outcome, handed: seq<JobType>)
    requires store.Valid()
    modifies store
    ensures store.Valid()
    ensures outcome == PersistFailed <==> providerId == "" || providerEventId == ""
    ensures outcome == PersistFailed ==> store.View() == old(store.View()) && handed == []
    ensures outcome != PersistFailed ==>
      && outcome.id in store.View().events
      && SameIdentity(store.View().events[outcome.id], providerId, providerEventId)
      && OnlyTouches(old(store.View()), store.View(), outcome.id)
    ensures IsAcknowledged(outcome) ==> store.View().events[outcome.id].enqueuedAt.Some?
    ensures outcome.Accepted? ==>
      && outcome.id !in old(store.View()).events && !KnownByIdentity(old(store.View()), providerId, providerEventId)
      && store.View().events[outcome.id].expectedConsumers == WEBHOOK_CONSUMERS
      && forall j: JobType :: j in handed
    ensures outcome.Recovered? ==>
      && CanLease(old(store.View()), outcome.id, now)
      && forall j: JobType :: j in handed <==> j !in old(store.View()).events[outcome.id].enqueuedJobs
    ensures outcome.DuplicateOf? || outcome.InFlight? ==> handed == [] && store.View() == old(store.View())
    ensures outcome.InFlight? ==>
      outcome.id in store.View().events && store.View().events[outcome.id].enqueuedAt == None
        && !LeaseFree(store.View().events[outcome.id], now)
    ensures outcome.EnqueueFailed? ==>
      && (exists j: JobType :: !accepts(j))
      && store.View().events[outcome.id].enqueueLeaseUntil == None
      && (forall j | j in handed :: j in store.View().events[outcome.id].enqueuedJobs)
  {
    handed := [];
    var claim := store.Claim(providerId, providerEventId, WEBHOOK_CONSUMERS, leaseMs, now);
    if claim.ConstraintViolated? {
      return PersistFailed, [];
    }
    if claim.NewRow? {
      var ok, _, sent := EnqueueWebhookEventJobs(store, claim.event, None, accepts, now);
      return if ok then Accepted(claim.event.id) else EnqueueFailed(claim.event.id), sent;
    }
    if claim.event.enqueuedAt.Some? {
      return DuplicateOf(claim.event.id), [];
    }
    outcome, handed := TakeOver(store, claim.event, leaseMs, accepts, now);
  }

  /** A known event that was never fully enqueued: take the enqueue over unless somebody
      holds its lease. */
  method TakeOver(
      store: WebhookEventRepository, existing: EventRow, leaseMs: int, accepts: JobType -> bool, now: int)
    returns (outcome: Outcome, handed: seq<JobType>)
    requires store.Valid() && existing.id in store.View().events && store.View().events[existing.id] == existing
    requires existing.enqueuedAt == None
    modifies store
    ensures store.Valid() && OnlyTouches(old(store.View()), store.View(), existing.id)
    ensures existing.id in store.View().events
    ensures SameIdentity(store.View().events[existing.id], existing.providerId, existing.providerEventId)
    ensures outcome in {Recovered(existing.id), InFlight(existing.id), EnqueueFailed(existing.id)}
    ensures outcome.Recovered? ==>
      && CanLease(old(store.View()), existing.id, now) && store.View().events[existing.id].enqueuedAt == Some(now)
      && forall j: JobType :: j in handed <==> j !in existing.enqueuedJobs
    ensures outcome.InFlight? ==>
      handed == [] && store.View() == old(store.View()) && !LeaseFree(existing, now)
    ensures outcome.EnqueueFailed? ==>
      && (exists j: JobType :: !accepts(j))
      && store.View().events[existing.id].enqueueLeaseUntil == None
      && (forall j | j in handed :: j in store.View().events[existing.id].enqueuedJobs)
  {
    var leased := store.AcquireEnqueueLease(existing.id, leaseMs, now);
    if leased == None {
      var again := store.FindById(existing.id);
      if again.Some? && again.value.enqueuedAt.Some? {
        return DuplicateOf(existing.id), [];
      }
      return InFlight(existing.id), [];
    }
    var ok, _, sent := EnqueueWebhookEventJobs(store, leased.value, None, accepts, now);
    return if ok then Recovered(existing.id) else EnqueueFailed(existing.id), sent;
  }

  // ---------------------------------------------------------------- the recovery sweep

  /** What a sweep hands over again: all that is missing of a row never enqueued; of a
      row whose jobs the queue lost only the consumers, which may run twice. */
  function Resend(r: EventRow): Option<seq<JobType>> { if r.enqueuedAt.Some? then Some(WEBHOOK_CONSUMERS) else None }

  ghost predicate AllAccepted(r: EventRow, accepts: (EventId, JobType) -> bool) {
    forall j | Wants(r, Resend(r), j) :: accepts(r.id, j)
  }

  ghost function AcceptedRows(rows: seq<EventRow>, accepts: (EventId, JobType) -> bool): nat {
    if rows == [] then 0
    else AcceptedRows(rows[..|rows| - 1], accepts) + if AllAccepted(rows[|rows| - 1], accepts) then 1 else 0
  }

  /** A swept row afterwards: marked if everything was taken, else free for the next
      sweep. */
  ghost predicate Swept(db: Db, r: EventRow, accepts: (EventId, JobType) -> bool, now: int) {
    && r.id in db.events && db.events[r.id].enqueueLeaseUntil == None
    && db.events[r.id].enqueuedAt == (if AllAccepted(r, accepts) then Some(now) else r.enqueuedAt)
    && (forall j | j in r.enqueuedJobs :: j in db.events[r.id].enqueuedJobs)
    && (AllAccepted(r, accepts) ==> forall j | Wants(r, Resend(r), j) :: j in db.events[r.id].enqueuedJobs)
  }

  /** Between two rows of the sweep: those done are settled, all others as leased. */
  ghost predicate SweptSoFar(leased: Db, db: Db, done: seq<EventRow>, accepts: (EventId, JobType) -> bool, now: int) {
    && db.consumers == leased.consumers && db.events.Keys == leased.events.Keys
    && (forall r | r in done :: Swept(db, r, accepts, now))
    && (forall id | id in leased.events && id !in IdsOf(done) :: db.events[id] == leased.events[id])
  }

  /** Nothing but what is wanted is handed over, and all of it for a row taken whole. */
  ghost predicate HandedFor(handed: seq<(EventId, JobType)>, done: seq<EventRow>, accepts: (EventId, JobType) -> bool) {
    && (forall x | x in handed :: accepts(x.0, x.1) && exists r | r in done :: r.id == x.0 && Wants(r, Resend(r), x.1))
    && (forall r, j | r in done && AllAccepted(r, accepts) && Wants(r, Resend(r), j) :: (r.id, j) in handed)
  }

  function ForRow(id: EventId, jobs: seq<JobType>): (xs: seq<(EventId, JobType)>)
    ensures forall x :: x in xs <==> x.0 == id && x.1 in jobs
  {
    if jobs == [] then [] else [(id, jobs[0])] + ForRow(id, jobs[1..])
  }

  lemma OneMoreSwept(
      leased: Db, before: Db, after: Db, done: seq<EventRow>, r: EventRow, jobs: seq<JobType>,
      accepts: (EventId, JobType) -> bool, now: int)
    requires SweptSoFar(leased, before, done, accepts, now)
    requires r.id in leased.events && leased.events[r.id] == r && r.id !in IdsOf(done)
    requires after ==
      if AllAccepted(r, accepts) then AfterMark(before, r.id, jobs, now) else AfterRelease(before, r.id, jobs)
    requires forall j | j in r.enqueuedJobs :: j in jobs
    requires AllAccepted(r, accepts) ==> forall j | Wants(r, Resend(r), j) :: j in jobs
    ensures SweptSoFar(leased, after, done + [r], accepts, now)
  {
    assert IdsOf(done + [r]) == IdsOf(done) + {r.id} by { assert r in done + [r]; }
    forall d | d in done + [r] ensures Swept(after, d, accepts, now) {
      if d in done { assert d.id in IdsOf(done); }
    }
  }

  lemma {:induction false} OneMoreHanded(
      handed: seq<(EventId, JobType)>, done: seq<EventRow>, r: EventRow, sent: seq<JobType>,
      accepts: (EventId, JobType) -> bool)
    requires HandedFor(handed, done, accepts)
    requires forall j | j in sent :: accepts(r.id, j) && Wants(r, Resend(r), j)
    requires AllAccepted(r, accepts) ==> forall j | Wants(r, Resend(r), j) :: j in sent
    ensures HandedFor(handed + ForRow(r.id, sent), done + [r], accepts)
  {
    var all := handed + ForRow(r.id, sent);
    forall x | x in all
      ensures accepts(x.0, x.1) && exists d | d in done + [r] :: d.id == x.0 && Wants(d, Resend(d), x.1)
    {
      if x in handed {
        var d :| d in done && d.id == x.0 && Wants(d, Resend(d), x.1);
        assert d in done + [r];
      } else {
        assert r in done + [r];
      }
    }
  }

  method SweepRow(
      store: WebhookEventRepository, row: EventRow, accepts: (EventId, JobType) -> bool, now: int,
      ghost leased: Db, ghost done: seq<EventRow>)
    returns (ok: bool, sent: seq<JobType>)
    requires store.Valid() && SweptSoFar(leased, store.View(), done, accepts, now)
    requires row.id in leased.events && leased.events[row.id] == row && row.id !in IdsOf(done)
    modifies store
    ensures store.Valid() && SweptSoFar(leased, store.View(), done + [row], accepts, now)
    ensures ok <==> AllAccepted(row, accepts)
    ensures forall j | j in sent :: accepts(row.id, j) && Wants(row, Resend(row), j)
    ensures ok ==> forall j | Wants(row, Resend(row), j) :: j in sent
  {
    ghost var before := store.View();
    var jobs;
    ok, jobs, sent := EnqueueWebhookEventJobs(store, row, Resend(row), j => accepts(row.id, j), now);
    OneMoreSwept(leased, before, store.View(), done, row, jobs, accepts, now);
  }

  ghost predicate AllLeased(leased: Db, rows: seq<EventRow>) {
    forall i | 0 <= i < |rows| :: IsLeased(leased, rows, i)
  }

  ghost predicate IsLeased(leased: Db, rows: seq<EventRow>, i: nat)
    requires i < |rows|
  {
    rows[i].id in leased.events && leased.events[rows[i].id] == rows[i] && rows[i].id !in IdsOf(rows[..i])
  }

  /** The counts of a sweep so far, and what went out. */
  ghost predicate Tallied(
      done: seq<EventRow>, recovered: nat, failed: nat, handed: seq<(EventId, JobType)>,
      accepts: (EventId, JobType) -> bool)
  {
    recovered == AcceptedRows(done, accepts) && recovered + failed == |done| && HandedFor(handed, done, accepts)
  }

  lemma {:induction false} OneMoreTallied(
      done: seq<EventRow>, recovered: nat, failed: nat, handed: seq<(EventId, JobType)>,
      accepts: (EventId, JobType) -> bool,
      r: EventRow, ok: bool, sent: seq<JobType>)
    requires Tallied(done, recovered, failed, handed, accepts) && (ok <==> AllAccepted(r, accepts))
    requires forall j | j in sent :: accepts(r.id, j) && Wants(r, Resend(r), j)
    requires ok ==> forall j | Wants(r, Resend(r), j) :: j in sent
    ensures Tallied(done + [r], if ok then recovered + 1 else recovered, if ok then failed else failed + 1,
                    handed + ForRow(r.id, sent), accepts)
  {
    assert (done + [r])[..|done|] == done;
    OneMoreHanded(handed, done, r, sent, accepts);
  }

  /** The loop over the rows a sweep leased. */
  method SweepRows(store: WebhookEventRepository, rows: seq<EventRow>, accepts: (EventId, JobType) -> bool, now: int)
    returns (recovered: nat, failed: nat, handed: seq<(EventId, JobType)>)
    requires store.Valid() && AllLeased(store.View(), rows)
    modifies store
    ensures store.Valid() && SweptSoFar(old(store.View()), store.View(), rows, accepts, now)
    ensures Tallied(rows, recovered, failed, handed, accepts)
  {
    ghost var leased := store.View();
    recovered, failed, handed := 0, 0, [];
    for i := 0 to |rows|
      invariant store.Valid() && SweptSoFar(leased, store.View(), rows[..i], accepts, now)
      invariant Tallied(rows[..i], recovered, failed, handed, accepts)
    {
      assert rows[..i + 1] == rows[..i] + [rows[i]];
      assert IsLeased(leased, rows, i);
      var ok, sent := SweepRow(store, rows[i], accepts, now, leased, rows[..i]);
      OneMoreTallied(rows[..i], recovered, failed, handed, accepts, rows[i], ok, sent);
      handed := handed + ForRow(rows[i].id, sent);
      if ok { recovered := recovered + 1; } else { failed := failed + 1; }
    }
    assert rows[..|rows|] == rows;
  }

  /** Swept rows are leased, each one once. */
  lemma SweptRows(db: Db, rows: seq<EventRow>, limit: nat, leaseMs: int, staleAfterMs: int, now: int)
    requires SweepChoice(db, rows, limit, leaseMs, staleAfterMs, WEBHOOK_CONSUMERS, now)
    ensures AllLeased(AfterSweep(db, IdsOf(rows), now, leaseMs), rows)
  {
    forall i | 0 <= i < |rows| ensures IsLeased(AfterSweep(db, IdsOf(rows), now, leaseMs), rows, i) {
      assert rows[i] in rows && rows[i].id in IdsOf(rows);
      forall r | r in rows[..i] ensures r.id != rows[i].id {
        var k :| 0 <= k < i && rows[k] == r;
        assert IdOf(rows[k]) != IdOf(rows[i]);
      }
    }
  }

  /** The sweep over stranded rows, longest-waiting first. */
  method RecoverStrandedWebhookEvents(
      store: WebhookEventRepository, limit: nat, leaseMs: int, staleAfterMs: int, accepts: (EventId, JobType) -> bool,
      now: int)
    returns (rows: seq<EventRow>, recovered: nat, failed: nat, handed: seq<(EventId, JobType)>)
    requires store.Valid()
    modifies store
    ensures store.Valid()
    ensures SweepChoice(old(store.View()), rows, limit, leaseMs, staleAfterMs, WEBHOOK_CONSUMERS, now)
    ensures SweptSoFar(AfterSweep(old(store.View()), IdsOf(rows), now, leaseMs), store.View(), rows, accepts, now)
    ensures Tallied(rows, recovered, failed, handed, accepts)
  {
    rows := store.ClaimStrandedForEnqueue(limit, leaseMs, staleAfterMs, WEBHOOK_CONSUMERS, now);
    SweptRows(old(store.View()), rows, limit, leaseMs, staleAfterMs, now);
    recovered, failed, handed := SweepRows(store, rows, accepts, now);
  }

  /** A sweep never sends a customer's message again: an inbound message goes out only
      for a row that had never been enqueued and had not handed it over. */
  lemma SweepNeverRepeatsInbound(
      handed: seq<(EventId, JobType)>, rows: seq<EventRow>, accepts: (EventId, JobType) -> bool, id: EventId)
    requires HandedFor(handed, rows, accepts) && (id, InboundMessage) in handed
    ensures exists r | r in rows :: r.id == id && r.enqueuedAt == None && InboundMessage !in r.enqueuedJobs
  {
    var r :| r in rows && r.id == id && Wants(r, Resend(r), InboundMessage);
    assert InboundMessage !in WEBHOOK_CONSUMERS;
  }

  // ---------------------------------------------------------------- one consumer run

  datatype RunResult = DoneOnce(id: EventId) | Replay(id: EventId) | Busy | WorkFailed | Unresolvable

  /** How a `work` callback ends: it throws before writing, after writing, or returns. */
  datatype WorkEnd = ThrowsEarly | ThrowsLate | Returns

  predicate KnownById(db: Db, id: Option<EventId>) { id.Some? && id.value in db.events }

  /** The row a job is about: the one with its id, else one of its identity. */
  predicate Names(before: Db, after: Db, webhookEventId: Option<EventId>, providerId: string, providerEventId: string,
      id: EventId)
  {
    if KnownById(before, webhookEventId) then id == webhookEventId.value
    else id in after.events && SameIdentity(after.events[id], providerId, providerEventId)
  }

  /** No row, and none can be created. */
  predicate Unknown(db: Db, id: Option<EventId>, providerId: string, providerEventId: string) {
    !KnownById(db, id) && !KnownByIdentity(db, providerId, providerEventId) &&
      (providerId == "" || providerEventId == "")
  }

  /** The durable row of a job: by its id, else by the provider's identity, else
      created by the job itself, which then counts as its enqueue. */
  method ResolveEvent(
      store: WebhookEventRepository, consumer: JobType, webhookEventId: Option<EventId>,
      providerId: string, providerEventId: string, now: int)
    returns (event: Option<EventRow>)
    requires store.Valid()
    modifies store
    ensures store.Valid() && store.View().consumers == old(store.View()).consumers
    ensures event.Some? ==>
      event.value.id in store.View().events && OnlyTouches(old(store.View()), store.View(), event.value.id)
    ensures event == None || event.value.id in old(store.View()).events ==> store.View() == old(store.View())
    ensures KnownById(old(store.View()), webhookEventId) ==>
      event == Some(old(store.View()).events[webhookEventId.value]) && store.View() == old(store.View())
    ensures event == None <==> Unknown(old(store.View()), webhookEventId, providerId, providerEventId)
    ensures event.Some? ==>
      Names(old(store.View()), store.View(), webhookEventId, providerId, providerEventId, event.value.id)
    ensures event.Some? && event.value.id !in old(store.View()).events ==>
      var row := store.View().events[event.value.id];
      row.expectedConsumers == [consumer] && row.enqueuedJobs == [consumer] && row.enqueuedAt == Some(now)
  {
    event := None;
    if webhookEventId.Some? {
      event := store.FindById(webhookEventId.value);
    }
    if event == None {
      event := store.FindByProviderEvent(providerId, providerEventId);
    }
    if event == None {
      var claim := store.Claim(providerId, providerEventId, [consumer], 30_000, now);
      if claim.ConstraintViolated? {
        return None;
      }
      if claim.NewRow? {
        var _ := store.MarkEnqueued(claim.event.id, [consumer], now);
      }
      return Some(claim.event);
    }
  }

  predicate HeldElsewhere(db: Db, k: ConsumerKey, now: int) {
    k in db.consumers && db.consumers[k].status == InProgress && !Claimable(db, k, now)
  }

  predicate Failed(db: Db, k: ConsumerKey) { k in db.consumers && db.consumers[k].status == Broken }

  /** Claim the consumer, work, and record the outcome under the claim's token. */
  method RunDurableWebhookConsumer(
      store: WebhookEventRepository, log: EffectLog, consumer: JobType, webhookEventId: Option<EventId>,
      providerId: string, providerEventId: string, target: Option<Target>, end: WorkEnd, leaseMs: int, now: int)
    returns (r: RunResult)
    requires store.Valid() && log.transactions.Valid()
    modifies store, log, log.transactions
    ensures store.Valid() && log.transactions.Valid()
    ensures r.Unresolvable? <==> Unknown(old(store.View()), webhookEventId, providerId, providerEventId)
    ensures r.Unresolvable? ==> log.Written() == old(log.Written())
    ensures !r.Unresolvable? ==>
      exists id :: Names(old(store.View()), store.View(), webhookEventId, providerId, providerEventId, id)
        && RunAnswer(old(store.View()), store.View(), old(log.Written()), log.Written(), ConsumerKey(id, consumer),
                     target, end, r, now)
  {
    var event := ResolveEvent(store, consumer, webhookEventId, providerId, providerEventId, now);
    if event == None {
      return Unresolvable;
    }
    ghost var resolved := store.View();
    r := RunClaimed(store, log, ConsumerKey(event.value.id, consumer), target, end, leaseMs, now);
    StillNamed(old(store.View()), resolved, store.View(), webhookEventId, providerId, providerEventId, event.value.id);
  }

  /** What a run's answer says of the consumer as it was and as it is: it could be claimed,
      and is done once with its effects written, or failed and free to claim; or it was
      finished or held by somebody else, and nothing is written. */
  ghost predicate RunAnswer(
      was: Db, db: Db, before: Effects, after: Effects, k: ConsumerKey, target: Option<Target>, end: WorkEnd,
      r: RunResult, now: int)
  {
    && (forall x | x in was.consumers && x != k :: x in db.consumers && db.consumers[x] == was.consumers[x])
    && match r
       case DoneOnce(id) =>
         && id == k.event && end == Returns && Claimable(was, k, now) && FinishedFor(db, k.event, k.consumer)
         && after == AfterPersist(before, k, target, now)
       case Replay(id) =>
         id == k.event && FinishedFor(was, k.event, k.consumer) && after == before && db.consumers == was.consumers
       case Busy => HeldElsewhere(was, k, now) && after == before && db.consumers == was.consumers
       case WorkFailed =>
         && end != Returns && Claimable(was, k, now) && Failed(db, k)
         && if end == ThrowsEarly then after == before else after == AfterPersist(before, k, target, now)
       case Unresolvable => false
  }

  /** The answer of a run that holds the claim. */
  ghost predicate WorkAnswer(
      was: Db, db: Db, before: Effects, after: Effects, k: ConsumerKey, target: Option<Target>, end: WorkEnd,
      r: RunResult, now: int)
  {
    && (forall x | x in was.consumers && x != k :: x in db.consumers && db.consumers[x] == was.consumers[x])
    && (if end == ThrowsEarly then after == before else after == AfterPersist(before, k, target, now))
    && if end == Returns then r == DoneOnce(k.event) && FinishedFor(db, k.event, k.consumer)
       else r == WorkFailed && Failed(db, k)
  }

  /** An event's identity never changes. */
  predicate KeepsEvent(before: Db, after: Db, id: EventId) {
    id in before.events ==>
      id in after.events
      && SameIdentity(after.events[id], before.events[id].providerId, before.events[id].providerEventId)
  }

  lemma StillNamed(
      before: Db, resolved: Db, after: Db, webhookEventId: Option<EventId>, providerId: string,
      providerEventId: string, id: EventId)
    requires Names(before, resolved, webhookEventId, providerId, providerEventId, id) && KeepsEvent(resolved, after, id)
    ensures Names(before, after, webhookEventId, providerId, providerEventId, id)
  {
  }

  lemma EndedClaim(db: Db, k: ConsumerKey, token: Token)
    requires HoldsClaim(db, k, token)
    ensures Failed(AfterFail(db, k, token), k) && KeepsEvent(db, AfterFail(db, k, token), k.event)
    ensures FinishedFor(AfterComplete(db, k, token), k.event, k.consumer) &&
      KeepsEvent(db, AfterComplete(db, k, token), k.event)
  {
  }

  method RunClaimed(
      store: WebhookEventRepository, log: EffectLog, k: ConsumerKey, target: Option<Target>, end: WorkEnd,
      leaseMs: int, now: int)
    returns (r: RunResult)
    requires store.Valid() && log.transactions.Valid()
    modifies store, log, log.transactions
    ensures store.Valid() && log.transactions.Valid()
    ensures RunAnswer(old(store.View()), store.View(), old(log.Written()), log.Written(), k, target, end, r, now)
    ensures KeepsEvent(old(store.View()), store.View(), k.event)
  {
    var claim := store.ClaimConsumer(k, leaseMs, now);
    if claim.Refused? {
      return if claim.existing.status == Finished then Replay(k.event) else Busy;
    }
    r := WorkUnderClaim(store, log, k, claim.row.claimToken, target, end, now);
  }

  /** The work and its outcome, under a live claim. */
  method WorkUnderClaim(
      store: WebhookEventRepository, log: EffectLog, k: ConsumerKey, token: Token, target: Option<Target>,
      end: WorkEnd, now: int)
    returns (r: RunResult)
    requires store.Valid() && log.transactions.Valid() && HoldsClaim(store.View(), k, token)
    modifies store, log, log.transactions
    ensures store.Valid() && log.transactions.Valid()
    ensures WorkAnswer(old(store.View()), store.View(), old(log.Written()), log.Written(), k, target, end, r, now)
    ensures KeepsEvent(old(store.View()), store.View(), k.event)
  {
    if end != ThrowsEarly {
      var _ := log.PersistEffectsOnce(k, target, now);
    }
    EndedClaim(store.View(), k, token);
    if end != Returns {
      var _ := store.FailConsumer(k, token);
      return WorkFailed;
    }
    var completed := store.CompleteConsumer(k, token);
    return DoneOnce(k.event);
  }
}
