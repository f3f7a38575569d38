/** Acknowledging a webhook delivery: gateways, recovery sweepers and fallback
    workers interleaved statement by statement over the durable event rows. */
module WebhookIngest {
  import opened Wrappers
  import opened WebhookStore

  /** How a gateway answers a delivery. */
  datatype Outcome =
    | Accepted(id: EventId)
    | DuplicateOf(id: EventId)
    | Recovered(id: EventId)
    | InFlight(id: EventId)
    | PersistFailed
    | EnqueueFailed(id: EventId)

  predicate IsAcknowledged(o: Outcome) { o.Accepted? || o.DuplicateOf? || o.Recovered? }

  function IdOfAcknowledged(o: Outcome): EventId
    requires IsAcknowledged(o)
  {
    o.id
  }

  datatype Role = FirstDelivery | Redelivery | Sweeper

  /** Where an actor stands between two store statements. `done` and `todo` are the
      enqueue loop's set and its remaining jobs; `only` marks the sweeper's
      re-enqueue of a row that was already enqueued. */
  datatype Pc =
    | Acquiring(id: EventId)
    | ReadingBack(id: EventId)
    | Enqueuing(id: EventId, done: seq<JobType>, todo: seq<JobType>, only: bool, role: Role)
    | Releasing(id: EventId, done: seq<JobType>, role: Role)
    | MarkingFallback(id: EventId, consumer: JobType)
    | Answered(outcome: Outcome)
    | Swept

  type Actor = nat

  /** `handed` are the (event, job) pairs given to the queue so far, `created` the rows a
      gateway inserted and `marked` those a fallback worker marked. */
  datatype World = World(
    db: Db, actors: map<Actor, Pc>, handed: set<(EventId, JobType)>, created: set<EventId>, marked: set<EventId>)

  datatype Move =
    | Deliver(a: Actor, providerId: string, providerEventId: string, now: int, leaseMs: int)
    | Redeliver(a: Actor, existing: EventId)
    | Acquire(a: Actor, now: int, leaseMs: int)
    | ReadBack(a: Actor, readable: bool)
    | HandOver(a: Actor)
    | QueueRefuses(a: Actor)
    | Finish(a: Actor, now: int)
    | Release(a: Actor, written: bool)
    | StoreFails(a: Actor)
    | SweepRow(a: Actor, id: EventId, now: int, leaseMs: int, staleAfterMs: int)
    | FallbackInsert(a: Actor, providerId: string, providerEventId: string, consumer: JobType, now: int, leaseMs: int)
    | FallbackMark(a: Actor, now: int)
    | ConsumerStatement(id: EventId, status: EventStatus)
    | Crash(a: Actor)

  predicate Unknown(db: Db, providerId: string, providerEventId: string) {
    forall id | id in db.events :: !SameIdentity(db.events[id], providerId, providerEventId)
  }

  predicate Skips(pc: Pc)
    requires pc.Enqueuing? && pc.todo != []
  {
    pc.todo[0] in pc.done && !pc.only
  }

  predicate Enabled(w: World, m: Move) {
    match m
    case Deliver(a, p, e, _, _) => a !in w.actors && p != "" && e != "" && Unknown(w.db, p, e)
    case Redeliver(a, id) => a !in w.actors && id in w.db.events
    case Acquire(a, _, _) => a in w.actors && w.actors[a].Acquiring?
    case ReadBack(a, _) => a in w.actors && w.actors[a].ReadingBack?
    case HandOver(a) => a in w.actors && w.actors[a].Enqueuing? && w.actors[a].todo != []
    case QueueRefuses(a) => a in w.actors && w.actors[a].Enqueuing? && w.actors[a].todo != [] && !Skips(w.actors[a])
    case Finish(a, _) => a in w.actors && w.actors[a].Enqueuing? && w.actors[a].todo == []
    case Release(a, _) => a in w.actors && w.actors[a].Releasing?
    case StoreFails(a) =>
      a in w.actors && (w.actors[a].Acquiring? || (w.actors[a].Enqueuing? && w.actors[a].todo == []))
    case SweepRow(a, id, now, _, stale) =>
      a !in w.actors && id in w.db.events && Stranded(w.db.events[id], now, stale, WEBHOOK_CONSUMERS)
    case FallbackInsert(a, p, e, _, _, _) => a !in w.actors && p != "" && e != "" && Unknown(w.db, p, e)
    case FallbackMark(a, _) => a in w.actors && w.actors[a].MarkingFallback?
    case ConsumerStatement(id, _) => id in w.db.events
    case Crash(a) => a in w.actors
  }

  function Answer(role: Role, id: EventId, ok: bool): Pc {
    if role == Sweeper then Swept
    else if !ok then Answered(EnqueueFailed(id))
    else Answered(if role == FirstDelivery then Accepted(id) else Recovered(id))
  }

  function Apply(w: World, m: Move): World
    requires Enabled(w, m)
  {
    match m
    case Deliver(a, p, e, now, lease) =>
      var id := w.db.issued;
      World(AfterInsert(w.db, NewEvent(id, p, e, WEBHOOK_CONSUMERS, now, lease)),
            w.actors[a := Enqueuing(id, [], WEBHOOK_JOB_TYPES, false, FirstDelivery)], w.handed, w.created + {id},
            w.marked)
    case Redeliver(a, id) =>
      w.(actors := w.actors[a := if w.db.events[id].enqueuedAt.Some? then Answered(DuplicateOf(id)) else Acquiring(id)])
    case Acquire(a, now, lease) =>
      var id := w.actors[a].id;
      if CanLease(w.db, id, now)
      then w.(db := AfterAcquire(w.db, id, now, lease),
              actors := w.actors[
                a := Enqueuing(id, w.db.events[id].enqueuedJobs, WEBHOOK_JOB_TYPES, false, Redelivery)])
      else w.(actors := w.actors[a := ReadingBack(id)])
    case ReadBack(a, readable) =>
      var id := w.actors[a].id;
      w.(actors := w.actors[a := Answered(
        if readable && id in w.db.events && w.db.events[id].enqueuedAt.Some? then DuplicateOf(id) else InFlight(id))])
    case HandOver(a) =>
      var pc := w.actors[a];
      if Skips(pc) then w.(actors := w.actors[a := pc.(todo := pc.todo[1..])])
      else
        var done := if pc.todo[0] in pc.done then pc.done else pc.done + [pc.todo[0]];
        w.(handed := w.handed + {(pc.id, pc.todo[0])}, actors := w.actors[a := pc.(done := done, todo := pc.todo[1..])])
    case QueueRefuses(a) =>
      w.(actors := w.actors[a := Releasing(w.actors[a].id, w.actors[a].done, w.actors[a].role)])
    case Finish(a, now) =>
      var pc := w.actors[a];
      w.(db := AfterMark(w.db, pc.id, pc.done, now), actors := w.actors[a := Answer(pc.role, pc.id, true)])
    case Release(a, written) =>
      var pc := w.actors[a];
      w.(db := if written then AfterRelease(w.db, pc.id, pc.done) else w.db,
         actors := w.actors[a := Answer(pc.role, pc.id, false)])
    case StoreFails(a) =>
      var pc := w.actors[a];
      w.(actors := w.actors[a := if pc.Acquiring? then Answered(PersistFailed) else Answer(pc.role, pc.id, false)])
    case SweepRow(a, id, now, lease, _) =>
      var row := w.db.events[id];
      w.(db := AfterSweep(w.db, {id}, now, lease),
         actors := w.actors[a := Enqueuing(id, row.enqueuedJobs,
           if row.enqueuedAt.Some? then WEBHOOK_CONSUMERS else WEBHOOK_JOB_TYPES, row.enqueuedAt.Some?, Sweeper)])
    case FallbackInsert(a, p, e, c, now, lease) =>
      var id := w.db.issued;
      w.(db := AfterInsert(w.db, NewEvent(id, p, e, [c], now, lease)), actors := w.actors[a := MarkingFallback(id, c)])
    case FallbackMark(a, now) =>
      w.(db := AfterMark(w.db, w.actors[a].id, [w.actors[a].consumer], now), actors := w.actors - {a},
         marked := w.marked + {w.actors[a].id})
    case ConsumerStatement(id, s) =>
      w.(db := w.db.(events := WithStatus(w.db, id, s)))
    case Crash(a) => w.(actors := w.actors - {a})
  }

  // ---------------------------------------------------------------- what every interleaving keeps

  ghost predicate AllHanded(w: World, id: EventId) { forall j: JobType :: (id, j) in w.handed }

  ghost predicate Handed(w: World, id: EventId, jobs: seq<JobType>) { forall j | j in jobs :: (id, j) in w.handed }

  ghost predicate RowHonest(w: World, id: EventId)
    requires id in w.db.events
  {
    && Handed(w, id, w.db.events[id].enqueuedJobs)
    && (w.db.events[id].enqueuedAt.Some? ==> AllHanded(w, id))
  }

  ghost predicate Enqueued(w: World, id: EventId) { id in w.db.events && w.db.events[id].enqueuedAt.Some? }

  ghost predicate PcHonest(w: World, pc: Pc) {
    match pc
    case Acquiring(id) => id in w.db.events
    case ReadingBack(id) => id in w.db.events
    case Enqueuing(id, done, todo, only, _) =>
      && id in w.db.events
      && (only ==> Enqueued(w, id))
      && (id !in w.marked ==> Handed(w, id, done) && (!only ==> forall j: JobType :: j in done || j in todo))
    case Releasing(id, done, _) => id in w.db.events && (id !in w.marked ==> Handed(w, id, done))
    case MarkingFallback(id, _) => id in w.db.events && id !in w.created
    case Answered(o) => IsAcknowledged(o) ==> Enqueued(w, o.id)
    case Swept => true
  }

  ghost predicate Honest(w: World) {
    && (forall id | id in w.db.events :: id < w.db.issued)
    && w.created !! w.marked && w.created + w.marked <= w.db.events.Keys
    && (forall id | id in w.db.events && id !in w.marked :: RowHonest(w, id))
    && (forall a | a in w.actors :: PcHonest(w, w.actors[a]))
  }

  /** Facts an actor relies on survive what others do. */
  ghost predicate Grows(w: World, w': World) {
    && w.handed <= w'.handed
    && w.db.issued <= w'.db.issued
    && (forall id | id in w.db.events :: id in w'.db.events)
    && (forall id | Enqueued(w, id) :: Enqueued(w', id))
    && (forall id | id in w.db.events :: id in w'.created ==> id in w.created)
    && w.marked <= w'.marked
  }

  lemma GrowthKeepsPc(w: World, w': World, pc: Pc)
    requires Grows(w, w') && PcHonest(w, pc)
    ensures PcHonest(w', pc)
  {
  }

  lemma EveryJobListed(j: JobType)
    ensures j in WEBHOOK_JOB_TYPES
  {
  }

  /** To keep the world honest: it grows, its rows stay honest, and so does the one
      actor that moved. */
  lemma OneActorMoved(w: World, w': World, a: Actor)
    requires Honest(w) && Grows(w, w')
    requires forall id | id in w'.db.events :: id < w'.db.issued
    requires forall b | b in w'.actors && b != a :: b in w.actors && w'.actors[b] == w.actors[b]
    requires a in w'.actors ==> PcHonest(w', w'.actors[a])
    requires w'.created !! w'.marked && w'.created + w'.marked <= w'.db.events.Keys
    requires forall id | id in w'.db.events && id !in w'.marked :: RowHonest(w', id)
    ensures Honest(w')
  {
  }

  /** Rows the move did not write stay honest when nothing is un-handed. */
  lemma UntouchedRowHonest(w: World, w': World, id: EventId)
    requires id in w.db.events && id in w'.db.events && RowHonest(w, id) && w.handed <= w'.handed
    requires w'.db.events[id].enqueuedJobs == w.db.events[id].enqueuedJobs
    requires w'.db.events[id].enqueuedAt == w.db.events[id].enqueuedAt
    ensures RowHonest(w', id)
  {
  }

  lemma LoopMoves(w: World, m: Move)
    requires Honest(w) && Enabled(w, m)
    requires m.Redeliver? || m.ReadBack? || m.HandOver? || m.QueueRefuses? || m.StoreFails? || m.Crash?
    ensures Honest(Apply(w, m))
  {
    var w' := Apply(w, m);
    assert m.Redeliver? || PcHonest(w, w.actors[m.a]);
    forall id | id in w'.db.events && id !in w'.marked ensures RowHonest(w', id) {
      UntouchedRowHonest(w, w', id);
    }
    assert Grows(w, w');
    OneActorMoved(w, w', m.a);
  }

  lemma FinishHonest(w: World, a: Actor, now: int)
    requires Honest(w) && Enabled(w, Finish(a, now))
    ensures Honest(Apply(w, Finish(a, now)))
  {
    var pc, w' := w.actors[a], Apply(w, Finish(a, now));
    assert PcHonest(w, pc);
    forall id | id in w'.db.events && id !in w'.marked ensures RowHonest(w', id) {
      if id == pc.id {
        assert RowHonest(w, id);
      } else {
        UntouchedRowHonest(w, w', id);
      }
    }
    OneActorMoved(w, w', a);
  }

  lemma ReleaseHonest(w: World, a: Actor, written: bool)
    requires Honest(w) && Enabled(w, Release(a, written))
    ensures Honest(Apply(w, Release(a, written)))
  {
    var pc, w' := w.actors[a], Apply(w, Release(a, written));
    assert PcHonest(w, pc);
    forall id | id in w'.db.events && id !in w'.marked ensures RowHonest(w', id) {
      if id == pc.id {
        assert RowHonest(w, id);
      } else {
        UntouchedRowHonest(w, w', id);
      }
    }
    OneActorMoved(w, w', a);
  }

  lemma LeaseHonest(w: World, m: Move)
    requires Honest(w) && Enabled(w, m) && (m.Acquire? || m.SweepRow?)
    ensures Honest(Apply(w, m))
  {
    var w' := Apply(w, m);
    if m.Acquire? { assert PcHonest(w, w.actors[m.a]); }
    forall j: JobType ensures j in WEBHOOK_JOB_TYPES { EveryJobListed(j); }
    forall id | id in w'.db.events && id !in w'.marked ensures RowHonest(w', id) {
      UntouchedRowHonest(w, w', id);
    }
    OneActorMoved(w, w', m.a);
  }

  lemma InsertHonest(w: World, m: Move)
    requires Honest(w) && Enabled(w, m) && (m.Deliver? || m.FallbackInsert?)
    ensures Honest(Apply(w, m))
  {
    var w' := Apply(w, m);
    forall j: JobType ensures j in WEBHOOK_JOB_TYPES { EveryJobListed(j); }
    forall id | id in w'.db.events && id !in w'.marked ensures RowHonest(w', id) {
      if id != w.db.issued { UntouchedRowHonest(w, w', id); }
    }
    OneActorMoved(w, w', m.a);
  }

  lemma FallbackMarkHonest(w: World, a: Actor, now: int)
    requires Honest(w) && Enabled(w, FallbackMark(a, now))
    ensures Honest(Apply(w, FallbackMark(a, now)))
  {
    var pc, w' := w.actors[a], Apply(w, FallbackMark(a, now));
    assert PcHonest(w, pc);
    forall id | id in w'.db.events && id !in w'.marked ensures RowHonest(w', id) {
      UntouchedRowHonest(w, w', id);
    }
    OneActorMoved(w, w', a);
  }

  lemma ConsumerStatementHonest(w: World, id: EventId, s: EventStatus)
    requires Honest(w) && Enabled(w, ConsumerStatement(id, s))
    ensures Honest(Apply(w, ConsumerStatement(id, s)))
  {
    var w' := Apply(w, ConsumerStatement(id, s));
    forall i | i in w'.db.events && i !in w'.marked ensures RowHonest(w', i) {
      UntouchedRowHonest(w, w', i);
    }
    forall a | a in w'.actors ensures PcHonest(w', w'.actors[a]) {
      GrowthKeepsPc(w, w', w.actors[a]);
    }
  }

  lemma MoveKeepsHonest(w: World, m: Move)
    requires Honest(w) && Enabled(w, m)
    ensures Honest(Apply(w, m))
  {
    match m
    case Deliver(_, _, _, _, _) => InsertHonest(w, m);
    case FallbackInsert(_, _, _, _, _, _) => InsertHonest(w, m);
    case Acquire(_, _, _) => LeaseHonest(w, m);
    case SweepRow(_, _, _, _, _) => LeaseHonest(w, m);
    case Finish(a, now) => FinishHonest(w, a, now);
    case Release(a, written) => ReleaseHonest(w, a, written);
    case FallbackMark(a, now) => FallbackMarkHonest(w, a, now);
    case ConsumerStatement(id, s) => ConsumerStatementHonest(w, id, s);
    case _ => LoopMoves(w, m);
  }

  predicate Feasible(w: World, ms: seq<Move>)
    decreases |ms|
  {
    ms == [] || (Enabled(w, ms[0]) && Feasible(Apply(w, ms[0]), ms[1..]))
  }

  function Play(w: World, ms: seq<Move>): World
    requires Feasible(w, ms)
    decreases |ms|
  {
    if ms == [] then w else Play(Apply(w, ms[0]), ms[1..])
  }

  const START := World(Db(map[], map[], 0), map[], {}, {}, {})

  lemma {:induction false} RunKeepsHonest(w: World, ms: seq<Move>)
    requires Honest(w) && Feasible(w, ms)
    ensures Honest(Play(w, ms))
    decreases |ms|
  {
    if ms != [] {
      MoveKeepsHonest(w, ms[0]);
      RunKeepsHonest(Apply(w, ms[0]), ms[1..]);
    }
  }

  /** An acknowledged delivery is durable and enqueued, and unless a fallback worker
      marked its row, which never happens to a row a gateway created, every job type was
      handed to the queue, however leases overran and whatever a late release wrote. */
  lemma {:induction false} AcknowledgedIsDurable(ms: seq<Move>, a: Actor)
    requires Feasible(START, ms)
    requires a in Play(START, ms).actors && Play(START, ms).actors[a].Answered?
    requires IsAcknowledged(Play(START, ms).actors[a].outcome)
    ensures var w, id := Play(START, ms), IdOfAcknowledged(Play(START, ms).actors[a].outcome);
      && id in w.db.events && w.db.events[id].enqueuedAt.Some?
      && (id !in w.marked ==> forall j: JobType :: (id, j) in w.handed)
      && (id in w.created ==> id !in w.marked)
  {
    RunKeepsHonest(START, ms);
    var w := Play(START, ms);
    assert PcHonest(w, w.actors[a]);
  }

  // ---------------------------------------------------------------- what it does not promise

  /** Why a marked row is excepted: a row the worker fallback made and marked is answered
      as a duplicate though the queue never saw any of its jobs. */
  lemma FallbackRowAcknowledgedUnhanded(c: JobType, now: int, leaseMs: int)
    ensures
      var ms := [FallbackInsert(0, "p", "e", c, now, leaseMs), FallbackMark(0, now), Redeliver(1, 0)];
      && Feasible(START, ms)
      && 1 in Play(START, ms).actors && Play(START, ms).actors[1] == Answered(DuplicateOf(0))
      && Play(START, ms).handed == {}
  {
    var m0, m1, m2 := FallbackInsert(0, "p", "e", c, now, leaseMs), FallbackMark(0, now), Redeliver(1, 0);
    var w1 := Apply(START, m0);
    var w2 := Apply(w1, m1);
    assert w2.actors == map[];
    var w3 := Apply(w2, m2);
    assert [m0, m1, m2][1..] == [m1, m2] && [m1, m2][1..] == [m2] && [m2][1..] == [];
    assert Feasible(w3, []) && Feasible(w2, [m2]) && Feasible(w1, [m1, m2]);
    assert Play(w2, [m2]) == w3;
    assert Play(w1, [m1, m2]) == w3;
  }

  /** What an actor answers: a gateway whose loop ran through and was marked accepts its
      own event and recovers somebody else's; one that was refused, or whose store
      failed, says so; a sweeper answers nobody. */
  lemma AnswersByRole(w: World, m: Move)
    requires Enabled(w, m) && (m.Finish? || m.Release? || m.StoreFails?)
    ensures m.a in w.actors && m.a in Apply(w, m).actors
    ensures var pc, answer := w.actors[m.a], Apply(w, m).actors[m.a];
      if pc.Acquiring? then answer == Answered(PersistFailed)
      else
        && (pc.role == Sweeper ==> answer == Swept)
        && (pc.role != Sweeper && !m.Finish? ==> answer == Answered(EnqueueFailed(pc.id)))
        && (pc.role == FirstDelivery && m.Finish? ==> answer == Answered(Accepted(pc.id)))
        && (pc.role == Redelivery && m.Finish? ==> answer == Answered(Recovered(pc.id)))
  {
  }

  lemma HandsOverNext(w: World, a: Actor, id: EventId, done: seq<JobType>, j: JobType, rest: seq<JobType>, role: Role)
    requires a in w.actors && w.actors[a] == Enqueuing(id, done, [j] + rest, false, role) && j !in done
    ensures Enabled(w, HandOver(a))
    ensures Apply(w, HandOver(a)) ==
      w.(handed := w.handed + {(id, j)}, actors := w.actors[a := Enqueuing(id, done + [j], rest, false, role)])
  {
    assert ([j] + rest)[1..] == rest;
  }

  /** The enqueue loop run through: every job handed over, in order. */
  lemma HandsOverAll(w: World, a: Actor, id: EventId, role: Role) returns (w2: World, w3: World, w4: World)
    requires a in w.actors && w.actors[a] == Enqueuing(id, [], WEBHOOK_JOB_TYPES, false, role)
    ensures Enabled(w, HandOver(a)) && w2 == Apply(w, HandOver(a))
    ensures Enabled(w2, HandOver(a)) && w3 == Apply(w2, HandOver(a))
    ensures Enabled(w3, HandOver(a)) && w4 == Apply(w3, HandOver(a))
    ensures w4.(actors := w.actors, handed := w.handed) == w
    ensures w4.handed == w.handed + {(id, InboundMessage), (id, PaymentWebhook), (id, ProviderWebhook)}
    ensures a in w4.actors
    ensures w4.actors[a] == Enqueuing(id, [InboundMessage, PaymentWebhook, ProviderWebhook], [], false, role)
  {
    assert WEBHOOK_JOB_TYPES == [InboundMessage] + [PaymentWebhook, ProviderWebhook];
    assert [] + [InboundMessage] == [InboundMessage];
    HandsOverNext(w, a, id, [], InboundMessage, [PaymentWebhook, ProviderWebhook], role);
    w2 := Apply(w, HandOver(a));
    assert [PaymentWebhook, ProviderWebhook] == [PaymentWebhook] + [ProviderWebhook];
    HandsOverNext(w2, a, id, [InboundMessage], PaymentWebhook, [ProviderWebhook], role);
    w3 := Apply(w2, HandOver(a));
    assert [ProviderWebhook] == [ProviderWebhook] + [];
    HandsOverNext(w3, a, id, [InboundMessage, PaymentWebhook], ProviderWebhook, [], role);
    w4 := Apply(w3, HandOver(a));
  }

  lemma {:induction false} PlayOne(w: World, m: Move, ms: seq<Move>)
    requires Enabled(w, m) && Feasible(Apply(w, m), ms)
    ensures Feasible(w, [m] + ms) && Play(w, [m] + ms) == Play(Apply(w, m), ms)
  {
    assert ([m] + ms)[1..] == ms;
  }

  /** A delivery nobody disturbs is accepted: all three jobs are handed over, in order,
      and the row says that it is enqueued, with them. */
  lemma {:induction false} UndisturbedDeliveryIsAccepted(
      w: World, a: Actor, p: string, e: string, now: int, leaseMs: int, later: int)
    requires Enabled(w, Deliver(a, p, e, now, leaseMs))
    ensures
      var ms := [Deliver(a, p, e, now, leaseMs), HandOver(a), HandOver(a), HandOver(a), Finish(a, later)];
      var id, jobs := w.db.issued, [InboundMessage, PaymentWebhook, ProviderWebhook];
      && Feasible(w, ms)
      && a in Play(w, ms).actors && Play(w, ms).actors[a] == Answered(Accepted(id))
      && id in Play(w, ms).db.events
      && Play(w, ms).db.events[id] ==
         EventRow(id, p, e, Received, [PaymentWebhook, ProviderWebhook], jobs, Some(later), None, now)
      && Play(w, ms).handed == w.handed + {(id, InboundMessage), (id, PaymentWebhook), (id, ProviderWebhook)}
  {
    var h, f := HandOver(a), Finish(a, later);
    var w1 := Apply(w, Deliver(a, p, e, now, leaseMs));
    var w2, w3, w4 := HandsOverAll(w1, a, w.db.issued, FirstDelivery);
    PlayOne(w4, f, []);
    PlayOne(w3, h, [f]);
    PlayOne(w2, h, [h, f]);
    PlayOne(w1, h, [h, h, f]);
    PlayOne(w, Deliver(a, p, e, now, leaseMs), [h, h, h, f]);
  }

  lemma {:induction false} PlayConcat(w: World, xs: seq<Move>, ys: seq<Move>)
    requires Feasible(w, xs) && Feasible(Play(w, xs), ys)
    ensures Feasible(w, xs + ys) && Play(w, xs + ys) == Play(Play(w, xs), ys)
    decreases |xs|
  {
    if xs == [] {
      assert xs + ys == ys;
    } else {
      PlayConcat(Apply(w, xs[0]), xs[1..], ys);
      assert (xs + ys)[1..] == xs[1..] + ys;
    }
  }

  /** The loop has run through: every job is done, and handed over if it was not done
      before or all are to be sent again. */
  ghost predicate LoopDone(w: World, v: World, a: Actor)
    requires a in w.actors && w.actors[a].Enqueuing?
  {
    var pc := w.actors[a];
    && a in v.actors && v.actors[a].Enqueuing?
    && v.actors[a] == Enqueuing(pc.id, v.actors[a].done, [], pc.only, pc.role)
    && v == w.(handed := v.handed, actors := w.actors[a := v.actors[a]])
    && pc.done <= v.actors[a].done && w.handed <= v.handed
    && forall j | j in pc.todo :: j in v.actors[a].done && ((j !in pc.done || pc.only) ==> (pc.id, j) in v.handed)
  }

  lemma OneJobOfTheLoop(w: World, a: Actor)
    requires a in w.actors && w.actors[a].Enqueuing? && w.actors[a].todo != []
    ensures Enabled(w, HandOver(a))
    ensures var pc, v := w.actors[a], Apply(w, HandOver(a));
      && a in v.actors && v.actors[a].Enqueuing?
      && v.actors[a] == Enqueuing(pc.id, v.actors[a].done, pc.todo[1..], pc.only, pc.role)
      && v == w.(handed := v.handed, actors := w.actors[a := v.actors[a]])
      && pc.done <= v.actors[a].done && w.handed <= v.handed
      && pc.todo[0] in v.actors[a].done && (forall j | j in v.actors[a].done :: j in pc.done || j == pc.todo[0])
      && ((pc.todo[0] !in pc.done || pc.only) ==> (pc.id, pc.todo[0]) in v.handed)
  {
  }

  lemma {:induction false} LoopRunsThrough(w: World, a: Actor) returns (ms: seq<Move>)
    requires a in w.actors && w.actors[a].Enqueuing?
    ensures Feasible(w, ms) && LoopDone(w, Play(w, ms), a)
    decreases |if a in w.actors && w.actors[a].Enqueuing? then w.actors[a].todo else []|
  {
    if w.actors[a].todo == [] {
      ms := [];
    } else {
      var pc, v := w.actors[a], Apply(w, HandOver(a));
      OneJobOfTheLoop(w, a);
      var rest := LoopRunsThrough(v, a);
      PlayOne(w, HandOver(a), rest);
      ms := [HandOver(a)] + rest;
      LoopGoesOn(w, v, Play(v, rest), a);
    }
  }

  lemma LoopGoesOn(w: World, v: World, u: World, a: Actor)
    requires a in w.actors && w.actors[a].Enqueuing? && w.actors[a].todo != []
    requires a in v.actors && v.actors[a].Enqueuing? && v == Apply(w, HandOver(a)) && LoopDone(v, u, a)
    ensures LoopDone(w, u, a)
  {
    OneJobOfTheLoop(w, a);
    var pc := w.actors[a];
    forall j | j in pc.todo
      ensures j in u.actors[a].done && ((j !in pc.done || pc.only) ==> (pc.id, j) in u.handed)
    {
      if j != pc.todo[0] { assert j in pc.todo[1..]; }
    }
    assert u.actors == w.actors[a := u.actors[a]];
  }

  predicate LeaseIsOver(r: EventRow, now: int) { r.enqueueLeaseUntil.Some? ==> r.enqueueLeaseUntil.value <= now }

  /** What a loop over all jobs leaves behind when it is marked. */
  lemma {:induction false} LoopIsFinished(w: World, a: Actor, later: int) returns (ms: seq<Move>)
    requires a in w.actors && w.actors[a].Enqueuing? && w.actors[a].todo == WEBHOOK_JOB_TYPES
    requires w.actors[a].id in w.db.events
    ensures var pc := w.actors[a];
      && Feasible(w, ms) && a in Play(w, ms).actors && Play(w, ms).actors[a] == Answer(pc.role, pc.id, true)
      && pc.id in Play(w, ms).db.events && Play(w, ms).db.events[pc.id].enqueuedAt == Some(later)
      && forall j: JobType | j !in pc.done :: (pc.id, j) in Play(w, ms).handed
  {
    var loop := LoopRunsThrough(w, a);
    var v := Play(w, loop);
    PlayOne(v, Finish(a, later), []);
    PlayConcat(w, loop, [Finish(a, later)] + []);
    ms := loop + ([Finish(a, later)] + []);
    forall j: JobType ensures j in WEBHOOK_JOB_TYPES {
      match j
      case InboundMessage => assert WEBHOOK_JOB_TYPES[0] == j;
      case PaymentWebhook => assert WEBHOOK_JOB_TYPES[1] == j;
      case ProviderWebhook => assert WEBHOOK_JOB_TYPES[2] == j;
    }
  }

  /** An event whose first gateway died is recovered by the next delivery once the lease
      is over: the jobs missing from its record are handed over and it is marked. */
  lemma {:induction false} RedeliveryRecovers(w: World, a: Actor, id: EventId, now: int, leaseMs: int, later: int)
      returns (ms: seq<Move>)
    requires a !in w.actors && id in w.db.events && w.db.events[id].enqueuedAt == None
    requires LeaseIsOver(w.db.events[id], now)
    ensures |ms| >= 2 && ms[0] == Redeliver(a, id) && ms[1] == Acquire(a, now, leaseMs) && Feasible(w, ms)
    ensures a in Play(w, ms).actors && Play(w, ms).actors[a] == Answered(Recovered(id))
    ensures id in Play(w, ms).db.events && Play(w, ms).db.events[id].enqueuedAt == Some(later)
    ensures forall j: JobType | j !in w.db.events[id].enqueuedJobs :: (id, j) in Play(w, ms).handed
  {
    var w1 := Apply(w, Redeliver(a, id));
    var w2 := Apply(w1, Acquire(a, now, leaseMs));
    var rest := LoopIsFinished(w2, a, later);
    PlayOne(w1, Acquire(a, now, leaseMs), rest);
    PlayOne(w, Redeliver(a, id), [Acquire(a, now, leaseMs)] + rest);
    ms := [Redeliver(a, id)] + ([Acquire(a, now, leaseMs)] + rest);
  }

  /** And without another delivery, by a sweep. */
  lemma {:induction false} SweepRecovers(w: World, a: Actor, id: EventId, now: int, leaseMs: int, stale: int,
      later: int) returns (ms: seq<Move>)
    requires a !in w.actors && id in w.db.events && w.db.events[id].enqueuedAt == None
    requires LeaseIsOver(w.db.events[id], now)
    requires PaymentWebhook in w.db.events[id].expectedConsumers || ProviderWebhook in w.db.events[id].expectedConsumers
    ensures |ms| >= 1 && ms[0] == SweepRow(a, id, now, leaseMs, stale) && Feasible(w, ms)
    ensures a in Play(w, ms).actors && Play(w, ms).actors[a] == Swept
    ensures id in Play(w, ms).db.events && Play(w, ms).db.events[id].enqueuedAt == Some(later)
    ensures forall j: JobType | j !in w.db.events[id].enqueuedJobs :: (id, j) in Play(w, ms).handed
  {
    assert WEBHOOK_CONSUMERS[0] == PaymentWebhook && WEBHOOK_CONSUMERS[1] == ProviderWebhook;
    var w1 := Apply(w, SweepRow(a, id, now, leaseMs, stale));
    var rest := LoopIsFinished(w1, a, later);
    PlayOne(w, SweepRow(a, id, now, leaseMs, stale), rest);
    ms := [SweepRow(a, id, now, leaseMs, stale)] + rest;
  }

  /** No loop over all job types is under way for the row. */
  ghost predicate NoFullLoop(w: World, id: EventId) {
    forall a | a in w.actors && w.actors[a].Enqueuing? && w.actors[a].id == id :: InboundMessage !in w.actors[a].todo
  }

  lemma MoveSettlesInbound(w: World, m: Move, id: EventId)
    requires Enqueued(w, id) && NoFullLoop(w, id) && id < w.db.issued && Enabled(w, m)
    ensures var w' := Apply(w, m);
      && Enqueued(w', id) && NoFullLoop(w', id) && id < w'.db.issued
      && ((id, InboundMessage) in w'.handed <==> (id, InboundMessage) in w.handed)
  {
    assert InboundMessage !in WEBHOOK_CONSUMERS;
  }

  /** What a marked row gets: once a row is marked and no loop over all job types is
      under way for it, its inbound message is ever handed over exactly if it was before,
      over every continuation; only the consumers may be sent again. */
  lemma {:induction false} InboundIsSettledWhenMarked(w: World, ms: seq<Move>, id: EventId)
    requires Enqueued(w, id) && NoFullLoop(w, id) && id < w.db.issued && Feasible(w, ms)
    ensures (id, InboundMessage) in Play(w, ms).handed <==> (id, InboundMessage) in w.handed
    decreases |ms|
  {
    if ms != [] {
      MoveSettlesInbound(w, ms[0], id);
      InboundIsSettledWhenMarked(Apply(w, ms[0]), ms[1..], id);
    }
  }
}
