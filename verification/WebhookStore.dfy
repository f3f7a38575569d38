/** The durable webhook tables: events with their enqueue lease, and one claim row
    per (event, consumer). Every method is one atomic statement. */
module WebhookStore {
  import opened Wrappers
  import opened Tables

  datatype JobType = InboundMessage | PaymentWebhook | ProviderWebhook

  /** Every job of an accepted webhook, and those with durable completion. */
  const WEBHOOK_JOB_TYPES: seq<JobType> := [InboundMessage, PaymentWebhook, ProviderWebhook]
  const WEBHOOK_CONSUMERS: seq<JobType> := [PaymentWebhook, ProviderWebhook]

  type EventId = nat
  type Token = nat

  datatype EventStatus = Received | Processing | Processed | Failed

  datatype EventRow = EventRow(
    id: EventId,
    providerId: string,
    providerEventId: string,
    status: EventStatus,
    expectedConsumers: seq<JobType>,
    enqueuedJobs: seq<JobType>,
    enqueuedAt: Option<int>,
    enqueueLeaseUntil: Option<int>,
    receivedAt: int)

  datatype ClaimState = InProgress | Finished | Broken

  datatype ConsumerKey = ConsumerKey(event: EventId, consumer: JobType)

  datatype ConsumerRow = ConsumerRow(key: ConsumerKey, status: ClaimState, claimToken: Token,
      leaseExpiresAt: Option<int>)

  function IdOf(r: EventRow): EventId { r.id }
  function KeyOf(r: ConsumerRow): ConsumerKey { r.key }

  /** The tables; ids and claim tokens below `issued` have been handed out. */
  datatype Db = Db(events: map<EventId, EventRow>, consumers: map<ConsumerKey, ConsumerRow>, issued: nat)

  // ---------------------------------------------------------------- statements on the tables

  predicate LeaseFree(r: EventRow, now: int) { r.enqueueLeaseUntil == None || r.enqueueLeaseUntil.value <= now }

  predicate SameIdentity(r: EventRow, providerId: string, providerEventId: string) {
    r.providerId == providerId && r.providerEventId == providerEventId
  }

  function NewEvent(id: EventId, providerId: string, providerEventId: string, expected: seq<JobType>, now: int,
      leaseMs: int): EventRow
  {
    EventRow(id, providerId, providerEventId, Received, expected, [], None, Some(now + Max(0, leaseMs)), now)
  }

  function AfterInsert(db: Db, row: EventRow): Db { Db(db.events[row.id := row], db.consumers, db.issued + 1) }

  predicate CanLease(db: Db, id: EventId, now: int) {
    id in db.events && db.events[id].enqueuedAt == None && LeaseFree(db.events[id], now)
  }

  function Leased(r: EventRow, now: int, leaseMs: int): EventRow {
    r.(enqueueLeaseUntil := Some(now + Max(0, leaseMs)))
  }

  function AfterAcquire(db: Db, id: EventId, now: int, leaseMs: int): Db {
    if CanLease(db, id, now) then db.(events := db.events[id := Leased(db.events[id], now, leaseMs)]) else db
  }

  function Marked(r: EventRow, jobs: seq<JobType>, now: int): EventRow {
    r.(enqueuedAt := Some(now), enqueuedJobs := jobs, enqueueLeaseUntil := None)
  }

  function AfterMark(db: Db, id: EventId, jobs: seq<JobType>, now: int): Db {
    if id in db.events then db.(events := db.events[id := Marked(db.events[id], jobs, now)]) else db
  }

  function Released(r: EventRow, jobs: seq<JobType>): EventRow { r.(enqueueLeaseUntil := None, enqueuedJobs := jobs) }

  /** The release checks no holder: whoever calls it clears the lease. */
  function AfterRelease(db: Db, id: EventId, jobs: seq<JobType>): Db {
    if id in db.events then db.(events := db.events[id := Released(db.events[id], jobs)]) else db
  }

  /** A row the sweeper may take over. */
  predicate Stranded(r: EventRow, now: int, staleAfterMs: int, consumers: seq<JobType>) {
    && (exists i :: 0 <= i < |r.expectedConsumers| && r.expectedConsumers[i] in consumers)
    && LeaseFree(r, now)
    && (r.enqueuedAt == None || (r.status == Received && r.enqueuedAt.value <= now - staleAfterMs))
  }

  /** The sweeper's lease, taken on the rows named by `ids`. */
  function AfterSweep(db: Db, ids: set<EventId>, now: int, leaseMs: int): Db {
    db.(events := map id | id in db.events :: if id in ids then Leased(db.events[id], now, leaseMs) else db.events[id])
  }

  predicate Claimable(db: Db, k: ConsumerKey, now: int) {
    k in db.consumers ==>
      var r := db.consumers[k];
      r.status == Broken || (r.status == InProgress && r.leaseExpiresAt.Some? && r.leaseExpiresAt.value <= now)
  }

  function Claimed(k: ConsumerKey, token: Token, now: int, leaseMs: int): ConsumerRow {
    ConsumerRow(k, InProgress, token, Some(now + Max(0, leaseMs)))
  }

  function WithStatus(db: Db, id: EventId, s: EventStatus): map<EventId, EventRow> {
    if id in db.events && db.events[id].status != Processed then db.events[id := db.events[id].(status := s)]
    else db.events
  }

  function AfterClaimConsumer(db: Db, k: ConsumerKey, now: int, leaseMs: int): Db {
    if Claimable(db, k, now)
    then Db(WithStatus(db, k.event, Processing), db.consumers[k := Claimed(k, db.issued, now, leaseMs)], db.issued + 1)
    else db
  }

  /** `token` is the live claim of `k`. */
  predicate HoldsClaim(db: Db, k: ConsumerKey, token: Token) {
    k in db.consumers && db.consumers[k].claimToken == token && db.consumers[k].status == InProgress
  }

  predicate FinishedFor(db: Db, id: EventId, c: JobType) {
    ConsumerKey(id, c) in db.consumers && db.consumers[ConsumerKey(id, c)].status == Finished
  }

  ghost predicate AllFinished(db: Db, r: EventRow) {
    forall c | c in r.expectedConsumers :: FinishedFor(db, r.id, c)
  }

  function Ended(r: ConsumerRow, s: ClaimState): ConsumerRow { r.(status := s, leaseExpiresAt := None) }

  ghost function AfterComplete(db: Db, k: ConsumerKey, token: Token): Db {
    if HoldsClaim(db, k, token) then
      var done := db.(consumers := db.consumers[k := Ended(db.consumers[k], Finished)]);
      if k.event in db.events && AllFinished(done, db.events[k.event])
      then done.(events := WithStatus(done, k.event, Processed)) else done
    else db
  }

  function AfterFail(db: Db, k: ConsumerKey, token: Token): Db {
    if HoldsClaim(db, k, token)
    then Db(WithStatus(db, k.event, Failed), db.consumers[k := Ended(db.consumers[k], Broken)], db.issued)
    else db
  }

  // ---------------------------------------------------------------- oldest stranded rows first

  function StrandedRows(rows: seq<EventRow>, now: int, staleAfterMs: int, consumers: seq<JobType>): (r: seq<EventRow>)
    ensures forall x :: x in r <==> x in rows && Stranded(x, now, staleAfterMs, consumers)
  {
    if rows == [] then []
    else
      (if Stranded(rows[0], now, staleAfterMs, consumers) then [rows[0]] else [])
      + StrandedRows(rows[1..], now, staleAfterMs, consumers)
  }

  lemma {:induction false} StrandedRowsKeyed(rows: seq<EventRow>, now: int, staleAfterMs: int, consumers: seq<JobType>)
    requires Keyed(IdOf, rows)
    ensures Keyed(IdOf, StrandedRows(rows, now, staleAfterMs, consumers))
  {
    if rows != [] {
      StrandedRowsKeyed(rows[1..], now, staleAfterMs, consumers);
      var rest := StrandedRows(rows[1..], now, staleAfterMs, consumers);
      forall i | 0 <= i < |rest| ensures IdOf(rest[i]) != IdOf(rows[0]) {
        assert rest[i] in rows[1..];
      }
    }
  }

  function InsertByReceived(r: EventRow, rows: seq<EventRow>): (s: seq<EventRow>)
    ensures forall x :: x in s <==> x == r || x in rows
  {
    if rows == [] || r.receivedAt <= rows[0].receivedAt then [r] + rows
    else [rows[0]] + InsertByReceived(r, rows[1..])
  }

  function SortByReceived(rows: seq<EventRow>): (s: seq<EventRow>)
    ensures forall x :: x in s <==> x in rows
  {
    if rows == [] then [] else InsertByReceived(rows[0], SortByReceived(rows[1..]))
  }

  predicate OldestFirst(rows: seq<EventRow>) {
    forall i, j | 0 <= i < j < |rows| :: rows[i].receivedAt <= rows[j].receivedAt
  }

  lemma {:induction false} InsertOrders(r: EventRow, rows: seq<EventRow>)
    requires OldestFirst(rows) && Keyed(IdOf, rows) && forall i | 0 <= i < |rows| :: rows[i].id != r.id
    ensures OldestFirst(InsertByReceived(r, rows)) && Keyed(IdOf, InsertByReceived(r, rows))
  {
    if rows != [] && rows[0].receivedAt < r.receivedAt {
      InsertOrders(r, rows[1..]);
      var rest := InsertByReceived(r, rows[1..]);
      forall i | 0 <= i < |rest| ensures rows[0].receivedAt <= rest[i].receivedAt && IdOf(rest[i]) != IdOf(rows[0]) {
        assert rest[i] in rest;
      }
    }
  }

  lemma {:induction false} SortOrders(rows: seq<EventRow>)
    requires Keyed(IdOf, rows)
    ensures OldestFirst(SortByReceived(rows)) && Keyed(IdOf, SortByReceived(rows))
  {
    if rows != [] {
      SortOrders(rows[1..]);
      forall i | 0 <= i < |SortByReceived(rows[1..])| ensures SortByReceived(rows[1..])[i].id != rows[0].id {
        assert SortByReceived(rows[1..])[i] in rows[1..];
        assert forall j | 1 <= j < |rows| :: IdOf(rows[j]) != IdOf(rows[0]);
      }
      InsertOrders(rows[0], SortByReceived(rows[1..]));
    }
  }

  // ---------------------------------------------------------------- the repository

  ghost predicate ValidRows(events: seq<EventRow>, consumers: seq<ConsumerRow>, issued: nat) {
    && Keyed(IdOf, events) && Keyed(KeyOf, consumers)
    && (forall i | 0 <= i < |events| :: events[i].id < issued)
  }

  ghost function ViewOf(events: seq<EventRow>, consumers: seq<ConsumerRow>, issued: nat): Db
    requires ValidRows(events, consumers, issued)
  {
    Db(Index(IdOf, events), Index(KeyOf, consumers), issued)
  }

  datatype ClaimReply = NewRow(event: EventRow) | Duplicate(event: EventRow) | ConstraintViolated

  datatype ConsumerReply = Granted(row: ConsumerRow) | Refused(existing: ConsumerRow)

  class WebhookEventRepository {
    var webhookEvents: seq<EventRow>
    var webhookEventConsumers: seq<ConsumerRow>
    var issued: nat

    ghost predicate Valid()
      reads this
    {
      ValidRows(webhookEvents, webhookEventConsumers, issued)
    }

    ghost function View(): Db
      reads this
      requires Valid()
    {
      ViewOf(webhookEvents, webhookEventConsumers, issued)
    }

    constructor ()
      ensures Valid() && View() == Db(map[], map[], 0)
    {
      webhookEvents, webhookEventConsumers, issued := [], [], 0;
    }

    method Claim(providerId: string, providerEventId: string, expected: seq<JobType>, leaseMs: int, now: int)
      returns (reply: ClaimReply)
      requires Valid()
      modifies this
      ensures Valid()
      ensures reply.ConstraintViolated? <==> providerId == "" || providerEventId == ""
      ensures reply.NewRow? ==>
        && (forall id | id in old(View()).events :: !SameIdentity(old(View()).events[id], providerId, providerEventId))
        && reply.event == NewEvent(old(issued), providerId, providerEventId, expected, now, leaseMs)
        && reply.event.id !in old(View()).events
        && View() == AfterInsert(old(View()), reply.event)
      ensures !reply.NewRow? ==> View() == old(View())
      ensures reply.Duplicate? ==>
        && SameIdentity(reply.event, providerId, providerEventId)
        && reply.event.id in View().events && View().events[reply.event.id] == reply.event
    {
      if providerId == "" || providerEventId == "" {
        return ConstraintViolated;
      }
      var at := Find((r: EventRow) => SameIdentity(r, providerId, providerEventId), webhookEvents, true);
      if at.Some? {
        RowIsIndexed(webhookEvents, webhookEventConsumers, issued, at.value);
        return Duplicate(webhookEvents[at.value]);
      }
      var row := NewEvent(issued, providerId, providerEventId, expected, now, leaseMs);
      InsertRow(webhookEvents, webhookEventConsumers, issued, row);
      NoneWithIdentity(webhookEvents, providerId, providerEventId);
      webhookEvents, issued := webhookEvents + [row], issued + 1;
      return NewRow(row);
    }

    method FindById(id: EventId) returns (r: Option<EventRow>)
      requires Valid()
      ensures r == if id in View().events then Some(View().events[id]) else None
    {
      var at := Find(IdOf, webhookEvents, id);
      IndexLookup(IdOf, webhookEvents, id);
      r := if at.Some? then Some(webhookEvents[at.value]) else None;
    }

    method FindByProviderEvent(providerId: string, providerEventId: string) returns (r: Option<EventRow>)
      requires Valid()
      ensures r.Some? ==>
        && SameIdentity(r.value, providerId, providerEventId)
        && r.value.id in View().events && View().events[r.value.id] == r.value
      ensures r == None ==> forall id | id in View().events ::
        !SameIdentity(View().events[id], providerId, providerEventId)
    {
      var at := Find((r: EventRow) => SameIdentity(r, providerId, providerEventId), webhookEvents, true);
      if at == None {
        NoneWithIdentity(webhookEvents, providerId, providerEventId);
        return None;
      }
      RowIsIndexed(webhookEvents, webhookEventConsumers, issued, at.value);
      return Some(webhookEvents[at.value]);
    }

    method AcquireEnqueueLease(id: EventId, leaseMs: int, now: int) returns (r: Option<EventRow>)
      requires Valid()
      modifies this
      ensures Valid() && View() == AfterAcquire(old(View()), id, now, leaseMs)
      ensures r.Some? <==> CanLease(old(View()), id, now)
      ensures r.Some? ==> r.value == View().events[id]
    {
      var at := Find(IdOf, webhookEvents, id);
      IndexLookup(IdOf, webhookEvents, id);
      if at == None || webhookEvents[at.value].enqueuedAt != None || !LeaseFree(webhookEvents[at.value], now) {
        return None;
      }
      var row := webhookEvents[at.value].(enqueueLeaseUntil := Some(now + Max(0, leaseMs)));
      UpdateRow(webhookEvents, webhookEventConsumers, issued, at.value, row);
      webhookEvents := webhookEvents[at.value := row];
      return Some(row);
    }

    method MarkEnqueued(id: EventId, jobs: seq<JobType>, now: int) returns (found: bool)
      requires Valid()
      modifies this
      ensures Valid() && View() == AfterMark(old(View()), id, jobs, now)
      ensures found <==> id in old(View()).events
    {
      var at := Find(IdOf, webhookEvents, id);
      IndexLookup(IdOf, webhookEvents, id);
      if at == None {
        return false;
      }
      var row := webhookEvents[at.value].(enqueuedAt := Some(now), enqueuedJobs := jobs, enqueueLeaseUntil := None);
      UpdateRow(webhookEvents, webhookEventConsumers, issued, at.value, row);
      webhookEvents := webhookEvents[at.value := row];
      return true;
    }

    method ReleaseEnqueueLease(id: EventId, jobs: seq<JobType>)
      requires Valid()
      modifies this
      ensures Valid() && View() == AfterRelease(old(View()), id, jobs)
    {
      var at := Find(IdOf, webhookEvents, id);
      IndexLookup(IdOf, webhookEvents, id);
      if at.Some? {
        var row := webhookEvents[at.value].(enqueueLeaseUntil := None, enqueuedJobs := jobs);
        UpdateRow(webhookEvents, webhookEventConsumers, issued, at.value, row);
        webhookEvents := webhookEvents[at.value := row];
      }
    }

    /** Leases up to `limit` stranded rows, the longest-waiting first. */
    method ClaimStrandedForEnqueue(limit: nat, leaseMs: int, staleAfterMs: int, consumers: seq<JobType>, now: int)
      returns (rows: seq<EventRow>)
      requires Valid()
      modifies this
      ensures Valid()
      ensures View() == AfterSweep(old(View()), IdsOf(rows), now, leaseMs)
      ensures SweepChoice(old(View()), rows, limit, leaseMs, staleAfterMs, consumers, now)
    {
      ghost var db := View();
      var found := SortByReceived(StrandedRows(webhookEvents, now, staleAfterMs, consumers));
      FoundRows(webhookEvents, webhookEventConsumers, issued, now, staleAfterMs, consumers);
      var taken := found[..if limit <= |found| then limit else |found|];
      LeasedTable(webhookEvents, webhookEventConsumers, issued, IdsOf(taken), now, leaseMs);
      rows := LeaseRows(taken, leaseMs, now);
      SameIds(taken, rows, now, leaseMs);
      TakenAreOldest(db, found, taken, rows, limit, leaseMs, staleAfterMs, consumers, now);
    }

    method LeaseRows(taken: seq<EventRow>, leaseMs: int, now: int) returns (rows: seq<EventRow>)
      requires Keyed(IdOf, webhookEvents) && Keyed(IdOf, taken) && forall r | r in taken :: r in webhookEvents
      modifies this`webhookEvents
      ensures webhookEvents == WithLeases(old(webhookEvents), IdsOf(taken), now, leaseMs)
      ensures |rows| == |taken| && AreLeased(taken, rows, now, leaseMs)
    {
      ghost var before := webhookEvents;
      rows := [];
      for i := 0 to |taken|
        invariant |rows| == i && AreLeased(taken, rows, now, leaseMs)
        invariant webhookEvents == WithLeases(before, IdsOf(taken[..i]), now, leaseMs)
      {
        NotYetTaken(taken, i);
        var at := Find(IdOf, webhookEvents, taken[i].id);
        LeaseOneMore(before, taken[..i], taken[i], at, now, leaseMs);
        var row := webhookEvents[at.value].(enqueueLeaseUntil := Some(now + Max(0, leaseMs)));
        webhookEvents := webhookEvents[at.value := row];
        rows := rows + [row];
      }
      assert taken[..|taken|] == taken;
    }

    method ClaimConsumer(k: ConsumerKey, leaseMs: int, now: int) returns (reply: ConsumerReply)
      requires Valid()
      modifies this
      ensures Valid() && View() == AfterClaimConsumer(old(View()), k, now, leaseMs)
      ensures reply.Granted? <==> Claimable(old(View()), k, now)
      ensures reply.Granted? ==> reply.row == Claimed(k, old(issued), now, leaseMs)
      ensures reply.Refused? ==> k in View().consumers && reply.existing == View().consumers[k]
    {
      reply := GrantClaim(k, leaseMs, now);
      if reply.Granted? {
        SetEventStatus(k.event, Processing);
      }
    }

    method GrantClaim(k: ConsumerKey, leaseMs: int, now: int) returns (reply: ConsumerReply)
      requires Valid()
      modifies this`webhookEventConsumers, this`issued
      ensures Valid()
      ensures reply.Granted? <==> Claimable(old(View()), k, now)
      ensures reply.Granted? ==>
        && reply.row == Claimed(k, old(issued), now, leaseMs)
        && View() == Db(old(View()).events, old(View()).consumers[k := reply.row], old(issued) + 1)
      ensures reply.Refused? ==> View() == old(View()) && k in View().consumers && reply.existing == View().consumers[k]
    {
      var at := Find(KeyOf, webhookEventConsumers, k);
      IndexLookup(KeyOf, webhookEventConsumers, k);
      var claimed := Claimed(k, issued, now, leaseMs);
      if at == None {
        IndexPush(KeyOf, webhookEventConsumers, claimed);
        webhookEventConsumers, issued := webhookEventConsumers + [claimed], issued + 1;
        return Granted(claimed);
      }
      var existing := webhookEventConsumers[at.value];
      if !(existing.status == Broken
           || (existing.status == InProgress && existing.leaseExpiresAt.Some? &&
               existing.leaseExpiresAt.value <= now)) {
        return Refused(existing);
      }
      IndexPut(KeyOf, webhookEventConsumers, at.value, claimed);
      webhookEventConsumers, issued := webhookEventConsumers[at.value := claimed], issued + 1;
      return Granted(claimed);
    }

    method CompleteConsumer(k: ConsumerKey, claimToken: Token) returns (done: bool)
      requires Valid()
      modifies this
      ensures Valid() && View() == AfterComplete(old(View()), k, claimToken)
      ensures done <==> HoldsClaim(old(View()), k, claimToken)
    {
      done := EndClaim(k, claimToken, Finished);
      if done {
        RefreshProcessed(k.event);
      }
    }

    method FailConsumer(k: ConsumerKey, claimToken: Token) returns (done: bool)
      requires Valid()
      modifies this
      ensures Valid() && View() == AfterFail(old(View()), k, claimToken)
      ensures done <==> HoldsClaim(old(View()), k, claimToken)
    {
      done := EndClaim(k, claimToken, Broken);
      if done {
        SetEventStatus(k.event, Failed);
      }
    }

    method EndClaim(k: ConsumerKey, claimToken: Token, s: ClaimState) returns (done: bool)
      requires Valid()
      modifies this`webhookEventConsumers
      ensures Valid()
      ensures done <==> HoldsClaim(old(View()), k, claimToken)
      ensures View() ==
        if done then old(View()).(consumers := old(View()).consumers[k := Ended(old(View()).consumers[k], s)])
          else old(View())
    {
      var at := Find(KeyOf, webhookEventConsumers, k);
      IndexLookup(KeyOf, webhookEventConsumers, k);
      if at == None {
        return false;
      }
      var row := webhookEventConsumers[at.value];
      if row.claimToken != claimToken || row.status != InProgress {
        return false;
      }
      IndexPut(KeyOf, webhookEventConsumers, at.value, row.(status := s, leaseExpiresAt := None));
      webhookEventConsumers := webhookEventConsumers[at.value := row.(status := s, leaseExpiresAt := None)];
      return true;
    }

    /** Written unless the event is already processed. */
    method SetEventStatus(id: EventId, s: EventStatus)
      requires Valid()
      modifies this`webhookEvents
      ensures Valid() && View() == old(View()).(events := WithStatus(old(View()), id, s))
    {
      var at := Find(IdOf, webhookEvents, id);
      IndexLookup(IdOf, webhookEvents, id);
      if at.Some? && webhookEvents[at.value].status != Processed {
        var row := webhookEvents[at.value].(status := s);
        UpdateRow(webhookEvents, webhookEventConsumers, issued, at.value, row);
        webhookEvents := webhookEvents[at.value := row];
      }
    }

    method RefreshProcessed(id: EventId)
      requires Valid()
      modifies this`webhookEvents
      ensures Valid()
      ensures View() == old(View()).(events :=
        if id in old(View()).events && AllFinished(old(View()), old(View()).events[id])
        then WithStatus(old(View()), id, Processed) else old(View()).events)
    {
      var at := Find(IdOf, webhookEvents, id);
      IndexLookup(IdOf, webhookEvents, id);
      if at == None || webhookEvents[at.value].status == Processed {
        return;
      }
      var allDone := EveryExpectedFinished(webhookEvents[at.value]);
      if allDone {
        SetEventStatus(id, Processed);
      }
    }

    method EveryExpectedFinished(r: EventRow) returns (allDone: bool)
      requires Valid()
      ensures allDone <==> AllFinished(View(), r)
    {
      ghost var db := View();
      allDone := true;
      for i := 0 to |r.expectedConsumers|
        invariant allDone <==> forall j | 0 <= j < i :: FinishedFor(db, r.id, r.expectedConsumers[j])
      {
        var k := ConsumerKey(r.id, r.expectedConsumers[i]);
        var at := Find(KeyOf, webhookEventConsumers, k);
        IndexLookup(KeyOf, webhookEventConsumers, k);
        allDone := allDone && at.Some? && webhookEventConsumers[at.value].status == Finished;
      }
    }
  }

  function IdsOf(rows: seq<EventRow>): set<EventId> { set r | r in rows :: r.id }

  /** What a sweep returns: stranded rows under their new lease, none passed over
      for a younger one. */
  ghost predicate SweepChoice(
      db: Db, rows: seq<EventRow>, limit: nat, leaseMs: int, staleAfterMs: int, consumers: seq<JobType>, now: int)
  {
    && |rows| <= limit && Keyed(IdOf, rows)
    && (forall r | r in rows ::
          && r.id in db.events && Stranded(db.events[r.id], now, staleAfterMs, consumers)
          && r == Leased(db.events[r.id], now, leaseMs))
    && (forall id | id in db.events && id !in IdsOf(rows) && Stranded(db.events[id], now, staleAfterMs, consumers) ::
          |rows| == limit && forall r | r in rows :: r.receivedAt <= db.events[id].receivedAt)
  }

  /** The rows found, against the table they were read from. */
  ghost predicate FoundIn(db: Db, found: seq<EventRow>, staleAfterMs: int, consumers: seq<JobType>, now: int) {
    && Keyed(IdOf, found) && OldestFirst(found)
    && (forall r | r in found :: r.id in db.events && db.events[r.id] == r && Stranded(r, now, staleAfterMs, consumers))
    && (forall id | id in db.events && Stranded(db.events[id], now, staleAfterMs, consumers) ::
        db.events[id] in found && db.events[id].id == id)
  }

  lemma {:induction false} FoundRows(
      events: seq<EventRow>, consumerRows: seq<ConsumerRow>, issued: nat, now: int, staleAfterMs: int,
      consumers: seq<JobType>)
    requires ValidRows(events, consumerRows, issued)
    ensures FoundIn(
      ViewOf(events, consumerRows, issued), SortByReceived(StrandedRows(events, now, staleAfterMs, consumers)),
      staleAfterMs, consumers, now)
  {
    StrandedRowsKeyed(events, now, staleAfterMs, consumers);
    SortOrders(StrandedRows(events, now, staleAfterMs, consumers));
    forall r | r in events ensures r.id in Index(IdOf, events) && Index(IdOf, events)[r.id] == r {
      var i :| 0 <= i < |events| && events[i] == r;
      RowIsIndexed(events, consumerRows, issued, i);
    }
  }

  predicate AreLeased(taken: seq<EventRow>, rows: seq<EventRow>, now: int, leaseMs: int) {
    |rows| <= |taken| && forall j | 0 <= j < |rows| :: rows[j] == Leased(taken[j], now, leaseMs)
  }

  function WithLeases(events: seq<EventRow>, ids: set<EventId>, now: int, leaseMs: int): seq<EventRow> {
    seq(|events|, i requires 0 <= i < |events| =>
      if events[i].id in ids then Leased(events[i], now, leaseMs) else events[i])
  }

  lemma LeasedRow(events: seq<EventRow>, ids: set<EventId>, now: int, leaseMs: int, k: EventId)
    requires Keyed(IdOf, events) && Keyed(IdOf, WithLeases(events, ids, now, leaseMs)) && k in Index(IdOf, events)
    ensures var m, n := Index(IdOf, events), Index(IdOf, WithLeases(events, ids, now, leaseMs));
      k in n && n[k] == if k in ids then Leased(m[k], now, leaseMs) else m[k]
  {
    IndexRewritten(IdOf, events, WithLeases(events, ids, now, leaseMs));
    IdOfIndexed(events, k);
  }

  lemma LeasedTable(events: seq<EventRow>, consumers: seq<ConsumerRow>, issued: nat, ids: set<EventId>, now: int,
      leaseMs: int)
    requires ValidRows(events, consumers, issued)
    ensures ValidRows(WithLeases(events, ids, now, leaseMs), consumers, issued)
    ensures ViewOf(WithLeases(events, ids, now, leaseMs), consumers, issued)
         == AfterSweep(ViewOf(events, consumers, issued), ids, now, leaseMs)
  {
    var m, n := Index(IdOf, events), Index(IdOf, WithLeases(events, ids, now, leaseMs));
    IndexRewritten(IdOf, events, WithLeases(events, ids, now, leaseMs));
    forall k | k in m ensures n[k] == if k in ids then Leased(m[k], now, leaseMs) else m[k] {
      LeasedRow(events, ids, now, leaseMs, k);
    }
    SweptEvents(ViewOf(events, consumers, issued), n, ids, now, leaseMs);
  }

  lemma SweptEvents(db: Db, n: map<EventId, EventRow>, ids: set<EventId>, now: int, leaseMs: int)
    requires n.Keys == db.events.Keys
    requires forall k | k in db.events :: n[k] == if k in ids then Leased(db.events[k], now, leaseMs) else db.events[k]
    ensures db.(events := n) == AfterSweep(db, ids, now, leaseMs)
  {
  }

  lemma IdOfIndexed(events: seq<EventRow>, k: EventId)
    requires Keyed(IdOf, events) && k in Index(IdOf, events)
    ensures Index(IdOf, events)[k].id == k
  {
  }

  lemma NotYetTaken(taken: seq<EventRow>, i: nat)
    requires Keyed(IdOf, taken) && i < |taken|
    ensures taken[i].id !in IdsOf(taken[..i]) && taken[i] in taken && taken[..i + 1] == taken[..i] + [taken[i]]
  {
  }

  lemma LeaseOneMore(events: seq<EventRow>, done: seq<EventRow>, next: EventRow, at: Option<nat>, now: int,
      leaseMs: int)
    requires Keyed(IdOf, events) && next in events && next.id !in IdsOf(done)
    requires at == Find(IdOf, WithLeases(events, IdsOf(done), now, leaseMs), next.id)
    ensures at.Some? && at.value < |events|
    ensures var table := WithLeases(events, IdsOf(done), now, leaseMs);
      && table[at.value] == next
      && WithLeases(events, IdsOf(done + [next]), now, leaseMs) == table[at.value := Leased(next, now, leaseMs)]
  {
    var table := WithLeases(events, IdsOf(done), now, leaseMs);
    var i :| 0 <= i < |events| && events[i] == next;
    assert IdOf(table[i]) == next.id;
    assert forall j | 0 <= j < |events| && j != i :: IdOf(events[j]) != IdOf(events[i]);
    assert IdsOf(done + [next]) == IdsOf(done) + {next.id};
  }

  lemma SameIds(taken: seq<EventRow>, rows: seq<EventRow>, now: int, leaseMs: int)
    requires |rows| == |taken| && AreLeased(taken, rows, now, leaseMs)
    ensures IdsOf(rows) == IdsOf(taken)
  {
  }

  lemma TakenAreOldest(
      db: Db, found: seq<EventRow>, taken: seq<EventRow>, rows: seq<EventRow>,
      limit: nat, leaseMs: int, staleAfterMs: int, consumers: seq<JobType>, now: int)
    requires FoundIn(db, found, staleAfterMs, consumers, now)
    requires taken == found[..if limit <= |found| then limit else |found|]
    requires |rows| == |taken| && AreLeased(taken, rows, now, leaseMs)
    ensures SweepChoice(db, rows, limit, leaseMs, staleAfterMs, consumers, now)
  {
    forall r | r in rows
      ensures r.id in db.events && Stranded(db.events[r.id], now, staleAfterMs, consumers) &&
        r == Leased(db.events[r.id], now, leaseMs)
    {
      var j :| 0 <= j < |rows| && rows[j] == r;
      assert taken[j] == found[j] && found[j] in found;
    }
    forall id | id in db.events && id !in IdsOf(rows) && Stranded(db.events[id], now, staleAfterMs, consumers)
      ensures |rows| == limit && forall r | r in rows :: r.receivedAt <= db.events[id].receivedAt
    {
      assert db.events[id] in found;
      var i :| 0 <= i < |found| && found[i] == db.events[id];
      PassedOver(found, taken, rows, i, now, leaseMs);
    }
  }

  lemma PassedOver(found: seq<EventRow>, taken: seq<EventRow>, rows: seq<EventRow>, i: nat, now: int, leaseMs: int)
    requires OldestFirst(found) && |taken| <= |found| && taken == found[..|taken|]
    requires |rows| == |taken| && AreLeased(taken, rows, now, leaseMs)
    requires i < |found| && found[i].id !in IdsOf(rows)
    ensures i >= |taken|
    ensures forall r | r in rows :: r.receivedAt <= found[i].receivedAt
  {
  }

  lemma RowIsIndexed(events: seq<EventRow>, consumers: seq<ConsumerRow>, issued: nat, i: nat)
    requires ValidRows(events, consumers, issued) && i < |events|
    ensures var m := ViewOf(events, consumers, issued).events; events[i].id in m && m[events[i].id] == events[i]
  {
  }

  lemma NoneWithIdentity(events: seq<EventRow>, providerId: string, providerEventId: string)
    requires Keyed(IdOf, events)
    requires forall i | 0 <= i < |events| :: !SameIdentity(events[i], providerId, providerEventId)
    ensures forall id | id in Index(IdOf, events) :: !SameIdentity(Index(IdOf, events)[id], providerId, providerEventId)
  {
  }

  lemma InsertRow(events: seq<EventRow>, consumers: seq<ConsumerRow>, issued: nat, row: EventRow)
    requires ValidRows(events, consumers, issued) && row.id == issued
    ensures row.id !in ViewOf(events, consumers, issued).events
    ensures ValidRows(events + [row], consumers, issued + 1)
    ensures ViewOf(events + [row], consumers, issued + 1) == AfterInsert(ViewOf(events, consumers, issued), row)
  {
    assert IdOf(row) !in Index(IdOf, events);
    IndexPush(IdOf, events, row);
  }

  lemma UpdateRow(events: seq<EventRow>, consumers: seq<ConsumerRow>, issued: nat, i: nat, row: EventRow)
    requires ValidRows(events, consumers, issued) && i < |events| && row.id == events[i].id
    ensures ValidRows(events[i := row], consumers, issued)
    ensures var db := ViewOf(events, consumers, issued);
      && row.id in db.events && db.events[row.id] == events[i]
      && ViewOf(events[i := row], consumers, issued) == db.(events := db.events[row.id := row])
  {
    assert IdOf(events[i]) in Index(IdOf, events);
    IndexPut(IdOf, events, i, row);
  }

  // ---------------------------------------------------------------- how long leases and claims last

  function Lasting(ms: int): nat { if ms < 0 then 0 else ms }

  /** A new event, and one whose lease was just taken, can be leased again exactly once
      the lease has run out; the lease changes nothing else of the row. */
  lemma LeaseExcludesUntilItEnds(db: Db, id: EventId, leaseMs: int, now: int, later: int)
    requires id in db.events && db.events[id].enqueuedAt == None
    requires db.events[id].enqueueLeaseUntil == None || db.events[id].enqueueLeaseUntil.value <= now
    ensures var d := AfterAcquire(db, id, now, leaseMs);
      && (CanLease(d, id, later) <==> now + Lasting(leaseMs) <= later)
      && d.events[id] == db.events[id].(enqueueLeaseUntil := d.events[id].enqueueLeaseUntil)
      && d == Db(db.events[id := d.events[id]], db.consumers, db.issued)
  {
  }

  /** Whoever holds a lease or has enqueued the event, no one else gets the lease. */
  lemma NoLeaseMeanwhile(db: Db, id: EventId, leaseMs: int, now: int)
    requires id in db.events ==>
      || db.events[id].enqueuedAt.Some?
      || (db.events[id].enqueueLeaseUntil.Some? && db.events[id].enqueueLeaseUntil.value > now)
    ensures !CanLease(db, id, now) && AfterAcquire(db, id, now, leaseMs) == db
  {
  }

  lemma NewEventIsLeased(db: Db, providerId: string, providerEventId: string, expected: seq<JobType>, leaseMs: int,
      now: int, later: int)
    ensures var row := NewEvent(db.issued, providerId, providerEventId, expected, now, leaseMs);
      var d := AfterInsert(db, row);
      && row.id == db.issued && row.providerId == providerId && row.providerEventId == providerEventId
      && row.status == Received && row.expectedConsumers == expected && row.enqueuedJobs == []
      && row.enqueuedAt == None && row.receivedAt == now
      && (CanLease(d, db.issued, later) <==> now + Lasting(leaseMs) <= later)
      && d == Db(db.events[db.issued := row], db.consumers, db.issued + 1)
  {
  }

  /** Marking an event records its jobs and the time, ends the lease for good, and
      leaves the rest of the row. */
  lemma MarkedIsNeverLeased(db: Db, id: EventId, jobs: seq<JobType>, now: int, later: int)
    requires id in db.events
    ensures var d := AfterMark(db, id, jobs, now);
      var r := d.events[id];
      && r.enqueuedAt == Some(now) && r.enqueuedJobs == jobs && r.enqueueLeaseUntil == None && !CanLease(d, id, later)
      && r.(enqueuedAt := None, enqueuedJobs := [], enqueueLeaseUntil := None) ==
         db.events[id].(enqueuedAt := None, enqueuedJobs := [], enqueueLeaseUntil := None)
      && d == Db(db.events[id := r], db.consumers, db.issued)
  {
  }

  /** Releasing records the jobs and frees the lease at once, whoever held it. */
  lemma ReleasedIsFree(db: Db, id: EventId, jobs: seq<JobType>, now: int)
    requires id in db.events
    ensures var d := AfterRelease(db, id, jobs);
      var r := d.events[id];
      && r.enqueuedJobs == jobs && (CanLease(d, id, now) <==> db.events[id].enqueuedAt == None)
      && r.(enqueuedJobs := [], enqueueLeaseUntil := None) ==
         db.events[id].(enqueuedJobs := [], enqueueLeaseUntil := None)
      && d == Db(db.events[id := r], db.consumers, db.issued)
  {
  }

  /** An event nobody may enqueue for now: no consumer of the sweep expects it, or its
      lease is live, or it was enqueued and is being worked on or was enqueued lately. */
  ghost predicate InGoodHands(r: EventRow, staleAfterMs: int, consumers: seq<JobType>, now: int) {
    || (forall c | c in r.expectedConsumers :: c !in consumers)
    || (r.enqueueLeaseUntil.Some? && r.enqueueLeaseUntil.value > now)
    || (r.enqueuedAt.Some? && (r.status != Received || r.enqueuedAt.value > now - staleAfterMs))
  }

  /** A sweep takes no event that is in good hands and, with room left, every other one;
      what it takes it leases for `leaseMs`, and it changes nothing else. */
  lemma SweepTakesTheStranded(
      db: Db, rows: seq<EventRow>, limit: nat, leaseMs: int, staleAfterMs: int, consumers: seq<JobType>, now: int,
      id: EventId)
    requires SweepChoice(db, rows, limit, leaseMs, staleAfterMs, consumers, now) && id in db.events
    ensures InGoodHands(db.events[id], staleAfterMs, consumers, now) ==> forall r | r in rows :: r.id != id
    ensures !InGoodHands(db.events[id], staleAfterMs, consumers, now) && |rows| < limit ==>
      exists r | r in rows :: r.id == id
    ensures var d := AfterSweep(db, IdsOf(rows), now, leaseMs);
      && id in d.events
      && d.events[id] ==
        (if exists r | r in rows :: r.id == id
         then db.events[id].(enqueueLeaseUntil := Some(now + Lasting(leaseMs))) else db.events[id])
  {
    assert (exists i :: 0 <= i < |db.events[id].expectedConsumers| && db.events[id].expectedConsumers[i] in consumers)
      <==> exists c | c in db.events[id].expectedConsumers :: c in consumers;
    if id !in IdsOf(rows) {
      assert forall r | r in rows :: r.id != id;
    }
  }

  /** A claim is granted under a token never handed out before; until its lease has run
      out nobody else is granted one, and then anybody is. */
  lemma ClaimExcludesUntilItEnds(db: Db, k: ConsumerKey, leaseMs: int, now: int, later: int)
    requires Claimable(db, k, now)
    ensures var d := AfterClaimConsumer(db, k, now, leaseMs);
      && d.issued == db.issued + 1 && HoldsClaim(d, k, db.issued)
      && (Claimable(d, k, later) <==> now + Lasting(leaseMs) <= later)
      && d.consumers == db.consumers[k := d.consumers[k]]
      && d.events.Keys == db.events.Keys
      && (forall id | id in db.events :: d.events[id] ==
            if id == k.event && db.events[id].status != Processed then db.events[id].(status := Processing)
            else db.events[id])
  {
  }

  /** A consumer row can be claimed when there is none, when its last run failed, or when
      the lease of the run in progress is over. */
  lemma ClaimableMeans(db: Db, k: ConsumerKey, leaseMs: int, now: int)
    ensures Claimable(db, k, now) <==>
      k !in db.consumers || db.consumers[k].status == Broken ||
      (db.consumers[k].status == InProgress && db.consumers[k].leaseExpiresAt.Some? &&
       db.consumers[k].leaseExpiresAt.value <= now)
    ensures !Claimable(db, k, now) ==> AfterClaimConsumer(db, k, now, leaseMs) == db
  {
  }

  /** Ending a claim takes its holder; a failed one can be claimed again at once, a
      finished one never. */
  lemma EndedClaim(db: Db, k: ConsumerKey, token: Token, later: int)
    ensures HoldsClaim(db, k, token) ==>
      && Claimable(AfterFail(db, k, token), k, later) && !Claimable(AfterComplete(db, k, token), k, later)
      && FinishedFor(AfterComplete(db, k, token), k.event, k.consumer)
      && !HoldsClaim(AfterFail(db, k, token), k, token) && !HoldsClaim(AfterComplete(db, k, token), k, token)
    ensures !HoldsClaim(db, k, token) ==> AfterFail(db, k, token) == db && AfterComplete(db, k, token) == db
  {
  }
}
