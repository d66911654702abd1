/** The system a client sees: every operation, from creation of an event on, keeps Redis and the database
    coupled for every event at once. */
module Application {
  import opened Domain
  import opened Operations
  import opened WaitingQueue
  import opened Coupling
  import opened Outcomes
  import opened Redis
  import opened Database
  import opened Services
  import opened Processors
  import OperationRuns

  /** What `Coherent` asks of the stores of one identifier. */
  ghost predicate InPlace(events: map<EventId, Event>, e: EventId, s: EventStore) {
    if e in events then Coupled(events[e].totalSeats, s) else s == NewStore(0)
  }

  /** Every event is coupled; nothing is stored under an identifier that is not yet an event's. */
  ghost predicate Coherent(redis: RedisService, db: Tables)
    reads redis, db
  {
    && (forall e :: e in db.events ==> e < db.nextEvent)
    && (forall e :: InPlace(db.events, e, StoreOf(redis, db, e)))
  }

  /** What the tick does to one event of a coherent system: a batch if the event is on sale, nothing otherwise. */
  ghost predicate PromotedByTick(events: map<EventId, Event>, e: EventId, s: EventStore, t: EventStore,
                                 maxActiveUsers: int, now: Time, saves: map<EventId, seq<bool>>)
  {
    if e in events && events[e].salesStartAt <= now && now <= events[e].salesEndAt
    then StoreBatched(s, t, maxActiveUsers, now, if e in saves then saves[e] else []) else t == s
  }

  /** Coupled stores are ready for a batch; the owner of a pending reservation is off the queue, its lock free. */
  lemma CoupledReady(total: nat, s: EventStore, r: nat, now: Time)
    requires Coupled(total, s)
    ensures Ready(s)
    ensures r < |s.rows| && s.rows[r].status == PendingPayment ==>
              !InQueue(s.queue, s.rows[r].user) && !Locked(s, r, now)
  {
    if r < |s.rows| && s.rows[r].status == PendingPayment { assert EntryAgrees(s, s.rows[r].user); }
  }

  class System {
    const redis: RedisService
    const db: Tables
    const reservations: ReservationsService
    const queue: QueueService
    const promotion: QueuePromotionProcessor
    const expiration: ReservationExpirationProcessor
    const events: EventsService

    constructor (maxActiveUsers: int)
      ensures fresh(redis) && fresh(db) && Wired() && Coherent(redis, db) && db.events == map[]
      ensures promotion.maxActiveUsers == maxActiveUsers
    {
      var redis := new RedisService();
      var db := new Tables();
      var reservations := new ReservationsService(redis, db);
      var queue := new QueueService(redis, db, reservations);
      var promotion := new QueuePromotionProcessor(redis, db, queue, maxActiveUsers);
      var expiration := new ReservationExpirationProcessor(redis, db, reservations, promotion);
      var events := new EventsService(redis, db);
      this.redis, this.db := redis, db;
      this.reservations, this.queue, this.promotion := reservations, queue, promotion;
      this.expiration, this.events := expiration, events;
    }

    ghost predicate Wired() {
      && reservations.redis == redis && reservations.db == db
      && queue.redis == redis && queue.db == db && queue.Wired()
      && promotion.redis == redis && promotion.db == db && promotion.Wired()
      && expiration.redis == redis && expiration.db == db && expiration.promotion == promotion && expiration.Wired()
      && events.redis == redis && events.db == db
    }

    method CreateEvent(event: Event) returns (e: EventId)
      requires Wired() && Coherent(redis, db)
      modifies redis, db
      ensures Coherent(redis, db)
      ensures e !in old(db.events) && db.events == old(db.events)[e := event]
      ensures StoreOf(redis, db, e) == EventStore(event.totalSeats, [], map[], [], map[], map[], 0, map[])
      ensures forall d :: d != e ==> StoreOf(redis, db, d) == old(StoreOf(redis, db, d))
    {
      e := events.Create(event);
      NewStoreCoupled(event.totalSeats);
    }

    method Join(e: EventId, u: UserId, now: Time) returns (out: JoinOutcome)
      requires Wired() && Coherent(redis, db)
      modifies redis, db
      ensures Coherent(redis, db)
      ensures out == JoinAt(old(db.events), e, old(StoreOf(redis, db, e)), u, now).1
      ensures OnlyChanges(redis, db, e, JoinAt(old(db.events), e, old(StoreOf(redis, db, e)), u, now).0)
      ensures JoinAnswered(old(db.events), e, old(StoreOf(redis, db, e)), StoreOf(redis, db, e), u, now, out)
    {
      ghost var s := StoreOf(redis, db, e);
      ghost var t := JoinAt(db.events, e, s, u, now).0;
      if e in db.events { JoinKeepsCoupling(db.events[e], db.events[e].totalSeats, s, u, now); }
      out := queue.JoinQueue(e, u, now);
    }

    method Pay(e: EventId, r: nat, u: UserId, now: Time) returns (result: PaymentResult)
      requires Wired() && Coherent(redis, db)
      modifies redis, db
      ensures Coherent(redis, db)
      ensures result == Operations.Pay(old(StoreOf(redis, db, e)), r, u, now).1
      ensures OnlyChanges(redis, db, e, Operations.Pay(old(StoreOf(redis, db, e)), r, u, now).0)
      ensures PaymentAnswered(old(StoreOf(redis, db, e)), StoreOf(redis, db, e), r, u, now, result)
    {
      ghost var s := StoreOf(redis, db, e);
      ghost var t := Operations.Pay(s, r, u, now).0;
      if e in db.events { PayKeepsCoupling(db.events[e].totalSeats, s, r, u, now); }
      result := reservations.ProcessPayment(e, r, u, now);
    }

    /** One delivery of an expiry job. */
    method ExpiryJob(e: EventId, r: nat, now: Time, saves: seq<bool>)
      requires Wired() && Coherent(redis, db)
      modifies redis, db
      ensures Coherent(redis, db)
      ensures OnlyChanges(redis, db, e, Processed(old(StoreOf(redis, db, e)), r, promotion.maxActiveUsers, now, saves))
      ensures e in db.events ==>
                var s, t := old(StoreOf(redis, db, e)), StoreOf(redis, db, e);
                if r < |s.rows| && s.rows[r].status == PendingPayment
                then SeatPassedOn(s, t, r, promotion.maxActiveUsers, now, saves) else t == s
    {
      if e in db.events { CoupledReady(db.events[e].totalSeats, StoreOf(redis, db, e), r, now); }
      ProcessedInPlace(db.events, e, StoreOf(redis, db, e), r, promotion.maxActiveUsers, now, saves);
      expiration.Process(e, r, now, saves);
    }

    /** One run of the cron job. */
    method PromotionTick(now: Time, saves: map<EventId, seq<bool>>)
      requires Wired() && Coherent(redis, db)
      modifies redis, db
      ensures Coherent(redis, db) && db.events == old(db.events)
      ensures forall e :: StoreOf(redis, db, e)
                          == Ticked(old(db.events), e, old(StoreOf(redis, db, e)), promotion.maxActiveUsers, now, saves)
      ensures forall e :: PromotedByTick(old(db.events), e, old(StoreOf(redis, db, e)), StoreOf(redis, db, e),
                                         promotion.maxActiveUsers, now, saves)
    {
      forall e | e in db.events ensures Ready(StoreOf(redis, db, e)) {
        CoupledReady(db.events[e].totalSeats, StoreOf(redis, db, e), 0, now);
      }
      forall e | e in db.events
        ensures Coupled(db.events[e].totalSeats,
                        Ticked(db.events, e, StoreOf(redis, db, e), promotion.maxActiveUsers, now, saves))
      {
        var s := StoreOf(redis, db, e);
        OperationRuns.PromoteManyKeepsCoupling(db.events[e].totalSeats, s, SlotsAvailable(s, promotion.maxActiveUsers),
                                               now, Script(saves, e));
      }
      promotion.HandlePromotionCheck(now, saves);
    }

    /** The statistics of an event always account for every seat. */
    method Statistics(e: EventId) returns (stats: Option<Stats>)
      requires Wired() && Coherent(redis, db)
      ensures stats.Some? <==> e in db.events
      ensures stats.Some? ==>
                && stats.value.queueLength == |StoreOf(redis, db, e).queue|
                && Counted(StoreOf(redis, db, e).rows, stats.value.counts)
                && stats.value.remainingSeats >= 0
                && stats.value.remainingSeats + stats.value.counts.pendingPayment + stats.value.counts.paid
                   == db.events[e].totalSeats
    {
      stats := events.GetStats(e);
      if stats.Some? {
        assert Coupled(db.events[e].totalSeats, StoreOf(redis, db, e));
        OperationRuns.KeptSeatsSplit(StoreOf(redis, db, e).rows);
        CountIsRows(StoreOf(redis, db, e).rows, PendingPayment);
        CountIsRows(StoreOf(redis, db, e).rows, ReservationStatus.Paid);
      }
    }
  }

  lemma ProcessedInPlace(events: map<EventId, Event>, e: EventId, s: EventStore, r: nat, maxActiveUsers: int, now: Time,
                         saves: seq<bool>)
    requires InPlace(events, e, s)
    ensures InPlace(events, e, Processed(s, r, maxActiveUsers, now, saves))
  {
    if e in events {
      var s' := Expire(s, r, now).0;
      ExpireKeepsCoupling(events[e].totalSeats, s, r, now);
      OperationRuns.PromoteManyKeepsCoupling(events[e].totalSeats, s', SlotsAvailable(s', maxActiveUsers), now, saves);
    }
  }
}
