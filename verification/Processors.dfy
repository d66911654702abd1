/** The cron tick, the expiry job, and the event service. */
module Processors {
  import opened Domain
  import opened Operations
  import opened WaitingQueue
  import opened Coupling
  import opened Batches
  import opened Outcomes
  import opened Answers
  import opened Redis
  import opened Database
  import opened Services

  /** The database's answers to the saves of one event's batch; saves beyond the script succeed. */
  function Script(saves: map<EventId, seq<bool>>, e: EventId): seq<bool> { if e in saves then saves[e] else [] }

  /** The stores of one event after a tick that processed this event alone. */
  function Ticked(events: map<EventId, Event>, e: EventId, s: EventStore, maxActiveUsers: int, now: Time,
                  saves: map<EventId, seq<bool>>): EventStore
  {
    if e in events && OnSale(events[e], now)
    then Operations.PromoteUsers(s, maxActiveUsers, now, Script(saves, e)).store
    else s
  }

  lemma TickAnswers(events: map<EventId, Event>, e: EventId, s: EventStore, maxActiveUsers: int, now: Time,
                    saves: map<EventId, seq<bool>>)
    ensures TickSeen(events, e, s, Ticked(events, e, s, maxActiveUsers, now, saves), maxActiveUsers, now, saves)
  {
    PromoteUsersRespectsLimit(s, maxActiveUsers, now, Script(saves, e));
    if Ready(s) { PromoteUsersAnswers(s, maxActiveUsers, now, Script(saves, e)); }
  }

  /** `events.filter`: those with ongoing sales, in the given order. */
  function OpenEvents(ids: seq<EventId>, events: map<EventId, Event>, now: Time): (open: seq<EventId>)
    requires forall e :: e in ids ==> e in events
    ensures forall e :: e in open <==> e in ids && OnSale(events[e], now)
    ensures (forall i, j :: 0 <= i < j < |ids| ==> ids[i] != ids[j]) ==>
              forall i, j :: 0 <= i < j < |open| ==> open[i] != open[j]
  {
    if ids == [] then []
    else
      var rest := OpenEvents(ids[..|ids| - 1], events, now);
      assert ids == ids[..|ids| - 1] + [ids[|ids| - 1]];
      if OnSale(events[ids[|ids| - 1]], now) then rest + [ids[|ids| - 1]] else rest
  }

  class QueuePromotionProcessor {
    const redis: RedisService
    const db: Tables
    const queue: QueueService
    const maxActiveUsers: int

    constructor (redis: RedisService, db: Tables, queue: QueueService, maxActiveUsers: int)
      ensures this.redis == redis && this.db == db && this.queue == queue && this.maxActiveUsers == maxActiveUsers
    {
      this.redis, this.db, this.queue, this.maxActiveUsers := redis, db, queue, maxActiveUsers;
    }

    ghost predicate Wired() { queue.redis == redis && queue.db == db && queue.Wired() }

    /** An exception of the batch is caught and logged, so a failing event does not reach the others. */
    method PromoteUsersForEvent(e: EventId, now: Time, saves: seq<bool>)
      requires Wired()
      modifies redis, db
      ensures OnlyChanges(redis, db, e,
                Operations.PromoteUsers(old(StoreOf(redis, db, e)), maxActiveUsers, now, saves).store)
      ensures var s, t := old(StoreOf(redis, db, e)), StoreOf(redis, db, e);
              LimitRespected(s, t, maxActiveUsers) && (Ready(s) ==> StoreBatched(s, t, maxActiveUsers, now, saves))
    {
      var results, thrown := queue.PromoteUsers(e, maxActiveUsers, now, saves);
    }

    /** Whatever the order in which the database lists the events, the tick leaves each open event as if it
        had been the only one, and the others untouched. */
    method HandlePromotionCheck(now: Time, saves: map<EventId, seq<bool>>)
      requires Wired()
      modifies redis, db
      ensures db.events == old(db.events) && db.nextEvent == old(db.nextEvent)
      ensures forall e :: StoreOf(redis, db, e)
                          == Ticked(old(db.events), e, old(StoreOf(redis, db, e)), maxActiveUsers, now, saves)
      ensures forall e :: TickSeen(old(db.events), e, old(StoreOf(redis, db, e)), StoreOf(redis, db, e), maxActiveUsers,
                                   now, saves)
    {
      var ids := db.FindAllEvents();
      var open := OpenEvents(ids, db.events, now);
      PromoteEach(open, now, saves);
      forall e ensures TickSeen(old(db.events), e, old(StoreOf(redis, db, e)), StoreOf(redis, db, e), maxActiveUsers,
                                now, saves)
      {
        TickAnswers(old(db.events), e, old(StoreOf(redis, db, e)), maxActiveUsers, now, saves);
      }
    }

    /** The loop over the open events, one batch each. */
    method PromoteEach(open: seq<EventId>, now: Time, saves: map<EventId, seq<bool>>)
      requires Wired() && forall i, j :: 0 <= i < j < |open| ==> open[i] != open[j]
      modifies redis, db
      ensures db.events == old(db.events) && db.nextEvent == old(db.nextEvent)
      ensures forall e :: StoreOf(redis, db, e)
                          == if e in open
                             then Operations.PromoteUsers(old(StoreOf(redis, db, e)), maxActiveUsers, now,
                                                          Script(saves, e)).store
                             else old(StoreOf(redis, db, e))
    {
      var i := 0;
      while i < |open|
        invariant 0 <= i <= |open|
        invariant db.events == old(db.events) && db.nextEvent == old(db.nextEvent)
        invariant forall e :: StoreOf(redis, db, e)
                    == if e in open[..i]
                       then Operations.PromoteUsers(old(StoreOf(redis, db, e)), maxActiveUsers, now,
                                                    Script(saves, e)).store
                       else old(StoreOf(redis, db, e))
      {
        assert open[i] !in open[..i];
        PromoteUsersForEvent(open[i], now, Script(saves, open[i]));
        assert open[..i + 1] == open[..i] + [open[i]];
        i := i + 1;
      }
      assert open[..i] == open;
    }
  }

  class ReservationExpirationProcessor {
    const redis: RedisService
    const db: Tables
    const reservations: ReservationsService
    const promotion: QueuePromotionProcessor

    constructor (redis: RedisService, db: Tables, reservations: ReservationsService, promotion: QueuePromotionProcessor)
      ensures this.redis == redis && this.db == db && this.reservations == reservations && this.promotion == promotion
    {
      this.redis, this.db, this.reservations, this.promotion := redis, db, reservations, promotion;
    }

    ghost predicate Wired() {
      && reservations.redis == redis && reservations.db == db
      && promotion.redis == redis && promotion.db == db && promotion.Wired()
    }

    /** Expire; and only if that released a seat, promote. */
    method Process(e: EventId, r: nat, now: Time, saves: seq<bool>)
      requires Wired()
      modifies redis, db
      ensures OnlyChanges(redis, db, e, Processed(old(StoreOf(redis, db, e)), r, promotion.maxActiveUsers, now, saves))
      ensures ExpiryProcessed(old(StoreOf(redis, db, e)), StoreOf(redis, db, e), r, promotion.maxActiveUsers, now,
                              saves)
    {
      ExpiryJobAnswers(StoreOf(redis, db, e), r, promotion.maxActiveUsers, now, saves);
      var result := reservations.ExpireReservation(e, r, now);
      if result.ExpiredNow? {
        promotion.PromoteUsersForEvent(e, now, saves);
      }
    }
  }

  function Processed(s: EventStore, r: nat, maxActiveUsers: int, now: Time, saves: seq<bool>): EventStore {
    var (s', result) := Expire(s, r, now);
    if result.ExpiredNow? then Operations.PromoteUsers(s', maxActiveUsers, now, saves).store else s'
  }

  /** A batch after a release passes the seat on. */
  lemma BatchPassesOn(s: EventStore, m: EventStore, r: nat, maxActiveUsers: int, now: Time, saves: seq<bool>)
    requires r < |s.rows| && !InQueue(s.queue, s.rows[r].user) && SeatReleased(s, m, r, now) && Ready(m)
    ensures SeatPassedOn(s, Operations.PromoteUsers(m, maxActiveUsers, now, saves).store, r, maxActiveUsers, now, saves)
  {
    var k := BatchServesUpTo(m, SlotsAvailable(m, maxActiveUsers), now, saves);
    ServedIsPassedOn(s, m, Operations.PromoteUsers(m, maxActiveUsers, now, saves).store, r, maxActiveUsers, now, saves,
                     k);
  }

  lemma ExpiryJobAnswers(s: EventStore, r: nat, maxActiveUsers: int, now: Time, saves: seq<bool>)
    ensures ExpiryProcessed(s, Processed(s, r, maxActiveUsers, now, saves), r, maxActiveUsers, now, saves)
  {
    var (m, result) := Expire(s, r, now);
    ExpireAnswers(s, r, now);
    if result.ExpiredNow? && Ready(s) && !InQueue(s.queue, s.rows[r].user) {
      assert Ready(m);
      BatchPassesOn(s, m, r, maxActiveUsers, now, saves);
      assert Processed(s, r, maxActiveUsers, now, saves)
          == Operations.PromoteUsers(m, maxActiveUsers, now, saves).store;
    }
  }

  datatype Counts = Counts(pendingPayment: int, paid: int, expired: int)

  /** The number of reservations with each status. */
  ghost predicate Counted(rows: seq<Reservation>, counts: Counts) {
    && counts.pendingPayment == |RowsWith(rows, PendingPayment)|
    && counts.paid == |RowsWith(rows, ReservationStatus.Paid)|
    && counts.expired == |RowsWith(rows, ReservationStatus.Expired)|
  }

  datatype Stats = Stats(remainingSeats: int, queueLength: nat, counts: Counts)

  class EventsService {
    const redis: RedisService
    const db: Tables

    constructor (redis: RedisService, db: Tables)
      ensures this.redis == redis && this.db == db
    {
      this.redis, this.db := redis, db;
    }

    method Create(event: Event) returns (e: EventId)
      modifies redis, db
      ensures e == old(db.nextEvent) && db.nextEvent == e + 1 && db.events == old(db.events)[e := event]
      ensures StoreOf(redis, db, e) == old(StoreOf(redis, db, e)).(seats := event.totalSeats)
      ensures forall d :: d != e ==> StoreOf(redis, db, d) == old(StoreOf(redis, db, d))
    {
      e := db.SaveEvent(event);
      redis.InitializeSeats(e, event.totalSeats);
    }

    /** The fold over the grouped rows yields the counts by status, in whatever order the groups come. */
    method GetReservationCountsByStatus(e: EventId) returns (result: Counts)
      ensures Counted(db.RowsOf(e).reservations, result)
    {
      var groups := db.GroupByStatus(e);
      ghost var rows := db.RowsOf(e).reservations;
      result := Counts(0, 0, 0);
      var i := 0;
      while i < |groups|
        invariant 0 <= i <= |groups|
        invariant result == Counts(Folded(groups[..i], rows, PendingPayment),
                                   Folded(groups[..i], rows, ReservationStatus.Paid),
                                   Folded(groups[..i], rows, ReservationStatus.Expired))
      {
        FoldedNext(groups, rows, i);
        var row := groups[i];
        if row.status.PendingPayment? {
          result := result.(pendingPayment := row.count);
        } else if row.status.Paid? {
          result := result.(paid := row.count);
        } else if row.status.Expired? {
          result := result.(expired := row.count);
        }
        i := i + 1;
      }
      FoldedAll(groups, rows);
    }

    method GetStats(e: EventId) returns (stats: Option<Stats>)
      ensures stats.Some? <==> e in db.events
      ensures stats.Some? ==>
                && stats.value.remainingSeats == redis.KeysOf(e).seats
                && stats.value.queueLength == |redis.KeysOf(e).queue|
                && Counted(db.RowsOf(e).reservations, stats.value.counts)
    {
      if e !in db.events { return None; }
      var counts := GetReservationCountsByStatus(e);
      stats := Some(Stats(redis.KeysOf(e).seats, |redis.KeysOf(e).queue|, counts));
    }
  }

  /** The count of a status once its group was seen, zero before. */
  ghost function Folded(seen: seq<StatusCount>, rows: seq<Reservation>, status: ReservationStatus): int {
    if Listed(seen, status) then |RowsWith(rows, status)| else 0
  }

  lemma FoldedNext(groups: seq<StatusCount>, rows: seq<Reservation>, i: nat)
    requires Groups(groups, rows) && i < |groups|
    ensures forall st :: Folded(groups[..i + 1], rows, st)
                         == if groups[i].status == st then groups[i].count else Folded(groups[..i], rows, st)
  {
    forall st ensures Folded(groups[..i + 1], rows, st)
                      == if groups[i].status == st then groups[i].count else Folded(groups[..i], rows, st)
    {
      assert groups[..i + 1][i] == groups[i];
      assert forall k :: 0 <= k < i ==> groups[..i + 1][k] == groups[..i][k];
    }
  }

  lemma FoldedAll(groups: seq<StatusCount>, rows: seq<Reservation>)
    requires Groups(groups, rows)
    ensures forall st :: Folded(groups[..|groups|], rows, st) == |RowsWith(rows, st)|
  {
    assert groups[..|groups|] == groups;
    forall st ensures Folded(groups, rows, st) == |RowsWith(rows, st)| {
      if !Listed(groups, st) { assert RowsWith(rows, st) == {}; }
    }
  }
}
