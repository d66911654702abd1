/** The services and job processors, command by command, each proved to do to the stores of its event what
    the whole-operation specification says, and nothing to any other event. */
module Services {
  import opened Domain
  import opened WaitingQueue
  import opened Operations
  import opened Batches
  import opened Outcomes
  import opened Answers
  import opened Redis
  import opened Database

  /** The stores of one event, read off the keyspace and the tables. */
  ghost function StoreOf(redis: RedisService, db: Tables, e: EventId): EventStore
    reads redis, db
  {
    var k, t := redis.KeysOf(e), db.RowsOf(e);
    EventStore(k.seats, k.queue, t.entries, t.reservations, t.jobs, k.active, k.activeCount, k.locks)
  }

  /** The operation left event `e` with the stores `s` and every other event alone. */
  twostate predicate OnlyChanges(redis: RedisService, db: Tables, e: EventId, s: EventStore)
    reads redis, db
  {
    && db.events == old(db.events) && db.nextEvent == old(db.nextEvent)
    && StoreOf(redis, db, e) == s
    && (forall d :: d != e ==> StoreOf(redis, db, d) == old(StoreOf(redis, db, d)))
  }

  class ReservationsService {
    const redis: RedisService
    const db: Tables

    constructor (redis: RedisService, db: Tables)
      ensures this.redis == redis && this.db == db
    {
      this.redis, this.db := redis, db;
    }

    /** Nothing is stored when the save is rejected, no job when its submission is. */
    method CreateReservation(e: EventId, u: UserId, now: Time, fault: Fault) returns (r: Option<nat>)
      modifies db
      ensures r == if fault.OnSave? || fault.OnJob? then None else Some(|old(db.RowsOf(e)).reservations|)
      ensures var s := old(StoreOf(redis, db, e));
              var saved := s.(rows := s.rows + [Reservation(u, PendingPayment, now + RESERVATION_TTL, None)]);
              OnlyChanges(redis, db, e,
                if fault.OnSave? then s
                else if fault.OnJob? then saved
                else saved.(jobs := s.jobs[|s.rows| := now + RESERVATION_TTL]))
    {
      var expiresAt := now + RESERVATION_TTL;
      if fault.OnSave? { return None; }
      var id := db.InsertReservation(e, Reservation(u, PendingPayment, expiresAt, None));
      if fault.OnJob? { return None; }
      db.AddJob(e, id, now + RESERVATION_TTL);
      r := Some(id);
    }

    method ProcessPayment(e: EventId, r: nat, u: UserId, now: Time) returns (result: PaymentResult)
      modifies db
      ensures result == Pay(old(StoreOf(redis, db, e)), r, u, now).1
      ensures OnlyChanges(redis, db, e, Pay(old(StoreOf(redis, db, e)), r, u, now).0)
      ensures PaymentAnswered(old(StoreOf(redis, db, e)), StoreOf(redis, db, e), r, u, now, result)
    {
      PayAnswers(StoreOf(redis, db, e), r, u, now);
      if r >= |db.RowsOf(e).reservations| { return ReservationNotFound; }
      var row := db.RowsOf(e).reservations[r];
      if row.user != u { return Forbidden; }
      if !row.status.PendingPayment? { return NotPayable(row.status); }
      if now > row.expiresAt { return ReservationExpired; }
      db.UpdateReservation(e, r, row.(status := ReservationStatus.Paid, paidAt := Some(now)));
      db.UpdateEntryStatus(e, row.user, EntryStatus.Done);
      result := PaymentDone;
    }

    method ExpireReservation(e: EventId, r: nat, now: Time) returns (result: ExpirationResult)
      modifies redis, db
      ensures result == Expire(old(StoreOf(redis, db, e)), r, now).1
      ensures OnlyChanges(redis, db, e, Expire(old(StoreOf(redis, db, e)), r, now).0)
      ensures ExpiryAnswered(old(StoreOf(redis, db, e)), StoreOf(redis, db, e), r, now, result)
    {
      ExpireAnswers(StoreOf(redis, db, e), r, now);
      if r >= |db.RowsOf(e).reservations| { return NotFound; }
      var row := db.RowsOf(e).reservations[r];
      if !row.status.PendingPayment? { return NotPending; }
      var first := redis.SetReservationExpired(e, r, now);
      if !first { return AlreadyProcessed; }
      ReleaseSeat(e, r, row, now);
      result := ExpiredNow;
    }

    /** The commands of the try block, once the lock is taken. */
    method ReleaseSeat(e: EventId, r: nat, row: Reservation, now: Time)
      requires r < |db.RowsOf(e).reservations| && db.RowsOf(e).reservations[r] == row
      modifies redis, db
      ensures var s := old(StoreOf(redis, db, e));
              OnlyChanges(redis, db, e,
                Deactivate(s.(seats := s.seats + 1,
                              rows := s.rows[r := row.(status := ReservationStatus.Expired)],
                              entries := WithStatus(s.entries, row.user, EntryStatus.Expired)), row.user, now))
    {
      redis.IncrementSeats(e);
      db.UpdateReservation(e, r, row.(status := ReservationStatus.Expired));
      db.UpdateEntryStatus(e, row.user, EntryStatus.Expired);
      redis.RemoveActiveUser(e, row.user, now);
    }
  }

  /** A call that does not promote ends the batch. */
  lemma CallStops(results: seq<PromotionResult>, s: EventStore, slots: nat, now: Time, saves: seq<bool>)
    requires slots > 0 && !Promote(s, now, NextSave(saves)).1.Promoted?
    ensures var (s', result) := Promote(s, now, NextSave(saves));
            Prepend(results, PromoteMany(s, slots, now, saves)) ==
            BatchOutcome(s', if result.SaveFailed? then results else results + [result], result.SaveFailed?)
  {}

  /** A call that promotes leaves the rest of the batch to do. */
  lemma CallResumes(results: seq<PromotionResult>, s: EventStore, slots: nat, now: Time, saves: seq<bool>)
    requires slots > 0 && Promote(s, now, NextSave(saves)).1.Promoted?
    ensures var (s', result) := Promote(s, now, NextSave(saves));
            Prepend(results, PromoteMany(s, slots, now, saves)) ==
            Prepend(results + [result], PromoteMany(s', slots - 1, now, LaterSaves(saves)))
  {}

  lemma OutcomeAnswers(s: EventStore, maxActiveUsers: int, now: Time, saves: seq<bool>, out: BatchOutcome)
    requires out == Operations.PromoteUsers(s, maxActiveUsers, now, saves)
    ensures LimitRespected(s, out.store, maxActiveUsers)
    ensures s.activeCount >= maxActiveUsers ==> out.results == [] && !out.thrown
    ensures Ready(s) ==> BatchAnswered(s, out.store, maxActiveUsers, now, saves, out.results, out.thrown)
  {
    PromoteUsersRespectsLimit(s, maxActiveUsers, now, saves);
    if Ready(s) { PromoteUsersAnswers(s, maxActiveUsers, now, saves); }
  }

  class QueueService {
    const redis: RedisService
    const db: Tables
    const reservations: ReservationsService

    constructor (redis: RedisService, db: Tables, reservations: ReservationsService)
      ensures this.redis == redis && this.db == db && this.reservations == reservations
    {
      this.redis, this.db, this.reservations := redis, db, reservations;
    }

    ghost predicate Wired() { reservations.redis == redis && reservations.db == db }

    method JoinQueue(e: EventId, u: UserId, now: Time) returns (out: JoinOutcome)
      modifies redis, db
      ensures out == JoinAt(old(db.events), e, old(StoreOf(redis, db, e)), u, now).1
      ensures OnlyChanges(redis, db, e, JoinAt(old(db.events), e, old(StoreOf(redis, db, e)), u, now).0)
      ensures JoinAnswered(old(db.events), e, old(StoreOf(redis, db, e)), StoreOf(redis, db, e), u, now, out)
    {
      JoinAnswers(db.events, e, StoreOf(redis, db, e), u, now);
      if e !in db.events { return EventNotFound; }
      var event := db.events[e];
      if now < event.salesStartAt { return JoinOutcome(NotStarted); }
      if now > event.salesEndAt { return JoinOutcome(Ended); }
      if u in db.RowsOf(e).entries {
        var entry := db.RowsOf(e).entries[u];
        var rank := Position(redis.KeysOf(e).queue, u);
        return JoinOutcome(AlreadyInQueue(if rank.Some? then rank.value else entry.position, entry.status));
      }
      var position := redis.AddToQueue(e, u, now);
      db.SaveEntry(e, u, Entry(EntryStatus.Waiting, position, None));
      out := JoinOutcome(Joined(position));
    }

    method PromoteNextUser(e: EventId, now: Time, saved: bool) returns (result: PromotionResult)
      requires Wired()
      modifies redis, db
      ensures result == Promote(old(StoreOf(redis, db, e)), now, saved).1
      ensures OnlyChanges(redis, db, e, Promote(old(StoreOf(redis, db, e)), now, saved).0)
      ensures PromotionAnswered(old(StoreOf(redis, db, e)), StoreOf(redis, db, e), now, saved, result)
    {
      PromoteAnswers(StoreOf(redis, db, e), now, saved);
      var next := redis.GetNextInQueue(e);
      FirstIsHead(redis.KeysOf(e).queue, if next.Some? then next.value else 0);
      if next.None? { return NoUsersInQueue; }
      result := ServeHead(e, next.value, now, saved);
    }

    /** DECR, and what follows it in either case. */
    method ServeHead(e: EventId, u: UserId, now: Time, saved: bool) returns (result: PromotionResult)
      requires Wired() && redis.KeysOf(e).queue != [] && u == redis.KeysOf(e).queue[0].user
      modifies redis, db
      ensures result == Promote(old(StoreOf(redis, db, e)), now, saved).1
      ensures OnlyChanges(redis, db, e, Promote(old(StoreOf(redis, db, e)), now, saved).0)
    {
      var remaining := redis.DecrementSeats(e);
      if remaining >= 0 {
        var r := HandleSuccessfulPromotion(e, u, now, if saved then Never else OnSave);
        result := if r.Some? then Promoted(u, r.value) else SaveFailed(u);
      } else {
        HandleSoldOut(e, u);
        result := SoldOut(u);
      }
    }

    /** The seat is taken already; any rejected command leads to the catch block, which gives it back. */
    method HandleSuccessfulPromotion(e: EventId, u: UserId, now: Time, fault: Fault) returns (r: Option<nat>)
      requires Wired()
      modifies redis, db
      ensures var s := old(StoreOf(redis, db, e));
              && r == (if fault.Never? then Some(|s.rows|) else None)
              && OnlyChanges(redis, db, e, GrantOrRefund(s, u, now, fault))
              && PromotionHandled(s, StoreOf(redis, db, e), u, now, fault)
    {
      GrantOrRefundAnswers(StoreOf(redis, db, e), u, now, fault);
      r := Promotion(e, u, now, fault);
      if r.None? { redis.IncrementSeats(e); }
    }

    /** The commands of the try block, up to the first one that is rejected. */
    method Promotion(e: EventId, u: UserId, now: Time, fault: Fault) returns (r: Option<nat>)
      requires Wired()
      modifies redis, db
      ensures var s := old(StoreOf(redis, db, e));
              && r == (if fault.Never? then Some(|s.rows|) else None)
              && OnlyChanges(redis, db, e, GrantedUpTo(s, u, now, fault))
    {
      r := reservations.CreateReservation(e, u, now, fault);
      if r.None? || fault.OnEntry? { return None; }
      db.ActivateEntry(e, u, r.value);
      if fault.OnDequeue? { return None; }
      AdmitUser(e, u, now, fault);
      if fault.OnKey? || fault.OnCount? { return None; }
    }

    /** Off the queue, and active. */
    method AdmitUser(e: EventId, u: UserId, now: Time, fault: Fault)
      modifies redis
      ensures var s := old(StoreOf(redis, db, e));
              var dequeued := s.(queue := Remove(s.queue, u));
              OnlyChanges(redis, db, e,
                if fault.OnKey? then dequeued
                else dequeued.(active := s.active[u := now + ACTIVE_USER_TTL],
                               activeCount := s.activeCount + (if fault.OnCount? then 0 else 1)))
    {
      redis.RemoveFromQueue(e, u);
      if fault.OnKey? { return; }
      redis.SetActiveUser(e, u, now, !fault.OnCount?);
    }

    method HandleSoldOut(e: EventId, u: UserId)
      modifies redis, db
      ensures var s := old(StoreOf(redis, db, e));
              && OnlyChanges(redis, db, e, Drop(s.(seats := s.seats + 1), u))
              && SoldOutHandled(s, StoreOf(redis, db, e), u)
    {
      redis.IncrementSeats(e);
      db.UpdateEntryStatus(e, u, EntryStatus.Expired);
      redis.RemoveFromQueue(e, u);
    }

    /** `saves` scripts the database's answers; `thrown` is the exception of a failed save, which discards
        the results in the caller. */
    method PromoteUsers(e: EventId, maxActiveUsers: int, now: Time, saves: seq<bool>)
      returns (results: seq<PromotionResult>, thrown: bool)
      requires Wired()
      modifies redis, db
      ensures var out := Operations.PromoteUsers(old(StoreOf(redis, db, e)), maxActiveUsers, now, saves);
              results == out.results && thrown == out.thrown && OnlyChanges(redis, db, e, out.store)
      ensures var s, t := old(StoreOf(redis, db, e)), StoreOf(redis, db, e);
              && LimitRespected(s, t, maxActiveUsers)
              && (s.activeCount >= maxActiveUsers ==> results == [] && !thrown)
              && (Ready(s) ==> BatchAnswered(s, t, maxActiveUsers, now, saves, results, thrown))
    {
      var currentActiveCount := redis.KeysOf(e).activeCount;
      var slotsAvailable := Max(0, maxActiveUsers - currentActiveCount);
      ghost var s := StoreOf(redis, db, e);
      results, thrown := FillSlots(e, slotsAvailable, now, saves);
      OutcomeAnswers(s, maxActiveUsers, now, saves, BatchOutcome(StoreOf(redis, db, e), results, thrown));
    }

    /** The loop of `promoteUsers`. */
    method FillSlots(e: EventId, slotsAvailable: nat, now: Time, saves: seq<bool>)
      returns (results: seq<PromotionResult>, thrown: bool)
      requires Wired()
      modifies redis, db
      ensures var out := PromoteMany(old(StoreOf(redis, db, e)), slotsAvailable, now, saves);
              results == out.results && thrown == out.thrown && OnlyChanges(redis, db, e, out.store)
    {
      results, thrown := [], false;
      var i, rest := 0, saves;
      ghost var s0 := StoreOf(redis, db, e);
      ghost var goal := PromoteMany(s0, slotsAvailable, now, saves);
      PrependNothing(goal);
      while i < slotsAvailable
        invariant 0 <= i <= slotsAvailable
        invariant db.events == old(db.events) && db.nextEvent == old(db.nextEvent)
        invariant forall d :: d != e ==> StoreOf(redis, db, d) == old(StoreOf(redis, db, d))
        invariant Prepend(results, PromoteMany(StoreOf(redis, db, e), slotsAvailable - i, now, rest)) == goal
      {
        ghost var s := StoreOf(redis, db, e);
        var result := PromoteNextUser(e, now, NextSave(rest));
        if !result.Promoted? { CallStops(results, s, slotsAvailable - i, now, rest); }
        if result.SaveFailed? { return results, true; }
        if result.Promoted? { CallResumes(results, s, slotsAvailable - i, now, rest); }
        results := results + [result];
        if result.NoUsersInQueue? || result.SoldOut? { return; }
        rest := LaterSaves(rest);
        i := i + 1;
      }
    }
  }
}
