/** What each whole operation does to the stores of one event when nothing interleaves with it,
    at one reading `now` of the clock. */
module Operations {
  import opened Domain
  import opened WaitingQueue

  datatype JoinResult = NotStarted | Ended | AlreadyInQueue(position: nat, status: EntryStatus) | Joined(position: nat)

  datatype JoinOutcome = EventNotFound | JoinOutcome(result: JoinResult)

  /** `SaveFailed` is the exception re-thrown after the catch has returned the seat. */
  datatype PromotionResult =
    | Promoted(user: UserId, row: nat)
    | SoldOut(user: UserId)
    | NoUsersInQueue
    | SaveFailed(user: UserId)

  datatype PaymentResult =
    | PaymentDone
    | ReservationNotFound
    | Forbidden
    | NotPayable(status: ReservationStatus)
    | ReservationExpired

  datatype ExpirationResult = ExpiredNow | AlreadyProcessed | NotPending | NotFound

  function Join(e: Event, s: EventStore, u: UserId, now: Time): (EventStore, JoinResult) {
    if now < e.salesStartAt then (s, NotStarted)
    else if now > e.salesEndAt then (s, Ended)
    else if u in s.entries then
      (s, AlreadyInQueue(match Position(s.queue, u) case Some(p) => p case None => s.entries[u].position,
                         s.entries[u].status))
    else
      var q := Add(s.queue, Member(now, u));
      var p := match Position(q, u) case Some(p) => p case None => 1;
      (s.(queue := q, entries := s.entries[u := Entry(EntryStatus.Waiting, p, None)]), Joined(p))
  }

  /** A join at an event that may not exist. */
  function JoinAt(events: map<EventId, Event>, e: EventId, s: EventStore, u: UserId, now: Time)
      : (EventStore, JoinOutcome)
  {
    if e !in events then (s, EventNotFound)
    else var (s', result) := Join(events[e], s, u, now); (s', JoinOutcome(result))
  }

  /** The state after a user was granted a seat, reserved, dequeued and activated. */
  function Grant(s: EventStore, u: UserId, now: Time): EventStore {
    s.(seats := s.seats - 1,
       rows := s.rows + [Reservation(u, PendingPayment, now + RESERVATION_TTL, None)],
       jobs := s.jobs[|s.rows| := now + RESERVATION_TTL],
       entries := WithReservation(s.entries, u, |s.rows|),
       queue := Remove(s.queue, u),
       active := s.active[u := now + ACTIVE_USER_TTL],
       activeCount := s.activeCount + 1)
  }

  /** The command of a promotion that is rejected, if any. */
  datatype Fault = Never | OnSave | OnJob | OnEntry | OnDequeue | OnKey | OnCount

  /** How far a promotion gets, the seat being taken already, before its first rejected command. */
  function GrantedUpTo(s: EventStore, u: UserId, now: Time, fault: Fault): EventStore {
    if fault.OnSave? then s
    else
      var saved := s.(rows := s.rows + [Reservation(u, PendingPayment, now + RESERVATION_TTL, None)]);
      if fault.OnJob? then saved
      else
        var submitted := saved.(jobs := s.jobs[|s.rows| := now + RESERVATION_TTL]);
        if fault.OnEntry? then submitted
        else
          var entered := submitted.(entries := WithReservation(s.entries, u, |s.rows|));
          if fault.OnDequeue? then entered
          else
            var dequeued := entered.(queue := Remove(s.queue, u));
            if fault.OnKey? then dequeued
            else dequeued.(active := s.active[u := now + ACTIVE_USER_TTL],
                           activeCount := s.activeCount + (if fault.OnCount? then 0 else 1))
  }

  /** handleSuccessfulPromotion: whatever command is rejected, the catch block returns the seat. */
  function GrantOrRefund(s: EventStore, u: UserId, now: Time, fault: Fault): EventStore {
    var t := GrantedUpTo(s, u, now, fault);
    if fault.Never? then t else t.(seats := t.seats + 1)
  }

  function Drop(s: EventStore, u: UserId): EventStore {
    s.(entries := WithStatus(s.entries, u, EntryStatus.Expired), queue := Remove(s.queue, u))
  }

  /** `saved` says whether saving the reservation row succeeds. */
  function Promote(s: EventStore, now: Time, saved: bool): (EventStore, PromotionResult) {
    if s.queue == [] then (s, NoUsersInQueue)
    else
      var u := s.queue[0].user;
      if s.seats - 1 >= 0 then
        if saved then (Grant(s, u, now), Promoted(u, |s.rows|)) else (s, SaveFailed(u))
      else (Drop(s, u), SoldOut(u))
  }

  function Pay(s: EventStore, r: nat, u: UserId, now: Time): (EventStore, PaymentResult) {
    if r >= |s.rows| then (s, ReservationNotFound)
    else
      var row := s.rows[r];
      if row.user != u then (s, Forbidden)
      else if !row.status.PendingPayment? then (s, NotPayable(row.status))
      else if now > row.expiresAt then (s, ReservationExpired)
      else (s.(rows := s.rows[r := row.(status := ReservationStatus.Paid, paidAt := Some(now))],
               entries := WithStatus(s.entries, row.user, EntryStatus.Done)), PaymentDone)
  }

  /** DEL of the active key, and DECR of the count only when the key still existed. */
  function Deactivate(s: EventStore, u: UserId, now: Time): EventStore {
    s.(active := s.active - {u}, activeCount := s.activeCount - (if KeyLive(s.active, u, now) then 1 else 0))
  }

  function Release(s: EventStore, r: nat, now: Time): EventStore
    requires r < |s.rows|
  {
    var u := s.rows[r].user;
    Deactivate(s.(locks := s.locks[r := Until(now + LOCK_TTL)],
                  seats := s.seats + 1,
                  rows := s.rows[r := s.rows[r].(status := ReservationStatus.Expired)],
                  entries := WithStatus(s.entries, u, EntryStatus.Expired)), u, now)
  }

  function Expire(s: EventStore, r: nat, now: Time): (EventStore, ExpirationResult) {
    if r >= |s.rows| then (s, NotFound)
    else if !s.rows[r].status.PendingPayment? then (s, NotPending)
    else if LockHeld(s.locks, r, now) then (s, AlreadyProcessed)
    else (Release(s, r, now), ExpiredNow)
  }

  /** `promoteUsers`: results in order; `thrown` when a failed save cut the run short. */
  datatype BatchOutcome = BatchOutcome(store: EventStore, results: seq<PromotionResult>, thrown: bool)

  /** Outcome of the next save; a save that the script does not mention succeeds. */
  function NextSave(saves: seq<bool>): bool { saves == [] || saves[0] }

  function LaterSaves(saves: seq<bool>): seq<bool> { if saves == [] then [] else saves[1..] }

  /** How many more users may be active. */
  function SlotsAvailable(s: EventStore, maxActiveUsers: int): (slots: nat)
    ensures s.activeCount < maxActiveUsers ==> s.activeCount + slots == maxActiveUsers
    ensures s.activeCount >= maxActiveUsers ==> slots == 0
  {
    Max(0, maxActiveUsers - s.activeCount)
  }

  function PromoteMany(s: EventStore, slots: nat, now: Time, saves: seq<bool>): BatchOutcome
    decreases slots
  {
    if slots == 0 then BatchOutcome(s, [], false)
    else
      var (s', result) := Promote(s, now, NextSave(saves));
      match result
      case SaveFailed(_) => BatchOutcome(s', [], true)
      case NoUsersInQueue => BatchOutcome(s', [result], false)
      case SoldOut(_) => BatchOutcome(s', [result], false)
      case Promoted(_, _) =>
        var rest := PromoteMany(s', slots - 1, now, LaterSaves(saves));
        BatchOutcome(rest.store, [result] + rest.results, rest.thrown)
  }

  function PromoteUsers(s: EventStore, maxActiveUsers: int, now: Time, saves: seq<bool>): BatchOutcome {
    PromoteMany(s, SlotsAvailable(s, maxActiveUsers), now, saves)
  }
}
