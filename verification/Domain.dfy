/** Entities of the ticketing system and the stores that one event touches.
    Times are milliseconds. User and event identifiers are opaque, so numbers stand in for them;
    `<` on users is the byte order by which a Redis sorted set breaks ties. */
module Domain {
  type EventId = nat
  type UserId = nat
  type Time = int

  const RESERVATION_TTL: Time := 300_000
  const ACTIVE_USER_TTL: Time := 300_000
  const LOCK_TTL: Time := 3_600_000

  datatype Option<+T> = None | Some(value: T)

  function Max(x: int, y: int): int { if x >= y then x else y }

  function Min(x: int, y: int): int { if x <= y then x else y }

  datatype EntryStatus = Waiting | Active | Done | Expired

  datatype ReservationStatus = PendingPayment | Paid | Canceled | Expired

  datatype Event = Event(totalSeats: nat, salesStartAt: Time, salesEndAt: Time)

  /** A sorted-set element: joining time as score, user as member. */
  datatype Member = Member(score: Time, user: UserId)

  datatype Entry = Entry(status: EntryStatus, position: nat, reservation: Option<nat>)

  datatype Reservation = Reservation(user: UserId, status: ReservationStatus, expiresAt: Time, paidAt: Option<Time>)

  /** A `reservationExpired:{id}` key: SETNX creates it without a time to live, EXPIRE adds one. */
  datatype Lock = NoTtl | Until(t: Time)

  /** Everything that Redis, the database and the job queue hold about one event.
      Reservations are never deleted, so a reservation is named by its index in `rows`.
      Keys whose time to live has passed stay in `active` and `locks`; reads compare with the clock. */
  datatype EventStore = EventStore(
    seats: int,
    queue: seq<Member>,
    entries: map<UserId, Entry>,
    rows: seq<Reservation>,
    jobs: map<nat, Time>,
    active: map<UserId, Time>,
    activeCount: int,
    locks: map<nat, Lock>)

  /** The stores right after an event was created. */
  function NewStore(totalSeats: nat): EventStore {
    EventStore(totalSeats, [], map[], [], map[], map[], 0, map[])
  }

  predicate OnSale(e: Event, now: Time) { e.salesStartAt <= now <= e.salesEndAt }

  predicate LockHeld(locks: map<nat, Lock>, r: nat, now: Time) {
    r in locks && (locks[r].NoTtl? || now < locks[r].t)
  }

  predicate KeyLive(active: map<UserId, Time>, u: UserId, now: Time) {
    u in active && now < active[u]
  }

  function LiveKeys(active: map<UserId, Time>, now: Time): set<UserId> {
    set u | u in active && now < active[u]
  }

  /** `UPDATE queue_entries ... WHERE userId = u`: affects no row when there is no entry. */
  function WithStatus(entries: map<UserId, Entry>, u: UserId, status: EntryStatus): map<UserId, Entry> {
    if u in entries then entries[u := entries[u].(status := status)] else entries
  }

  function WithReservation(entries: map<UserId, Entry>, u: UserId, r: nat): map<UserId, Entry> {
    if u in entries then entries[u := entries[u].(status := EntryStatus.Active, reservation := Some(r))] else entries
  }
}
