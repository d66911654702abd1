/** What each operation promises its caller: relations between the stores before, the stores after and the answer,
    stated over rows, entries, keys and the clock. */
module Outcomes {
  import opened Domain
  import opened WaitingQueue
  import opened Operations

  // ---------- Joining ----------

  /** `p` is the place of `u` in the queue, counted from one. */
  predicate AtPosition(q: seq<Member>, u: UserId, p: nat) { 1 <= p <= |q| && q[p - 1].user == u }

  /** ZADD NX put `m` into the queue at position `p`, between the members that stay in their order. */
  ghost predicate Inserted(q: seq<Member>, q': seq<Member>, m: Member, p: nat) {
    && AtPosition(q', m.user, p)
    && (Ordered(q) ==> Ordered(q'))
    && if InQueue(q, m.user) then q' == q else q'[p - 1] == m && q'[..p - 1] + q'[p..] == q
  }

  /** A join of `u` at `now`: refused outside the sales period; a user with an entry gets its status, and its rank or
      else the position stored; anybody else is queued and gets an entry. */
  ghost predicate JoinAnswered(events: map<EventId, Event>, e: EventId, s: EventStore, t: EventStore, u: UserId,
                               now: Time, out: JoinOutcome)
  {
    if e !in events then out == EventNotFound && t == s
    else if now < events[e].salesStartAt then out == JoinOutcome(NotStarted) && t == s
    else if events[e].salesEndAt < now then out == JoinOutcome(Ended) && t == s
    else if u in s.entries then
      && t == s && out.JoinOutcome? && out.result.AlreadyInQueue? && out.result.status == s.entries[u].status
      && (if InQueue(s.queue, u) then AtPosition(s.queue, u, out.result.position)
          else out.result.position == s.entries[u].position)
    else
      && out.JoinOutcome? && out.result.Joined? && Inserted(s.queue, t.queue, Member(now, u), out.result.position)
      && t == s.(queue := t.queue, entries := s.entries[u := Entry(EntryStatus.Waiting, out.result.position, None)])
  }

  // ---------- Entries and rows ----------

  /** The entry of `u`, if there is one, got the status; nothing else changed. */
  predicate EntryMarked(before: map<UserId, Entry>, after: map<UserId, Entry>, u: UserId, status: EntryStatus) {
    && after.Keys == before.Keys
    && (forall v :: v in before && v != u ==> after[v] == before[v])
    && (u in before ==> after[u] == before[u].(status := status))
  }

  /** Row `r` got the status and the payment time; nothing else changed. */
  predicate RowMarked(before: seq<Reservation>, after: seq<Reservation>, r: nat, status: ReservationStatus,
                      paidAt: Option<Time>)
  {
    && r < |before| == |after|
    && (forall i :: 0 <= i < |before| && i != r ==> after[i] == before[i])
    && after[r] == Reservation(before[r].user, status, before[r].expiresAt, paidAt)
  }

  // ---------- Paying ----------

  /** Who is refused, and why: first an unknown reservation, then one of somebody else, then one that is not pending,
      then one past its expiry. */
  predicate PaymentAnswer(s: EventStore, r: nat, u: UserId, now: Time, result: PaymentResult) {
    && (result.ReservationNotFound? <==> r >= |s.rows|)
    && (result.Forbidden? <==> r < |s.rows| && s.rows[r].user != u)
    && (result.NotPayable? <==> r < |s.rows| && s.rows[r].user == u && s.rows[r].status != PendingPayment)
    && (result.NotPayable? ==> result.status == s.rows[r].status)
    && (result.ReservationExpired? <==>
          r < |s.rows| && s.rows[r].user == u && s.rows[r].status == PendingPayment && s.rows[r].expiresAt < now)
  }

  /** A refusal changes nothing; a payment is stamped with the time at which it came. */
  ghost predicate PaymentAnswered(s: EventStore, t: EventStore, r: nat, u: UserId, now: Time, result: PaymentResult) {
    && PaymentAnswer(s, r, u, now, result)
    && (!result.PaymentDone? ==> t == s)
    && (result.PaymentDone? ==>
          && RowMarked(s.rows, t.rows, r, ReservationStatus.Paid, Some(now))
          && EntryMarked(s.entries, t.entries, u, EntryStatus.Done)
          && t == s.(rows := t.rows, entries := t.entries))
  }

  // ---------- Expiring ----------

  /** The lock of row `r` refuses: it has no time to live, or its time is not over. */
  predicate Locked(s: EventStore, r: nat, now: Time) { r in s.locks && (s.locks[r] == NoTtl || now < s.locks[r].t) }

  predicate ExpiryAnswer(s: EventStore, r: nat, now: Time, result: ExpirationResult) {
    && (result.NotFound? <==> r >= |s.rows|)
    && (result.NotPending? <==> r < |s.rows| && s.rows[r].status != PendingPayment)
    && (result.AlreadyProcessed? <==> r < |s.rows| && s.rows[r].status == PendingPayment && Locked(s, r, now))
  }

  /** The count after the active key of `u` was deleted: one less, if and only if the key had not lapsed. */
  predicate Uncounted(s: EventStore, u: UserId, now: Time, count: int) {
    count == if u in s.active && now < s.active[u] then s.activeCount - 1 else s.activeCount
  }

  /** Row and entry EXPIRED, the seat back, the lock taken for an hour, the active key gone. */
  ghost predicate SeatReleased(s: EventStore, t: EventStore, r: nat, now: Time)
    requires r < |s.rows|
  {
    var u := s.rows[r].user;
    && RowMarked(s.rows, t.rows, r, ReservationStatus.Expired, s.rows[r].paidAt)
    && EntryMarked(s.entries, t.entries, u, EntryStatus.Expired)
    && Uncounted(s, u, now, t.activeCount)
    && t.active == s.active - {u} && t.locks == s.locks[r := Until(now + 3_600_000)] && t.seats == s.seats + 1
    && t.queue == s.queue && t.jobs == s.jobs
  }

  ghost predicate ExpiryAnswered(s: EventStore, t: EventStore, r: nat, now: Time, result: ExpirationResult) {
    && ExpiryAnswer(s, r, now, result)
    && (!result.ExpiredNow? ==> t == s)
    && (result.ExpiredNow? ==> SeatReleased(s, t, r, now))
  }

  // ---------- Promoting one user ----------

  /** handleSuccessfulPromotion, the seat being taken already: the commands before the rejected one took effect, those
      after it did not, and the catch block put the seat back. */
  ghost predicate PromotionHandled(s: EventStore, t: EventStore, u: UserId, now: Time, fault: Fault) {
    && t.rows == (if fault == OnSave then s.rows
                  else s.rows + [Reservation(u, PendingPayment, now + 300_000, None)])
    && t.jobs == (if fault in {OnSave, OnJob} then s.jobs else s.jobs[|s.rows| := now + 300_000])
    && t.entries.Keys == s.entries.Keys
    && (forall v :: v in s.entries ==>
          t.entries[v] == if v != u || fault in {OnSave, OnJob, OnEntry} then s.entries[v]
                          else Entry(EntryStatus.Active, s.entries[v].position, Some(|s.rows|)))
    && t.queue == (if fault in {OnSave, OnJob, OnEntry, OnDequeue} then s.queue else Remove(s.queue, u))
    && t.active == (if fault in {OnCount, Never} then s.active[u := now + 300_000] else s.active)
    && t.activeCount == (if fault == Never then s.activeCount + 1 else s.activeCount)
    && t.seats == (if fault == Never then s.seats else s.seats + 1)
    && t.locks == s.locks
  }

  /** handleSoldOut: the seat put back, the entry EXPIRED, the user off the queue. */
  ghost predicate SoldOutHandled(s: EventStore, t: EventStore, u: UserId) {
    && EntryMarked(s.entries, t.entries, u, EntryStatus.Expired)
    && t == s.(seats := s.seats + 1, entries := t.entries, queue := Remove(s.queue, u))
  }

  /** The head of the queue is promoted, or dropped if no seat is left; a failed save changes nothing. */
  ghost predicate PromotionAnswered(s: EventStore, t: EventStore, now: Time, saved: bool, result: PromotionResult) {
    if s.queue == [] then result == NoUsersInQueue && t == s
    else
      var u := s.queue[0].user;
      if s.seats <= 0 then
        && result == SoldOut(u) && EntryMarked(s.entries, t.entries, u, EntryStatus.Expired)
        && t == s.(entries := t.entries, queue := s.queue[1..])
      else if !saved then result == SaveFailed(u) && t == s
      else result == Promoted(u, |s.rows|) && t.queue == s.queue[1..]
           && PromotionHandled(s.(seats := s.seats - 1), t, u, now, Never)
  }

  // ---------- Batches ----------

  /** Pending rows, one for each of the first `k` waiting users, in queue order. */
  function NewRows(q: seq<Member>, k: nat, now: Time): (rows: seq<Reservation>)
    requires k <= |q|
    ensures |rows| == k
    ensures forall i :: 0 <= i < k ==> rows[i] == Reservation(q[i].user, PendingPayment, now + 300_000, None)
  {
    seq(k, i requires 0 <= i < k => Reservation(q[i].user, PendingPayment, now + RESERVATION_TTL, None))
  }

  /** Results for the first `k` waiting users, in queue order, with the next row numbers. */
  function FirstPromoted(s: EventStore, k: nat): (results: seq<PromotionResult>)
    requires k <= |s.queue|
    ensures |results| == k && forall i :: 0 <= i < k ==> results[i] == Promoted(s.queue[i].user, |s.rows| + i)
  {
    seq(k, i requires 0 <= i < k => Promoted(s.queue[i].user, |s.rows| + i))
  }

  /** `t` is `s` after its first `j` waiting users were served: the first `k` of them hold new
      reservations in queue order, the others were dropped as sold out, nobody else changed. */
  ghost predicate Served(s: EventStore, t: EventStore, j: nat, k: nat, now: Time)
    requires k <= j <= |s.queue|
  {
    RowsServed(s, t, j, k, now) && EntriesServed(s, t, j, k) && KeysServed(s, t, k, now)
  }

  ghost predicate RowsServed(s: EventStore, t: EventStore, j: nat, k: nat, now: Time)
    requires k <= j <= |s.queue|
  {
    && t.queue == s.queue[j..]
    && t.seats == s.seats - k
    && t.rows == s.rows + NewRows(s.queue, k, now)
    && (forall r :: r in t.jobs <==> r in s.jobs || |s.rows| <= r < |s.rows| + k)
    && (forall r :: r in t.jobs ==>
          t.jobs[r] == if |s.rows| <= r < |s.rows| + k then now + 300_000 else s.jobs[r])
  }

  ghost predicate EntriesServed(s: EventStore, t: EventStore, j: nat, k: nat)
    requires k <= j <= |s.queue|
  {
    && t.entries.Keys == s.entries.Keys
    && (forall i :: 0 <= i < j ==> s.queue[i].user in s.entries)
    && (forall i :: 0 <= i < k ==>
          t.entries[s.queue[i].user]
          == s.entries[s.queue[i].user].(status := EntryStatus.Active, reservation := Some(|s.rows| + i)))
    && (forall i :: k <= i < j ==>
          t.entries[s.queue[i].user] == s.entries[s.queue[i].user].(status := EntryStatus.Expired))
    && OthersKept(s, t, j)
  }

  ghost predicate OthersKept(s: EventStore, t: EventStore, j: nat)
    requires j <= |s.queue| && t.entries.Keys == s.entries.Keys
  {
    forall u :: u in s.entries && !InQueue(s.queue[..j], u) ==> t.entries[u] == s.entries[u]
  }

  ghost predicate KeysServed(s: EventStore, t: EventStore, k: nat, now: Time)
    requires k <= |s.queue|
  {
    && t.activeCount == s.activeCount + k
    && t.locks == s.locks
    && (forall u :: u in t.active <==> u in s.active || InQueue(s.queue[..k], u))
    && (forall u :: u in t.active ==>
          t.active[u] == if InQueue(s.queue[..k], u) then now + 300_000 else s.active[u])
  }

  ghost predicate Registered(s: EventStore) {
    forall i :: 0 <= i < |s.queue| ==> s.queue[i].user in s.entries
  }

  /** A queue in order, whose members have entries, and a counter that is not negative. */
  ghost predicate Ready(s: EventStore) { Ordered(s.queue) && Registered(s) && s.seats >= 0 }

  /** Users promoted by a run with no failed save: the least of slots, waiting users and seats. */
  function Promotions(s: EventStore, slots: nat): (most: int)
    ensures most <= slots && most <= |s.queue| && most <= s.seats
    ensures most == slots || most == |s.queue| || most == s.seats
  {
    Min(slots, Min(|s.queue|, s.seats))
  }

  /** A slot and a user are left over but no seat. */
  predicate Shortage(s: EventStore, slots: nat) { Promotions(s, slots) < slots && Promotions(s, slots) < |s.queue| }

  /** As many as there are slots, waiting users and seats for, unless a save failed before. */
  predicate Reached(most: int, k: nat, saves: seq<bool>) {
    && k <= most
    && (forall i :: 0 <= i < k && i < |saves| ==> saves[i])
    && (k < most ==> k < |saves| && !saves[k])
  }

  /** Users dropped by a batch that promoted `k`: one, if it was seats that ran out. */
  function Dropped(s: EventStore, slots: nat, k: nat): (d: nat)
    ensures d == 1 <==> k == Promotions(s, slots) && Shortage(s, slots)
    ensures d <= 1
  {
    if k == Promotions(s, slots) && Shortage(s, slots) then 1 else 0
  }

  /** `k` users were promoted, and if seats ran out one more was dropped. */
  ghost predicate ServedUpTo(s: EventStore, t: EventStore, slots: nat, k: nat, now: Time, saves: seq<bool>) {
    && Reached(Promotions(s, slots), k, saves)
    && Served(s, t, k + Dropped(s, slots, k), k, now)
  }

  /** The stores after `promoteUsers`; the rows added tell how many users were promoted. */
  ghost predicate StoreBatched(s: EventStore, t: EventStore, maxActiveUsers: int, now: Time, saves: seq<bool>) {
    |t.rows| >= |s.rows| && ServedUpTo(s, t, SlotsAvailable(s, maxActiveUsers), |t.rows| - |s.rows|, now, saves)
  }

  /** How a run without an exception ends: out of slots, out of users, or by dropping one user for want of a seat. */
  function LastResults(s: EventStore, slots: nat): seq<PromotionResult> {
    if Shortage(s, slots) && s.seats >= 0 then [SoldOut(s.queue[s.seats].user)]
    else if Promotions(s, slots) < slots then [NoUsersInQueue] else []
  }

  /** Results in queue order with the row numbers assigned; an exception if and only if a save failed. */
  ghost predicate ResultsAnswered(s: EventStore, slots: nat, k: nat, results: seq<PromotionResult>, thrown: bool)
    requires k <= |s.queue|
  {
    && (thrown <==> k < Promotions(s, slots))
    && results == FirstPromoted(s, k) + (if thrown then [] else LastResults(s, slots))
  }

  ghost predicate BatchAnswered(s: EventStore, t: EventStore, maxActiveUsers: int, now: Time, saves: seq<bool>,
                                results: seq<PromotionResult>, thrown: bool)
  {
    && StoreBatched(s, t, maxActiveUsers, now, saves)
    && ResultsAnswered(s, SlotsAvailable(s, maxActiveUsers), |t.rows| - |s.rows|, results, thrown)
  }

  /** The limit, whatever the stores and whatever saves fail: the count only grows, and not beyond the limit; at the
      limit nothing happens. */
  predicate LimitRespected(s: EventStore, t: EventStore, maxActiveUsers: int) {
    && s.activeCount <= t.activeCount
    && (s.activeCount < maxActiveUsers ==> t.activeCount <= maxActiveUsers)
    && (s.activeCount >= maxActiveUsers ==> t == s)
  }

  // ---------- The tick and the expiry job ----------

  /** One event under the tick: untouched if unknown or outside its sales period, a batch otherwise. */
  ghost predicate TickSeen(events: map<EventId, Event>, e: EventId, s: EventStore, t: EventStore, maxActiveUsers: int,
                           now: Time, saves: map<EventId, seq<bool>>)
  {
    if e in events && events[e].salesStartAt <= now && now <= events[e].salesEndAt
    then && LimitRespected(s, t, maxActiveUsers)
         && (Ready(s) ==> StoreBatched(s, t, maxActiveUsers, now, if e in saves then saves[e] else []))
    else t == s
  }

  /** The rows after an expiry job that found row `r` pending: that row EXPIRED, and `k` new ones for the first `k`
      waiting users. */
  ghost predicate RowsPassedOn(s: EventStore, t: EventStore, r: nat, k: nat, now: Time)
    requires r < |s.rows| && k <= |s.queue|
  {
    && |t.rows| == |s.rows| + k
    && RowMarked(s.rows, t.rows[..|s.rows|], r, ReservationStatus.Expired, s.rows[r].paidAt)
    && (forall i :: 0 <= i < k ==>
          t.rows[|s.rows| + i] == Reservation(s.queue[i].user, PendingPayment, now + 300_000, None))
  }

  /** The entries: the owner's EXPIRED, those of the first `k` waiting users ACTIVE with their rows, `d` more dropped,
      all others as before. */
  ghost predicate EntriesPassedOn(s: EventStore, t: EventStore, owner: UserId, k: nat, d: nat)
    requires k + d <= |s.queue|
  {
    && t.entries.Keys == s.entries.Keys
    && (forall i :: 0 <= i < k ==> s.queue[i].user in s.entries)
    && (forall i :: 0 <= i < k ==>
          t.entries[s.queue[i].user]
          == s.entries[s.queue[i].user].(status := EntryStatus.Active, reservation := Some(|s.rows| + i)))
    && (forall u :: u in s.entries && (u == owner || InQueue(s.queue[k..k + d], u)) ==>
          t.entries[u] == s.entries[u].(status := EntryStatus.Expired))
    && (forall u :: u in s.entries && u != owner && !InQueue(s.queue[..k + d], u) ==> t.entries[u] == s.entries[u])
  }

  /** The seat of row `r` went back; `k` waiting users got seats, `d` were dropped. */
  ghost predicate PassedOn(s: EventStore, t: EventStore, r: nat, k: nat, d: nat, count: int, now: Time)
    requires r < |s.rows| && k + d <= |s.queue|
  {
    && RowsPassedOn(s, t, r, k, now)
    && EntriesPassedOn(s, t, s.rows[r].user, k, d)
    && t.queue == s.queue[k + d..] && t.seats == s.seats + 1 - k && t.activeCount == count + k
    && t.locks == s.locks[r := Until(now + 3_600_000)]
    && (forall i :: i in t.jobs <==> i in s.jobs || |s.rows| <= i < |s.rows| + k)
    && (forall i :: i in t.jobs ==>
          t.jobs[i] == if |s.rows| <= i < |s.rows| + k then now + 300_000 else s.jobs[i])
    && (forall u :: u in t.active <==> (u in s.active && u != s.rows[r].user) || InQueue(s.queue[..k], u))
    && (forall u :: u in t.active ==>
          t.active[u] == if InQueue(s.queue[..k], u) then now + 300_000 else s.active[u])
  }

  /** The seat of row `r` went back, and the waiting users got what seats there are: as many as slots, users and seats
      allow, the slots being what is left after the owner's key was counted down. */
  ghost predicate SeatPassedOn(s: EventStore, t: EventStore, r: nat, maxActiveUsers: int, now: Time, saves: seq<bool>)
    requires r < |s.rows|
  {
    var owner := s.rows[r].user;
    var count := if owner in s.active && now < s.active[owner] then s.activeCount - 1 else s.activeCount;
    var freed := s.(seats := s.seats + 1, activeCount := count);
    var slots := SlotsAvailable(freed, maxActiveUsers);
    var k := |t.rows| - |s.rows|;
    && k >= 0 && Reached(Promotions(freed, slots), k, saves)
    && PassedOn(s, t, r, k, Dropped(freed, slots, k), count, now)
  }

  /** One expiry job: of a row that is absent, settled or locked it leaves no trace; of a pending one it passes on the
      seat, as long as the owner does not wait in the queue. */
  ghost predicate ExpiryProcessed(s: EventStore, t: EventStore, r: nat, maxActiveUsers: int, now: Time,
                                  saves: seq<bool>)
  {
    if r < |s.rows| && s.rows[r].status == PendingPayment && !Locked(s, r, now)
    then Ready(s) && !InQueue(s.queue, s.rows[r].user) ==> SeatPassedOn(s, t, r, maxActiveUsers, now, saves)
    else t == s
  }
}
