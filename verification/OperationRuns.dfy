/** Whole runs of operations on one event, in any order, under a clock that never goes back. */
module OperationRuns {
  import opened Domain
  import opened Counting
  import opened WaitingQueue
  import opened Operations
  import opened Coupling

  datatype Op =
    | WaitFor(ms: nat)
    | JoinOp(user: UserId)
    | PromoteOp(saved: bool)
    | PayOp(row: nat, payer: UserId)
    | ExpireOp(expiredRow: nat)

  /** `served` records, in order, the queue members that promotions took off the queue. */
  datatype World = World(now: Time, store: EventStore, served: seq<Member>)

  function Do(e: Event, w: World, op: Op): World {
    match op
    case WaitFor(ms) => w.(now := w.now + ms)
    case JoinOp(u) => w.(store := Join(e, w.store, u, w.now).0)
    case PromoteOp(saved) =>
      var (s', result) := Promote(w.store, w.now, saved);
      if result.Promoted? || result.SoldOut?
      then w.(store := s', served := w.served + [w.store.queue[0]])
      else w.(store := s')
    case PayOp(r, u) => w.(store := Pay(w.store, r, u, w.now).0)
    case ExpireOp(r) => w.(store := Expire(w.store, r, w.now).0)
  }

  function Run(e: Event, w: World, ops: seq<Op>): World
    decreases |ops|
  {
    if ops == [] then w else Run(e, Do(e, w, ops[0]), ops[1..])
  }

  function Opening(e: Event, start: Time): World { World(start, NewStore(e.totalSeats), []) }

  lemma {:induction false} RunCoupled(e: Event, w: World, ops: seq<Op>)
    requires Coupled(e.totalSeats, w.store)
    ensures Coupled(e.totalSeats, Run(e, w, ops).store)
    decreases |ops|
  {
    if ops == [] {
    } else {
      StepCoupled(e, w, ops[0]);
      RunCoupled(e, Do(e, w, ops[0]), ops[1..]);
    }
  }

  lemma StepCoupled(e: Event, w: World, op: Op)
    requires Coupled(e.totalSeats, w.store)
    ensures Coupled(e.totalSeats, Do(e, w, op).store)
  {
    match op
    case WaitFor(_) =>
    case JoinOp(u) => JoinKeepsCoupling(e, e.totalSeats, w.store, u, w.now);
    case PromoteOp(saved) => PromoteKeepsCoupling(e.totalSeats, w.store, w.now, saved);
    case PayOp(r, u) => PayKeepsCoupling(e.totalSeats, w.store, r, u, w.now);
    case ExpireOp(r) => ExpireKeepsCoupling(e.totalSeats, w.store, r, w.now);
  }

  // ---------- First come, first served ----------

  ghost predicate InArrivalOrder(w: World) {
    && (forall i, j :: 0 <= i < j < |w.served| ==> w.served[i].score <= w.served[j].score)
    && (forall x, y :: x in w.served && y in w.store.queue ==> x.score <= y.score)
    && (forall x :: x in w.served ==> x.score <= w.now)
    && (forall y :: y in w.store.queue ==> y.score <= w.now)
  }

  lemma StepInArrivalOrder(e: Event, w: World, op: Op)
    requires Ordered(w.store.queue) && InArrivalOrder(w)
    ensures InArrivalOrder(Do(e, w, op))
  {
    match op
    case WaitFor(_) =>
    case JoinOp(u) => AddMembers(w.store.queue, Member(w.now, u));
    case PromoteOp(saved) => PromotionInArrivalOrder(e, w, saved);
    case PayOp(r, u) =>
    case ExpireOp(r) =>
  }

  lemma PromotionInArrivalOrder(e: Event, w: World, saved: bool)
    requires Ordered(w.store.queue) && InArrivalOrder(w)
    ensures InArrivalOrder(Do(e, w, PromoteOp(saved)))
  {
    var q, w' := w.store.queue, Do(e, w, PromoteOp(saved));
    if q != [] {
      assert q[0] in q;
      assert || (w'.store.queue == q && w'.served == w.served)
             || (w'.store.queue == q[1..] && w'.served == w.served + [q[0]]);
      assert forall y :: y in q[1..] ==> y in q && q[0].score <= y.score;
    }
  }

  /** Over any run, users leave the queue in non-decreasing order of joining time, and nobody still
      waiting joined before somebody already served. */
  lemma {:induction false} FirstComeFirstServed(e: Event, w: World, ops: seq<Op>)
    requires Coupled(e.totalSeats, w.store) && InArrivalOrder(w)
    ensures InArrivalOrder(Run(e, w, ops))
    decreases |ops|
  {
    if ops == [] {
    } else {
      StepCoupled(e, w, ops[0]);
      StepInArrivalOrder(e, w, ops[0]);
      FirstComeFirstServed(e, Do(e, w, ops[0]), ops[1..]);
    }
  }

  /** Everybody who waits, or ever waited and was served, joined during the sales period. */
  ghost predicate JoinedOnSale(e: Event, w: World) {
    forall x :: x in w.store.queue || x in w.served ==> OnSale(e, x.score)
  }

  lemma StepJoinedOnSale(e: Event, w: World, op: Op)
    requires Ordered(w.store.queue) && JoinedOnSale(e, w)
    ensures JoinedOnSale(e, Do(e, w, op))
  {}

  lemma {:induction false} NobodyServedOffSale(e: Event, w: World, ops: seq<Op>)
    requires Coupled(e.totalSeats, w.store) && JoinedOnSale(e, w)
    ensures JoinedOnSale(e, Run(e, w, ops))
    decreases |ops|
  {
    if ops == [] {
    } else {
      StepCoupled(e, w, ops[0]);
      StepJoinedOnSale(e, w, ops[0]);
      NobodyServedOffSale(e, Do(e, w, ops[0]), ops[1..]);
    }
  }

  // ---------- One chance per user ----------

  /** The moves an entry can make in one operation. */
  predicate EntryMove(a: EntryStatus, b: EntryStatus) {
    || a == b
    || (a.Waiting? && (b.Active? || b.Expired?))
    || (a.Active? && (b.Done? || b.Expired?))
  }

  /** The same, over any number of operations. */
  predicate EntryMoves(a: EntryStatus, b: EntryStatus) {
    EntryMove(a, b) || (a.Waiting? && b.Done?)
  }

  /** What an operation may do to rows and entries that already exist. */
  ghost predicate Advances(s: EventStore, t: EventStore) {
    && s.entries.Keys <= t.entries.Keys
    && |s.rows| <= |t.rows|
    && (forall r :: 0 <= r < |s.rows| ==>
          && t.rows[r].user == s.rows[r].user
          && t.rows[r].expiresAt == s.rows[r].expiresAt
          && (t.rows[r] == s.rows[r] || s.rows[r].status.PendingPayment?))
  }

  ghost predicate OneRowPerUser(s: EventStore) {
    forall r, r' :: 0 <= r < r' < |s.rows| ==> s.rows[r].user != s.rows[r'].user
  }

  lemma StepAdvances(e: Event, w: World, op: Op)
    ensures Advances(w.store, Do(e, w, op).store)
  {}

  lemma StepMoves(e: Event, w: World, op: Op, u: UserId)
    requires UsersAgree(w.store)
    ensures u in w.store.entries ==>
              u in Do(e, w, op).store.entries
              && EntryMove(w.store.entries[u].status, Do(e, w, op).store.entries[u].status)
    ensures u in Do(e, w, op).store.entries && u !in w.store.entries ==> op == JoinOp(u)
  {}

  /** Over any run a user gets at most one reservation, entries only move forward and are never removed,
      and paid or expired reservations never change again. */
  lemma {:induction false} OneChance(e: Event, w: World, ops: seq<Op>, u: UserId)
    requires Coupled(e.totalSeats, w.store)
    ensures Advances(w.store, Run(e, w, ops).store)
    ensures u in w.store.entries ==>
              EntryMoves(w.store.entries[u].status, Run(e, w, ops).store.entries[u].status)
    ensures OneRowPerUser(Run(e, w, ops).store)
    decreases |ops|
  {
    if ops == [] {
    } else {
      StepCoupled(e, w, ops[0]);
      StepAdvances(e, w, ops[0]);
      StepMoves(e, w, ops[0], u);
      OneChance(e, Do(e, w, ops[0]), ops[1..], u);
    }
  }

  /** PAID rows carry a payment time no later than their expiry. */
  ghost predicate PaidInTime(s: EventStore) {
    forall r :: 0 <= r < |s.rows| && s.rows[r].status.Paid? ==>
      s.rows[r].paidAt.Some? && s.rows[r].paidAt.value <= s.rows[r].expiresAt
  }

  /** One operation settles a row only if it is the owner's payment or the row's expiry. */
  lemma StepSettles(e: Event, w: World, op: Op, r: nat)
    requires PaidInTime(w.store)
    ensures PaidInTime(Do(e, w, op).store)
    ensures r < |Do(e, w, op).store.rows| ==>
              var s, row := w.store, Do(e, w, op).store.rows[r];
              && (row.status.Paid? ==> (r < |s.rows| && s.rows[r].status.Paid?) || op == PayOp(r, row.user))
              && (row.status.Expired? ==> (r < |s.rows| && s.rows[r].status.Expired?) || op == ExpireOp(r))
  {}

  /** Over any run, a reservation becomes PAID only through a payment by its owner, in time, and EXPIRED only
      through an expiry of its own. */
  lemma {:induction false} SettledByItsOwn(e: Event, w: World, ops: seq<Op>, r: nat)
    requires PaidInTime(w.store) && r < |Run(e, w, ops).store.rows|
    ensures PaidInTime(Run(e, w, ops).store)
    ensures var s, row := w.store, Run(e, w, ops).store.rows[r];
            && (row.status.Paid? ==> (r < |s.rows| && s.rows[r].status.Paid?) || PayOp(r, row.user) in ops)
            && (row.status.Expired? ==> (r < |s.rows| && s.rows[r].status.Expired?) || ExpireOp(r) in ops)
    decreases |ops|
  {
    if ops == [] {
    } else {
      var w1 := Do(e, w, ops[0]);
      StepSettles(e, w, ops[0], r);
      SettledByItsOwn(e, w1, ops[1..], r);
      if r < |w1.store.rows| { SameOwner(e, w1, ops[1..], r); }
    }
  }

  /** A reservation never changes hands. */
  lemma {:induction false} SameOwner(e: Event, w: World, ops: seq<Op>, r: nat)
    requires r < |w.store.rows|
    ensures r < |Run(e, w, ops).store.rows| && Run(e, w, ops).store.rows[r].user == w.store.rows[r].user
    decreases |ops|
  {
    if ops == [] {
    } else {
      StepAdvances(e, w, ops[0]);
      SameOwner(e, Do(e, w, ops[0]), ops[1..], r);
    }
  }

  function WithoutJoins(ops: seq<Op>, u: UserId): seq<Op> {
    if ops == [] then []
    else if ops[0] == JoinOp(u) then WithoutJoins(ops[1..], u)
    else [ops[0]] + WithoutJoins(ops[1..], u)
  }

  /** An existing entry, whatever becomes of it, blocks a second way in: however often its user joins again,
      between whatever else happens, the run is the same as without these joins. */
  lemma {:induction false} RepeatedJoinsAreIdle(e: Event, w: World, ops: seq<Op>, u: UserId)
    requires u in w.store.entries
    ensures Run(e, w, ops) == Run(e, w, WithoutJoins(ops, u))
    decreases |ops|
  {
    if ops == [] {
    } else {
      StepAdvances(e, w, ops[0]);
      RepeatedJoinsAreIdle(e, Do(e, w, ops[0]), ops[1..], u);
      if ops[0] != JoinOp(u) { assert WithoutJoins(ops, u)[1..] == WithoutJoins(ops[1..], u); }
    }
  }

  /** A later second call reports the position of the first one while nobody was served in between. */
  lemma JoinTwiceSamePosition(e: Event, total: nat, s: EventStore, u: UserId, now: Time, later: Time)
    requires Coupled(total, s) && u !in s.entries && OnSale(e, now) && OnSale(e, later)
    ensures var (s1, first) := Join(e, s, u, now);
            first.Joined? && 1 <= first.position <= |s1.queue| && s1.queue[first.position - 1] == Member(now, u)
            && Join(e, s1, u, later) == (s1, AlreadyInQueue(first.position, EntryStatus.Waiting))
            && |s1.queue| == |s.queue| + 1
  {
    var q := Add(s.queue, Member(now, u));
    AddMembers(s.queue, Member(now, u));
    PositionFound(q, u);
    var p := Position(q, u).value;
    assert q[p - 1] in q;
  }

  // ---------- Statistics ----------

  lemma {:induction false} KeptSeatsSplit(rows: seq<Reservation>)
    ensures Sum(rows, KeepsSeat) == CountStatus(rows, PendingPayment) + CountStatus(rows, ReservationStatus.Paid)
  {
    if rows == [] {
    } else {
      KeptSeatsSplit(rows[..|rows| - 1]);
    }
  }

  /** After any run from the opening, the counter plus the pending and the paid reservations is the house. */
  lemma StatsAddUp(e: Event, start: Time, ops: seq<Op>)
    ensures var s := Run(e, Opening(e, start), ops).store;
            && s.seats >= 0
            && s.seats + |RowsWith(s.rows, PendingPayment)| + |RowsWith(s.rows, ReservationStatus.Paid)| == e.totalSeats
  {
    NewStoreCoupled(e.totalSeats);
    RunCoupled(e, Opening(e, start), ops);
    KeptSeatsSplit(Run(e, Opening(e, start), ops).store.rows);
    CountIsRows(Run(e, Opening(e, start), ops).store.rows, PendingPayment);
    CountIsRows(Run(e, Opening(e, start), ops).store.rows, ReservationStatus.Paid);
  }

  // ---------- A batch is a run of promotions ----------

  function BatchOps(s: EventStore, slots: nat, now: Time, saves: seq<bool>): seq<Op>
    decreases slots
  {
    if slots == 0 then []
    else
      var (s', result) := Promote(s, now, NextSave(saves));
      [PromoteOp(NextSave(saves))] + (if result.Promoted? then BatchOps(s', slots - 1, now, LaterSaves(saves)) else [])
  }

  lemma {:induction false} BatchIsARun(e: Event, w: World, slots: nat, saves: seq<bool>)
    ensures Run(e, w, BatchOps(w.store, slots, w.now, saves)).store == PromoteMany(w.store, slots, w.now, saves).store
    decreases slots
  {
    if slots == 0 {
    } else {
      var op := PromoteOp(NextSave(saves));
      var w' := Do(e, w, op);
      var ops := BatchOps(w.store, slots, w.now, saves);
      var (s', result) := Promote(w.store, w.now, NextSave(saves));
      assert w'.store == s' && w'.now == w.now;
      if result.Promoted? {
        BatchIsARun(e, w', slots - 1, LaterSaves(saves));
        assert ops[1..] == BatchOps(s', slots - 1, w.now, LaterSaves(saves));
      } else {
        assert ops[1..] == [];
        assert Run(e, w', []) == w';
      }
    }
  }

  lemma PromoteManyKeepsCoupling(total: nat, s: EventStore, slots: nat, now: Time, saves: seq<bool>)
    requires Coupled(total, s)
    ensures Coupled(total, PromoteMany(s, slots, now, saves).store)
  {
    var e, w := Event(total, now, now), World(now, s, []);
    BatchIsARun(e, w, slots, saves);
    RunCoupled(e, w, BatchOps(s, slots, now, saves));
  }
}
