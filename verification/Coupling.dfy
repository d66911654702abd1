/** The invariant that ties Redis to the database between whole operations, and its preservation. */
module Coupling {
  import opened Domain
  import opened Counting
  import opened WaitingQueue
  import opened Operations

  /** A reservation that keeps a seat: pending or paid. */
  function KeepsSeat(r: Reservation): int {
    if r.status.PendingPayment? || r.status.Paid? then 1 else 0
  }

  function HasStatus(status: ReservationStatus): Reservation -> int {
    (r: Reservation) => if r.status == status then 1 else 0
  }

  /** Number of rows with a given status. */
  function CountStatus(rows: seq<Reservation>, status: ReservationStatus): int { Sum(rows, HasStatus(status)) }

  /** The reservations with a given status, by row number. */
  ghost function RowsWith(rows: seq<Reservation>, status: ReservationStatus): (found: set<int>)
    ensures forall r :: r in found <==> 0 <= r < |rows| && rows[r].status == status
  {
    set r | 0 <= r < |rows| && rows[r].status == status
  }

  lemma OneRowMore(rows: seq<Reservation>, status: ReservationStatus)
    requires rows != []
    ensures var last := |rows| - 1;
            |RowsWith(rows, status)|
            == |RowsWith(rows[..last], status)| + (if rows[last].status == status then 1 else 0)
  {
    var last := |rows| - 1;
    var before, after := RowsWith(rows[..last], status), RowsWith(rows, status);
    if rows[last].status == status {
      assert after == before + {last};
    } else {
      assert after == before;
    }
  }

  /** The sum counts the rows. */
  lemma {:induction false} CountIsRows(rows: seq<Reservation>, status: ReservationStatus)
    ensures CountStatus(rows, status) == |RowsWith(rows, status)|
  {
    if rows == [] {
      assert RowsWith(rows, status) == {};
    } else {
      OneRowMore(rows, status);
      CountIsRows(rows[..|rows| - 1], status);
    }
  }

  /** A user is queued exactly while WAITING; ACTIVE and DONE name the user's one pending or paid
      reservation; EXPIRED names an expired reservation or none. */
  ghost predicate EntryAgrees(s: EventStore, u: UserId)
    requires u in s.entries
  {
    var e := s.entries[u];
    && (e.status.Waiting? <==> InQueue(s.queue, u))
    && (e.reservation.Some? ==> e.reservation.value < |s.rows| && s.rows[e.reservation.value].user == u)
    && match e.status
       case Waiting => e.reservation.None?
       case Active => e.reservation.Some? && s.rows[e.reservation.value].status.PendingPayment?
       case Done => e.reservation.Some? && s.rows[e.reservation.value].status.Paid?
       case Expired => e.reservation.Some? ==> s.rows[e.reservation.value].status.Expired?
  }

  ghost predicate UsersAgree(s: EventStore) {
    && (forall u :: u in s.entries ==> EntryAgrees(s, u))
    && (forall u :: InQueue(s.queue, u) ==> u in s.entries)
    // every reservation is the one its user's entry names: one reservation per user
    && (forall r :: 0 <= r < |s.rows| ==>
          s.rows[r].user in s.entries && s.entries[s.rows[r].user].reservation == Some(r))
  }

  ghost predicate KeysAgree(s: EventStore) {
    && (forall r :: r in s.locks ==> r < |s.rows| && s.rows[r].status.Expired?)
    && (forall r :: r in s.jobs <==> 0 <= r < |s.rows|)
    && (forall r :: 0 <= r < |s.rows| ==> s.jobs[r] == s.rows[r].expiresAt)
    && s.activeCount >= |s.active|
  }

  ghost predicate SeatsAgree(totalSeats: nat, s: EventStore) {
    s.seats >= 0 && s.seats + Sum(s.rows, KeepsSeat) == totalSeats
  }

  ghost predicate Coupled(totalSeats: nat, s: EventStore) {
    Ordered(s.queue) && UsersAgree(s) && KeysAgree(s) && SeatsAgree(totalSeats, s)
  }

  lemma NewStoreCoupled(totalSeats: nat)
    ensures Coupled(totalSeats, NewStore(totalSeats))
  {}

  lemma JoinKeepsUsers(e: Event, s: EventStore, u: UserId, now: Time)
    requires UsersAgree(s)
    ensures UsersAgree(Join(e, s, u, now).0)
  {
    AddMembers(s.queue, Member(now, u));
  }

  lemma JoinKeepsCoupling(e: Event, total: nat, s: EventStore, u: UserId, now: Time)
    requires Coupled(total, s)
    ensures Coupled(total, Join(e, s, u, now).0)
  {
    JoinKeepsUsers(e, s, u, now);
    AddKeepsOrder(s.queue, Member(now, u));
  }

  lemma GrantKeepsUsers(s: EventStore, u: UserId, now: Time)
    requires Ordered(s.queue) && UsersAgree(s) && InQueue(s.queue, u)
    ensures UsersAgree(Grant(s, u, now))
  {
    var s' := Grant(s, u, now);
    RemoveKeepsOrder(s.queue, u);
    assert EntryAgrees(s, u);
    forall v | v in s'.entries ensures EntryAgrees(s', v) {
      assert EntryAgrees(s, v);
    }
  }

  lemma GrantKeepsKeys(s: EventStore, u: UserId, now: Time)
    requires KeysAgree(s)
    ensures KeysAgree(Grant(s, u, now))
  {}

  lemma GrantKeepsCoupling(total: nat, s: EventStore, u: UserId, now: Time)
    requires Coupled(total, s) && InQueue(s.queue, u) && s.seats >= 1
    ensures Coupled(total, Grant(s, u, now))
  {
    GrantKeepsUsers(s, u, now);
    GrantKeepsKeys(s, u, now);
    RemoveKeepsOrder(s.queue, u);
    SumAppend(s.rows, Grant(s, u, now).rows[|s.rows|], KeepsSeat);
  }

  /** Which rejected command costs a seat: the house is still accounted for after a failed promotion if and only
      if it was the save of the row that was rejected. */
  lemma SeatsSurviveFaultIff(total: nat, s: EventStore, u: UserId, now: Time, fault: Fault)
    requires SeatsAgree(total, s) && s.seats >= 1
    ensures SeatsAgree(total, GrantOrRefund(s.(seats := s.seats - 1), u, now, fault)) <==> fault.Never? || fault.OnSave?
    ensures fault.Never? ==> GrantOrRefund(s.(seats := s.seats - 1), u, now, fault) == Grant(s, u, now)
    ensures fault.OnSave? ==> GrantOrRefund(s.(seats := s.seats - 1), u, now, fault) == s
  {
    var t := GrantOrRefund(s.(seats := s.seats - 1), u, now, fault);
    assert !fault.OnSave? ==> t.rows[..|t.rows| - 1] == s.rows;
  }

  lemma DropKeepsCoupling(total: nat, s: EventStore, u: UserId)
    requires Coupled(total, s) && InQueue(s.queue, u)
    ensures Coupled(total, Drop(s, u))
  {
    var s' := Drop(s, u);
    RemoveKeepsOrder(s.queue, u);
    forall v | v in s'.entries ensures EntryAgrees(s', v) {
      assert EntryAgrees(s, v);
    }
  }

  lemma PromoteKeepsCoupling(total: nat, s: EventStore, now: Time, saved: bool)
    requires Coupled(total, s)
    ensures Coupled(total, Promote(s, now, saved).0)
  {
    if s.queue != [] {
      var u := s.queue[0].user;
      assert InQueue(s.queue, u);
      if s.seats >= 1 { GrantKeepsCoupling(total, s, u, now); } else { DropKeepsCoupling(total, s, u); }
    }
  }

  lemma PayKeepsUsers(s: EventStore, r: nat, u: UserId, now: Time)
    requires UsersAgree(s)
    ensures UsersAgree(Pay(s, r, u, now).0)
  {
    var s' := Pay(s, r, u, now).0;
    if s' != s {
      assert EntryAgrees(s, u);
      forall v | v in s'.entries ensures EntryAgrees(s', v) {
        assert EntryAgrees(s, v);
      }
    }
  }

  lemma PayKeepsCoupling(total: nat, s: EventStore, r: nat, u: UserId, now: Time)
    requires Coupled(total, s)
    ensures Coupled(total, Pay(s, r, u, now).0)
  {
    var s' := Pay(s, r, u, now).0;
    PayKeepsUsers(s, r, u, now);
    if s' != s { SumUpdate(s.rows, r, s'.rows[r], KeepsSeat); }
  }

  lemma ReleaseKeepsUsers(s: EventStore, r: nat, now: Time)
    requires UsersAgree(s) && r < |s.rows| && s.rows[r].status.PendingPayment?
    ensures UsersAgree(Release(s, r, now))
  {}

  lemma ReleaseKeepsKeys(s: EventStore, r: nat, now: Time)
    requires KeysAgree(s) && r < |s.rows|
    ensures KeysAgree(Release(s, r, now))
  {
    KeyRemoved(s.active, s.rows[r].user);
  }

  lemma ExpireKeepsCoupling(total: nat, s: EventStore, r: nat, now: Time)
    requires Coupled(total, s)
    ensures Coupled(total, Expire(s, r, now).0)
  {
    var s' := Expire(s, r, now).0;
    if s' != s {
      ReleaseKeepsUsers(s, r, now);
      ReleaseKeepsKeys(s, r, now);
      SumUpdate(s.rows, r, s'.rows[r], KeepsSeat);
    }
  }

  /** Between whole operations the lock never refuses anyone: a pending reservation is always unlocked. */
  lemma NeverAlreadyProcessed(total: nat, s: EventStore, r: nat, now: Time)
    requires Coupled(total, s)
    ensures Expire(s, r, now).1 != AlreadyProcessed
  {}

  /** Live keys never outnumber the count, which is never negative. */
  lemma LiveKeysCounted(total: nat, s: EventStore, now: Time)
    requires Coupled(total, s)
    ensures 0 <= |LiveKeys(s.active, now)| <= s.activeCount
  {
    SubsetSize(LiveKeys(s.active, now), s.active.Keys);
  }

  lemma SubsetSize<T>(a: set<T>, b: set<T>)
    requires a <= b
    ensures |a| <= |b|
  {
    assert b == a + (b - a);
  }
}
