/** Every whole operation has the outcome it promises. */
module Answers {
  import opened Domain
  import opened WaitingQueue
  import opened Operations
  import opened Outcomes

  // ---------- Joining ----------

  /** The rank is that of the first member of the user. */
  lemma {:induction false} PositionIsFirst(q: seq<Member>, u: UserId)
    ensures Position(q, u).Some? ==> forall i :: 0 <= i < Position(q, u).value - 1 && i < |q| ==> q[i].user != u
  {
    if q == [] || q[0].user == u {
    } else {
      PositionIsFirst(q[1..], u);
      assert q == [q[0]] + q[1..];
    }
  }

  lemma AddInserts(q: seq<Member>, m: Member)
    ensures Position(Add(q, m), m.user).Some?
    ensures Inserted(q, Add(q, m), m, Position(Add(q, m), m.user).value)
  {
    var q' := Add(q, m);
    AddMembers(q, m);
    PositionFound(q', m.user);
    PositionIsFirst(q', m.user);
    if Ordered(q) { AddKeepsOrder(q, m); }
    if !InQueue(q, m.user) { NewMemberAlone(q, m, Position(q', m.user).value); }
  }

  lemma NewMemberAlone(q: seq<Member>, m: Member, p: nat)
    requires !InQueue(q, m.user) && AtPosition(Add(q, m), m.user, p)
    ensures Add(q, m)[p - 1] == m && Add(q, m)[..p - 1] + Add(q, m)[p..] == q
  {
    var k, q' := Place(q, m), Add(q, m);
    assert q' == q[..k] + [m] + q[k..];
    assert forall i :: 0 <= i < k ==> q'[i] == q[i];
    assert forall i :: k < i < |q'| ==> q'[i] == q[i - 1];
    assert p - 1 == k;
  }

  lemma JoinAnswers(events: map<EventId, Event>, e: EventId, s: EventStore, u: UserId, now: Time)
    ensures JoinAnswered(events, e, s, JoinAt(events, e, s, u, now).0, u, now, JoinAt(events, e, s, u, now).1)
  {
    AddInserts(s.queue, Member(now, u));
    PositionFound(s.queue, u);
  }

  // ---------- Paying, expiring, promoting ----------

  lemma PayAnswers(s: EventStore, r: nat, u: UserId, now: Time)
    ensures PaymentAnswered(s, Pay(s, r, u, now).0, r, u, now, Pay(s, r, u, now).1)
  {}

  lemma ExpireAnswers(s: EventStore, r: nat, now: Time)
    ensures ExpiryAnswered(s, Expire(s, r, now).0, r, now, Expire(s, r, now).1)
  {}

  lemma GrantOrRefundAnswers(s: EventStore, u: UserId, now: Time, fault: Fault)
    ensures PromotionHandled(s, GrantOrRefund(s, u, now, fault), u, now, fault)
  {}

  lemma PromoteAnswers(s: EventStore, now: Time, saved: bool)
    ensures PromotionAnswered(s, Promote(s, now, saved).0, now, saved, Promote(s, now, saved).1)
  {}

  // ---------- The expiry job ----------

  /** The user dropped is neither the owner nor anybody else who was marked before. */
  lemma DroppedIsExpired(s: EventStore, m: EventStore, t: EventStore, owner: UserId, k: nat, d: nat, i: nat)
    requires k + d <= |s.queue| && m.queue == s.queue && !InQueue(s.queue, owner) && i < d
    requires EntryMarked(s.entries, m.entries, owner, EntryStatus.Expired) && EntriesServed(m, t, k + d, k)
    ensures var u := s.queue[k + i].user;
            u in s.entries && t.entries[u] == s.entries[u].(status := EntryStatus.Expired)
  {
    assert s.queue[k + i].user != owner;
  }

  lemma OwnerIsExpired(s: EventStore, m: EventStore, t: EventStore, owner: UserId, j: nat, k: nat)
    requires k <= j <= |s.queue| && m.queue == s.queue && !InQueue(s.queue, owner) && owner in s.entries
    requires EntryMarked(s.entries, m.entries, owner, EntryStatus.Expired) && EntriesServed(m, t, j, k)
    ensures owner in t.entries && t.entries[owner] == s.entries[owner].(status := EntryStatus.Expired)
  {
    assert !InQueue(s.queue[..j], owner);
  }

  lemma PromotedAreActive(s: EventStore, m: EventStore, t: EventStore, owner: UserId, k: nat, d: nat)
    requires k + d <= |s.queue| && m.queue == s.queue && |m.rows| == |s.rows| && !InQueue(s.queue, owner)
    requires EntryMarked(s.entries, m.entries, owner, EntryStatus.Expired) && EntriesServed(m, t, k + d, k)
    ensures forall i :: 0 <= i < k ==>
              && s.queue[i].user in s.entries
              && t.entries[s.queue[i].user]
                 == s.entries[s.queue[i].user].(status := EntryStatus.Active, reservation := Some(|s.rows| + i))
  {
    forall i | 0 <= i < k ensures s.queue[i].user != owner {}
  }

  lemma MarkedAreExpired(s: EventStore, m: EventStore, t: EventStore, owner: UserId, k: nat, d: nat)
    requires k + d <= |s.queue| && m.queue == s.queue && !InQueue(s.queue, owner)
    requires EntryMarked(s.entries, m.entries, owner, EntryStatus.Expired) && EntriesServed(m, t, k + d, k)
    ensures forall u :: u in s.entries && (u == owner || InQueue(s.queue[k..k + d], u)) ==>
              t.entries[u] == s.entries[u].(status := EntryStatus.Expired)
  {
    forall u | u in s.entries && (u == owner || InQueue(s.queue[k..k + d], u))
      ensures t.entries[u] == s.entries[u].(status := EntryStatus.Expired)
    {
      if u == owner {
        OwnerIsExpired(s, m, t, owner, k + d, k);
      } else {
        var i :| 0 <= i < d && s.queue[k..k + d][i].user == u;
        DroppedIsExpired(s, m, t, owner, k, d, i);
      }
    }
  }

  lemma EntriesArePassedOn(s: EventStore, m: EventStore, t: EventStore, owner: UserId, k: nat, d: nat)
    requires k + d <= |s.queue| && m.queue == s.queue && |m.rows| == |s.rows| && !InQueue(s.queue, owner)
    requires EntryMarked(s.entries, m.entries, owner, EntryStatus.Expired) && EntriesServed(m, t, k + d, k)
    ensures EntriesPassedOn(s, t, owner, k, d)
  {
    PromotedAreActive(s, m, t, owner, k, d);
    MarkedAreExpired(s, m, t, owner, k, d);
    forall u | u in s.entries && u != owner && !InQueue(s.queue[..k + d], u) ensures t.entries[u] == s.entries[u] {
      assert !InQueue(m.queue[..k + d], u);
    }
  }

  lemma RowsArePassedOn(s: EventStore, m: EventStore, t: EventStore, r: nat, j: nat, k: nat, now: Time)
    requires r < |s.rows| && k <= j <= |s.queue| && m.queue == s.queue
    requires RowMarked(s.rows, m.rows, r, ReservationStatus.Expired, s.rows[r].paidAt) && RowsServed(m, t, j, k, now)
    ensures RowsPassedOn(s, t, r, k, now)
  {
    assert t.rows[..|s.rows|] == m.rows;
  }

  lemma IsPassedOn(s: EventStore, m: EventStore, t: EventStore, r: nat, k: nat, d: nat, count: int, now: Time)
    requires r < |s.rows| && k + d <= |s.queue| && !InQueue(s.queue, s.rows[r].user) && count == m.activeCount
    requires SeatReleased(s, m, r, now) && Served(m, t, k + d, k, now)
    ensures PassedOn(s, t, r, k, d, count, now)
  {
    EntriesArePassedOn(s, m, t, s.rows[r].user, k, d);
    RowsArePassedOn(s, m, t, r, k + d, k, now);
  }

  /** What a batch makes of its seats depends on counter and queue only. */
  lemma SameSeats(s: EventStore, t: EventStore, slots: nat, k: nat)
    requires s.seats == t.seats && s.queue == t.queue
    ensures Promotions(s, slots) == Promotions(t, slots) && Dropped(s, slots, k) == Dropped(t, slots, k)
  {}

  lemma PassingOn(s: EventStore, t: EventStore, r: nat, maxActiveUsers: int, now: Time, saves: seq<bool>, k: nat,
                  count: int)
    requires r < |s.rows| && Uncounted(s, s.rows[r].user, now, count) && |t.rows| == |s.rows| + k
    requires var freed := s.(seats := s.seats + 1, activeCount := count);
             var slots := SlotsAvailable(freed, maxActiveUsers);
             Reached(Promotions(freed, slots), k, saves) && PassedOn(s, t, r, k, Dropped(freed, slots, k), count, now)
    ensures SeatPassedOn(s, t, r, maxActiveUsers, now, saves)
  {}

  /** A release and then a batch pass the seat on. */
  lemma ServedIsPassedOn(s: EventStore, m: EventStore, t: EventStore, r: nat, maxActiveUsers: int, now: Time,
                         saves: seq<bool>, k: nat)
    requires r < |s.rows| && !InQueue(s.queue, s.rows[r].user) && SeatReleased(s, m, r, now)
    requires var slots := SlotsAvailable(m, maxActiveUsers);
             Reached(Promotions(m, slots), k, saves) && Served(m, t, k + Dropped(m, slots, k), k, now)
    ensures SeatPassedOn(s, t, r, maxActiveUsers, now, saves)
  {
    var freed := s.(seats := s.seats + 1, activeCount := m.activeCount);
    var slots := SlotsAvailable(freed, maxActiveUsers);
    SameSeats(m, freed, slots, k);
    IsPassedOn(s, m, t, r, k, Dropped(freed, slots, k), m.activeCount, now);
    PassingOn(s, t, r, maxActiveUsers, now, saves, k, m.activeCount);
  }
}
