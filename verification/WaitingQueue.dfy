/** The sorted set `queue:{eventId}`: ZADD NX, ZREM, ZRANK and ZRANGE 0 0 over a sequence
    kept in (score, member) order. */
module WaitingQueue {
  import opened Domain

  predicate Before(a: Member, b: Member) {
    a.score < b.score || (a.score == b.score && a.user < b.user)
  }

  predicate InQueue(q: seq<Member>, u: UserId) {
    exists i :: 0 <= i < |q| && q[i].user == u
  }

  ghost predicate Sorted(q: seq<Member>) {
    forall i, j :: 0 <= i < j < |q| ==> Before(q[i], q[j])
  }

  ghost predicate DistinctUsers(q: seq<Member>) {
    forall i, j :: 0 <= i < j < |q| ==> q[i].user != q[j].user
  }

  /** Well-formed sorted set. */
  ghost predicate Ordered(q: seq<Member>) { Sorted(q) && DistinctUsers(q) }

  /** Number of leading elements that precede `m`: the place where `m` is stored. */
  function Place(q: seq<Member>, m: Member): (k: nat)
    ensures k <= |q|
    ensures forall i :: 0 <= i < k ==> Before(q[i], m)
    ensures k < |q| ==> !Before(q[k], m)
  {
    if q == [] || !Before(q[0], m) then 0 else 1 + Place(q[1..], m)
  }

  /** ZADD NX. */
  function Add(q: seq<Member>, m: Member): seq<Member> {
    if InQueue(q, m.user) then q else q[..Place(q, m)] + [m] + q[Place(q, m)..]
  }

  /** ZREM. */
  function Remove(q: seq<Member>, u: UserId): seq<Member> {
    if q == [] then []
    else if q[0].user == u then q[1..]
    else [q[0]] + Remove(q[1..], u)
  }

  /** ZRANK plus one, or nothing. */
  function Position(q: seq<Member>, u: UserId): Option<nat> {
    if q == [] then None
    else if q[0].user == u then Some(1)
    else match Position(q[1..], u) case None => None case Some(p) => Some(p + 1)
  }

  lemma {:induction false} PositionIs(q: seq<Member>, i: nat)
    requires DistinctUsers(q) && i < |q|
    ensures Position(q, q[i].user) == Some(i + 1)
  {
    if i == 0 {
    } else {
      PositionIs(q[1..], i - 1);
    }
  }

  lemma {:induction false} PositionFound(q: seq<Member>, u: UserId)
    ensures match Position(q, u)
            case None => !InQueue(q, u)
            case Some(p) => 1 <= p <= |q| && q[p - 1].user == u
  {
    if q == [] || q[0].user == u {
    } else {
      PositionFound(q[1..], u);
      assert q == [q[0]] + q[1..];
    }
  }

  /** Positions are a bijection between the waiting users and 1..length. */
  lemma PositionsAreBijective(q: seq<Member>, p: nat, u: UserId, v: UserId)
    requires Ordered(q)
    ensures InQueue(q, u) <==> Position(q, u).Some?
    ensures Position(q, u) == Some(p) ==> 1 <= p <= |q|
    ensures Position(q, u) == Some(p) && Position(q, v) == Some(p) ==> u == v
    ensures 1 <= p <= |q| ==> Position(q, q[p - 1].user) == Some(p)
  {
    PositionFound(q, u);
    PositionFound(q, v);
    if 1 <= p <= |q| { PositionIs(q, p - 1); }
  }

  lemma HeadComesFirst(q: seq<Member>)
    requires q != []
    ensures InQueue(q, q[0].user) && q[0] in q
    ensures Ordered(q) ==> forall x :: x in q && x != q[0] ==> Before(q[0], x)
  {}

  lemma FirstIsHead(q: seq<Member>, u: UserId)
    ensures Position(q, u) == Some(1) <==> q != [] && q[0].user == u
    ensures q == [] <==> forall v :: !InQueue(q, v)
  {
    if q != [] {
      assert InQueue(q, q[0].user);
      PositionFound(q[1..], u);
    }
  }

  /** Everything from the insertion place on comes after the new member. */
  lemma PlaceSplits(q: seq<Member>, m: Member)
    requires Ordered(q) && !InQueue(q, m.user)
    ensures forall i :: Place(q, m) <= i < |q| ==> Before(m, q[i])
  {
    var k := Place(q, m);
    if k < |q| {
      assert q[k].user != m.user;
      assert Before(m, q[k]);
    }
  }

  lemma AddKeepsOrder(q: seq<Member>, m: Member)
    requires Ordered(q)
    ensures Ordered(Add(q, m))
  {
    if !InQueue(q, m.user) {
      var k, r := Place(q, m), Add(q, m);
      PlaceSplits(q, m);
      forall i, j | 0 <= i < j < |r| ensures Before(r[i], r[j]) && r[i].user != r[j].user {
        if i == k {
          assert r[j] == q[j - 1];
        } else if j == k {
          assert r[i] == q[i];
        } else {
          var i', j' := if i < k then i else i - 1, if j < k then j else j - 1;
          assert r[i] == q[i'] && r[j] == q[j'];
        }
      }
    }
  }

  lemma AddMembers(q: seq<Member>, m: Member)
    ensures forall x :: x in Add(q, m) <==> x in q || (x == m && !InQueue(q, m.user))
    ensures forall u :: InQueue(Add(q, m), u) <==> InQueue(q, u) || u == m.user
  {
    var k, r := Place(q, m), Add(q, m);
    assert q == q[..k] + q[k..];
    assert forall x :: x in r <==> x in q || (x == m && !InQueue(q, m.user));
    forall u ensures InQueue(r, u) <==> InQueue(q, u) || u == m.user {
      InQueueMembers(q, u);
      InQueueMembers(r, u);
    }
  }

  lemma InQueueMembers(q: seq<Member>, u: UserId)
    ensures InQueue(q, u) <==> exists x :: x in q && x.user == u
  {}

  /** A repeated join changes nothing; a first join adds one, displaces nobody by more than one place,
      and displaces nobody at all when its timestamp is later than every waiting one. */
  lemma JoinKeepsPositions(q: seq<Member>, m: Member, i: nat)
    requires Ordered(q) && i < |q|
    ensures InQueue(q, m.user) ==> Add(q, m) == q
    ensures !InQueue(q, m.user) ==> |Add(q, m)| == |q| + 1
    ensures Position(q, q[i].user) == Some(i + 1)
    ensures Position(Add(q, m), q[i].user) in {Some(i + 1), Some(i + 2)}
    ensures q[i].score < m.score ==> Position(Add(q, m), q[i].user) == Some(i + 1)
  {
    PositionIs(q, i);
    if !InQueue(q, m.user) {
      AddKeepsOrder(q, m);
      PlaceSplits(q, m);
      var r := Add(q, m);
      PositionIs(r, if i < Place(q, m) then i else i + 1);
    }
  }

  lemma RemoveKeepsOrder(q: seq<Member>, u: UserId)
    requires Ordered(q)
    ensures Ordered(Remove(q, u))
    ensures forall v :: InQueue(Remove(q, u), v) <==> InQueue(q, v) && v != u
    ensures forall x :: x in Remove(q, u) <==> x in q && x.user != u
  {
    RemoveMembers(q, u);
    RemoveOrdered(q, u);
    forall v ensures InQueue(Remove(q, u), v) <==> InQueue(q, v) && v != u {
      InQueueMembers(q, v);
      InQueueMembers(Remove(q, u), v);
    }
  }

  lemma {:induction false} RemoveMembers(q: seq<Member>, u: UserId)
    requires DistinctUsers(q)
    ensures forall x :: x in Remove(q, u) <==> x in q && x.user != u
  {
    if q == [] {
    } else {
      assert q == [q[0]] + q[1..];
      RemoveMembers(q[1..], u);
    }
  }

  lemma {:induction false} RemoveOrdered(q: seq<Member>, u: UserId)
    requires Ordered(q)
    ensures Ordered(Remove(q, u))
  {
    if q == [] || q[0].user == u {
    } else {
      var r := Remove(q[1..], u);
      RemoveOrdered(q[1..], u);
      RemoveMembers(q[1..], u);
      forall i | 0 <= i < |r| ensures Before(q[0], r[i]) && q[0].user != r[i].user {
        assert r[i] in q[1..];
      }
    }
  }

  /** Serving the head shifts everyone else up by exactly one. */
  lemma HeadRemovalShifts(q: seq<Member>, i: nat)
    requires Ordered(q) && 0 < i < |q|
    ensures Remove(q, q[0].user) == q[1..]
    ensures Position(q, q[i].user) == Some(i + 1)
    ensures Position(Remove(q, q[0].user), q[i].user) == Some(i)
    ensures Position(Remove(q, q[0].user), q[0].user) == None
  {
    PositionIs(q, i);
    PositionFound(q[1..], q[0].user);
  }
}
