/** The Redis commands, one method per service call, each with its whole effect on the keyspace. */
module Redis {
  import opened Domain
  import opened WaitingQueue

  /** The keys that carry one event's identifier. */
  datatype EventKeys = EventKeys(
    seats: int,                        // remainingSeats:{event}
    queue: seq<Member>,                // queue:{event}
    active: map<UserId, Time>,         // active:{event}:{user} and when it lapses
    activeCount: int,                  // activeCount:{event}
    locks: map<nat, Lock>)             // reservationExpired:{id} of the event's reservations

  /** A missing key reads as zero, as an empty set, or as absent. */
  const NO_KEYS: EventKeys := EventKeys(0, [], map[], 0, map[])

  class RedisService {
    var keyspace: map<EventId, EventKeys>

    constructor ()
      ensures keyspace == map[]
    {
      keyspace := map[];
    }

    function KeysOf(e: EventId): EventKeys reads this { if e in keyspace then keyspace[e] else NO_KEYS }

    method InitializeSeats(e: EventId, count: int)
      modifies this
      ensures keyspace == old(keyspace)[e := old(KeysOf(e)).(seats := count)]
    {
      keyspace := keyspace[e := KeysOf(e).(seats := count)];
    }

    method DecrementSeats(e: EventId) returns (left: int)
      modifies this
      ensures left == old(KeysOf(e)).seats - 1
      ensures keyspace == old(keyspace)[e := old(KeysOf(e)).(seats := left)]
    {
      left := KeysOf(e).seats - 1;
      keyspace := keyspace[e := KeysOf(e).(seats := left)];
    }

    method IncrementSeats(e: EventId)
      modifies this
      ensures keyspace == old(keyspace)[e := old(KeysOf(e)).(seats := old(KeysOf(e)).seats + 1)]
    {
      keyspace := keyspace[e := KeysOf(e).(seats := KeysOf(e).seats + 1)];
    }

    method AddToQueue(e: EventId, u: UserId, now: Time) returns (position: nat)
      modifies this
      ensures keyspace == old(keyspace)[e := old(KeysOf(e)).(queue := Add(old(KeysOf(e)).queue, Member(now, u)))]
      ensures position == match Position(KeysOf(e).queue, u) case Some(p) => p case None => 1
    {
      keyspace := keyspace[e := KeysOf(e).(queue := Add(KeysOf(e).queue, Member(now, u)))];
      var rank := Position(KeysOf(e).queue, u);
      position := if rank.Some? then rank.value else 1;
    }

    method RemoveFromQueue(e: EventId, u: UserId)
      modifies this
      ensures keyspace == old(keyspace)[e := old(KeysOf(e)).(queue := Remove(old(KeysOf(e)).queue, u))]
    {
      keyspace := keyspace[e := KeysOf(e).(queue := Remove(KeysOf(e).queue, u))];
    }

    /** Nobody exactly if nobody waits; otherwise the user in position 1, whose member no other one precedes. */
    method GetNextInQueue(e: EventId) returns (next: Option<UserId>)
      ensures next.None? <==> forall u :: !InQueue(KeysOf(e).queue, u)
      ensures next.Some? ==> Position(KeysOf(e).queue, next.value) == Some(1)
      ensures next.Some? && Ordered(KeysOf(e).queue) ==>
                exists m :: m in KeysOf(e).queue && m.user == next.value
                            && forall x :: x in KeysOf(e).queue && x != m ==>
                                 m.score < x.score || (m.score == x.score && m.user < x.user)
    {
      if KeysOf(e).queue != [] { HeadComesFirst(KeysOf(e).queue); }
      next := if KeysOf(e).queue == [] then None else Some(KeysOf(e).queue[0].user);
    }

    /** SETEX, then INCR; `counted` says whether the INCR is accepted. */
    method SetActiveUser(e: EventId, u: UserId, now: Time, counted: bool)
      modifies this
      ensures var k := old(KeysOf(e));
              keyspace == old(keyspace)[e := k.(active := k.active[u := now + ACTIVE_USER_TTL],
                                                activeCount := k.activeCount + (if counted then 1 else 0))]
    {
      keyspace := keyspace[e := KeysOf(e).(active := KeysOf(e).active[u := now + ACTIVE_USER_TTL])];
      if counted {
        keyspace := keyspace[e := KeysOf(e).(activeCount := KeysOf(e).activeCount + 1)];
      }
    }

    /** DEL, then DECR if the key existed; it does not once its time to live has passed. */
    method RemoveActiveUser(e: EventId, u: UserId, now: Time)
      modifies this
      ensures var k := old(KeysOf(e));
              var gone := if u in k.active && now < k.active[u] then 1 else 0;
              keyspace == old(keyspace)[e := k.(active := k.active - {u}, activeCount := k.activeCount - gone)]
    {
      var existed := KeyLive(KeysOf(e).active, u, now);
      keyspace := keyspace[e := KeysOf(e).(active := KeysOf(e).active - {u})];
      if existed {
        keyspace := keyspace[e := KeysOf(e).(activeCount := KeysOf(e).activeCount - 1)];
      }
    }

    /** SETNX, then EXPIRE if it succeeded. */
    method SetReservationExpired(e: EventId, r: nat, now: Time) returns (first: bool)
      modifies this
      ensures var locks := old(KeysOf(e)).locks;
              first <==> r !in locks || (locks[r].Until? && locks[r].t <= now)
      ensures var k := old(KeysOf(e));
              keyspace == if first then old(keyspace)[e := k.(locks := k.locks[r := Until(now + LOCK_TTL)])]
                          else old(keyspace)
    {
      var k := KeysOf(e);
      first := !LockHeld(k.locks, r, now);
      if first {
        keyspace := keyspace[e := k.(locks := k.locks[r := NoTtl])];
        assert KeysOf(e).locks[r := Until(now + LOCK_TTL)] == k.locks[r := Until(now + LOCK_TTL)];
        keyspace := keyspace[e := KeysOf(e).(locks := KeysOf(e).locks[r := Until(now + LOCK_TTL)])];
      }
    }
  }
}
