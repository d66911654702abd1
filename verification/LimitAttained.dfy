/** The bound on active users is exact: it is reached for every limit, every number of overlapping batches and every
    number of lost INCRs. */
module LimitAttained {
  import opened Domain
  import opened Counting
  import opened Protocol
  import opened PaidOrReleased
  import opened ActiveLimit
  import opened SerialSteps
  import opened Hazards
  import opened ExpiryHazards

  /** Nobody waits, and the event stays on sale for `ms` more. */
  ghost predicate Idle(c: Config, s: State, ms: int) {
    && Reachable(c, s) && WellFormed(s)
    && s.store.queue == []
    && c.event.salesStartAt <= s.clock && s.clock + ms <= c.event.salesEndAt
  }

  /** As many seats in the counter, as many batches at most, and as many lost INCRs as before. */
  predicate Keeps(s: State, t: State) {
    t.store.seats == s.store.seats && t.log.peak == s.log.peak && t.log.missed == s.log.missed
  }

  // ---------- One user comes ----------

  lemma Bounded(users: set<UserId>) returns (b: nat)
    ensures forall u :: u in users ==> u < b
    decreases |users|
  {
    if users == {} {
      b := 0;
    } else {
      var u :| u in users;
      var b' := Bounded(users - {u});
      b := Max(b', u + 1);
      forall v | v in users ensures v < b {
        if v != u { assert v in users - {u}; }
      }
    }
  }

  lemma UserJoins(c: Config, s: State) returns (t: State, u: UserId)
    requires Idle(c, s, 0)
    ensures Reachable(c, t) && WellFormed(t) && t == s.(store := t.store) && u in t.store.entries
    ensures t.store == s.store.(queue := [Member(s.clock, u)], entries := t.store.entries)
  {
    u := Bounded(s.store.entries.Keys);
    StepLeads(c, Initial(c), s, Enter(u));
    t := Apply(c, s, Enter(u));
  }

  // ---------- A batch gets stuck between SETEX and INCR ----------

  lemma DequeuedState(s: State, i: nat, u: UserId, r: nat) returns (t: State)
    requires i < |s.batches| && s.store.queue == [Member(s.clock, u)]
    ensures t == Put(s, i, Dequeued(s.clock, ViewOf(s, i), u, r))
    ensures t == s.(batches := s.batches[i := s.batches[i].(pc := SetKey(u, r))],
                    store := s.store.(jobs := s.store.jobs[r := s.clock + RESERVATION_TTL], queue := [],
                                      entries := t.store.entries))
  {
    t := Put(s, i, Dequeued(s.clock, ViewOf(s, i), u, r));
  }

  lemma OffTheQueue(c: Config, s: State, i: nat, u: UserId, r: nat) returns (t: State)
    requires Reachable(c, s) && WellFormed(s) && i < |s.batches| && Working(s.batches[i])
    requires s.batches[i].pc == AddJob(u, r) && s.store.queue == [Member(s.clock, u)]
    ensures Reachable(c, t) && WellFormed(t)
    ensures t == s.(batches := s.batches[i := s.batches[i].(pc := SetKey(u, r))],
                    store := s.store.(jobs := s.store.jobs[r := s.clock + RESERVATION_TTL], queue := [],
                                      entries := t.store.entries))
  {
    DequeuedLeads(c, Initial(c), s, i, u, r);
    t := DequeuedState(s, i, u, r);
  }

  /** User `u` has joined, and batch `i` has saved a row for that user. */
  ghost predicate JoinedAndSaved(s: State, t: State, i: nat, u: UserId) {
    && i < |s.batches| && t.clock == s.clock && t.runs == s.runs && t.notes == s.notes + [Note(0, 0, 0, 0)]
    && t.batches == s.batches[i := s.batches[i].(pc := AddJob(u, |s.store.rows|))]
    && t.log == s.log.(granted := s.log.granted + 1)
    && t.store.seats == s.store.seats - 1 && t.store.queue == [Member(s.clock, u)]
    && t.store.jobs == s.store.jobs && t.store.locks == s.store.locks && t.store.activeCount == s.store.activeCount
    && t.store.rows == s.store.rows + [Reservation(u, PendingPayment, s.clock + RESERVATION_TTL, None)]
  }

  lemma SavedAfterJoin(s: State, s1: State, t: State, i: nat, u: UserId)
    requires i < |s.batches| && s1 == s.(store := s1.store)
    requires s1.store == s.store.(queue := [Member(s.clock, u)], entries := s1.store.entries)
    requires t == s1.(batches := s1.batches[i := s1.batches[i].(pc := AddJob(u, |s1.store.rows|))],
                      store := s1.store.(seats := s1.store.seats - 1, rows := t.store.rows),
                      notes := s1.notes + [Note(0, 0, 0, 0)], log := s1.log.(granted := s1.log.granted + 1))
    requires t.store.rows == s1.store.rows + [Reservation(u, PendingPayment, s1.clock + RESERVATION_TTL, None)]
    ensures JoinedAndSaved(s, t, i, u)
  {}

  /** A user joins and the batch saves its row. */
  lemma UserReserved(c: Config, s: State, i: nat) returns (t: State, u: UserId)
    requires Idle(c, s, 0) && i < |s.batches| && Working(s.batches[i]) && s.batches[i].pc.ReadHead?
    requires s.store.seats >= 1
    ensures Reachable(c, t) && WellFormed(t) && JoinedAndSaved(s, t, i, u)
  {
    var s1;
    s1, u := UserJoins(c, s);
    t := HeadReserved(c, Initial(c), s1, i);
    SavedAfterJoin(s, s1, t, i, u);
  }

  /** User `u` has joined, and batch `i` is at the SETEX of that user's key. */
  ghost predicate JoinedAndDequeued(s: State, t: State, i: nat, u: UserId) {
    && i < |s.batches| && t.clock == s.clock && t.runs == s.runs && t.log == s.log.(granted := s.log.granted + 1)
    && t.batches == s.batches[i := s.batches[i].(pc := SetKey(u, |s.store.rows|))]
    && t.store.seats == s.store.seats - 1 && t.store.queue == [] && t.store.locks == s.store.locks
    && t.store.jobs == s.store.jobs[|s.store.rows| := s.clock + RESERVATION_TTL]
    && t.store.activeCount == s.store.activeCount
    && t.store.rows == s.store.rows + [Reservation(u, PendingPayment, s.clock + RESERVATION_TTL, None)]
  }

  lemma DequeuedAfterSave(s: State, s1: State, t: State, i: nat, u: UserId)
    requires JoinedAndSaved(s, s1, i, u)
    requires t == s1.(batches := s1.batches[i := s1.batches[i].(pc := SetKey(u, |s.store.rows|))], store := t.store)
    requires t.store == s1.store.(jobs := s1.store.jobs[|s.store.rows| := s1.clock + RESERVATION_TTL], queue := [],
                                  entries := t.store.entries)
    ensures JoinedAndDequeued(s, t, i, u)
  {}

  /** The batch takes the user up to the SETEX of its key. */
  lemma KeyNotSet(c: Config, s: State, i: nat) returns (t: State, u: UserId)
    requires Idle(c, s, 0) && i < |s.batches| && Working(s.batches[i]) && s.batches[i].pc.ReadHead?
    requires s.store.seats >= 1
    ensures Reachable(c, t) && WellFormed(t) && JoinedAndDequeued(s, t, i, u)
  {
    var s1;
    s1, u := UserReserved(c, s, i);
    t := OffTheQueue(c, s1, i, u, |s.store.rows|);
    DequeuedAfterSave(s, s1, t, i, u);
  }

  lemma KeySetState(c: Config, s: State, i: nat, u: UserId, r: nat) returns (t: State)
    requires WellFormed(s) && i < |s.batches| && Working(s.batches[i]) && s.batches[i].pc == SetKey(u, r)
    ensures t == Apply(c, s, BatchStep(i, true))
    ensures t == s.(batches := s.batches[i := s.batches[i].(pc := CountKey(u, r))],
                    store := s.store.(active := s.store.active[u := s.clock + ACTIVE_USER_TTL]))
  {
    t := Apply(c, s, BatchStep(i, true));
  }

  lemma KeySetLeads(c: Config, s: State, i: nat, u: UserId, r: nat) returns (t: State)
    requires Reachable(c, s) && WellFormed(s)
    requires i < |s.batches| && Working(s.batches[i]) && s.batches[i].pc == SetKey(u, r)
    ensures Reachable(c, t) && WellFormed(t)
    ensures t == s.(batches := s.batches[i := s.batches[i].(pc := CountKey(u, r))],
                    store := s.store.(active := s.store.active[u := s.clock + ACTIVE_USER_TTL]))
  {
    t := KeySetState(c, s, i, u, r);
    StepLeads(c, Initial(c), s, BatchStep(i, true));
  }

  /** 300 s later the key is set. */
  lemma KeyWritten(c: Config, s: State, i: nat, u: UserId, r: nat) returns (t: State)
    requires Reachable(c, s) && WellFormed(s)
    requires i < |s.batches| && Working(s.batches[i]) && s.batches[i].pc == SetKey(u, r)
    ensures Reachable(c, t) && WellFormed(t)
    ensures t.clock == s.clock + RESERVATION_TTL && t.runs == s.runs && t.notes == s.notes
    ensures t.log == s.log.(window := t.log.window)
    ensures t.batches == s.batches[i := s.batches[i].(pc := CountKey(u, r))]
    ensures t.store == s.store.(active := s.store.active[u := t.clock + ACTIVE_USER_TTL])
  {
    var s1 := Waited(c, Initial(c), s, s.clock + RESERVATION_TTL);
    t := KeySetLeads(c, s1, i, u, r);
  }

  /** Then the expiry job is delivered. */
  lemma KeySet(c: Config, s: State, i: nat, u: UserId, r: nat) returns (t: State)
    requires Reachable(c, s) && WellFormed(s)
    requires i < |s.batches| && Working(s.batches[i]) && s.batches[i].pc == SetKey(u, r)
    requires r in s.store.jobs && s.store.jobs[r] == s.clock + RESERVATION_TTL
    ensures Reachable(c, t) && WellFormed(t)
    ensures t.clock == s.clock + RESERVATION_TTL && t.notes == s.notes && t.log == s.log.(window := t.log.window)
    ensures t.batches == s.batches[i := s.batches[i].(pc := CountKey(u, r))]
    ensures t.runs == s.runs + [ExpiryRun(r, t.clock, ReadRow, true)]
    ensures t.store == s.store.(active := s.store.active[u := t.clock + ACTIVE_USER_TTL])
  {
    var s1 := KeyWritten(c, s, i, u, r);
    t := JobDelivered(c, s1, r);
  }

  lemma JobDelivered(c: Config, s: State, r: nat) returns (t: State)
    requires Reachable(c, s) && WellFormed(s) && r in s.store.jobs && s.store.jobs[r] <= s.clock
    ensures Reachable(c, t) && WellFormed(t) && t == s.(runs := s.runs + [ExpiryRun(r, s.clock, ReadRow, true)])
  {
    StepLeads(c, Initial(c), s, Deliver(r));
    t := Apply(c, s, Deliver(r));
  }

  /** The run deletes the key that is not counted yet. */
  lemma KeyDeleted(c: Config, s: State, j: nat) returns (t: State)
    requires Reachable(c, s) && WellFormed(s) && j < |s.runs| && s.runs[j].alive && s.runs[j].pc.ReadRow?
    requires var r := s.runs[j].row;
             s.store.rows[r].status.PendingPayment? && r !in s.store.locks
             && KeyLive(s.store.active, s.store.rows[r].user, s.clock)
    ensures Reachable(c, t) && WellFormed(t) && t == s.(store := t.store, runs := t.runs, notes := t.notes)
    ensures t.store.seats == s.store.seats + 1 && t.store.activeCount == s.store.activeCount - 1
    ensures t.store.queue == s.store.queue
  {
    ExpiryLeads(c, Initial(c), s, j);
    t := AfterExpiry(s, j);
  }

  lemma Stalled(c: Config, s: State, i: nat, ms: int) returns (t: State)
    requires Idle(c, s, ms + RESERVATION_TTL) && ms >= 0 && s.store.seats >= 1
    requires i < |s.batches| && Working(s.batches[i]) && s.batches[i].pc.ReadHead?
    ensures Idle(c, t, ms) && Keeps(s, t) && t.store.activeCount == s.store.activeCount - 1
    ensures |t.batches| == |s.batches| && IsStalled(t.batches[i], s.batches[i].slots)
    ensures t.batches == s.batches[i := t.batches[i]]
  {
    OrderlyReachable(c, s);
    var s1, u := KeyNotSet(c, s, i);
    var s2 := KeySet(c, s1, i, u, |s.store.rows|);
    t := KeyDeleted(c, s2, |s.runs|);
  }

  predicate IsStalled(b: Batch, slots: nat) { b.alive && b.pc.CountKey? && b.slots == slots }

  predicate IsOpen(b: Batch, slots: nat) { b == Batch(slots, ReadHead, true) }

  predicate IsOver(b: Batch) { b.pc.BatchOver? }

  /** The INCR at last; nobody is waiting, so the batch is over. */
  lemma Counted(c: Config, s: State, i: nat, ms: int) returns (t: State)
    requires Idle(c, s, ms) && i < |s.batches| && s.batches[i].alive && s.batches[i].pc.CountKey?
    ensures Idle(c, t, ms) && Keeps(s, t) && t.store.activeCount == s.store.activeCount + 1
    ensures |t.batches| == |s.batches| && IsOver(t.batches[i]) && t.batches == s.batches[i := t.batches[i]]
  {
    StepLeads(c, Initial(c), s, BatchStep(i, true));
    t := Apply(c, s, BatchStep(i, true));
    if t.batches[i].pc.ReadHead? {
      StepLeads(c, Initial(c), t, BatchStep(i, true));
      t := Apply(c, t, BatchStep(i, true));
    }
  }

  /** A new batch opens as the `live`-th at work. */
  lemma Opens(c: Config, s: State, live: nat, ms: int) returns (t: State)
    requires Idle(c, s, ms) && s.store.activeCount < c.maxActiveUsers
    requires Sum(s.batches, Live) == live - 1 && s.log.peak <= live
    ensures Idle(c, t, ms) && t.store == s.store && t.log.missed == s.log.missed
    ensures t.log.peak == live && Sum(t.batches, Live) == live
    ensures t.batches == s.batches + [Batch(c.maxActiveUsers - s.store.activeCount, ReadHead, true)]
  {
    SumAppend(s.batches, Batch(c.maxActiveUsers - s.store.activeCount, ReadHead, true), Live);
    t := BatchOpened(c, Initial(c), s);
  }

  // ---------- Lost INCRs ----------

  /** The INCR is rejected; the catch block refunds the seat and the batch is over. */
  lemma NotCounted(c: Config, s: State, i: nat, ms: int) returns (t: State)
    requires Idle(c, s, ms) && i < |s.batches| && s.batches[i].alive && s.batches[i].pc.CountKey?
    ensures Idle(c, t, ms) && t.store == s.store.(seats := s.store.seats + 1)
    ensures t.batches == s.batches[i := s.batches[i].(pc := BatchOver)]
    ensures t.log.peak == s.log.peak && t.log.missed == s.log.missed + 1
  {
    t := BreaksOff(c, Initial(c), s, i, s.batches[i].pc.row);
  }

  /** `lost` batches are over, each of which has left the count one too low. */
  ghost predicate Short(c: Config, s: State, lost: nat) {
    && |s.batches| == lost && Sum(s.batches, Live) == 0 && s.log.peak <= 1 && s.log.missed == lost
    && s.store.activeCount + lost == 0 && s.store.seats >= c.event.totalSeats
    && (forall i :: 0 <= i < lost ==> IsOver(s.batches[i]))
  }

  /** What the batch that lost its INCR was. */
  lemma StillShort(c: Config, s: State, t: State, lost: nat, x: Batch)
    requires Short(c, s, lost) && IsOver(x) && t.batches == s.batches + [x] && t.log.peak <= 1
    requires t.log.missed == lost + 1 && t.store.activeCount == s.store.activeCount - 1
    requires t.store.seats >= s.store.seats
    ensures Short(c, t, lost + 1)
  {}

  lemma LosesOne(c: Config, s: State, lost: nat, ms: int) returns (t: State)
    requires Idle(c, s, ms + RESERVATION_TTL) && ms >= 0 && Short(c, s, lost)
    requires c.maxActiveUsers >= 1 && c.event.totalSeats >= 1
    ensures Idle(c, t, ms) && Short(c, t, lost + 1)
  {
    var s1 := Opens(c, s, 1, ms + RESERVATION_TTL);
    var s2 := Stalled(c, s1, lost, ms);
    t := NotCounted(c, s2, lost, ms);
    assert t.batches == s.batches + [t.batches[lost]];
    StillShort(c, s, t, lost, t.batches[lost]);
  }

  lemma {:induction false} Losses(c: Config, lost: nat, ms: int) returns (s: State)
    requires c.maxActiveUsers >= 1 && ms >= 0 && c.event.totalSeats >= 1 && LongSale(c, lost, ms)
    ensures Idle(c, s, ms) && Short(c, s, lost)
    decreases lost
  {
    if lost == 0 {
      LeadsToItself(c, Initial(c));
      s := Initial(c);
    } else {
      var s1 := Losses(c, lost - 1, ms + RESERVATION_TTL);
      s := LosesOne(c, s1, lost - 1, ms);
    }
  }

  /** The sale lasts long enough for `n` waits of 300 s, and `ms` more. */
  predicate LongSale(c: Config, n: nat, ms: int) {
    c.event.salesStartAt <= c.start && c.start + ms + Times(n, RESERVATION_TTL) <= c.event.salesEndAt
  }

  lemma ShorterSale(c: Config, n: nat, ms: int)
    requires n >= 1 && LongSale(c, n, ms)
    ensures LongSale(c, n - 1, ms + RESERVATION_TTL)
  {}

  // ---------- As many batches as there may be but one, all stuck ----------

  /** After the lost ones, `stuck` of `n` batches are stuck, each with as many slots as it could get. */
  ghost predicate Starting(c: Config, s: State, lost: nat, n: nat, stuck: nat) {
    && |s.batches| == lost + n && stuck <= n && Sum(s.batches, Live) == n && s.log.peak <= Max(1, n)
    && s.log.missed == lost && s.store.activeCount + lost + stuck == 0 && s.store.seats >= c.event.totalSeats
    && (forall i :: 0 <= i < lost ==> IsOver(s.batches[i]))
    && (forall i :: lost <= i < lost + stuck ==> IsStalled(s.batches[i], c.maxActiveUsers + lost))
    && (forall i :: lost + stuck <= i < lost + n ==> IsOpen(s.batches[i], c.maxActiveUsers + lost))
  }

  lemma {:induction false} Starters(c: Config, lost: nat, n: nat, ms: int) returns (s: State)
    requires c.maxActiveUsers >= 1 && ms >= 0 && c.event.totalSeats >= 1 && LongSale(c, lost, ms)
    ensures Idle(c, s, ms) && Starting(c, s, lost, n, 0)
    decreases n
  {
    if n == 0 {
      s := Losses(c, lost, ms);
    } else {
      var s1 := Starters(c, lost, n - 1, ms);
      s := Opens(c, s1, n, ms);
    }
  }

  lemma OneMoreStuck(c: Config, s: State, t: State, lost: nat, n: nat, stuck: nat, x: Batch)
    requires stuck < n && Starting(c, s, lost, n, stuck) && IsStalled(x, c.maxActiveUsers + lost) && Keeps(s, t)
    requires t.batches == s.batches[lost + stuck := x] && t.store.activeCount == s.store.activeCount - 1
    ensures Starting(c, t, lost, n, stuck + 1)
  {
    SumUpdate(s.batches, lost + stuck, x, Live);
  }

  lemma {:induction false} StuckStarters(c: Config, lost: nat, n: nat, stuck: nat, ms: int) returns (s: State)
    requires c.maxActiveUsers >= 1 && ms >= 0 && stuck <= n && c.event.totalSeats >= 1
    requires LongSale(c, lost + stuck, ms)
    ensures Idle(c, s, ms) && Starting(c, s, lost, n, stuck)
    decreases stuck
  {
    if stuck == 0 {
      s := Starters(c, lost, n, ms);
    } else {
      var s1 := StuckStarters(c, lost, n, stuck - 1, ms + RESERVATION_TTL);
      s := Stalled(c, s1, lost + stuck - 1, ms);
      OneMoreStuck(c, s1, s, lost, n, stuck - 1, s.batches[lost + stuck - 1]);
    }
  }

  // ---------- One after the other is replaced by a greedy one ----------

  /** `n` batches are stuck: of the `n` starters all but the first `j`, which are over; and `j` more, with `n` slots
      more each. */
  ghost predicate Between(c: Config, s: State, lost: nat, n: nat, j: nat) {
    && j <= n && |s.batches| == lost + n + j && Sum(s.batches, Live) == n && s.log.peak <= n + 1
    && s.log.missed == lost && s.store.activeCount + lost + n == 0 && s.store.seats >= c.event.totalSeats
    && (forall i :: 0 <= i < lost + j ==> IsOver(s.batches[i]))
    && (forall i :: lost + j <= i < lost + n ==> IsStalled(s.batches[i], c.maxActiveUsers + lost))
    && (forall i :: lost + n <= i < lost + n + j ==> IsStalled(s.batches[i], c.maxActiveUsers + lost + n))
  }

  /** The same, and one batch more, which has not begun. */
  ghost predicate Greedy(c: Config, s: State, lost: nat, n: nat, j: nat) {
    && j < n && |s.batches| == lost + n + j + 1 && Sum(s.batches, Live) == n + 1 && s.log.peak == n + 1
    && s.log.missed == lost && s.store.activeCount + lost + n == 0 && s.store.seats >= c.event.totalSeats
    && (forall i :: 0 <= i < lost + j ==> IsOver(s.batches[i]))
    && (forall i :: lost + j <= i < lost + n ==> IsStalled(s.batches[i], c.maxActiveUsers + lost))
    && (forall i :: lost + n <= i < lost + n + j ==> IsStalled(s.batches[i], c.maxActiveUsers + lost + n))
    && IsOpen(s.batches[lost + n + j], c.maxActiveUsers + lost + n)
  }

  lemma GreedyOpens(c: Config, s: State, lost: nat, n: nat, j: nat, ms: int) returns (t: State)
    requires Idle(c, s, ms) && Between(c, s, lost, n, j) && j < n && c.maxActiveUsers >= 1
    ensures Idle(c, t, ms) && Greedy(c, t, lost, n, j)
  {
    t := Opens(c, s, n + 1, ms);
  }

  /** Batch `i` gets stuck, batch `k` comes out of it. */
  lemma StuckInstead(c: Config, s: State, i: nat, k: nat, ms: int) returns (t: State, x: Batch, y: Batch)
    requires Idle(c, s, ms + RESERVATION_TTL) && ms >= 0 && s.store.seats >= 1 && i != k
    requires i < |s.batches| && Working(s.batches[i]) && s.batches[i].pc.ReadHead?
    requires k < |s.batches| && s.batches[k].alive && s.batches[k].pc.CountKey?
    ensures Idle(c, t, ms) && Keeps(s, t) && t.store.activeCount == s.store.activeCount
    ensures IsStalled(x, s.batches[i].slots) && IsOver(y) && t.batches == s.batches[i := x][k := y]
  {
    var s1 := Stalled(c, s, i, ms);
    x := s1.batches[i];
    t := Counted(c, s1, k, ms);
    y := t.batches[k];
  }

  /** What that does to the crowd. */
  lemma OneMoreGreedy(c: Config, s: State, t: State, lost: nat, n: nat, j: nat, x: Batch, y: Batch)
    requires Greedy(c, s, lost, n, j) && IsStalled(x, c.maxActiveUsers + lost + n) && IsOver(y) && Keeps(s, t)
    requires t.batches == s.batches[lost + n + j := x][lost + j := y] && t.store.activeCount == s.store.activeCount
    ensures Between(c, t, lost, n, j + 1)
  {
    SumUpdate(s.batches, lost + n + j, x, Live);
    SumUpdate(s.batches[lost + n + j := x], lost + j, y, Live);
  }

  lemma GreedyStuck(c: Config, s: State, lost: nat, n: nat, j: nat, ms: int) returns (t: State)
    requires Idle(c, s, ms + RESERVATION_TTL) && ms >= 0 && c.event.totalSeats >= 1 && Greedy(c, s, lost, n, j)
    ensures Idle(c, t, ms) && Between(c, t, lost, n, j + 1)
  {
    var x, y;
    t, x, y := StuckInstead(c, s, lost + n + j, lost + j, ms);
    OneMoreGreedy(c, s, t, lost, n, j, x, y);
  }

  lemma GreedyNext(c: Config, s: State, lost: nat, n: nat, j: nat, ms: int) returns (t: State)
    requires Idle(c, s, ms + RESERVATION_TTL) && ms >= 0 && c.event.totalSeats >= 1 && c.maxActiveUsers >= 1
    requires 0 < j <= n && Between(c, s, lost, n, j - 1)
    ensures Idle(c, t, ms) && Between(c, t, lost, n, j)
  {
    var s1 := GreedyOpens(c, s, lost, n, j - 1, ms + RESERVATION_TTL);
    t := GreedyStuck(c, s1, lost, n, j - 1, ms);
  }

  lemma {:induction false} GreedyCrowd(c: Config, lost: nat, n: nat, j: nat, ms: int) returns (s: State)
    requires c.maxActiveUsers >= 1 && ms >= 0 && c.event.totalSeats >= 1 && j <= n && LongSale(c, lost + n + j, ms)
    ensures Idle(c, s, ms) && Between(c, s, lost, n, j)
    decreases j
  {
    if j == 0 {
      s := StuckStarters(c, lost, n, n, ms);
    } else {
      ShorterSale(c, lost + n + j, ms);
      var s1 := GreedyCrowd(c, lost, n, j - 1, ms + RESERVATION_TTL);
      s := GreedyNext(c, s1, lost, n, j, ms);
    }
  }

  // ---------- Everybody is counted ----------

  /** Batches about to read the head or to count a key, or over. */
  ghost predicate Resting(batches: seq<Batch>) {
    forall i :: 0 <= i < |batches| ==>
      && (batches[i].pc.ReadHead? || batches[i].pc.CountKey? || batches[i].pc.BatchOver?)
      && (Working(batches[i]) ==> batches[i].slots >= 1)
  }

  /** One slot is used up. */
  lemma SlotUsed(c: Config, s: State, i: nat) returns (t: State)
    requires Idle(c, s, 0) && i < |s.batches| && Working(s.batches[i]) && s.store.seats >= 1
    requires s.batches[i].pc.ReadHead? || s.batches[i].pc.CountKey?
    ensures Idle(c, t, 0) && t.store.activeCount == s.store.activeCount + 1 && t.store.seats >= s.store.seats - 1
    ensures t.batches == s.batches[i := NextTurn(s.batches[i])]
    ensures t.log.peak == s.log.peak && t.log.missed == s.log.missed
  {
    if s.batches[i].pc.CountKey? {
      StepLeads(c, Initial(c), s, BatchStep(i, true));
      t := Apply(c, s, BatchStep(i, true));
    } else {
      var s1, u := UserJoins(c, s);
      PromotionLeads(c, Initial(c), s1, i);
      t := AfterPromotion(s1, i, true);
    }
  }

  lemma {:induction false} AllCounted(c: Config, s: State) returns (t: State)
    requires Idle(c, s, 0) && Resting(s.batches) && s.store.seats >= Sum(s.batches, Slots)
    ensures Reachable(c, t) && t.log.peak == s.log.peak && t.log.missed == s.log.missed
    ensures t.store.activeCount == s.store.activeCount + Sum(s.batches, Slots)
    decreases Sum(s.batches, Slots)
  {
    SumNonNegative(s.batches, Slots);
    if Sum(s.batches, Slots) == 0 {
      t := s;
    } else {
      var i := SumPositive(s.batches, Slots);
      SumUpdate(s.batches, i, NextTurn(s.batches[i]), Slots);
      var s1 := SlotUsed(c, s, i);
      t := AllCounted(c, s1);
    }
  }

  // ---------- The whole crowd ----------

  lemma {:induction false} SlotsOfSame(batches: seq<Batch>, n: nat, slots: nat)
    requires n <= |batches|
    requires forall i :: 0 <= i < n ==> Slots(batches[i]) == 0
    requires forall i :: n <= i < |batches| ==> Slots(batches[i]) == slots
    ensures Sum(batches, Slots) == Times(|batches| - n, slots)
  {
    if batches == [] {
    } else {
      SlotsOfSame(batches[..|batches| - 1], if n == |batches| then n - 1 else n, slots);
    }
  }

  /** `n` batches with `n` slots more than the others could get, and one that fills up to the limit. */
  ghost predicate Crowd(c: Config, s: State, lost: nat, n: nat) {
    var most := c.maxActiveUsers + Times(n, c.maxActiveUsers + lost + n);
    && Resting(s.batches) && s.log.peak == n + 1 && s.log.missed == lost && s.store.seats >= c.event.totalSeats
    && s.store.activeCount + Sum(s.batches, Slots) == most
    && Sum(s.batches, Slots) <= most + lost + n
  }

  /** The last of the starters is over. */
  ghost predicate LastOver(c: Config, s: State, lost: nat, n: nat) {
    && Resting(s.batches) && s.log.peak <= n + 1 && s.log.missed == lost && s.store.seats >= c.event.totalSeats
    && s.store.activeCount + lost + n <= 1 && s.store.activeCount + lost + n >= 0 && s.store.activeCount <= 0
    && Sum(s.batches, Live) == n && Sum(s.batches, Slots) == Times(n, c.maxActiveUsers + lost + n)
  }

  lemma LastIsOver(c: Config, s: State, t: State, lost: nat, n: nat, y: Batch)
    requires n >= 1 && Greedy(c, s, lost, n, n - 1) && IsOver(y) && Keeps(s, t) && c.maxActiveUsers >= 1
    requires t.batches == s.batches[lost + n - 1 := y] && t.store.activeCount == s.store.activeCount + 1
    ensures LastOver(c, t, lost, n)
  {
    SumUpdate(s.batches, lost + n - 1, y, Live);
    SlotsOfSame(t.batches, lost + n, c.maxActiveUsers + lost + n);
  }

  lemma LastComesOut(c: Config, s: State, lost: nat, n: nat) returns (t: State)
    requires n >= 1 && Idle(c, s, 0) && Greedy(c, s, lost, n, n - 1) && c.maxActiveUsers >= 1
    ensures Idle(c, t, 0) && LastOver(c, t, lost, n)
  {
    t := Counted(c, s, lost + n - 1, 0);
    LastIsOver(c, s, t, lost, n, t.batches[lost + n - 1]);
  }

  /** One more batch opens and fills up to the limit. */
  lemma LastOpens(c: Config, s: State, lost: nat, n: nat) returns (t: State)
    requires Idle(c, s, 0) && LastOver(c, s, lost, n) && c.maxActiveUsers >= 1
    ensures Idle(c, t, 0) && Crowd(c, t, lost, n)
  {
    t := Opens(c, s, n + 1, 0);
    SumAppend(s.batches, t.batches[|s.batches|], Slots);
  }

  lemma ShortIsOver(c: Config, s: State, lost: nat)
    requires Short(c, s, lost)
    ensures LastOver(c, s, lost, 0)
  {
    SlotsOfSame(s.batches, lost, 0);
  }

  lemma AllOverlapping(c: Config, lost: nat, n: nat) returns (s: State)
    requires c.maxActiveUsers >= 1 && c.event.totalSeats >= 1 && n >= 1 && LongSale(c, lost + 2 * n, 0)
    ensures Idle(c, s, 0) && LastOver(c, s, lost, n)
  {
    ShorterSale(c, lost + 2 * n, 0);
    var s1 := GreedyCrowd(c, lost, n, n - 1, RESERVATION_TTL);
    var s2 := GreedyOpens(c, s1, lost, n, n - 1, 0);
    s := LastComesOut(c, s2, lost, n);
  }

  lemma AllButLastCome(c: Config, lost: nat, n: nat) returns (s: State)
    requires c.maxActiveUsers >= 1 && c.event.totalSeats >= 1 && LongSale(c, lost + 2 * n, 0)
    ensures Idle(c, s, 0) && LastOver(c, s, lost, n)
  {
    if n == 0 {
      s := Losses(c, lost, 0);
      ShortIsOver(c, s, lost);
    } else {
      s := AllOverlapping(c, lost, n);
    }
  }

  lemma CrowdComes(c: Config, lost: nat, n: nat) returns (s: State)
    requires c.maxActiveUsers >= 1 && c.event.totalSeats >= 1 && LongSale(c, lost + 2 * n, 0)
    ensures Idle(c, s, 0) && Crowd(c, s, lost, n)
  {
    var s1 := AllButLastCome(c, lost, n);
    s := LastOpens(c, s1, lost, n);
  }

  /** For every limit, every k and every number of lost INCRs there is an event at which at most k batches overlap, so
      many INCRs are lost, and as many users are counted as the bound allows. */
  lemma LimitAttained(limit: nat, k: nat, lost: nat) returns (c: Config, s: State)
    requires limit >= 1 && k >= 1
    ensures Reachable(c, s) && c.maxActiveUsers == limit && s.log.peak == k && s.log.missed == lost
    ensures s.store.activeCount == k * limit + (k - 1) * (k - 1 + lost)
  {
    var total := limit + Times(k - 1, limit + lost + k - 1) + lost + k;
    c := Config(Event(total, 0, Times(lost + 2 * (k - 1), RESERVATION_TTL)), limit, 0);
    var s1 := CrowdComes(c, lost, k - 1);
    s := AllCounted(c, s1);
    CapIs(limit, k, lost);
  }

  lemma CapIs(limit: nat, k: nat, lost: nat)
    requires k >= 1
    ensures limit + Times(k - 1, limit + lost + k - 1) == Cap(limit, k, lost)
    ensures Cap(limit, k, lost) == k * limit + (k - 1) * (k - 1 + lost)
  {
    TimesSplits(k - 1, limit, k - 1 + lost);
    CapIsProduct(limit, k, lost);
  }

  /** Requirement 4.5, exactly: with at most k overlapping batches and at most `lost` lost INCRs, `bound` limits the
      active users of every event with the given limit if and only if it is at least k times the limit plus (k - 1)
      times (k - 1 + lost). */
  lemma LimitIsSharp(limit: nat, k: nat, lost: nat, bound: int)
    requires limit >= 1 && k >= 1
    ensures (forall c, s :: Reachable(c, s) && c.maxActiveUsers == limit && s.log.peak <= k && s.log.missed <= lost ==>
               s.store.activeCount <= bound)
       <==> bound >= k * limit + (k - 1) * (k - 1 + lost)
  {
    CapIs(limit, k, lost);
    if bound >= k * limit + (k - 1) * (k - 1 + lost) {
      forall c, s | Reachable(c, s) && c.maxActiveUsers == limit && s.log.peak <= k && s.log.missed <= lost
        ensures s.store.activeCount <= bound
      {
        ActiveReachable(c, s);
        SumNonNegative(s.batches, Slots);
        CapGrows(limit, s.log.peak, k, s.log.missed, lost);
      }
    } else {
      var c, s := LimitAttained(limit, k, lost);
      assert s.store.activeCount > bound;
    }
  }
}
