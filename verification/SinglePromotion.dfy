/** One reservation per user: true of the interleaved protocol as long as no batch reads a head that
    another batch is still serving, and no command of a promotion is rejected after its row was saved. */
module SinglePromotion {
  import opened Domain
  import opened WaitingQueue
  import opened Protocol
  import OperationRuns

  /** Taken from the head, row not saved. */
  predicate Reserving(b: Batch, u: UserId) {
    Working(b) && (b.pc == Decrement(u) || b.pc == Stamp(u) || (b.pc.SaveRow? && b.pc.user == u))
  }

  /** Row saved, not yet off the queue. */
  predicate Finishing(b: Batch, u: UserId) {
    Working(b) && (b.pc.AddJob? || b.pc.MarkActive? || b.pc.Dequeue?) && b.pc.user == u
  }

  predicate Serving(b: Batch, u: UserId) { Reserving(b, u) || Finishing(b, u) }

  predicate HasRow(s: State, u: UserId) {
    exists r :: 0 <= r < |s.store.rows| && s.store.rows[r].user == u
  }

  /** The step reads a head that another batch is serving. */
  predicate SharedRead(s: State, a: Action) {
    && a.BatchStep? && a.ok && a.batch < |s.batches| && s.batches[a.batch].pc.ReadHead? && s.store.queue != []
    && exists k :: 0 <= k < |s.batches| && k != a.batch && Serving(s.batches[k], s.store.queue[0].user)
  }

  /** No step of the schedule was a shared read. */
  ghost predicate Exclusive(c: Config, acts: seq<Action>)
    requires Schedule(c, Initial(c), acts)
    decreases |acts|
  {
    || acts == []
    || (Exclusive(c, acts[..|acts| - 1]) && !SharedRead(After(c, Initial(c), acts[..|acts| - 1]), acts[|acts| - 1]))
  }

  ghost predicate QueueSane(s: State) {
    && Ordered(s.store.queue)
    && (forall x :: x in s.store.queue ==> x.user in s.store.entries)
    && (forall r :: 0 <= r < |s.store.rows| ==> s.store.rows[r].user in s.store.entries)
  }

  /** Whoever is being served has an entry, and a row once it was saved. */
  ghost predicate ServedSane(s: State) {
    forall i, u :: 0 <= i < |s.batches| ==>
      && (Reserving(s.batches[i], u) ==> u in s.store.entries)
      && (Finishing(s.batches[i], u) ==> HasRow(s, u))
  }

  ghost predicate Sane(s: State) { QueueSane(s) && ServedSane(s) }

  /** A waiting user with a row is being dequeued right now; a user whose seat is being taken has no row yet;
      no two batches serve the same user. */
  ghost predicate ServedOnce(s: State) {
    && OperationRuns.OneRowPerUser(s.store)
    && (forall x :: x in s.store.queue && HasRow(s, x.user) ==>
          exists i :: 0 <= i < |s.batches| && Finishing(s.batches[i], x.user))
    && (forall i, u :: 0 <= i < |s.batches| && Reserving(s.batches[i], u) ==> !HasRow(s, u))
    && ServedApart(s.batches)
  }

  ghost predicate ServedApart(batches: seq<Batch>) {
    forall i, k, u :: 0 <= i < |batches| && 0 <= k < |batches| && Serving(batches[i], u) && Serving(batches[k], u) ==>
      i == k
  }

  /** What a batch step does to queue, entries and served users. */
  lemma BatchDoesQueue(s: State, b: Batch, ok: bool)
    ensures var e := BatchDoes(s, b, ok);
            && (if ok && (b.pc.Dequeue? || b.pc.DropSoldOut?) then e.store.queue == Remove(s.store.queue, b.pc.user)
                else e.store.queue == s.store.queue)
  {}

  lemma BatchWritesEntries(s: State, b: Batch, ok: bool)
    ensures var e, entries := BatchDoes(s, b, ok), s.store.entries;
            e.store.entries == if ok && b.pc.MarkActive? then WithReservation(entries, b.pc.user, b.pc.row)
                               else if ok && b.pc.MarkSoldOut? then WithStatus(entries, b.pc.user, EntryStatus.Expired)
                               else entries
  {}

  lemma BatchDoesEntries(s: State, b: Batch, ok: bool)
    ensures BatchDoes(s, b, ok).store.entries.Keys == s.store.entries.Keys
  {
    BatchWritesEntries(s, b, ok);
  }

  lemma BatchDoesLog(s: State, b: Batch, ok: bool)
    ensures var e := BatchDoes(s, b, ok);
            e.log.broken >= s.log.broken
  {}

  lemma BatchDoesPlaces(s: State, b: Batch, ok: bool, u: UserId)
    requires Working(b)
    ensures var e := BatchDoes(s, b, ok);
            && (Reserving(e.batch, u) ==>
                  Reserving(b, u) || (ok && b.pc.ReadHead? && s.store.queue != [] && u == s.store.queue[0].user))
            && (Finishing(e.batch, u) ==> Finishing(b, u) || (ok && b.pc.SaveRow? && b.pc.user == u))
            && (Finishing(b, u) ==>
                  Finishing(e.batch, u) || (ok && b.pc.Dequeue? && b.pc.user == u) || e.log.broken > s.log.broken)
            && (ok && b.pc.SaveRow? && b.pc.user == u ==> Finishing(e.batch, u))
  {}

  lemma RowsKept(s: State, s': State)
    requires |s'.store.rows| >= |s.store.rows|
    requires forall r :: 0 <= r < |s.store.rows| ==> s'.store.rows[r].user == s.store.rows[r].user
    ensures forall u :: HasRow(s, u) ==> HasRow(s', u)
    ensures |s'.store.rows| == |s.store.rows| ==> forall u :: HasRow(s', u) == HasRow(s, u)
  {
    forall u | HasRow(s, u) ensures HasRow(s', u) {
      var r :| 0 <= r < |s.store.rows| && s.store.rows[r].user == u;
      assert s'.store.rows[r].user == u;
    }
  }

  lemma RowAdded(s: State, s': State, u: UserId)
    requires |s'.store.rows| == |s.store.rows| + 1 && s'.store.rows[..|s.store.rows|] == s.store.rows
    requires s'.store.rows[|s.store.rows|].user == u
    ensures forall v :: HasRow(s', v) <==> HasRow(s, v) || v == u
  {
    forall v ensures HasRow(s', v) <==> HasRow(s, v) || v == u {
      if HasRow(s, v) {
        var r :| 0 <= r < |s.store.rows| && s.store.rows[r].user == v;
        assert s'.store.rows[r] == s.store.rows[r];
      }
    }
  }

  lemma BatchStepQueueSane(c: Config, s: State, i: nat, ok: bool)
    requires WellFormed(s) && Enabled(s, BatchStep(i, ok)) && Sane(s)
    ensures QueueSane(Apply(c, s, BatchStep(i, ok)))
  {
    var b := s.batches[i];
    BatchFrame(s, b, ok);
    BatchDoesQueue(s, b, ok);
    BatchDoesEntries(s, b, ok);
    if ok && (b.pc.Dequeue? || b.pc.DropSoldOut?) { RemoveKeepsOrder(s.store.queue, b.pc.user); }
    if ok && b.pc.SaveRow? { assert Reserving(b, b.pc.user); }
  }

  /** Who has a row after a batch step. */
  lemma BatchStepRows(c: Config, s: State, i: nat, ok: bool)
    requires WellFormed(s) && Enabled(s, BatchStep(i, ok))
    ensures var b, s' := s.batches[i], Apply(c, s, BatchStep(i, ok));
            forall u :: HasRow(s', u) <==> HasRow(s, u) || (ok && b.pc.SaveRow? && u == b.pc.user)
  {
    var b, s' := s.batches[i], Apply(c, s, BatchStep(i, ok));
    BatchFrame(s, b, ok);
    if ok && b.pc.SaveRow? { RowAdded(s, s', b.pc.user); } else { RowsKept(s, s'); }
  }

  lemma BatchStepServedSane(c: Config, s: State, i: nat, ok: bool)
    requires WellFormed(s) && Enabled(s, BatchStep(i, ok)) && Sane(s)
    ensures ServedSane(Apply(c, s, BatchStep(i, ok)))
  {
    var b, s' := s.batches[i], Apply(c, s, BatchStep(i, ok));
    BatchDoesEntries(s, b, ok);
    BatchStepRows(c, s, i, ok);
    forall k, u | 0 <= k < |s'.batches|
      ensures Reserving(s'.batches[k], u) ==> u in s'.store.entries
      ensures Finishing(s'.batches[k], u) ==> HasRow(s', u)
    {
      if k == i {
        BatchDoesPlaces(s, b, ok, u);
        if s.store.queue != [] { assert s.store.queue[0] in s.store.queue; }
      }
    }
  }

  /** A step that is no shared read keeps the batches apart and starts no second service. */
  lemma BatchStepApart(c: Config, s: State, i: nat, ok: bool)
    requires WellFormed(s) && Enabled(s, BatchStep(i, ok)) && ServedApart(s.batches)
    requires !SharedRead(s, BatchStep(i, ok))
    ensures ServedApart(Apply(c, s, BatchStep(i, ok)).batches)
  {
    var b, s' := s.batches[i], Apply(c, s, BatchStep(i, ok));
    forall k, u | 0 <= k < |s'.batches| && k != i && Serving(s'.batches[i], u) ensures !Serving(s'.batches[k], u) {
      BatchDoesPlaces(s, b, ok, u);
    }
  }

  lemma BatchStepReserving(c: Config, s: State, i: nat, ok: bool)
    requires WellFormed(s) && Enabled(s, BatchStep(i, ok)) && ServedOnce(s) && !SharedRead(s, BatchStep(i, ok))
    ensures var s' := Apply(c, s, BatchStep(i, ok));
            forall k, u :: 0 <= k < |s'.batches| && Reserving(s'.batches[k], u) ==> !HasRow(s', u)
  {
    var b, s' := s.batches[i], Apply(c, s, BatchStep(i, ok));
    BatchStepRows(c, s, i, ok);
    if ok && b.pc.SaveRow? { assert Serving(b, b.pc.user); }
    forall k, u | 0 <= k < |s'.batches| && Reserving(s'.batches[k], u) ensures !HasRow(s', u) {
      BatchDoesPlaces(s, b, ok, u);
      if k == i && !Reserving(b, u) { HeadHasNoRow(s, i); }
    }
  }

  lemma HeadHasNoRow(s: State, i: nat)
    requires i < |s.batches| && s.batches[i].pc.ReadHead? && s.store.queue != []
    requires ServedOnce(s) && !SharedRead(s, BatchStep(i, true))
    ensures !HasRow(s, s.store.queue[0].user)
  {
    assert s.store.queue[0] in s.store.queue;
  }

  lemma BatchStepWaiting(c: Config, s: State, i: nat, ok: bool)
    requires WellFormed(s) && Enabled(s, BatchStep(i, ok)) && Sane(s) && ServedOnce(s)
    requires Apply(c, s, BatchStep(i, ok)).log.broken == 0
    ensures var s' := Apply(c, s, BatchStep(i, ok));
            forall x :: x in s'.store.queue && HasRow(s', x.user) ==>
              exists k :: 0 <= k < |s'.batches| && Finishing(s'.batches[k], x.user)
  {
    var b, s' := s.batches[i], Apply(c, s, BatchStep(i, ok));
    BatchStepRows(c, s, i, ok);
    BatchDoesQueue(s, b, ok);
    BatchDoesLog(s, b, ok);
    if ok && (b.pc.Dequeue? || b.pc.DropSoldOut?) { RemoveKeepsOrder(s.store.queue, b.pc.user); }
    forall x | x in s'.store.queue && HasRow(s', x.user)
      ensures exists k :: 0 <= k < |s'.batches| && Finishing(s'.batches[k], x.user)
    {
      BatchDoesPlaces(s, b, ok, x.user);
      if HasRow(s, x.user) {
        var k :| 0 <= k < |s.batches| && Finishing(s.batches[k], x.user);
        assert Finishing(s'.batches[k], x.user);
      } else {
        assert Finishing(s'.batches[i], x.user);
      }
    }
  }

  lemma BatchStepOneRow(c: Config, s: State, i: nat, ok: bool)
    requires WellFormed(s) && Enabled(s, BatchStep(i, ok)) && ServedOnce(s)
    ensures OperationRuns.OneRowPerUser(Apply(c, s, BatchStep(i, ok)).store)
  {
    var b := s.batches[i];
    BatchFrame(s, b, ok);
    if ok && b.pc.SaveRow? { assert Reserving(b, b.pc.user) && !HasRow(s, b.pc.user); }
  }

  lemma BatchStepOnce(c: Config, s: State, i: nat, ok: bool)
    requires WellFormed(s) && Enabled(s, BatchStep(i, ok)) && Sane(s) && ServedOnce(s)
    requires !SharedRead(s, BatchStep(i, ok)) && Apply(c, s, BatchStep(i, ok)).log.broken == 0
    ensures ServedOnce(Apply(c, s, BatchStep(i, ok)))
  {
    BatchStepOneRow(c, s, i, ok);
    BatchStepWaiting(c, s, i, ok);
    BatchStepReserving(c, s, i, ok);
    BatchStepApart(c, s, i, ok);
  }

  /** Steps that keep batches, queue and the users of the rows. */
  lemma QuietStep(s: State, s': State)
    requires s'.batches == s.batches
    requires s'.store.queue == s.store.queue && s'.store.entries.Keys == s.store.entries.Keys
    requires |s'.store.rows| == |s.store.rows|
    requires forall r :: 0 <= r < |s.store.rows| ==> s'.store.rows[r].user == s.store.rows[r].user
    ensures Sane(s) ==> Sane(s')
    ensures ServedOnce(s) ==> ServedOnce(s')
  {
    RowsKept(s, s');
  }

  lemma EnterQueueSane(c: Config, s: State, u: UserId)
    requires WellFormed(s) && QueueSane(s)
    ensures QueueSane(Apply(c, s, Enter(u)))
  {
    AddKeepsOrder(s.store.queue, Member(s.clock, u));
    AddMembers(s.store.queue, Member(s.clock, u));
  }

  lemma EnterServedSane(c: Config, s: State, u: UserId)
    requires WellFormed(s) && ServedSane(s)
    ensures ServedSane(Apply(c, s, Enter(u)))
  {
    RowsKept(s, Apply(c, s, Enter(u)));
  }

  lemma EnterOnce(c: Config, s: State, u: UserId)
    requires WellFormed(s) && Sane(s) && ServedOnce(s)
    ensures ServedOnce(Apply(c, s, Enter(u)))
  {
    var s' := Apply(c, s, Enter(u));
    AddMembers(s.store.queue, Member(s.clock, u));
    RowsKept(s, s');
    if s'.store.queue != s.store.queue { assert !HasRow(s, u); }
  }

  lemma OpenBatchStep(c: Config, s: State)
    requires Sane(s)
    ensures Sane(StartBatch(c, s))
    ensures ServedOnce(s) ==> ServedOnce(StartBatch(c, s))
  {
    var s' := StartBatch(c, s);
    RowsKept(s, s');
    forall u ensures !Serving(s'.batches[|s.batches|], u) {}
    forall i, u | 0 <= i < |s.batches| && Finishing(s.batches[i], u) ensures Finishing(s'.batches[i], u) {}
  }

  lemma RunDoesEntries(s: State, x: ExpiryRun, ok: bool)
    requires x.row < |s.store.rows| && x.row < |s.notes|
    ensures RunDoes(s, x, ok).store.entries.Keys == s.store.entries.Keys
  {}

  lemma StepKeepsSane(c: Config, s: State, a: Action)
    requires WellFormed(s) && Enabled(s, a) && Sane(s)
    ensures Sane(Apply(c, s, a))
    ensures ServedOnce(s) && !SharedRead(s, a) && Apply(c, s, a).log.broken == 0 ==> ServedOnce(Apply(c, s, a))
  {
    match a
    case BatchStep(i, ok) =>
      BatchStepQueueSane(c, s, i, ok);
      BatchStepServedSane(c, s, i, ok);
      if ServedOnce(s) && !SharedRead(s, a) && Apply(c, s, a).log.broken == 0 { BatchStepOnce(c, s, i, ok); }
    case OpenBatch => OpenBatchStep(c, s);
    case Enter(u) =>
      EnterQueueSane(c, s, u);
      EnterServedSane(c, s, u);
      if ServedOnce(s) { EnterOnce(c, s, u); }
    case RunStep(j, ok) =>
      RunFrame(s, s.runs[j], ok);
      RunDoesEntries(s, s.runs[j], ok);
      QuietStep(s, Apply(c, s, a));
    case _ => QuietStep(s, Apply(c, s, a));
  }

  lemma BrokenGrows(c: Config, s: State, a: Action)
    requires WellFormed(s) && Enabled(s, a)
    ensures Apply(c, s, a).log.broken >= s.log.broken
  {
    match a
    case BatchStep(i, ok) => BatchDoesLog(s, s.batches[i], ok);
    case _ =>
  }

  lemma {:induction false} SaneAlways(c: Config, acts: seq<Action>)
    requires Schedule(c, Initial(c), acts)
    ensures Sane(After(c, Initial(c), acts))
    ensures Exclusive(c, acts) && After(c, Initial(c), acts).log.broken == 0 ==> ServedOnce(After(c, Initial(c), acts))
    decreases |acts|
  {
    if acts == [] {
    } else {
      var before, a := After(c, Initial(c), acts[..|acts| - 1]), acts[|acts| - 1];
      SaneAlways(c, acts[..|acts| - 1]);
      StepKeepsSane(c, before, a);
      BrokenGrows(c, before, a);
    }
  }

  lemma SaneReachable(c: Config, s: State)
    requires Reachable(c, s)
    ensures Sane(s)
  {
    var acts :| LeadsTo(c, Initial(c), acts, s);
    SaneAlways(c, acts);
  }

  /** Some schedule without a shared read reaches `s`. */
  ghost predicate ReachedExclusively(c: Config, s: State) {
    exists acts :: LeadsTo(c, Initial(c), acts, s) && Exclusive(c, acts)
  }

  /** Nobody is promoted twice, however many batches overlap, as long as none of them reads a head that another
      one is serving and no promotion breaks off after its save. */
  lemma OneReservationPerUser(c: Config, s: State)
    requires ReachedExclusively(c, s) && s.log.broken == 0
    ensures OperationRuns.OneRowPerUser(s.store)
  {
    var acts :| LeadsTo(c, Initial(c), acts, s) && Exclusive(c, acts);
    SaneAlways(c, acts);
  }
}
