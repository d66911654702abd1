/** What the entry of each user says while batches, expiry runs, joins and payments interleave, as long as no step
    reads a shared head or activates an entry too late. */
module TidyEntries {
  import opened Domain
  import opened WaitingQueue
  import opened Operations
  import opened Protocol
  import opened ReleaseOnce
  import opened PaidOrReleased
  import opened TimelyRelease
  import opened SinglePromotion

  /** Lost the DECR for `u`, who is still in the queue. */
  predicate Dropping(b: Batch, u: UserId) {
    Working(b) && (b.pc == Undo(u) || b.pc == MarkSoldOut(u) || b.pc == DropSoldOut(u))
  }

  predicate Attending(b: Batch, u: UserId) { Serving(b, u) || Dropping(b, u) }

  /** The step reads a head that another batch is serving or dropping. */
  predicate SharedHead(s: State, a: Action) {
    && a.BatchStep? && a.ok && a.batch < |s.batches| && s.batches[a.batch].pc.ReadHead? && s.store.queue != []
    && exists k :: 0 <= k < |s.batches| && k != a.batch && Attending(s.batches[k], s.store.queue[0].user)
  }

  /** The step marks an entry ACTIVE whose reservation has been paid or expired meanwhile. */
  predicate LateActivation(s: State, a: Action) {
    && a.BatchStep? && a.ok && a.batch < |s.batches| && s.batches[a.batch].pc.MarkActive?
    && s.batches[a.batch].pc.row < |s.store.rows|
    && !s.store.rows[s.batches[a.batch].pc.row].status.PendingPayment?
  }

  /** No step of the schedule read a shared head or activated an entry too late. */
  ghost predicate Tidy(c: Config, acts: seq<Action>)
    requires Schedule(c, Initial(c), acts)
    decreases |acts|
  {
    || acts == []
    || (var init, a := acts[..|acts| - 1], acts[|acts| - 1];
        && Tidy(c, init)
        && !SharedHead(After(c, Initial(c), init), a) && !LateActivation(After(c, Initial(c), init), a))
  }

  // ---------- Who attends to whom ----------

  ghost predicate AttendedApart(s: State) {
    forall i, k, u :: 0 <= i < |s.batches| && 0 <= k < |s.batches| ==>
      Attending(s.batches[i], u) && Attending(s.batches[k], u) ==> i == k
  }

  /** A loser's user has an entry and no row. */
  ghost predicate DropsSane(s: State) {
    forall i, u :: 0 <= i < |s.batches| && Dropping(s.batches[i], u) ==> u in s.store.entries && !HasRow(s, u)
  }

  /** Row saved, entry not yet ACTIVE. */
  predicate Entering(b: Batch, u: UserId) { Working(b) && (b.pc.AddJob? || b.pc.MarkActive?) && b.pc.user == u }

  ghost predicate OwnRow(s: State, b: Batch) {
    Working(b) && (b.pc.AddJob? || b.pc.MarkActive?) ==>
      b.pc.row < |s.store.rows| && s.store.rows[b.pc.row].user == b.pc.user
  }

  ghost predicate OwnRows(s: State) { forall i :: 0 <= i < |s.batches| ==> OwnRow(s, s.batches[i]) }

  ghost predicate Attended(s: State) { AttendedApart(s) && DropsSane(s) && OwnRows(s) }

  lemma BatchDoesAttend(s: State, b: Batch, ok: bool, u: UserId)
    requires Working(b)
    ensures var b' := BatchDoes(s, b, ok).batch;
            && (Dropping(b', u) ==> Dropping(b, u) || (ok && b.pc == Decrement(u)))
            && (Attending(b', u) ==>
                  Attending(b, u) || (ok && b.pc.ReadHead? && s.store.queue != [] && u == s.store.queue[0].user))
  {}

  lemma BatchStepApart(c: Config, s: State, i: nat, ok: bool)
    requires WellFormed(s) && Enabled(s, BatchStep(i, ok)) && AttendedApart(s) && !SharedHead(s, BatchStep(i, ok))
    ensures AttendedApart(Apply(c, s, BatchStep(i, ok)))
  {
    var s' := Apply(c, s, BatchStep(i, ok));
    forall k, u | 0 <= k < |s'.batches| && k != i && Attending(s'.batches[i], u)
      ensures !Attending(s'.batches[k], u)
    {
      BatchDoesAttend(s, s.batches[i], ok, u);
    }
  }

  lemma BatchStepDrops(c: Config, s: State, i: nat, ok: bool)
    requires WellFormed(s) && Enabled(s, BatchStep(i, ok)) && Sane(s) && ServedOnce(s) && Attended(s)
    ensures DropsSane(Apply(c, s, BatchStep(i, ok)))
  {
    var b, s' := s.batches[i], Apply(c, s, BatchStep(i, ok));
    BatchDoesEntries(s, b, ok);
    BatchStepRows(c, s, i, ok);
    if ok && b.pc.SaveRow? { assert Attending(b, b.pc.user); }
    forall k, u | 0 <= k < |s'.batches| && Dropping(s'.batches[k], u)
      ensures u in s'.store.entries && !HasRow(s', u)
    {
      BatchDoesAttend(s, b, ok, u);
      assert k != i ==> Attending(s.batches[k], u);
      if k == i { assert !b.pc.SaveRow?; }
    }
  }

  lemma BatchStepOwnRows(c: Config, s: State, i: nat, ok: bool)
    requires WellFormed(s) && Enabled(s, BatchStep(i, ok)) && OwnRows(s)
    ensures OwnRows(Apply(c, s, BatchStep(i, ok)))
  {
    BatchFrameRows(s, s.batches[i], ok);
    BatchMoves(s, s.batches[i], ok);
    EnteringMoves(s, s.batches[i], ok);
  }

  lemma EnteringMoves(s: State, b: Batch, ok: bool)
    ensures var pc := BatchDoes(s, b, ok).batch.pc;
            && (pc.AddJob? && pc != b.pc ==> b.pc.SaveRow? && pc.user == b.pc.user)
            && (pc.MarkActive? && pc != b.pc ==> b.pc.AddJob? && pc.user == b.pc.user)
  {}

  lemma StepKeepsOwnRows(c: Config, s: State, a: Action)
    requires WellFormed(s) && Enabled(s, a) && OwnRows(s)
    ensures OwnRows(Apply(c, s, a))
  {
    match a
    case BatchStep(i, ok) => BatchStepOwnRows(c, s, i, ok);
    case RunStep(j, ok) => RunFrameRows(s, s.runs[j], ok);
    case _ =>
  }

  lemma {:induction false} OwnRowsAlways(c: Config, s: State, acts: seq<Action>)
    requires WellFormed(s) && OwnRows(s) && Schedule(c, s, acts)
    ensures OwnRows(After(c, s, acts))
    decreases |acts|
  {
    if acts == [] {
    } else {
      OwnRowsAlways(c, s, acts[..|acts| - 1]);
      StepKeepsOwnRows(c, After(c, s, acts[..|acts| - 1]), acts[|acts| - 1]);
    }
  }

  /** In every reachable state, the row that a batch is about to enter belongs to the user it serves. */
  lemma OwnRowsReachable(c: Config, s: State)
    requires Reachable(c, s)
    ensures OwnRows(s)
  {
    var acts :| LeadsTo(c, Initial(c), acts, s);
    OwnRowsAlways(c, Initial(c), acts);
  }

  lemma StepKeepsAttended(c: Config, s: State, a: Action)
    requires WellFormed(s) && Enabled(s, a) && Sane(s) && ServedOnce(s) && Attended(s) && !SharedHead(s, a)
    ensures Attended(Apply(c, s, a))
  {
    var s' := Apply(c, s, a);
    match a
    case BatchStep(i, ok) =>
      BatchStepApart(c, s, i, ok);
      BatchStepDrops(c, s, i, ok);
      BatchStepOwnRows(c, s, i, ok);
    case OpenBatch => OpenBatchAttended(c, s);
    case RunStep(j, ok) =>
      RunFrameRows(s, s.runs[j], ok);
      RunDoesEntries(s, s.runs[j], ok);
      SameBatchesAttended(s, s');
    case _ => SameBatchesAttended(s, s');
  }

  /** Steps that keep batches and the users of rows. */
  lemma SameBatchesAttended(s: State, s': State)
    requires Attended(s) && s'.batches == s.batches && s'.store.entries.Keys >= s.store.entries.Keys
    requires |s'.store.rows| == |s.store.rows|
    requires forall r :: 0 <= r < |s.store.rows| ==> s'.store.rows[r].user == s.store.rows[r].user
    ensures Attended(s')
  {
    RowsKept(s, s');
  }

  lemma OpenBatchAttended(c: Config, s: State)
    requires Attended(s)
    ensures Attended(StartBatch(c, s))
  {
    var s' := StartBatch(c, s);
    RowsKept(s, s');
    forall u ensures !Attending(s'.batches[|s.batches|], u) {}
  }

  // ---------- What each user's entry says meanwhile ----------

  /** Some batch is about to take `u` off the queue, or stopped right before it did. */
  ghost predicate Leaving(s: State, u: UserId) {
    exists i :: 0 <= i < |s.batches| && (Finishing(s.batches[i], u) || s.batches[i].pc == DropSoldOut(u))
  }

  /** No reservation of `u` waits to be entered. */
  ghost predicate Entered(s: State, u: UserId) {
    forall i :: 0 <= i < |s.batches| ==> !Entering(s.batches[i], u)
  }

  /** A run wrote row `r` and has not yet marked the entry, or stopped right before it did. */
  ghost predicate Unmarked(s: State, r: nat) {
    exists j :: 0 <= j < |s.runs| && s.runs[j].row == r && s.runs[j].pc.MarkEntry?
  }

  ghost predicate StatusTidy(s: State, e: Entry)
    requires e.reservation.Some? ==> e.reservation.value < |s.store.rows|
  {
    match e.status
    case Waiting => true
    case Active =>
      && e.reservation.Some?
      && (|| s.store.rows[e.reservation.value].status.PendingPayment?
          || (s.store.rows[e.reservation.value].status.Expired? && Unmarked(s, e.reservation.value)))
    case Done => e.reservation.Some? && s.store.rows[e.reservation.value].status.Paid?
    case Expired => e.reservation.Some? ==> s.store.rows[e.reservation.value].status.Expired?
  }

  ghost predicate NamesOwn(s: State, u: UserId)
    requires u in s.store.entries
  {
    var e := s.store.entries[u];
    e.reservation.Some? ==> e.reservation.value < |s.store.rows| && s.store.rows[e.reservation.value].user == u
  }

  ghost predicate EntryTidy(s: State, u: UserId)
    requires u in s.store.entries
  {
    var e := s.store.entries[u];
    && NamesOwn(s, u)
    && (e.status.Waiting? ==> e.reservation.None? && InQueue(s.store.queue, u))
    && (InQueue(s.store.queue, u) && !e.status.Waiting? ==> Leaving(s, u))
    && (Entered(s, u) ==>
          && StatusTidy(s, e)
          && forall r :: 0 <= r < |s.store.rows| && s.store.rows[r].user == u ==> e.reservation == Some(r))
  }

  /** Whoever is being taken off the queue waits no more. */
  ghost predicate LeaversMarked(s: State) {
    forall i :: 0 <= i < |s.batches| && (s.batches[i].pc.Dequeue? || s.batches[i].pc.DropSoldOut?) ==>
      var u := s.batches[i].pc.user;
      u in s.store.entries && !s.store.entries[u].status.Waiting?
  }

  ghost predicate EntriesTidy(s: State) {
    LeaversMarked(s) && forall u :: u in s.store.entries ==> EntryTidy(s, u)
  }

  // ---------- Users a step does not concern ----------

  /** From `s` to `t` nothing changed that the entry of `u` depends on. */
  ghost predicate SameFor(s: State, t: State, u: UserId) {
    && u in s.store.entries && u in t.store.entries && t.store.entries[u] == s.store.entries[u]
    && InQueue(t.store.queue, u) == InQueue(s.store.queue, u)
    && |t.store.rows| >= |s.store.rows|
    && (forall r :: 0 <= r < |s.store.rows| && s.store.rows[r].user == u ==> t.store.rows[r] == s.store.rows[r])
    && (forall r :: 0 <= r < |t.store.rows| && t.store.rows[r].user == u ==>
          r < |s.store.rows| && s.store.rows[r].user == u)
    && (Leaving(s, u) ==> Leaving(t, u))
    && (Entered(t, u) ==> Entered(s, u))
    && (forall r :: 0 <= r < |s.store.rows| && s.store.rows[r].user == u && Unmarked(s, r) ==> Unmarked(t, r))
  }

  lemma SameTidy(s: State, t: State, u: UserId)
    requires SameFor(s, t, u) && EntryTidy(s, u)
    ensures EntryTidy(t, u)
  {
    var e := s.store.entries[u];
    if Entered(t, u) && e.reservation.Some? {
      assert s.store.rows[e.reservation.value].user == u;
    }
  }

  // ---------- Batch steps ----------

  /** The user that a batch has read from the queue. */
  predicate About(b: Batch, u: UserId) { !b.pc.ReadHead? && !b.pc.BatchOver? && b.pc.user == u }

  /** A batch step that writes nothing the entry of `u` depends on. */
  predicate Passive(b: Batch, ok: bool, u: UserId) {
    || !About(b, u)
    || (ok && !(b.pc.SaveRow? || b.pc.MarkActive? || b.pc.Dequeue? || b.pc.MarkSoldOut? || b.pc.DropSoldOut?))
    || (!ok && !(b.pc.AddJob? || b.pc.MarkActive? || b.pc.Dequeue?))
  }

  lemma PassivePlaces(s: State, b: Batch, ok: bool, u: UserId)
    requires Working(b) && Passive(b, ok, u)
    ensures var b' := BatchDoes(s, b, ok).batch;
            && (Entering(b, u) ==> Entering(b', u))
            && (Finishing(b, u) || b.pc == DropSoldOut(u) ==> Finishing(b', u) || b'.pc == DropSoldOut(u))
  {}

  lemma PassiveStores(s: State, b: Batch, ok: bool, u: UserId)
    requires Working(b) && Passive(b, ok, u) && Ordered(s.store.queue)
    ensures var st := BatchDoes(s, b, ok).store;
            && InQueue(st.queue, u) == InQueue(s.store.queue, u)
            && (u in s.store.entries ==> u in st.entries && st.entries[u] == s.store.entries[u])
  {
    BatchDoesQueue(s, b, ok);
    BatchWritesEntries(s, b, ok);
    if b.pc.Dequeue? || b.pc.DropSoldOut? { RemoveKeepsOrder(s.store.queue, b.pc.user); }
  }

  lemma PassiveSame(c: Config, s: State, i: nat, ok: bool, u: UserId)
    requires WellFormed(s) && Enabled(s, BatchStep(i, ok)) && Ordered(s.store.queue)
    requires Passive(s.batches[i], ok, u) && u in s.store.entries
    ensures SameFor(s, Apply(c, s, BatchStep(i, ok)), u)
  {
    var b, t := s.batches[i], Apply(c, s, BatchStep(i, ok));
    BatchFrameRows(s, b, ok);
    PassivePlaces(s, b, ok, u);
    PassiveStores(s, b, ok, u);
    if Leaving(s, u) {
      var k :| 0 <= k < |s.batches| && (Finishing(s.batches[k], u) || s.batches[k].pc == DropSoldOut(u));
      assert Finishing(t.batches[k], u) || t.batches[k].pc == DropSoldOut(u);
    }
    if Entered(t, u) {
      forall k | 0 <= k < |s.batches| ensures !Entering(s.batches[k], u) { assert !Entering(t.batches[k], u); }
    }
    forall r | 0 <= r < |s.store.rows| && Unmarked(s, r) ensures Unmarked(t, r) {
      var j :| 0 <= j < |s.runs| && s.runs[j].row == r && s.runs[j].pc.MarkEntry?;
      assert t.runs[j] == s.runs[j];
    }
  }

  lemma RowSavedTidy(c: Config, s: State, i: nat)
    requires WellFormed(s) && Enabled(s, BatchStep(i, true)) && s.batches[i].pc.SaveRow?
    requires s.batches[i].pc.user in s.store.entries && EntryTidy(s, s.batches[i].pc.user)
    ensures EntryTidy(Apply(c, s, BatchStep(i, true)), s.batches[i].pc.user)
  {
    var u, t := s.batches[i].pc.user, Apply(c, s, BatchStep(i, true));
    assert Entering(t.batches[i], u) && Finishing(t.batches[i], u);
  }

  lemma ActivatedTidy(c: Config, s: State, i: nat)
    requires WellFormed(s) && Enabled(s, BatchStep(i, true)) && s.batches[i].pc.MarkActive?
    requires OwnRows(s) && OperationRuns.OneRowPerUser(s.store) && !LateActivation(s, BatchStep(i, true))
    requires s.batches[i].pc.user in s.store.entries
    ensures EntryTidy(Apply(c, s, BatchStep(i, true)), s.batches[i].pc.user)
  {
    var u, t := s.batches[i].pc.user, Apply(c, s, BatchStep(i, true));
    assert Finishing(t.batches[i], u);
  }

  lemma DequeuedTidy(c: Config, s: State, i: nat)
    requires WellFormed(s) && Enabled(s, BatchStep(i, true))
    requires s.batches[i].pc.Dequeue? || s.batches[i].pc.DropSoldOut?
    requires Ordered(s.store.queue) && LeaversMarked(s)
    requires s.batches[i].pc.user in s.store.entries && EntryTidy(s, s.batches[i].pc.user)
    ensures EntryTidy(Apply(c, s, BatchStep(i, true)), s.batches[i].pc.user)
  {
    var u, t := s.batches[i].pc.user, Apply(c, s, BatchStep(i, true));
    RemoveKeepsOrder(s.store.queue, u);
    if Entered(t, u) {
      forall k | 0 <= k < |s.batches| ensures !Entering(s.batches[k], u) { assert !Entering(t.batches[k], u); }
    }
  }

  lemma SoldOutTidy(c: Config, s: State, i: nat)
    requires WellFormed(s) && Enabled(s, BatchStep(i, true)) && s.batches[i].pc.MarkSoldOut?
    requires !HasRow(s, s.batches[i].pc.user)
    requires s.batches[i].pc.user in s.store.entries && EntryTidy(s, s.batches[i].pc.user)
    ensures EntryTidy(Apply(c, s, BatchStep(i, true)), s.batches[i].pc.user)
  {
    var u, t := s.batches[i].pc.user, Apply(c, s, BatchStep(i, true));
    assert t.batches[i].pc == DropSoldOut(u);
  }

  lemma BatchStepOwnEntry(c: Config, s: State, i: nat, ok: bool)
    requires WellFormed(s) && Enabled(s, BatchStep(i, ok)) && Sane(s) && ServedOnce(s) && Attended(s) && EntriesTidy(s)
    requires !LateActivation(s, BatchStep(i, ok)) && Apply(c, s, BatchStep(i, ok)).log.broken == 0
    requires !s.batches[i].pc.ReadHead? && !Passive(s.batches[i], ok, s.batches[i].pc.user)
    ensures s.batches[i].pc.user in s.store.entries
    ensures s.batches[i].pc.user in Apply(c, s, BatchStep(i, ok)).store.entries
    ensures EntryTidy(Apply(c, s, BatchStep(i, ok)), s.batches[i].pc.user)
  {
    var b, u := s.batches[i], s.batches[i].pc.user;
    BatchDoesPlaces(s, b, ok, u);
    BatchDoesEntries(s, b, ok);
    assert ok;
    assert Reserving(b, u) || Finishing(b, u) || Dropping(b, u);
    match b.pc
    case SaveRow(_, _) => RowSavedTidy(c, s, i);
    case MarkActive(_, _) => ActivatedTidy(c, s, i);
    case MarkSoldOut(_) => SoldOutTidy(c, s, i);
    case _ => DequeuedTidy(c, s, i);
  }

  lemma BatchStepLeavers(c: Config, s: State, i: nat, ok: bool)
    requires WellFormed(s) && Enabled(s, BatchStep(i, ok)) && Sane(s) && Attended(s) && LeaversMarked(s)
    ensures LeaversMarked(Apply(c, s, BatchStep(i, ok)))
  {
    var b, t := s.batches[i], Apply(c, s, BatchStep(i, ok));
    BatchWritesEntries(s, b, ok);
    LeavingMoves(s, b, ok);
    forall k | 0 <= k < |t.batches| && (t.batches[k].pc.Dequeue? || t.batches[k].pc.DropSoldOut?)
      ensures var u := t.batches[k].pc.user; u in t.store.entries && !t.store.entries[u].status.Waiting?
    {
      if k == i && b.pc.MarkActive? { assert Finishing(b, b.pc.user); }
      if k == i && b.pc.MarkSoldOut? { assert Dropping(b, b.pc.user); }
    }
  }

  lemma LeavingMoves(s: State, b: Batch, ok: bool)
    ensures var pc := BatchDoes(s, b, ok).batch.pc;
            && (pc.Dequeue? && pc != b.pc ==> ok && b.pc.MarkActive? && pc.user == b.pc.user)
            && (pc.DropSoldOut? && pc != b.pc ==> ok && b.pc.MarkSoldOut? && pc.user == b.pc.user)
  {}

  lemma BatchStepEntries(c: Config, s: State, i: nat, ok: bool)
    requires WellFormed(s) && Enabled(s, BatchStep(i, ok)) && Sane(s) && ServedOnce(s) && Attended(s) && EntriesTidy(s)
    requires !LateActivation(s, BatchStep(i, ok)) && Apply(c, s, BatchStep(i, ok)).log.broken == 0
    ensures EntriesTidy(Apply(c, s, BatchStep(i, ok)))
  {
    var b, t := s.batches[i], Apply(c, s, BatchStep(i, ok));
    BatchStepLeavers(c, s, i, ok);
    BatchDoesEntries(s, b, ok);
    forall u | u in t.store.entries ensures EntryTidy(t, u) {
      if Passive(b, ok, u) {
        PassiveSame(c, s, i, ok, u);
        SameTidy(s, t, u);
      } else {
        BatchStepOwnEntry(c, s, i, ok);
      }
    }
  }

  // ---------- Expiry runs, payments, joins ----------

  lemma RunWritesEntries(s: State, x: ExpiryRun, ok: bool)
    requires x.row < |s.store.rows| && x.row < |s.notes|
    ensures RunDoes(s, x, ok).store.entries
            == if ok && x.pc.MarkEntry?
               then WithStatus(s.store.entries, s.store.rows[x.row].user, EntryStatus.Expired) else s.store.entries
    ensures RunDoes(s, x, ok).run.pc.MarkEntry? <==> (ok && x.pc.MarkRow?) || (!ok && x.pc.MarkEntry?)
  {}

  lemma RunSame(c: Config, s: State, j: nat, ok: bool, u: UserId)
    requires WellFormed(s) && Enabled(s, RunStep(j, ok)) && u in s.store.entries
    requires s.store.rows[s.runs[j].row].user == u ==> !ok || !(s.runs[j].pc.MarkRow? || s.runs[j].pc.MarkEntry?)
    ensures SameFor(s, Apply(c, s, RunStep(j, ok)), u)
  {
    var t := Apply(c, s, RunStep(j, ok));
    RunFrameRows(s, s.runs[j], ok);
    RunWritesEntries(s, s.runs[j], ok);
    forall r | 0 <= r < |s.store.rows| && s.store.rows[r].user == u && Unmarked(s, r) ensures Unmarked(t, r) {
      var k :| 0 <= k < |s.runs| && s.runs[k].row == r && s.runs[k].pc.MarkEntry?;
      assert t.runs[k].row == r && t.runs[k].pc.MarkEntry?;
    }
  }

  lemma RowMarkedTidy(c: Config, s: State, j: nat)
    requires WellFormed(s) && Enabled(s, RunStep(j, true)) && s.runs[j].pc.MarkRow?
    requires !s.store.rows[s.runs[j].row].status.Paid? && OperationRuns.OneRowPerUser(s.store)
    requires s.store.rows[s.runs[j].row].user in s.store.entries && EntryTidy(s, s.store.rows[s.runs[j].row].user)
    ensures EntryTidy(Apply(c, s, RunStep(j, true)), s.store.rows[s.runs[j].row].user)
  {
    var r, t := s.runs[j].row, Apply(c, s, RunStep(j, true));
    RunFrameRows(s, s.runs[j], true);
    assert t.runs[j].row == r && t.runs[j].pc.MarkEntry?;
  }

  lemma EntryMarkedTidy(c: Config, s: State, j: nat)
    requires WellFormed(s) && Enabled(s, RunStep(j, true)) && s.runs[j].pc.MarkEntry?
    requires s.store.rows[s.runs[j].row].status.Expired? && ServedOnce(s)
    requires s.store.rows[s.runs[j].row].user in s.store.entries && EntryTidy(s, s.store.rows[s.runs[j].row].user)
    ensures EntryTidy(Apply(c, s, RunStep(j, true)), s.store.rows[s.runs[j].row].user)
  {}

  lemma RunStepEntries(c: Config, s: State, j: nat, ok: bool)
    requires WellFormed(s) && Enabled(s, RunStep(j, ok)) && Sane(s) && ServedOnce(s) && EntriesTidy(s)
    requires RunDelivered(s, s.runs[j])
    requires PaidApart(s, s.runs[j].row) && Punctual(s, s.runs[j].row)
    ensures EntriesTidy(Apply(c, s, RunStep(j, ok)))
  {
    var x, t := s.runs[j], Apply(c, s, RunStep(j, ok));
    RunWritesEntries(s, x, ok);
    assert x.pc.MarkRow? ==> Touching(x, x.row);
    forall u | u in t.store.entries ensures EntryTidy(t, u) {
      if ok && x.pc.MarkRow? && s.store.rows[x.row].user == u {
        RowMarkedTidy(c, s, j);
      } else if ok && x.pc.MarkEntry? && s.store.rows[x.row].user == u {
        EntryMarkedTidy(c, s, j);
      } else {
        RunSame(c, s, j, ok, u);
        SameTidy(s, t, u);
      }
    }
  }

  lemma PaidTidy(c: Config, s: State, p: nat, payer: UserId)
    requires WellFormed(s) && Sane(s) && ServedOnce(s) && EntriesTidy(s)
    requires Pay(s.store, p, payer, s.clock).1.PaymentDone?
    ensures payer in s.store.entries && EntryTidy(Apply(c, s, Settle(p, payer)), payer)
  {}

  lemma PaymentEntries(c: Config, s: State, p: nat, payer: UserId)
    requires WellFormed(s) && Sane(s) && ServedOnce(s) && EntriesTidy(s)
    ensures EntriesTidy(Apply(c, s, Settle(p, payer)))
  {
    var t := Apply(c, s, Settle(p, payer));
    if t.store != s.store {
      PaidTidy(c, s, p, payer);
      forall u | u in t.store.entries && u != payer ensures EntryTidy(t, u) {
        SameTidy(s, t, u);
      }
    }
  }

  lemma JoinEntries(c: Config, s: State, v: UserId)
    requires WellFormed(s) && Sane(s) && EntriesTidy(s)
    ensures EntriesTidy(Apply(c, s, Enter(v)))
  {
    var t := Apply(c, s, Enter(v));
    AddMembers(s.store.queue, Member(s.clock, v));
    forall u | u in s.store.entries ensures EntryTidy(t, u) {
      JoinSame(c, s, v, u);
      SameTidy(s, t, u);
    }
  }

  lemma JoinSame(c: Config, s: State, v: UserId, u: UserId)
    requires WellFormed(s) && u in s.store.entries
    ensures SameFor(s, Apply(c, s, Enter(v)), u)
  {
    AddMembers(s.store.queue, Member(s.clock, v));
  }

  lemma QuietEntries(c: Config, s: State, a: Action)
    requires WellFormed(s) && Enabled(s, a) && (a.Tick? || a.OpenBatch? || a.Deliver?) && EntriesTidy(s)
    ensures EntriesTidy(Apply(c, s, a))
  {
    var t := Apply(c, s, a);
    assert |t.batches| >= |s.batches| && t.batches[..|s.batches|] == s.batches;
    assert |t.runs| >= |s.runs| && t.runs[..|s.runs|] == s.runs;
    forall u | u in t.store.entries ensures EntryTidy(t, u) {
      if Leaving(s, u) {
        var k :| 0 <= k < |s.batches| && (Finishing(s.batches[k], u) || s.batches[k].pc == DropSoldOut(u));
        assert t.batches[k] == s.batches[k];
      }
      if Entered(t, u) {
        forall k | 0 <= k < |s.batches| ensures !Entering(s.batches[k], u) { assert !Entering(t.batches[k], u); }
      }
      forall r | Unmarked(s, r) ensures Unmarked(t, r) {
        var k :| 0 <= k < |s.runs| && s.runs[k].row == r && s.runs[k].pc.MarkEntry?;
        assert t.runs[k] == s.runs[k];
      }
      SameTidy(s, t, u);
    }
  }

  lemma StepKeepsEntries(c: Config, s: State, a: Action)
    requires WellFormed(s) && Enabled(s, a) && Sane(s) && ServedOnce(s) && Attended(s) && EntriesTidy(s)
    requires Delivered(s) && AllPaidApart(s) && (forall r :: 0 <= r < |s.store.rows| ==> Punctual(s, r))
    requires !LateActivation(s, a) && Apply(c, s, a).log.broken == 0
    ensures EntriesTidy(Apply(c, s, a))
  {
    match a
    case BatchStep(i, ok) => BatchStepEntries(c, s, i, ok);
    case RunStep(j, ok) => RunStepEntries(c, s, j, ok);
    case Settle(p, payer) => PaymentEntries(c, s, p, payer);
    case Enter(v) => JoinEntries(c, s, v);
    case _ => QuietEntries(c, s, a);
  }
}
