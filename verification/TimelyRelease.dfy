/** One release per reservation for good: the lock disappears after 3600 s, yet nobody can take it twice
    when every expiry run gets from its read to its status write in less than half that time. */
module TimelyRelease {
  import opened Domain
  import opened Counting
  import opened Operations
  import opened Protocol
  import opened SeatLedger
  import opened ReleaseOnce
  import opened PaidOrReleased

  /** Half the life of a lock. */
  const HALF_LOCK: Time := 1_800_000

  /** No expiry run has spent half the life of a lock between its read and its status write. */
  predicate Brisk(s: State) { s.log.window < HALF_LOCK }

  /** Holds the lock of its row, status not yet written; a run that stopped here counts too. */
  predicate Committed(x: ExpiryRun, r: nat) {
    x.row == r && (x.pc.SetLockTtl? || x.pc.ReturnSeat? || x.pc.MarkRow?)
  }

  predicate Contending(x: ExpiryRun, r: nat) { x.row == r && x.pc.TakeLock? && x.alive }

  /** The lock of row `r` outlives `t`. */
  predicate Guarded(s: State, r: nat, t: Time) {
    r in s.store.locks && (s.store.locks[r].NoTtl? || s.store.locks[r].t >= t)
  }

  ghost predicate Unclaimed(s: State, r: nat) {
    forall j :: 0 <= j < |s.runs| ==> !Committed(s.runs[j], r)
  }

  /** Once the lock was taken, no new run can read the row as pending unless the holder is still on time,
      and every run that did read it as pending is kept out by the lock for its whole window. */
  ghost predicate ClaimedOnce(s: State, r: nat)
    requires r < |s.notes| && r < |s.store.rows|
  {
    && s.notes[r].acquires <= 1
    && (forall j :: 0 <= j < |s.runs| && Committed(s.runs[j], r) ==>
          s.notes[r].acquires == 1 && Guarded(s, r, s.runs[j].readAt + LOCK_TTL))
    && (s.notes[r].acquires == 1 ==>
          && (s.store.rows[r].status.PendingPayment? ==> !Unclaimed(s, r))
          && (forall j :: 0 <= j < |s.runs| && Contending(s.runs[j], r) ==>
                Guarded(s, r, s.runs[j].readAt + HALF_LOCK)))
  }

  ghost predicate OnTime(s: State) {
    forall j :: 0 <= j < |s.runs| && InWindow(s.runs[j]) ==> s.runs[j].readAt <= s.clock < s.runs[j].readAt + HALF_LOCK
  }

  ghost predicate Timely(s: State) {
    && |s.notes| == |s.store.rows|
    && (Brisk(s) ==> OnTime(s) && forall r :: 0 <= r < |s.notes| ==> ClaimedOnce(s, r))
  }

  lemma BatchStepTimely(c: Config, s: State, i: nat, ok: bool)
    requires WellFormed(s) && Enabled(s, BatchStep(i, ok)) && Timely(s) && LocksKept(s)
    ensures Timely(Apply(c, s, BatchStep(i, ok)))
  {
    var s' := Apply(c, s, BatchStep(i, ok));
    BatchFrame(s, s.batches[i], ok);
    NotesKept(s, s.batches[i], ok);
    if Brisk(s') {
      forall r | 0 <= r < |s'.notes| ensures ClaimedOnce(s', r) {
        if r < |s.notes| {
          assert ClaimedOnce(s, r);
          assert Unclaimed(s, r) == Unclaimed(s', r);
        }
      }
    }
  }

  /** Rows other than the one the run works on. */
  lemma RunStepOtherRow(c: Config, s: State, j: nat, ok: bool, r: nat)
    requires WellFormed(s) && Enabled(s, RunStep(j, ok)) && r < |s.notes| && r != s.runs[j].row
    requires ClaimedOnce(s, r)
    ensures ClaimedOnce(Apply(c, s, RunStep(j, ok)), r)
  {
    var s' := Apply(c, s, RunStep(j, ok));
    RunFrame(s, s.runs[j], ok);
    if !Unclaimed(s, r) {
      var k :| 0 <= k < |s.runs| && Committed(s.runs[k], r);
      assert Committed(s'.runs[k], r);
    }
  }

  lemma RunStepOwnRow(c: Config, s: State, j: nat, ok: bool, r: nat)
    requires WellFormed(s) && Enabled(s, RunStep(j, ok)) && r == s.runs[j].row
    requires OnTime(s) && ClaimedOnce(s, r)
    ensures ClaimedOnce(Apply(c, s, RunStep(j, ok)), r)
  {
    var s' := Apply(c, s, RunStep(j, ok));
    var x := s.runs[j];
    RunFrame(s, x, ok);
    if !Unclaimed(s, r) {
      var k :| 0 <= k < |s.runs| && Committed(s.runs[k], r);
      assert Committed(s'.runs[k], r) || k == j;
    }
    if x.pc.TakeLock? { assert Contending(x, r); }
    var y := s'.runs[j];
    assert Committed(y, r) || !Committed(x, r) || s'.store.rows[r].status.Expired?;
    assert y.pc.SetLockTtl? ==> Committed(y, r);
  }

  lemma RunStepTimely(c: Config, s: State, j: nat, ok: bool)
    requires WellFormed(s) && Enabled(s, RunStep(j, ok)) && Timely(s)
    ensures Timely(Apply(c, s, RunStep(j, ok)))
  {
    var s' := Apply(c, s, RunStep(j, ok));
    RunFrame(s, s.runs[j], ok);
    if Brisk(s') {
      forall r | 0 <= r < |s'.notes| ensures ClaimedOnce(s', r) {
        if r == s.runs[j].row { RunStepOwnRow(c, s, j, ok, r); } else { RunStepOtherRow(c, s, j, ok, r); }
      }
    }
  }

  /** Steps that leave runs, notes and locks alone and turn no row pending. */
  lemma QuietStepTimely(s: State, s': State)
    requires Timely(s)
    requires s'.runs == s.runs && s'.notes == s.notes && s'.store.locks == s.store.locks
    requires s'.log == s.log && s'.clock == s.clock
    requires |s'.store.rows| == |s.store.rows|
    requires forall r :: 0 <= r < |s.store.rows| && s'.store.rows[r].status.PendingPayment? ==>
               s.store.rows[r].status.PendingPayment?
    ensures Timely(s')
  {
    forall r | 0 <= r < |s'.notes| && Brisk(s') ensures ClaimedOnce(s', r) {
      assert ClaimedOnce(s, r);
      assert Unclaimed(s, r) == Unclaimed(s', r);
    }
  }

  lemma TickTimely(s: State, ms: nat)
    requires Timely(s)
    ensures Timely(Passed(s, ms))
  {
    var s' := Passed(s, ms);
    if Brisk(s') {
      LongestIs(s.runs, s'.clock);
      forall r | 0 <= r < |s'.notes| ensures ClaimedOnce(s', r) {
        assert ClaimedOnce(s, r);
        assert Unclaimed(s, r) == Unclaimed(s', r);
      }
    }
  }

  lemma DeliverTimely(c: Config, s: State, job: nat)
    requires WellFormed(s) && Enabled(s, Deliver(job)) && Timely(s)
    ensures Timely(Apply(c, s, Deliver(job)))
  {
    var s' := Apply(c, s, Deliver(job));
    forall r | 0 <= r < |s'.notes| && Brisk(s') ensures ClaimedOnce(s', r) {
      assert ClaimedOnce(s, r);
      if !Unclaimed(s, r) {
        var k :| 0 <= k < |s.runs| && Committed(s.runs[k], r);
        assert Committed(s'.runs[k], r);
      }
    }
  }

  lemma StepKeepsTimely(c: Config, s: State, a: Action)
    requires WellFormed(s) && Enabled(s, a) && Timely(s) && LocksKept(s)
    ensures Timely(Apply(c, s, a))
  {
    match a
    case BatchStep(i, ok) => BatchStepTimely(c, s, i, ok);
    case RunStep(j, ok) => RunStepTimely(c, s, j, ok);
    case Deliver(r) => DeliverTimely(c, s, r);
    case Tick(ms) => TickTimely(s, ms);
    case Enter(_) => QuietStepTimely(s, Apply(c, s, a));
    case Settle(_, _) => QuietStepTimely(s, Apply(c, s, a));
    case OpenBatch => OpenBatchTimely(c, s);
  }

  lemma OpenBatchTimely(c: Config, s: State)
    requires Timely(s)
    ensures Timely(StartBatch(c, s))
  {
    var s' := StartBatch(c, s);
    QuietStepTimely(s, s'.(log := s.log));
    forall r | 0 <= r < |s'.notes| && Brisk(s') ensures ClaimedOnce(s', r) {
      assert ClaimedOnce(s'.(log := s.log), r);
      assert Unclaimed(s'.(log := s.log), r) == Unclaimed(s', r);
    }
  }

  // ---------- What a completed run has done ----------

  ghost predicate RunDelivered(s: State, x: ExpiryRun)
    requires x.row < |s.notes| && x.row < |s.store.rows|
  {
    && (x.pc.MarkRow? ==> s.notes[x.row].releases >= 1)
    && (x.pc.MarkEntry? || x.pc.DeleteKey? || x.pc.UncountKey? || x.pc == RunOver(ExpiredNow) ==>
          s.notes[x.row].releases >= 1 && s.store.rows[x.row].status.Expired?)
  }

  ghost predicate Delivered(s: State) {
    && |s.notes| == |s.store.rows|
    && (forall j :: 0 <= j < |s.runs| ==> s.runs[j].row < |s.notes| && RunDelivered(s, s.runs[j]))
    && (forall r :: 0 <= r < |s.notes| && s.store.rows[r].status.Expired? ==> s.notes[r].releases >= 1)
  }

  lemma RunStepDelivered(c: Config, s: State, k: nat, ok: bool)
    requires WellFormed(s) && Enabled(s, RunStep(k, ok)) && Delivered(s)
    ensures Delivered(Apply(c, s, RunStep(k, ok)))
  {
    var s' := Apply(c, s, RunStep(k, ok));
    RunFrame(s, s.runs[k], ok);
    assert RunDelivered(s, s.runs[k]);
    forall j | 0 <= j < |s'.runs| ensures RunDelivered(s', s'.runs[j]) { assert RunDelivered(s, s.runs[j]); }
  }

  lemma StepKeepsDelivered(c: Config, s: State, a: Action)
    requires WellFormed(s) && Enabled(s, a) && Delivered(s)
    ensures Delivered(Apply(c, s, a))
  {
    var s' := Apply(c, s, a);
    match a
    case BatchStep(i, ok) =>
      BatchFrame(s, s.batches[i], ok);
      NotesKept(s, s.batches[i], ok);
      forall j | 0 <= j < |s'.runs| ensures RunDelivered(s', s'.runs[j]) { assert RunDelivered(s, s.runs[j]); }
    case RunStep(k, ok) => RunStepDelivered(c, s, k, ok);
    case _ =>
      forall j | 0 <= j < |s.runs| ensures RunDelivered(s', s'.runs[j]) { assert RunDelivered(s, s.runs[j]); }
  }

  lemma {:induction false} TimelyAlways(c: Config, s: State, acts: seq<Action>)
    requires WellFormed(s) && Timely(s) && LocksKept(s) && Delivered(s) && Schedule(c, s, acts)
    ensures Timely(After(c, s, acts)) && LocksKept(After(c, s, acts)) && Delivered(After(c, s, acts))
    decreases |acts|
  {
    if acts == [] {
    } else {
      var before, a := After(c, s, acts[..|acts| - 1]), acts[|acts| - 1];
      TimelyAlways(c, s, acts[..|acts| - 1]);
      StepKeepsLocks(c, before, a);
      StepKeepsTimely(c, before, a);
      StepKeepsDelivered(c, before, a);
    }
  }

  lemma TimelyReachable(c: Config, s: State)
    requires Reachable(c, s)
    ensures Timely(s) && LocksKept(s) && Delivered(s)
  {
    var acts :| LeadsTo(c, Initial(c), acts, s);
    TimelyAlways(c, Initial(c), acts);
  }

  /** Any number of overlapping and repeated runs return a seat at most once, for good, if no run takes half
      the life of a lock from its read to its status write; altogether it comes back at most once, unless its
      promotion broke off after its save; and a run that completed has returned it. */
  lemma ReleasedExactlyOnce(c: Config, s: State, r: nat)
    requires Reachable(c, s) && r < |s.notes|
    ensures Brisk(s) ==> Returns(s.notes[r]) <= 1 + s.notes[r].refunds <= 2
    ensures Brisk(s) && s.notes[r].refunds == 0 ==> Returns(s.notes[r]) <= 1
    ensures r < |s.store.rows| && (s.store.rows[r].status.Expired? ==> s.notes[r].releases >= 1)
    ensures forall j :: 0 <= j < |s.runs| && s.runs[j].row == r && s.runs[j].pc == RunOver(ExpiredNow) ==>
              s.store.rows[r].status.Expired? && s.notes[r].releases >= 1
  {
    TimelyReachable(c, s);
    AtMostOneReleasePerLockLife(c, s, r);
    assert LockHistory(s, r);
    SumNonNegative(s.runs, Owing(r));
    assert Brisk(s) ==> ClaimedOnce(s, r);
    forall j | 0 <= j < |s.runs| ensures RunDelivered(s, s.runs[j]) {}
  }
}
