/** How often, and when, expiry runs return the seat of a reservation. */
module ReleaseOnce {
  import opened Domain
  import opened Counting
  import opened Protocol

  // ---------- Jobs and clocks ----------

  /** The batch saved row `r` and has neither completed nor given up the promotion. */
  predicate Owns(b: Batch, r: nat) { SavedRow(b.pc) == Some(r) }

  /** Each row has one batch, and that batch returns its seat once at most. */
  ghost predicate Owners(s: State) {
    && (forall i, k, r: nat :: 0 <= i < |s.batches| && 0 <= k < |s.batches| ==>
          Owns(s.batches[i], r) && Owns(s.batches[k], r) ==> i == k)
    && (forall i, r: nat :: 0 <= i < |s.batches| && Owns(s.batches[i], r) ==> r < |s.notes| && s.notes[r].refunds == 0)
    && (forall r :: 0 <= r < |s.notes| ==> s.notes[r].refunds <= 1)
  }

  ghost predicate BatchTimed(s: State, b: Batch) {
    match b.pc
    case SaveRow(_, t) => t <= s.clock + RESERVATION_TTL
    case AddJob(_, r) =>
      r < |s.store.rows| && r !in s.store.jobs && s.store.rows[r].expiresAt <= s.clock + RESERVATION_TTL
    case MarkActive(_, r) => r in s.store.jobs
    case Dequeue(_, r) => r in s.store.jobs
    case SetKey(_, r) => r in s.store.jobs
    case CountKey(_, r) => r in s.store.jobs
    case _ => true
  }

  /** A job never falls due before its reservation expires, and each row gets one job. */
  ghost predicate JobsTimed(s: State) {
    && (forall r :: r in s.store.jobs ==> r < |s.store.rows| && s.store.rows[r].expiresAt <= s.store.jobs[r])
    && (forall i :: 0 <= i < |s.batches| ==> BatchTimed(s, s.batches[i]))
    && Owners(s)
  }

  /** Expiry runs exist only for jobs that are due. */
  ghost predicate RunsDue(s: State) {
    && (forall j :: 0 <= j < |s.runs| ==> s.runs[j].row in s.store.jobs && s.clock >= s.store.jobs[s.runs[j].row])
    && (forall r :: 0 <= r < |s.notes| && s.notes[r].acquires > 0 ==>
          r in s.store.jobs && s.clock >= s.store.jobs[r])
  }

  ghost predicate Timing(s: State) { JobsTimed(s) && RunsDue(s) }

  /** What a batch step leaves of the notes that were there. */
  lemma NotesKept(s: State, b: Batch, ok: bool)
    ensures var notes := BatchDoes(s, b, ok).notes;
            && |notes| >= |s.notes|
            && (forall k :: 0 <= k < |s.notes| ==>
                  notes[k] == s.notes[k] || (Owns(b, k) && notes[k] == s.notes[k].(refunds := s.notes[k].refunds + 1)))
            && (forall k :: |s.notes| <= k < |notes| ==> notes[k] == Note(0, 0, 0, 0))
  {}

  lemma BatchStepOwners(c: Config, s: State, i: nat, ok: bool)
    requires WellFormed(s) && Enabled(s, BatchStep(i, ok)) && Owners(s)
    ensures Owners(Apply(c, s, BatchStep(i, ok)))
  {
    BatchKeepsRow(s, s.batches[i], ok);
    BatchFrameRows(s, s.batches[i], ok);
    NotesKept(s, s.batches[i], ok);
    RefundEnds(s, s.batches[i], ok);
  }

  lemma RefundEnds(s: State, b: Batch, ok: bool)
    ensures ok && b.pc.Refund? ==> BatchDoes(s, b, ok).batch.pc.BatchOver?
  {}

  lemma BatchStepTiming(c: Config, s: State, i: nat, ok: bool)
    requires WellFormed(s) && Enabled(s, BatchStep(i, ok)) && JobsTimed(s)
    ensures JobsTimed(Apply(c, s, BatchStep(i, ok)))
  {
    var s' := Apply(c, s, BatchStep(i, ok));
    BatchStepOwners(c, s, i, ok);
    BatchFrame(s, s.batches[i], ok);
    BatchMoves(s, s.batches[i], ok);
    forall k | 0 <= k < |s'.batches| ensures BatchTimed(s', s'.batches[k]) {
      assert BatchTimed(s, s.batches[k]);
      assert k != i && s.batches[k].pc.AddJob? ==> !Owns(s.batches[i], s.batches[k].pc.row);
    }
  }

  /** Which steps lead into the timed places of a batch. */
  lemma BatchMoves(s: State, b: Batch, ok: bool)
    ensures var pc := BatchDoes(s, b, ok).batch.pc;
            && (pc.SaveRow? ==> pc == b.pc || pc.expiresAt == s.clock + RESERVATION_TTL)
            && (pc.AddJob? ==> pc == b.pc || (b.pc.SaveRow? && ok && pc.row == |s.store.rows|))
            && (pc.MarkActive? ==> pc == b.pc || (b.pc.AddJob? && ok && pc.row == b.pc.row))
            && (pc.Dequeue? ==> pc == b.pc || (b.pc.MarkActive? && ok && pc.row == b.pc.row))
            && (pc.SetKey? ==> pc == b.pc || (b.pc.Dequeue? && ok && pc.row == b.pc.row))
            && (pc.CountKey? ==> pc == b.pc || (b.pc.SetKey? && ok && pc.row == b.pc.row))
            && (ok ==> pc != b.pc || pc.BatchOver?)
  {}

  lemma BatchStepRunsDue(c: Config, s: State, i: nat, ok: bool)
    requires WellFormed(s) && Enabled(s, BatchStep(i, ok)) && Timing(s)
    ensures RunsDue(Apply(c, s, BatchStep(i, ok)))
  {
    BatchFrame(s, s.batches[i], ok);
    NotesKept(s, s.batches[i], ok);
    assert BatchTimed(s, s.batches[i]);
  }

  lemma RunStepTiming(c: Config, s: State, j: nat, ok: bool)
    requires WellFormed(s) && Enabled(s, RunStep(j, ok)) && Timing(s)
    ensures Timing(Apply(c, s, RunStep(j, ok)))
  {
    var s' := Apply(c, s, RunStep(j, ok));
    RunFrame(s, s.runs[j], ok);
    forall i | 0 <= i < |s'.batches| ensures BatchTimed(s', s'.batches[i]) {
      assert BatchTimed(s, s.batches[i]);
    }
  }

  lemma PaymentTiming(c: Config, s: State, r: nat, u: UserId)
    requires WellFormed(s) && Timing(s)
    ensures Timing(Apply(c, s, Settle(r, u)))
  {}

  lemma StepKeepsTiming(c: Config, s: State, a: Action)
    requires WellFormed(s) && Enabled(s, a) && Timing(s)
    ensures Timing(Apply(c, s, a))
  {
    match a
    case BatchStep(i, ok) => BatchStepTiming(c, s, i, ok); BatchStepRunsDue(c, s, i, ok);
    case RunStep(j, ok) => RunStepTiming(c, s, j, ok);
    case Settle(r, u) => PaymentTiming(c, s, r, u);
    case OpenBatch => OpenBatchTiming(c, s);
    case _ => QuietTiming(c, s, a);
  }

  lemma OpenBatchTiming(c: Config, s: State)
    requires WellFormed(s) && Timing(s)
    ensures Timing(StartBatch(c, s))
  {
    var s' := StartBatch(c, s);
    forall i | 0 <= i < |s.batches| ensures BatchTimed(s', s.batches[i]) {
      assert BatchTimed(s, s.batches[i]);
    }
  }

  lemma QuietTiming(c: Config, s: State, a: Action)
    requires WellFormed(s) && Enabled(s, a) && Timing(s) && (a.Tick? || a.Enter? || a.Deliver?)
    ensures Timing(Apply(c, s, a))
  {
    var s' := Apply(c, s, a);
    forall i | 0 <= i < |s.batches| ensures BatchTimed(s', s.batches[i]) {
      assert BatchTimed(s, s.batches[i]);
    }
  }

  // ---------- The lock ----------

  predicate Releasing(x: ExpiryRun, r: nat) { x.row == r && (x.pc.SetLockTtl? || x.pc.ReturnSeat?) }

  /** Weight of a run that took the lock of row `r` and has not yet returned its seat. */
  function Owing(r: nat): ExpiryRun -> int { x => if Releasing(x, r) then 1 else 0 }

  /** Every acquisition of a lock is a release done or a release under way; a lock is taken a second
      time only after its time to live, counted from the first time, has passed. */
  ghost predicate LockHistory(s: State, r: nat)
    requires r < |s.notes|
  {
    var n := s.notes[r];
    && n.acquires == n.releases + Sum(s.runs, Owing(r))
    && (n.acquires > 0 <==> r in s.store.locks)
    && (n.acquires > 0 ==> n.firstLock <= s.clock)
    && (r in s.store.locks && s.store.locks[r].Until? ==> s.store.locks[r].t >= n.firstLock + LOCK_TTL)
    && (n.acquires >= 2 ==> s.clock >= n.firstLock + LOCK_TTL)
  }

  ghost predicate LocksKept(s: State) {
    && (forall r :: 0 <= r < |s.notes| ==> LockHistory(s, r))
    && (forall r :: r in s.store.locks ==> r < |s.notes|)
  }

  lemma BatchStepLocks(c: Config, s: State, i: nat, ok: bool)
    requires WellFormed(s) && Enabled(s, BatchStep(i, ok)) && LocksKept(s)
    ensures LocksKept(Apply(c, s, BatchStep(i, ok)))
  {
    var s' := Apply(c, s, BatchStep(i, ok));
    BatchFrame(s, s.batches[i], ok);
    NotesKept(s, s.batches[i], ok);
    forall r | 0 <= r < |s'.notes| ensures LockHistory(s', r) {
      if r < |s.notes| {
        assert LockHistory(s, r);
      } else {
        SumZero(s.runs, Owing(r));
      }
    }
  }

  lemma RunStepLocks(c: Config, s: State, j: nat, ok: bool)
    requires WellFormed(s) && Enabled(s, RunStep(j, ok)) && LocksKept(s)
    ensures LocksKept(Apply(c, s, RunStep(j, ok)))
  {
    RunFrame(s, s.runs[j], ok);
    forall r | 0 <= r < |s.notes| ensures LockHistory(Apply(c, s, RunStep(j, ok)), r) {
      RunStepLock(c, s, j, ok, r);
    }
  }

  lemma RunStepLock(c: Config, s: State, j: nat, ok: bool, r: nat)
    requires WellFormed(s) && Enabled(s, RunStep(j, ok)) && r < |s.notes| && LockHistory(s, r)
    ensures r < |Apply(c, s, RunStep(j, ok)).notes| && LockHistory(Apply(c, s, RunStep(j, ok)), r)
  {
    var s' := Apply(c, s, RunStep(j, ok));
    RunFrame(s, s.runs[j], ok);
    SumAtLeast(s.runs, j, Owing(s.runs[j].row));
    SumUpdate(s.runs, j, s'.runs[j], Owing(r));
  }

  lemma StepKeepsLocks(c: Config, s: State, a: Action)
    requires WellFormed(s) && Enabled(s, a) && LocksKept(s)
    ensures LocksKept(Apply(c, s, a))
  {
    match a
    case BatchStep(i, ok) => BatchStepLocks(c, s, i, ok);
    case RunStep(j, ok) => RunStepLocks(c, s, j, ok);
    case Deliver(job) =>
      var s' := Apply(c, s, a);
      forall r | 0 <= r < |s'.notes| ensures LockHistory(s', r) {
        assert LockHistory(s, r);
        SumAppend(s.runs, s'.runs[|s.runs|], Owing(r));
      }
    case _ =>
      var s' := Apply(c, s, a);
      forall r | 0 <= r < |s'.notes| ensures LockHistory(s', r) { assert LockHistory(s, r); }
  }
}
