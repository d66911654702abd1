/** Expiry runs beyond the conditions of the safety theorems: exactly when a seat can be returned once more, and
    exactly when a reservation can be paid for and lost. */
module ExpiryHazards {
  import opened Domain
  import opened Counting
  import opened Protocol
  import opened SeatLedger
  import opened ReleaseOnce
  import opened PaidOrReleased
  import opened TimelyRelease
  import opened SerialSteps

  // ---------- Expiry runs ----------

  /** A delivered job whose run has read its row as pending. */
  lemma RunStarts(c: Config, o: State, s: State, r: nat) returns (t: State)
    requires WellFormed(o) && Leads(c, o, s) && WellFormed(s) && r in s.store.jobs && s.clock >= s.store.jobs[r]
    requires s.store.rows[r].status.PendingPayment?
    ensures Leads(c, o, t) && WellFormed(t)
    ensures t == s.(runs := s.runs + [ExpiryRun(r, s.clock, TakeLock, true)])
  {
    StepLeads(c, o, s, Deliver(r));
    var s1 := Apply(c, s, Deliver(r));
    StepLeads(c, o, s1, RunStep(|s.runs|, true));
    t := Apply(c, s1, RunStep(|s.runs|, true));
  }

  lemma Waited(c: Config, o: State, s: State, until: Time) returns (t: State)
    requires WellFormed(o) && Leads(c, o, s) && WellFormed(s)
    ensures Leads(c, o, t) && WellFormed(t)
    ensures var now := Max(s.clock, until);
            t == s.(clock := now, log := s.log.(window := Max(s.log.window, Longest(s.runs, now))))
  {
    StepLeads(c, o, s, Tick(Max(0, until - s.clock)));
    t := Apply(c, s, Tick(Max(0, until - s.clock)));
  }

  lemma SeatBackState(s: State, j: nat) returns (t: State)
    requires WellFormed(s) && j < |s.runs|
    ensures t == PutRun(s, j, SeatBack(s.clock, RunView(s.runs[j], s.store, s.notes)))
    ensures var r := s.runs[j].row;
            t == s.(runs := s.runs[j := s.runs[j].(pc := MarkRow)],
                    store := s.store.(seats := s.store.seats + 1,
                                      locks := s.store.locks[r := Until(s.clock + LOCK_TTL)]),
                    notes := s.notes[r := Released(Acquired(s.notes[r], s.clock))])
  {
    t := PutRun(s, j, SeatBack(s.clock, RunView(s.runs[j], s.store, s.notes)));
  }

  /** A run that finds the lock free takes it and returns the seat. */
  lemma SeatReturned(c: Config, o: State, s: State, j: nat) returns (t: State)
    requires WellFormed(o) && Leads(c, o, s) && WellFormed(s)
    requires j < |s.runs| && s.runs[j].alive && s.runs[j].pc.TakeLock?
    requires !LockHeld(s.store.locks, s.runs[j].row, s.clock)
    ensures Leads(c, o, t) && WellFormed(t)
    ensures var r := s.runs[j].row;
            t == s.(runs := s.runs[j := s.runs[j].(pc := MarkRow)],
                    store := s.store.(seats := s.store.seats + 1,
                                      locks := s.store.locks[r := Until(s.clock + LOCK_TTL)]),
                    notes := s.notes[r := Released(Acquired(s.notes[r], s.clock))])
  {
    SeatBackLeads(c, o, s, j);
    t := SeatBackState(s, j);
  }

  /** Expiry runs brought back the seat of row `r`, and nothing else that a promotion could see. */
  predicate SeatIsBack(s: State, t: State, r: nat) {
    && r < |s.notes| == |t.notes| && t.notes[r].releases == s.notes[r].releases + 1
    && t.notes[r].refunds == s.notes[r].refunds
    && t.store.seats == s.store.seats + 1 && t.store.rows == s.store.rows && t.store.queue == s.store.queue
    && t.store.jobs == s.store.jobs && t.batches == s.batches && t.log.broken == s.log.broken
  }

  lemma LockTimedState(c: Config, s: State, j: nat) returns (t: State)
    requires WellFormed(s) && j < |s.runs| && s.runs[j].alive && s.runs[j].pc.SetLockTtl?
    ensures t == Apply(c, s, RunStep(j, true))
    ensures t == s.(runs := s.runs[j := s.runs[j].(pc := ReturnSeat)],
                    store := s.store.(locks := s.store.locks[s.runs[j].row := Until(s.clock + LOCK_TTL)]))
  {
    t := Apply(c, s, RunStep(j, true));
  }

  /** The EXPIRE of a run that has just taken the lock. */
  lemma LockTimed(c: Config, o: State, s: State, j: nat) returns (t: State)
    requires WellFormed(o) && Leads(c, o, s) && WellFormed(s)
    requires j < |s.runs| && s.runs[j].alive && s.runs[j].pc.SetLockTtl?
    ensures Leads(c, o, t) && WellFormed(t)
    ensures t == s.(runs := s.runs[j := s.runs[j].(pc := ReturnSeat)],
                    store := s.store.(locks := s.store.locks[s.runs[j].row := Until(s.clock + LOCK_TTL)]))
  {
    t := LockTimedState(c, s, j);
    StepLeads(c, o, s, RunStep(j, true));
  }

  /** The INCR of a run that holds the lock. */
  lemma SeatPutBack(c: Config, o: State, s: State, j: nat) returns (t: State)
    requires WellFormed(o) && Leads(c, o, s) && WellFormed(s)
    requires j < |s.runs| && s.runs[j].alive && s.runs[j].pc.ReturnSeat?
    ensures Leads(c, o, t) && WellFormed(t)
    ensures var r := s.runs[j].row;
            t == s.(runs := s.runs[j := s.runs[j].(pc := MarkRow)], store := s.store.(seats := s.store.seats + 1),
                    notes := s.notes[r := Released(s.notes[r])])
  {
    StepLeads(c, o, s, RunStep(j, true));
    t := Apply(c, s, RunStep(j, true));
  }

  /** The last commands of a run that holds the lock, up to its INCR. */
  lemma SeatGoesBack(c: Config, o: State, s: State, j: nat) returns (t: State)
    requires WellFormed(o) && Leads(c, o, s) && WellFormed(s) && j < |s.runs| && s.runs[j].alive
    requires Releasing(s.runs[j], s.runs[j].row)
    ensures Leads(c, o, t) && WellFormed(t) && SeatIsBack(s, t, s.runs[j].row)
    ensures |t.runs| == |s.runs| && t.runs[j] == s.runs[j].(pc := MarkRow)
    ensures forall k :: 0 <= k < |s.runs| && k != j ==> t.runs[k] == s.runs[k]
    ensures t.store.locks == if s.runs[j].pc.SetLockTtl? then s.store.locks[s.runs[j].row := Until(s.clock + LOCK_TTL)]
                             else s.store.locks
  {
    var s1 := s;
    if s.runs[j].pc.SetLockTtl? { s1 := LockTimed(c, o, s, j); }
    t := SeatPutBack(c, o, s1, j);
  }

  lemma PaidNow(c: Config, o: State, s: State, r: nat) returns (t: State)
    requires WellFormed(o) && Leads(c, o, s) && WellFormed(s)
    requires r < |s.store.rows| && s.store.rows[r].status.PendingPayment? && s.clock <= s.store.rows[r].expiresAt
    ensures Leads(c, o, t) && WellFormed(t) && t == s.(store := t.store) && t.store.locks == s.store.locks
    ensures |t.store.rows| == |s.store.rows| && t.store.rows[r].status.Paid? && t.store.rows[r].paidAt.Some?
  {
    StepLeads(c, o, s, Settle(r, s.store.rows[r].user));
    t := Apply(c, s, Settle(r, s.store.rows[r].user));
  }

  // ---------- A lock without a time to live ----------

  /** The lock was left without a time to live: the run that took it stopped before EXPIRE. */
  ghost predicate Stuck(s: State, r: nat) {
    && r in s.store.locks && s.store.locks[r].NoTtl?
    && forall j :: 0 <= j < |s.runs| && s.runs[j].alive ==> !Releasing(s.runs[j], r)
  }

  /** Some batch that is still running saved row `r` and has not come to the end of the promotion. */
  ghost predicate Owned(s: State, r: nat) {
    exists i :: 0 <= i < |s.batches| && s.batches[i].alive && Owns(s.batches[i], r)
  }

  /** Neither an expiry run nor a catch block will ever return the seat of row `r`, though it stays pending. */
  ghost predicate NeverReturned(s: State, r: nat) {
    !Owned(s, r) && (r in s.store.jobs ==> Stuck(s, r))
  }

  lemma BatchOwnership(s: State, b: Batch, ok: bool, r: nat)
    requires Working(b) && r < |s.store.rows|
    ensures var e := BatchDoes(s, b, ok);
            && (Owns(e.batch, r) ==> Owns(b, r))
            && (r in e.store.jobs ==> r in s.store.jobs || Owns(b, r))
  {
    BatchKeepsRow(s, b, ok);
    BatchFrameJobs(s, b, ok);
  }

  lemma StepKeepsUnowned(c: Config, s: State, a: Action, r: nat)
    requires WellFormed(s) && Enabled(s, a) && r < |s.store.rows| && !Owned(s, r)
    ensures var s' := Apply(c, s, a);
            && r < |s'.store.rows| && !Owned(s', r)
            && (r in s'.store.jobs ==> r in s.store.jobs)
            && r < |s'.notes| && s'.notes[r].refunds == s.notes[r].refunds
  {
    var s' := Apply(c, s, a);
    match a
    case BatchStep(i, ok) =>
      BatchFrame(s, s.batches[i], ok);
      NotesKept(s, s.batches[i], ok);
      BatchOwnership(s, s.batches[i], ok, r);
      forall k | 0 <= k < |s'.batches| && s'.batches[k].alive ensures !Owns(s'.batches[k], r) {
        assert !Owns(s.batches[i], r);
      }
    case RunStep(j, ok) => RunFrame(s, s.runs[j], ok);
    case _ =>
  }

  lemma StepKeepsStuck(c: Config, s: State, a: Action, r: nat)
    requires WellFormed(s) && Enabled(s, a) && r < |s.notes| && Stuck(s, r)
    ensures var s' := Apply(c, s, a);
            r < |s'.notes| && Stuck(s', r) && s'.notes[r].releases == s.notes[r].releases
  {
    match a
    case BatchStep(i, ok) => BatchFrame(s, s.batches[i], ok); NotesKept(s, s.batches[i], ok);
    case RunStep(j, ok) => RunFrame(s, s.runs[j], ok);
    case _ =>
  }

  /** A row without a job has no expiry runs. */
  lemma JoblessStays(c: Config, s: State, a: Action, r: nat)
    requires WellFormed(s) && Enabled(s, a) && Timing(s) && r < |s.notes| && r !in s.store.jobs
    ensures var s' := Apply(c, s, a);
            r < |s'.notes| && s'.notes[r].releases == s.notes[r].releases
  {
    match a
    case BatchStep(i, ok) => NotesKept(s, s.batches[i], ok);
    case RunStep(j, ok) => RunFrame(s, s.runs[j], ok);
    case _ =>
  }

  lemma StepKeepsNeverReturned(c: Config, s: State, a: Action, r: nat)
    requires WellFormed(s) && Enabled(s, a) && Timing(s) && r < |s.notes| && NeverReturned(s, r)
    ensures var s' := Apply(c, s, a);
            r < |s'.notes| && NeverReturned(s', r) && Returns(s'.notes[r]) == Returns(s.notes[r])
  {
    StepKeepsUnowned(c, s, a, r);
    if r in s.store.jobs { StepKeepsStuck(c, s, a, r); } else { JoblessStays(c, s, a, r); }
  }

  lemma {:induction false} NeverReturnedForGood(c: Config, s: State, acts: seq<Action>, r: nat)
    requires WellFormed(s) && Orderly(s) && r < |s.notes| && NeverReturned(s, r) && Schedule(c, s, acts)
    ensures var t := After(c, s, acts);
            r < |t.notes| && NeverReturned(t, r) && Returns(t.notes[r]) == Returns(s.notes[r])
    decreases |acts|
  {
    if acts == [] {
    } else {
      OrderlyAlways(c, s, acts[..|acts| - 1]);
      NeverReturnedForGood(c, s, acts[..|acts| - 1], r);
      StepKeepsNeverReturned(c, After(c, s, acts[..|acts| - 1]), acts[|acts| - 1], r);
    }
  }

  // ---------- One more return ----------

  predicate MoreReturns(s: State, t: State, r: nat) {
    r < |s.notes| && r < |t.notes| && Returns(t.notes[r]) > Returns(s.notes[r])
  }

  lemma RefundDone(c: Config, s: State, i: nat, r: nat) returns (t: State)
    requires WellFormed(s) && i < |s.batches| && s.batches[i].alive
    requires s.batches[i].pc.Refund? && s.batches[i].pc.saved == Some(r)
    ensures t == Apply(c, s, BatchStep(i, true))
    ensures t == s.(batches := s.batches[i := s.batches[i].(pc := BatchOver)], notes := Refunded(s.notes, r),
                    store := s.store.(seats := s.store.seats + 1))
  {
    t := Apply(c, s, BatchStep(i, true));
  }

  lemma CommandRejected(c: Config, s: State, i: nat, r: nat) returns (t: State)
    requires WellFormed(s) && i < |s.batches| && s.batches[i].alive && Owns(s.batches[i], r)
    requires !s.batches[i].pc.Refund?
    ensures t == Apply(c, s, BatchStep(i, false))
    ensures t == s.(batches := s.batches[i := s.batches[i].(pc := Refund(s.batches[i].pc.user, Some(r)))], log := t.log)
    ensures t.log == s.log.(broken := s.log.broken + 1,
                            missed := s.log.missed + (if s.batches[i].pc.CountKey? then 1 else 0))
  {
    t := Apply(c, s, BatchStep(i, false));
  }

  /** A command of the promotion is rejected, and the catch block returns the seat. */
  lemma BreaksOff(c: Config, o: State, s: State, i: nat, r: nat) returns (t: State)
    requires WellFormed(o) && Leads(c, o, s) && WellFormed(s)
    requires i < |s.batches| && s.batches[i].alive && Owns(s.batches[i], r)
    ensures Leads(c, o, t) && WellFormed(t)
    ensures t == s.(batches := s.batches[i := s.batches[i].(pc := BatchOver)], notes := Refunded(s.notes, r),
                    store := s.store.(seats := s.store.seats + 1), log := t.log)
    ensures t.log.window == s.log.window && t.log.peak == s.log.peak
    ensures t.log.missed == s.log.missed + (if s.batches[i].pc.CountKey? then 1 else 0)
  {
    var s1 := s;
    if !s.batches[i].pc.Refund? {
      s1 := CommandRejected(c, s, i, r);
      StepLeads(c, o, s, BatchStep(i, false));
    }
    t := RefundDone(c, s1, i, r);
    StepLeads(c, o, s1, BatchStep(i, true));
  }

  /** Expiry brings back the seat of a pending reservation: the run that is at it goes on, or else the job is
      delivered again and waits for the lock to vanish. */
  lemma SeatComesBack(c: Config, o: State, s: State, r: nat) returns (t: State)
    requires WellFormed(o) && Leads(c, o, s) && WellFormed(s)
    requires r < |s.store.rows| && s.store.rows[r].status.PendingPayment? && r in s.store.jobs && !Stuck(s, r)
    ensures Leads(c, o, t) && WellFormed(t) && SeatIsBack(s, t, r)
  {
    if r in s.store.locks && s.store.locks[r].NoTtl? {
      var j :| 0 <= j < |s.runs| && s.runs[j].alive && Releasing(s.runs[j], r);
      t := SeatGoesBack(c, o, s, j);
    } else {
      var s1 := Waited(c, o, s, LockEnd(s, r));
      var s2 := RunStarts(c, o, s1, r);
      t := SeatReturned(c, o, s2, |s.runs|);
    }
  }

  /** When the job is due and the lock, if there is one with a time to live, has vanished. */
  function LockEnd(s: State, r: nat): Time
    requires r in s.store.jobs
  {
    if r in s.store.locks && s.store.locks[r].Until? then Max(s.store.jobs[r], s.store.locks[r].t) else s.store.jobs[r]
  }

  /** The exact condition, from any reachable state on: the seat of a pending reservation can be returned once more
      if and only if the batch that saved it is still running the promotion, or its job is queued and its lock was
      not left without a time to live by a run that stopped. */
  lemma ReturnedAgainIff(c: Config, s: State, r: nat)
    requires Reachable(c, s) && WellFormed(s) && r < |s.store.rows| && s.store.rows[r].status.PendingPayment?
    ensures (exists t :: Leads(c, s, t) && MoreReturns(s, t, r)) <==> Owned(s, r) || (r in s.store.jobs && !Stuck(s, r))
  {
    LeadsToItself(c, s);
    if NeverReturned(s, r) {
      OrderlyReachable(c, s);
      forall t | Leads(c, s, t) ensures !MoreReturns(s, t, r) {
        var acts :| LeadsTo(c, s, acts, t);
        NeverReturnedForGood(c, s, acts, r);
      }
    } else if Owned(s, r) {
      var i :| 0 <= i < |s.batches| && s.batches[i].alive && Owns(s.batches[i], r);
      var t := BreaksOff(c, s, s, i, r);
      assert MoreReturns(s, t, r);
    } else {
      var t := SeatComesBack(c, s, s, r);
      assert MoreReturns(s, t, r);
    }
  }

  /** From every reachable state with a batch past the save of a row that is pending, and whose lock is not stuck: two
      returns of its seat follow, one by expiry and one by the catch block. */
  lemma BrokenPromotionReturnsTwice(c: Config, s: State, i: nat, r: nat) returns (t: State)
    requires Reachable(c, s) && WellFormed(s) && r < |s.store.rows| && s.store.rows[r].status.PendingPayment?
    requires i < |s.batches| && Working(s.batches[i]) && Owns(s.batches[i], r) && !s.batches[i].pc.Refund?
    requires !Stuck(s, r)
    ensures Leads(c, s, t) && |t.notes| == |s.notes| && Returns(t.notes[r]) == Returns(s.notes[r]) + 2
    ensures t.store.seats == s.store.seats + 2
  {
    OrderlyReachable(c, s);
    assert BatchTimed(s, s.batches[i]);
    LeadsToItself(c, s);
    var s1 := s;
    if s.batches[i].pc.AddJob? { s1 := JobAdded(c, s, s, i, r); }
    var s2 := SeatComesBack(c, s, s1, r);
    t := BreaksOff(c, s, s2, i, r);
  }

  lemma JobAddedState(c: Config, s: State, i: nat, r: nat) returns (t: State)
    requires WellFormed(s) && i < |s.batches| && Working(s.batches[i])
    requires s.batches[i].pc.AddJob? && s.batches[i].pc.row == r
    ensures t == Apply(c, s, BatchStep(i, true))
    ensures t == s.(batches := s.batches[i := s.batches[i].(pc := MarkActive(s.batches[i].pc.user, r))],
                    store := s.store.(jobs := s.store.jobs[r := s.clock + RESERVATION_TTL]))
  {
    t := Apply(c, s, BatchStep(i, true));
  }

  lemma JobAdded(c: Config, o: State, s: State, i: nat, r: nat) returns (t: State)
    requires WellFormed(o) && Leads(c, o, s) && WellFormed(s)
    requires i < |s.batches| && Working(s.batches[i]) && s.batches[i].pc.AddJob? && s.batches[i].pc.row == r
    ensures Leads(c, o, t) && WellFormed(t)
    ensures t == s.(batches := s.batches[i := s.batches[i].(pc := MarkActive(s.batches[i].pc.user, r))],
                    store := s.store.(jobs := s.store.jobs[r := s.clock + RESERVATION_TTL]))
  {
    t := JobAddedState(c, s, i, r);
    StepLeads(c, o, s, BatchStep(i, true));
  }

  // ---------- Paid for and lost ----------

  /** Paid for, but no longer PAID, or its seat is back in the counter. */
  predicate PaidAndLost(s: State, r: nat) {
    && r < |s.store.rows| && r < |s.notes| && s.store.rows[r].paidAt.Some?
    && (!s.store.rows[r].status.Paid? || Returns(s.notes[r]) > 0)
  }

  /** The reservation can still be paid for; and its seat is back already, or its promotion can still break off, or
      its job is due in the very millisecond of its expiry and its lock is not stuck. */
  ghost predicate Losable(s: State, r: nat)
    requires r < |s.store.rows| && r < |s.notes|
  {
    && s.clock <= s.store.rows[r].expiresAt
    && (|| Returns(s.notes[r]) > 0
        || Owned(s, r)
        || (r in s.store.jobs && s.store.jobs[r] == s.store.rows[r].expiresAt && !Stuck(s, r)))
  }

  /** Too late to be paid for; or never refunded, and either its job is due too late to meet a payment or no expiry
      run will return its seat. */
  ghost predicate Immune(s: State, r: nat)
    requires r < |s.store.rows| && r < |s.notes|
  {
    || Lapsed(s, r)
    || (!Owned(s, r) && s.notes[r].refunds == 0 && (Punctual(s, r) || (Stuck(s, r) && s.notes[r].releases == 0)))
  }

  predicate Lapsed(s: State, r: nat)
    requires r < |s.store.rows|
  {
    s.store.rows[r].paidAt.None? && s.clock > s.store.rows[r].expiresAt
  }

  lemma StepKeepsLapsed(c: Config, s: State, a: Action, r: nat)
    requires WellFormed(s) && Enabled(s, a) && r < |s.store.rows| && Lapsed(s, r)
    ensures var s' := Apply(c, s, a);
            r < |s'.store.rows| && Lapsed(s', r)
  {
    match a
    case BatchStep(i, ok) => BatchFrame(s, s.batches[i], ok);
    case RunStep(j, ok) => RunFrame(s, s.runs[j], ok);
    case _ =>
  }

  lemma StepKeepsImmune(c: Config, s: State, a: Action, r: nat)
    requires WellFormed(s) && Enabled(s, a) && Timing(s) && r < |s.store.rows| && Immune(s, r)
    ensures var s' := Apply(c, s, a);
            WellFormed(s') && r < |s'.store.rows| && Immune(s', r)
  {
    ApplyWellFormed(c, s, a);
    if Lapsed(s, r) {
      StepKeepsLapsed(c, s, a, r);
    } else {
      StepKeepsUnowned(c, s, a, r);
      JobStays(c, s, a, r);
      if Stuck(s, r) && s.notes[r].releases == 0 { StepKeepsStuck(c, s, a, r); }
    }
  }

  lemma {:induction false} ImmuneForGood(c: Config, s: State, acts: seq<Action>, r: nat)
    requires WellFormed(s) && Orderly(s) && r < |s.store.rows| && Immune(s, r) && Schedule(c, s, acts)
    ensures var t := After(c, s, acts);
            r < |t.store.rows| && Immune(t, r)
    decreases |acts|
  {
    if acts == [] {
    } else {
      OrderlyAlways(c, s, acts[..|acts| - 1]);
      ImmuneForGood(c, s, acts[..|acts| - 1], r);
      StepKeepsImmune(c, After(c, s, acts[..|acts| - 1]), acts[|acts| - 1], r);
    }
  }

  lemma ImmuneIsNotLost(s: State, r: nat)
    requires Orderly(s) && Delivered(s) && r < |s.store.rows| && Immune(s, r)
    ensures !PaidAndLost(s, r)
  {
    assert PaidApart(s, r) && LockHistory(s, r);
    SumNonNegative(s.runs, Owing(r));
  }

  /** The payment slips in before the seat goes back. */
  lemma PaidThenLost(c: Config, s: State, r: nat) returns (t: State)
    requires WellFormed(s) && r < |s.store.rows| && s.store.rows[r].status.PendingPayment? && Losable(s, r)
    ensures Leads(c, s, t) && PaidAndLost(t, r)
  {
    LeadsToItself(c, s);
    if Returns(s.notes[r]) > 0 {
      t := PaidNow(c, s, s, r);
    } else if Owned(s, r) {
      var i :| 0 <= i < |s.batches| && s.batches[i].alive && Owns(s.batches[i], r);
      var s1 := PaidNow(c, s, s, r);
      t := BreaksOff(c, s, s1, i, r);
    } else if r in s.store.locks && s.store.locks[r].NoTtl? {
      var j :| 0 <= j < |s.runs| && s.runs[j].alive && Releasing(s.runs[j], r);
      var s1 := PaidNow(c, s, s, r);
      t := SeatGoesBack(c, s, s1, j);
    } else {
      t := PaidThenLockFree(c, s, r);
    }
  }

  /** A run reads the row as pending at the last instant, and the payment follows. */
  lemma PaidBehindTheRead(c: Config, s: State, r: nat) returns (t: State)
    requires WellFormed(s) && r < |s.store.rows| && s.store.rows[r].status.PendingPayment?
    requires r in s.store.jobs && s.store.jobs[r] == s.store.rows[r].expiresAt && s.clock <= s.store.jobs[r]
    ensures Leads(c, s, t) && WellFormed(t) && t.store.locks == s.store.locks && |t.store.rows| == |s.store.rows|
    ensures t.store.rows[r].status.Paid? && t.store.rows[r].paidAt.Some?
    ensures t.runs == s.runs + [ExpiryRun(r, t.clock, TakeLock, true)]
  {
    LeadsToItself(c, s);
    var s1 := Waited(c, s, s, s.store.jobs[r]);
    var s2 := RunStarts(c, s, s1, r);
    t := PaidNow(c, s, s2, r);
  }

  /** The run takes the lock once it is free. */
  lemma PaidThenLockFree(c: Config, s: State, r: nat) returns (t: State)
    requires WellFormed(s) && r < |s.store.rows| && s.store.rows[r].status.PendingPayment?
    requires r in s.store.jobs && s.store.jobs[r] == s.store.rows[r].expiresAt && s.clock <= s.store.jobs[r]
    requires r in s.store.locks ==> s.store.locks[r].Until?
    ensures Leads(c, s, t) && PaidAndLost(t, r)
  {
    var s1 := PaidBehindTheRead(c, s, r);
    var s2 := Waited(c, s, s1, if r in s.store.locks then s.store.locks[r].t else s1.clock);
    t := SeatReturned(c, s, s2, |s.runs|);
  }

  lemma LeadsAreOrderly(c: Config, s: State, t: State)
    requires Reachable(c, s) && WellFormed(s) && Leads(c, s, t)
    ensures Orderly(t) && Delivered(t)
  {
    LeadsOn(c, Initial(c), s, t);
    OrderlyReachable(c, t);
    TimelyReachable(c, t);
  }

  /** The exact condition, from any reachable state on, under which a pending reservation can be paid for and
      nevertheless lose its status or its seat. */
  lemma PaidAndLostIff(c: Config, s: State, r: nat)
    requires Reachable(c, s) && WellFormed(s) && r < |s.store.rows| && s.store.rows[r].status.PendingPayment?
    ensures (exists t :: Leads(c, s, t) && PaidAndLost(t, r)) <==> Losable(s, r)
  {
    OrderlyReachable(c, s);
    assert PaidApart(s, r);
    if Losable(s, r) {
      var t := PaidThenLost(c, s, r);
    } else {
      assert Immune(s, r);
      forall t | Leads(c, s, t) ensures !PaidAndLost(t, r) {
        var acts :| LeadsTo(c, s, acts, t);
        ImmuneForGood(c, s, acts, r);
        LeadsAreOrderly(c, s, t);
        ImmuneIsNotLost(t, r);
      }
    }
  }

  // ---------- Windows of exactly half the life of a lock ----------

  lemma {:induction false} LongestAtMost(runs: seq<ExpiryRun>, now: Time, most: Time)
    requires most >= 0
    requires forall j :: 0 <= j < |runs| && InWindow(runs[j]) ==> now - runs[j].readAt <= most
    ensures Longest(runs, now) <= most
  {
    if runs == [] {
    } else {
      LongestAtMost(runs[..|runs| - 1], now, most);
    }
  }

  /** No run but perhaps run `j` is between its read and its status write. */
  ghost predicate AloneInWindow(runs: seq<ExpiryRun>, j: nat) {
    forall k :: 0 <= k < |runs| && k != j ==> !InWindow(runs[k])
  }

  lemma QuietWait(c: Config, o: State, s: State, until: Time) returns (t: State)
    requires WellFormed(o) && Leads(c, o, s) && WellFormed(s) && AloneInWindow(s.runs, |s.runs|) && s.log.window >= 0
    ensures Leads(c, o, t) && WellFormed(t) && t == s.(clock := Max(s.clock, until))
  {
    t := Waited(c, o, s, until);
    LongestIs(s.runs, t.clock);
    LongestAtMost(s.runs, t.clock, 0);
  }

  /** Half the life of a lock passes with one run in its window, which it entered just now. */
  lemma HalfLockPasses(c: Config, o: State, s: State, j: nat) returns (t: State)
    requires WellFormed(o) && Leads(c, o, s) && WellFormed(s)
    requires j < |s.runs| && AloneInWindow(s.runs, j) && s.runs[j].readAt == s.clock
    ensures Leads(c, o, t) && WellFormed(t)
    ensures t == s.(clock := s.clock + HALF_LOCK, log := s.log.(window := t.log.window))
    ensures s.log.window <= t.log.window <= Max(s.log.window, HALF_LOCK)
  {
    t := Waited(c, o, s, s.clock + HALF_LOCK);
    LongestAtMost(s.runs, t.clock, HALF_LOCK);
  }

  predicate ReleasedMore(m: Note, n: Note, k: nat) { n.releases == m.releases + k && n.refunds == m.refunds }

  /** Expiry runs worked on row `r`, and nothing else happened. */
  predicate OnlyExpiry(s: State, t: State, r: nat) {
    && r < |s.store.rows| == |t.store.rows| && t.batches == s.batches
    && t.store == s.store.(seats := t.store.seats, locks := t.store.locks, rows := t.store.rows)
    && t.store.rows == s.store.rows[r := s.store.rows[r].(status := t.store.rows[r].status)]
    && |t.notes| == |s.notes| && forall k :: 0 <= k < |s.notes| && k != r ==> t.notes[k] == s.notes[k]
  }

  lemma ReturnedAlone(c: Config, o: State, s: State, j: nat) returns (t: State)
    requires WellFormed(o) && Leads(c, o, s) && WellFormed(s) && j < |s.runs| && AloneInWindow(s.runs, j)
    requires s.runs[j].alive && s.runs[j].pc.TakeLock? && !LockHeld(s.store.locks, s.runs[j].row, s.clock)
    ensures Leads(c, o, t) && WellFormed(t) && t == s.(store := t.store, runs := t.runs, notes := t.notes)
    ensures |t.runs| == |s.runs| && t.runs[j] == s.runs[j].(pc := MarkRow) && AloneInWindow(t.runs, j)
    ensures var r := s.runs[j].row;
            && t.store == s.store.(seats := s.store.seats + 1, locks := s.store.locks[r := Until(s.clock + LOCK_TTL)])
            && OnlyExpiry(s, t, r) && ReleasedMore(s.notes[r], t.notes[r], 1)
  {
    t := SeatReturned(c, o, s, j);
  }

  /** A run reads the row as soon as its job is due. */
  lemma FirstRead(c: Config, o: State, s: State, r: nat) returns (t: State)
    requires WellFormed(o) && Leads(c, o, s) && WellFormed(s)
    requires r < |s.store.rows| && s.store.rows[r].status.PendingPayment? && r in s.store.jobs
    requires AloneInWindow(s.runs, |s.runs|) && s.log.window >= 0
    ensures Leads(c, o, t) && WellFormed(t) && t == s.(clock := t.clock, runs := t.runs)
    ensures t.clock == Max(s.clock, s.store.jobs[r]) && |t.runs| == |s.runs| + 1
    ensures t.runs[|s.runs|] == ExpiryRun(r, t.clock, TakeLock, true) && AloneInWindow(t.runs, |s.runs|)
  {
    var s1 := QuietWait(c, o, s, s.store.jobs[r]);
    t := RunStarts(c, o, s1, r);
  }

  /** A run returns the seat in the millisecond in which it read the row. */
  lemma FirstRelease(c: Config, o: State, s: State, r: nat) returns (t: State)
    requires WellFormed(o) && Leads(c, o, s) && WellFormed(s)
    requires r < |s.store.rows| && s.store.rows[r].status.PendingPayment? && r in s.store.jobs
    requires r !in s.store.locks && AloneInWindow(s.runs, |s.runs|) && s.log.window >= 0
    ensures Leads(c, o, t) && WellFormed(t) && t.log == s.log && t.clock == Max(s.clock, s.store.jobs[r])
    ensures t.store.rows == s.store.rows && t.store.seats == s.store.seats + 1 && OnlyExpiry(s, t, r)
    ensures r in t.store.locks && t.store.locks[r] == Until(t.clock + LOCK_TTL)
    ensures |t.notes| == |s.notes| && ReleasedMore(s.notes[r], t.notes[r], 1)
    ensures |t.runs| == |s.runs| + 1 && t.runs[|s.runs|] == ExpiryRun(r, t.clock, MarkRow, true)
    ensures AloneInWindow(t.runs, |s.runs|)
  {
    var s1 := FirstRead(c, o, s, r);
    t := ReturnedAlone(c, o, s1, |s.runs|);
  }

  /** Half the life of the lock later another run reads the row, in the millisecond in which the first marks it. */
  lemma SecondRead(c: Config, o: State, s: State, j: nat, r: nat) returns (t: State)
    requires WellFormed(o) && Leads(c, o, s) && WellFormed(s) && j < |s.runs| && AloneInWindow(s.runs, j)
    requires s.runs[j] == ExpiryRun(r, s.clock, MarkRow, true) && s.store.rows[r].status.PendingPayment?
    requires r in s.store.jobs && s.clock >= s.store.jobs[r]
    ensures Leads(c, o, t) && WellFormed(t) && t.clock == s.clock + HALF_LOCK && t.notes == s.notes
    ensures t.store.locks == s.store.locks && t.store.seats == s.store.seats && OnlyExpiry(s, t, r)
    ensures t.log == s.log.(window := t.log.window) && s.log.window <= t.log.window <= Max(s.log.window, HALF_LOCK)
    ensures |t.runs| == |s.runs| + 1 && t.runs[|s.runs|] == ExpiryRun(r, t.clock, TakeLock, true)
    ensures AloneInWindow(t.runs, |s.runs|)
  {
    var s1 := HalfLockPasses(c, o, s, j);
    var s2 := RunStarts(c, o, s1, r);
    t := RowMarked(c, o, s2, j);
    assert AloneInWindow(t.runs, |s.runs|);
  }

  lemma RowMarked(c: Config, o: State, s: State, j: nat) returns (t: State)
    requires WellFormed(o) && Leads(c, o, s) && WellFormed(s)
    requires j < |s.runs| && s.runs[j].alive && s.runs[j].pc.MarkRow?
    ensures Leads(c, o, t) && WellFormed(t) && t == s.(store := s.store.(rows := t.store.rows), runs := t.runs)
    ensures OnlyExpiry(s, t, s.runs[j].row) && t.store.rows[s.runs[j].row].status.Expired?
    ensures |t.runs| == |s.runs| && !InWindow(t.runs[j])
    ensures forall k :: 0 <= k < |s.runs| && k != j ==> t.runs[k] == s.runs[k]
  {
    StepLeads(c, o, s, RunStep(j, true));
    t := Apply(c, s, RunStep(j, true));
  }

  /** The seat is back once, half the life of the lock is over, and another run has read the row as pending. */
  lemma ReleasedAndReadAgain(c: Config, o: State, s: State, r: nat) returns (t: State)
    requires WellFormed(o) && Leads(c, o, s) && WellFormed(s)
    requires r < |s.store.rows| && s.store.rows[r].status.PendingPayment? && r in s.store.jobs
    requires r !in s.store.locks && AloneInWindow(s.runs, |s.runs|) && s.log.window >= 0
    ensures Leads(c, o, t) && WellFormed(t) && OnlyExpiry(s, t, r)
    ensures t.clock == Max(s.clock, s.store.jobs[r]) + HALF_LOCK
    ensures ReleasedMore(s.notes[r], t.notes[r], 1) && t.store.seats == s.store.seats + 1
    ensures r in t.store.locks && t.store.locks[r] == Until(t.clock + HALF_LOCK)
    ensures t.log == s.log.(window := t.log.window) && s.log.window <= t.log.window <= Max(s.log.window, HALF_LOCK)
    ensures t.runs != [] && t.runs[|t.runs| - 1] == ExpiryRun(r, t.clock, TakeLock, true)
    ensures AloneInWindow(t.runs, |t.runs| - 1)
  {
    var s1 := FirstRelease(c, o, s, r);
    t := SecondRead(c, o, s1, |s.runs|, r);
  }

  /** From every state with an unclaimed pending reservation and nobody in a window: two windows of exactly half
      the life of a lock suffice to return its seat twice. */
  lemma HalfLockReleasesTwice(c: Config, o: State, s: State, r: nat) returns (t: State)
    requires WellFormed(o) && Leads(c, o, s) && WellFormed(s)
    requires r < |s.store.rows| && s.store.rows[r].status.PendingPayment? && r in s.store.jobs
    requires r !in s.store.locks && AloneInWindow(s.runs, |s.runs|) && s.log.window >= 0
    ensures Leads(c, o, t) && WellFormed(t) && OnlyExpiry(s, t, r) && ReleasedMore(s.notes[r], t.notes[r], 2)
    ensures t.clock == Max(s.clock, s.store.jobs[r]) + LOCK_TTL
    ensures t.runs != [] && t.runs[|t.runs| - 1] == ExpiryRun(r, t.clock - HALF_LOCK, MarkRow, true)
    ensures AloneInWindow(t.runs, |t.runs| - 1)
    ensures t.store.seats == s.store.seats + 2 && t.log == s.log.(window := t.log.window)
    ensures s.log.window <= t.log.window <= Max(s.log.window, HALF_LOCK)
  {
    var s1 := ReleasedAndReadAgain(c, o, s, r);
    var s2 := HalfLockPasses(c, o, s1, |s1.runs| - 1);
    t := ReturnedAlone(c, o, s2, |s1.runs| - 1);
  }
}
