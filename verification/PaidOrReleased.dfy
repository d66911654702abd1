/** A reservation is paid for or its seat goes back, never both, as long as its expiry job falls due
    strictly after it expires. */
module PaidOrReleased {
  import opened Domain
  import opened Counting
  import opened Operations
  import opened Protocol
  import opened SeatLedger
  import opened ReleaseOnce

  /** The job was added at least one millisecond after expiresAt was computed, so it is due strictly
      later than the last instant at which payment is accepted. */
  predicate Punctual(s: State, r: nat)
    requires r < |s.store.rows|
  {
    r in s.store.jobs ==> s.store.jobs[r] > s.store.rows[r].expiresAt
  }

  /** Past its read of a pending row and not refused the lock. */
  predicate Touching(x: ExpiryRun, r: nat) {
    x.row == r && !x.pc.ReadRow? && x.pc != RunOver(NotPending) && x.pc != RunOver(AlreadyProcessed)
  }

  ghost predicate PaidApart(s: State, r: nat)
    requires r < |s.store.rows| && r < |s.notes|
  {
    var row := s.store.rows[r];
    && !row.status.Canceled?
    && (row.status.Paid? ==> row.paidAt.Some?)
    && (row.paidAt.Some? ==> !row.status.PendingPayment?)
    && (Punctual(s, r) && row.paidAt.Some? ==>
          && row.status.Paid?
          && s.notes[r].acquires == 0
          && forall j :: 0 <= j < |s.runs| ==> !Touching(s.runs[j], r))
  }

  ghost predicate AllPaidApart(s: State) {
    |s.notes| == |s.store.rows| && forall r :: 0 <= r < |s.store.rows| ==> PaidApart(s, r)
  }

  /** Once a row has its job, neither the job nor the expiry time ever changes. */
  lemma JobStays(c: Config, s: State, a: Action, r: nat)
    requires WellFormed(s) && Enabled(s, a) && Timing(s) && r < |s.store.rows|
    ensures var s' := Apply(c, s, a);
            && r < |s'.store.rows|
            && s'.store.rows[r].expiresAt == s.store.rows[r].expiresAt
            && s'.store.rows[r].user == s.store.rows[r].user
            && (r in s.store.jobs ==> r in s'.store.jobs && s'.store.jobs[r] == s.store.jobs[r])
  {
    match a {
      case BatchStep(i, ok) => BatchFrame(s, s.batches[i], ok); assert BatchTimed(s, s.batches[i]);
      case RunStep(j, ok) => RunFrame(s, s.runs[j], ok);
      case _ =>
    }
  }

  /** Refunds are never taken back. */
  lemma RefundsStay(c: Config, s: State, a: Action, r: nat)
    requires WellFormed(s) && Enabled(s, a) && r < |s.notes|
    ensures var s' := Apply(c, s, a);
            && r < |s'.notes|
            && s'.notes[r].refunds >= s.notes[r].refunds
            && (a.BatchStep? && a.ok && s.batches[a.batch].pc.Refund? && Owns(s.batches[a.batch], r) ==>
                  s'.notes[r].refunds == s.notes[r].refunds + 1)
  {
    match a
    case BatchStep(i, ok) => BatchFrameRows(s, s.batches[i], ok); NotesKept(s, s.batches[i], ok);
    case RunStep(j, ok) => RunFrame(s, s.runs[j], ok);
    case _ =>
  }

  lemma BatchStepPaid(c: Config, s: State, i: nat, ok: bool)
    requires WellFormed(s) && Enabled(s, BatchStep(i, ok)) && Timing(s) && AllPaidApart(s)
    ensures AllPaidApart(Apply(c, s, BatchStep(i, ok)))
  {
    var s' := Apply(c, s, BatchStep(i, ok));
    BatchFrame(s, s.batches[i], ok);
    NotesKept(s, s.batches[i], ok);
    assert BatchTimed(s, s.batches[i]);
    forall r | 0 <= r < |s'.store.rows| ensures PaidApart(s', r) {
      if r < |s.store.rows| { assert PaidApart(s, r); }
    }
  }

  lemma RunStepPaid(c: Config, s: State, j: nat, ok: bool)
    requires WellFormed(s) && Enabled(s, RunStep(j, ok)) && AllPaidApart(s)
    ensures AllPaidApart(Apply(c, s, RunStep(j, ok)))
  {
    var s' := Apply(c, s, RunStep(j, ok));
    var x := s.runs[j];
    RunFrame(s, x, ok);
    forall r | 0 <= r < |s'.store.rows| ensures PaidApart(s', r) {
      assert PaidApart(s, r);
      assert Touching(s'.runs[j], r) ==> Touching(x, r) || s.store.rows[r].status.PendingPayment?;
    }
  }

  lemma PaymentPaid(c: Config, s: State, p: nat, u: UserId)
    requires WellFormed(s) && Timing(s) && AllPaidApart(s)
    ensures AllPaidApart(Apply(c, s, Settle(p, u)))
  {
    var s' := Apply(c, s, Settle(p, u));
    forall r | 0 <= r < |s'.store.rows| ensures PaidApart(s', r) {
      assert PaidApart(s, r);
    }
  }

  lemma StepKeepsPaid(c: Config, s: State, a: Action)
    requires WellFormed(s) && Enabled(s, a) && Timing(s) && AllPaidApart(s)
    ensures AllPaidApart(Apply(c, s, a))
  {
    match a
    case BatchStep(i, ok) => BatchStepPaid(c, s, i, ok);
    case RunStep(j, ok) => RunStepPaid(c, s, j, ok);
    case Settle(r, u) => PaymentPaid(c, s, r, u);
    case _ =>
      var s' := Apply(c, s, a);
      forall r | 0 <= r < |s'.store.rows| ensures PaidApart(s', r) { assert PaidApart(s, r); }
  }

  ghost predicate Orderly(s: State) { Timing(s) && LocksKept(s) && AllPaidApart(s) }

  lemma {:induction false} OrderlyAlways(c: Config, s: State, acts: seq<Action>)
    requires WellFormed(s) && Orderly(s) && Schedule(c, s, acts)
    ensures Orderly(After(c, s, acts))
    decreases |acts|
  {
    if acts == [] {
    } else {
      var before, a := After(c, s, acts[..|acts| - 1]), acts[|acts| - 1];
      OrderlyAlways(c, s, acts[..|acts| - 1]);
      StepKeepsTiming(c, before, a);
      StepKeepsLocks(c, before, a);
      StepKeepsPaid(c, before, a);
    }
  }

  lemma InitialOrderly(c: Config)
    ensures WellFormed(Initial(c)) && Orderly(Initial(c))
  {}

  lemma OrderlyReachable(c: Config, s: State)
    requires Reachable(c, s)
    ensures Orderly(s)
  {
    InitialOrderly(c);
    var acts :| LeadsTo(c, Initial(c), acts, s);
    OrderlyAlways(c, Initial(c), acts);
  }

  /** In every reachable state, with any faults: a reservation that was ever paid for is still PAID and its seat was
      never returned, by expiry or by a catch block, unless its job fell due in the very millisecond in which it
      expires, or its promotion broke off after its save. */
  lemma PaidExcludesReleased(c: Config, s: State, r: nat)
    requires Reachable(c, s) && r < |s.store.rows|
    ensures s.store.rows[r].paidAt.Some? ==>
              || (s.store.rows[r].status.Paid? && Returns(s.notes[r]) == 0)
              || (r in s.store.jobs && s.store.jobs[r] == s.store.rows[r].expiresAt)
              || s.notes[r].refunds == 1
  {
    OrderlyReachable(c, s);
    assert PaidApart(s, r) && LockHistory(s, r);
    SumNonNegative(s.runs, Owing(r));
  }

  /** Every return of a seat is backed by an acquisition of the lock or is the one refund of its promotion; a lock is
      taken again only after 3600 s, so while the first lock lives expiry returns the seat at most once, however many
      runs overlap, fail anywhere and are retried. */
  lemma AtMostOneReleasePerLockLife(c: Config, s: State, r: nat)
    requires Reachable(c, s) && r < |s.notes|
    ensures var n := s.notes[r];
            && Returns(n) <= n.acquires + n.refunds && n.refunds <= 1
            && (Returns(n) > 1 + n.refunds ==> s.clock >= n.firstLock + LOCK_TTL)
  {
    OrderlyReachable(c, s);
    assert LockHistory(s, r);
    SumNonNegative(s.runs, Owing(r));
  }
}
