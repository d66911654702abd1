/** Whether a seat can still be had: by what is under way, by an expiry yet to come, or never again. */
module SeatsToCome {
  import opened Domain
  import opened Counting
  import opened Protocol
  import opened ReleaseOnce
  import opened PaidOrReleased
  import opened SinglePromotion
  import opened ExpiryHazards

  /** A batch about to put a seat back. */
  function PutsBack(b: Batch): int { if Working(b) && (b.pc.Undo? || b.pc.Refund?) then 1 else 0 }

  /** The lock has no time to live, and nobody is about to give it one. */
  ghost predicate Jammed(s: State, r: nat) {
    && r in s.store.locks && s.store.locks[r].NoTtl?
    && forall j :: 0 <= j < |s.runs| && s.runs[j].alive && s.runs[j].pc.SetLockTtl? ==> s.runs[j].row != r
  }

  ghost function JammedRows(s: State): set<nat> { set r | r in s.store.locks && Jammed(s, r) }

  /** An expiry run that can still return a seat: it holds the lock, or waits for one that is not jammed. */
  predicate WillReturn(x: ExpiryRun, jammed: set<nat>) {
    x.alive && (x.pc.SetLockTtl? || x.pc.ReturnSeat? || (x.pc.TakeLock? && x.row !in jammed))
  }

  function Brings(jammed: set<nat>): ExpiryRun -> int { (x: ExpiryRun) => if WillReturn(x, jammed) then 1 else 0 }

  /** The counter after everything under way has put back what it can. */
  ghost function SeatsUnderWay(s: State): int {
    s.store.seats + Sum(s.batches, PutsBack) + Sum(s.runs, Brings(JammedRows(s)))
  }

  /** Row `r` is pending, and expiry can return its seat, again and again. */
  ghost predicate CanExpire(s: State, r: nat) {
    && r < |s.store.rows| && s.store.rows[r].status.PendingPayment? && !Jammed(s, r)
    && (r in s.store.jobs || AddsJob(s, r))
  }

  ghost predicate AddsJob(s: State, r: nat) {
    exists i :: 0 <= i < |s.batches| && Working(s.batches[i]) && s.batches[i].pc.AddJob? && s.batches[i].pc.row == r
  }

  /** A batch holds a seat for which it is about to save a row. */
  predicate AboutToSave(b: Batch) { Working(b) && (b.pc.Stamp? || b.pc.SaveRow?) }

  ghost predicate SeatObtainable(s: State) {
    || SeatsUnderWay(s) >= 1
    || (exists r :: CanExpire(s, r))
    || (exists i :: 0 <= i < |s.batches| && AboutToSave(s.batches[i]))
  }

  // ---------- Never again ----------

  lemma {:induction false} MoreJammed(runs: seq<ExpiryRun>, jammed: set<nat>, jammed': set<nat>)
    requires jammed <= jammed'
    ensures Sum(runs, Brings(jammed')) <= Sum(runs, Brings(jammed))
  {
    if runs == [] {
    } else {
      MoreJammed(runs[..|runs| - 1], jammed, jammed');
    }
  }

  lemma UnderWayNonNegative(s: State)
    ensures Sum(s.batches, PutsBack) >= 0 && Sum(s.runs, Brings(JammedRows(s))) >= 0
  {
    SumNonNegative(s.batches, PutsBack);
    SumNonNegative(s.runs, Brings(JammedRows(s)));
  }

  lemma StepKeepsJammed(c: Config, s: State, a: Action, r: nat)
    requires WellFormed(s) && Enabled(s, a) && r < |s.notes| && Jammed(s, r)
    ensures Jammed(Apply(c, s, a), r)
  {
    match a
    case BatchStep(i, ok) => BatchFrameLocks(s, s.batches[i], ok);
    case RunStep(j, ok) => RunFrame(s, s.runs[j], ok);
    case _ =>
  }

  lemma JamsStay(c: Config, s: State, a: Action)
    requires WellFormed(s) && Enabled(s, a) && LocksKept(s)
    ensures JammedRows(s) <= JammedRows(Apply(c, s, a))
  {
    forall r | r in JammedRows(s) ensures r in JammedRows(Apply(c, s, a)) { StepKeepsJammed(c, s, a, r); }
  }

  lemma BatchDoesPutBack(s: State, b: Batch, ok: bool)
    requires Working(b) && s.store.seats < 1 && !AboutToSave(b)
    ensures var e := BatchDoes(s, b, ok);
            && !AboutToSave(e.batch)
            && (e.log.broken == s.log.broken ==> e.store.seats + PutsBack(e.batch) <= s.store.seats + PutsBack(b))
            && e.store.rows == s.store.rows && e.log.broken >= s.log.broken
  {
    BatchFrameSaved(s, b, ok);
  }

  lemma BatchStepUnderWay(c: Config, s: State, i: nat, ok: bool)
    requires WellFormed(s) && Enabled(s, BatchStep(i, ok)) && LocksKept(s) && !SeatObtainable(s)
    requires Apply(c, s, BatchStep(i, ok)).log.broken == s.log.broken
    ensures SeatsUnderWay(Apply(c, s, BatchStep(i, ok))) <= SeatsUnderWay(s)
    ensures Apply(c, s, BatchStep(i, ok)).store.rows == s.store.rows
    ensures forall k :: 0 <= k < |s.batches| ==> !AboutToSave(Apply(c, s, BatchStep(i, ok)).batches[k])
  {
    var t := Apply(c, s, BatchStep(i, ok));
    UnderWayNonNegative(s);
    BatchDoesPutBack(s, s.batches[i], ok);
    SumUpdate(s.batches, i, t.batches[i], PutsBack);
    JamsStay(c, s, BatchStep(i, ok));
    MoreJammed(s.runs, JammedRows(s), JammedRows(t));
  }

  lemma RunDoesReturn(s: State, x: ExpiryRun, ok: bool, jammed: set<nat>)
    requires x.row < |s.store.rows| && x.row < |s.notes| && x.alive
    requires x.row in jammed ==> LockHeld(s.store.locks, x.row, s.clock)
    requires x.pc.ReadRow? && s.store.rows[x.row].status.PendingPayment? ==> x.row in jammed
    ensures var e := RunDoes(s, x, ok);
            e.store.seats + Brings(jammed)(e.run) <= s.store.seats + Brings(jammed)(x)
  {
    match x.pc
    case ReadRow =>
    case TakeLock =>
    case SetLockTtl =>
    case ReturnSeat =>
    case MarkRow =>
    case MarkEntry =>
    case DeleteKey =>
    case UncountKey =>
    case RunOver(_) =>
  }

  lemma RunStepUnderWay(c: Config, s: State, j: nat, ok: bool)
    requires WellFormed(s) && Enabled(s, RunStep(j, ok)) && Orderly(s) && !SeatObtainable(s)
    ensures SeatsUnderWay(Apply(c, s, RunStep(j, ok))) <= SeatsUnderWay(s)
  {
    var x, t := s.runs[j], Apply(c, s, RunStep(j, ok));
    assert !CanExpire(s, x.row);
    RunDoesReturn(s, x, ok, JammedRows(s));
    SumUpdate(s.runs, j, t.runs[j], Brings(JammedRows(s)));
    JamsStay(c, s, RunStep(j, ok));
    MoreJammed(t.runs, JammedRows(s), JammedRows(t));
  }

  lemma BatchStepCannotExpire(c: Config, s: State, i: nat, ok: bool, r: nat)
    requires WellFormed(s) && Enabled(s, BatchStep(i, ok)) && !AboutToSave(s.batches[i]) && !CanExpire(s, r)
    requires Jammed(s, r) ==> Jammed(Apply(c, s, BatchStep(i, ok)), r)
    ensures !CanExpire(Apply(c, s, BatchStep(i, ok)), r)
  {
    var t := Apply(c, s, BatchStep(i, ok));
    BatchFrame(s, s.batches[i], ok);
    BatchMoves(s, s.batches[i], ok);
    assert s.batches[i].pc.AddJob? && s.batches[i].pc.row == r ==> AddsJob(s, r);
    if AddsJob(t, r) {
      var k :| 0 <= k < |t.batches| && Working(t.batches[k]) && t.batches[k].pc.AddJob? && t.batches[k].pc.row == r;
      assert s.batches[k].pc == t.batches[k].pc;
    }
  }

  lemma RunStepCannotExpire(c: Config, s: State, j: nat, ok: bool, r: nat)
    requires WellFormed(s) && Enabled(s, RunStep(j, ok)) && !CanExpire(s, r)
    requires Jammed(s, r) ==> Jammed(Apply(c, s, RunStep(j, ok)), r)
    ensures !CanExpire(Apply(c, s, RunStep(j, ok)), r)
  {
    RunFrameRows(s, s.runs[j], ok);
    assert AddsJob(Apply(c, s, RunStep(j, ok)), r) ==> AddsJob(s, r);
  }

  lemma QuietCannotExpire(c: Config, s: State, a: Action, r: nat)
    requires WellFormed(s) && Enabled(s, a) && !a.BatchStep? && !a.RunStep? && !CanExpire(s, r)
    requires Jammed(s, r) ==> Jammed(Apply(c, s, a), r)
    ensures !CanExpire(Apply(c, s, a), r)
  {
    var t := Apply(c, s, a);
    if AddsJob(t, r) {
      var k :| 0 <= k < |t.batches| && Working(t.batches[k]) && t.batches[k].pc.AddJob? && t.batches[k].pc.row == r;
      assert s.batches[k] == t.batches[k];
    }
  }

  /** More batches or runs that bring nothing. */
  lemma OpenUnderWay(c: Config, s: State)
    ensures SeatsUnderWay(StartBatch(c, s)) == SeatsUnderWay(s)
  {
    SumAppend(s.batches, StartBatch(c, s).batches[|s.batches|], PutsBack);
    assert JammedRows(StartBatch(c, s)) == JammedRows(s);
  }

  lemma DeliveryUnderWay(c: Config, s: State, job: nat)
    requires WellFormed(s) && Enabled(s, Deliver(job)) && LocksKept(s)
    ensures SeatsUnderWay(Apply(c, s, Deliver(job))) <= SeatsUnderWay(s)
  {
    var t := Apply(c, s, Deliver(job));
    JamsStay(c, s, Deliver(job));
    MoreJammed(t.runs, JammedRows(s), JammedRows(t));
    SumAppend(s.runs, t.runs[|s.runs|], Brings(JammedRows(s)));
  }

  lemma QuietUnderWay(c: Config, s: State, a: Action)
    requires WellFormed(s) && Enabled(s, a) && !a.BatchStep? && !a.RunStep? && LocksKept(s)
    ensures SeatsUnderWay(Apply(c, s, a)) <= SeatsUnderWay(s)
  {
    if a.OpenBatch? {
      OpenUnderWay(c, s);
    } else if a.Deliver? {
      DeliveryUnderWay(c, s, a.job);
    } else {
      assert JammedRows(Apply(c, s, a)) == JammedRows(s);
    }
  }

  /** Same users, row by row. */
  predicate SameRows(s: State, t: State) {
    |t.store.rows| == |s.store.rows|
    && forall r :: 0 <= r < |s.store.rows| ==> t.store.rows[r].user == s.store.rows[r].user
  }

  /** What one step does when no seat can be had. */
  lemma StepObtainsNothing(c: Config, s: State, a: Action)
    requires WellFormed(s) && Enabled(s, a) && Orderly(s) && !SeatObtainable(s)
    requires Apply(c, s, a).log.broken == s.log.broken
    ensures SeatsUnderWay(Apply(c, s, a)) <= SeatsUnderWay(s) && SameRows(s, Apply(c, s, a))
    ensures forall i :: 0 <= i < |Apply(c, s, a).batches| ==> !AboutToSave(Apply(c, s, a).batches[i])
  {
    match a
    case BatchStep(i, ok) => BatchStepUnderWay(c, s, i, ok);
    case RunStep(j, ok) => RunStepUnderWay(c, s, j, ok); RunFrameRows(s, s.runs[j], ok);
    case _ => QuietUnderWay(c, s, a); QuietSavesNothing(c, s, a);
  }

  lemma QuietSavesNothing(c: Config, s: State, a: Action)
    requires WellFormed(s) && Enabled(s, a) && !a.BatchStep? && !a.RunStep?
    requires forall i :: 0 <= i < |s.batches| ==> !AboutToSave(s.batches[i])
    ensures SameRows(s, Apply(c, s, a))
    ensures forall i :: 0 <= i < |Apply(c, s, a).batches| ==> !AboutToSave(Apply(c, s, a).batches[i])
  {}

  lemma StepKeepsUnobtainable(c: Config, s: State, a: Action)
    requires WellFormed(s) && Enabled(s, a) && Orderly(s) && !SeatObtainable(s)
    requires Apply(c, s, a).log.broken == s.log.broken
    ensures !SeatObtainable(Apply(c, s, a)) && SameRows(s, Apply(c, s, a))
  {
    StepObtainsNothing(c, s, a);
    forall r: nat ensures !CanExpire(Apply(c, s, a), r) {
      assert !CanExpire(s, r);
      if Jammed(s, r) { StepKeepsJammed(c, s, a, r); }
      match a {
        case BatchStep(i, ok) => BatchStepCannotExpire(c, s, i, ok, r);
        case RunStep(j, ok) => RunStepCannotExpire(c, s, j, ok, r);
        case _ => QuietCannotExpire(c, s, a, r);
      }
    }
  }

  lemma {:induction false} UnobtainableForGood(c: Config, s: State, acts: seq<Action>)
    requires WellFormed(s) && Orderly(s) && !SeatObtainable(s) && Schedule(c, s, acts)
    requires After(c, s, acts).log.broken == s.log.broken
    ensures !SeatObtainable(After(c, s, acts)) && SameRows(s, After(c, s, acts))
    decreases |acts|
  {
    if acts == [] {
    } else {
      var before, a := After(c, s, acts[..|acts| - 1]), acts[|acts| - 1];
      BrokenStays(c, s, acts[..|acts| - 1]);
      BrokenGrows(c, before, a);
      UnobtainableForGood(c, s, acts[..|acts| - 1]);
      OrderlyAlways(c, s, acts[..|acts| - 1]);
      StepKeepsUnobtainable(c, before, a);
    }
  }

  lemma {:induction false} BrokenStays(c: Config, s: State, acts: seq<Action>)
    requires WellFormed(s) && Schedule(c, s, acts)
    ensures After(c, s, acts).log.broken >= s.log.broken
    decreases |acts|
  {
    if acts == [] {
    } else {
      BrokenStays(c, s, acts[..|acts| - 1]);
      BrokenGrows(c, After(c, s, acts[..|acts| - 1]), acts[|acts| - 1]);
    }
  }

  // ---------- Seats that can be had ----------

  /** Neither about to put a seat back nor to add a job. */
  predicate Uninvolved(b: Batch) { PutsBack(b) == 0 && !b.pc.AddJob? }

  /** Rows and queue stay, no promotion breaks off, and batches that put nothing back and add no job stay where they
      are. */
  ghost predicate Undisturbed(s: State, t: State) {
    && t.store.rows == s.store.rows && t.store.queue == s.store.queue && t.log.broken == s.log.broken
    && |t.batches| == |s.batches|
    && forall i :: 0 <= i < |s.batches| && Uninvolved(s.batches[i]) ==> t.batches[i] == s.batches[i]
  }

  ghost predicate MoreToCome(s: State) { SeatsUnderWay(s) >= 1 || exists r :: CanExpire(s, r) }

  lemma BatchBrings(c: Config, o: State, s: State, i: nat) returns (t: State)
    requires WellFormed(o) && Leads(c, o, s) && WellFormed(s) && i < |s.batches| && PutsBack(s.batches[i]) == 1
    ensures Leads(c, o, t) && WellFormed(t) && Undisturbed(s, t) && t.store.seats == s.store.seats + 1
    ensures t.batches == s.batches[i := t.batches[i]] && PutsBack(t.batches[i]) == 0
    ensures t.runs == s.runs && t.store.locks == s.store.locks
  {
    StepLeads(c, o, s, BatchStep(i, true));
    BatchFrameRows(s, s.batches[i], true);
    BatchFrameLocks(s, s.batches[i], true);
    t := Apply(c, s, BatchStep(i, true));
  }

  lemma BatchBringsMore(s: State, t: State, i: nat)
    requires i < |s.batches| && PutsBack(s.batches[i]) == 1
    requires |t.batches| == |s.batches| && t.batches == s.batches[i := t.batches[i]] && PutsBack(t.batches[i]) == 0
    requires t.store.seats == s.store.seats + 1 && t.runs == s.runs && t.store.locks == s.store.locks
    ensures SeatsUnderWay(t) == SeatsUnderWay(s)
  {
    SumUpdate(s.batches, i, t.batches[i], PutsBack);
    assert JammedRows(t) == JammedRows(s);
  }

  /** A run that holds the lock, or finds it free after some time, returns the seat. */
  lemma RunBrings(c: Config, o: State, s: State, j: nat) returns (t: State)
    requires WellFormed(o) && Leads(c, o, s) && WellFormed(s) && j < |s.runs| && s.runs[j].alive
    requires
      || Releasing(s.runs[j], s.runs[j].row)
      || (s.runs[j].pc.TakeLock? && (s.runs[j].row in s.store.locks ==> s.store.locks[s.runs[j].row].Until?))
    ensures Leads(c, o, t) && WellFormed(t) && SeatIsBack(s, t, s.runs[j].row)
    ensures |t.runs| == |s.runs| && t.runs[j] == s.runs[j].(pc := MarkRow)
    ensures forall k :: 0 <= k < |s.runs| && k != j ==> t.runs[k] == s.runs[k]
    ensures s.runs[j].pc.ReturnSeat? ==> t.store.locks == s.store.locks
    ensures !s.runs[j].pc.ReturnSeat? ==> s.runs[j].row in t.store.locks && t.store.locks[s.runs[j].row].Until?
    ensures t.store.locks - {s.runs[j].row} == s.store.locks - {s.runs[j].row}
  {
    if s.runs[j].pc.TakeLock? {
      var r := s.runs[j].row;
      var s1 := Waited(c, o, s, if r in s.store.locks then s.store.locks[r].t else s.clock);
      t := SeatReturned(c, o, s1, j);
    } else {
      t := SeatGoesBack(c, o, s, j);
    }
  }

  lemma SameJams(s: State, t: State, j: nat)
    requires j < |s.runs| == |t.runs| && t.runs[j] == s.runs[j].(pc := MarkRow)
    requires forall k :: 0 <= k < |s.runs| && k != j ==> t.runs[k] == s.runs[k]
    requires t.store.locks - {s.runs[j].row} == s.store.locks - {s.runs[j].row}
    requires s.runs[j].pc.ReturnSeat? ==> t.store.locks == s.store.locks
    requires !s.runs[j].pc.ReturnSeat? ==>
      s.runs[j].row in t.store.locks && t.store.locks[s.runs[j].row].Until? && !Jammed(s, s.runs[j].row)
    ensures forall r :: Jammed(t, r) <==> Jammed(s, r)
    ensures JammedRows(t) == JammedRows(s)
  {
    forall r ensures Jammed(t, r) <==> Jammed(s, r) {
      assert r != s.runs[j].row ==> (r in t.store.locks <==> r in t.store.locks - {s.runs[j].row});
      assert r != s.runs[j].row ==> (r in s.store.locks <==> r in s.store.locks - {s.runs[j].row});
      if r == s.runs[j].row && s.runs[j].pc.ReturnSeat? {
        assert forall k :: 0 <= k < |s.runs| && s.runs[k].pc.SetLockTtl? ==> t.runs[k] == s.runs[k];
      }
    }
  }

  lemma RunBringsMore(s: State, t: State, j: nat)
    requires j < |s.runs| == |t.runs| && WillReturn(s.runs[j], JammedRows(s))
    requires t.runs[j] == s.runs[j].(pc := MarkRow) && JammedRows(t) == JammedRows(s)
    requires forall k :: 0 <= k < |s.runs| && k != j ==> t.runs[k] == s.runs[k]
    requires t.store.seats == s.store.seats + 1 && t.batches == s.batches
    ensures SeatsUnderWay(t) == SeatsUnderWay(s)
  {
    assert t.runs == s.runs[j := t.runs[j]];
    SumUpdate(s.runs, j, t.runs[j], Brings(JammedRows(s)));
  }

  /** One of the runs that can still return a seat is in a position to do so. */
  lemma NextToReturn(s: State, j: nat) returns (k: nat)
    requires j < |s.runs| && WillReturn(s.runs[j], JammedRows(s))
    ensures k < |s.runs| && WillReturn(s.runs[k], JammedRows(s)) && s.runs[k].row == s.runs[j].row
    ensures s.runs[k].pc.ReturnSeat? || !Jammed(s, s.runs[k].row)
    ensures s.runs[k].pc.TakeLock? && s.runs[k].row in s.store.locks ==> s.store.locks[s.runs[k].row].Until?
  {
    k := j;
    if s.runs[j].pc.TakeLock? && s.runs[j].row in s.store.locks && s.store.locks[s.runs[j].row].NoTtl? {
      assert !Jammed(s, s.runs[j].row);
      k :| 0 <= k < |s.runs| && s.runs[k].alive && s.runs[k].pc.SetLockTtl? && s.runs[k].row == s.runs[j].row;
    }
  }

  lemma RunUnderWayHad(c: Config, o: State, s: State, j: nat) returns (t: State)
    requires WellFormed(o) && Leads(c, o, s) && WellFormed(s)
    requires j < |s.runs| && WillReturn(s.runs[j], JammedRows(s))
    ensures Leads(c, o, t) && WellFormed(t) && Undisturbed(s, t) && t.store.seats == s.store.seats + 1
    ensures SeatsUnderWay(t) == SeatsUnderWay(s)
  {
    var k := NextToReturn(s, j);
    t := RunBrings(c, o, s, k);
    SameJams(s, t, k);
    RunBringsMore(s, t, k);
  }

  /** Something under way puts a seat back. */
  lemma UnderWayHad(c: Config, o: State, s: State) returns (t: State)
    requires WellFormed(o) && Leads(c, o, s) && WellFormed(s) && SeatsUnderWay(s) >= 1 && s.store.seats < 1
    ensures Leads(c, o, t) && WellFormed(t) && Undisturbed(s, t) && t.store.seats == s.store.seats + 1
    ensures SeatsUnderWay(t) == SeatsUnderWay(s)
  {
    if Sum(s.batches, PutsBack) > 0 {
      var i := SumPositive(s.batches, PutsBack);
      t := BatchBrings(c, o, s, i);
      BatchBringsMore(s, t, i);
    } else {
      var j := SumPositive(s.runs, Brings(JammedRows(s)));
      t := RunUnderWayHad(c, o, s, j);
    }
  }

  /** The job of row `r` is there, at the latest now. */
  lemma HasJob(c: Config, o: State, s: State, r: nat) returns (t: State)
    requires WellFormed(o) && Leads(c, o, s) && WellFormed(s) && CanExpire(s, r)
    ensures Leads(c, o, t) && WellFormed(t) && Undisturbed(s, t) && CanExpire(t, r) && r in t.store.jobs
    ensures t.store.seats == s.store.seats
  {
    t := s;
    if r !in s.store.jobs {
      var i :| 0 <= i < |s.batches| && Working(s.batches[i]) && s.batches[i].pc.AddJob? && s.batches[i].pc.row == r;
      t := JobAdded(c, o, s, i, r);
    }
  }

  /** Row `r` expires as far as the return of its seat, and stays pending. */
  lemma ExpiryBrings(c: Config, o: State, s: State, r: nat) returns (t: State)
    requires WellFormed(o) && Leads(c, o, s) && WellFormed(s) && CanExpire(s, r) && r in s.store.jobs
    ensures Leads(c, o, t) && WellFormed(t) && Undisturbed(s, t) && t.store.seats == s.store.seats + 1
    ensures CanExpire(t, r)
  {
    if r in s.store.locks && s.store.locks[r].NoTtl? {
      var j :| 0 <= j < |s.runs| && s.runs[j].alive && s.runs[j].pc.SetLockTtl? && s.runs[j].row == r;
      t := RunBrings(c, o, s, j);
    } else {
      var s1 := Waited(c, o, s, LockEnd(s, r));
      var s2 := RunStarts(c, o, s1, r);
      t := RunBrings(c, o, s2, |s.runs|);
    }
  }

  lemma OneMoreSeat(c: Config, o: State, s: State) returns (t: State)
    requires WellFormed(o) && Leads(c, o, s) && WellFormed(s) && MoreToCome(s) && s.store.seats < 1
    ensures Leads(c, o, t) && WellFormed(t) && Undisturbed(s, t) && t.store.seats == s.store.seats + 1 && MoreToCome(t)
  {
    if r :| CanExpire(s, r) {
      var s1 := HasJob(c, o, s, r);
      t := ExpiryBrings(c, o, s1, r);
    } else {
      t := UnderWayHad(c, o, s);
    }
  }

  /** If there is more to come, the counter can be brought to one. */
  lemma {:induction false} SeatHad(c: Config, o: State, s: State) returns (t: State)
    requires WellFormed(o) && Leads(c, o, s) && WellFormed(s) && (MoreToCome(s) || s.store.seats >= 1)
    ensures Leads(c, o, t) && WellFormed(t) && Undisturbed(s, t) && t.store.seats >= 1
    decreases 1 - s.store.seats
  {
    if s.store.seats >= 1 {
      t := s;
    } else {
      var s1 := OneMoreSeat(c, o, s);
      t := SeatHad(c, o, s1);
    }
  }
}
