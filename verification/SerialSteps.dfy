/** The two layers agree: a run whose steps nobody interleaves with has the effect of the whole operation. */
module SerialSteps {
  import opened Domain
  import opened WaitingQueue
  import opened Operations
  import opened Protocol

  /** The next command of batch `i`: accepted, unless it is the save of a row and `saved` is false. */
  function NextStep(s: State, i: nat, saved: bool): Action
    requires i < |s.batches|
  {
    BatchStep(i, saved || !s.batches[i].pc.SaveRow?)
  }

  /** `n` steps of batch `i` and of nobody else; all commands are accepted but, if so scripted, the save. */
  ghost function BatchAlone(c: Config, s: State, i: nat, saved: bool, n: nat): State
    requires WellFormed(s) && i < |s.batches|
    decreases n
  {
    if n == 0 || !Working(s.batches[i]) then s
    else
      ApplyWellFormed(c, s, NextStep(s, i, saved));
      BatchAlone(c, Apply(c, s, NextStep(s, i, saved)), i, saved, n - 1)
  }

  ghost function RunAlone(c: Config, s: State, j: nat, n: nat): State
    requires WellFormed(s) && j < |s.runs|
    decreases n
  {
    if n == 0 || !Enabled(s, RunStep(j, true)) then s
    else
      ApplyWellFormed(c, s, RunStep(j, true));
      RunAlone(c, Apply(c, s, RunStep(j, true)), j, n - 1)
  }

  lemma BatchAloneNext(c: Config, o: State, s: State, i: nat, saved: bool, n: nat) returns (t: State)
    requires WellFormed(o) && Leads(c, o, s) && WellFormed(s)
    requires i < |s.batches| && n > 0 && Working(s.batches[i])
    ensures Leads(c, o, t) && WellFormed(t) && |t.batches| == |s.batches|
    ensures BatchAlone(c, s, i, saved, n) == BatchAlone(c, t, i, saved, n - 1)
  {
    StepLeads(c, o, s, NextStep(s, i, saved));
    t := Apply(c, s, NextStep(s, i, saved));
  }

  lemma {:induction false} BatchAloneLeads(c: Config, o: State, s: State, i: nat, saved: bool, n: nat)
    requires WellFormed(o) && Leads(c, o, s) && WellFormed(s)
    requires i < |s.batches|
    ensures Leads(c, o, BatchAlone(c, s, i, saved, n)) && WellFormed(BatchAlone(c, s, i, saved, n))
    decreases n
  {
    if n == 0 || !Working(s.batches[i]) {
    } else {
      var t := BatchAloneNext(c, o, s, i, saved, n);
      BatchAloneLeads(c, o, t, i, saved, n - 1);
    }
  }

  lemma RunAloneNext(c: Config, o: State, s: State, j: nat, n: nat) returns (t: State)
    requires WellFormed(o) && Leads(c, o, s) && WellFormed(s) && n > 0 && Enabled(s, RunStep(j, true))
    ensures Leads(c, o, t) && WellFormed(t) && |t.runs| == |s.runs|
    ensures RunAlone(c, s, j, n) == RunAlone(c, t, j, n - 1)
  {
    StepLeads(c, o, s, RunStep(j, true));
    t := Apply(c, s, RunStep(j, true));
  }

  lemma {:induction false} RunAloneLeads(c: Config, o: State, s: State, j: nat, n: nat)
    requires WellFormed(o) && Leads(c, o, s) && WellFormed(s)
    requires j < |s.runs|
    ensures Leads(c, o, RunAlone(c, s, j, n)) && WellFormed(RunAlone(c, s, j, n))
    decreases n
  {
    if n == 0 || !Enabled(s, RunStep(j, true)) {
    } else {
      var t := RunAloneNext(c, o, s, j, n);
      RunAloneLeads(c, o, t, j, n - 1);
    }
  }

  /** `s` after the whole-operation promotion was carried out by batch `i`. */
  function AfterPromotion(s: State, i: nat, saved: bool): State
    requires i < |s.batches|
  {
    var (store, result) := Promote(s.store, s.clock, saved);
    match result
    case Promoted(_, _) =>
      s.(store := store, batches := s.batches[i := NextTurn(s.batches[i])], notes := s.notes + [Note(0, 0, 0, 0)],
         log := s.log.(granted := s.log.granted + 1))
    case SoldOut(_) =>
      s.(store := store, batches := s.batches[i := s.batches[i].(pc := BatchOver)],
         log := s.log.(denied := s.log.denied + 1))
    case SaveFailed(_) =>
      s.(store := store, batches := s.batches[i := s.batches[i].(pc := BatchOver)],
         log := s.log.(granted := s.log.granted + 1, refunded := s.log.refunded + 1))
    case NoUsersInQueue => s.(store := store, batches := s.batches[i := s.batches[i].(pc := BatchOver)])
  }

  /** Commands of an uninterrupted promotion. */
  function PromotionSteps(s: State, saved: bool): nat {
    if s.store.queue == [] then 1 else if s.store.seats >= 1 && saved then 9 else 5
  }

  function ViewOf(s: State, i: nat): BatchView
    requires i < |s.batches|
  {
    BatchView(s.batches[i], s.store, s.notes, s.log)
  }

  function Put(s: State, i: nat, v: BatchView): State
    requires i < |s.batches|
  {
    s.(batches := s.batches[i := v.batch], store := v.store, notes := v.notes, log := v.log)
  }

  function Next(now: Time, v: BatchView, saved: bool): BatchView {
    if saved || !v.batch.pc.SaveRow? then BatchAccepted(now, v) else BatchRejected(v)
  }

  /** `n` commands, one after the other, at one reading of the clock. */
  function Chain(now: Time, v: BatchView, saved: bool, n: nat): BatchView
    decreases n
  {
    if n == 0 || !Working(v.batch) then v else Chain(now, Next(now, v, saved), saved, n - 1)
  }

  /** A batch alone only ever rewrites its own view. */
  lemma {:induction false} AloneIsChain(c: Config, s: State, i: nat, v: BatchView, saved: bool, n: nat)
    requires i < |s.batches| && WellFormed(Put(s, i, v))
    ensures BatchAlone(c, Put(s, i, v), i, saved, n) == Put(s, i, Chain(s.clock, v, saved, n))
    decreases n
  {
    var t := Put(s, i, v);
    if n == 0 || !Working(v.batch) {
    } else {
      ApplyWellFormed(c, t, NextStep(t, i, saved));
      assert Apply(c, t, NextStep(t, i, saved)) == Put(s, i, Next(s.clock, v, saved));
      AloneIsChain(c, s, i, Next(s.clock, v, saved), saved, n - 1);
    }
  }

  lemma ChainStep(now: Time, v: BatchView, v': BatchView, saved: bool, n: nat)
    requires Working(v.batch) && n > 0 && v' == Next(now, v, saved)
    ensures Chain(now, v, saved, n) == Chain(now, v', saved, n - 1)
  {}

  /** From the head of the queue to a saved row. */
  function Reserved(now: Time, v: BatchView): BatchView
    requires v.store.queue != []
  {
    var u, st := v.store.queue[0].user, v.store;
    At(v, AddJob(u, |st.rows|)).(
      store := st.(seats := st.seats - 1,
                   rows := st.rows + [Reservation(u, PendingPayment, now + RESERVATION_TTL, None)]),
      notes := v.notes + [Note(0, 0, 0, 0)], log := v.log.(granted := v.log.granted + 1))
  }

  lemma GrantToRow(now: Time, v: BatchView, n: nat)
    requires Working(v.batch) && v.batch.pc.ReadHead? && v.store.queue != [] && v.store.seats >= 1 && n >= 4
    ensures Chain(now, v, true, n) == Chain(now, Reserved(now, v), true, n - 4)
  {
    var u, st := v.store.queue[0].user, v.store;
    var v2 := At(v, Stamp(u)).(store := st.(seats := st.seats - 1), log := v.log.(granted := v.log.granted + 1));
    ChainStep(now, v, At(v, Decrement(u)), true, n);
    ChainStep(now, At(v, Decrement(u)), v2, true, n - 1);
    ChainStep(now, v2, At(v2, SaveRow(u, now + RESERVATION_TTL)), true, n - 2);
    ChainStep(now, At(v2, SaveRow(u, now + RESERVATION_TTL)), Reserved(now, v), true, n - 3);
  }

  /** Job added, entry active, user off the queue. */
  function Dequeued(now: Time, v: BatchView, u: UserId, r: nat): BatchView {
    At(v, SetKey(u, r)).(store := v.store.(jobs := v.store.jobs[r := now + RESERVATION_TTL],
                                        entries := WithReservation(v.store.entries, u, r),
                                        queue := Remove(v.store.queue, u)))
  }

  lemma RowToDequeued(now: Time, v: BatchView, u: UserId, r: nat, n: nat)
    requires Working(v.batch) && v.batch.pc == AddJob(u, r) && n >= 3
    ensures Chain(now, v, true, n) == Chain(now, Dequeued(now, v, u, r), true, n - 3)
  {
    var v1 := At(v, MarkActive(u, r)).(store := v.store.(jobs := v.store.jobs[r := now + RESERVATION_TTL]));
    var v2 := At(v1, Dequeue(u, r)).(store := v1.store.(entries := WithReservation(v.store.entries, u, r)));
    ChainStep(now, v, v1, true, n);
    ChainStep(now, v1, v2, true, n - 1);
    ChainStep(now, v2, Dequeued(now, v, u, r), true, n - 2);
  }

  /** The view after an uninterrupted grant. */
  function Granted(now: Time, v: BatchView): BatchView
    requires v.store.queue != []
  {
    BatchView(NextTurn(v.batch), Grant(v.store, v.store.queue[0].user, now), v.notes + [Note(0, 0, 0, 0)],
              v.log.(granted := v.log.granted + 1))
  }

  /** From a saved row to the end of the promotion. */
  function Finished(now: Time, v: BatchView, u: UserId, r: nat): BatchView {
    var d := Dequeued(now, v, u, r);
    d.(batch := NextTurn(d.batch),
       store := d.store.(active := d.store.active[u := now + ACTIVE_USER_TTL], activeCount := d.store.activeCount + 1))
  }

  lemma RowToEnd(now: Time, v: BatchView, u: UserId, r: nat)
    requires Working(v.batch) && v.batch.pc == AddJob(u, r)
    ensures Chain(now, v, true, 5) == Finished(now, v, u, r)
  {
    var d := Dequeued(now, v, u, r);
    var k := At(d, CountKey(u, r)).(store := d.store.(active := d.store.active[u := now + ACTIVE_USER_TTL]));
    RowToDequeued(now, v, u, r, 5);
    ChainStep(now, d, k, true, 2);
    ChainStep(now, k, Finished(now, v, u, r), true, 1);
  }

  lemma GrantTail(now: Time, v: BatchView, w: BatchView, u: UserId)
    requires v.store.queue != [] && u == v.store.queue[0].user && Working(v.batch) && w == Reserved(now, v)
    ensures Chain(now, w, true, 5) == Granted(now, v)
  {
    RowToEnd(now, w, u, |v.store.rows|);
  }

  lemma GrantChain(now: Time, v: BatchView)
    requires Working(v.batch) && v.batch.pc.ReadHead? && v.store.queue != [] && v.store.seats >= 1
    ensures Chain(now, v, true, 9) == Granted(now, v)
  {
    GrantToRow(now, v, 9);
    GrantTail(now, v, Reserved(now, v), v.store.queue[0].user);
  }

  lemma SoldOutChain(now: Time, v: BatchView, saved: bool)
    requires Working(v.batch) && v.batch.pc.ReadHead? && v.store.queue != [] && v.store.seats < 1
    ensures Chain(now, v, saved, 5)
         == At(v, BatchOver).(store := Drop(v.store, v.store.queue[0].user), log := v.log.(denied := v.log.denied + 1))
  {
    var u := v.store.queue[0].user;
    ChainStep(now, v, At(v, Decrement(u)), saved, 5);
    DenialChain(now, At(v, Decrement(u)), u, saved);
  }

  lemma DenialChain(now: Time, v: BatchView, u: UserId, saved: bool)
    requires Working(v.batch) && v.batch.pc == Decrement(u) && v.store.seats < 1
    ensures Chain(now, v, saved, 4)
         == At(v, BatchOver).(store := Drop(v.store, u), log := v.log.(denied := v.log.denied + 1))
  {
    var v1 := At(v, Undo(u)).(store := v.store.(seats := v.store.seats - 1), log := v.log.(denied := v.log.denied + 1));
    var v2 := At(v, MarkSoldOut(u)).(log := v.log.(denied := v.log.denied + 1));
    ChainStep(now, v, v1, saved, 4);
    ChainStep(now, v1, v2, saved, 3);
    MarkedOut(now, v2, u, saved);
  }

  lemma MarkedOut(now: Time, v: BatchView, u: UserId, saved: bool)
    requires Working(v.batch) && v.batch.pc == MarkSoldOut(u)
    ensures Chain(now, v, saved, 2) == At(v, BatchOver).(store := Drop(v.store, u))
  {}

  lemma FailedSaveChain(now: Time, v: BatchView)
    requires Working(v.batch) && v.batch.pc.ReadHead? && v.store.queue != [] && v.store.seats >= 1
    ensures Chain(now, v, false, 5)
         == At(v, BatchOver).(log := v.log.(granted := v.log.granted + 1, refunded := v.log.refunded + 1))
  {}

  /** Undisturbed, the steps of promoteNextUser do exactly what the whole operation does, in every case. */
  lemma PromotionIsSerial(c: Config, s: State, i: nat, saved: bool)
    requires WellFormed(s) && i < |s.batches| && Working(s.batches[i]) && s.batches[i].pc.ReadHead?
    ensures BatchAlone(c, s, i, saved, PromotionSteps(s, saved)) == AfterPromotion(s, i, saved)
  {
    var v := ViewOf(s, i);
    assert Put(s, i, v) == s;
    AloneIsChain(c, s, i, v, saved, PromotionSteps(s, saved));
    if s.store.queue == [] {
      ChainStep(s.clock, v, At(v, BatchOver), saved, 1);
    } else if s.store.seats < 1 {
      SoldOutChain(s.clock, v, saved);
    } else if saved {
      GrantChain(s.clock, v);
    } else {
      FailedSaveChain(s.clock, v);
    }
  }

  /** A save that is rejected is undone: the catch returns the seat and nothing else has changed. */
  lemma FailedSaveIsUndone(c: Config, s: State, i: nat)
    requires WellFormed(s) && i < |s.batches| && Working(s.batches[i]) && s.batches[i].pc.SaveRow?
    ensures var s1 := Apply(c, s, BatchStep(i, false));
            && WellFormed(s1)
            && Apply(c, s1, BatchStep(i, true)).store == s.store.(seats := s.store.seats + 1)
            && Apply(c, s1, BatchStep(i, true)).batches[i].pc.BatchOver?
  {}

  // ---------- Expiry ----------

  function PutRun(s: State, j: nat, v: RunView): State
    requires j < |s.runs|
  {
    s.(runs := s.runs[j := v.run], store := v.store, notes := v.notes)
  }

  predicate InRange(v: RunView) { v.run.row < |v.store.rows| && v.run.row < |v.notes| }

  /** `n` accepted commands of an expiry run, one after the other, at one reading of the clock. */
  function RunChain(now: Time, v: RunView, n: nat): RunView
    requires InRange(v)
    decreases n
  {
    if n == 0 || !v.run.alive || v.run.pc.RunOver? then v else RunChain(now, RunAccepted(now, v), n - 1)
  }

  lemma {:induction false} RunAloneIsChain(c: Config, s: State, j: nat, v: RunView, n: nat)
    requires j < |s.runs| && WellFormed(PutRun(s, j, v)) && InRange(v)
    ensures RunAlone(c, PutRun(s, j, v), j, n) == PutRun(s, j, RunChain(s.clock, v, n))
    decreases n
  {
    var t := PutRun(s, j, v);
    if n == 0 || !v.run.alive || v.run.pc.RunOver? {
    } else {
      ApplyWellFormed(c, t, RunStep(j, true));
      assert Apply(c, t, RunStep(j, true)) == PutRun(s, j, RunAccepted(s.clock, v));
      RunAloneIsChain(c, s, j, RunAccepted(s.clock, v), n - 1);
    }
  }

  lemma RunChainStep(now: Time, v: RunView, v': RunView, n: nat)
    requires InRange(v) && v.run.alive && !v.run.pc.RunOver? && n > 0 && v' == RunAccepted(now, v)
    ensures RunChain(now, v, n) == RunChain(now, v', n - 1)
  {}

  /** The run once it holds the lock and has returned the seat. */
  function SeatBack(now: Time, v: RunView): RunView
    requires InRange(v)
  {
    var st, r := v.store, v.run.row;
    To(v, MarkRow).(store := st.(locks := st.locks[r := Until(now + LOCK_TTL)], seats := st.seats + 1),
                    notes := v.notes[r := Released(Acquired(v.notes[r], now))])
  }

  lemma LockToSeatBack(now: Time, v: RunView, n: nat)
    requires n >= 3
    requires InRange(v) && v.run.alive && v.run.pc.TakeLock? && !LockHeld(v.store.locks, v.run.row, now)
    ensures RunChain(now, v, n) == RunChain(now, SeatBack(now, v), n - 3)
  {
    var st, r := v.store, v.run.row;
    var n1 := v.notes[r := Acquired(v.notes[r], now)];
    var v1 := To(v, SetLockTtl).(store := st.(locks := st.locks[r := NoTtl]), notes := n1);
    var v2 := To(v, ReturnSeat).(store := st.(locks := st.locks[r := Until(now + LOCK_TTL)]), notes := n1);
    assert st.locks[r := NoTtl][r := Until(now + LOCK_TTL)] == st.locks[r := Until(now + LOCK_TTL)];
    assert n1[r := Released(n1[r])] == v.notes[r := Released(Acquired(v.notes[r], now))];
    RunChainStep(now, v, v1, n);
    RunChainStep(now, v1, v2, n - 1);
    RunChainStep(now, v2, SeatBack(now, v), n - 2);
  }

  /** `s` after the whole-operation expiry was carried out by run `j`. */
  ghost function AfterExpiry(s: State, j: nat): State
    requires WellFormed(s) && j < |s.runs|
  {
    var x, r := s.runs[j], s.runs[j].row;
    var (store, result) := Expire(s.store, r, s.clock);
    PutRun(s, j, RunView(
      x.(readAt := if s.store.rows[r].status.PendingPayment? then s.clock else x.readAt, pc := RunOver(result)),
      store, if result.ExpiredNow? then s.notes[r := Released(Acquired(s.notes[r], s.clock))] else s.notes))
  }

  /** Undisturbed, the steps of expireReservation do exactly what the whole operation does, in every case. */
  lemma ExpiryIsSerial(c: Config, s: State, j: nat)
    requires WellFormed(s) && j < |s.runs| && s.runs[j].alive && s.runs[j].pc.ReadRow?
    ensures RunAlone(c, s, j, 8) == AfterExpiry(s, j)
  {
    var v := RunView(s.runs[j], s.store, s.notes);
    assert PutRun(s, j, v) == s;
    RunAloneIsChain(c, s, j, v, 8);
    ExpiryChain(s.clock, v);
  }

  lemma ExpiryChain(now: Time, v: RunView)
    requires InRange(v) && v.run.alive && v.run.pc.ReadRow?
    ensures var (store, result) := Expire(v.store, v.run.row, now);
            RunChain(now, v, 8) == RunView(
              v.run.(readAt := if v.store.rows[v.run.row].status.PendingPayment? then now else v.run.readAt,
                     pc := RunOver(result)),
              store,
              if result.ExpiredNow? then v.notes[v.run.row := Released(Acquired(v.notes[v.run.row], now))] else v.notes)
  {
    if !v.store.rows[v.run.row].status.PendingPayment? {
      RunChainStep(now, v, To(v, RunOver(NotPending)), 8);
    } else {
      var v1 := v.(run := v.run.(readAt := now, pc := TakeLock));
      RunChainStep(now, v, v1, 8);
      if LockHeld(v.store.locks, v.run.row, now) {
        RunChainStep(now, v1, To(v1, RunOver(AlreadyProcessed)), 7);
      } else {
        ReleaseChain(now, v1);
      }
    }
  }

  lemma ReleaseChain(now: Time, v: RunView)
    requires InRange(v) && v.run.alive && v.run.pc.TakeLock? && !LockHeld(v.store.locks, v.run.row, now)
    ensures RunChain(now, v, 7)
         == RunView(v.run.(pc := RunOver(ExpiredNow)), Release(v.store, v.run.row, now),
                    v.notes[v.run.row := Released(Acquired(v.notes[v.run.row], now))])
  {
    LockToSeatBack(now, v, 7);
    ReleaseTail(now, v, SeatBack(now, v));
  }

  lemma ReleaseTail(now: Time, v: RunView, w: RunView)
    requires InRange(v) && v.run.alive && w == SeatBack(now, v)
    ensures RunChain(now, w, 4)
         == RunView(v.run.(pc := RunOver(ExpiredNow)), Release(v.store, v.run.row, now), w.notes)
  {}

  // ---------- States that serial stretches of a schedule reach ----------

  lemma ReservedLeads(c: Config, o: State, s: State, i: nat)
    requires WellFormed(o) && Leads(c, o, s) && WellFormed(s)
    requires i < |s.batches| && Working(s.batches[i]) && s.batches[i].pc.ReadHead?
    requires s.store.queue != [] && s.store.seats >= 1
    ensures var t := Put(s, i, Reserved(s.clock, ViewOf(s, i)));
            Leads(c, o, t) && WellFormed(t)
  {
    var v := ViewOf(s, i);
    assert Put(s, i, v) == s;
    BatchAloneLeads(c, o, s, i, true, 4);
    AloneIsChain(c, s, i, v, true, 4);
    GrantToRow(s.clock, v, 4);
  }

  lemma FinishedLeads(c: Config, o: State, s: State, i: nat, u: UserId, r: nat)
    requires WellFormed(o) && Leads(c, o, s) && WellFormed(s)
    requires i < |s.batches| && Working(s.batches[i]) && s.batches[i].pc == AddJob(u, r)
    ensures var t := Put(s, i, Finished(s.clock, ViewOf(s, i), u, r));
            Leads(c, o, t) && WellFormed(t)
  {
    var v := ViewOf(s, i);
    assert Put(s, i, v) == s;
    BatchAloneLeads(c, o, s, i, true, 5);
    AloneIsChain(c, s, i, v, true, 5);
    RowToEnd(s.clock, v, u, r);
  }

  lemma DequeuedLeads(c: Config, o: State, s: State, i: nat, u: UserId, r: nat)
    requires WellFormed(o) && Leads(c, o, s) && WellFormed(s)
    requires i < |s.batches| && Working(s.batches[i]) && s.batches[i].pc == AddJob(u, r)
    ensures var t := Put(s, i, Dequeued(s.clock, ViewOf(s, i), u, r));
            Leads(c, o, t) && WellFormed(t)
  {
    var v := ViewOf(s, i);
    assert Put(s, i, v) == s;
    BatchAloneLeads(c, o, s, i, true, 3);
    AloneIsChain(c, s, i, v, true, 3);
    RowToDequeued(s.clock, v, u, r, 3);
  }

  lemma PromotionLeads(c: Config, o: State, s: State, i: nat)
    requires WellFormed(o) && Leads(c, o, s) && WellFormed(s)
    requires i < |s.batches| && Working(s.batches[i]) && s.batches[i].pc.ReadHead?
    ensures Leads(c, o, AfterPromotion(s, i, true)) && WellFormed(AfterPromotion(s, i, true))
  {
    BatchAloneLeads(c, o, s, i, true, PromotionSteps(s, true));
    PromotionIsSerial(c, s, i, true);
  }

  lemma ExpiryLeads(c: Config, o: State, s: State, j: nat)
    requires WellFormed(o) && Leads(c, o, s) && WellFormed(s)
    requires j < |s.runs| && s.runs[j].alive && s.runs[j].pc.ReadRow?
    ensures Leads(c, o, AfterExpiry(s, j)) && WellFormed(AfterExpiry(s, j))
  {
    RunAloneLeads(c, o, s, j, 8);
    ExpiryIsSerial(c, s, j);
  }

  /** `s` after batch `i`, about to DECR, was refused and has dropped its user. */
  function AfterDenial(s: State, i: nat, u: UserId): State
    requires i < |s.batches|
  {
    s.(store := Drop(s.store, u), batches := s.batches[i := s.batches[i].(pc := BatchOver)],
       log := s.log.(denied := s.log.denied + 1))
  }

  lemma DenialIsSerial(c: Config, s: State, i: nat, u: UserId)
    requires WellFormed(s) && i < |s.batches| && Working(s.batches[i]) && s.batches[i].pc == Decrement(u)
    requires s.store.seats < 1
    ensures BatchAlone(c, s, i, true, 4) == AfterDenial(s, i, u)
  {
    var v := ViewOf(s, i);
    assert Put(s, i, v) == s;
    AloneIsChain(c, s, i, v, true, 4);
    DenialChain(s.clock, v, u, true);
  }

  lemma DenialLeads(c: Config, o: State, s: State, i: nat, u: UserId)
    requires WellFormed(o) && Leads(c, o, s) && WellFormed(s)
    requires i < |s.batches| && Working(s.batches[i]) && s.batches[i].pc == Decrement(u) && s.store.seats < 1
    ensures Leads(c, o, AfterDenial(s, i, u)) && WellFormed(AfterDenial(s, i, u))
  {
    BatchAloneLeads(c, o, s, i, true, 4);
    DenialIsSerial(c, s, i, u);
  }

  /** Up to the INCR that returns the seat. */
  lemma SeatBackLeads(c: Config, o: State, s: State, j: nat)
    requires WellFormed(o) && Leads(c, o, s) && WellFormed(s)
    requires j < |s.runs| && s.runs[j].alive && s.runs[j].pc.TakeLock?
    requires !LockHeld(s.store.locks, s.runs[j].row, s.clock)
    ensures var t := PutRun(s, j, SeatBack(s.clock, RunView(s.runs[j], s.store, s.notes)));
            Leads(c, o, t) && WellFormed(t)
  {
    var v := RunView(s.runs[j], s.store, s.notes);
    assert PutRun(s, j, v) == s;
    RunAloneLeads(c, o, s, j, 3);
    RunAloneIsChain(c, s, j, v, 3);
    LockToSeatBack(s.clock, v, 3);
  }
}
