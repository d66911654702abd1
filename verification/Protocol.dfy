/** The interleaved protocol for one event. Any number of `promoteUsers` runs and of
    `expireReservation` runs are in flight; each awaited Redis, database or job-queue command is one
    atomic step, any run may take the next step, any command may be rejected, and a run may stop for
    good at any point. Joins and payments are single steps. */
module Protocol {
  import opened Domain
  import opened Counting
  import opened WaitingQueue
  import opened Operations

  datatype Config = Config(event: Event, maxActiveUsers: nat, start: Time)

  /** Where a `promoteUsers` run stands: the next command it will issue. */
  datatype BatchPc =
    | ReadHead
    | Decrement(user: UserId)
    | Stamp(user: UserId)                      // compute expiresAt
    | SaveRow(user: UserId, expiresAt: Time)
    | AddJob(user: UserId, row: nat)
    | MarkActive(user: UserId, row: nat)
    | Dequeue(user: UserId, row: nat)
    | SetKey(user: UserId, row: nat)           // SETEX active key
    | CountKey(user: UserId, row: nat)         // INCR activeCount
    | Undo(user: UserId)                       // the losing DECR's INCR
    | MarkSoldOut(user: UserId)
    | DropSoldOut(user: UserId)
    | Refund(user: UserId, saved: Option<nat>) // INCR of the catch block, after the save of a row or before
    | BatchOver

  /** `slots` counts the promotions the run may still complete, the current one included. */
  datatype Batch = Batch(slots: nat, pc: BatchPc, alive: bool)

  datatype RunPc =
    | ReadRow
    | TakeLock          // SETNX
    | SetLockTtl        // EXPIRE
    | ReturnSeat        // INCR
    | MarkRow
    | MarkEntry
    | DeleteKey
    | UncountKey        // DECR activeCount
    | RunOver(result: ExpirationResult)

  /** `readAt` is when the run read its row as pending. */
  datatype ExpiryRun = ExpiryRun(row: nat, readAt: Time, pc: RunPc, alive: bool)

  /** History of one reservation, read by no step: how often and first when its lock was taken, and how often
      its seat was returned by an expiry run and by the catch block of its promotion. */
  datatype Note = Note(acquires: nat, firstLock: Time, releases: nat, refunds: nat)

  /** History of the event, read by no step. */
  datatype Log = Log(
    granted: nat,      // DECRs that returned at least 0
    denied: nat,       // DECRs that went below 0
    refunded: nat,     // refunds of seats whose row was not saved
    broken: nat,       // commands rejected after the row was saved and before the count went up
    missed: nat,       // active keys set whose INCR was rejected
    hasty: bool,       // some batch opened while another was between SETEX and INCR
    peak: nat,         // the largest number of overlapping batches
    window: Time)      // the longest time an expiry run has spent between its read and its status write

  datatype State = State(
    clock: Time,
    store: EventStore,
    batches: seq<Batch>,
    runs: seq<ExpiryRun>,
    notes: seq<Note>,
    log: Log)

  datatype Action =
    | Tick(ms: nat)
    | Enter(user: UserId)
    | Settle(row: nat, payer: UserId)
    | OpenBatch
    | BatchStep(batch: nat, ok: bool)
    | Deliver(job: nat)
    | RunStep(run: nat, ok: bool)

  function Initial(c: Config): State {
    State(c.start, NewStore(c.event.totalSeats), [], [], [], Log(0, 0, 0, 0, 0, false, 0, 0))
  }

  predicate Working(b: Batch) { b.alive && !b.pc.BatchOver? }

  function Live(b: Batch): int { if Working(b) then 1 else 0 }

  /** Between its read of a pending row and its write of the row's status. */
  predicate InWindow(x: ExpiryRun) {
    (x.pc.TakeLock? && x.alive) || x.pc.SetLockTtl? || x.pc.ReturnSeat? || x.pc.MarkRow?
  }

  function Longest(runs: seq<ExpiryRun>, now: Time): Time {
    if runs == [] then 0
    else Max(Longest(runs[..|runs| - 1], now), if InWindow(runs[|runs| - 1]) then now - runs[|runs| - 1].readAt else 0)
  }

  lemma {:induction false} LongestIs(runs: seq<ExpiryRun>, now: Time)
    ensures Longest(runs, now) >= 0
    ensures forall j :: 0 <= j < |runs| && InWindow(runs[j]) ==> Longest(runs, now) >= now - runs[j].readAt
  {
    if runs == [] {
    } else {
      LongestIs(runs[..|runs| - 1], now);
    }
  }

  /** Between SETEX of an active key and the INCR that counts it. */
  function Uncounted(b: Batch): int { if b.pc.CountKey? then 1 else 0 }

  /** The row that the promotion under way has saved, until it ends. */
  function SavedRow(pc: BatchPc): Option<nat> {
    match pc
    case AddJob(_, r) => Some(r)
    case MarkActive(_, r) => Some(r)
    case Dequeue(_, r) => Some(r)
    case SetKey(_, r) => Some(r)
    case CountKey(_, r) => Some(r)
    case Refund(_, saved) => saved
    case _ => None
  }

  predicate RowInRange(pc: BatchPc, n: nat) { SavedRow(pc).Some? ==> SavedRow(pc).value < n }

  /** Indices held by runs and jobs point at rows. */
  ghost predicate WellFormed(s: State) {
    && |s.notes| == |s.store.rows|
    && (forall i :: 0 <= i < |s.batches| ==> RowInRange(s.batches[i].pc, |s.store.rows|))
    && (forall j :: 0 <= j < |s.runs| ==> s.runs[j].row < |s.store.rows|)
    && (forall r :: r in s.store.jobs ==> r < |s.store.rows|)
  }

  /** A delayed job is delivered once its delay has passed, then any number of times: BullMQ retries
      failed attempts and re-delivers stalled ones. */
  predicate Enabled(s: State, a: Action) {
    match a
    case BatchStep(i, _) => i < |s.batches| && Working(s.batches[i])
    case RunStep(j, _) => j < |s.runs| && s.runs[j].alive && !s.runs[j].pc.RunOver?
    case Deliver(r) => r in s.store.jobs && s.clock >= s.store.jobs[r]
    case _ => true
  }

  /** What a batch can see and change besides the clock. */
  datatype BatchView = BatchView(batch: Batch, store: EventStore, notes: seq<Note>, log: Log)

  /** What an expiry run can see and change besides the clock. */
  datatype RunView = RunView(run: ExpiryRun, store: EventStore, notes: seq<Note>)

  function At(v: BatchView, pc: BatchPc): BatchView { v.(batch := v.batch.(pc := pc)) }

  /** A rejected command. Inside the try block of handleSuccessfulPromotion it leads to the refund;
      anywhere else the exception ends the run where it stands. */
  function BatchRejected(v: BatchView): BatchView {
    match v.batch.pc
    case SaveRow(u, _) => At(v, Refund(u, None))
    case AddJob(u, r) => Broken(v, u, r, 0)
    case MarkActive(u, r) => Broken(v, u, r, 0)
    case Dequeue(u, r) => Broken(v, u, r, 0)
    case SetKey(u, r) => Broken(v, u, r, 0)
    case CountKey(u, r) => Broken(v, u, r, 1)
    case _ => v.(batch := v.batch.(alive := false))
  }

  /** Rejected between the save of the row and the end of the promotion. */
  function Broken(v: BatchView, u: UserId, r: nat, missed: nat): BatchView {
    At(v, Refund(u, Some(r))).(log := v.log.(broken := v.log.broken + 1, missed := v.log.missed + missed))
  }

  function BatchAccepted(now: Time, v: BatchView): BatchView {
    var st, l := v.store, v.log;
    match v.batch.pc
    case ReadHead => At(v, if st.queue == [] then BatchOver else Decrement(st.queue[0].user))
    case Decrement(u) =>
      var st' := st.(seats := st.seats - 1);
      if st'.seats >= 0 then At(v, Stamp(u)).(store := st', log := l.(granted := l.granted + 1))
      else At(v, Undo(u)).(store := st', log := l.(denied := l.denied + 1))
    case Stamp(u) => At(v, SaveRow(u, now + RESERVATION_TTL))
    case SaveRow(u, t) =>
      At(v, AddJob(u, |st.rows|)).(store := st.(rows := st.rows + [Reservation(u, PendingPayment, t, None)]),
                                   notes := v.notes + [Note(0, 0, 0, 0)])
    case AddJob(u, r) => At(v, MarkActive(u, r)).(store := st.(jobs := st.jobs[r := now + RESERVATION_TTL]))
    case MarkActive(u, r) => At(v, Dequeue(u, r)).(store := st.(entries := WithReservation(st.entries, u, r)))
    case Dequeue(u, r) => At(v, SetKey(u, r)).(store := st.(queue := Remove(st.queue, u)))
    case SetKey(u, r) => At(v, CountKey(u, r)).(store := st.(active := st.active[u := now + ACTIVE_USER_TTL]))
    case CountKey(_, _) => v.(batch := NextTurn(v.batch), store := st.(activeCount := st.activeCount + 1))
    case Undo(u) => At(v, MarkSoldOut(u)).(store := st.(seats := st.seats + 1))
    case MarkSoldOut(u) =>
      At(v, DropSoldOut(u)).(store := st.(entries := WithStatus(st.entries, u, EntryStatus.Expired)))
    case DropSoldOut(u) => At(v, BatchOver).(store := st.(queue := Remove(st.queue, u)))
    case Refund(_, None) =>
      At(v, BatchOver).(store := st.(seats := st.seats + 1), log := l.(refunded := l.refunded + 1))
    case Refund(_, Some(r)) => At(v, BatchOver).(store := st.(seats := st.seats + 1), notes := Refunded(v.notes, r))
    case BatchOver => v
  }

  /** The batch after it completed one promotion: one slot less, then the head of the loop again. */
  function NextTurn(b: Batch): Batch {
    var left := Max(0, b.slots - 1);
    b.(slots := left, pc := if left == 0 then BatchOver else ReadHead)
  }

  function BatchDoes(s: State, b: Batch, ok: bool): BatchView {
    var v := BatchView(b, s.store, s.notes, s.log);
    if ok then BatchAccepted(s.clock, v) else BatchRejected(v)
  }

  function StartBatch(c: Config, s: State): State {
    var slots := SlotsAvailable(s.store, c.maxActiveUsers);
    var batches := s.batches + [Batch(slots, if slots == 0 then BatchOver else ReadHead, true)];
    s.(batches := batches,
       log := s.log.(hasty := s.log.hasty || Sum(s.batches, Uncounted) > 0,
                     peak := Max(s.log.peak, Max(0, Sum(batches, Live)))))
  }

  function To(v: RunView, pc: RunPc): RunView { v.(run := v.run.(pc := pc)) }

  function RunAccepted(now: Time, v: RunView): RunView
    requires v.run.row < |v.store.rows| && v.run.row < |v.notes|
  {
    var st, r := v.store, v.run.row;
    var u := st.rows[r].user;
    match v.run.pc
    case ReadRow =>
      if st.rows[r].status.PendingPayment? then v.(run := v.run.(readAt := now, pc := TakeLock))
      else To(v, RunOver(NotPending))
    case TakeLock =>
      if LockHeld(st.locks, r, now) then To(v, RunOver(AlreadyProcessed))
      else To(v, SetLockTtl).(store := st.(locks := st.locks[r := NoTtl]),
                              notes := v.notes[r := Acquired(v.notes[r], now)])
    case SetLockTtl => To(v, ReturnSeat).(store := st.(locks := st.locks[r := Until(now + LOCK_TTL)]))
    case ReturnSeat => To(v, MarkRow).(store := st.(seats := st.seats + 1), notes := v.notes[r := Released(v.notes[r])])
    case MarkRow =>
      To(v, MarkEntry).(store := st.(rows := st.rows[r := st.rows[r].(status := ReservationStatus.Expired)]))
    case MarkEntry => To(v, DeleteKey).(store := st.(entries := WithStatus(st.entries, u, EntryStatus.Expired)))
    case DeleteKey =>
      To(v, if KeyLive(st.active, u, now) then UncountKey else RunOver(ExpiredNow)).(
        store := st.(active := st.active - {u}))
    case UncountKey => To(v, RunOver(ExpiredNow)).(store := st.(activeCount := st.activeCount - 1))
    case RunOver(_) => v
  }

  function RunDoes(s: State, x: ExpiryRun, ok: bool): RunView
    requires x.row < |s.store.rows| && x.row < |s.notes|
  {
    if ok then RunAccepted(s.clock, RunView(x, s.store, s.notes)) else RunView(x.(alive := false), s.store, s.notes)
  }

  function Refunded(notes: seq<Note>, r: nat): (after: seq<Note>)
    ensures |after| == |notes|
  {
    if r < |notes| then notes[r := notes[r].(refunds := notes[r].refunds + 1)] else notes
  }

  function Released(n: Note): Note { n.(releases := n.releases + 1) }

  function Acquired(n: Note, now: Time): Note {
    n.(acquires := n.acquires + 1, firstLock := if n.acquires == 0 then now else n.firstLock)
  }

  function Passed(s: State, ms: nat): State {
    s.(clock := s.clock + ms, log := s.log.(window := Max(s.log.window, Longest(s.runs, s.clock + ms))))
  }

  function Apply(c: Config, s: State, a: Action): State
    requires WellFormed(s) && Enabled(s, a)
  {
    match a
    case Tick(ms) => Passed(s, ms)
    case Enter(u) => s.(store := Join(c.event, s.store, u, s.clock).0)
    case Settle(r, u) => s.(store := Pay(s.store, r, u, s.clock).0)
    case OpenBatch => StartBatch(c, s)
    case BatchStep(i, ok) =>
      var e := BatchDoes(s, s.batches[i], ok);
      s.(batches := s.batches[i := e.batch], store := e.store, notes := e.notes, log := e.log)
    case Deliver(r) => s.(runs := s.runs + [ExpiryRun(r, s.clock, ReadRow, true)])
    case RunStep(j, ok) =>
      var e := RunDoes(s, s.runs[j], ok);
      s.(runs := s.runs[j := e.run], store := e.store, notes := e.notes)
  }

  lemma BatchFrameSaved(s: State, b: Batch, ok: bool)
    ensures BatchDoes(s, b, ok).store.rows
            == if ok && b.pc.SaveRow?
               then s.store.rows + [Reservation(b.pc.user, PendingPayment, b.pc.expiresAt, None)] else s.store.rows
  {}

  lemma BatchFrameNotes(s: State, b: Batch, ok: bool)
    ensures BatchDoes(s, b, ok).notes
            == if ok && b.pc.SaveRow? then s.notes + [Note(0, 0, 0, 0)]
               else if ok && b.pc.Refund? && b.pc.saved.Some? then Refunded(s.notes, b.pc.saved.value)
               else s.notes
  {}

  lemma BatchFrameRows(s: State, b: Batch, ok: bool)
    ensures var e := BatchDoes(s, b, ok);
            && e.store.rows == (if ok && b.pc.SaveRow?
                                then s.store.rows + [Reservation(b.pc.user, PendingPayment, b.pc.expiresAt, None)]
                                else s.store.rows)
            && e.notes == (if ok && b.pc.SaveRow? then s.notes + [Note(0, 0, 0, 0)]
                           else if ok && b.pc.Refund? && b.pc.saved.Some? then Refunded(s.notes, b.pc.saved.value)
                           else s.notes)
  {
    BatchFrameSaved(s, b, ok);
    BatchFrameNotes(s, b, ok);
  }

  lemma BatchFrameLocks(s: State, b: Batch, ok: bool)
    ensures var e := BatchDoes(s, b, ok);
            && e.store.locks == s.store.locks
            && e.log.window == s.log.window
  {}

  lemma BatchFrameJobs(s: State, b: Batch, ok: bool)
    ensures BatchDoes(s, b, ok).store.jobs
            == if ok && b.pc.AddJob? then s.store.jobs[b.pc.row := s.clock + RESERVATION_TTL] else s.store.jobs
  {}

  /** What a batch step can touch. */
  lemma BatchFrame(s: State, b: Batch, ok: bool)
    ensures var e := BatchDoes(s, b, ok);
            && e.store.locks == s.store.locks
            && e.log.window == s.log.window
            && e.store.rows == (if ok && b.pc.SaveRow?
                                then s.store.rows + [Reservation(b.pc.user, PendingPayment, b.pc.expiresAt, None)]
                                else s.store.rows)
            && e.notes == (if ok && b.pc.SaveRow? then s.notes + [Note(0, 0, 0, 0)]
                           else if ok && b.pc.Refund? && b.pc.saved.Some? then Refunded(s.notes, b.pc.saved.value)
                           else s.notes)
            && e.store.jobs == (if ok && b.pc.AddJob? then s.store.jobs[b.pc.row := s.clock + RESERVATION_TTL]
                                else s.store.jobs)
  {
    BatchFrameRows(s, b, ok);
    BatchFrameLocks(s, b, ok);
    BatchFrameJobs(s, b, ok);
  }

  /** A row becomes a batch's when the batch saves it, and only then. */
  lemma BatchKeepsRow(s: State, b: Batch, ok: bool)
    ensures var pc := BatchDoes(s, b, ok).batch.pc;
            SavedRow(pc).None? || SavedRow(pc) == SavedRow(b.pc)
            || (ok && b.pc.SaveRow? && SavedRow(pc) == Some(|s.store.rows|))
  {}

  lemma BatchDoesWellFormed(s: State, b: Batch, ok: bool)
    requires |s.notes| == |s.store.rows| && RowInRange(b.pc, |s.store.rows|)
    ensures RowInRange(BatchDoes(s, b, ok).batch.pc, |BatchDoes(s, b, ok).store.rows|)
  {
    BatchKeepsRow(s, b, ok);
    BatchFrameRows(s, b, ok);
  }

  lemma RunFrameJobs(s: State, x: ExpiryRun, ok: bool)
    requires x.row < |s.store.rows| && x.row < |s.notes|
    ensures var e := RunDoes(s, x, ok);
            && e.run.row == x.row
            && e.store.jobs == s.store.jobs
            && e.store.queue == s.store.queue
  {
    match x.pc
    case ReadRow =>
    case TakeLock =>
    case SetLockTtl =>
    case ReturnSeat =>
    case MarkRow =>
    case MarkEntry =>
    case DeleteKey =>
    case UncountKey =>
    case RunOver(_) =>
  }

  lemma RunFrameStatus(s: State, x: ExpiryRun, ok: bool)
    requires x.row < |s.store.rows| && x.row < |s.notes|
    ensures RunDoes(s, x, ok).store.rows
            == if ok && x.pc.MarkRow?
               then s.store.rows[x.row := s.store.rows[x.row].(status := ReservationStatus.Expired)] else s.store.rows
  {}

  lemma RunFrameRows(s: State, x: ExpiryRun, ok: bool)
    requires x.row < |s.store.rows| && x.row < |s.notes|
    ensures var e := RunDoes(s, x, ok);
            && e.run.row == x.row
            && e.store.jobs == s.store.jobs
            && e.store.queue == s.store.queue
            && e.store.rows == (if ok && x.pc.MarkRow?
                                then s.store.rows[x.row := s.store.rows[x.row].(status := ReservationStatus.Expired)]
                                else s.store.rows)
  {
    RunFrameJobs(s, x, ok);
    RunFrameStatus(s, x, ok);
  }

  /** What a run step can touch. */
  lemma RunFrame(s: State, x: ExpiryRun, ok: bool)
    requires x.row < |s.store.rows| && x.row < |s.notes|
    ensures var e := RunDoes(s, x, ok);
            && e.run.row == x.row
            && e.store.jobs == s.store.jobs
            && e.store.queue == s.store.queue
            && e.store.rows == (if ok && x.pc.MarkRow?
                                then s.store.rows[x.row := s.store.rows[x.row].(status := ReservationStatus.Expired)]
                                else s.store.rows)
            && e.store.locks == (if ok && x.pc.TakeLock? && !LockHeld(s.store.locks, x.row, s.clock)
                                 then s.store.locks[x.row := NoTtl]
                                 else if ok && x.pc.SetLockTtl?
                                 then s.store.locks[x.row := Until(s.clock + LOCK_TTL)] else s.store.locks)
            && e.notes == (if ok && x.pc.TakeLock? && !LockHeld(s.store.locks, x.row, s.clock)
                           then s.notes[x.row := Acquired(s.notes[x.row], s.clock)]
                           else if ok && x.pc.ReturnSeat?
                           then s.notes[x.row := Released(s.notes[x.row])]
                           else s.notes)
  {
    RunFrameRows(s, x, ok);
  }

  lemma RunDoesWellFormed(s: State, x: ExpiryRun, ok: bool)
    requires |s.notes| == |s.store.rows| && x.row < |s.store.rows|
    ensures var e := RunDoes(s, x, ok);
            && |e.store.rows| == |s.store.rows| == |e.notes|
            && e.run.row == x.row
            && e.store.jobs == s.store.jobs
  {
    RunFrame(s, x, ok);
  }

  lemma ApplyWellFormed(c: Config, s: State, a: Action)
    requires WellFormed(s) && Enabled(s, a)
    ensures WellFormed(Apply(c, s, a))
  {
    match a
    case BatchStep(i, ok) => BatchDoesWellFormed(s, s.batches[i], ok); BatchFrame(s, s.batches[i], ok);
    case RunStep(j, ok) => RunDoesWellFormed(s, s.runs[j], ok);
    case _ =>
  }

  /** Schedules from `s`: every action enabled in the state it meets. */
  ghost predicate Schedule(c: Config, s: State, acts: seq<Action>)
    requires WellFormed(s)
    decreases |acts|, 0
  {
    || acts == []
    || (Schedule(c, s, acts[..|acts| - 1]) && Enabled(After(c, s, acts[..|acts| - 1]), acts[|acts| - 1]))
  }

  ghost function After(c: Config, s: State, acts: seq<Action>): (t: State)
    requires WellFormed(s) && Schedule(c, s, acts)
    ensures WellFormed(t)
    decreases |acts|, 1
  {
    if acts == [] then s
    else
      var before := After(c, s, acts[..|acts| - 1]);
      ApplyWellFormed(c, before, acts[|acts| - 1]);
      Apply(c, before, acts[|acts| - 1])
  }

  ghost predicate LeadsTo(c: Config, s: State, acts: seq<Action>, t: State)
    requires WellFormed(s)
  {
    Schedule(c, s, acts) && After(c, s, acts) == t
  }

  /** `t` can follow `s`. */
  ghost predicate Leads(c: Config, s: State, t: State)
    requires WellFormed(s)
  {
    exists acts :: LeadsTo(c, s, acts, t)
  }

  /** States that some schedule reaches. */
  ghost predicate Reachable(c: Config, s: State) { Leads(c, Initial(c), s) }

  lemma LeadsToItself(c: Config, s: State)
    requires WellFormed(s)
    ensures Leads(c, s, s)
  {
    assert LeadsTo(c, s, [], s);
  }

  lemma OneMore(c: Config, o: State, acts: seq<Action>, s: State, a: Action)
    requires WellFormed(o) && LeadsTo(c, o, acts, s) && WellFormed(s) && Enabled(s, a)
    ensures LeadsTo(c, o, acts + [a], Apply(c, s, a))
  {
    var longer := acts + [a];
    assert longer[..|longer| - 1] == acts && longer[|longer| - 1] == a;
  }

  lemma StepLeads(c: Config, o: State, s: State, a: Action)
    requires WellFormed(o) && Leads(c, o, s) && WellFormed(s) && Enabled(s, a)
    ensures Leads(c, o, Apply(c, s, a)) && WellFormed(Apply(c, s, a))
  {
    var acts :| LeadsTo(c, o, acts, s);
    OneMore(c, o, acts, s, a);
    ApplyWellFormed(c, s, a);
  }

  lemma LastStep(c: Config, s: State, acts: seq<Action>, t: State) returns (before: State)
    requires WellFormed(s) && acts != [] && LeadsTo(c, s, acts, t)
    ensures WellFormed(before) && LeadsTo(c, s, acts[..|acts| - 1], before)
    ensures Enabled(before, acts[|acts| - 1]) && t == Apply(c, before, acts[|acts| - 1])
  {
    before := After(c, s, acts[..|acts| - 1]);
  }

  lemma {:induction false} Concatenation(c: Config, s: State, acts: seq<Action>, t: State, more: seq<Action>, u: State)
    requires WellFormed(s) && LeadsTo(c, s, acts, t) && WellFormed(t) && LeadsTo(c, t, more, u)
    ensures LeadsTo(c, s, acts + more, u)
    decreases |more|
  {
    if more == [] {
      assert acts + more == acts;
    } else {
      var init := more[..|more| - 1];
      var before := LastStep(c, t, more, u);
      Concatenation(c, s, acts, t, init, before);
      OneMore(c, s, acts + init, before, more[|more| - 1]);
      assert acts + more == (acts + init) + [more[|more| - 1]];
    }
  }

  lemma LeadsOn(c: Config, s: State, t: State, u: State)
    requires WellFormed(s) && WellFormed(t) && Leads(c, s, t) && Leads(c, t, u)
    ensures Leads(c, s, u) && WellFormed(u)
  {
    var acts :| LeadsTo(c, s, acts, t);
    var more :| LeadsTo(c, t, more, u);
    Concatenation(c, s, acts, t, more, u);
    assert WellFormed(After(c, t, more));
  }

  lemma StillReachable(c: Config, s: State, t: State)
    requires Reachable(c, s) && WellFormed(s) && Leads(c, s, t)
    ensures Reachable(c, t) && WellFormed(t)
  {
    LeadsOn(c, Initial(c), s, t);
  }
}
