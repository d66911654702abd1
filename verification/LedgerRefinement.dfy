/** A seat ledger without stores, workers or clocks, and the proof that every step of the interleaved
    protocol is one of its moves or invisible to it. */
module LedgerRefinement {
  import opened Domain
  import opened Counting
  import opened Operations
  import opened Protocol
  import opened ReleaseOnce
  import opened PaidOrReleased
  import opened TimelyRelease
  import opened SeatLedger

  /** Seats that are free, held or reserved but not paid for, and kept by a PAID reservation. */
  datatype Ledger = Ledger(free: int, taken: int, paid: int)

  /** `Release` gives up a seat that was held or reserved, `Forfeit` that of a PAID reservation; `Credit` returns a
      seat that was returned before. */
  datatype Move = Stutter | Grant | Release | Payment | Credit | Forfeit

  predicate Allowed(l: Ledger, m: Move) {
    match m
    case Grant => l.free >= 1
    case Release => l.taken >= 1
    case Payment => l.taken >= 1
    case Forfeit => l.paid >= 1
    case _ => true
  }

  function Post(l: Ledger, m: Move): Ledger {
    match m
    case Stutter => l
    case Grant => l.(free := l.free - 1, taken := l.taken + 1)
    case Release => l.(free := l.free + 1, taken := l.taken - 1)
    case Payment => l.(taken := l.taken - 1, paid := l.paid + 1)
    case Credit => l.(free := l.free + 1)
    case Forfeit => l.(free := l.free + 1, paid := l.paid - 1)
  }

  /** The ledger after `moves`, starting with every seat free. */
  function Replay(total: nat, moves: seq<Move>): Ledger {
    if moves == [] then Ledger(total, 0, 0) else Post(Replay(total, moves[..|moves| - 1]), moves[|moves| - 1])
  }

  /** Every move was allowed when it was made. */
  predicate Legal(total: nat, moves: seq<Move>) {
    moves == []
    || (Legal(total, moves[..|moves| - 1]) && Allowed(Replay(total, moves[..|moves| - 1]), moves[|moves| - 1]))
  }

  function IsCredit(m: Move): int { if m.Credit? then 1 else 0 }

  /** What the ledger guarantees, whatever its history: nothing negative, nothing lost. */
  lemma {:induction false} LedgerSafe(total: nat, moves: seq<Move>)
    requires Legal(total, moves)
    ensures var l := Replay(total, moves);
            && l.free >= 0 && l.taken >= 0 && l.paid >= 0
            && l.free + l.taken + l.paid == total + Sum(moves, IsCredit)
  {
    if moves == [] {
    } else {
      LedgerSafe(total, moves[..|moves| - 1]);
    }
  }

  function Unreturned(n: Note): int { if Returns(n) == 0 then 1 else 0 }

  /** Returns of a seat beyond the first. */
  function Extra(n: Note): int { Max(0, Returns(n) - 1) }

  /** A reservation row with its history. */
  datatype Booking = Booking(row: Reservation, note: Note)

  function Bookings(s: State): (r: seq<Booking>)
    requires |s.notes| == |s.store.rows|
    ensures |r| == |s.notes| && forall k :: 0 <= k < |r| ==> r[k] == Booking(s.store.rows[k], s.notes[k])
  {
    seq(|s.notes|, k requires 0 <= k < |s.notes| => Booking(s.store.rows[k], s.notes[k]))
  }

  function Open(b: Booking): int { if Returns(b.note) == 0 && !b.row.status.Paid? then 1 else 0 }

  function Kept(b: Booking): int { if Returns(b.note) == 0 && b.row.status.Paid? then 1 else 0 }

  lemma {:induction false} OpenOrKept(bookings: seq<Booking>, notes: seq<Note>)
    requires |bookings| == |notes| && forall k :: 0 <= k < |notes| ==> bookings[k].note == notes[k]
    ensures Sum(bookings, Open) + Sum(bookings, Kept) == Sum(notes, Unreturned)
  {
    if notes == [] {
    } else {
      OpenOrKept(bookings[..|notes| - 1], notes[..|notes| - 1]);
    }
  }

  /** The ledger seen in a protocol state: a losing DECR and its INCR cancel out. */
  function Abs(s: State): Ledger
    requires |s.notes| == |s.store.rows|
  {
    Ledger(s.store.seats + Sum(s.batches, Losing), Sum(s.batches, Hold) + Sum(Bookings(s), Open),
           Sum(Bookings(s), Kept))
  }

  /** The ledger move behind a protocol step. */
  function MoveOf(s: State, a: Action): Move
    requires WellFormed(s) && Enabled(s, a)
  {
    match a
    case BatchStep(i, ok) =>
      if !ok then Stutter
      else (match s.batches[i].pc
            case Decrement(_) => if s.store.seats >= 1 then Grant else Stutter
            case Refund(_, None) => Release
            case Refund(_, Some(r)) => ReturnMove(s, r)
            case _ => Stutter)
    case RunStep(j, ok) => if ok && s.runs[j].pc.ReturnSeat? then ReturnMove(s, s.runs[j].row) else Stutter
    case Settle(r, u) =>
      if Pay(s.store, r, u, s.clock).1.PaymentDone? && Returns(s.notes[r]) == 0 then Payment else Stutter
    case _ => Stutter
  }

  /** The seat of row `r` goes back. */
  function ReturnMove(s: State, r: nat): Move
    requires r < |s.store.rows| && r < |s.notes|
  {
    if Returns(s.notes[r]) > 0 then Credit else if s.store.rows[r].status.Paid? then Forfeit else Release
  }

  ghost predicate Sound(c: Config, s: State) {
    WellFormed(s) && SeatInvariant(c, s) && Delivered(s)
  }

  function FreeChange(s: State, b: Batch, ok: bool): int {
    if !ok then 0 else if b.pc.Decrement? && s.store.seats >= 1 then -1 else if b.pc.Refund? then 1 else 0
  }

  function HoldChange(s: State, b: Batch, ok: bool): int {
    if !ok then 0 else if b.pc.Decrement? && s.store.seats >= 1 then 1
    else if b.pc.SaveRow? then -1 else if b.pc.Refund? then -Hold(b) else 0
  }

  lemma BatchAcceptedSeats(s: State, b: Batch)
    ensures BatchDoes(s, b, true).store.seats
         == s.store.seats + (if b.pc.Decrement? then -1 else if b.pc.Undo? || b.pc.Refund? then 1 else 0)
  {}

  lemma BatchAcceptedLosing(s: State, b: Batch)
    ensures Losing(BatchDoes(s, b, true).batch) == if b.pc.Decrement? && s.store.seats < 1 then 1 else 0
  {}

  lemma BatchDoesFree(s: State, b: Batch, ok: bool)
    ensures var e := BatchDoes(s, b, ok);
            e.store.seats + Losing(e.batch) == s.store.seats + Losing(b) + FreeChange(s, b, ok)
  {
    if ok { BatchAcceptedSeats(s, b); BatchAcceptedLosing(s, b); }
  }

  lemma BatchDoesHold(s: State, b: Batch, ok: bool)
    ensures Hold(BatchDoes(s, b, ok).batch) == Hold(b) + HoldChange(s, b, ok)
  {}

  /** Counter and holds after a batch step. */
  lemma BatchStepHolds(c: Config, s: State, i: nat, ok: bool)
    requires WellFormed(s) && Enabled(s, BatchStep(i, ok))
    ensures var b, s' := s.batches[i], Apply(c, s, BatchStep(i, ok));
            && s'.store.seats + Sum(s'.batches, Losing) == Abs(s).free + FreeChange(s, b, ok)
            && Sum(s'.batches, Hold) == Sum(s.batches, Hold) + HoldChange(s, b, ok)
  {
    var b, b' := s.batches[i], BatchDoes(s, s.batches[i], ok).batch;
    BatchDoesFree(s, b, ok);
    BatchDoesHold(s, b, ok);
    SumUpdate(s.batches, i, b', Hold);
    SumUpdate(s.batches, i, b', Losing);
  }

  lemma OneMoreBooking(s: State, s': State, b: Booking)
    requires |s.notes| == |s.store.rows|
    requires s'.store.rows == s.store.rows + [b.row] && s'.notes == s.notes + [b.note]
    ensures Bookings(s') == Bookings(s) + [b]
  {}

  /** Saving a row turns a hold into an open booking. */
  lemma BookingSaved(bookings: seq<Booking>, saved: Booking)
    requires Returns(saved.note) == 0 && saved.row.status.PendingPayment?
    ensures Sum(bookings + [saved], Open) == Sum(bookings, Open) + 1
    ensures Sum(bookings + [saved], Kept) == Sum(bookings, Kept)
  {}

  /** A late refund counts for the booking of its row. */
  lemma BookingsAfterRefund(s: State, s': State, r: nat)
    requires |s.notes| == |s.store.rows| && s'.store.rows == s.store.rows && r < |s.notes|
    requires s'.notes == Refunded(s.notes, r)
    ensures var b := Bookings(s)[r];
            && Sum(Bookings(s'), Open) == Sum(Bookings(s), Open) - Open(b)
            && Sum(Bookings(s'), Kept) == Sum(Bookings(s), Kept) - Kept(b)
            && Sum(Bookings(s), Open) >= Open(b) && Sum(Bookings(s), Kept) >= Kept(b)
  {
    BookingChanges(s, s', r);
  }

  lemma RefundRefines(c: Config, s: State, i: nat)
    requires Sound(c, s) && Enabled(s, BatchStep(i, true)) && s.batches[i].pc.Refund? && s.batches[i].pc.saved.Some?
    ensures WellFormed(Apply(c, s, BatchStep(i, true)))
    ensures var m := ReturnMove(s, s.batches[i].pc.saved.value);
            Allowed(Abs(s), m) && Abs(Apply(c, s, BatchStep(i, true))) == Post(Abs(s), m)
  {
    var s' := Apply(c, s, BatchStep(i, true));
    ApplyWellFormed(c, s, BatchStep(i, true));
    BatchFrameRows(s, s.batches[i], true);
    BatchStepHolds(c, s, i, true);
    SumNonNegative(s.batches, Hold);
    BookingsAfterRefund(s, s', s.batches[i].pc.saved.value);
  }

  lemma SaveRefines(c: Config, s: State, i: nat)
    requires Sound(c, s) && Enabled(s, BatchStep(i, true)) && s.batches[i].pc.SaveRow?
    ensures WellFormed(Apply(c, s, BatchStep(i, true))) && Abs(Apply(c, s, BatchStep(i, true))) == Abs(s)
  {
    ApplyWellFormed(c, s, BatchStep(i, true));
    BatchFrameRows(s, s.batches[i], true);
    BatchStepHolds(c, s, i, true);
    var saved := Booking(Reservation(s.batches[i].pc.user, PendingPayment, s.batches[i].pc.expiresAt, None),
                         Note(0, 0, 0, 0));
    OneMoreBooking(s, Apply(c, s, BatchStep(i, true)), saved);
    BookingSaved(Bookings(s), saved);
  }

  /** Every other batch step. */
  lemma BatchStepRefines(c: Config, s: State, i: nat, ok: bool)
    requires Sound(c, s) && Enabled(s, BatchStep(i, ok))
    requires !(ok && (s.batches[i].pc.SaveRow? || (s.batches[i].pc.Refund? && s.batches[i].pc.saved.Some?)))
    ensures WellFormed(Apply(c, s, BatchStep(i, ok)))
    ensures Allowed(Abs(s), MoveOf(s, BatchStep(i, ok)))
    ensures Abs(Apply(c, s, BatchStep(i, ok))) == Post(Abs(s), MoveOf(s, BatchStep(i, ok)))
  {
    ApplyWellFormed(c, s, BatchStep(i, ok));
    BatchFrameRows(s, s.batches[i], ok);
    BatchStepHolds(c, s, i, ok);
    SumNonNegative(s.batches, Losing);
    SumAtLeast(s.batches, i, Hold);
    SumNonNegative(Bookings(s), Open);
    assert Bookings(Apply(c, s, BatchStep(i, ok))) == Bookings(s);
  }

  /** One booking changes. */
  lemma BookingChanges(s: State, s': State, r: nat)
    requires |s.notes| == |s.store.rows| && |s'.notes| == |s'.store.rows| && r < |s.notes|
    requires |s'.notes| == |s.notes|
    requires s'.store.rows == s.store.rows[r := s'.store.rows[r]] && s'.notes == s.notes[r := s'.notes[r]]
    ensures Sum(Bookings(s'), Open) == Sum(Bookings(s), Open) - Open(Bookings(s)[r]) + Open(Bookings(s')[r])
    ensures Sum(Bookings(s'), Kept) == Sum(Bookings(s), Kept) - Kept(Bookings(s)[r]) + Kept(Bookings(s')[r])
    ensures Sum(Bookings(s), Open) >= Open(Bookings(s)[r]) && Sum(Bookings(s), Kept) >= Kept(Bookings(s)[r])
  {
    assert Bookings(s') == Bookings(s)[r := Bookings(s')[r]];
    SumUpdate(Bookings(s), r, Bookings(s')[r], Open);
    SumUpdate(Bookings(s), r, Bookings(s')[r], Kept);
    SumAtLeast(Bookings(s), r, Open);
    SumAtLeast(Bookings(s), r, Kept);
  }

  lemma RunStepRefines(c: Config, s: State, j: nat, ok: bool)
    requires Sound(c, s) && Enabled(s, RunStep(j, ok))
    ensures WellFormed(Apply(c, s, RunStep(j, ok)))
    ensures Allowed(Abs(s), MoveOf(s, RunStep(j, ok)))
    ensures Abs(Apply(c, s, RunStep(j, ok))) == Post(Abs(s), MoveOf(s, RunStep(j, ok)))
  {
    var x, s' := s.runs[j], Apply(c, s, RunStep(j, ok));
    RunFrame(s, x, ok);
    RunSeats(s, x, ok);
    assert RunDelivered(s, x);
    SumNonNegative(s.batches, Hold);
    RunMovesLedger(s, s', x.row, ok && x.pc.ReturnSeat?);
  }

  /** Either the seat of one row comes back, or no booking that counts has changed. */
  lemma RunMovesLedger(s: State, s': State, r: nat, released: bool)
    requires |s.notes| == |s.store.rows| == |s'.notes| == |s'.store.rows| && r < |s.notes| && s'.batches == s.batches
    requires s'.store.rows == s.store.rows[r := s'.store.rows[r]] && s'.notes == s.notes[r := s'.notes[r]]
    requires s'.store.seats == s.store.seats + (if released then 1 else 0)
    requires released ==> s'.notes[r] == Released(s.notes[r]) && s'.store.rows[r] == s.store.rows[r]
    requires !released ==> Returns(s'.notes[r]) == Returns(s.notes[r])
    requires !released ==> s'.store.rows[r] == s.store.rows[r] || Returns(s.notes[r]) > 0
    requires Sum(s.batches, Hold) >= 0
    ensures var m := if released then ReturnMove(s, r) else Stutter;
            Allowed(Abs(s), m) && Abs(s') == Post(Abs(s), m)
  {
    BookingChanges(s, s', r);
    SumNonNegative(Bookings(s), Open);
  }

  lemma RunSeats(s: State, x: ExpiryRun, ok: bool)
    requires x.row < |s.store.rows| && x.row < |s.notes|
    ensures RunDoes(s, x, ok).store.seats == s.store.seats + (if ok && x.pc.ReturnSeat? then 1 else 0)
  {}

  lemma PaymentRefines(c: Config, s: State, r: nat, u: UserId)
    requires Sound(c, s)
    ensures WellFormed(Apply(c, s, Settle(r, u)))
    ensures Allowed(Abs(s), MoveOf(s, Settle(r, u)))
    ensures Abs(Apply(c, s, Settle(r, u))) == Post(Abs(s), MoveOf(s, Settle(r, u)))
  {
    if Pay(s.store, r, u, s.clock).1.PaymentDone? {
      BookingChanges(s, Apply(c, s, Settle(r, u)), r);
      SumNonNegative(s.batches, Hold);
    } else {
      assert Bookings(Apply(c, s, Settle(r, u))) == Bookings(s);
    }
  }

  lemma QuietRefines(s: State, s': State)
    requires |s.notes| == |s.store.rows| && s'.store.rows == s.store.rows && s'.notes == s.notes
    requires s'.store.seats == s.store.seats && s'.batches == s.batches
    ensures Abs(s') == Abs(s)
  {}

  /** Every step is one ledger move or a stutter. */
  lemma StepRefines(c: Config, s: State, a: Action)
    requires Sound(c, s) && Enabled(s, a)
    ensures WellFormed(Apply(c, s, a))
    ensures Allowed(Abs(s), MoveOf(s, a))
    ensures Abs(Apply(c, s, a)) == Post(Abs(s), MoveOf(s, a))
  {
    ApplyWellFormed(c, s, a);
    match a
    case BatchStep(i, ok) =>
      if ok && s.batches[i].pc.SaveRow? { SaveRefines(c, s, i); }
      else if ok && s.batches[i].pc.Refund? && s.batches[i].pc.saved.Some? { RefundRefines(c, s, i); }
      else { BatchStepRefines(c, s, i, ok); }
    case RunStep(j, ok) => RunStepRefines(c, s, j, ok);
    case Settle(r, u) => PaymentRefines(c, s, r, u);
    case OpenBatch => OpenBatchInvisible(c, s);
    case _ => QuietRefines(s, Apply(c, s, a));
  }

  lemma OpenBatchInvisible(c: Config, s: State)
    requires |s.notes| == |s.store.rows|
    ensures Abs(StartBatch(c, s)) == Abs(s)
  {}

  lemma SoundReachable(c: Config, s: State)
    requires Reachable(c, s)
    ensures Sound(c, s)
  {
    SeatsReachable(c, s);
    TimelyReachable(c, s);
    var acts :| LeadsTo(c, Initial(c), acts, s);
    assert WellFormed(After(c, Initial(c), acts));
  }

  ghost predicate Valid(c: Config, acts: seq<Action>) { Schedule(c, Initial(c), acts) }

  ghost function End(c: Config, acts: seq<Action>): (s: State)
    requires Valid(c, acts)
    ensures Reachable(c, s) && WellFormed(s)
  {
    assert LeadsTo(c, Initial(c), acts, After(c, Initial(c), acts));
    After(c, Initial(c), acts)
  }

  /** The ledger moves behind a schedule. */
  ghost function Moves(c: Config, acts: seq<Action>): seq<Move>
    requires Valid(c, acts)
    decreases |acts|
  {
    if acts == [] then []
    else Moves(c, acts[..|acts| - 1]) + [MoveOf(End(c, acts[..|acts| - 1]), acts[|acts| - 1])]
  }

  /** Refinement over whole schedules of unboundedly many batches and expiry runs with arbitrary faults. */
  lemma {:induction false} ProtocolRefinesLedger(c: Config, acts: seq<Action>)
    requires Valid(c, acts)
    ensures Legal(c.event.totalSeats, Moves(c, acts))
    ensures Replay(c.event.totalSeats, Moves(c, acts)) == Abs(End(c, acts))
    decreases |acts|
  {
    if acts == [] {
    } else {
      var init, a := acts[..|acts| - 1], acts[|acts| - 1];
      var s, moves := End(c, init), Moves(c, acts);
      SoundReachable(c, s);
      ProtocolRefinesLedger(c, init);
      StepRefines(c, s, a);
      assert moves[..|moves| - 1] == Moves(c, init);
    }
  }

  // ---------- Forfeits ----------

  /** The seat of a PAID reservation is returned only by a catch block, or if its job is due in the very millisecond
      of its expiry. */
  lemma ForfeitNeedsDueJob(s: State, a: Action)
    requires WellFormed(s) && Enabled(s, a) && Timing(s) && AllPaidApart(s) && MoveOf(s, a).Forfeit?
    ensures a.BatchStep? || (a.RunStep? && !Punctual(s, s.runs[a.run].row))
  {
    if a.RunStep? {
      var x := s.runs[a.run];
      assert PaidApart(s, x.row) && Touching(x, x.row);
    }
  }

  /** Jobs are due after their reservations expire, and no promotion broke off after its save. */
  ghost predicate Unforced(s: State) {
    && (forall r :: 0 <= r < |s.store.rows| ==> Punctual(s, r))
    && (forall r :: 0 <= r < |s.notes| ==> s.notes[r].refunds == 0)
  }

  lemma PunctualBefore(c: Config, s: State, a: Action, r: nat)
    requires WellFormed(s) && Enabled(s, a) && Timing(s) && r < |s.store.rows| && Unforced(Apply(c, s, a))
    ensures Punctual(s, r)
  {
    JobStays(c, s, a, r);
    assert Punctual(Apply(c, s, a), r);
  }

  /** Jobs, expiry times and refunds stay, so an unforced end means an unforced past. */
  lemma UnforcedBefore(c: Config, s: State, a: Action)
    requires WellFormed(s) && Enabled(s, a) && Timing(s) && Unforced(Apply(c, s, a))
    ensures Unforced(s) && !(a.BatchStep? && MoveOf(s, a).Forfeit?)
  {
    var s' := Apply(c, s, a);
    forall r | 0 <= r < |s.store.rows| ensures Punctual(s, r) { PunctualBefore(c, s, a, r); }
    forall r | 0 <= r < |s.notes| ensures s.notes[r].refunds == 0 {
      RefundsStay(c, s, a, r);
      assert s'.notes[r].refunds == 0;
    }
    if a.BatchStep? && MoveOf(s, a).Forfeit? { RefundsStay(c, s, a, s.batches[a.batch].pc.saved.value); }
  }

  /** If in the end every job is due strictly after its reservation expires and no promotion broke off after its
      save, no step returned the seat of a PAID reservation. */
  lemma {:induction false} PunctualJobsForfeitNothing(c: Config, acts: seq<Action>)
    requires Valid(c, acts) && Unforced(End(c, acts))
    ensures Forfeit !in Moves(c, acts)
    decreases |acts|
  {
    if acts == [] {
    } else {
      var init, a := acts[..|acts| - 1], acts[|acts| - 1];
      var s := End(c, init);
      OrderlyReachable(c, s);
      UnforcedBefore(c, s, a);
      PunctualJobsForfeitNothing(c, init);
      if MoveOf(s, a).Forfeit? { ForfeitNeedsDueJob(s, a); }
    }
  }

  // ---------- What the ledger says about the house ----------

  lemma {:induction false} OwedSplits(notes: seq<Note>)
    ensures Sum(notes, Owed) == Sum(notes, Unreturned) - Sum(notes, Extra)
  {
    if notes == [] {
    } else {
      OwedSplits(notes[..|notes| - 1]);
    }
  }

  /** In every reachable state the seats of the ledger add up to the house plus the returns beyond the first, and the
      counter is short of the ledger's free seats by the losers in flight only. */
  lemma SeatsConserved(c: Config, s: State)
    requires Reachable(c, s)
    ensures |s.notes| == |s.store.rows|
    ensures Abs(s).free + Abs(s).taken + Abs(s).paid == c.event.totalSeats + Sum(s.notes, Extra)
    ensures Abs(s).free >= 0 && s.store.seats >= -Sum(s.batches, Losing)
    ensures Abs(s).taken + Abs(s).paid == Sum(s.batches, Hold) + Sum(s.notes, Unreturned)
  {
    SoundReachable(c, s);
    OwedSplits(s.notes);
    OpenOrKept(Bookings(s), s.notes);
  }

  /** The credits of a schedule are its returns beyond the first of each seat, no more and no fewer. */
  lemma CreditsAreDefects(c: Config, acts: seq<Action>)
    requires Valid(c, acts)
    ensures Sum(Moves(c, acts), IsCredit) == Sum(End(c, acts).notes, Extra)
  {
    ProtocolRefinesLedger(c, acts);
    CreditsOf(c, End(c, acts), Moves(c, acts));
  }

  lemma CreditsOf(c: Config, s: State, moves: seq<Move>)
    requires |s.notes| == |s.store.rows|
    requires Reachable(c, s) && Legal(c.event.totalSeats, moves) && Replay(c.event.totalSeats, moves) == Abs(s)
    ensures Sum(moves, IsCredit) == Sum(s.notes, Extra)
  {
    LedgerSafe(c.event.totalSeats, moves);
    SeatsConserved(c, s);
  }

  /** A reservation with a claim to a seat: PAID, or pending and not expired by the return of its seat. */
  function Claims(b: Booking): int {
    if b.row.status.Paid? || (b.row.status.PendingPayment? && b.note.releases == 0) then 1 else 0
  }

  /** Returns of a seat that its reservation did not give up. */
  function Surplus(b: Booking): int { Returns(b.note) - (1 - Claims(b)) }

  /** Seats held, and reservations with a claim. */
  function Occupied(s: State): int
    requires |s.notes| == |s.store.rows|
  {
    Sum(s.batches, Hold) + Sum(Bookings(s), Claims)
  }

  lemma {:induction false} ClaimsOwed(bookings: seq<Booking>, notes: seq<Note>)
    requires |bookings| == |notes| && forall k :: 0 <= k < |notes| ==> bookings[k].note == notes[k]
    ensures Sum(bookings, Claims) == Sum(notes, Owed) + Sum(bookings, Surplus)
  {
    if notes == [] {
    } else {
      ClaimsOwed(bookings[..|notes| - 1], notes[..|notes| - 1]);
    }
  }

  /** Nobody gave up a seat in vain: with runs on time, jobs due after expiry and no promotion broken off after its
      save, every return is that of an expired reservation. */
  lemma NoSurplus(c: Config, s: State, r: nat)
    requires Reachable(c, s) && Brisk(s) && |s.notes| == |s.store.rows| && Unforced(s) && r < |s.notes|
    ensures Surplus(Bookings(s)[r]) == 0
  {
    ReleasedExactlyOnce(c, s, r);
    PaidExcludesReleased(c, s, r);
    OrderlyReachable(c, s);
    assert PaidApart(s, r) && Punctual(s, r);
  }

  /** Oversell, exactly: seats held and reservations with a claim outnumber the house if and only if more seats were
      returned that nobody gave up than are free now; so never, if no promotion broke off after its save, jobs are due
      after expiry, and no expiry run takes half the life of a lock. */
  lemma NoOversell(c: Config, s: State)
    requires Reachable(c, s)
    ensures |s.notes| == |s.store.rows|
    ensures Occupied(s) <= c.event.totalSeats
       <==> Sum(Bookings(s), Surplus) <= s.store.seats + Sum(s.batches, Losing)
    ensures Brisk(s) && Unforced(s) ==> Occupied(s) <= c.event.totalSeats
  {
    SoundReachable(c, s);
    ClaimsOwed(Bookings(s), s.notes);
    LosersNonNegative(s);
    if Brisk(s) && Unforced(s) {
      forall r | 0 <= r < |s.notes| ensures Surplus(Bookings(s)[r]) == 0 { NoSurplus(c, s, r); }
      SumZero(Bookings(s), Surplus);
    }
  }

  /** The decision of a DECR, exactly: it grants if the seats held, those owed by losers and the reservations whose seat
      was never returned do not yet fill the house and the seats returned again. */
  lemma GrantedIff(c: Config, s: State, i: nat)
    requires Reachable(c, s) && WellFormed(s)
    requires i < |s.batches| && Working(s.batches[i]) && s.batches[i].pc.Decrement?
    ensures var pc := Apply(c, s, BatchStep(i, true)).batches[i].pc;
            && (pc.Stamp? || pc.Undo?)
            && (pc.Stamp? <==> Sum(s.batches, Hold) + Sum(s.batches, Losing) + Sum(s.notes, Unreturned)
                               < c.event.totalSeats + Sum(s.notes, Extra))
  {
    SeatsConserved(c, s);
  }
}
