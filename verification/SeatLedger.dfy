/** Where every seat is in every reachable interleaved state, and the simple ledger that the
    protocol refines. */
module SeatLedger {
  import opened Domain
  import opened Counting
  import opened Protocol

  /** Granted by a DECR, not yet a reservation row. */
  function Hold(b: Batch): int {
    match b.pc case Stamp(_) => 1 case SaveRow(_, _) => 1 case Refund(_, None) => 1 case _ => 0
  }

  /** Between a losing DECR and its INCR. */
  function Losing(b: Batch): int { if b.pc.Undo? then 1 else 0 }

  /** How often the seat of a reservation was returned: by expiry runs and by the catch block of its promotion. */
  function Returns(n: Note): nat { n.releases + n.refunds }

  function Returned(n: Note): int { Returns(n) }

  /** The seat a reservation took, less the seats returned on its account. */
  function Owed(n: Note): int { 1 - Returns(n) }

  /** Every seat is in the counter, held, about to be put back by a loser, or owed by a reservation. */
  ghost predicate Conserved(c: Config, s: State) {
    && s.store.seats + Sum(s.batches, Hold) + Sum(s.batches, Losing) + Sum(s.notes, Owed)
       == c.event.totalSeats
    && s.store.seats + Sum(s.batches, Losing) >= 0
  }

  /** Every granted seat is held, has become a row, or was refunded. */
  ghost predicate GrantsTraced(s: State) {
    s.log.granted == Sum(s.batches, Hold) + |s.notes| + s.log.refunded
  }

  ghost predicate SeatInvariant(c: Config, s: State) {
    Conserved(c, s) && GrantsTraced(s)
  }

  /** From `s` to `t` no seat came back: none was refunded, none released. */
  ghost predicate NothingBack(s: State, t: State) {
    t.log.refunded == s.log.refunded && Sum(t.notes, Returned) == Sum(s.notes, Returned)
  }

  function Grants(s: State, t: State): int { t.log.granted - s.log.granted }

  function Denials(s: State, t: State): int { t.log.denied - s.log.denied }

  /** `t` after `s`: seats once back stay back, and while none came back, denials and losers mean that
      every seat counted in `s` has been granted since. */
  ghost predicate FairSince(s: State, t: State) {
    && t.log.refunded >= s.log.refunded
    && Sum(t.notes, Returned) >= Sum(s.notes, Returned)
    && Denials(s, t) >= 0
    && (NothingBack(s, t) ==>
          && 0 <= Grants(s, t) <= s.store.seats
          && (Denials(s, t) > 0 || Sum(t.batches, Losing) > 0 ==> Grants(s, t) == s.store.seats))
  }

  lemma {:induction false} OwedIs(notes: seq<Note>)
    ensures Sum(notes, Owed) == |notes| - Sum(notes, Returned)
    ensures Sum(notes, Returned) >= 0
  {
    if notes == [] {
    } else {
      OwedIs(notes[..|notes| - 1]);
    }
  }

  lemma LosersNonNegative(s: State)
    ensures Sum(s.batches, Losing) >= 0
    ensures Sum(s.batches, Hold) >= 0
  {
    SumNonNegative(s.batches, Losing);
    SumNonNegative(s.batches, Hold);
  }

  /** The catch block returns the seat of a row that was saved. */
  function LateRefund(b: Batch, ok: bool): int { if ok && b.pc.Refund? && b.pc.saved.Some? then 1 else 0 }

  /** A batch step only trades seats between the counter, holds, losers, rows and late refunds. */
  ghost predicate Trades(s: State, b: Batch, ok: bool, e: BatchView) {
    e.store.seats - s.store.seats + Hold(e.batch) - Hold(b) + Losing(e.batch) - Losing(b) + |e.notes| - |s.notes|
    == LateRefund(b, ok)
  }

  /** Every grant becomes a hold, every hold a row or a refund. */
  ghost predicate TracesGrants(s: State, b: Batch, e: BatchView) {
    && e.log.granted - s.log.granted
       == Hold(e.batch) - Hold(b) + |e.notes| - |s.notes| + e.log.refunded - s.log.refunded
    && e.log.refunded >= s.log.refunded
  }

  /** A step takes no seat from the counter for good unless there is one. */
  ghost predicate LeavesSeats(s: State, b: Batch, e: BatchView) {
    e.store.seats + Losing(e.batch) >= s.store.seats + Losing(b) - (if s.store.seats >= 1 then 1 else 0)
  }

  /** Only a DECR that finds a seat is a grant, and only one that finds none is denied. */
  ghost predicate DecrementsFairly(s: State, b: Batch, e: BatchView) {
    && (if e.log.granted == s.log.granted
        then e.log.denied > s.log.denied || Losing(e.batch) > Losing(b) ==> s.store.seats < 1
        else e.log.granted == s.log.granted + 1 && s.store.seats >= 1 && Losing(e.batch) == Losing(b))
    && e.log.denied >= s.log.denied
  }

  lemma BatchDoesTrade(s: State, b: Batch, ok: bool)
    ensures Trades(s, b, ok, BatchDoes(s, b, ok))
  {
    BatchFrameNotes(s, b, ok);
    match b.pc
    case Decrement(_) =>
    case SaveRow(_, _) =>
    case Undo(_) =>
    case Refund(_, _) =>
    case _ =>
  }

  lemma BatchDoesTraceGrants(s: State, b: Batch, ok: bool)
    ensures TracesGrants(s, b, BatchDoes(s, b, ok))
  {}

  lemma BatchDoesLeaveSeats(s: State, b: Batch, ok: bool)
    ensures LeavesSeats(s, b, BatchDoes(s, b, ok))
  {}

  lemma BatchDoesDecrementFairly(s: State, b: Batch, ok: bool)
    ensures DecrementsFairly(s, b, BatchDoes(s, b, ok))
  {}

  lemma SumsAfterRefund(notes: seq<Note>, r: nat)
    requires r < |notes|
    ensures Sum(Refunded(notes, r), Owed) == Sum(notes, Owed) - 1
    ensures Sum(Refunded(notes, r), Returned) == Sum(notes, Returned) + 1
  {
    SumUpdate(notes, r, Refunded(notes, r)[r], Owed);
    SumUpdate(notes, r, Refunded(notes, r)[r], Returned);
  }

  lemma NotesAfterBatch(s: State, b: Batch, ok: bool)
    requires |s.notes| == |s.store.rows| && RowInRange(b.pc, |s.notes|)
    ensures var e := BatchDoes(s, b, ok);
            && Sum(e.notes, Owed) == Sum(s.notes, Owed) + |e.notes| - |s.notes| - LateRefund(b, ok)
            && Sum(e.notes, Returned) == Sum(s.notes, Returned) + LateRefund(b, ok)
  {
    BatchFrameNotes(s, b, ok);
    if ok && b.pc.SaveRow? {
      SumAppend(s.notes, Note(0, 0, 0, 0), Owed);
      SumAppend(s.notes, Note(0, 0, 0, 0), Returned);
    } else if LateRefund(b, ok) == 1 {
      SumsAfterRefund(s.notes, b.pc.saved.value);
    }
  }

  /** The sums after a batch step, in terms of what the step did to its own batch. */
  lemma BatchStepSums(c: Config, s: State, i: nat, ok: bool)
    requires WellFormed(s) && Enabled(s, BatchStep(i, ok))
    ensures var s', e := Apply(c, s, BatchStep(i, ok)), BatchDoes(s, s.batches[i], ok);
            && Sum(s'.batches, Hold) == Sum(s.batches, Hold) - Hold(s.batches[i]) + Hold(e.batch)
            && Sum(s'.batches, Losing) == Sum(s.batches, Losing) - Losing(s.batches[i]) + Losing(e.batch)
            && Sum(s'.notes, Owed) == Sum(s.notes, Owed) + |e.notes| - |s.notes| - LateRefund(s.batches[i], ok)
            && Sum(s'.notes, Returned) == Sum(s.notes, Returned) + LateRefund(s.batches[i], ok)
  {
    var b' := BatchDoes(s, s.batches[i], ok).batch;
    NotesAfterBatch(s, s.batches[i], ok);
    SumUpdate(s.batches, i, b', Hold);
    SumUpdate(s.batches, i, b', Losing);
  }

  lemma BatchStepSeats(c: Config, s: State, i: nat, ok: bool)
    requires WellFormed(s) && Enabled(s, BatchStep(i, ok)) && SeatInvariant(c, s)
    ensures SeatInvariant(c, Apply(c, s, BatchStep(i, ok)))
  {
    BatchStepSums(c, s, i, ok);
    BatchDoesTrade(s, s.batches[i], ok);
    BatchDoesTraceGrants(s, s.batches[i], ok);
    BatchDoesLeaveSeats(s, s.batches[i], ok);
    BatchDoesDecrementFairly(s, s.batches[i], ok);
    OwedIs(s.notes);
    LosersNonNegative(s);
    LosersNonNegative(Apply(c, s, BatchStep(i, ok)));
  }

  lemma RunStepSeats(c: Config, s: State, j: nat, ok: bool)
    requires WellFormed(s) && Enabled(s, RunStep(j, ok)) && SeatInvariant(c, s)
    ensures SeatInvariant(c, Apply(c, s, RunStep(j, ok)))
  {
    var s' := Apply(c, s, RunStep(j, ok));
    var r := s.runs[j].row;
    assert s'.notes == s.notes[r := s'.notes[r]];
    SumUpdate(s.notes, r, s'.notes[r], Owed);
    SumUpdate(s.notes, r, s'.notes[r], Returned);
    OwedIs(s.notes);
  }

  lemma OpenBatchSeats(c: Config, s: State)
    requires SeatInvariant(c, s)
    ensures SeatInvariant(c, StartBatch(c, s))
  {
    var b := StartBatch(c, s).batches[|s.batches|];
    SumAppend(s.batches, b, Hold);
    SumAppend(s.batches, b, Losing);
  }

  lemma StepKeepsSeats(c: Config, s: State, a: Action)
    requires WellFormed(s) && Enabled(s, a) && SeatInvariant(c, s)
    ensures SeatInvariant(c, Apply(c, s, a))
  {
    match a
    case BatchStep(i, ok) => BatchStepSeats(c, s, i, ok);
    case RunStep(j, ok) => RunStepSeats(c, s, j, ok);
    case OpenBatch => OpenBatchSeats(c, s);
    case _ =>
  }

  /** Conservation after every schedule, with any interleaving and any faults. */
  lemma {:induction false} SeatsAlways(c: Config, s: State, acts: seq<Action>)
    requires WellFormed(s) && SeatInvariant(c, s) && Schedule(c, s, acts)
    ensures SeatInvariant(c, After(c, s, acts))
    decreases |acts|
  {
    if acts == [] {
    } else {
      SeatsAlways(c, s, acts[..|acts| - 1]);
      StepKeepsSeats(c, After(c, s, acts[..|acts| - 1]), acts[|acts| - 1]);
    }
  }

  lemma SeatsReachable(c: Config, s: State)
    requires Reachable(c, s)
    ensures SeatInvariant(c, s)
  {
    var acts :| LeadsTo(c, Initial(c), acts, s);
    SeatsAlways(c, Initial(c), acts);
  }

  // ---------- The last seats ----------

  /** While nothing came back, every seat counted in `s` is granted since, or still in the counter of `t` once the
      losers have put theirs back. */
  lemma SeatsSince(c: Config, s: State, t: State)
    requires SeatInvariant(c, s) && SeatInvariant(c, t) && NothingBack(s, t) && Sum(s.batches, Losing) == 0
    ensures t.store.seats + Sum(t.batches, Losing) == s.store.seats - Grants(s, t)
    ensures s.store.seats >= 0
  {
    OwedIs(s.notes);
    OwedIs(t.notes);
  }

  lemma BatchStepFair(c: Config, s: State, t: State, i: nat, ok: bool)
    requires WellFormed(t) && Enabled(t, BatchStep(i, ok)) && SeatInvariant(c, s) && SeatInvariant(c, t)
    requires Sum(s.batches, Losing) == 0 && FairSince(s, t)
    ensures FairSince(s, Apply(c, t, BatchStep(i, ok)))
  {
    var t' := Apply(c, t, BatchStep(i, ok));
    BatchStepSums(c, t, i, ok);
    BatchDoesTrade(t, t.batches[i], ok);
    BatchDoesTraceGrants(t, t.batches[i], ok);
    BatchDoesLeaveSeats(t, t.batches[i], ok);
    BatchDoesDecrementFairly(t, t.batches[i], ok);
    LosersNonNegative(t);
    if NothingBack(s, t') {
      assert NothingBack(s, t);
      SeatsSince(c, s, t);
    }
  }

  lemma StepKeepsFair(c: Config, s: State, t: State, a: Action)
    requires WellFormed(t) && Enabled(t, a) && SeatInvariant(c, s) && SeatInvariant(c, t)
    requires Sum(s.batches, Losing) == 0 && FairSince(s, t)
    ensures FairSince(s, Apply(c, t, a))
  {
    match a
    case BatchStep(i, ok) => BatchStepFair(c, s, t, i, ok);
    case RunStep(j, ok) =>
      var t' := Apply(c, t, a);
      SumUpdate(t.notes, t.runs[j].row, t'.notes[t.runs[j].row], Returned);
    case OpenBatch => SumAppend(t.batches, StartBatch(c, t).batches[|t.batches|], Losing);
    case _ =>
  }

  lemma {:induction false} FairAlways(c: Config, s: State, acts: seq<Action>)
    requires WellFormed(s) && SeatInvariant(c, s) && Sum(s.batches, Losing) == 0 && Schedule(c, s, acts)
    ensures FairSince(s, After(c, s, acts))
    decreases |acts|
  {
    if acts == [] {
    } else {
      var init := acts[..|acts| - 1];
      SeatsAlways(c, s, init);
      FairAlways(c, s, init);
      StepKeepsFair(c, s, After(c, s, init), acts[|acts| - 1]);
    }
  }

  /** The last seats: from any reachable state with N seats in the counter and no losers in flight, for as long
      as no seat comes back, M decrements in any interleaving grant exactly min(M, N); a denial means that all N
      are granted; and the counter is N - min(M, N) but for the losers in flight. */
  lemma LastSeats(c: Config, s: State, t: State)
    requires Reachable(c, s) && WellFormed(s) && Leads(c, s, t)
    ensures Sum(s.batches, Losing) == 0 && NothingBack(s, t) ==>
              && s.store.seats >= 0
              && Grants(s, t) == Min(Grants(s, t) + Denials(s, t), s.store.seats)
              && (Denials(s, t) > 0 ==> Grants(s, t) == s.store.seats)
              && t.store.seats + Sum(t.batches, Losing) == Max(0, s.store.seats - (Grants(s, t) + Denials(s, t)))
  {
    SeatsReachable(c, s);
    var acts :| LeadsTo(c, s, acts, t);
    SeatsAlways(c, s, acts);
    if Sum(s.batches, Losing) == 0 && NothingBack(s, t) {
      FairAlways(c, s, acts);
      SeatsSince(c, s, t);
    }
  }
}
