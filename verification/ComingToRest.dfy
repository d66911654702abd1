/** From every state the system can come to rest without breaking off a promotion: whatever is past its save runs on,
    everything else stops at a rejected command. A reservation that disagrees with its user's entry stays so. */
module ComingToRest {
  import opened Domain
  import opened WaitingQueue
  import opened Coupling
  import opened Protocol
  import opened ReleaseOnce
  import opened PaidOrReleased
  import opened LedgerRefinement
  import opened TidyEntries
  import opened SinglePromotion
  import opened AtRest

  /** The entry names another row, or has a status that does not fit row `r`. */
  predicate Misfits(e: Entry, r: nat, status: ReservationStatus) {
    e.reservation == Some(r) ==>
      match status
      case PendingPayment => !e.status.Active?
      case Paid => !e.status.Done?
      case Expired => !e.status.Expired?
      case Canceled => true
  }

  /** An expiry run is about to mark the entry of `u`. */
  predicate Marks(s: State, x: ExpiryRun, u: UserId) {
    x.alive && x.pc.MarkEntry? && x.row < |s.store.rows| && s.store.rows[x.row].user == u
  }

  /** The entry of its user misfits row `r`, and neither a promotion nor an expiry run under way will make it fit. */
  ghost predicate Muddled(s: State, r: nat) {
    && r < |s.store.rows| && s.store.rows[r].user in s.store.entries
    && Misfits(s.store.entries[s.store.rows[r].user], r, s.store.rows[r].status)
    && (s.store.rows[r].status.PendingPayment? ==> forall i :: 0 <= i < |s.batches| ==> !Enters(s.batches[i], r))
    && (s.store.rows[r].status.Expired? ==>
          forall j :: 0 <= j < |s.runs| ==> !Marks(s, s.runs[j], s.store.rows[r].user))
  }

  predicate Enters(b: Batch, r: nat) { (b.pc.AddJob? || b.pc.MarkActive?) && b.pc.row == r }

  lemma MuddledDisagrees(s: State, r: nat)
    requires Muddled(s, r)
    ensures !UsersAgree(s.store)
  {
    var u := s.store.rows[r].user;
    if s.store.entries[u].reservation == Some(r) { assert !EntryAgrees(s.store, u); }
  }

  /** Jobs added from now on fall due after their reservations expire. */
  ghost predicate JobsToCome(s: State)
    requires WellFormed(s)
  {
    forall i :: 0 <= i < |s.batches| && s.batches[i].pc.AddJob? ==>
      s.store.rows[s.batches[i].pc.row].expiresAt < s.clock + RESERVATION_TTL
  }

  /** A run stopped right before it marked its entry, or a batch right before it took its loser off the queue. */
  ghost predicate StoppedHalfway(s: State) {
    || (exists j :: 0 <= j < |s.runs| && s.runs[j].pc.MarkEntry? && !s.runs[j].alive)
    || (exists i :: 0 <= i < |s.batches| && s.batches[i].pc.DropSoldOut? && !s.batches[i].alive
                    && InQueue(s.store.queue, s.batches[i].pc.user))
  }

  /** What the way from `s` to rest at `t` keeps. */
  ghost predicate Calmer(s: State, t: State, r: nat)
    requires WellFormed(s) && WellFormed(t)
  {
    && |t.batches| == |s.batches| && |t.runs| == |s.runs|
    && t.store.rows == s.store.rows && t.log.broken == s.log.broken
    && (Muddled(s, r) ==> Muddled(t, r))
    && (JobsToCome(s) ==> JobsToCome(t))
    && (JobsToCome(s) && Unforced(s) ==> Unforced(t))
    && (StoppedHalfway(t) ==> StoppedHalfway(s))
  }

  // ---------- Batches ----------

  /** Past its save, or right before it takes its loser off the queue: the promotion runs on. */
  predicate RunsOn(b: Batch) {
    b.pc.AddJob? || b.pc.MarkActive? || b.pc.Dequeue? || b.pc.SetKey? || b.pc.CountKey? || b.pc.DropSoldOut?
  }

  /** Commands until the batch is at rest. */
  function StepsLeft(b: Batch): nat {
    if !Working(b) then 0
    else match b.pc
         case AddJob(_, _) => 7
         case MarkActive(_, _) => 6
         case Dequeue(_, _) => 5
         case SetKey(_, _) => 4
         case CountKey(_, _) => 3
         case SaveRow(_, _) => 2
         case DropSoldOut(_) => 2
         case _ => 1
  }

  lemma CalmStepShortens(s: State, b: Batch)
    requires Working(b)
    ensures StepsLeft(BatchDoes(s, b, RunsOn(b)).batch) < StepsLeft(b)
    ensures BatchDoes(s, b, RunsOn(b)).log.broken == s.log.broken
  {}

  lemma CalmStepRows(s: State, b: Batch)
    requires Working(b)
    ensures var e := BatchDoes(s, b, RunsOn(b));
            && e.store.rows == s.store.rows && e.notes == s.notes
            && e.store.jobs == (if b.pc.AddJob? then s.store.jobs[b.pc.row := s.clock + RESERVATION_TTL]
                                else s.store.jobs)
            && e.store.entries == (if b.pc.MarkActive? then WithReservation(s.store.entries, b.pc.user, b.pc.row)
                                   else s.store.entries)
  {
    BatchFrameRows(s, b, RunsOn(b));
    BatchFrameJobs(s, b, RunsOn(b));
    BatchWritesEntries(s, b, RunsOn(b));
  }

  lemma CalmStepPlaces(s: State, b: Batch)
    requires Working(b)
    ensures var b' := BatchDoes(s, b, RunsOn(b)).batch;
            && !b'.pc.AddJob?
            && (b'.pc.MarkActive? ==> b.pc.AddJob? && b'.pc.row == b.pc.row)
            && !b'.pc.DropSoldOut?
  {
    BatchMoves(s, b, RunsOn(b));
  }

  lemma {:induction false} RemoveShrinks(q: seq<Member>, u: UserId, v: UserId)
    ensures InQueue(Remove(q, u), v) ==> InQueue(q, v)
  {
    if q == [] || q[0].user == u {
    } else {
      RemoveShrinks(q[1..], u, v);
      assert q == [q[0]] + q[1..];
    }
  }

  lemma BatchStepMuddled(c: Config, s: State, i: nat, r: nat)
    requires WellFormed(s) && i < |s.batches| && Working(s.batches[i]) && Muddled(s, r)
    ensures Muddled(Apply(c, s, BatchStep(i, RunsOn(s.batches[i]))), r)
  {
    CalmStepRows(s, s.batches[i]);
    CalmStepPlaces(s, s.batches[i]);
    assert Enters(s.batches[i], r) || !Enters(s.batches[i], r);
  }

  lemma BatchStepUnforced(c: Config, s: State, i: nat)
    requires WellFormed(s) && i < |s.batches| && Working(s.batches[i]) && JobsToCome(s)
    ensures var t := Apply(c, s, BatchStep(i, RunsOn(s.batches[i])));
            WellFormed(t) && JobsToCome(t) && (Unforced(s) ==> Unforced(t))
  {
    var t := Apply(c, s, BatchStep(i, RunsOn(s.batches[i])));
    ApplyWellFormed(c, s, BatchStep(i, RunsOn(s.batches[i])));
    CalmStepRows(s, s.batches[i]);
    CalmStepPlaces(s, s.batches[i]);
    if Unforced(s) {
      forall r | 0 <= r < |t.store.rows| ensures Punctual(t, r) { assert Punctual(s, r); }
    }
  }

  lemma BatchStepHalfway(c: Config, s: State, i: nat)
    requires WellFormed(s) && i < |s.batches| && Working(s.batches[i])
    requires StoppedHalfway(Apply(c, s, BatchStep(i, RunsOn(s.batches[i]))))
    ensures StoppedHalfway(s)
  {
    var t := Apply(c, s, BatchStep(i, RunsOn(s.batches[i])));
    CalmStepPlaces(s, s.batches[i]);
    BatchDoesQueue(s, s.batches[i], RunsOn(s.batches[i]));
    if k :| 0 <= k < |t.batches| && t.batches[k].pc.DropSoldOut? && !t.batches[k].alive
            && InQueue(t.store.queue, t.batches[k].pc.user) {
      if RunsOn(s.batches[i]) { RemoveShrinks(s.store.queue, s.batches[i].pc.user, t.batches[k].pc.user); }
      assert s.batches[k] == t.batches[k];
    }
  }

  lemma BatchStepCalms(c: Config, o: State, s: State, i: nat, r: nat) returns (t: State)
    requires WellFormed(o) && Leads(c, o, s) && WellFormed(s) && i < |s.batches| && Working(s.batches[i])
    ensures Leads(c, o, t) && WellFormed(t) && Calmer(s, t, r)
    ensures t.batches == s.batches[i := t.batches[i]] && StepsLeft(t.batches[i]) < StepsLeft(s.batches[i])
  {
    t := Apply(c, s, BatchStep(i, RunsOn(s.batches[i])));
    StepLeads(c, o, s, BatchStep(i, RunsOn(s.batches[i])));
    CalmStepShortens(s, s.batches[i]);
    CalmStepRows(s, s.batches[i]);
    if Muddled(s, r) { BatchStepMuddled(c, s, i, r); }
    if JobsToCome(s) { BatchStepUnforced(c, s, i); }
    if StoppedHalfway(t) { BatchStepHalfway(c, s, i); }
  }

  lemma {:induction false} BatchRests(c: Config, o: State, s: State, i: nat, r: nat) returns (t: State)
    requires WellFormed(o) && Leads(c, o, s) && WellFormed(s) && i < |s.batches|
    ensures Leads(c, o, t) && WellFormed(t) && Calmer(s, t, r)
    ensures t.batches == s.batches[i := t.batches[i]] && !Working(t.batches[i])
    decreases StepsLeft(s.batches[i])
  {
    if !Working(s.batches[i]) {
      t := s;
    } else {
      var s1 := BatchStepCalms(c, o, s, i, r);
      t := BatchRests(c, o, s1, i, r);
    }
  }

  /** The first `n` batches come to rest. */
  lemma {:induction false} BatchesRest(c: Config, o: State, s: State, n: nat, r: nat) returns (t: State)
    requires WellFormed(o) && Leads(c, o, s) && WellFormed(s) && n <= |s.batches|
    ensures Leads(c, o, t) && WellFormed(t) && Calmer(s, t, r)
    ensures forall i :: 0 <= i < n ==> !Working(t.batches[i])
    decreases n
  {
    if n == 0 {
      t := s;
    } else {
      var s1 := BatchesRest(c, o, s, n - 1, r);
      t := BatchRests(c, o, s1, n - 1, r);
    }
  }

  // ---------- Expiry runs ----------

  predicate Running(x: ExpiryRun) { x.alive && !x.pc.RunOver? }

  /** A run past its write of the row marks the entry; any other stops. */
  lemma RunStepMuddled(c: Config, s: State, j: nat, r: nat)
    requires WellFormed(s) && j < |s.runs| && Running(s.runs[j]) && Muddled(s, r)
    ensures Muddled(Apply(c, s, RunStep(j, s.runs[j].pc.MarkEntry?)), r)
  {
    RunWritesEntries(s, s.runs[j], s.runs[j].pc.MarkEntry?);
    RunFrameRows(s, s.runs[j], s.runs[j].pc.MarkEntry?);
  }

  lemma RunStepCalms(c: Config, o: State, s: State, j: nat, r: nat) returns (t: State)
    requires WellFormed(o) && Leads(c, o, s) && WellFormed(s) && j < |s.runs| && Running(s.runs[j])
    ensures Leads(c, o, t) && WellFormed(t) && Calmer(s, t, r) && t.batches == s.batches
    ensures t.runs == s.runs[j := t.runs[j]]
    ensures Running(t.runs[j]) ==> s.runs[j].pc.MarkEntry? && t.runs[j].pc.DeleteKey?
  {
    t := Apply(c, s, RunStep(j, s.runs[j].pc.MarkEntry?));
    StepLeads(c, o, s, RunStep(j, s.runs[j].pc.MarkEntry?));
    RunFrame(s, s.runs[j], s.runs[j].pc.MarkEntry?);
    if Muddled(s, r) { RunStepMuddled(c, s, j, r); }
    if Unforced(s) {
      forall k | 0 <= k < |t.store.rows| ensures Punctual(t, k) { assert Punctual(s, k); }
    }
    assert StoppedHalfway(t) ==> StoppedHalfway(s);
  }

  lemma {:induction false} RunRests(c: Config, o: State, s: State, j: nat, r: nat) returns (t: State)
    requires WellFormed(o) && Leads(c, o, s) && WellFormed(s) && j < |s.runs|
    ensures Leads(c, o, t) && WellFormed(t) && Calmer(s, t, r) && t.batches == s.batches
    ensures t.runs == s.runs[j := t.runs[j]] && !Running(t.runs[j])
    decreases if s.runs[j].pc.MarkEntry? then 1 else 0
  {
    if !Running(s.runs[j]) {
      t := s;
    } else {
      t := RunStepCalms(c, o, s, j, r);
      if Running(t.runs[j]) { t := RunRests(c, o, t, j, r); }
    }
  }

  lemma {:induction false} RunsRest(c: Config, o: State, s: State, n: nat, r: nat) returns (t: State)
    requires WellFormed(o) && Leads(c, o, s) && WellFormed(s) && n <= |s.runs|
    ensures Leads(c, o, t) && WellFormed(t) && Calmer(s, t, r) && t.batches == s.batches
    ensures forall j :: 0 <= j < n ==> !Running(t.runs[j])
    decreases n
  {
    if n == 0 {
      t := s;
    } else {
      var s1 := RunsRest(c, o, s, n - 1, r);
      t := RunRests(c, o, s1, n - 1, r);
    }
  }

  // ---------- Everything ----------

  /** One millisecond passes. */
  lemma OneTick(c: Config, s: State) returns (t: State)
    requires Reachable(c, s) && WellFormed(s)
    ensures Leads(c, s, t) && WellFormed(t) && JobsToCome(t)
    ensures t == s.(clock := s.clock + 1, log := s.log.(window := t.log.window))
  {
    OrderlyReachable(c, s);
    LeadsToItself(c, s);
    StepLeads(c, s, s, Tick(1));
    t := Apply(c, s, Tick(1));
    forall i | 0 <= i < |t.batches| && t.batches[i].pc.AddJob?
      ensures t.store.rows[t.batches[i].pc.row].expiresAt < t.clock + RESERVATION_TTL
    {
      assert BatchTimed(s, s.batches[i]);
    }
  }

  /** From every reachable state the system can come to rest, without breaking off a promotion, adding a job too early
      or leaving anything halfway that was not left so before; rows stay, and what misfits goes on to misfit. */
  lemma ComesToRest(c: Config, s: State, r: nat) returns (t: State)
    requires Reachable(c, s) && WellFormed(s)
    ensures Leads(c, s, t) && AtRest.AtRest(t) && t.store.rows == s.store.rows && t.log.broken == s.log.broken
    ensures Muddled(s, r) ==> Muddled(t, r)
    ensures Unforced(s) ==> Unforced(t)
    ensures LeftHalfway(t) ==> StoppedHalfway(s)
  {
    var s1 := OneTick(c, s);
    var s2 := BatchesRest(c, s, s1, |s1.batches|, r);
    t := RunsRest(c, s, s2, |s2.runs|, r);
    TickKeeps(s, s1, r);
    assert AtRest.AtRest(t);
    assert LeftHalfway(t) ==> StoppedHalfway(t);
  }

  lemma TickKeeps(s: State, t: State, r: nat)
    requires t == s.(clock := t.clock, log := t.log)
    ensures Muddled(s, r) ==> Muddled(t, r)
    ensures Unforced(s) ==> Unforced(t)
    ensures StoppedHalfway(t) ==> StoppedHalfway(s)
  {
    if Unforced(s) {
      forall k | 0 <= k < |t.store.rows| ensures Punctual(t, k) { assert Punctual(s, k); }
    }
  }
}
