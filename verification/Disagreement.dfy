/** The conditions under which users and reservations agree at rest are needed: from every reachable state in which one
    of them is about to be broken, the system can come to rest in disagreement though nothing else goes wrong. */
module Disagreement {
  import opened Domain
  import opened Coupling
  import opened Protocol
  import opened PaidOrReleased
  import opened LedgerRefinement
  import opened SinglePromotion
  import opened TidyEntries
  import opened ComingToRest
  import opened ExpiryHazards
  import opened SeatsToCome
  import opened Hazards

  /** `t` follows `s` and is at rest in disagreement; on the way no promotion broke off, no job fell due too early, and
      nothing was left halfway that was not left so before. */
  ghost predicate RestsInDisagreement(c: Config, s: State, t: State)
    requires WellFormed(s)
  {
    && Leads(c, s, t) && AtRest.AtRest(t) && !UsersAgree(t.store) && t.log.broken == s.log.broken
    && (Unforced(s) ==> Unforced(t))
    && (AtRest.LeftHalfway(t) ==> StoppedHalfway(s))
  }

  /** A muddled state on the way comes to rest in disagreement. */
  lemma MuddleRests(c: Config, s: State, m: State, r: nat) returns (t: State)
    requires Reachable(c, s) && WellFormed(s) && Leads(c, s, m) && Muddled(m, r) && m.log.broken == s.log.broken
    requires (Unforced(s) ==> Unforced(m)) && (StoppedHalfway(m) ==> StoppedHalfway(s))
    ensures RestsInDisagreement(c, s, t)
  {
    StillReachable(c, s, m);
    t := ComesToRest(c, m, r);
    MuddledDisagrees(t, r);
    LeadsOn(c, s, m, t);
  }

  // ---------- An activation that comes too late ----------

  lemma EntryMarked(c: Config, o: State, s: State, i: nat) returns (t: State)
    requires WellFormed(o) && Leads(c, o, s) && WellFormed(s)
    requires i < |s.batches| && Working(s.batches[i]) && s.batches[i].pc.MarkActive?
    ensures Leads(c, o, t) && WellFormed(t)
    ensures var b := s.batches[i];
            t == s.(batches := s.batches[i := b.(pc := Dequeue(b.pc.user, b.pc.row))],
                    store := s.store.(entries := WithReservation(s.store.entries, b.pc.user, b.pc.row)))
  {
    StepLeads(c, o, s, BatchStep(i, true));
    t := Apply(c, s, BatchStep(i, true));
  }

  /** Steps that add no job, refund nothing and stop nothing. */
  lemma SameForcing(s: State, t: State)
    requires t.notes == s.notes && t.store.jobs == s.store.jobs && |t.store.rows| == |s.store.rows|
    requires forall k :: 0 <= k < |s.store.rows| ==> t.store.rows[k].expiresAt == s.store.rows[k].expiresAt
    requires t.runs == s.runs && t.store.queue == s.store.queue && |t.batches| == |s.batches|
    requires forall k :: 0 <= k < |s.batches| ==> t.batches[k] == s.batches[k] || t.batches[k].alive
    ensures Unforced(s) ==> Unforced(t)
    ensures StoppedHalfway(t) ==> StoppedHalfway(s)
  {
    if Unforced(s) {
      forall k | 0 <= k < |t.store.rows| ensures Punctual(t, k) { assert Punctual(s, k); }
    }
  }

  /** From every reachable state in which a batch is about to mark an entry ACTIVE for a reservation that was paid or
      has expired meanwhile, in the latter case with no expiry run about to mark that entry: it stays ACTIVE. */
  lemma LateActivationDisagrees(c: Config, s: State, i: nat) returns (t: State)
    requires Reachable(c, s) && WellFormed(s) && Enabled(s, BatchStep(i, true)) && LateActivation(s, BatchStep(i, true))
    requires s.store.rows[s.batches[i].pc.row].status.Expired? ==>
               forall j :: 0 <= j < |s.runs| ==> !Marks(s, s.runs[j], s.batches[i].pc.user)
    ensures RestsInDisagreement(c, s, t)
  {
    LeadsToItself(c, s);
    var s1 := EntryMarked(c, s, s, i);
    LateIsMuddled(c, s, s1, i);
    SameForcing(s, s1);
    t := MuddleRests(c, s, s1, s.batches[i].pc.row);
  }

  lemma LateIsMuddled(c: Config, s: State, t: State, i: nat)
    requires Reachable(c, s) && WellFormed(s) && Enabled(s, BatchStep(i, true)) && LateActivation(s, BatchStep(i, true))
    requires s.store.rows[s.batches[i].pc.row].status.Expired? ==>
               forall j :: 0 <= j < |s.runs| ==> !Marks(s, s.runs[j], s.batches[i].pc.user)
    requires t.store.rows == s.store.rows && t.runs == s.runs
    requires t.store.entries == WithReservation(s.store.entries, s.batches[i].pc.user, s.batches[i].pc.row)
    ensures Muddled(t, s.batches[i].pc.row)
  {
    SaneReachable(c, s);
    OwnRowsReachable(c, s);
    assert OwnRow(s, s.batches[i]) && Finishing(s.batches[i], s.batches[i].pc.user);
    assert forall j :: 0 <= j < |s.runs| ==>
      Marks(t, t.runs[j], s.batches[i].pc.user) == Marks(s, s.runs[j], s.batches[i].pc.user);
  }

  lemma PaidEarly(c: Config, s: State, r: nat) returns (t: State)
    requires WellFormed(s) && r < |s.store.rows| && s.store.rows[r].status.PendingPayment?
    requires s.clock <= s.store.rows[r].expiresAt
    ensures Leads(c, s, t) && WellFormed(t) && t == s.(store := t.store)
    ensures t.store.queue == s.store.queue && t.store.jobs == s.store.jobs
    ensures t.store.entries.Keys == s.store.entries.Keys && |t.store.rows| == |s.store.rows|
    ensures t.store.rows[r].status.Paid?
    ensures forall k :: 0 <= k < |s.store.rows| ==>
              t.store.rows[k].expiresAt == s.store.rows[k].expiresAt && t.store.rows[k].user == s.store.rows[k].user
  {
    LeadsToItself(c, s);
    StepLeads(c, s, s, Settle(r, s.store.rows[r].user));
    t := Apply(c, s, Settle(r, s.store.rows[r].user));
  }

  /** From every reachable state in which a saved reservation can still be paid and its entry is not yet ACTIVE, an
      early payment makes the activation late, and the entry of a PAID reservation stays ACTIVE. */
  lemma EarlyPaymentDisagrees(c: Config, s: State, i: nat) returns (t: State)
    requires Reachable(c, s) && WellFormed(s) && Enabled(s, BatchStep(i, true)) && s.batches[i].pc.MarkActive?
    requires s.store.rows[s.batches[i].pc.row].status.PendingPayment?
    requires s.clock <= s.store.rows[s.batches[i].pc.row].expiresAt
    ensures RestsInDisagreement(c, s, t)
  {
    var r := s.batches[i].pc.row;
    var s1 := PaidEarly(c, s, r);
    StillReachable(c, s, s1);
    var s2 := LateActivationDisagrees(c, s1, i);
    SameForcing(s, s1);
    LeadsOn(c, s, s1, s2);
    t := s2;
  }

  // ---------- A head that a loser is still dropping ----------

  /** The seat that the loser puts back, if it has not yet. */
  lemma LoserPutsBack(c: Config, s: State, k: nat, u: UserId) returns (t: State)
    requires WellFormed(s) && k < |s.batches| && Working(s.batches[k])
    requires s.batches[k].pc == Undo(u) || s.batches[k].pc == MarkSoldOut(u)
    ensures Leads(c, s, t) && WellFormed(t)
    ensures var b := s.batches[k].(pc := MarkSoldOut(u));
            t == s.(store := s.store.(seats := t.store.seats), batches := s.batches[k := b])
    ensures t.store.seats == s.store.seats + (if s.batches[k].pc.Undo? then 1 else 0)
  {
    LeadsToItself(c, s);
    t := s;
    if s.batches[k].pc.Undo? {
      StepLeads(c, s, s, BatchStep(k, true));
      t := Apply(c, s, BatchStep(k, true));
    }
  }

  ghost predicate Moved(before: seq<Batch>, after: seq<Batch>, i: nat, pc: BatchPc) {
    && i < |before| == |after| && after[i] == before[i].(pc := pc)
    && forall n :: 0 <= n < |before| && n != i ==> after[n] == before[n]
  }

  /** The batch has saved a row for the head of the queue. */
  ghost predicate RowSaved(s: State, t: State, i: nat)
    requires s.store.queue != []
  {
    var u := s.store.queue[0].user;
    && Moved(s.batches, t.batches, i, AddJob(u, |s.store.rows|)) && t.runs == s.runs
    && t.store.rows == s.store.rows + [Reservation(u, PendingPayment, s.clock + RESERVATION_TTL, None)]
    && t.notes == s.notes + [Note(0, 0, 0, 0)] && t.log.broken == s.log.broken && t.clock == s.clock
    && t.store.entries == s.store.entries && t.store.queue == s.store.queue && t.store.jobs == s.store.jobs
  }

  /** The same, and has added its job a millisecond later. */
  ghost predicate RowSavedInTime(s: State, t: State, i: nat)
    requires s.store.queue != []
  {
    var u, n := s.store.queue[0].user, |s.store.rows|;
    && Moved(s.batches, t.batches, i, MarkActive(u, n)) && t.runs == s.runs
    && t.store.rows == s.store.rows + [Reservation(u, PendingPayment, s.clock + RESERVATION_TTL, None)]
    && t.notes == s.notes + [Note(0, 0, 0, 0)] && t.log.broken == s.log.broken
    && t.store.entries == s.store.entries && t.store.queue == s.store.queue
    && t.store.jobs == s.store.jobs[n := s.clock + 1 + RESERVATION_TTL]
  }

  lemma HeadRow(c: Config, o: State, s: State, i: nat) returns (t: State)
    requires WellFormed(o) && Leads(c, o, s) && WellFormed(s)
    requires i < |s.batches| && Working(s.batches[i]) && s.batches[i].pc.ReadHead?
    requires s.store.queue != [] && s.store.seats >= 1
    ensures Leads(c, o, t) && WellFormed(t) && RowSaved(s, t, i)
  {
    t := HeadReserved(c, o, s, i);
  }

  lemma JobAddedInTime(s: State, s1: State, t: State, i: nat)
    requires s.store.queue != [] && RowSaved(s, s1, i)
    requires t == s1.(clock := t.clock, log := s1.log.(window := t.log.window), store := t.store,
                      batches := s1.batches[i := s1.batches[i].(pc := MarkActive(s1.batches[i].pc.user,
                                                                                 |s.store.rows|))])
    requires t.store == s1.store.(jobs := s1.store.jobs[|s.store.rows| := s1.clock + 1 + RESERVATION_TTL])
    ensures RowSavedInTime(s, t, i)
  {}

  /** A batch reserves a seat for the head of the queue, and the job is added one millisecond later. */
  lemma HeadReservedInTime(c: Config, o: State, s: State, i: nat) returns (t: State)
    requires WellFormed(o) && Leads(c, o, s) && WellFormed(s)
    requires i < |s.batches| && Working(s.batches[i]) && s.batches[i].pc.ReadHead?
    requires s.store.queue != [] && s.store.seats >= 1
    ensures Leads(c, o, t) && WellFormed(t) && RowSavedInTime(s, t, i)
  {
    var s1 := HeadRow(c, o, s, i);
    var s2 := Waited(c, o, s1, s1.clock + 1);
    t := JobAdded(c, o, s2, i, |s.store.rows|);
    JobAddedInTime(s, s1, t, i);
  }

  lemma LoserMarked(c: Config, o: State, s: State, k: nat) returns (t: State)
    requires WellFormed(o) && Leads(c, o, s) && WellFormed(s)
    requires k < |s.batches| && Working(s.batches[k]) && s.batches[k].pc.MarkSoldOut?
    ensures Leads(c, o, t) && WellFormed(t)
    ensures var b := s.batches[k];
            t == s.(batches := s.batches[k := b.(pc := DropSoldOut(b.pc.user))],
                    store := s.store.(entries := WithStatus(s.store.entries, b.pc.user, EntryStatus.Expired)))
  {
    StepLeads(c, o, s, BatchStep(k, true));
    t := Apply(c, s, BatchStep(k, true));
  }

  /** Batch `i` has marked row `r` of its user, batch `k` the same user as its loser. */
  ghost predicate BothMarked(before: seq<Batch>, after: seq<Batch>, i: nat, k: nat, u: UserId, r: nat) {
    && i < |before| == |after| && k < |before|
    && after[i] == before[i].(pc := Dequeue(u, r)) && after[k] == before[k].(pc := DropSoldOut(u))
    && forall n :: 0 <= n < |before| && n != i && n != k ==> after[n] == before[n]
  }

  /** The batch marks its user ACTIVE, and then the loser marks the same user EXPIRED. */
  lemma MarkedTwice(c: Config, o: State, s: State, i: nat, k: nat, u: UserId, r: nat) returns (t: State)
    requires WellFormed(o) && Leads(c, o, s) && WellFormed(s) && i < |s.batches| && k < |s.batches| && i != k
    requires Working(s.batches[i]) && s.batches[i].pc == MarkActive(u, r)
    requires Working(s.batches[k]) && s.batches[k].pc == MarkSoldOut(u)
    ensures Leads(c, o, t) && WellFormed(t) && t == s.(store := t.store, batches := t.batches)
    ensures t.store == s.store.(entries := t.store.entries) && t.store.entries.Keys == s.store.entries.Keys
    ensures u in s.store.entries ==> t.store.entries[u].status.Expired?
    ensures BothMarked(s.batches, t.batches, i, k, u, r)
  {
    var s1 := EntryMarked(c, o, s, i);
    t := LoserMarked(c, o, s1, k);
  }

  /** Row `r` was saved anew for `u`, with a job due after it expires; its promotion has marked the entry, and a loser
      after it. */
  lemma DroppedIsMuddled(s: State, t: State, i: nat, k: nat, u: UserId, expiresAt: Time)
    requires WellFormed(s) && i < |s.batches| && k < |s.batches|
    requires s.batches[i].alive && s.batches[k].alive && t.runs == s.runs && t.store.queue == s.store.queue
    requires u in t.store.entries && t.store.entries[u].status.Expired?
    requires t.store.rows == s.store.rows + [Reservation(u, PendingPayment, expiresAt, None)]
    requires BothMarked(s.batches, t.batches, i, k, u, |s.store.rows|)
    requires t.notes == s.notes + [Note(0, 0, 0, 0)] && t.store.jobs == s.store.jobs[|s.store.rows| := expiresAt + 1]
    ensures Muddled(t, |s.store.rows|)
    ensures Unforced(s) ==> Unforced(t)
    ensures StoppedHalfway(t) ==> StoppedHalfway(s)
  {
    if Unforced(s) {
      forall r | 0 <= r < |t.store.rows| ensures Punctual(t, r) { assert r < |s.store.rows| ==> Punctual(s, r); }
    }
  }

  /** The race of a promotion with a loser that marks the same user after it. */
  lemma LoserMarksLast(c: Config, o: State, s: State, i: nat, k: nat, u: UserId) returns (t: State)
    requires WellFormed(o) && Leads(c, o, s) && WellFormed(s) && s.store.queue != [] && s.store.queue[0].user == u
    requires i < |s.batches| && k < |s.batches| && Working(s.batches[i]) && s.batches[i].pc.ReadHead?
    requires Working(s.batches[k]) && s.batches[k].pc == MarkSoldOut(u)
    requires s.store.seats >= 1 && u in s.store.entries
    ensures Leads(c, o, t) && WellFormed(t) && t.log.broken == s.log.broken && Muddled(t, |s.store.rows|)
    ensures Unforced(s) ==> Unforced(t)
    ensures StoppedHalfway(t) ==> StoppedHalfway(s)
  {
    var s1 := HeadReservedInTime(c, o, s, i);
    t := MarkedTwice(c, o, s1, i, k, u, |s.store.rows|);
    assert BothMarked(s.batches, t.batches, i, k, u, |s.store.rows|);
    DroppedIsMuddled(s, t, i, k, u, s.clock + RESERVATION_TTL);
  }

  /** From every reachable state in which a batch is about to read a head that a loser has not yet marked, with a seat
      in the counter or in the hand of the loser: the batch promotes that user, and then the loser marks the entry
      EXPIRED, which it stays. */
  lemma SharedDropDisagrees(c: Config, s: State, i: nat, k: nat) returns (t: State)
    requires Reachable(c, s) && WellFormed(s) && s.store.queue != []
    requires i < |s.batches| && k < |s.batches| && Working(s.batches[i]) && s.batches[i].pc.ReadHead?
    requires Dropping(s.batches[k], s.store.queue[0].user) && !s.batches[k].pc.DropSoldOut?
    requires s.store.seats >= if s.batches[k].pc.Undo? then 0 else 1
    ensures SharedHead(s, BatchStep(i, true))
    ensures RestsInDisagreement(c, s, t)
  {
    var u := s.store.queue[0].user;
    SaneReachable(c, s);
    assert s.store.queue[0] in s.store.queue;
    assert Attending(s.batches[k], u);
    var s1 := LoserPutsBack(c, s, k, u);
    SameForcing(s, s1);
    var s2 := LoserMarksLast(c, s, s1, i, k, u);
    t := MuddleRests(c, s, s2, |s.store.rows|);
  }

  // ---------- A head that another batch is still serving ----------

  /** Two reservations of one user never agree with the one entry of that user. */
  lemma TwoRowsDisagree(s: State)
    requires !OperationRuns.OneRowPerUser(s.store)
    ensures !UsersAgree(s.store)
  {
    var r, r' :| 0 <= r < r' < |s.store.rows| && s.store.rows[r].user == s.store.rows[r'].user;
  }

  /** The same from every reachable state in which a batch is about to read a head that another batch is serving. */
  lemma SharedServiceDisagrees(c: Config, s: State, i: nat, k: nat) returns (t: State)
    requires Reachable(c, s) && WellFormed(s) && s.store.queue != []
    requires i < |s.batches| && k < |s.batches| && Working(s.batches[i]) && s.batches[i].pc.ReadHead?
    requires Serving(s.batches[k], s.store.queue[0].user) && SeatObtainable(s)
    ensures SharedHead(s, BatchStep(i, true))
    ensures Leads(c, s, t) && AtRest.AtRest(t) && !UsersAgree(t.store) && t.log.broken == s.log.broken
  {
    assert Attending(s.batches[k], s.store.queue[0].user);
    var s1 := SharedHeadPromotesTwice(c, s, i, k);
    StillReachable(c, s, s1);
    t := ComesToRest(c, s1, 0);
    LeadsOn(c, s, s1, t);
    TwoRowsDisagree(t);
  }
}
