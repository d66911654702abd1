/** The concurrency limit: what `activeCount` counts and how far overlapping batches can push it. */
module ActiveLimit {
  import opened Domain
  import opened Counting
  import opened Protocol
  import Coupling

  /** Promotions that a running batch may still add to the count. */
  function Slots(b: Batch): int { if Working(b) then b.slots else 0 }

  /** Between DEL of a live active key and the DECR. */
  function Overcounted(x: ExpiryRun): int { if x.pc.UncountKey? then 1 else 0 }

  ghost predicate BatchesSane(s: State) {
    forall i :: 0 <= i < |s.batches| ==>
      && (Working(s.batches[i]) ==> s.batches[i].slots >= 1)
      && (s.batches[i].pc.CountKey? ==> s.batches[i].alive)
  }

  /** The count, corrected by the commands in flight and by lost INCRs, covers every key. */
  ghost predicate KeysCounted(s: State) {
    |s.store.active| <= s.store.activeCount + Sum(s.batches, Uncounted) + s.log.missed - Sum(s.runs, Overcounted)
  }

  /** By how much a batch can read the count below zero: once for every other batch and every lost INCR. */
  function Slack(peak: nat, missed: nat): nat { if peak == 0 then missed else peak - 1 + missed }

  /** The largest count that `peak` overlapping batches can produce. */
  function Cap(limit: nat, peak: nat, missed: nat): nat {
    if peak == 0 then 0 else Times(peak, limit) + Times(peak - 1, Slack(peak, missed))
  }

  /** `n` times `x`, by addition. */
  function Times(n: nat, x: nat): nat { if n == 0 then 0 else Times(n - 1, x) + x }

  lemma {:induction false} TimesIs(n: nat, x: nat)
    ensures Times(n, x) == n * x
  {
    if n == 0 {
    } else {
      TimesIs(n - 1, x);
    }
  }

  ghost predicate SlotsWithin(batches: seq<Batch>, most: nat) {
    forall i :: 0 <= i < |batches| && Working(batches[i]) ==> batches[i].slots <= most
  }

  /** No batch ever opened in the gap between SETEX and INCR of another, and no INCR was lost. */
  predicate Patient(l: Log) { !l.hasty && l.missed == 0 }

  /** The potential: the count plus all slots still open. */
  ghost predicate PotentialBounded(c: Config, s: State) {
    var potential := s.store.activeCount + Sum(s.batches, Slots);
    && Sum(s.batches, Live) <= s.log.peak
    && potential <= Cap(c.maxActiveUsers, s.log.peak, s.log.missed)
    && SlotsWithin(s.batches, c.maxActiveUsers + Slack(s.log.peak, s.log.missed))
    && (Patient(s.log) ==> potential <= Times(s.log.peak, c.maxActiveUsers) && SlotsWithin(s.batches, c.maxActiveUsers))
  }

  ghost predicate ActiveInvariant(c: Config, s: State) {
    BatchesSane(s) && KeysCounted(s) && PotentialBounded(c, s)
  }

  lemma {:induction false} SlotsBounded(batches: seq<Batch>, most: nat)
    requires SlotsWithin(batches, most)
    ensures Sum(batches, Live) >= 0
    ensures Sum(batches, Slots) <= Times(Sum(batches, Live), most)
  {
    if batches == [] {
    } else {
      SlotsBounded(batches[..|batches| - 1], most);
    }
  }

  lemma {:induction false} TimesGrows(n: nat, n': nat, x: nat, x': nat)
    requires n <= n' && x <= x'
    ensures Times(n, x) <= Times(n', x')
    decreases n'
  {
    if n' == 0 {
    } else if n < n' {
      TimesGrows(n, n' - 1, x, x');
    } else {
      TimesGrows(n - 1, n' - 1, x, x');
    }
  }

  lemma {:induction false} TimesSplits(n: nat, x: nat, y: nat)
    ensures Times(n, x + y) == Times(n, x) + Times(n, y)
  {
    if n == 0 {
    } else {
      TimesSplits(n - 1, x, y);
    }
  }

  lemma CapIsProduct(limit: nat, peak: nat, missed: nat)
    requires peak >= 1
    ensures Cap(limit, peak, missed) == peak * limit + (peak - 1) * (peak - 1 + missed)
  {
    TimesIs(peak, limit);
    TimesIs(peak - 1, peak - 1 + missed);
  }

  lemma CapGrows(limit: nat, peak: nat, peak': nat, missed: nat, missed': nat)
    requires peak <= peak' && missed <= missed'
    ensures Cap(limit, peak, missed) <= Cap(limit, peak', missed')
    ensures Slack(peak, missed) <= Slack(peak', missed')
  {
    if peak > 0 {
      TimesGrows(peak, peak', limit, limit);
      TimesGrows(peak - 1, peak' - 1, Slack(peak, missed), Slack(peak', missed'));
    }
  }

  /** What a batch step does to count, keys and slots. */
  lemma BatchDoesCount(s: State, b: Batch, ok: bool)
    requires Working(b) && b.slots >= 1
    ensures var e := BatchDoes(s, b, ok);
            && (Working(e.batch) ==> e.batch.slots >= 1)
            && (e.batch.pc.CountKey? ==> e.batch.alive)
            && e.store.activeCount + Slots(e.batch) <= s.store.activeCount + Slots(b)
            && e.batch.slots <= b.slots
            && |e.store.active| - |s.store.active|
               <= e.store.activeCount + Uncounted(e.batch) + e.log.missed
                  - (s.store.activeCount + Uncounted(b) + s.log.missed)
            && e.log.missed >= s.log.missed && e.log.peak == s.log.peak && e.log.hasty == s.log.hasty
  {}

  lemma BatchStepKeys(c: Config, s: State, i: nat, ok: bool)
    requires WellFormed(s) && Enabled(s, BatchStep(i, ok)) && BatchesSane(s) && KeysCounted(s)
    ensures BatchesSane(Apply(c, s, BatchStep(i, ok))) && KeysCounted(Apply(c, s, BatchStep(i, ok)))
  {
    BatchDoesCount(s, s.batches[i], ok);
    SumUpdate(s.batches, i, BatchDoes(s, s.batches[i], ok).batch, Uncounted);
  }

  /** A batch that goes on with no more slots than before adds to none of the sums. */
  lemma SumsShrink(batches: seq<Batch>, i: nat, b: Batch)
    requires i < |batches| && Working(batches[i]) && b.slots <= batches[i].slots
    ensures Sum(batches[i := b], Slots) == Sum(batches, Slots) + Slots(b) - Slots(batches[i])
    ensures Sum(batches[i := b], Live) <= Sum(batches, Live)
  {
    SumUpdate(batches, i, b, Slots);
    SumUpdate(batches, i, b, Live);
  }

  lemma BatchStepPotential(c: Config, s: State, i: nat, ok: bool)
    requires WellFormed(s) && Enabled(s, BatchStep(i, ok)) && BatchesSane(s) && PotentialBounded(c, s)
    ensures PotentialBounded(c, Apply(c, s, BatchStep(i, ok)))
  {
    BatchDoesCount(s, s.batches[i], ok);
    SumsShrink(s.batches, i, BatchDoes(s, s.batches[i], ok).batch);
    CapGrows(c.maxActiveUsers, s.log.peak, s.log.peak, s.log.missed, BatchDoes(s, s.batches[i], ok).log.missed);
  }

  /** Only the DEL of a key that was alive leaves the count too high, and only the DECR makes up for it. */
  lemma RunDoesKeys(s: State, x: ExpiryRun, ok: bool)
    requires x.row < |s.store.rows| && x.row < |s.notes|
    ensures var e, u := RunDoes(s, x, ok), s.store.rows[x.row].user;
            && e.store.active == (if ok && x.pc.DeleteKey? then s.store.active - {u} else s.store.active)
            && Overcounted(e.run) - Overcounted(x)
               == (if !ok then 0 else if x.pc.UncountKey? then -1
                   else if x.pc.DeleteKey? && KeyLive(s.store.active, u, s.clock) then 1 else 0)
  {}

  lemma RunDoesCount(s: State, x: ExpiryRun, ok: bool)
    requires x.row < |s.store.rows| && x.row < |s.notes|
    ensures RunDoes(s, x, ok).store.activeCount == s.store.activeCount - (if ok && x.pc.UncountKey? then 1 else 0)
  {}

  lemma RunStepActive(c: Config, s: State, j: nat, ok: bool)
    requires WellFormed(s) && Enabled(s, RunStep(j, ok)) && ActiveInvariant(c, s)
    ensures ActiveInvariant(c, Apply(c, s, RunStep(j, ok)))
  {
    RunDoesKeys(s, s.runs[j], ok);
    RunDoesCount(s, s.runs[j], ok);
    KeyRemoved(s.store.active, s.store.rows[s.runs[j].row].user);
    SumUpdate(s.runs, j, RunDoes(s, s.runs[j], ok).run, Overcounted);
  }

  lemma {:induction false} UncountedAreLive(batches: seq<Batch>)
    requires forall i :: 0 <= i < |batches| ==> batches[i].pc.CountKey? ==> batches[i].alive
    ensures Sum(batches, Uncounted) <= Sum(batches, Live)
  {
    if batches == [] {
    } else {
      UncountedAreLive(batches[..|batches| - 1]);
    }
  }

  /** A count below zero needs another batch between SETEX and INCR, or a lost INCR: one for each unit. */
  lemma NegativeNeedsOverlap(s: State)
    requires KeysCounted(s)
    ensures s.store.activeCount >= -(Sum(s.batches, Uncounted) + s.log.missed)
    ensures s.store.activeCount < 0 ==> s.log.missed > 0 || Sum(s.batches, Uncounted) >= 1
  {
    SumNonNegative(s.runs, Overcounted);
  }

  lemma OpenBatchKeys(c: Config, s: State)
    requires ActiveInvariant(c, s)
    ensures BatchesSane(StartBatch(c, s)) && KeysCounted(StartBatch(c, s))
  {}

  lemma OpenBatchSums(c: Config, s: State)
    ensures var s', b := StartBatch(c, s), StartBatch(c, s).batches[|s.batches|];
            && Sum(s'.batches, Slots) == Sum(s.batches, Slots) + b.slots
            && Sum(s'.batches, Live) == Sum(s.batches, Live) + (if b.slots > 0 then 1 else 0)
            && s'.log.peak == Max(s.log.peak, Sum(s'.batches, Live))
            && s'.store == s.store && s'.log.missed == s.log.missed
            && s'.log.hasty == (s.log.hasty || Sum(s.batches, Uncounted) > 0)
            && b.slots == Max(0, c.maxActiveUsers - s.store.activeCount)
  {}

  /** How many slots the new batch gets: its fair share and at most one more for every INCR still to come. */
  lemma NewSlots(c: Config, s: State)
    requires ActiveInvariant(c, s)
    ensures var l, b := StartBatch(c, s).log, StartBatch(c, s).batches[|s.batches|];
            && b.slots <= c.maxActiveUsers + Slack(l.peak, l.missed)
            && (Patient(l) ==> b.slots <= c.maxActiveUsers)
  {
    OpenBatchSums(c, s);
    NegativeNeedsOverlap(s);
    UncountedAreLive(s.batches);
  }

  /** The batches that were there before hold at most `most` slots each; the new one fills up to the limit. */
  lemma NewPotential(c: Config, s: State, most: nat)
    requires ActiveInvariant(c, s) && SlotsWithin(s.batches, most)
    requires s.store.activeCount < c.maxActiveUsers
    ensures var s' := StartBatch(c, s);
            && s'.log.peak >= 1
            && s'.store.activeCount + Sum(s'.batches, Slots) <= c.maxActiveUsers + Times(s'.log.peak - 1, most)
  {
    OpenBatchSums(c, s);
    SlotsBounded(s.batches, most);
    TimesGrows(Sum(s.batches, Live), StartBatch(c, s).log.peak - 1, most, most);
  }

  lemma NewPotentialCapped(c: Config, s: State)
    requires ActiveInvariant(c, s)
    ensures var s' := StartBatch(c, s);
            s'.store.activeCount + Sum(s'.batches, Slots) <= Cap(c.maxActiveUsers, s'.log.peak, s'.log.missed)
  {
    var limit, l, l' := c.maxActiveUsers, s.log, StartBatch(c, s).log;
    OpenBatchSums(c, s);
    CapGrows(limit, l.peak, l'.peak, l.missed, l'.missed);
    if s.store.activeCount < limit {
      NewPotential(c, s, limit + Slack(l'.peak, l'.missed));
      TimesSplits(l'.peak - 1, limit, Slack(l'.peak, l'.missed));
    }
  }

  lemma NewPotentialPatient(c: Config, s: State)
    requires ActiveInvariant(c, s) && Patient(StartBatch(c, s).log)
    ensures var s' := StartBatch(c, s);
            s'.store.activeCount + Sum(s'.batches, Slots) <= Times(s'.log.peak, c.maxActiveUsers)
  {
    var limit, l' := c.maxActiveUsers, StartBatch(c, s).log;
    OpenBatchSums(c, s);
    TimesGrows(s.log.peak, l'.peak, limit, limit);
    if s.store.activeCount < limit { NewPotential(c, s, limit); }
  }

  lemma OpenBatchPotential(c: Config, s: State)
    requires ActiveInvariant(c, s)
    ensures PotentialBounded(c, StartBatch(c, s))
  {
    var limit, l, l' := c.maxActiveUsers, s.log, StartBatch(c, s).log;
    OpenBatchSums(c, s);
    NewSlots(c, s);
    NewPotentialCapped(c, s);
    CapGrows(limit, l.peak, l'.peak, l.missed, l'.missed);
    if Patient(l') { NewPotentialPatient(c, s); }
  }

  lemma OpenBatchActive(c: Config, s: State)
    requires ActiveInvariant(c, s)
    ensures ActiveInvariant(c, StartBatch(c, s))
  {
    OpenBatchKeys(c, s);
    OpenBatchPotential(c, s);
  }

  lemma StepKeepsActive(c: Config, s: State, a: Action)
    requires WellFormed(s) && Enabled(s, a) && ActiveInvariant(c, s)
    ensures ActiveInvariant(c, Apply(c, s, a))
  {
    match a
    case BatchStep(i, ok) => BatchStepKeys(c, s, i, ok); BatchStepPotential(c, s, i, ok);
    case RunStep(j, ok) => RunStepActive(c, s, j, ok);
    case OpenBatch => OpenBatchActive(c, s);
    case _ => QuietStepActive(c, s, a);
  }

  lemma QuietStepActive(c: Config, s: State, a: Action)
    requires WellFormed(s) && Enabled(s, a) && ActiveInvariant(c, s)
    requires !a.BatchStep? && !a.RunStep? && !a.OpenBatch?
    ensures ActiveInvariant(c, Apply(c, s, a))
  {
    if a.Deliver? { SumAppend(s.runs, ExpiryRun(a.job, s.clock, ReadRow, true), Overcounted); }
  }

  lemma {:induction false} ActiveAlways(c: Config, s: State, acts: seq<Action>)
    requires WellFormed(s) && ActiveInvariant(c, s) && Schedule(c, s, acts)
    ensures ActiveInvariant(c, After(c, s, acts))
    decreases |acts|
  {
    if acts == [] {
    } else {
      ActiveAlways(c, s, acts[..|acts| - 1]);
      StepKeepsActive(c, After(c, s, acts[..|acts| - 1]), acts[|acts| - 1]);
    }
  }

  lemma ActiveReachable(c: Config, s: State)
    requires Reachable(c, s)
    ensures ActiveInvariant(c, s)
  {
    var acts :| LeadsTo(c, Initial(c), acts, s);
    ActiveAlways(c, Initial(c), acts);
  }

  /** With at most k overlapping batches the count never exceeds k times the limit plus (k - 1) times
      (k - 1 + lost INCRs); it never exceeds k times the limit when no batch opens between SETEX and INCR of
      another and no INCR is lost; and batches that never overlap respect the limit itself in any case. */
  lemma OverlappingBatchesBounded(c: Config, s: State)
    requires Reachable(c, s)
    ensures var k, lost := s.log.peak, s.log.missed;
            && (k >= 1 ==> s.store.activeCount <= k * c.maxActiveUsers + (k - 1) * (k - 1 + lost))
            && (Patient(s.log) ==> s.store.activeCount <= k * c.maxActiveUsers)
            && (k <= 1 ==> s.store.activeCount <= c.maxActiveUsers)
            && Sum(s.batches, Live) <= k
  {
    var k := s.log.peak;
    ActiveReachable(c, s);
    SumNonNegative(s.batches, Slots);
    if k >= 1 { CapIsProduct(c.maxActiveUsers, k, s.log.missed); }
    TimesIs(k, c.maxActiveUsers);
  }

  /** The count covers the live keys whenever no INCR is in flight or lost, whatever keys lapsed silently. */
  lemma CountCoversLiveKeys(c: Config, s: State)
    requires Reachable(c, s)
    ensures |LiveKeys(s.store.active, s.clock)| + Sum(s.runs, Overcounted)
         <= s.store.activeCount + Sum(s.batches, Uncounted) + s.log.missed
    ensures s.log.missed == 0 && (forall i :: 0 <= i < |s.batches| ==> !s.batches[i].pc.CountKey?) ==>
              0 <= |LiveKeys(s.store.active, s.clock)| <= s.store.activeCount
  {
    ActiveReachable(c, s);
    Coupling.SubsetSize(LiveKeys(s.store.active, s.clock), s.store.active.Keys);
    SumNonNegative(s.runs, Overcounted);
    if forall i :: 0 <= i < |s.batches| ==> !s.batches[i].pc.CountKey? { SumZero(s.batches, Uncounted); }
  }
}
