/** What a whole `promoteUsers` run, or a drain of the queue, adds up to. */
module Batches {
  import opened Domain
  import opened WaitingQueue
  import opened Operations
  import opened Coupling
  import opened Outcomes

  /** An update of the entry of the next user disturbs no other entry. */
  lemma OthersStillKept(s: EventStore, t: EventStore, t': EventStore, j: nat)
    requires j < |s.queue| && t.entries.Keys == t'.entries.Keys == s.entries.Keys && OthersKept(s, t, j)
    requires forall u :: u in t.entries && u != s.queue[j].user ==> t'.entries[u] == t.entries[u]
    ensures OthersKept(s, t', j + 1)
  {}

  /** `j` calls of promoteNextUser in a row, all saves succeeding. */
  function PromoteTimes(s: EventStore, j: nat, now: Time): (EventStore, seq<PromotionResult>) {
    if j == 0 then (s, [])
    else
      var (t, results) := PromoteTimes(s, j - 1, now);
      var (t', result) := Promote(t, now, true);
      (t', results + [result])
  }

  /** One more grant. */
  lemma GrantServesRows(s: EventStore, t: EventStore, j: nat, now: Time)
    requires j < |s.queue| && RowsServed(s, t, j, j, now)
    ensures RowsServed(s, Grant(t, s.queue[j].user, now), j + 1, j + 1, now)
  {}

  lemma GrantServesEntries(s: EventStore, t: EventStore, j: nat, now: Time)
    requires Ordered(s.queue) && j < |s.queue| && s.queue[j].user in s.entries
    requires EntriesServed(s, t, j, j) && |t.rows| == |s.rows| + j
    ensures EntriesServed(s, Grant(t, s.queue[j].user, now), j + 1, j + 1)
  {
    EntryServed(s, t, Grant(t, s.queue[j].user, now), j);
  }

  lemma EntryServed(s: EventStore, t: EventStore, t': EventStore, j: nat)
    requires Ordered(s.queue) && j < |s.queue| && s.queue[j].user in s.entries && EntriesServed(s, t, j, j)
    requires t'.entries == WithReservation(t.entries, s.queue[j].user, |s.rows| + j)
    ensures EntriesServed(s, t', j + 1, j + 1)
  {}

  lemma GrantServesKeys(s: EventStore, t: EventStore, j: nat, now: Time)
    requires j < |s.queue| && KeysServed(s, t, j, now)
    ensures KeysServed(s, Grant(t, s.queue[j].user, now), j + 1, now)
  {}

  /** One more user dropped as sold out. */
  lemma DropServesEntries(s: EventStore, t: EventStore, j: nat, k: nat)
    requires Ordered(s.queue) && k <= j < |s.queue| && s.queue[j].user in s.entries
    requires EntriesServed(s, t, j, k)
    ensures EntriesServed(s, Drop(t, s.queue[j].user), j + 1, k)
  {
    assert !InQueue(s.queue[..j], s.queue[j].user);
    OthersStillKept(s, t, Drop(t, s.queue[j].user), j);
  }

  /** The result of the `i`-th call in a row. */
  function ResultOf(s: EventStore, i: nat): PromotionResult
    requires i < |s.queue|
  {
    if i < s.seats then Promoted(s.queue[i].user, |s.rows| + i) else SoldOut(s.queue[i].user)
  }

  /** Queue, counter and results after `j` calls; nothing here needs the coupling invariant. */
  lemma {:induction false} CallsInOrder(s: EventStore, j: nat, now: Time)
    requires s.seats >= 0 && j <= |s.queue|
    ensures PromoteTimes(s, j, now).0.queue == s.queue[j..]
    ensures PromoteTimes(s, j, now).0.seats == Max(0, s.seats - j)
    ensures |PromoteTimes(s, j, now).0.rows| == |s.rows| + Min(j, s.seats)
    ensures |PromoteTimes(s, j, now).1| == j
    ensures forall i :: 0 <= i < j ==> PromoteTimes(s, j, now).1[i] == ResultOf(s, i)
  {
    if j == 0 {
    } else {
      CallsInOrder(s, j - 1, now);
      CallInOrder(s, PromoteTimes(s, j - 1, now).0, j - 1, now);
    }
  }

  lemma CallInOrder(s: EventStore, t: EventStore, j: nat, now: Time)
    requires s.seats >= 0 && j < |s.queue|
    requires t.queue == s.queue[j..] && t.seats == Max(0, s.seats - j) && |t.rows| == |s.rows| + Min(j, s.seats)
    ensures var t' := Promote(t, now, true).0;
            t'.queue == s.queue[j + 1..] && t'.seats == Max(0, s.seats - (j + 1))
            && |t'.rows| == |s.rows| + Min(j + 1, s.seats)
    ensures Promote(t, now, true).1 == ResultOf(s, j)
  {}

  /** The `j`-th call turns `t` into `t'`. */
  lemma CallServesEntries(s: EventStore, t: EventStore, t': EventStore, j: nat, now: Time)
    requires Ordered(s.queue) && Registered(s) && s.seats >= 0 && 0 < j <= |s.queue|
    requires t.queue == s.queue[j - 1..] && t.seats == Max(0, s.seats - (j - 1))
    requires |t.rows| == |s.rows| + Min(j - 1, s.seats)
    requires EntriesServed(s, t, j - 1, Min(j - 1, s.seats)) && t' == Promote(t, now, true).0
    ensures EntriesServed(s, t', j, Min(j, s.seats))
  {
    assert t.queue[0] == s.queue[j - 1];
    if j - 1 < s.seats {
      GrantServesEntries(s, t, j - 1, now);
    } else {
      DropServesEntries(s, t, j - 1, s.seats);
    }
  }

  lemma BeforeCall(s: EventStore, j: nat, now: Time) returns (t: EventStore)
    requires s.seats >= 0 && j < |s.queue|
    ensures t == PromoteTimes(s, j, now).0 && Promote(t, now, true).0 == PromoteTimes(s, j + 1, now).0
    ensures t.queue == s.queue[j..] && t.seats == Max(0, s.seats - j) && |t.rows| == |s.rows| + Min(j, s.seats)
  {
    t := PromoteTimes(s, j, now).0;
    CallsInOrder(s, j, now);
  }

  lemma NextCallServesEntries(s: EventStore, j: nat, now: Time)
    requires Ordered(s.queue) && Registered(s) && s.seats >= 0 && 0 < j <= |s.queue|
    requires EntriesServed(s, PromoteTimes(s, j - 1, now).0, j - 1, Min(j - 1, s.seats))
    ensures EntriesServed(s, PromoteTimes(s, j, now).0, j, Min(j, s.seats))
  {
    var t := BeforeCall(s, j - 1, now);
    CallServesEntries(s, t, PromoteTimes(s, j, now).0, j, now);
  }

  lemma NobodyServed(s: EventStore)
    requires s.seats >= 0
    ensures EntriesServed(s, s, 0, 0)
  {}

  lemma {:induction false} CallsServeEntries(s: EventStore, j: nat, now: Time)
    requires Ordered(s.queue) && Registered(s) && s.seats >= 0 && j <= |s.queue|
    ensures EntriesServed(s, PromoteTimes(s, j, now).0, j, Min(j, s.seats))
  {
    if j == 0 {
      NobodyServed(s);
    } else {
      CallsServeEntries(s, j - 1, now);
      NextCallServesEntries(s, j, now);
    }
  }

  lemma CallServesOthers(s: EventStore, t: EventStore, j: nat, now: Time)
    requires Ordered(s.queue) && s.seats >= 0 && j < |s.queue|
    requires RowsServed(s, t, j, Min(j, s.seats), now) && KeysServed(s, t, Min(j, s.seats), now)
    ensures RowsServed(s, Promote(t, now, true).0, j + 1, Min(j + 1, s.seats), now)
    ensures KeysServed(s, Promote(t, now, true).0, Min(j + 1, s.seats), now)
  {
    assert t.queue[0] == s.queue[j] && t.queue[1..] == s.queue[j + 1..];
    if j < s.seats {
      GrantServesRows(s, t, j, now);
      GrantServesKeys(s, t, j, now);
    }
  }

  lemma {:induction false} CallsServeOthers(s: EventStore, j: nat, now: Time)
    requires Ordered(s.queue) && s.seats >= 0 && j <= |s.queue|
    ensures RowsServed(s, PromoteTimes(s, j, now).0, j, Min(j, s.seats), now)
    ensures KeysServed(s, PromoteTimes(s, j, now).0, Min(j, s.seats), now)
  {
    if j == 0 {
    } else {
      CallsServeOthers(s, j - 1, now);
      CallServesOthers(s, PromoteTimes(s, j - 1, now).0, j - 1, now);
    }
  }

  lemma CallsServe(s: EventStore, j: nat, now: Time)
    requires Ordered(s.queue) && Registered(s) && s.seats >= 0 && j <= |s.queue|
    ensures Served(s, PromoteTimes(s, j, now).0, j, Min(j, s.seats), now)
  {
    CallsServeEntries(s, j, now);
    CallsServeOthers(s, j, now);
  }

  lemma CoupledRegistered(total: nat, s: EventStore)
    requires Coupled(total, s)
    ensures Registered(s)
  {}

  /** Draining: `j` calls serve exactly the first `j` users, seats going to the first of them;
      after as many calls as there are waiting users, and not before, the queue is empty. */
  lemma DrainExactly(total: nat, s: EventStore, j: nat, now: Time)
    requires Coupled(total, s) && j <= |s.queue|
    ensures Served(s, PromoteTimes(s, j, now).0, j, Min(j, s.seats), now)
    ensures PromoteTimes(s, j, now).0.seats == Max(0, s.seats - j)
    ensures PromoteTimes(s, j, now).0.queue == [] <==> j == |s.queue|
    ensures |PromoteTimes(s, j, now).1| == j
    ensures forall i :: 0 <= i < j ==> PromoteTimes(s, j, now).1[i] == ResultOf(s, i)
  {
    CallsInOrder(s, j, now);
    CoupledRegistered(total, s);
    CallsServe(s, j, now);
  }

  lemma OneCallMore(whole: BatchOutcome, results: seq<PromotionResult>, t: EventStore, left: nat, now: Time)
    requires whole == Prepend(results, PromoteMany(t, left + 1, now, [])) && Promote(t, now, true).1.Promoted?
    ensures whole == Prepend(results + [Promote(t, now, true).1], PromoteMany(Promote(t, now, true).0, left, now, []))
  {}

  /** `whole` is what `n` plain calls and a batch of `left` more slots add up to. */
  predicate CallsThenBatch(whole: BatchOutcome, s: EventStore, n: nat, left: nat, now: Time) {
    whole == Prepend(PromoteTimes(s, n, now).1, PromoteMany(PromoteTimes(s, n, now).0, left, now, []))
  }

  lemma NoCallsYet(whole: BatchOutcome, s: EventStore, left: nat, now: Time)
    requires whole == PromoteMany(s, left, now, [])
    ensures CallsThenBatch(whole, s, 0, left, now)
  {}

  lemma NextOfCalls(whole: BatchOutcome, s: EventStore, n: nat, left: nat, now: Time)
    requires CallsThenBatch(whole, s, n, left + 1, now) && n < |s.queue| && n < s.seats
    ensures CallsThenBatch(whole, s, n + 1, left, now)
  {
    var t := BeforeCall(s, n, now);
    OneCallMore(whole, PromoteTimes(s, n, now).1, t, left, now);
  }

  /** The batch loop is that many plain calls, then what is left of it. */
  lemma {:induction false} BatchIsCalls(whole: BatchOutcome, s: EventStore, n: nat, left: nat, now: Time)
    requires whole == PromoteMany(s, n + left, now, []) && n <= |s.queue| && n <= s.seats
    ensures CallsThenBatch(whole, s, n, left, now)
    decreases n
  {
    if n == 0 {
      NoCallsYet(whole, s, left, now);
    } else {
      BatchIsCalls(whole, s, n - 1, left + 1, now);
      NextOfCalls(whole, s, n - 1, left, now);
    }
  }

  function Prepend(results: seq<PromotionResult>, out: BatchOutcome): BatchOutcome {
    BatchOutcome(out.store, results + out.results, out.thrown)
  }

  lemma PrependNothing(out: BatchOutcome)
    ensures Prepend([], out) == out
  {}

  /** The exact outcome of a run with no failed save: min(slots, waiting, seats) users are promoted,
      in queue order; only the last result can differ, and a shortage of seats costs one more user. */
  lemma ExactBatch(s: EventStore, slots: nat, now: Time)
    requires Ordered(s.queue) && Registered(s) && s.seats >= 0
    ensures !PromoteMany(s, slots, now, []).thrown
    ensures Served(s, PromoteMany(s, slots, now, []).store,
                   Promotions(s, slots) + Dropped(s, slots, Promotions(s, slots)), Promotions(s, slots), now)
    ensures PromoteMany(s, slots, now, []).results
         == FirstPromoted(s, Promotions(s, slots)) + LastResults(s, slots)
  {
    BatchIsCallsAndStop(s, slots, Promotions(s, slots), now);
    BatchServes(s, slots, now);
  }

  lemma BatchServes(s: EventStore, slots: nat, now: Time)
    requires Ordered(s.queue) && Registered(s) && s.seats >= 0
    ensures Served(s, PromoteMany(s, slots, now, []).store,
                   Promotions(s, slots) + Dropped(s, slots, Promotions(s, slots)), Promotions(s, slots), now)
  {
    BatchIsCallsAndStop(s, slots, Promotions(s, slots), now);
    StopServes(s, slots, Promotions(s, slots), now);
  }

  lemma StopServes(s: EventStore, slots: nat, k: nat, now: Time)
    requires Ordered(s.queue) && Registered(s) && s.seats >= 0 && k == Promotions(s, slots)
    ensures Served(s, PromoteTimes(s, k + Dropped(s, slots, k), now).0, k + Dropped(s, slots, k), k, now)
  {
    var j := k + Dropped(s, slots, k);
    assert Min(j, s.seats) == k;
    CallsServe(s, j, now);
  }

  lemma BatchIsCallsAndStop(s: EventStore, slots: nat, k: nat, now: Time)
    requires s.seats >= 0 && k == Promotions(s, slots)
    ensures PromoteMany(s, slots, now, []).store == PromoteTimes(s, k + Dropped(s, slots, k), now).0
    ensures !PromoteMany(s, slots, now, []).thrown
    ensures PromoteMany(s, slots, now, []).results == FirstPromoted(s, k) + LastResults(s, slots)
  {
    var (t, results) := PromoteTimes(s, k, now);
    CallsInOrder(s, k, now);
    assert results == FirstPromoted(s, k);
    BatchIsCalls(PromoteMany(s, slots, now, []), s, k, slots - k, now);
    BatchStops(t, slots - k, now);
  }

  lemma BatchStops(t: EventStore, slots: nat, now: Time)
    requires slots == 0 || t.queue == [] || t.seats < 1
    ensures PromoteMany(t, slots, now, []) ==
            if slots == 0 then BatchOutcome(t, [], false)
            else BatchOutcome(Promote(t, now, true).0, [Promote(t, now, true).1], false)
  {}

  /** Saves that are never made do not matter. */
  lemma {:induction false} ScriptUnused(s: EventStore, slots: nat, now: Time, saves: seq<bool>)
    requires forall i :: 0 <= i < Promotions(s, slots) && i < |saves| ==> saves[i]
    ensures PromoteMany(s, slots, now, saves) == PromoteMany(s, slots, now, [])
    decreases slots
  {
    if slots == 0 || s.queue == [] || s.seats < 1 {
    } else {
      var s' := Promote(s, now, true).0;
      assert Promotions(s', slots - 1) == Promotions(s, slots) - 1;
      assert saves != [] ==> saves[0];
      ScriptUnused(s', slots - 1, now, LaterSaves(saves));
    }
  }

  lemma OneMoreInFront(s: EventStore, s': EventStore, n: nat)
    requires 0 < n <= |s.queue| && s'.queue == s.queue[1..] && |s'.rows| == |s.rows| + 1
    ensures FirstPromoted(s, n) == [Promoted(s.queue[0].user, |s.rows|)] + FirstPromoted(s', n - 1)
  {}

  /** The run up to its first failing save, which is the one after `n` promotions. */
  lemma {:induction false} FailedSaveIs(s: EventStore, slots: nat, now: Time, saves: seq<bool>, n: nat)
    requires n < Promotions(s, slots) && n < |saves| && !saves[n] && forall i :: 0 <= i < n ==> saves[i]
    ensures var out := PromoteMany(s, slots, now, saves);
            && out.thrown && out.store == PromoteTimes(s, n, now).0
            && out.results == FirstPromoted(s, n)
    decreases n
  {
    if n == 0 {
    } else {
      var s' := Promote(s, now, true).0;
      FailedSaveIs(s', slots - 1, now, saves[1..], n - 1);
      OneMoreInFront(s, s', n);
      TimesFromFront(s, n - 1, now);
    }
  }

  lemma {:induction false} TimesFromFront(s: EventStore, n: nat, now: Time)
    ensures PromoteTimes(Promote(s, now, true).0, n, now).0 == PromoteTimes(s, n + 1, now).0
  {
    if n == 0 {
    } else {
      TimesFromFront(s, n - 1, now);
    }
  }

  /** A failing save hands the seat back and leaves the user waiting at the head; the run stops there. */
  lemma FailedSaveStopsBatch(total: nat, s: EventStore, slots: nat, now: Time, saves: seq<bool>, n: nat)
    requires Coupled(total, s) && n < Promotions(s, slots)
    requires n < |saves| && !saves[n] && forall i :: 0 <= i < n ==> saves[i]
    ensures var out := PromoteMany(s, slots, now, saves);
            && out.thrown
            && Served(s, out.store, n, n, now)
            && out.results == FirstPromoted(s, n)
            && out.store.queue[0] == s.queue[n]
            && out.store.entries[s.queue[n].user].status.Waiting?
  {
    assert InQueue(s.queue, s.queue[n].user);
    assert EntryAgrees(s, s.queue[n].user);
    DrainExactly(total, s, n, now);
    FailedSaveIs(s, slots, now, saves, n);
    assert !InQueue(s.queue[..n], s.queue[n].user);
  }

  /** The first failing save of a script among its first `n`, if there is one. */
  lemma {:induction false} FirstFailure(saves: seq<bool>, n: int) returns (k: int)
    ensures 0 <= k <= Max(0, n) && forall i :: 0 <= i < k && i < |saves| ==> saves[i]
    ensures k < n ==> k < |saves| && !saves[k]
    decreases n
  {
    if n <= 0 {
      k := 0;
    } else {
      k := FirstFailure(saves, n - 1);
      if k == n - 1 && !(k < |saves| && !saves[k]) { k := n; }
    }
  }

  lemma AllSaved(s: EventStore, slots: nat, now: Time, saves: seq<bool>)
    requires Ready(s) && forall i :: 0 <= i < Promotions(s, slots) && i < |saves| ==> saves[i]
    ensures var out, k := PromoteMany(s, slots, now, saves), Promotions(s, slots);
            && ServedUpTo(s, out.store, slots, k, now, saves) && |out.store.rows| == |s.rows| + k
            && ResultsAnswered(s, slots, k, out.results, out.thrown)
  {
    ScriptUnused(s, slots, now, saves);
    ExactBatch(s, slots, now);
  }

  lemma SomeSaveFails(s: EventStore, slots: nat, now: Time, saves: seq<bool>, k: nat)
    requires Ready(s) && k < Promotions(s, slots) && Reached(Promotions(s, slots), k, saves)
    ensures var out := PromoteMany(s, slots, now, saves);
            && ServedUpTo(s, out.store, slots, k, now, saves) && |out.store.rows| == |s.rows| + k
            && ResultsAnswered(s, slots, k, out.results, out.thrown)
  {
    FailedSaveIs(s, slots, now, saves, k);
    CallsServe(s, k, now);
  }

  /** A batch of any size with any script of saves. */
  lemma BatchServesUpTo(s: EventStore, slots: nat, now: Time, saves: seq<bool>) returns (k: nat)
    requires Ready(s)
    ensures var out := PromoteMany(s, slots, now, saves);
            && ServedUpTo(s, out.store, slots, k, now, saves) && |out.store.rows| == |s.rows| + k
            && ResultsAnswered(s, slots, k, out.results, out.thrown)
  {
    k := FirstFailure(saves, Promotions(s, slots));
    if k == Promotions(s, slots) { AllSaved(s, slots, now, saves); } else { SomeSaveFails(s, slots, now, saves, k); }
  }

  /** The exact outcome of `promoteUsers`, over every script of saves. */
  lemma PromoteUsersAnswers(s: EventStore, maxActiveUsers: int, now: Time, saves: seq<bool>)
    requires Ready(s)
    ensures var out := Operations.PromoteUsers(s, maxActiveUsers, now, saves);
            BatchAnswered(s, out.store, maxActiveUsers, now, saves, out.results, out.thrown)
  {
    var k := BatchServesUpTo(s, SlotsAvailable(s, maxActiveUsers), now, saves);
  }

  lemma {:induction false} CountWithinSlots(s: EventStore, slots: nat, now: Time, saves: seq<bool>)
    ensures s.activeCount <= PromoteMany(s, slots, now, saves).store.activeCount <= s.activeCount + slots
    decreases slots
  {
    if slots == 0 {
    } else {
      var (s', result) := Promote(s, now, NextSave(saves));
      if result.Promoted? { CountWithinSlots(s', slots - 1, now, LaterSaves(saves)); }
    }
  }

  /** The limit on active users is respected whatever the stores are and whatever saves fail. */
  lemma PromoteUsersRespectsLimit(s: EventStore, maxActiveUsers: int, now: Time, saves: seq<bool>)
    ensures var out := Operations.PromoteUsers(s, maxActiveUsers, now, saves);
            && LimitRespected(s, out.store, maxActiveUsers)
            && (s.activeCount >= maxActiveUsers ==> out.results == [] && !out.thrown)
  {
    CountWithinSlots(s, SlotsAvailable(s, maxActiveUsers), now, saves);
  }
}
