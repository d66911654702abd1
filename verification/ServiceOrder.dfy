/** First come, first served, over every interleaved schedule: any number of batches may overlap, commands may be
    rejected and runs may stop, and still the heads of the queue are read in the order in which users joined. */
module ServiceOrder {
  import opened Domain
  import opened WaitingQueue
  import opened Protocol
  import opened SinglePromotion
  import opened TidyEntries

  /** The step reads the head of the queue. */
  predicate ReadsHead(s: State, a: Action) {
    a.BatchStep? && a.ok && a.batch < |s.batches| && s.batches[a.batch].pc.ReadHead? && s.store.queue != []
  }

  /** The queue members that a schedule read as heads, in the order of the reads. */
  ghost function HeadsRead(c: Config, acts: seq<Action>): seq<Member>
    requires Schedule(c, Initial(c), acts)
    decreases |acts|
  {
    if acts == [] then []
    else
      var before := After(c, Initial(c), acts[..|acts| - 1]);
      HeadsRead(c, acts[..|acts| - 1]) + (if ReadsHead(before, acts[|acts| - 1]) then [before.store.queue[0]] else [])
  }

  /** Heads were read in the order of their joining times, and none of them joined after anybody still queued. */
  ghost predicate InArrivalOrder(s: State, heads: seq<Member>) {
    && (forall i, j :: 0 <= i < j < |heads| ==> heads[i].score <= heads[j].score)
    && (forall x, y :: x in heads && y in s.store.queue ==> x.score <= y.score)
    && (forall x :: x in heads || x in s.store.queue ==> x.score <= s.clock)
  }

  ghost predicate WasHead(heads: seq<Member>, u: UserId) { exists m :: m in heads && m.user == u }

  /** Batches, rows and entries past WAITING belong to users who were read as heads. */
  ghost predicate HeadsOnly(s: State, heads: seq<Member>) {
    && (forall i, u :: 0 <= i < |s.batches| && About(s.batches[i], u) ==> WasHead(heads, u))
    && (forall r :: 0 <= r < |s.store.rows| ==> WasHead(heads, s.store.rows[r].user))
    && (forall u :: u in s.store.entries && !s.store.entries[u].status.Waiting? ==> WasHead(heads, u))
  }

  lemma LongerHeads(heads: seq<Member>, more: seq<Member>)
    ensures forall u :: WasHead(heads, u) ==> WasHead(heads + more, u)
  {
    forall u | WasHead(heads, u) ensures WasHead(heads + more, u) {
      var m :| m in heads && m.user == u;
      assert m in heads + more;
    }
  }

  lemma BatchStepInOrder(c: Config, s: State, i: nat, ok: bool, heads: seq<Member>)
    requires WellFormed(s) && Enabled(s, BatchStep(i, ok)) && Ordered(s.store.queue) && InArrivalOrder(s, heads)
    ensures InArrivalOrder(Apply(c, s, BatchStep(i, ok)), heads)
    ensures ReadsHead(s, BatchStep(i, ok)) ==> InArrivalOrder(Apply(c, s, BatchStep(i, ok)), heads + [s.store.queue[0]])
  {
    var b, q := s.batches[i], s.store.queue;
    BatchDoesQueue(s, b, ok);
    if ok && (b.pc.Dequeue? || b.pc.DropSoldOut?) { RemoveKeepsOrder(q, b.pc.user); }
    if ReadsHead(s, BatchStep(i, ok)) { assert q[0] in q && forall y :: y in q ==> q[0].score <= y.score; }
  }

  lemma BatchDoesAbout(s: State, b: Batch, ok: bool, u: UserId)
    requires Working(b)
    ensures About(BatchDoes(s, b, ok).batch, u) ==>
              About(b, u) || (ok && b.pc.ReadHead? && s.store.queue != [] && u == s.store.queue[0].user)
  {}

  lemma BatchStepHeads(c: Config, s: State, i: nat, ok: bool, heads: seq<Member>)
    requires WellFormed(s) && Enabled(s, BatchStep(i, ok)) && HeadsOnly(s, heads)
    ensures HeadsOnly(Apply(c, s, BatchStep(i, ok)),
                      heads + if ReadsHead(s, BatchStep(i, ok)) then [s.store.queue[0]] else [])
  {
    var b, t := s.batches[i], Apply(c, s, BatchStep(i, ok));
    var more := if ReadsHead(s, BatchStep(i, ok)) then [s.store.queue[0]] else [];
    LongerHeads(heads, more);
    BatchFrameRows(s, b, ok);
    BatchWritesEntries(s, b, ok);
    forall k, u | 0 <= k < |t.batches| && About(t.batches[k], u) ensures WasHead(heads + more, u) {
      if k == i && !About(b, u) {
        BatchDoesAbout(s, b, ok, u);
        assert s.store.queue[0] in heads + more;
      } else {
        assert About(s.batches[k], u);
      }
    }
    assert !b.pc.ReadHead? && !b.pc.BatchOver? ==> About(b, b.pc.user);
  }

  lemma RunStepHeads(c: Config, s: State, j: nat, ok: bool, heads: seq<Member>)
    requires WellFormed(s) && Enabled(s, RunStep(j, ok)) && HeadsOnly(s, heads)
    ensures HeadsOnly(Apply(c, s, RunStep(j, ok)), heads)
  {
    RunFrameRows(s, s.runs[j], ok);
    RunWritesEntries(s, s.runs[j], ok);
  }

  lemma JoinInOrder(c: Config, s: State, u: UserId, heads: seq<Member>)
    requires WellFormed(s) && InArrivalOrder(s, heads) && HeadsOnly(s, heads)
    ensures InArrivalOrder(Apply(c, s, Enter(u)), heads) && HeadsOnly(Apply(c, s, Enter(u)), heads)
  {
    AddMembers(s.store.queue, Member(s.clock, u));
  }

  lemma QuietInOrder(c: Config, s: State, a: Action, heads: seq<Member>)
    requires WellFormed(s) && Enabled(s, a) && (a.Tick? || a.Settle? || a.OpenBatch? || a.Deliver?)
    requires InArrivalOrder(s, heads) && HeadsOnly(s, heads)
    ensures InArrivalOrder(Apply(c, s, a), heads) && HeadsOnly(Apply(c, s, a), heads)
  {
    assert forall r :: 0 <= r < |s.store.rows| ==> Apply(c, s, a).store.rows[r].user == s.store.rows[r].user;
  }

  /** One step: what it reads as a head goes to the end of the heads. */
  lemma StepKeepsOrder(c: Config, s: State, a: Action, heads: seq<Member>)
    requires WellFormed(s) && Enabled(s, a) && Ordered(s.store.queue) && InArrivalOrder(s, heads) && HeadsOnly(s, heads)
    ensures var heads' := heads + if ReadsHead(s, a) then [s.store.queue[0]] else [];
            InArrivalOrder(Apply(c, s, a), heads') && HeadsOnly(Apply(c, s, a), heads')
  {
    assert heads + [] == heads;
    match a
    case BatchStep(i, ok) => BatchStepInOrder(c, s, i, ok, heads); BatchStepHeads(c, s, i, ok, heads);
    case RunStep(j, ok) => RunFrameRows(s, s.runs[j], ok); RunStepHeads(c, s, j, ok, heads);
    case Enter(u) => JoinInOrder(c, s, u, heads);
    case _ => QuietInOrder(c, s, a, heads);
  }

  lemma {:induction false} OrderAlways(c: Config, acts: seq<Action>)
    requires Schedule(c, Initial(c), acts)
    ensures InArrivalOrder(After(c, Initial(c), acts), HeadsRead(c, acts))
    ensures HeadsOnly(After(c, Initial(c), acts), HeadsRead(c, acts))
    decreases |acts|
  {
    if acts == [] {
    } else {
      var init := acts[..|acts| - 1];
      OrderAlways(c, init);
      SaneAlways(c, init);
      StepKeepsOrder(c, After(c, Initial(c), init), acts[|acts| - 1], HeadsRead(c, init));
    }
  }

  /** After every schedule: heads were read in the order of joining; and whoever has a reservation, or an entry past
      WAITING, was read as a head and did not join later than anybody still in the queue. */
  lemma FirstComeFirstServed(c: Config, acts: seq<Action>)
    requires Schedule(c, Initial(c), acts)
    ensures var s, heads := After(c, Initial(c), acts), HeadsRead(c, acts);
            && (forall i, j :: 0 <= i < j < |heads| ==> heads[i].score <= heads[j].score)
            && (forall u, y :: y in s.store.queue && (HasRow(s, u) || PastWaiting(s, u)) ==>
                  exists m :: m in heads && m.user == u && m.score <= y.score)
  {
    OrderAlways(c, acts);
    var s, heads := After(c, Initial(c), acts), HeadsRead(c, acts);
    forall u, y | y in s.store.queue && (HasRow(s, u) || PastWaiting(s, u))
      ensures exists m :: m in heads && m.user == u && m.score <= y.score
    {
      assert WasHead(heads, u);
      var m :| m in heads && m.user == u;
      assert m.score <= y.score;
    }
  }

  predicate PastWaiting(s: State, u: UserId) { u in s.store.entries && !s.store.entries[u].status.Waiting? }
}
