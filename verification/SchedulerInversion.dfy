/** Whether a batch can pass over a compatible request that sorts before one of its members: which
    configurations never do so, on any queue and in any run. */
module SchedulerInversion {
  import opened Types
  import opened SchedulerState
  import opened SchedulerSafety
  import opened SchedulerBatches
  import opened SchedulerGathering
  import LatencyEstimator

  /** Every request that is left behind and compatible with the batch sorts after all of the batch. */
  ghost predicate InOrder(c: Config, be: Backend, es: seq<Entry>, batch: seq<nat>, rest: seq<nat>)
    requires InRange(es, batch) && InRange(es, rest) && batch != []
  {
    forall x, y | x in rest && be.batchKey(es[x].request) == be.batchKey(es[batch[0]].request) && y in batch ::
      Before(KeyOf(c, es, y), KeyOf(c, es, x))
  }

  ghost predicate ChoiceInOrder(c: Config, be: Backend, es: seq<Entry>, est: Predictor, clock: Clock, heap: seq<nat>,
                                checkedAt: int)
    requires heap != [] && InRange(es, heap)
  {
    InOrder(c, be, es, TheChoice(c, be, es, est, clock, heap, checkedAt).ids,
            TheChoice(c, be, es, est, clock, heap, checkedAt).rest)
  }

  ghost predicate Queue(c: Config, es: seq<Entry>, heap: seq<nat>) {
    heap != [] && Sorted(c, es, heap) && AllActive(es, heap)
  }

  ghost predicate NeverInverts(c: Config) {
    forall be: Backend, es: seq<Entry>, est: Predictor, clock: Clock, heap: seq<nat>, checkedAt: int
      | NonDecreasing(clock) && Queue(c, es, heap) :: ChoiceInOrder(c, be, es, est, clock, heap, checkedAt)
  }

  // ---------------------------------------------------------------- when nothing is passed over

  lemma EdfInOrder(c: Config, be: Backend, es: seq<Entry>, est: Predictor, clock: Clock, heap: seq<nat>, checkedAt: int)
    requires c.policy.EDF? && NonDecreasing(clock) && Queue(c, es, heap)
    ensures ChoiceInOrder(c, be, es, est, clock, heap, checkedAt)
  {
    EdfBatchHasNoInversion(c, be, es, est, clock, heap, checkedAt);
    BatchIsAdmissible(c, be, es, est, clock, heap, checkedAt);
    hide TheChoice, Sorted, Before, KeyOf, Compatible, Admissible;
  }

  /** What is left behind sorts after the leader, whatever the policy. */
  lemma RestAfterLeader(c: Config, be: Backend, es: seq<Entry>, est: Predictor, clock: Clock, heap: seq<nat>,
                        checkedAt: int, x: nat)
    requires Queue(c, es, heap) && x in TheChoice(c, be, es, est, clock, heap, checkedAt).rest
    ensures x in heap && x !in TheChoice(c, be, es, est, clock, heap, checkedAt).ids
    ensures x < |es| && x != heap[0] && Before(KeyOf(c, es, heap[0]), KeyOf(c, es, x))
  {
    var ch := TheChoice(c, be, es, est, clock, heap, checkedAt);
    ChoicePartitionsQueue(c, be, es, est, clock, heap, checkedAt);
    BatchIsAdmissible(c, be, es, est, clock, heap, checkedAt);
    hide TheChoice, Sorted, Before, KeyOf, Admissible, AllActive;
    DistinctFromRest(c, es, heap, ch, x);
    assert ch.ids[0] == heap[0];
    TailOf(heap, x);
    HeadIsBefore(c, es, heap, x);
  }

  /** A batch of one passes over nobody. */
  lemma SingleInOrder(c: Config, be: Backend, es: seq<Entry>, est: Predictor, clock: Clock, heap: seq<nat>,
                      checkedAt: int)
    requires c.maxBatchSize == Some(1) && Queue(c, es, heap)
    ensures ChoiceInOrder(c, be, es, est, clock, heap, checkedAt)
  {
    var ch := TheChoice(c, be, es, est, clock, heap, checkedAt);
    BatchIsAdmissible(c, be, es, est, clock, heap, checkedAt);
    assert ch.ids == [heap[0]];
    hide TheChoice, Sorted, Before, KeyOf, Admissible;
    forall x | x in ch.rest ensures Before(KeyOf(c, es, heap[0]), KeyOf(c, es, x)) {
      RestAfterLeader(c, be, es, est, clock, heap, checkedAt, x);
    }
  }

  /** Of a queue of two nobody but the leader can be taken before the one that is left. */
  lemma PairInOrder(c: Config, be: Backend, es: seq<Entry>, est: Predictor, clock: Clock, heap: seq<nat>,
                    checkedAt: int)
    requires |heap| <= 2 && Queue(c, es, heap)
    ensures ChoiceInOrder(c, be, es, est, clock, heap, checkedAt)
  {
    var ch := TheChoice(c, be, es, est, clock, heap, checkedAt);
    ChoicePartitionsQueue(c, be, es, est, clock, heap, checkedAt);
    hide TheChoice, Sorted, Before, KeyOf, AllActive;
    forall x, y | x in ch.rest && y in ch.ids ensures Before(KeyOf(c, es, y), KeyOf(c, es, x)) {
      RestAfterLeader(c, be, es, est, clock, heap, checkedAt, x);
      assert y in multiset(heap);
      OnlyOneOther(heap, x, y);
    }
  }

  lemma OnlyOneOther(heap: seq<nat>, x: nat, y: nat)
    requires |heap| <= 2 && x in heap && y in heap && x != y && x != heap[0]
    ensures y == heap[0]
  {
  }

  // ---------------------------------------------------------------- when somebody is passed over

  const TINY_THEN_SLOW: Predictor := (n: int) => Some(if n <= 1 then 0 else 100)

  const EIGHT_AT_ONCE: Backend := Backend(8, (r: Request) => [])

  /** Three observations in order of arrival; the second cannot afford to share a batch. */
  function Tight(c: Config, now: int): seq<Request> {
    [Request("request", "a", "model", "default", now + 1000 + c.guardNs, 1, 0, 0),
     Request("request", "b", "model", "default", now + 50 + c.guardNs, 2, 0, 0),
     Request("request", "c", "model", "default", now + 1000 + c.guardNs, 3, 0, 0)]
  }

  lemma TightIsInLine(c: Config, now: int)
    requires c.policy.FIFO?
    ensures InLine(c, Tight(c, now), now)
  {
  }

  /** Any FIFO configuration that makes batches takes the third and leaves the second. */
  lemma TightIsPassedOver(c: Config, clock: Clock, now: int, checkedAt: int)
    requires c.Valid() && c.policy.FIFO? && c.maxBatchSize != Some(1) && forall n: nat :: clock(n) == now
    ensures var ch := TheChoice(c, EIGHT_AT_ONCE, PendingAll(Tight(c, now)), TINY_THEN_SLOW, clock, FirstIds(3),
                                checkedAt);
            ch.ids == [0, 2] && ch.rest == [1]
  {
    var es := PendingAll(Tight(c, now));
    var heap := FirstIds(3);
    assert heap == [0, 1, 2] && heap[1..] == [1, 2] && [1, 2][1..] == [2] && [2][1..] == [];
    assert BatchLimit(c, EIGHT_AT_ONCE) >= 2;
    hide BatchLimit;
    var start := Choice([0], [now], checkedAt, []);
    assert EarliestDeadline(es, [0]) == now + 1000 + c.guardNs;
    assert !Joins(c, EIGHT_AT_ONCE, es, TINY_THEN_SLOW, [0], 1, now);
    assert Joins(c, EIGHT_AT_ONCE, es, TINY_THEN_SLOW, [0], 2, now);
    hide Joins, EarliestDeadline;
    var second := start.(rest := [1]);
    assert Select(c, EIGHT_AT_ONCE, es, TINY_THEN_SLOW, clock, heap[1..], start, 0)
        == Select(c, EIGHT_AT_ONCE, es, TINY_THEN_SLOW, clock, [2], second, 1);
  }

  lemma PassedOverIsInverted(c: Config, be: Backend, es: seq<Entry>, now: int)
    requires c.policy.FIFO? && |es| == 3 && (forall i | 0 <= i < 3 :: es[i].request == Tight(c, now)[i])
    requires be == EIGHT_AT_ONCE
    ensures !InOrder(c, be, es, [0, 2], [1])
  {
    assert 1 in [1] && 2 in [0, 2];
    assert !Before(KeyOf(c, es, 2), KeyOf(c, es, 1));
  }

  lemma BatchesInvert(c: Config)
    requires c.Valid() && c.policy.FIFO? && c.maxBatchSize != Some(1)
    ensures !NeverInverts(c)
  {
    var es := PendingAll(Tight(c, 0));
    var clock := (n: nat) => 0;
    TightIsInLine(c, 0);
    LineIsSorted(c, Tight(c, 0), 0);
    TightIsPassedOver(c, clock, 0, 0);
    PassedOverIsInverted(c, EIGHT_AT_ONCE, es, 0);
    hide TheChoice, Sorted, InLine, InOrder, Tight;
    assert Queue(c, es, FirstIds(3)) && NonDecreasing(clock);
    assert !ChoiceInOrder(c, EIGHT_AT_ONCE, es, TINY_THEN_SLOW, clock, FirstIds(3), 0);
  }

  /** On every sorted queue of pending requests, with a clock that does not go back, a batch passes over no
      compatible request that sorts before one of its members if and only if the policy is `edf` or batches are
      limited to one request. */
  lemma {:induction false} NeverInvertsExactly(c: Config)
    requires c.Valid()
    ensures NeverInverts(c) <==> c.policy.EDF? || c.maxBatchSize == Some(1)
  {
    hide ChoiceInOrder;
    if c.policy.EDF? || c.maxBatchSize == Some(1) {
      forall be: Backend, es: seq<Entry>, est: Predictor, clock: Clock, heap: seq<nat>, checkedAt: int
        | NonDecreasing(clock) && Queue(c, es, heap) ensures ChoiceInOrder(c, be, es, est, clock, heap, checkedAt)
      {
        if c.policy.EDF? {
          EdfInOrder(c, be, es, est, clock, heap, checkedAt);
        } else {
          SingleInOrder(c, be, es, est, clock, heap, checkedAt);
        }
      }
    } else {
      BatchesInvert(c);
    }
  }

  // ---------------------------------------------------------------- the batches of a run

  /** The batch and the queue that a wake-up leaves, against the cleaned queue from which they were made. */
  ghost predicate BatchOf(c: Config, be: Backend, s1: State, r: State) {
    && s1.heap != [] && InRange(s1.entries, s1.heap) && r.worker.Executing? && r.worker.batch != []
    && multiset(r.worker.batch) + multiset(r.heap) == multiset(s1.heap)
    && r.worker.batch[0] == s1.heap[0]
    && Admissible(c, be, r.entries, r.worker.batch)
    && Sorted(c, r.entries, r.heap)
  }

  /** Under deadline order, moreover, the batch is the head and the first compatible ones, in queue order. */
  ghost predicate EdfBatchOf(c: Config, be: Backend, s1: State, r: State)
    requires BatchOf(c, be, s1, r)
  {
    var fits := Compatible(be, s1.entries, be.batchKey(s1.entries[s1.heap[0]].request), s1.heap[1..]);
    && |r.worker.batch| <= 1 + |fits|
    && r.worker.batch == [s1.heap[0]] + fits[..|r.worker.batch| - 1]
    && InOrder(c, be, r.entries, r.worker.batch, r.heap)
  }

  lemma SameRequestsSameOrder(c: Config, be: Backend, es: seq<Entry>, es': seq<Entry>, batch: seq<nat>, rest: seq<nat>)
    requires InRange(es, batch) && InRange(es, rest) && batch != [] && |es'| == |es|
    requires forall id: nat | id < |es| :: es'[id].request == es[id].request
    ensures Sorted(c, es, rest) ==> Sorted(c, es', rest)
    ensures Admissible(c, be, es, batch) ==> Admissible(c, be, es', batch)
    ensures InOrder(c, be, es, batch, rest) <==> InOrder(c, be, es', batch, rest)
  {
    assert forall id: nat | id < |es| :: KeyOf(c, es', id) == KeyOf(c, es, id);
    hide Before, KeyOf;
    forall x, y | x in rest && y in batch ensures x < |es| && y < |es| {
    }
  }

  /** In every run, a wake-up that calls the backend splits the cleaned queue into the batch, led by its head,
      and the new queue; under deadline order the batch is the head and the first compatible ones, and nobody
      compatible who is left behind sorts before a member of it. */
  lemma {:induction false} ReachableBatchSplitsQueue(c: Config, be: Backend, events: seq<Event>, est: Predictor,
                                                     clock: Clock)
    requires Run(c, be, events).worker.Waiting? && Wake(c, be, Run(c, be, events), est, clock).worker.Executing?
    ensures var (s1, r) := (CleanUp(c, Run(c, be, events), est, clock), Wake(c, be, Run(c, be, events), est, clock));
            && BatchOf(c, be, s1, r)
            && (c.policy.EDF? && NonDecreasing(clock) ==> EdfBatchOf(c, be, s1, r))
  {
    var s := Run(c, be, events);
    RunIsSound(c, be, events);
    hide Run, Inv, WellFormed, Wake, CleanUp;
    WakeTakesChoice(c, be, s, est, clock);
    TheBatch(c, be, CleanUp(c, s, est, clock), Wake(c, be, s, est, clock), est, (n: nat) => clock(n + 3), clock(1));
    assert NonDecreasing(clock) ==> NonDecreasing((n: nat) => clock(n + 3));
  }

  lemma TheBatch(c: Config, be: Backend, s1: State, r: State, est: Predictor, clock: Clock, checkedAt: int)
    requires Queue(c, s1.entries, s1.heap) && r.worker.Executing?
    requires var ch := TheChoice(c, be, s1.entries, est, clock, s1.heap, checkedAt);
             r.worker.batch == ch.ids && r.heap == ch.rest
    requires |r.entries| == |s1.entries| && forall id: nat | id < |s1.entries| ::
               r.entries[id].request == s1.entries[id].request
    ensures BatchOf(c, be, s1, r)
    ensures c.policy.EDF? && NonDecreasing(clock) ==> EdfBatchOf(c, be, s1, r)
  {
    var ch := TheChoice(c, be, s1.entries, est, clock, s1.heap, checkedAt);
    ChoicePartitionsQueue(c, be, s1.entries, est, clock, s1.heap, checkedAt);
    BatchIsAdmissible(c, be, s1.entries, est, clock, s1.heap, checkedAt);
    ChoiceIsOrdered(c, be, s1.entries, est, clock, s1.heap, checkedAt);
    hide TheChoice, Sorted, Admissible, InOrder, Compatible, AllActive;
    SameRequestsSameOrder(c, be, s1.entries, r.entries, ch.ids, ch.rest);
    if c.policy.EDF? && NonDecreasing(clock) {
      EdfBatchHasNoInversion(c, be, s1.entries, est, clock, s1.heap, checkedAt);
      EdfInOrder(c, be, s1.entries, est, clock, s1.heap, checkedAt);
    }
  }

  /** In every run under deadline order, with the clock standing still and the estimate that the backend has
      learned from any history of measurements, the batch is the largest safe one. */
  lemma {:induction false} ReachableBatchIsLargestSafe(c: Config, be: Backend, events: seq<Event>, est: Predictor,
                                                       now: int, history: seq<LatencyEstimator.Measurement>,
                                                       learned: LatencyEstimator.Settings)
    requires c.policy.EDF? && learned.Valid() && LatencyEstimator.Measured(history)
    requires forall n: nat | n >= 1 :: est(n) == LatencyEstimator.LearnedNs(history, learned, n)
    requires Run(c, be, events).worker.Waiting?
    requires Wake(c, be, Run(c, be, events), est, (n: nat) => now).worker.Executing?
    ensures var s1 := CleanUp(c, Run(c, be, events), est, (n: nat) => now);
            var size := |Wake(c, be, Run(c, be, events), est, (n: nat) => now).worker.batch|;
            && s1.heap != [] && InRange(s1.entries, s1.heap)
            && var compatible := 1 + |Compatible(be, s1.entries, be.batchKey(s1.entries[s1.heap[0]].request),
                                                 s1.heap[1..])|;
            LargestSafe(c, be, est, size, compatible, DeadlineOf(s1.entries, s1.heap[0]), now)
  {
    var s := Run(c, be, events);
    var clock: Clock := (n: nat) => now;
    var l := LatencyEstimator.After(history, learned.window);
    RunIsSound(c, be, events);
    LatencyEstimator.LearnedLatenciesAreValid(history, learned.window);
    hide Run, Inv, WellFormed, Wake, CleanUp, Compatible, LargestSafe, LatencyEstimator.PredictedNs,
      LatencyEstimator.After;
    WakeTakesChoice(c, be, s, est, clock);
    var s1 := CleanUp(c, s, est, clock);
    EdfBatchIsLargestSafe(c, be, s1.entries, est, (n: nat) => clock(n + 3), s1.heap, clock(1), now, l, learned);
  }

  ghost predicate WakeInOrder(c: Config, be: Backend, s: State, est: Predictor, clock: Clock)
    requires WellFormed(s)
  {
    s.worker.Waiting? && Wake(c, be, s, est, clock).worker.Executing? ==>
      var r := Wake(c, be, s, est, clock);
      r.worker.batch != [] && InRange(r.entries, r.worker.batch) && InRange(r.entries, r.heap)
      && InOrder(c, be, r.entries, r.worker.batch, r.heap)
  }

  ghost predicate RunsNeverInvert(c: Config) {
    forall be: Backend, events: seq<Event>, est: Predictor, clock: Clock
      | NonDecreasing(clock) :: WakeInOrder(c, be, Run(c, be, events), est, clock)
  }

  lemma RunInOrder(c: Config, be: Backend, events: seq<Event>, est: Predictor, clock: Clock)
    requires NonDecreasing(clock)
    requires c.policy.EDF? || c.maxBatchSize == Some(1) || (c.maxPending.Some? && c.maxPending.value <= 2)
    ensures WakeInOrder(c, be, Run(c, be, events), est, clock)
  {
    var s := Run(c, be, events);
    RunIsSound(c, be, events);
    hide Run, Inv, WellFormed, Wake, CleanUp;
    if s.worker.Waiting? && Wake(c, be, s, est, clock).worker.Executing? {
      WakeTakesChoice(c, be, s, est, clock);
      var (s1, r) := (CleanUp(c, s, est, clock), Wake(c, be, s, est, clock));
      TheBatch(c, be, s1, r, est, (n: nat) => clock(n + 3), clock(1));
      if c.maxPending.Some? {
        QueueIsSmall(c, s, est, clock);
      }
      ChoiceOfAnOrderlyQueue(c, be, s1.entries, est, (n: nat) => clock(n + 3), s1.heap, clock(1));
      hide TheChoice, InOrder, Sorted, Admissible, AllActive;
      SameRequestsSameOrder(c, be, s1.entries, r.entries, r.worker.batch, r.heap);
    }
  }

  lemma ChoiceOfAnOrderlyQueue(c: Config, be: Backend, es: seq<Entry>, est: Predictor, clock: Clock, heap: seq<nat>,
                               checkedAt: int)
    requires NonDecreasing(clock) && Queue(c, es, heap)
    requires c.policy.EDF? || c.maxBatchSize == Some(1) || |heap| <= 2
    ensures ChoiceInOrder(c, be, es, est, clock, heap, checkedAt)
  {
    hide ChoiceInOrder, Queue;
    if c.policy.EDF? {
      EdfInOrder(c, be, es, est, clock, heap, checkedAt);
    } else if c.maxBatchSize == Some(1) {
      SingleInOrder(c, be, es, est, clock, heap, checkedAt);
    } else {
      PairInOrder(c, be, es, est, clock, heap, checkedAt);
    }
  }

  /** The three of `Tight` can gather wherever there is room for three, and then the second is passed over. */
  lemma {:induction false} TightRunInverts(c: Config) returns (events: seq<Event>)
    requires c.Valid() && c.policy.FIFO? && c.maxBatchSize != Some(1)
             && (c.maxPending.Some? ==> c.maxPending.value >= 3)
    ensures !WakeInOrder(c, EIGHT_AT_ONCE, Run(c, EIGHT_AT_ONCE, events), TINY_THEN_SLOW,
                         (n: nat) => c.batchWindowNs + 10)
  {
    var now := c.batchWindowNs + 10;
    var rs := Tight(c, now);
    events := Arrivals(rs, now);
    TightIsInLine(c, now);
    LineGathers(c, EIGHT_AT_ONCE, rs, now);
    GatheredInverts(c, Run(c, EIGHT_AT_ONCE, events), now);
  }

  lemma GatheredInverts(c: Config, s: State, now: int)
    requires WellFormed(s) && Gathered(s, Tight(c, now)) && now == c.batchWindowNs + 10
    requires c.Valid() && c.policy.FIFO? && c.maxBatchSize != Some(1)
    ensures !WakeInOrder(c, EIGHT_AT_ONCE, s, TINY_THEN_SLOW, (n: nat) => now)
  {
    var clock: Clock := (n: nat) => now;
    GatheredCleanUp(c, s, Tight(c, now), TINY_THEN_SLOW, now);
    TightIsDue(c, s, now);
    TightIsInLine(c, now);
    LineIsSorted(c, Tight(c, now), now);
    TightIsPassedOver(c, (n: nat) => clock(n + 3), now, clock(1));
    hide CleanUp, TheChoice, Sorted, DispatchAt, InLine, TakeBatch, Gathered, InOrder, WellFormed, Tight;
    TakenChoice(c, EIGHT_AT_ONCE, s, TINY_THEN_SLOW, (n: nat) => clock(n + 3), clock(1));
    var r := Wake(c, EIGHT_AT_ONCE, s, TINY_THEN_SLOW, clock);
    PassedOverIsInverted(c, EIGHT_AT_ONCE, r.entries, now);
  }

  lemma TightIsDue(c: Config, s: State, now: int)
    requires Gathered(s, Tight(c, now)) && now == c.batchWindowNs + 10
    ensures s.heap == FirstIds(3) && s.entries == PendingAll(Tight(c, now)) && s.worker.Waiting?
    ensures s.heap[0] == 0 && now >= DispatchAt(c, s.entries[0].request, TINY_THEN_SLOW(1))
    ensures forall i | 0 <= i < 3 :: s.entries[i].request == Tight(c, now)[i]
  {
  }

  /** Over all runs the condition is weaker still by what can be queued: no batch of any run passes over a
      compatible request that sorts before one of its members if and only if the policy is `edf`, or batches are
      limited to one request, or at most two requests may be pending. */
  lemma {:induction false} RunsNeverInvertExactly(c: Config)
    requires c.Valid()
    ensures RunsNeverInvert(c)
       <==> c.policy.EDF? || c.maxBatchSize == Some(1) || (c.maxPending.Some? && c.maxPending.value <= 2)
  {
    hide Run, WakeInOrder;
    if c.policy.EDF? || c.maxBatchSize == Some(1) || (c.maxPending.Some? && c.maxPending.value <= 2) {
      forall be: Backend, events: seq<Event>, est: Predictor, clock: Clock | NonDecreasing(clock)
        ensures WakeInOrder(c, be, Run(c, be, events), est, clock)
      {
        RunInOrder(c, be, events, est, clock);
      }
    } else {
      var events := TightRunInverts(c);
      assert NonDecreasing((n: nat) => c.batchWindowNs + 10);
    }
  }
}
