/** Why a request is left out of a batch, under any policy and any estimates, and by when a batch is predicted to be
    answered. */
module SchedulerChoices {
  import opened SchedulerState
  import opened SchedulerSafety
  import opened SchedulerScan
  import opened SchedulerBatches

  /** A batch of this size would exceed a limit. */
  predicate TooMany(c: Config, be: Backend, size: int) {
    size > be.maxBatchSize || (c.maxBatchSize.Some? && size > c.maxBatchSize.value)
  }

  /** Why a request cannot join those chosen before it: there is no room, or at some moment of the scan the
      prediction for the enlarged batch, guard included, goes beyond the deadline of the request or of one of them. */
  ghost predicate CannotJoin(c: Config, be: Backend, es: seq<Entry>, est: Predictor, clock: Clock, chosen: seq<nat>,
                             x: nat) {
    var size := |chosen| + 1;
    || TooMany(c, be, size)
    || (est(size).Some? && exists k: nat, y: nat ::
          (y == x || y in chosen) && y < |es| && clock(k) + est(size).value + c.guardNs > es[y].request.deadlineNs)
  }

  lemma {:induction false} EarliestIsSomebodys(es: seq<Entry>, ids: seq<nat>) returns (y: nat)
    requires ids != [] && InRange(es, ids)
    ensures y in ids && y < |es| && es[y].request.deadlineNs == EarliestDeadline(es, ids)
  {
    y := ids[|ids| - 1];
    if |ids| > 1 {
      var z := EarliestIsSomebodys(es, ids[..|ids| - 1]);
      if es[z].request.deadlineNs <= es[y].request.deadlineNs {
        y := z;
      }
    }
  }

  /** The admission test fails for one of these reasons only. */
  lemma RefusedForAReason(c: Config, be: Backend, es: seq<Entry>, est: Predictor, clock: Clock, ids: seq<nat>, x: nat,
                          k: nat)
    requires ids != [] && InRange(es, ids) && x < |es| && !Joins(c, be, es, est, ids, x, clock(k))
    requires be.batchKey(es[x].request) == be.batchKey(es[ids[0]].request)
    ensures CannotJoin(c, be, es, est, clock, ids, x)
  {
    LimitsExactly(c, be, |ids| + 1);
    if |ids| < BatchLimit(c, be) {
      var y := EarliestIsSomebodys(es, ids);
      var z := if es[x].request.deadlineNs < EarliestDeadline(es, ids) then x else y;
      assert clock(k) + est(|ids| + 1).value + c.guardNs > es[z].request.deadlineNs;
    }
  }

  lemma {:induction false} SelectExtends(c: Config, be: Backend, es: seq<Entry>, est: Predictor, clock: Clock,
                                         queue: seq<nat>, ch: Choice, k: nat)
    requires InRange(es, queue) && InRange(es, ch.ids) && InRange(es, ch.rest) && ch.ids != [] && |ch.ats| == |ch.ids|
    ensures var r := Select(c, be, es, est, clock, queue, ch, k);
            ch.ids <= r.ids && forall i | |ch.ids| <= i < |r.ids| :: r.ids[i] in queue
    decreases |queue|
  {
    if queue != [] {
      SelectStep(c, be, es, est, clock, queue, ch, k);
      ScannedAdds(c, be, es, est, clock, queue[0], ch, k);
      hide Select, Scanned;
      SelectExtends(c, be, es, est, clock, queue[1..], Scanned(c, be, es, est, clock, queue[0], ch, k), k + 1);
      assert queue == [queue[0]] + queue[1..];
    }
  }

  lemma ScannedJoins(c: Config, be: Backend, es: seq<Entry>, est: Predictor, clock: Clock, x: nat, ch: Choice, k: nat)
    requires x < |es| && es[x].active
    requires InRange(es, ch.ids) && InRange(es, ch.rest) && ch.ids != [] && |ch.ats| == |ch.ids|
    ensures Scanned(c, be, es, est, clock, x, ch, k).ids == ch.ids
       <==> !Joins(c, be, es, est, ch.ids, x, clock(2 * k + 1))
  {
    hide Joins;
  }

  /** Where in the batch a request that was left behind would have stood, and why it does not. */
  ghost predicate LeftForAReason(c: Config, be: Backend, es: seq<Entry>, est: Predictor, clock: Clock, batch: seq<nat>,
                                 x: nat, m: nat) {
    && 1 <= m <= |batch| && InRange(es, batch) && x < |es|
    && (forall i | 0 <= i < m :: Before(KeyOf(c, es, batch[i]), KeyOf(c, es, x)))
    && (forall i | m <= i < |batch| :: Before(KeyOf(c, es, x), KeyOf(c, es, batch[i])))
    && CannotJoin(c, be, es, est, clock, batch[..m], x)
  }

  lemma SortedTail(c: Config, es: seq<Entry>, ids: seq<nat>, queue: seq<nat>)
    requires Sorted(c, es, ids + queue) && queue != []
    ensures Sorted(c, es, ids + queue[1..]) && Sorted(c, es, (ids + [queue[0]]) + queue[1..])
    ensures forall y | y in ids :: y < |es| && queue[0] < |es| && Before(KeyOf(c, es, y), KeyOf(c, es, queue[0]))
    ensures forall y | y in queue[1..] :: y < |es| && queue[0] < |es| && Before(KeyOf(c, es, queue[0]), KeyOf(c, es, y))
  {
    hide Before, KeyOf;
    var all := ids + queue;
    assert (ids + [queue[0]]) + queue[1..] == all;
    assert all[|ids|] == queue[0];
    forall y | y in ids ensures y < |es| && Before(KeyOf(c, es, y), KeyOf(c, es, queue[0])) {
      var i :| 0 <= i < |ids| && ids[i] == y;
      assert all[i] == y;
    }
    forall y | y in queue[1..] ensures y < |es| && Before(KeyOf(c, es, queue[0]), KeyOf(c, es, y)) {
      var i :| 0 <= i < |queue[1..]| && queue[1..][i] == y;
      assert all[|ids| + 1 + i] == y;
    }
    var less := ids + queue[1..];
    forall i | 0 <= i < |less| ensures less[i] < |es| {
      assert less[i] == all[if i < |ids| then i else i + 1];
    }
    forall i, j | 0 <= i < j < |less| ensures Before(KeyOf(c, es, less[i]), KeyOf(c, es, less[j])) {
      assert less[i] == all[if i < |ids| then i else i + 1] && less[j] == all[if j < |ids| then j else j + 1];
    }
  }

  lemma StandsHere(c: Config, be: Backend, es: seq<Entry>, est: Predictor, clock: Clock, ids: seq<nat>, batch: seq<nat>,
                   x: nat, queue: seq<nat>)
    requires x < |es| && CannotJoin(c, be, es, est, clock, ids, x) && [] < ids <= batch && InRange(es, batch)
    requires forall y | y in ids :: y < |es| && Before(KeyOf(c, es, y), KeyOf(c, es, x))
    requires forall y | y in queue :: y < |es| && Before(KeyOf(c, es, x), KeyOf(c, es, y))
    requires forall i | |ids| <= i < |batch| :: batch[i] in queue
    ensures LeftForAReason(c, be, es, est, clock, batch, x, |ids|)
  {
    hide Before, KeyOf, CannotJoin;
    assert batch[..|ids|] == ids;
    forall i | 0 <= i < |ids| ensures Before(KeyOf(c, es, batch[i]), KeyOf(c, es, x)) {
      assert batch[i] == ids[i] && ids[i] in ids;
    }
  }

  lemma NotAppended(ids: seq<nat>, ids1: seq<nat>, batch: seq<nat>, x: nat)
    requires (ids1 == ids || ids1 == ids + [x]) && ids1 <= batch
    ensures x !in batch ==> ids1 == ids
  {
    if ids1 != ids {
      assert batch[|ids|] == x;
    }
  }

  lemma {:induction false} SelectLeavesForAReason(c: Config, be: Backend, es: seq<Entry>, est: Predictor, clock: Clock,
                                                  queue: seq<nat>, ch: Choice, k: nat, x: nat)
    returns (m: nat)
    requires InRange(es, queue) && InRange(es, ch.ids) && InRange(es, ch.rest) && ch.ids != [] && |ch.ats| == |ch.ids|
    requires Sorted(c, es, ch.ids + queue) && x in queue && x < |es| && es[x].active
    requires be.batchKey(es[x].request) == be.batchKey(es[ch.ids[0]].request)
    requires x !in Select(c, be, es, est, clock, queue, ch, k).ids
    ensures LeftForAReason(c, be, es, est, clock, Select(c, be, es, est, clock, queue, ch, k).ids, x, m)
    decreases |queue|
  {
    var ch1 := Scanned(c, be, es, est, clock, queue[0], ch, k);
    var r := Select(c, be, es, est, clock, queue, ch, k);
    SelectStep(c, be, es, est, clock, queue, ch, k);
    ScannedAdds(c, be, es, est, clock, queue[0], ch, k);
    SortedTail(c, es, ch.ids, queue);
    SelectExtends(c, be, es, est, clock, queue[1..], ch1, k + 1);
    if queue[0] == x {
      ScannedJoins(c, be, es, est, clock, x, ch, k);
      hide Select, Scanned, Joins, Sorted, Before, KeyOf, CannotJoin, LeftForAReason;
      NotAppended(ch.ids, ch1.ids, r.ids, x);
      RefusedForAReason(c, be, es, est, clock, ch.ids, x, 2 * k + 1);
      m := |ch.ids|;
      StandsHere(c, be, es, est, clock, ch.ids, r.ids, x, queue[1..]);
    } else {
      hide Select, Scanned, Joins, Sorted, Before, KeyOf, CannotJoin, LeftForAReason;
      assert queue == [queue[0]] + queue[1..];
      m := SelectLeavesForAReason(c, be, es, est, clock, queue[1..], ch1, k + 1, x);
    }
  }

  /** In every run and under any policy: a request that could have joined the batch by its key but is left in the
      queue has its place among the batch by queue order, and could not join those that stand before it. */
  lemma {:induction false} NobodyIsLeftWithoutReason(c: Config, be: Backend, events: seq<Event>, est: Predictor,
                                                     clock: Clock, x: nat)
    returns (m: nat)
    requires Run(c, be, events).worker.Waiting? && Wake(c, be, Run(c, be, events), est, clock).worker.Executing?
    requires x in Wake(c, be, Run(c, be, events), est, clock).heap
    requires var (s1, r) := (CleanUp(c, Run(c, be, events), est, clock), Wake(c, be, Run(c, be, events), est, clock));
             && r.worker.batch != [] && r.worker.batch[0] < |s1.entries| && x < |s1.entries|
             && be.batchKey(s1.entries[x].request) == be.batchKey(s1.entries[r.worker.batch[0]].request)
    ensures LeftForAReason(c, be, CleanUp(c, Run(c, be, events), est, clock).entries, est, (n: nat) => clock(n + 3),
                           Wake(c, be, Run(c, be, events), est, clock).worker.batch, x, m)
  {
    var s := Run(c, be, events);
    RunIsSound(c, be, events);
    hide Run, Inv, WellFormed, Wake, CleanUp, LeftForAReason;
    WakeTakesChoice(c, be, s, est, clock);
    m := ChoiceLeavesForAReason(c, be, CleanUp(c, s, est, clock).entries, est, (n: nat) => clock(n + 3),
                                CleanUp(c, s, est, clock).heap, clock(1), x);
  }

  lemma ChoiceLeavesForAReason(c: Config, be: Backend, es: seq<Entry>, est: Predictor, clock: Clock, heap: seq<nat>,
                               checkedAt: int, x: nat)
    returns (m: nat)
    requires heap != [] && Sorted(c, es, heap) && AllActive(es, heap) && x < |es|
    requires var ch := TheChoice(c, be, es, est, clock, heap, checkedAt);
             x in ch.rest && be.batchKey(es[x].request) == be.batchKey(es[ch.ids[0]].request)
    ensures LeftForAReason(c, be, es, est, clock, TheChoice(c, be, es, est, clock, heap, checkedAt).ids, x, m)
  {
    var ch := TheChoice(c, be, es, est, clock, heap, checkedAt);
    ChoicePartitionsQueue(c, be, es, est, clock, heap, checkedAt);
    DistinctFromRest(c, es, heap, ch, x);
    BatchIsAdmissible(c, be, es, est, clock, heap, checkedAt);
    assert heap == [heap[0]] + heap[1..];
    var start := Choice([heap[0]], [clock(0)], checkedAt, []);
    hide Select, Sorted, Admissible, LeftForAReason;
    assert x in heap[1..];
    m := SelectLeavesForAReason(c, be, es, est, clock, heap[1..], start, 0, x);
  }

  lemma FullWithoutEstimates(c: Config, be: Backend, es: seq<Entry>, est: Predictor, clock: Clock, batch: seq<nat>,
                             x: nat, m: nat)
    requires LeftForAReason(c, be, es, est, clock, batch, x, m) && forall n: int :: est(n).None?
    requires Admissible(c, be, es, batch)
    ensures forall i | 0 <= i < |batch| :: Before(KeyOf(c, es, batch[i]), KeyOf(c, es, x))
    ensures TooMany(c, be, |batch| + 1)
  {
    hide Before, KeyOf;
  }

  /** In every run and under any policy, a backend without estimates gets all that the limits allow: a compatible
      request that is left in the queue sorts after the whole batch, and one more would be too many. */
  lemma {:induction false} BatchIsFullWithoutEstimates(c: Config, be: Backend, events: seq<Event>, est: Predictor,
                                                       clock: Clock, x: nat)
    requires forall n: int :: est(n).None?
    requires Run(c, be, events).worker.Waiting? && Wake(c, be, Run(c, be, events), est, clock).worker.Executing?
    requires x in Wake(c, be, Run(c, be, events), est, clock).heap
    requires var (s1, r) := (CleanUp(c, Run(c, be, events), est, clock), Wake(c, be, Run(c, be, events), est, clock));
             && r.worker.batch != [] && r.worker.batch[0] < |s1.entries| && x < |s1.entries|
             && be.batchKey(s1.entries[x].request) == be.batchKey(s1.entries[r.worker.batch[0]].request)
    ensures var (s1, r) := (CleanUp(c, Run(c, be, events), est, clock), Wake(c, be, Run(c, be, events), est, clock));
            && InRange(s1.entries, r.worker.batch)
            && (forall i | 0 <= i < |r.worker.batch| ::
                  Before(KeyOf(c, s1.entries, r.worker.batch[i]), KeyOf(c, s1.entries, x)))
            && (|r.worker.batch| >= be.maxBatchSize
                || (c.maxBatchSize.Some? && |r.worker.batch| >= c.maxBatchSize.value))
  {
    var s := Run(c, be, events);
    var m := NobodyIsLeftWithoutReason(c, be, events, est, clock, x);
    RunIsSound(c, be, events);
    hide Run, Inv, WellFormed, Wake, CleanUp, Before, KeyOf, LeftForAReason, Admissible, Sorted, AllActive, TheChoice;
    WakeTakesChoice(c, be, s, est, clock);
    var s1 := CleanUp(c, s, est, clock);
    BatchIsAdmissible(c, be, s1.entries, est, (n: nat) => clock(n + 3), s1.heap, clock(1));
    FullWithoutEstimates(c, be, s1.entries, est, (n: nat) => clock(n + 3), Wake(c, be, s, est, clock).worker.batch, x,
                         m);
  }

  // ---------------------------------------------------------------- the predicted instant

  lemma {:induction false} SelectReadsTheClock(c: Config, be: Backend, es: seq<Entry>, est: Predictor, clock: Clock,
                                               queue: seq<nat>, ch: Choice, k: nat)
    requires InRange(es, queue) && InRange(es, ch.ids) && InRange(es, ch.rest) && ch.ids != [] && |ch.ats| == |ch.ids|
    ensures var r := Select(c, be, es, est, clock, queue, ch, k);
            r.checkedAt == ch.checkedAt || exists j: nat :: r.checkedAt == clock(j)
    decreases |queue|
  {
    if queue != [] {
      SelectStep(c, be, es, est, clock, queue, ch, k);
      var ch1 := Scanned(c, be, es, est, clock, queue[0], ch, k);
      assert ch1.checkedAt == ch.checkedAt || ch1.checkedAt == clock(2 * k + 1);
      hide Select, Scanned;
      SelectReadsTheClock(c, be, es, est, clock, queue[1..], ch1, k + 1);
    }
  }

  lemma TakenSafeBy(c: Config, be: Backend, s: State, est: Predictor, clock: Clock, checkedAt: int)
    requires s.heap != [] && InRange(s.entries, s.heap)
    ensures var (r, ch) := (TakeBatch(c, be, s, est, clock, checkedAt),
                            TheChoice(c, be, s.entries, est, clock, s.heap, checkedAt));
            && r.worker.Executing? && r.worker.batch == ch.ids
            && r.worker.safeBy == ch.checkedAt + (if est(|ch.ids|).Some? then est(|ch.ids|).value else 0) + c.guardNs
  {
    hide TheChoice, DispatchAll, Active;
  }

  lemma WakeIsTake(c: Config, be: Backend, s: State, est: Predictor, clock: Clock)
    requires WellFormed(s) && s.worker.Waiting? && Wake(c, be, s, est, clock).worker.Executing?
    requires !CleanUp(c, s, est, clock).worker.Executing?
    ensures var s1 := CleanUp(c, s, est, clock);
            && s1.heap != []
            && Wake(c, be, s, est, clock) == TakeBatch(c, be, s1, est, (n: nat) => clock(n + 3), clock(1))
  {
    hide CleanUp, TakeBatch, DispatchAt;
  }

  /** The instant by which a batch of any run is predicted to be answered: from a clock reading of the wake-up that
      took it, by the prediction for its size and the guard. */
  lemma {:induction false} PredictedInstant(c: Config, be: Backend, events: seq<Event>, est: Predictor, clock: Clock)
    returns (k: nat)
    requires Run(c, be, events).worker.Waiting? && Wake(c, be, Run(c, be, events), est, clock).worker.Executing?
    ensures k >= 1
    ensures var w := Wake(c, be, Run(c, be, events), est, clock).worker;
            w.safeBy == clock(k) + (if est(|w.batch|).Some? then est(|w.batch|).value else 0) + c.guardNs
  {
    var s := Run(c, be, events);
    RunIsSound(c, be, events);
    hide Run, Inv, WellFormed, Wake, CleanUp, Cleaned, Sorted, TheChoice, Select, TakeBatch;
    CleanedQueue(c, s, est, clock);
    WakeIsTake(c, be, s, est, clock);
    var s1 := CleanUp(c, s, est, clock);
    TakenSafeBy(c, be, s1, est, (n: nat) => clock(n + 3), clock(1));
    k := ChoiceReadsTheClock(c, be, s1, est, clock);
  }

  lemma ChoiceReadsTheClock(c: Config, be: Backend, s: State, est: Predictor, clock: Clock) returns (k: nat)
    requires s.heap != [] && InRange(s.entries, s.heap)
    ensures k >= 1
    ensures TheChoice(c, be, s.entries, est, (n: nat) => clock(n + 3), s.heap, clock(1)).checkedAt == clock(k)
  {
    var later: Clock := (n: nat) => clock(n + 3);
    var start := Choice([s.heap[0]], [later(0)], clock(1), []);
    SelectReadsTheClock(c, be, s.entries, est, later, s.heap[1..], start, 0);
    hide Select;
    var ch := TheChoice(c, be, s.entries, est, later, s.heap, clock(1));
    if ch.checkedAt == clock(1) {
      k := 1;
    } else {
      var j: nat :| ch.checkedAt == later(j);
      k := j + 3;
    }
  }
}
