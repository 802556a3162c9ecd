/** Which requests make up a batch and how large it is. */
module SchedulerBatches {
  import opened SchedulerState
  import opened SchedulerInvariants
  import opened SchedulerSafety
  import opened SchedulerScan
  import opened SchedulerOutcomes
  import LatencyEstimator

  ghost predicate NonDecreasing(clock: Clock) {
    forall i: nat, j: nat | i <= j :: clock(i) <= clock(j)
  }

  /** The listed requests with the given batch key, in the same order. */
  function Compatible(be: Backend, es: seq<Entry>, key: BatchKey, ids: seq<nat>): (r: seq<nat>)
    requires InRange(es, ids)
    ensures |r| <= |ids|
  {
    if ids == [] then []
    else (if be.batchKey(es[ids[0]].request) == key then [ids[0]] else []) + Compatible(be, es, key, ids[1..])
  }

  function DeadlineOf(es: seq<Entry>, id: nat): int
    requires id < |es|
  {
    es[id].request.deadlineNs
  }

  /** Nothing more can join a batch of this size, whoever comes. */
  predicate Full(c: Config, be: Backend, est: Predictor, size: nat, deadline: int, now: int) {
    size >= BatchLimit(c, be) || (est(size + 1).Some? && now + est(size + 1).value + c.guardNs > deadline)
  }

  /** What the scan relies on when the queue is in deadline order: the leader's deadline is the
      earliest, of the chosen ones and of all that follow. */
  ghost predicate LeaderIsEarliest(es: seq<Entry>, queue: seq<nat>, ids: seq<nat>, deadline: int) {
    && ids != [] && InRange(es, ids) && InRange(es, queue)
    && EarliestDeadline(es, ids) == deadline
    && (forall i | 0 <= i < |queue| :: DeadlineOf(es, queue[i]) >= deadline && es[queue[i]].active)
  }

  lemma JoinsUnlessFull(c: Config, be: Backend, es: seq<Entry>, est: Predictor, queue: seq<nat>, ids: seq<nat>,
                        deadline: int, now: int)
    requires LeaderIsEarliest(es, queue, ids, deadline) && queue != []
    ensures Joins(c, be, es, est, ids, queue[0], now)
       <==> be.batchKey(es[queue[0]].request) == be.batchKey(es[ids[0]].request)
            && !Full(c, be, est, |ids|, deadline, now)
    ensures LeaderIsEarliest(es, queue[1..], ids, deadline)
    ensures LeaderIsEarliest(es, queue[1..], ids + [queue[0]], deadline)
  {
    assert (ids + [queue[0]])[..|ids|] == ids;
    assert es[queue[0]].request.deadlineNs == DeadlineOf(es, queue[0]) >= deadline;
  }

  /** Once the batch is full it stays so: the clock only advances. */
  lemma {:induction false} FullBatchStays(c: Config, be: Backend, es: seq<Entry>, est: Predictor, clock: Clock,
                                          queue: seq<nat>, ch: Choice, k: nat, deadline: int)
    requires LeaderIsEarliest(es, queue, ch.ids, deadline) && InRange(es, ch.rest) && |ch.ats| == |ch.ids|
    requires NonDecreasing(clock) && Full(c, be, est, |ch.ids|, deadline, clock(2 * k + 1))
    ensures Select(c, be, es, est, clock, queue, ch, k).ids == ch.ids
    decreases |queue|
  {
    if queue != [] {
      JoinsUnlessFull(c, be, es, est, queue, ch.ids, deadline, clock(2 * k + 1));
      assert clock(2 * k + 1) <= clock(2 * (k + 1) + 1);
      FullBatchStays(c, be, es, est, clock, queue[1..], ch.(rest := ch.rest + [queue[0]]), k + 1, deadline);
    }
  }

  lemma PrefixStep(ids: seq<nat>, id: nat, fits: seq<nat>, n: nat)
    requires 1 <= n <= |fits| + 1
    ensures (ids + [id]) + fits[..n - 1] == ids + ([id] + fits)[..n]
  {
  }

  lemma ActiveHead(es: seq<Entry>, queue: seq<nat>, ids: seq<nat>, deadline: int)
    requires LeaderIsEarliest(es, queue, ids, deadline) && queue != []
    ensures queue[0] < |es| && es[queue[0]].active
  {
  }

  /** Under deadline order the scan takes the first compatible ones and then none: no inversion. */
  lemma {:induction false} SelectTakesAPrefix(c: Config, be: Backend, es: seq<Entry>, est: Predictor, clock: Clock,
                                              queue: seq<nat>, ch: Choice, k: nat, deadline: int)
    requires LeaderIsEarliest(es, queue, ch.ids, deadline) && InRange(es, ch.rest) && |ch.ats| == |ch.ids|
    requires NonDecreasing(clock)
    ensures var r := Select(c, be, es, est, clock, queue, ch, k);
            var fits := Compatible(be, es, be.batchKey(es[ch.ids[0]].request), queue);
            && 0 <= |r.ids| - |ch.ids| <= |fits|
            && r.ids == ch.ids + fits[..|r.ids| - |ch.ids|]
    decreases |queue|
  {
    if queue != [] {
      var (id, rest) := (queue[0], queue[1..]);
      var key := be.batchKey(es[ch.ids[0]].request);
      JoinsUnlessFull(c, be, es, est, queue, ch.ids, deadline, clock(2 * k + 1));
      ActiveHead(es, queue, ch.ids, deadline);
      hide Joins, Full, LeaderIsEarliest;
      if be.batchKey(es[id].request) == key && !Full(c, be, est, |ch.ids|, deadline, clock(2 * k + 1)) {
        var ch1 := ch.(ids := ch.ids + [id], ats := ch.ats + [clock(2 * k + 2)], checkedAt := clock(2 * k + 1));
        assert Select(c, be, es, est, clock, queue, ch, k) == Select(c, be, es, est, clock, rest, ch1, k + 1);
        assert Compatible(be, es, key, queue) == [id] + Compatible(be, es, key, rest);
        SelectTakesAPrefix(c, be, es, est, clock, rest, ch1, k + 1, deadline);
        hide Select, Compatible;
        PrefixStep(ch.ids, id, Compatible(be, es, key, rest),
                   |Select(c, be, es, est, clock, rest, ch1, k + 1).ids| - |ch.ids|);
      } else if be.batchKey(es[id].request) == key {
        FullBatchStays(c, be, es, est, clock, queue, ch, k, deadline);
      } else {
        SelectTakesAPrefix(c, be, es, est, clock, rest, ch.(rest := ch.rest + [id]), k + 1, deadline);
        assert Compatible(be, es, key, queue) == Compatible(be, es, key, rest);
      }
    }
  }

  function Content(ch: Choice, queue: seq<nat>): multiset<nat> {
    multiset(ch.ids) + multiset(ch.rest) + multiset(queue)
  }

  lemma ContentStays(ch: Choice, ch1: Choice, id: nat, rest: seq<nat>)
    requires (ch1.ids == ch.ids + [id] && ch1.rest == ch.rest) || (ch1.ids == ch.ids && ch1.rest == ch.rest + [id])
    ensures Content(ch1, rest) == Content(ch, [id] + rest)
  {
  }

  /** Whatever the policy, the scan loses and duplicates nothing. */
  lemma {:induction false} SelectPartitions(c: Config, be: Backend, es: seq<Entry>, est: Predictor, clock: Clock,
                                            queue: seq<nat>, ch: Choice, k: nat)
    requires AllActive(es, queue) && InRange(es, ch.ids) && InRange(es, ch.rest)
    requires ch.ids != [] && |ch.ats| == |ch.ids|
    ensures var r := Select(c, be, es, est, clock, queue, ch, k);
            Content(r, []) == Content(ch, queue)
    decreases |queue|
  {
    if queue != [] {
      var (id, rest) := (queue[0], queue[1..]);
      var ch1 := Scanned(c, be, es, est, clock, id, ch, k);
      SelectStep(c, be, es, est, clock, queue, ch, k);
      ScannedAdds(c, be, es, est, clock, id, ch, k);
      assert AllActive(es, rest) && es[id].active;
      hide Select, AllActive, Scanned, InRange, Content;
      assert queue == [id] + rest;
      ContentStays(ch, ch1, id, rest);
      SelectPartitions(c, be, es, est, clock, rest, ch1, k + 1);
    }
  }

  lemma {:induction false} CompatibleIsSublist(c: Config, be: Backend, es: seq<Entry>, key: BatchKey, ids: seq<nat>)
    requires Sorted(c, es, ids)
    ensures var r := Compatible(be, es, key, ids);
            Sorted(c, es, r) && forall x: nat :: x in r <==> x in ids && be.batchKey(es[x].request) == key
  {
    if ids != [] {
      var rest := Compatible(be, es, key, ids[1..]);
      CompatibleIsSublist(c, be, es, key, ids[1..]);
      assert ids == [ids[0]] + ids[1..];
      forall j | 0 <= j < |rest| ensures Before(KeyOf(c, es, ids[0]), KeyOf(c, es, rest[j])) {
        assert rest[j] in rest;
        var i :| 0 <= i < |ids[1..]| && ids[1..][i] == rest[j];
        assert ids[i + 1] == rest[j];
      }
      ConsKeepsSorted(c, es, ids[0], rest);
    }
  }

  lemma {:induction false} ChoicePartitionsQueue(c: Config, be: Backend, es: seq<Entry>, est: Predictor,
                                                 clock: Clock, heap: seq<nat>, checkedAt: int)
    requires heap != [] && InRange(es, heap) && AllActive(es, heap)
    ensures var ch := TheChoice(c, be, es, est, clock, heap, checkedAt);
            multiset(ch.ids) + multiset(ch.rest) == multiset(heap)
  {
    hide Select;
    var start := Choice([heap[0]], [clock(0)], checkedAt, []);
    SelectPartitions(c, be, es, est, clock, heap[1..], start, 0);
    assert heap == [heap[0]] + heap[1..];
    assert Content(start, heap[1..]) == multiset([heap[0]]) + multiset(heap[1..]) == multiset(heap);
    var ch := TheChoice(c, be, es, est, clock, heap, checkedAt);
    assert Content(ch, []) == multiset(ch.ids) + multiset(ch.rest);
  }

  lemma EdfChoiceIsPrefix(c: Config, be: Backend, es: seq<Entry>, est: Predictor, clock: Clock, heap: seq<nat>,
                          checkedAt: int)
    requires c.policy.EDF? && NonDecreasing(clock)
    requires heap != [] && Sorted(c, es, heap) && AllActive(es, heap)
    ensures var ch := TheChoice(c, be, es, est, clock, heap, checkedAt);
            var fits := Compatible(be, es, be.batchKey(es[heap[0]].request), heap[1..]);
            && 1 <= |ch.ids| <= 1 + |fits|
            && ch.ids == [heap[0]] + fits[..|ch.ids| - 1]
  {
    LeaderLeads(c, es, heap);
    hide Select, Compatible, LeaderIsEarliest;
    SelectTakesAPrefix(c, be, es, est, clock, heap[1..], Choice([heap[0]], [clock(0)], checkedAt, []), 0,
                       DeadlineOf(es, heap[0]));
  }

  /** Under EDF a batch is the head of the queue followed by the first so-and-so many compatible
      requests in queue order; a compatible request that is left behind sorts after every chosen one;
      and the batch and what is left are together the old queue. */
  lemma {:induction false} EdfBatchHasNoInversion(c: Config, be: Backend, es: seq<Entry>, est: Predictor,
                                                  clock: Clock, heap: seq<nat>, checkedAt: int)
    requires c.policy.EDF? && NonDecreasing(clock)
    requires heap != [] && Sorted(c, es, heap) && AllActive(es, heap)
    ensures var ch := TheChoice(c, be, es, est, clock, heap, checkedAt);
            var key := be.batchKey(es[heap[0]].request);
            var fits := Compatible(be, es, key, heap[1..]);
            && 1 <= |ch.ids| <= 1 + |fits|
            && ch.ids == [heap[0]] + fits[..|ch.ids| - 1]
            && multiset(ch.ids) + multiset(ch.rest) == multiset(heap)
            && Sorted(c, es, ch.rest)
            && (forall x, y | x in ch.rest && be.batchKey(es[x].request) == key && y in ch.ids ::
                  Before(KeyOf(c, es, y), KeyOf(c, es, x)))
  {
    var ch := TheChoice(c, be, es, est, clock, heap, checkedAt);
    var key := be.batchKey(es[heap[0]].request);
    EdfChoiceIsPrefix(c, be, es, est, clock, heap, checkedAt);
    ChoicePartitionsQueue(c, be, es, est, clock, heap, checkedAt);
    ChoiceIsOrdered(c, be, es, est, clock, heap, checkedAt);
    hide TheChoice, Sorted, Before, KeyOf, Compatible;
    forall x, y | x in ch.rest && be.batchKey(es[x].request) == key && y in ch.ids
      ensures Before(KeyOf(c, es, y), KeyOf(c, es, x))
    {
      LeftBehindSortsAfter(c, be, es, heap, ch, x, y);
    }
  }

  lemma LeaderLeads(c: Config, es: seq<Entry>, heap: seq<nat>)
    requires c.policy.EDF? && heap != [] && Sorted(c, es, heap) && AllActive(es, heap)
    ensures LeaderIsEarliest(es, heap[1..], [heap[0]], DeadlineOf(es, heap[0]))
  {
    EarliestOfOne(es, heap[0]);
    forall i | 0 <= i < |heap[1..]| ensures DeadlineOf(es, heap[1..][i]) >= DeadlineOf(es, heap[0]) {
      assert Before(KeyOf(c, es, heap[0]), KeyOf(c, es, heap[i + 1]));
    }
  }

  lemma PrefixIsChosen(ids: seq<nat>, leader: nat, fits: seq<nat>, m: nat)
    requires m <= |fits| && ids == [leader] + fits[..m]
    ensures forall j | 0 <= j < m :: fits[j] in ids
    ensures forall y | y in ids :: y == leader || exists i | 0 <= i < m :: fits[i] == y
  {
    forall j | 0 <= j < m ensures fits[j] in ids {
      assert ids[j + 1] == fits[j];
    }
  }

  lemma HeadIsBefore(c: Config, es: seq<Entry>, heap: seq<nat>, x: nat)
    requires heap != [] && Sorted(c, es, heap) && x in heap[1..]
    ensures x < |es| && Before(KeyOf(c, es, heap[0]), KeyOf(c, es, x))
  {
    var n :| 0 <= n < |heap[1..]| && heap[1..][n] == x;
    assert heap[n + 1] == x;
  }

  lemma TailOf(heap: seq<nat>, x: nat)
    requires heap != [] && x in heap && x != heap[0]
    ensures x in heap[1..]
  {
    assert heap == [heap[0]] + heap[1..];
  }

  lemma LeftBehindSortsAfter(c: Config, be: Backend, es: seq<Entry>, heap: seq<nat>, ch: Choice, x: nat, y: nat)
    requires heap != [] && Sorted(c, es, heap) && InRange(es, ch.ids) && InRange(es, ch.rest)
    requires multiset(ch.ids) + multiset(ch.rest) == multiset(heap)
    requires var fits := Compatible(be, es, be.batchKey(es[heap[0]].request), heap[1..]);
             1 <= |ch.ids| <= 1 + |fits| && ch.ids == [heap[0]] + fits[..|ch.ids| - 1]
    requires x in ch.rest && be.batchKey(es[x].request) == be.batchKey(es[heap[0]].request) && y in ch.ids
    ensures x < |es| && Before(KeyOf(c, es, y), KeyOf(c, es, x))
  {
    var fits := Compatible(be, es, be.batchKey(es[heap[0]].request), heap[1..]);
    CompatibleIsSublist(c, be, es, be.batchKey(es[heap[0]].request), heap[1..]);
    DistinctFromRest(c, es, heap, ch, x);
    assert ch.ids[0] == heap[0];
    TailOf(heap, x);
    PrefixIsChosen(ch.ids, heap[0], fits, |ch.ids| - 1);
    HeadIsBefore(c, es, heap, x);
    hide Compatible, Before, KeyOf;
    var j :| 0 <= j < |fits| && fits[j] == x;
    if y != heap[0] {
      var i :| 0 <= i < |ch.ids| - 1 && fits[i] == y;
      assert i < j;
    }
  }

  lemma DistinctFromRest(c: Config, es: seq<Entry>, heap: seq<nat>, ch: Choice, x: nat)
    requires Sorted(c, es, heap) && multiset(ch.ids) + multiset(ch.rest) == multiset(heap) && x in ch.rest
    ensures x in heap && x !in ch.ids
  {
    SortedIsDistinct(c, es, heap);
    DistinctOnce(heap, x);
    hide Sorted, Distinct;
    assert x in multiset(ch.rest);
    assert multiset(ch.ids)[x] + multiset(ch.rest)[x] == multiset(heap)[x];
    assert x in multiset(heap) && x !in multiset(ch.ids);
  }

  lemma {:induction false} DistinctOnce(ids: seq<nat>, x: nat)
    requires Distinct(ids)
    ensures multiset(ids)[x] <= 1
  {
    if ids != [] {
      var (front, last) := (ids[..|ids| - 1], ids[|ids| - 1]);
      assert ids == front + [last];
      DistinctOnce(front, x);
      assert last !in front;
    }
  }

  // ---------------------------------------------------------------- how large a batch is

  /** A batch of this size, started now, is predicted to meet the leader's deadline. */
  predicate Fits(c: Config, est: Predictor, size: int, deadline: int, now: int) {
    est(size).None? || now + est(size).value + c.guardNs <= deadline
  }

  /** Larger batches are never predicted to be faster, and either all sizes have an estimate or none. */
  ghost predicate Monotone(est: Predictor) {
    forall m: int, n: int | 1 <= m <= n ::
      (est(m).Some? <==> est(n).Some?) && (est(m).Some? ==> est(m).value <= est(n).value)
  }

  /** What the scan reaches from a batch of `from` with `more` compatible requests to come. */
  ghost predicate Largest(c: Config, be: Backend, est: Predictor, from: int, more: int, deadline: int, now: int,
                          size: int) {
    && from <= size <= from + more
    && (from <= BatchLimit(c, be) ==> size <= BatchLimit(c, be))
    && (size > from ==> Fits(c, est, size, deadline, now))
    && (forall k | from < k <= from + more && k <= BatchLimit(c, be) && Fits(c, est, k, deadline, now) :: k <= size)
  }

  /** The size is the greatest up to the number of compatible requests, the backend's limit and the configured one
      that is predicted to be safe; a batch of one is always taken. */
  ghost predicate LargestSafe(c: Config, be: Backend, est: Predictor, size: int, compatible: int, deadline: int,
                              now: int) {
    && 1 <= size <= compatible
    && (size > 1 ==> && size <= be.maxBatchSize && (c.maxBatchSize.Some? ==> size <= c.maxBatchSize.value)
                     && Fits(c, est, size, deadline, now))
    && (forall k | 1 < k <= compatible && k <= be.maxBatchSize && (c.maxBatchSize.Some? ==> k <= c.maxBatchSize.value)
                   && Fits(c, est, k, deadline, now) :: k <= size)
  }

  lemma UnfitGrows(c: Config, est: Predictor, m: int, n: int, deadline: int, now: int)
    requires Monotone(est) && 1 <= m <= n && !Fits(c, est, m, deadline, now)
    ensures !Fits(c, est, n, deadline, now)
  {
    assert (est(m).Some? <==> est(n).Some?) && (est(m).Some? ==> est(m).value <= est(n).value);
  }

  lemma FullIsLargest(c: Config, be: Backend, est: Predictor, from: int, more: int, deadline: int, now: int)
    requires Monotone(est) && from >= 1 && more >= 0 && Full(c, be, est, from, deadline, now)
    ensures Largest(c, be, est, from, more, deadline, now, from)
  {
    forall k | from < k <= from + more && k <= BatchLimit(c, be) ensures !Fits(c, est, k, deadline, now) {
      UnfitGrows(c, est, from + 1, k, deadline, now);
    }
  }

  lemma {:induction false} SelectIsLargest(c: Config, be: Backend, es: seq<Entry>, est: Predictor, clock: Clock,
                                           queue: seq<nat>, ch: Choice, k: nat, deadline: int, now: int)
    requires LeaderIsEarliest(es, queue, ch.ids, deadline) && InRange(es, ch.rest) && |ch.ats| == |ch.ids|
    requires Monotone(est) && forall n: nat :: clock(n) == now
    ensures Largest(c, be, est, |ch.ids|, |Compatible(be, es, be.batchKey(es[ch.ids[0]].request), queue)|, deadline,
                    now,
                    |Select(c, be, es, est, clock, queue, ch, k).ids|)
    decreases |queue|
  {
    if queue != [] {
      var (id, rest) := (queue[0], queue[1..]);
      var key := be.batchKey(es[ch.ids[0]].request);
      JoinsUnlessFull(c, be, es, est, queue, ch.ids, deadline, now);
      ActiveHead(es, queue, ch.ids, deadline);
      if be.batchKey(es[id].request) != key {
        SelectIsLargest(c, be, es, est, clock, rest, ch.(rest := ch.rest + [id]), k + 1, deadline, now);
      } else if Full(c, be, est, |ch.ids|, deadline, now) {
        FullBatchStays(c, be, es, est, clock, queue, ch, k, deadline);
        FullIsLargest(c, be, est, |ch.ids|, |Compatible(be, es, key, queue)|, deadline, now);
      } else {
        hide Joins, LeaderIsEarliest, BatchLimit, Monotone;
        var ch1 := ch.(ids := ch.ids + [id], ats := ch.ats + [now], checkedAt := now);
        assert Select(c, be, es, est, clock, queue, ch, k) == Select(c, be, es, est, clock, rest, ch1, k + 1);
        SelectIsLargest(c, be, es, est, clock, rest, ch1, k + 1, deadline, now);
      }
    }
  }

  /** The two limits on a batch, of the backend and of the configuration if it has one. */
  lemma LimitsExactly(c: Config, be: Backend, k: int)
    ensures k <= BatchLimit(c, be) <==> k <= be.maxBatchSize && (c.maxBatchSize.Some? ==> k <= c.maxBatchSize.value)
  {
  }

  /** With the clock standing still and the backend's learned estimate, an EDF batch is the largest safe
      one: its size is the greatest k up to both limits and the number of compatible requests for
      which k is 1 or the prediction for k, guard included, meets the leader's deadline. */
  lemma {:induction false} EdfBatchIsLargestSafe(c: Config, be: Backend, es: seq<Entry>, est: Predictor,
                                                 clock: Clock, heap: seq<nat>,
                                                 checkedAt: int, now: int, l: LatencyEstimator.Latencies,
                                                 learned: LatencyEstimator.Settings)
    requires c.policy.EDF? && heap != [] && Sorted(c, es, heap) && AllActive(es, heap)
    requires forall n: nat :: clock(n) == now
    requires l.Valid() && learned.Valid()
    requires forall n: nat | n >= 1 :: est(n) == LatencyEstimator.PredictedNs(l, learned, n)
    ensures var size := |TheChoice(c, be, es, est, clock, heap, checkedAt).ids|;
            var compatible := 1 + |Compatible(be, es, be.batchKey(es[heap[0]].request), heap[1..])|;
            LargestSafe(c, be, est, size, compatible, DeadlineOf(es, heap[0]), now)
  {
    LearnedIsMonotone(est, l, learned);
    LeaderLeads(c, es, heap);
    BatchIsAdmissible(c, be, es, est, clock, heap, checkedAt);
    hide LeaderIsEarliest, Sorted, Compatible, Select, Monotone, Fits, LatencyEstimator.PredictedNs;
    SelectIsLargest(c, be, es, est, clock, heap[1..], Choice([heap[0]], [clock(0)], checkedAt, []), 0,
                    DeadlineOf(es, heap[0]), now);
  }

  lemma LearnedIsMonotone(est: Predictor, l: LatencyEstimator.Latencies, learned: LatencyEstimator.Settings)
    requires l.Valid() && learned.Valid()
    requires forall n: nat | n >= 1 :: est(n) == LatencyEstimator.PredictedNs(l, learned, n)
    ensures Monotone(est)
  {
    hide LatencyEstimator.PredictedNs;
    forall m: int, n: int | 1 <= m <= n
      ensures (est(m).Some? <==> est(n).Some?) && (est(m).Some? ==> est(m).value <= est(n).value)
    {
      LatencyEstimator.PredictedNsIsMonotone(l, learned, m, n);
    }
  }

  // ---------------------------------------------------------------- what every queue and every batch respects

  /** In every reachable state the queue is in service order: by deadline (under FIFO, by arrival), then the
      higher priority first, then the earlier submission. */
  lemma {:induction false} QueueIsInServiceOrder(c: Config, be: Backend, events: seq<Event>, i: nat, j: nat)
    requires i < j < |Run(c, be, events).heap|
    ensures var s := Run(c, be, events);
            && s.heap[i] < |s.entries| && s.heap[j] < |s.entries|
            && var (a, b) := (s.entries[s.heap[i]].request, s.entries[s.heap[j]].request);
            var (first, second) := if c.policy.EDF? then (a.deadlineNs, b.deadlineNs) else (a.receivedNs, b.receivedNs);
            first < second
            || (first == second && (a.priority > b.priority || (a.priority == b.priority && s.heap[i] < s.heap[j])))
  {
    var s := Run(c, be, events);
    hide Run, WellFormed;
    RunIsSound(c, be, events);
    SoundHasParts(c, s, FlightOf(s));
    assert Before(KeyOf(c, s.entries, s.heap[i]), KeyOf(c, s.entries, s.heap[j]));
  }

  /** No batch exceeds either limit, and all its requests are compatible with the leader. */
  ghost predicate Admissible(c: Config, be: Backend, es: seq<Entry>, ids: seq<nat>) {
    && InRange(es, ids) && ids != []
    && (|ids| > 1 ==> |ids| <= be.maxBatchSize && (c.maxBatchSize.Some? ==> |ids| <= c.maxBatchSize.value))
    && forall i | 0 <= i < |ids| :: be.batchKey(es[ids[i]].request) == be.batchKey(es[ids[0]].request)
  }

  lemma {:induction false} SelectIsAdmissible(c: Config, be: Backend, es: seq<Entry>, est: Predictor, clock: Clock,
                                              queue: seq<nat>, ch: Choice, k: nat)
    requires InRange(es, queue) && Admissible(c, be, es, ch.ids) && InRange(es, ch.rest) && |ch.ats| == |ch.ids|
    ensures Admissible(c, be, es, Select(c, be, es, est, clock, queue, ch, k).ids)
    decreases |queue|
  {
    if queue != [] {
      var id := queue[0];
      var joins := es[id].active && Joins(c, be, es, est, ch.ids, id, clock(2 * k + 1));
      hide AdmissionSafe;
      var ch1 := if joins then ch.(ids := ch.ids + [id], ats := ch.ats + [clock(2 * k + 2)],
                               checkedAt := clock(2 * k + 1))
      else if es[id].active then ch.(rest := ch.rest + [id]) else ch;
      assert Select(c, be, es, est, clock, queue, ch, k) == Select(c, be, es, est, clock, queue[1..], ch1, k + 1);
      assert joins ==> ch1.ids[0] == ch.ids[0];
      SelectIsAdmissible(c, be, es, est, clock, queue[1..], ch1, k + 1);
    }
  }

  lemma {:induction false} BatchIsAdmissible(c: Config, be: Backend, es: seq<Entry>, est: Predictor, clock: Clock,
                                             heap: seq<nat>, checkedAt: int)
    requires heap != [] && InRange(es, heap)
    ensures Admissible(c, be, es, TheChoice(c, be, es, est, clock, heap, checkedAt).ids)
    ensures TheChoice(c, be, es, est, clock, heap, checkedAt).ids[0] == heap[0]
  {
    var start := Choice([heap[0]], [clock(0)], checkedAt, []);
    SelectIsAdmissible(c, be, es, est, clock, heap[1..], start, 0);
    SelectKeepsFirst(c, be, es, est, clock, heap[1..], start, 0);
  }

  lemma {:induction false} SelectKeepsFirst(c: Config, be: Backend, es: seq<Entry>, est: Predictor, clock: Clock,
                                            queue: seq<nat>, ch: Choice, k: nat)
    requires InRange(es, queue) && InRange(es, ch.ids) && InRange(es, ch.rest) && ch.ids != [] && |ch.ats| == |ch.ids|
    ensures Select(c, be, es, est, clock, queue, ch, k).ids[0] == ch.ids[0]
    decreases |queue|
  {
    if queue != [] {
      hide Joins;
      var id := queue[0];
      if !es[id].active {
        SelectKeepsFirst(c, be, es, est, clock, queue[1..], ch, k + 1);
      } else if Joins(c, be, es, est, ch.ids, id, clock(2 * k + 1)) {
        var ch1 := ch.(ids := ch.ids + [id], ats := ch.ats + [clock(2 * k + 2)], checkedAt := clock(2 * k + 1));
        SelectKeepsFirst(c, be, es, est, clock, queue[1..], ch1, k + 1);
      } else {
        SelectKeepsFirst(c, be, es, est, clock, queue[1..], ch.(rest := ch.rest + [id]), k + 1);
      }
    }
  }

  // ---------------------------------------------------------------- the batch that a wake-up hands to the backend

  lemma TakenChoice(c: Config, be: Backend, s: State, est: Predictor, clock: Clock, checkedAt: int)
    requires s.heap != [] && Sorted(c, s.entries, s.heap)
    ensures var r := TakeBatch(c, be, s, est, clock, checkedAt);
            var ch := TheChoice(c, be, s.entries, est, clock, s.heap, checkedAt);
            && r.worker.Executing? && r.worker.batch == ch.ids && r.heap == ch.rest && |r.entries| == |s.entries|
            && (forall id: nat | id < |s.entries| :: r.entries[id].request == s.entries[id].request)
  {
    BatchLeavesRest(c, be, s, est, clock, checkedAt);
    hide TheChoice, Sorted, DispatchAll, Active, SafeBy;
    var ch := TheChoice(c, be, s.entries, est, clock, s.heap, checkedAt);
    DispatchKeepsRequests(s, ch.ids, ch.ats);
  }

  lemma TurnTakesChoice(c: Config, be: Backend, s: State, est: Predictor, clock: Clock)
    requires InRange(s.entries, s.heap) && Sorted(c, s.entries, s.heap) && s.worker.Waiting?
    requires Turn(c, be, s, est, clock).worker.Executing?
    ensures s.heap != []
    ensures var (r, ch) := (Turn(c, be, s, est, clock),
                            TheChoice(c, be, s.entries, est, (n: nat) => clock(n + 3), s.heap, clock(1)));
            && r.worker.batch == ch.ids && r.heap == ch.rest && |r.entries| == |s.entries|
            && (forall id: nat | id < |s.entries| :: r.entries[id].request == s.entries[id].request)
  {
    hide TakeBatch, DispatchAt, TheChoice, Sorted;
    if s.heap != [] {
      TakenChoice(c, be, s, est, (n: nat) => clock(n + 3), clock(1));
    }
  }

  /** The queue after the clean-up passes is sorted and holds only pending requests. */
  lemma CleanedQueue(c: Config, s: State, est: Predictor, clock: Clock)
    requires WellFormed(s) && Inv(c, s) && s.worker.Waiting?
    ensures var s1 := CleanUp(c, s, est, clock);
            && Sorted(c, s1.entries, s1.heap) && AllActive(s1.entries, s1.heap) && s1.worker.Waiting?
            && Cleaned(c, s, s1, []) && Cleaned(c, s1, s1, [])
  {
    hide Sound, CleanUp, Cleaned, Sorted;
    CleanUpCleans(c, s, [], est, clock);
    var s1 := CleanUp(c, s, est, clock);
    CleanedIsClean(c, s, s1, []);
    CleanedHeap(c, s1);
    CleanedKeepsWorker(c, s, s1, []);
  }

  /** The cleaned queue respects the capacity. */
  lemma QueueIsSmall(c: Config, s: State, est: Predictor, clock: Clock)
    requires WellFormed(s) && Inv(c, s) && s.worker.Waiting? && c.maxPending.Some?
    ensures |CleanUp(c, s, est, clock).heap| <= c.maxPending.value
  {
    hide Sound, CleanUp;
    CleanUpCleans(c, s, [], est, clock);
    FewerPendingWhenCleaned(c, s, CleanUp(c, s, est, clock), []);
  }

  /** A wake-up that calls the backend hands over the choice from the cleaned queue and leaves its rest. */
  lemma WakeTakesChoice(c: Config, be: Backend, s: State, est: Predictor, clock: Clock)
    requires WellFormed(s) && Inv(c, s) && s.worker.Waiting? && Wake(c, be, s, est, clock).worker.Executing?
    ensures var (s1, r) := (CleanUp(c, s, est, clock), Wake(c, be, s, est, clock));
            && s1.heap != [] && Sorted(c, s1.entries, s1.heap) && AllActive(s1.entries, s1.heap)
            && var ch := TheChoice(c, be, s1.entries, est, (n: nat) => clock(n + 3), s1.heap, clock(1));
            && r.worker.batch == ch.ids && r.heap == ch.rest && |r.entries| == |s1.entries|
            && (forall id: nat | id < |s1.entries| :: r.entries[id].request == s1.entries[id].request)
  {
    hide Inv, WellFormed, CleanUp, Cleaned, Turn, TheChoice, Sorted;
    CleanedQueue(c, s, est, clock);
    TurnTakesChoice(c, be, CleanUp(c, s, est, clock), est, clock);
  }
}
