/** The counters and samples that the scheduler keeps. */
module Metrics {
  import opened Types
  import SchedulerState

  function Milliseconds(fromNs: int, toNs: int): real {
    (toNs - fromNs) as real / 1000000.0
  }

  /** One more sample: a span of nanoseconds, told in milliseconds. */
  ghost predicate Adds(before: seq<real>, after: seq<real>, spanNs: int) {
    |after| == |before| + 1 && after[..|before|] == before && after[|before|] * 1000000.0 == spanNs as real
  }

  class SchedulerMetrics {
    const sampleLimit: nat
    var submitted: nat
    var dispatched: nat
    var batches: nat
    var batchItems: nat
    var status: map<Status, nat>
    var queueMs: seq<real>
    var e2eMs: seq<real>

    constructor (sampleLimit: nat)
      ensures this.sampleLimit == sampleLimit
      ensures Counters() == SchedulerState.INIT.tally && queueMs == [] && e2eMs == []
    {
      this.sampleLimit := sampleLimit;
      submitted, dispatched, batches, batchItems := 0, 0, 0, 0;
      status := SchedulerState.ZEROES;
      queueMs, e2eMs := [], [];
    }

    ghost function Counters(): SchedulerState.Tally
      reads this
    {
      SchedulerState.Tally(submitted, dispatched, batches, batchItems, status)
    }

    method RecordSubmit()
      modifies this`submitted
      ensures Counters() == old(Counters()).(submitted := old(submitted) + 1)
    {
      submitted := submitted + 1;
    }

    method RecordDispatch(batchSize: nat)
      modifies this`dispatched, this`batches, this`batchItems
      ensures Counters() == old(Counters()).(dispatched := old(dispatched) + batchSize, batches := old(batches) + 1,
                            batchItems := old(batchItems) + batchSize)
    {
      dispatched := dispatched + batchSize;
      batches := batches + 1;
      batchItems := batchItems + batchSize;
    }

    method RecordOutcome(receivedNs: int, outcome: Outcome)
      requires outcome.status in status
      modifies this
      ensures Counters() == SchedulerState.CountOutcome(old(Counters()), outcome.status)
      ensures Counters() == old(Counters()).(status := status)
      ensures status == old(status)[outcome.status := old(status[outcome.status]) + 1]
      ensures if outcome.status in {Completed, DeadlineMissed, Failed} && |old(e2eMs)| < sampleLimit
              then Adds(old(e2eMs), e2eMs, outcome.completedNs - receivedNs)
              else e2eMs == old(e2eMs)
      ensures if outcome.dispatchedNs.Some? && |old(queueMs)| < sampleLimit
              then Adds(old(queueMs), queueMs, outcome.dispatchedNs.value - receivedNs)
              else queueMs == old(queueMs)
    {
      status := status[outcome.status := status[outcome.status] + 1];
      if outcome.status in {Completed, DeadlineMissed, Failed} && |e2eMs| < sampleLimit {
        e2eMs := e2eMs + [Milliseconds(receivedNs, outcome.completedNs)];
      }
      if outcome.dispatchedNs.Some? && |queueMs| < sampleLimit {
        queueMs := queueMs + [Milliseconds(receivedNs, outcome.dispatchedNs.value)];
      }
    }
  }
}
