/** The scheduler as a state machine on values.  An envelope is named by its creation order, so the
    heap, the per-session pointers and the batch in flight are all lists or maps of order numbers.
    One call of a function below is one locked section of the scheduler, or one backend reply. */
module SchedulerState {
  import opened Types

  datatype Policy = EDF | FIFO

  datatype Config = Config(
    policy: Policy,
    batchWindowNs: nat,
    guardNs: nat,
    maxBatchSize: Option<nat>,
    coalesceSessions: bool,
    enforceMonotonicSequence: bool,
    dropMissedActions: bool,
    dropUnserviceable: bool,
    maxPending: Option<nat>)
  {
    predicate Valid() {
      && (maxBatchSize.Some? ==> maxBatchSize.value >= 1)
      && (maxPending.Some? ==> maxPending.value >= 1)
    }
  }

  type SessionKey = (string, string)

  type BatchKey = seq<string>

  /** What the scheduler asks of a backend before it calls it. */
  datatype Backend = Backend(maxBatchSize: nat, batchKey: Request -> BatchKey)

  /** Predicted nanoseconds per batch size; None when the backend has no estimate. */
  type Predictor = int -> Option<int>

  /** The successive readings of the monotonic clock within one locked section. */
  type Clock = nat -> int

  datatype Entry = Entry(
    request: Request,
    active: bool,
    dispatchedNs: Option<int>,
    outcome: Option<Outcome>)

  datatype Tally = Tally(
    submitted: nat,
    dispatched: nat,
    batches: nat,
    batchItems: nat,
    status: map<Status, nat>)

  datatype Worker =
    | Waiting(until: Option<int>)
    | Executing(batch: seq<nat>, safeBy: int)
    | Returned

  /** `log` lists the dispatched envelopes in dispatch order; the scheduler itself does not keep it,
      nor the instant `safeBy` up to which it has predicted that a batch meets its deadlines. */
  datatype State = State(
    entries: seq<Entry>,
    heap: seq<nat>,
    pending: map<SessionKey, nat>,
    latest: map<SessionKey, int>,
    accepting: bool,
    tally: Tally,
    worker: Worker,
    log: seq<nat>)

  const ZEROES := map[Completed := 0, DeadlineMissed := 0, Expired := 0, Unserviceable := 0, Replaced := 0,
                      OutOfOrder := 0, Overloaded := 0, Failed := 0, Cancelled := 0]

  const INIT := State([], [], map[], map[], true, Tally(0, 0, 0, 0, ZEROES), Waiting(None), [])

  function SessionOf(r: Request): SessionKey {
    (r.model, r.sessionId)
  }

  // ---------------------------------------------------------------- the queue order

  /** The sort key of an envelope: deadline (or arrival), then descending priority, then order. */
  function SortKey(c: Config, r: Request, order: nat): (int, int, int) {
    (if c.policy.EDF? then r.deadlineNs else r.receivedNs, -r.priority, order)
  }

  predicate Before(a: (int, int, int), b: (int, int, int)) {
    a.0 < b.0 || (a.0 == b.0 && (a.1 < b.1 || (a.1 == b.1 && a.2 < b.2)))
  }

  function KeyOf(c: Config, es: seq<Entry>, id: nat): (int, int, int)
    requires id < |es|
  {
    SortKey(c, es[id].request, id)
  }

  predicate InRange(es: seq<Entry>, ids: seq<nat>) {
    forall i | 0 <= i < |ids| :: ids[i] < |es|
  }

  /** Heaps are kept in sort order, which is what `heapq` promises of successive pops. */
  ghost predicate Sorted(c: Config, es: seq<Entry>, ids: seq<nat>) {
    InRange(es, ids) && forall i, j | 0 <= i < j < |ids| :: Before(KeyOf(c, es, ids[i]), KeyOf(c, es, ids[j]))
  }

  function HeapPush(c: Config, es: seq<Entry>, heap: seq<nat>, id: nat): (r: seq<nat>)
    requires InRange(es, heap) && id < |es|
    ensures InRange(es, r)
    ensures forall x :: x in r <==> x == id || x in heap
  {
    if heap == [] then [id]
    else if Before(KeyOf(c, es, id), KeyOf(c, es, heap[0])) then [id] + heap
    else
      var r := HeapPush(c, es, heap[1..], id);
      assert forall x :: x in heap <==> x == heap[0] || x in heap[1..];
      [heap[0]] + r
  }

  /** The active ones among the listed envelopes, in the same order. */
  function Active(es: seq<Entry>, ids: seq<nat>): (r: seq<nat>)
    requires InRange(es, ids)
    ensures InRange(es, r)
  {
    if ids == [] then []
    else Active(es, ids[..|ids| - 1]) + if es[ids[|ids| - 1]].active then [ids[|ids| - 1]] else []
  }

  // ---------------------------------------------------------------- changing one envelope

  ghost predicate WellFormed(s: State) {
    && InRange(s.entries, s.heap)
    && (forall k | k in s.pending :: s.pending[k] < |s.entries|)
    && (s.worker.Executing? ==> InRange(s.entries, s.worker.batch))
    && (forall x: Status :: x in s.tally.status)
  }

  function Deactivate(s: State, id: nat): State
    requires id < |s.entries|
  {
    s.(entries := s.entries[id := s.entries[id].(active := false)])
  }

  function ClearPointer(s: State, id: nat): State
    requires id < |s.entries|
  {
    var key := SessionOf(s.entries[id].request);
    if key in s.pending && s.pending[key] == id then s.(pending := s.pending - {key}) else s
  }

  function CountOutcome(t: Tally, status: Status): Tally
    requires status in t.status
  {
    t.(status := t.status[status := t.status[status] + 1])
  }

  /** Resolves the envelope's future, unless it is already resolved. */
  function Finish(s: State, id: nat, status: Status, action: Option<ActionChunk>, completedNs: int,
                  replacedBy: Option<string>): State
    requires id < |s.entries| && status in s.tally.status
  {
    if s.entries[id].outcome.Some? then s
    else
      var outcome := Outcome(status, action, s.entries[id].dispatchedNs, completedNs, replacedBy);
      s.(entries := s.entries[id := s.entries[id].(outcome := Some(outcome))], tally := CountOutcome(s.tally, status))
  }

  /** Takes a pending envelope out of service with a final status. */
  function Retire(s: State, id: nat, status: Status, now: int): State
    requires id < |s.entries| && status in s.tally.status
  {
    Finish(ClearPointer(Deactivate(s, id), id), id, status, None, now, None)
  }

  function Dispatch(s: State, id: nat, now: int): State
    requires id < |s.entries|
  {
    var s1 := s.(entries := s.entries[id := s.entries[id].(active := false, dispatchedNs := Some(now))],
              log := s.log + [id]);
    ClearPointer(s1, id)
  }

  // ---------------------------------------------------------------- sweeping the queue

  function Compact(s: State): State
    requires InRange(s.entries, s.heap)
  {
    s.(heap := Active(s.entries, s.heap))
  }

  /** Retires the active ones among the listed envelopes whose deadline lies before `cutoff`. */
  function Sweep(s: State, ids: seq<nat>, cutoff: int, status: Status, now: int): (r: State)
    requires InRange(s.entries, ids) && status in s.tally.status
    ensures |r.entries| == |s.entries| && r.heap == s.heap && status in r.tally.status
  {
    if ids == [] then s
    else
      var r := Sweep(s, ids[..|ids| - 1], cutoff, status, now);
      var id := ids[|ids| - 1];
      if r.entries[id].active && r.entries[id].request.deadlineNs < cutoff then Retire(r, id, status, now) else r
  }

  /** `_expire_requests_locked`: a deadline at or before `now` has passed. */
  function Expire(s: State, now: int): State
    requires InRange(s.entries, s.heap) && Expired in s.tally.status
  {
    Compact(Sweep(s, s.heap, now + 1, Expired, now))
  }

  /** `_drop_unserviceable_requests_locked`. */
  function Drop(c: Config, s: State, predicted: Option<int>, now: int): State
    requires InRange(s.entries, s.heap) && Unserviceable in s.tally.status
  {
    if !c.dropUnserviceable || predicted.None? then s
    else Compact(Sweep(s, s.heap, now + predicted.value + c.guardNs, Unserviceable, now))
  }

  // ---------------------------------------------------------------- admission

  /** The not yet dispatched request that a new request of the session would replace. */
  function Previous(c: Config, s: State, key: SessionKey): Option<nat>
    requires forall k | k in s.pending :: s.pending[k] < |s.entries|
  {
    if c.coalesceSessions && key in s.pending && s.entries[s.pending[key]].active
       && s.entries[s.pending[key]].dispatchedNs.None?
    then Some(s.pending[key])
    else None
  }

  predicate Stale(c: Config, s: State, r: Request) {
    c.enforceMonotonicSequence && SessionOf(r) in s.latest && r.sequenceNo <= s.latest[SessionOf(r)]
  }

  predicate AtCapacity(c: Config, s: State) {
    c.maxPending.Some? && |s.heap| >= c.maxPending.value
  }

  /** A new envelope that is resolved at once. */
  function Reject(s: State, r: Request, status: Status, now: int): State
    requires status in s.tally.status
  {
    var outcome := Outcome(status, None, None, now, None);
    s.(entries := s.entries + [Entry(r, false, None, Some(outcome))], tally := CountOutcome(s.tally, status))
  }

  function Supersede(s: State, id: nat, r: Request, now: int): State
    requires id < |s.entries| && Replaced in s.tally.status
  {
    Finish(Deactivate(s, id), id, Replaced, None, now, Some(r.requestId))
  }

  /** A new envelope that joins the queue. */
  function Admit(c: Config, s: State, r: Request): State
    requires InRange(s.entries, s.heap)
  {
    var (id, key) := (|s.entries|, SessionOf(r));
    var es := s.entries + [Entry(r, true, None, None)];
    s.(entries := es,
    heap := HeapPush(c, es, s.heap, id),
    latest := s.latest[key := r.sequenceNo],
    pending := if c.coalesceSessions then s.pending[key := id] else s.pending)
  }

  /** Admission of a request that is not out of order. */
  function Accept(c: Config, s: State, r: Request, clock: Clock): State
    requires WellFormed(s)
  {
    var previous := Previous(c, s, SessionOf(r));
    var s1 := Expire(Compact(s), clock(0));
    SweepKeepsShape(Compact(s), Compact(s).heap, clock(0) + 1, Expired, clock(0));
    if previous.None? && AtCapacity(c, s1) then Reject(s1, r, Overloaded, clock(1))
    else Admit(c, if previous.Some? then Supersede(s1, previous.value, r, clock(1)) else s1, r)
  }

  function CountSubmit(s: State): State {
    s.(tally := s.tally.(submitted := s.tally.submitted + 1))
  }

  /** `enqueue`; a scheduler that is not accepting raises and changes nothing. */
  function Enqueue(c: Config, s: State, r: Request, clock: Clock): State
    requires WellFormed(s)
  {
    if !s.accepting then s
    else if Stale(c, s, r) then Reject(CountSubmit(s), r, OutOfOrder, clock(0))
    else Accept(c, CountSubmit(s), r, clock)
  }

  /** What no sweep touches: the heap, the sequence map, the worker, the dispatch log; pointers are
      only removed. */
  ghost predicate SameShape(s: State, r: State) {
    && r == s.(entries := r.entries, pending := r.pending, tally := s.tally.(status := r.tally.status))
    && |r.entries| == |s.entries|
    && r.tally.status.Keys == s.tally.status.Keys
    && (forall k | k in r.pending :: k in s.pending && r.pending[k] == s.pending[k])
  }

  lemma RetireKeepsShape(s: State, id: nat, status: Status, now: int)
    requires id < |s.entries| && status in s.tally.status
    ensures SameShape(s, Retire(s, id, status, now))
  {
  }

  lemma {:induction false} SweepKeepsShape(s: State, ids: seq<nat>, cutoff: int, status: Status, now: int)
    requires InRange(s.entries, ids) && status in s.tally.status
    ensures SameShape(s, Sweep(s, ids, cutoff, status, now))
  {
    if ids != [] {
      hide Retire;
      var r := Sweep(s, ids[..|ids| - 1], cutoff, status, now);
      SweepKeepsShape(s, ids[..|ids| - 1], cutoff, status, now);
      RetireKeepsShape(r, ids[|ids| - 1], status, now);
    }
  }

  // ---------------------------------------------------------------- the worker

  datatype Choice = Choice(ids: seq<nat>, ats: seq<int>, checkedAt: int, rest: seq<nat>)

  function EarliestDeadline(es: seq<Entry>, ids: seq<nat>): int
    requires ids != [] && InRange(es, ids)
  {
    if |ids| == 1 then es[ids[0]].request.deadlineNs
    else Min(EarliestDeadline(es, ids[..|ids| - 1]), es[ids[|ids| - 1]].request.deadlineNs)
  }

  function BatchLimit(c: Config, be: Backend): int {
    Min(if c.maxBatchSize.Some? then c.maxBatchSize.value else be.maxBatchSize, be.maxBatchSize)
  }

  /** The admission test for one more envelope: the enlarged batch is predicted to finish, with the
      guard to spare, by the earliest deadline in it. */
  predicate AdmissionSafe(c: Config, es: seq<Entry>, est: Predictor, ids: seq<nat>, id: nat, now: int)
    requires ids != [] && InRange(es, ids) && id < |es|
  {
    est(|ids| + 1).None?
    || now + est(|ids| + 1).value + c.guardNs <= Min(EarliestDeadline(es, ids), es[id].request.deadlineNs)
  }

  predicate Joins(c: Config, be: Backend, es: seq<Entry>, est: Predictor, ids: seq<nat>, id: nat, now: int)
    requires ids != [] && InRange(es, ids) && id < |es|
  {
    && |ids| < BatchLimit(c, be)
    && be.batchKey(es[id].request) == be.batchKey(es[ids[0]].request)
    && AdmissionSafe(c, es, est, ids, id, now)
  }

  /** The scan of `_take_batch_locked` over the rest of the queue; `k` counts the envelopes seen. */
  function Select(c: Config, be: Backend, es: seq<Entry>, est: Predictor, clock: Clock,
                  queue: seq<nat>, ch: Choice, k: nat): (r: Choice)
    requires InRange(es, queue) && InRange(es, ch.ids) && InRange(es, ch.rest)
    requires ch.ids != [] && |ch.ats| == |ch.ids|
    ensures InRange(es, r.ids) && InRange(es, r.rest) && r.ids != [] && |r.ats| == |r.ids|
    decreases |queue|
  {
    if queue == [] then ch
    else
      var id := queue[0];
      if !es[id].active then Select(c, be, es, est, clock, queue[1..], ch, k + 1)
      else if Joins(c, be, es, est, ch.ids, id, clock(2 * k + 1)) then
        var ch1 := ch.(ids := ch.ids + [id], ats := ch.ats + [clock(2 * k + 2)], checkedAt := clock(2 * k + 1));
        Select(c, be, es, est, clock, queue[1..], ch1, k + 1)
      else Select(c, be, es, est, clock, queue[1..], ch.(rest := ch.rest + [id]), k + 1)
  }

  /** The batch that `_take_batch_locked` forms: the head of the queue leads. */
  function TheChoice(c: Config, be: Backend, es: seq<Entry>, est: Predictor, clock: Clock,
                     heap: seq<nat>, checkedAt: int): (r: Choice)
    requires heap != [] && InRange(es, heap)
    ensures InRange(es, r.ids) && InRange(es, r.rest) && r.ids != [] && |r.ats| == |r.ids|
  {
    Select(c, be, es, est, clock, heap[1..], Choice([heap[0]], [clock(0)], checkedAt, []), 0)
  }

  function DispatchAll(s: State, ids: seq<nat>, ats: seq<int>): (r: State)
    requires InRange(s.entries, ids) && |ats| == |ids|
    ensures |r.entries| == |s.entries| && r.heap == s.heap && r.tally == s.tally
  {
    if ids == [] then s
    else Dispatch(DispatchAll(s, ids[..|ids| - 1], ats[..|ids| - 1]), ids[|ids| - 1], ats[|ids| - 1])
  }

  /** Up to this instant the batch is predicted to meet all its deadlines. */
  function SafeBy(c: Config, est: Predictor, ch: Choice): int {
    ch.checkedAt + (if est(|ch.ids|).Some? then est(|ch.ids|).value else 0) + c.guardNs
  }

  function TakeBatch(c: Config, be: Backend, s: State, est: Predictor, clock: Clock, checkedAt: int): State
    requires s.heap != [] && InRange(s.entries, s.heap)
  {
    var ch := TheChoice(c, be, s.entries, est, clock, s.heap, checkedAt);
    var s1 := Compact(DispatchAll(s, ch.ids, ch.ats));
    var n := |ch.ids|;
    s1.(tally := s.tally.(dispatched := s.tally.dispatched + n, batches := s.tally.batches + 1,
    batchItems := s.tally.batchItems + n),
    worker := Executing(ch.ids, SafeBy(c, est, ch)))
  }

  /** When the worker means to dispatch the head of the queue. */
  function DispatchAt(c: Config, leader: Request, predicted: Option<int>): int {
    Min(leader.receivedNs + c.batchWindowNs,
        leader.deadlineNs - c.guardNs - if predicted.Some? then predicted.value else 0)
  }

  /** The queue after the three clean-up passes with which the worker begins every turn. */
  function CleanUp(c: Config, s: State, est: Predictor, clock: Clock): (r: State)
    requires WellFormed(s)
    ensures InRange(r.entries, r.heap)
  {
    SweepKeepsShape(Compact(s), Compact(s).heap, clock(0) + 1, Expired, clock(0));
    Drop(c, Expire(Compact(s), clock(0)), est(1), clock(1))
  }

  /** What the worker does with the cleaned-up queue: it returns, waits, or takes a batch. */
  function Turn(c: Config, be: Backend, s: State, est: Predictor, clock: Clock): State
    requires InRange(s.entries, s.heap)
  {
    if s.heap == [] then s.(worker := if s.accepting then Waiting(None) else Returned)
    else
      var at := DispatchAt(c, s.entries[s.heap[0]].request, est(1));
      if clock(2) < at then s.(worker := Waiting(Some(at)))
      else TakeBatch(c, be, s, est, (n: nat) => clock(n + 3), clock(1))
  }

  /** One turn of the worker's inner loop. */
  function Wake(c: Config, be: Backend, s: State, est: Predictor, clock: Clock): State
    requires WellFormed(s)
  {
    if !s.worker.Waiting? then s else Turn(c, be, CleanUp(c, s, est, clock), est, clock)
  }

  // ---------------------------------------------------------------- backend replies

  datatype Reply = Raised | Answered(actions: seq<ActionChunk>)

  predicate Identifies(a: ActionChunk, r: Request) {
    a.requestId == r.requestId && a.sessionId == r.sessionId && a.sequenceNo == r.sequenceNo && a.model == r.model
  }

  function FailAll(s: State, batch: seq<nat>, now: int): (r: State)
    requires InRange(s.entries, batch) && Failed in s.tally.status
    ensures |r.entries| == |s.entries| && Failed in r.tally.status
  {
    if batch == [] then s
    else Finish(FailAll(s, batch[..|batch| - 1], now), batch[|batch| - 1], Failed, None, now, None)
  }

  /** One action that arrived for its own request. */
  function Deliver(c: Config, s: State, id: nat, action: ActionChunk, now: int): State
    requires id < |s.entries| && Completed in s.tally.status && DeadlineMissed in s.tally.status
  {
    if now > s.entries[id].request.deadlineNs
    then Finish(s, id, DeadlineMissed, if c.dropMissedActions then None else Some(action), now, None)
    else Finish(s, id, Completed, Some(action), now, None)
  }

  /** Hands out the actions from position `k` on; an action for another request fails what is left. */
  function DeliverFrom(c: Config, s: State, batch: seq<nat>, actions: seq<ActionChunk>, k: nat,
                       clock: Clock): (r: State)
    requires |actions| == |batch| && k <= |batch| && InRange(s.entries, batch)
    requires Completed in s.tally.status && DeadlineMissed in s.tally.status && Failed in s.tally.status
    decreases |batch| - k
  {
    if k == |batch| then s
    else if !Identifies(actions[k], s.entries[batch[k]].request) then FailAll(s, batch, clock(k))
    else DeliverFrom(c, Deliver(c, s, batch[k], actions[k], clock(k)), batch, actions, k + 1, clock)
  }

  /** `_execute`, after the backend has answered or raised. */
  function Receive(c: Config, s: State, reply: Reply, clock: Clock): State
    requires WellFormed(s)
  {
    if !s.worker.Executing? then s
    else
      var batch := s.worker.batch;
      var s1 := if reply.Raised? || |reply.actions| != |batch| then FailAll(s, batch, clock(0))
                else DeliverFrom(c, s, batch, reply.actions, 0, clock);
      s1.(worker := Waiting(None))
  }

  // ---------------------------------------------------------------- start and close

  function CancelAll(s: State, ids: seq<nat>, now: int): (r: State)
    requires InRange(s.entries, ids) && Cancelled in s.tally.status
    ensures |r.entries| == |s.entries| && Cancelled in r.tally.status
  {
    if ids == [] then s
    else
      var r := CancelAll(s, ids[..|ids| - 1], now);
      var id := ids[|ids| - 1];
      if r.entries[id].active then Finish(Deactivate(r, id), id, Cancelled, None, now, None) else r
  }

  function Close(s: State, cancelPending: bool, now: int): State
    requires WellFormed(s)
  {
    var s1 := s.(accepting := false);
    if s.worker.Returned? || !cancelPending then s1
    else CancelAll(s1, s1.heap, now).(heap := [], pending := map[])
  }

  function Start(s: State): State {
    if s.worker.Returned? then s.(accepting := true, worker := Waiting(None)) else s
  }

  // ---------------------------------------------------------------- runs

  datatype Event =
    | Enqueued(request: Request, clock: Clock)
    | Woken(est: Predictor, clock: Clock)
    | Replied(reply: Reply, clock: Clock)
    | Closed(cancelPending: bool, now: int)
    | Started

  function Step(c: Config, be: Backend, s: State, e: Event): State
    requires WellFormed(s)
  {
    match e
    case Enqueued(r, clock) => Enqueue(c, s, r, clock)
    case Woken(est, clock) => Wake(c, be, s, est, clock)
    case Replied(reply, clock) => Receive(c, s, reply, clock)
    case Closed(cancel, now) => Close(s, cancel, now)
    case Started => Start(s)
  }

  // ---------------------------------------------------------------- every step keeps the shape of a state

  /** Whether `r` differs from `s` only in envelopes, removed pointers and outcome counts. */
  ghost predicate SameFrame(s: State, r: State) {
    && |r.entries| == |s.entries| && r.heap == s.heap && r.worker == s.worker
    && r.tally.status.Keys == s.tally.status.Keys
    && (forall k | k in r.pending :: k in s.pending && r.pending[k] == s.pending[k])
  }

  lemma SameFrameKeepsWellFormed(s: State, r: State)
    requires WellFormed(s) && SameFrame(s, r)
    ensures WellFormed(r)
  {
    assert forall x: Status :: x in s.tally.status.Keys;
  }

  lemma {:induction false} DispatchAllKeepsFrame(s: State, ids: seq<nat>, ats: seq<int>)
    requires InRange(s.entries, ids) && |ats| == |ids|
    ensures SameFrame(s, DispatchAll(s, ids, ats))
  {
    if ids != [] {
      DispatchAllKeepsFrame(s, ids[..|ids| - 1], ats[..|ids| - 1]);
    }
  }

  lemma {:induction false} FailAllKeepsFrame(s: State, batch: seq<nat>, now: int)
    requires InRange(s.entries, batch) && Failed in s.tally.status
    ensures SameFrame(s, FailAll(s, batch, now))
  {
    if batch != [] {
      FailAllKeepsFrame(s, batch[..|batch| - 1], now);
    }
  }

  lemma {:induction false} DeliverFromKeepsFrame(c: Config, s: State, batch: seq<nat>, actions: seq<ActionChunk>,
                                                 k: nat, clock: Clock)
    requires |actions| == |batch| && k <= |batch| && InRange(s.entries, batch)
    requires Completed in s.tally.status && DeadlineMissed in s.tally.status && Failed in s.tally.status
    ensures SameFrame(s, DeliverFrom(c, s, batch, actions, k, clock))
    decreases |batch| - k
  {
    hide Identifies;
    if k < |batch| {
      if !Identifies(actions[k], s.entries[batch[k]].request) {
        FailAllKeepsFrame(s, batch, clock(k));
      } else {
        DeliverKeepsFrame(c, s, batch[k], actions[k], clock(k));
        hide Deliver;
        DeliverFromKeepsFrame(c, Deliver(c, s, batch[k], actions[k], clock(k)), batch, actions, k + 1, clock);
      }
    }
  }

  lemma DeliverKeepsFrame(c: Config, s: State, id: nat, action: ActionChunk, now: int)
    requires id < |s.entries| && Completed in s.tally.status && DeadlineMissed in s.tally.status
    ensures SameFrame(s, Deliver(c, s, id, action, now))
  {
  }

  lemma {:induction false} CancelAllKeepsFrame(s: State, ids: seq<nat>, now: int)
    requires InRange(s.entries, ids) && Cancelled in s.tally.status
    ensures SameFrame(s, CancelAll(s, ids, now))
  {
    if ids != [] {
      CancelAllKeepsFrame(s, ids[..|ids| - 1], now);
    }
  }

  lemma SweptIsWellFormed(s: State, cutoff: int, status: Status, now: int)
    requires WellFormed(s)
    ensures status in s.tally.status && WellFormed(Compact(Sweep(s, s.heap, cutoff, status, now)))
  {
    SweepKeepsShape(s, s.heap, cutoff, status, now);
    var r := Sweep(s, s.heap, cutoff, status, now);
    hide Sweep;
    SameFrameKeepsWellFormed(s, r);
  }

  lemma RejectKeepsWellFormed(s: State, r: Request, status: Status, now: int)
    requires WellFormed(s)
    ensures status in s.tally.status && WellFormed(Reject(s, r, status, now))
  {
  }

  lemma AdmitKeepsWellFormed(c: Config, s: State, r: Request)
    requires WellFormed(s)
    ensures WellFormed(Admit(c, s, r))
  {
    hide HeapPush;
  }

  lemma SupersedeKeepsFrame(s: State, id: nat, r: Request, now: int)
    requires id < |s.entries| && Replaced in s.tally.status
    ensures SameFrame(s, Supersede(s, id, r, now))
  {
  }

  lemma AcceptKeepsWellFormed(c: Config, s: State, r: Request, clock: Clock)
    requires WellFormed(s)
    ensures WellFormed(Accept(c, s, r, clock))
  {
    hide Sweep, Active, WellFormed, Admit, Reject, Supersede;
    CompactKeepsWellFormed(s);
    var s0 := Compact(s);
    var s1 := Expire(s0, clock(0));
    SweptIsWellFormed(s0, clock(0) + 1, Expired, clock(0));
    SweepKeepsShape(s0, s0.heap, clock(0) + 1, Expired, clock(0));
    RejectKeepsWellFormed(s1, r, Overloaded, clock(1));
    var previous := Previous(c, s, SessionOf(r));
    if previous.Some? {
      SupersedeKeepsFrame(s1, previous.value, r, clock(1));
      SameFrameKeepsWellFormed(s1, Supersede(s1, previous.value, r, clock(1)));
      AdmitKeepsWellFormed(c, Supersede(s1, previous.value, r, clock(1)), r);
    } else {
      AdmitKeepsWellFormed(c, s1, r);
    }
  }

  lemma CompactKeepsWellFormed(s: State)
    requires WellFormed(s)
    ensures WellFormed(Compact(s)) && InRange(s.entries, s.heap) && InRange(Compact(s).entries, Compact(s).heap)
    ensures Expired in s.tally.status && (forall k | k in s.pending :: s.pending[k] < |s.entries|)
    ensures Replaced in s.tally.status
  {
    hide Active;
  }

  lemma CleanUpKeepsWellFormed(c: Config, s: State, est: Predictor, clock: Clock)
    requires WellFormed(s)
    ensures WellFormed(CleanUp(c, s, est, clock))
  {
    hide Sweep, Active;
    var s1 := Expire(Compact(s), clock(0));
    SweptIsWellFormed(Compact(s), clock(0) + 1, Expired, clock(0));
    if c.dropUnserviceable && est(1).Some? {
      SweptIsWellFormed(s1, clock(1) + est(1).value + c.guardNs, Unserviceable, clock(1));
    }
  }

  lemma TurnKeepsWellFormed(c: Config, be: Backend, s: State, est: Predictor, clock: Clock)
    requires WellFormed(s)
    ensures WellFormed(Turn(c, be, s, est, clock))
  {
    hide TheChoice, DispatchAll, Active, DispatchAt, SafeBy;
    if s.heap != [] {
      var ch := TheChoice(c, be, s.entries, est, (n: nat) => clock(n + 3), s.heap, clock(1));
      DispatchAllKeepsFrame(s, ch.ids, ch.ats);
    }
  }

  lemma ReceiveKeepsWellFormed(c: Config, s: State, reply: Reply, clock: Clock)
    requires WellFormed(s)
    ensures WellFormed(Receive(c, s, reply, clock))
  {
    hide FailAll, DeliverFrom;
    if s.worker.Executing? {
      var batch := s.worker.batch;
      FailAllKeepsFrame(s, batch, clock(0));
      if reply.Answered? && |reply.actions| == |batch| {
        DeliverFromKeepsFrame(c, s, batch, reply.actions, 0, clock);
        SameFrameKeepsWellFormed(s, DeliverFrom(c, s, batch, reply.actions, 0, clock));
      }
      SameFrameKeepsWellFormed(s, FailAll(s, batch, clock(0)));
    }
  }

  lemma CloseKeepsWellFormed(s: State, cancelPending: bool, now: int)
    requires WellFormed(s)
    ensures WellFormed(Close(s, cancelPending, now))
  {
    hide CancelAll;
    var s1 := s.(accepting := false);
    CancelAllKeepsFrame(s1, s1.heap, now);
    SameFrameKeepsWellFormed(s1, CancelAll(s1, s1.heap, now));
  }

  lemma StepKeepsWellFormed(c: Config, be: Backend, s: State, e: Event)
    requires WellFormed(s)
    ensures WellFormed(Step(c, be, s, e))
  {
    hide Accept, Receive, Close, CleanUp, Turn;
    match e
    case Enqueued(r, clock) => AcceptKeepsWellFormed(c, CountSubmit(s), r, clock);
    case Woken(est, clock) =>
      CleanUpKeepsWellFormed(c, s, est, clock);
      TurnKeepsWellFormed(c, be, CleanUp(c, s, est, clock), est, clock);
    case Replied(reply, clock) => ReceiveKeepsWellFormed(c, s, reply, clock);
    case Closed(cancel, now) => CloseKeepsWellFormed(s, cancel, now);
    case Started =>
  }

  lemma InitIsWellFormed()
    ensures WellFormed(INIT)
  {
    forall x: Status ensures x in ZEROES {
      match x {
        case Completed => case DeadlineMissed => case Expired => case Unserviceable => case Replaced =>
        case OutOfOrder => case Overloaded => case Failed => case Cancelled =>
      }
    }
  }

  /** The state after a run of locked sections and backend replies, in any order whatever. */
  ghost function Run(c: Config, be: Backend, events: seq<Event>): (s: State)
    ensures WellFormed(s)
  {
    if events == [] then
      InitIsWellFormed();
      INIT
    else
      var s := Run(c, be, events[..|events| - 1]);
      StepKeepsWellFormed(c, be, s, events[|events| - 1]);
      Step(c, be, s, events[|events| - 1])
  }
}
