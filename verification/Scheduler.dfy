/** The scheduler as the object that clients share.  Every method below is one locked section, or a part of
    one; its effect is the function of the same name on the abstract state.  The heap is kept in sort order,
    which is what `heapq` promises of successive pops; an envelope's future is its `outcome`. */
module Scheduler {
  import opened Types
  import opened SchedulerState
  import opened SchedulerInvariants
  import opened SchedulerSafety
  import opened SchedulerScan
  import SchedulerFreshness
  import SchedulerOutcomes
  import opened Metrics

  class Envelope {
    const sortKey: (int, int, int)
    const order: nat
    const request: Request
    var active: bool
    var dispatchedNs: Option<int>
    var outcome: Option<Outcome>

    constructor (sortKey: (int, int, int), order: nat, request: Request)
      ensures this.sortKey == sortKey && this.order == order && this.request == request
      ensures active && dispatchedNs == None && outcome == None
    {
      this.sortKey, this.order, this.request := sortKey, order, request;
      active, dispatchedNs, outcome := true, None, None;
    }

    ghost function Value(): Entry
      reads this
    {
      Entry(request, active, dispatchedNs, outcome)
    }
  }

  /** The envelopes with the given order numbers. */
  ghost predicate Lists(envs: seq<Envelope>, list: seq<Envelope>, ids: seq<nat>) {
    |list| == |ids| && forall i | 0 <= i < |ids| :: ids[i] < |envs| && list[i] == envs[ids[i]]
  }

  /** The pointers that lead to the envelopes with the given order numbers. */
  ghost predicate Points(envs: seq<Envelope>, pointers: map<SessionKey, Envelope>, ids: map<SessionKey, nat>) {
    pointers.Keys == ids.Keys && forall k | k in pointers :: ids[k] < |envs| && pointers[k] == envs[ids[k]]
  }

  lemma PointsTo(c: Config, envs: seq<Envelope>, pointers: map<SessionKey, Envelope>, ids: map<SessionKey, nat>,
                 key: SessionKey, e: Envelope)
    requires Numbered(c, envs) && Points(envs, pointers, ids) && e.order < |envs| && envs[e.order] == e
    ensures key in pointers && pointers[key] == e <==> key in ids && ids[key] == e.order
    ensures Points(envs, pointers - {key}, ids - {key})
  {
    hide SortKey;
  }

  /** `heapq.heappush` on a heap in sort order. */
  function Push(heap: seq<Envelope>, e: Envelope): seq<Envelope> {
    if heap == [] then [e]
    else if Before(e.sortKey, heap[0].sortKey) then [e] + heap
    else [heap[0]] + Push(heap[1..], e)
  }

  ghost predicate Numbered(c: Config, envs: seq<Envelope>) {
    forall i: nat | i < |envs| :: envs[i].order == i && envs[i].sortKey == SortKey(c, envs[i].request, i)
  }

  ghost predicate SameRequests(envs: seq<Envelope>, es: seq<Entry>) {
    |es| == |envs| && forall i: nat | i < |envs| :: es[i].request == envs[i].request
  }

  lemma {:induction false} PushLists(c: Config, envs: seq<Envelope>, es: seq<Entry>, heap: seq<Envelope>,
                                     ids: seq<nat>, id: nat)
    requires Numbered(c, envs) && SameRequests(envs, es) && Lists(envs, heap, ids) && id < |envs|
    requires InRange(es, ids)
    ensures Lists(envs, Push(heap, envs[id]), HeapPush(c, es, ids, id))
  {
    hide Before, SortKey;
    if heap != [] {
      PushLists(c, envs, es, heap[1..], ids[1..], id);
    }
  }

  /** The earliest deadline among the selected envelopes. */
  function EarliestOf(selected: seq<Envelope>): int
    requires selected != []
  {
    if |selected| == 1 then selected[0].request.deadlineNs
    else Min(EarliestOf(selected[..|selected| - 1]), selected[|selected| - 1].request.deadlineNs)
  }

  lemma {:induction false} EarliestAgrees(envs: seq<Envelope>, es: seq<Entry>, selected: seq<Envelope>, ids: seq<nat>)
    requires SameRequests(envs, es) && Lists(envs, selected, ids) && ids != [] && InRange(es, ids)
    ensures EarliestOf(selected) == EarliestDeadline(es, ids)
  {
    if |ids| > 1 {
      EarliestAgrees(envs, es, selected[..|ids| - 1], ids[..|ids| - 1]);
    }
  }

  /** Whether the scan adds an envelope to the selected ones. */
  predicate Fits(be: Backend, c: Config, est: Predictor, limit: int, batchKey: BatchKey, selected: seq<Envelope>,
                 e: Envelope, now: int)
    requires selected != []
  {
    var compatible := be.batchKey(e.request) == batchKey;
    var predicted := est(|selected| + 1);
    var earliestDeadline := Min(EarliestOf(selected), e.request.deadlineNs);
    var admissionSafe := predicted.None? || now + predicted.value + c.guardNs <= earliestDeadline;
    |selected| < limit && compatible && admissionSafe
  }

  lemma FitsAgrees(envs: seq<Envelope>, es: seq<Entry>, be: Backend, c: Config, est: Predictor, selected: seq<Envelope>,
                   ids: seq<nat>, e: Envelope, id: nat, now: int)
    requires SameRequests(envs, es) && Lists(envs, selected, ids) && ids != [] && InRange(es, ids)
    requires id < |envs| && envs[id] == e
    ensures Fits(be, c, est, BatchLimit(c, be), be.batchKey(es[ids[0]].request), selected, e, now)
       <==> Joins(c, be, es, est, ids, id, now)
  {
    EarliestAgrees(envs, es, selected, ids);
    hide EarliestOf, EarliestDeadline, Min;
  }

  class DeadlineScheduler {
    const config: Config
    const backend: Backend
    const metrics: SchedulerMetrics
    var heap: seq<Envelope>
    var pendingBySession: map<SessionKey, Envelope>
    var latestSequenceBySession: map<SessionKey, int>
    var counter: nat
    var accepting: bool
    /** Whether the worker is there and has not returned. */
    var running: bool
    /** All envelopes ever made, by order number. */
    ghost var envelopes: seq<Envelope>
    /** The abstract state. */
    ghost var state: State
    /** The locked sections and replies so far. */
    ghost var events: seq<Event>

    ghost predicate Valid()
      reads this, metrics, envelopes
    {
      && counter == |envelopes| == |state.entries|
      && Numbered(config, envelopes)
      && (forall i: nat | i < |envelopes| :: envelopes[i].Value() == state.entries[i])
      && Lists(envelopes, heap, state.heap)
      && Points(envelopes, pendingBySession, state.pending)
      && latestSequenceBySession == state.latest
      && accepting == state.accepting && (running <==> !state.worker.Returned?)
      && metrics.Counters() == state.tally
    }

    /** Whether the object is where its run has led the abstract scheduler: then everything that is proved of
        all runs holds of it. */
    ghost predicate OnTrack()
      reads this, metrics, envelopes
    {
      Valid() && state == Run(config, backend, events)
    }

    ghost predicate Owns(e: Envelope)
      reads this
    {
      e.order < |envelopes| && envelopes[e.order] == e
    }

    constructor (config: Config, backend: Backend, metrics: SchedulerMetrics)
      requires metrics.Counters() == INIT.tally
      ensures this.config == config && this.backend == backend && this.metrics == metrics
      ensures OnTrack() && envelopes == [] && events == []
    {
      this.config, this.backend, this.metrics := config, backend, metrics;
      heap, pendingBySession, latestSequenceBySession, counter, accepting := [], map[], map[], 0, true;
      running := true;
      envelopes, state, events := [], INIT, [];
    }

    // -------------------------------------------------------------- one envelope

    method Finish(e: Envelope, status: Status, action: Option<ActionChunk>, completedNs: int,
                  replacedBy: Option<string>)
      requires Valid() && Owns(e) && status in state.tally.status
      modifies this`state, metrics, e
      ensures Valid() && state == SchedulerState.Finish(old(state), e.order, status, action, completedNs, replacedBy)
    {
      if e.outcome.Some? {
        return;
      }
      var outcome := Outcome(status, action, e.dispatchedNs, completedNs, replacedBy);
      metrics.RecordOutcome(e.request.receivedNs, outcome);
      e.outcome := Some(outcome);
      state := SchedulerState.Finish(state, e.order, status, action, completedNs, replacedBy);
    }

    method ClearSessionPointer(e: Envelope)
      requires Valid() && Owns(e)
      modifies this`state, this`pendingBySession
      ensures Valid() && state == ClearPointer(old(state), e.order)
    {
      hide Lists, Points, Numbered;
      var key := (e.request.model, e.request.sessionId);
      PointsTo(config, envelopes, pendingBySession, state.pending, key, e);
      assert envelopes[e.order].Value() == state.entries[e.order];
      if key in pendingBySession && pendingBySession[key] == e {
        pendingBySession := pendingBySession - {key};
      }
      state := ClearPointer(state, e.order);
    }

    method Deactivate(e: Envelope)
      requires Valid() && Owns(e)
      modifies this`state, e`active
      ensures Valid() && state == SchedulerState.Deactivate(old(state), e.order)
    {
      e.active := false;
      state := SchedulerState.Deactivate(state, e.order);
    }

    method Retire(e: Envelope, status: Status, now: int)
      requires Valid() && Owns(e) && status in state.tally.status
      modifies this`state, this`pendingBySession, metrics, e
      ensures Valid() && state == SchedulerState.Retire(old(state), e.order, status, now)
    {
      Deactivate(e);
      ClearSessionPointer(e);
      Finish(e, status, None, now, None);
    }

    // -------------------------------------------------------------- sweeping the queue

    method RemoveInactiveLocked()
      requires Valid()
      modifies this`state, this`heap
      ensures Valid() && state == Compact(old(state))
    {
      hide Numbered;
      ghost var ids := state.heap;
      ghost var kept: seq<nat> := [];
      var live: seq<Envelope> := [];
      for i := 0 to |heap|
        invariant kept == Active(state.entries, ids[..i]) && Lists(envelopes, live, kept)
      {
        assert ids[..i + 1][..i] == ids[..i];
        assert envelopes[ids[i]].Value() == state.entries[ids[i]];
        if heap[i].active {
          live := live + [heap[i]];
          kept := kept + [ids[i]];
        }
      }
      assert ids[..|heap|] == ids;
      heap := live;
      state := Compact(state);
    }

    lemma HeapMember(i: nat)
      requires Valid() && i < |heap|
      ensures |heap| == |state.heap| && Owns(heap[i]) && heap[i] in envelopes && heap[i].order == state.heap[i]
      ensures state.heap[i] < |state.entries| && heap[i].Value() == state.entries[state.heap[i]]
    {
    }

    lemma HeapInRange()
      requires Valid()
      ensures InRange(state.entries, state.heap) && |heap| == |state.heap|
    {
    }

    method SweepOne(i: nat, cutoff: int, status: Status, now: int, ghost s0: State)
      requires Valid() && i < |heap| && InRange(s0.entries, s0.heap) && status in s0.tally.status
      requires status in state.tally.status && state.heap == s0.heap && |heap| == |state.heap|
      requires state == Sweep(s0, s0.heap[..i], cutoff, status, now)
      modifies this`state, this`pendingBySession, metrics, envelopes
      ensures Valid() && state == Sweep(s0, s0.heap[..i + 1], cutoff, status, now)
      ensures state.heap == s0.heap && status in state.tally.status
    {
      hide SchedulerState.Retire, Sweep, DeadlineScheduler.Valid;
      HeapMember(i);
      var e := heap[i];
      SweepStep(s0, s0.heap, i, cutoff, status, now);
      if e.active && e.request.deadlineNs < cutoff {
        Retire(e, status, now);
      }
    }

    /** Retires, envelope by envelope, the pending ones whose deadline lies before `cutoff`. */
    method SweepLocked(cutoff: int, status: Status, now: int)
      requires Valid() && status in state.tally.status
      modifies this`state, this`pendingBySession, metrics, envelopes
      ensures Valid() && state == Sweep(old(state), old(state.heap), cutoff, status, now)
      ensures state.heap == old(state.heap)
    {
      hide DeadlineScheduler.Valid;
      ghost var s0 := state;
      HeapInRange();
      for i := 0 to |heap|
        invariant Valid() && state == Sweep(s0, s0.heap[..i], cutoff, status, now)
        invariant state.heap == s0.heap && status in state.tally.status && |heap| == |s0.heap|
      {
        SweepOne(i, cutoff, status, now, s0);
      }
      assert s0.heap[..|heap|] == s0.heap;
    }

    method ExpireRequestsLocked(now: int)
      requires Valid() && Expired in state.tally.status
      modifies this`state, this`pendingBySession, this`heap, metrics, envelopes
      ensures Valid() && state == Expire(old(state), now)
    {
      hide DeadlineScheduler.Valid, Sweep, Compact;
      HeapInRange();
      SweepLocked(now + 1, Expired, now);
      RemoveInactiveLocked();
    }

    method DropUnserviceableRequestsLocked(predicted: Option<int>, now: int)
      requires Valid() && Unserviceable in state.tally.status
      modifies this`state, this`pendingBySession, this`heap, metrics, envelopes
      ensures Valid() && state == Drop(config, old(state), predicted, now)
    {
      hide DeadlineScheduler.Valid, Sweep, Compact;
      HeapInRange();
      if !config.dropUnserviceable || predicted.None? {
        return;
      }
      SweepLocked(now + predicted.value + config.guardNs, Unserviceable, now);
      RemoveInactiveLocked();
    }

    // -------------------------------------------------------------- enqueue

    /** Gives a new envelope the next order number. */
    method Register(request: Request) returns (e: Envelope)
      requires Valid()
      modifies this`state, this`envelopes, this`counter
      ensures fresh(e) && envelopes == old(envelopes) + [e] && e.request == request && e.order == |old(envelopes)|
      ensures Valid() && state == old(state).(entries := old(state.entries) + [Entry(request, true, None, None)])
      ensures e.active && e.dispatchedNs.None? && e.outcome.None?
    {
      var order := counter;
      var sortKey := if config.policy.EDF? then (request.deadlineNs, -request.priority, order)
      else (request.receivedNs, -request.priority, order);
      e := new Envelope(sortKey, order, request);
      counter := counter + 1;
      envelopes := envelopes + [e];
      state := state.(entries := state.entries + [Entry(request, true, None, None)]);
    }

    method RejectNew(request: Request, status: Status, now: int) returns (e: Envelope)
      requires Valid() && status in state.tally.status
      modifies this`state, this`envelopes, this`counter, metrics
      ensures fresh(e) && envelopes == old(envelopes) + [e]
      ensures Valid() && state == Reject(old(state), request, status, now)
    {
      e := Register(request);
      Deactivate(e);
      Finish(e, status, None, now, None);
    }

    /** `heapq.heappush`. */
    method PushLocked(e: Envelope)
      requires Valid() && Owns(e) && InRange(state.entries, state.heap)
      modifies this`state, this`heap
      ensures Valid() && e.order < |state.entries|
      ensures state == old(state).(heap := HeapPush(config, old(state.entries), old(state.heap), e.order))
    {
      PushLists(config, envelopes, state.entries, heap, state.heap, e.order);
      heap := Push(heap, e);
      state := state.(heap := HeapPush(config, state.entries, state.heap, e.order));
    }

    method AdmitNew(request: Request, key: SessionKey) returns (e: Envelope)
      requires Valid() && key == SessionOf(request)
      modifies this`state, this`envelopes, this`counter, this`heap, this`latestSequenceBySession, this`pendingBySession
      ensures fresh(e) && envelopes == old(envelopes) + [e]
      ensures InRange(old(state.entries), old(state.heap))
      ensures Valid() && state == Admit(config, old(state), request)
    {
      HeapInRange();
      hide Numbered, Lists;
      e := Register(request);
      latestSequenceBySession := latestSequenceBySession[key := request.sequenceNo];
      state := state.(latest := state.latest[key := request.sequenceNo]);
      if config.coalesceSessions {
        pendingBySession := pendingBySession[key := e];
        state := state.(pending := state.pending[key := e.order]);
      }
      hide DeadlineScheduler.Valid, HeapPush;
      PushLocked(e);
    }

    /** The session's pending request that a new one would replace. */
    method FindPrevious(key: SessionKey) returns (previous: Option<Envelope>)
      requires Valid() && WellFormed(state)
      ensures previous.Some? <==> Previous(config, state, key).Some?
      ensures previous.Some? ==> Owns(previous.value) && previous.value in envelopes
      ensures previous.Some? ==> previous.value.order == Previous(config, state, key).value
    {
      hide Lists, SortKey;
      previous := None;
      if config.coalesceSessions && key in pendingBySession {
        var candidate := pendingBySession[key];
        assert envelopes[state.pending[key]].Value() == state.entries[state.pending[key]];
        if candidate.active && candidate.dispatchedNs.None? {
          previous := Some(candidate);
        }
      }
    }

    /** The locked section of `enqueue`: the clock is read for the expiry and, if the request is refused or replaces
        another one, once more. */
    method EnqueueLocked(request: Request, clock: Clock) returns (future: Option<Envelope>)
      requires Valid() && WellFormed(state)
      modifies this`state, this`envelopes, this`counter, this`heap, this`latestSequenceBySession, this`pendingBySession,
               metrics, envelopes
      ensures Valid() && state == SchedulerState.Enqueue(config, old(state), request, clock)
      ensures future.None? <==> !old(accepting)
      ensures future.Some? ==> fresh(future.value) && envelopes == old(envelopes) + [future.value]
    {
      hide Lists, SortKey;
      if !accepting {
        return None;
      }
      var key := (request.model, request.sessionId);
      metrics.RecordSubmit();
      state := CountSubmit(state);
      if config.enforceMonotonicSequence && key in latestSequenceBySession
         && request.sequenceNo <= latestSequenceBySession[key] {
        var rejected := RejectNew(request, OutOfOrder, clock(0));
        return Some(rejected);
      }
      ghost var s0 := state;
      var previous := FindPrevious(key);
      hide DeadlineScheduler.Valid, Expire, Compact, Reject, Admit, Previous;
      var e := AcceptLocked(request, key, previous, clock, s0);
      return Some(e);
    }

    method AcceptLocked(request: Request, key: SessionKey, previous: Option<Envelope>, clock: Clock, ghost s0: State)
      returns (e: Envelope)
      requires Valid() && state == s0 && WellFormed(s0) && key == SessionOf(request)
      requires previous.Some? <==> Previous(config, s0, key).Some?
      requires previous.Some? ==> Owns(previous.value) && previous.value.order == Previous(config, s0, key).value
      requires previous.Some? ==> previous.value in envelopes
      modifies this`state, this`envelopes, this`counter, this`heap, this`latestSequenceBySession, this`pendingBySession,
               metrics, envelopes
      ensures Valid() && state == Accept(config, s0, request, clock)
      ensures fresh(e) && envelopes == old(envelopes) + [e]
    {
      hide DeadlineScheduler.Valid, Sweep, Admit, Reject, Previous;
      HeapInRange();
      RemoveInactiveLocked();
      SweepKeepsShape(state, state.heap, clock(0) + 1, Expired, clock(0));
      ExpireRequestsLocked(clock(0));
      HeapInRange();
      var atCapacity := config.maxPending.Some? && |heap| >= config.maxPending.value;
      if previous.None? && atCapacity {
        e := RejectNew(request, Overloaded, clock(1));
        return;
      }
      if previous.Some? {
        Deactivate(previous.value);
        Finish(previous.value, Replaced, None, clock(1), Some(request.requestId));
      }
      e := AdmitNew(request, key);
    }

    // -------------------------------------------------------------- the worker

    /** `heapq.heappop`. */
    method PopLocked() returns (e: Envelope)
      requires Valid() && heap != []
      modifies this`state, this`heap
      ensures Valid() && Owns(e) && e in envelopes && |heap| == |state.heap|
      ensures old(state.heap) != [] && e.order == old(state.heap[0])
      ensures state == old(state).(heap := old(state.heap)[1..])
      ensures e.order < |state.entries| && e.Value() == state.entries[e.order]
    {
      e := heap[0];
      heap := heap[1..];
      state := state.(heap := state.heap[1..]);
    }

    method DispatchEnvelope(e: Envelope, now: int)
      requires Valid() && Owns(e)
      modifies this`state, this`pendingBySession, e
      ensures Valid() && state == Dispatch(old(state), e.order, now)
    {
      e.active := false;
      e.dispatchedNs := Some(now);
      state := state.(entries := state.entries[e.order := e.Value()], log := state.log + [e.order]);
      ClearSessionPointer(e);
    }

    /** Puts the envelopes that were not selected back on the emptied heap. */
    method PushBack(remaining: seq<Envelope>, ghost rest: seq<nat>)
      requires Valid() && heap == [] && Lists(envelopes, remaining, rest) && Sorted(config, state.entries, rest)
      modifies this`state, this`heap
      ensures Valid() && state == old(state).(heap := rest)
    {
      hide DeadlineScheduler.Valid, Before, HeapPush;
      assert state.heap == [] && |envelopes| == |state.entries| by {
        EmptyHeap();
      }
      for j := 0 to |remaining|
        invariant Valid() && state == old(state).(heap := rest[..j])
      {
        assert rest[..j] + [rest[j]] == rest[..j + 1];
        PushLast(config, state.entries, rest[..j], rest[j]);
        Registered(remaining[j], rest[j]);
        PushLocked(remaining[j]);
      }
      assert rest[..|remaining|] == rest;
    }

    lemma EmptyHeap()
      requires Valid() && heap == []
      ensures state.heap == [] && |envelopes| == |state.entries|
    {
    }

    lemma Registered(e: Envelope, id: nat)
      requires Valid() && id < |envelopes| && envelopes[id] == e
      ensures Owns(e) && e.order == id && e in envelopes && id < |state.entries|
    {
    }

    lemma SameRequestsAsStart(s0: State, queue: seq<nat>, ch: Choice)
      requires Valid() && Scanning(s0, state, queue, ch)
      ensures SameRequests(envelopes, s0.entries)
    {
      DispatchAllEffect(s0, ch.ids, ch.ats);
      hide DispatchAll, Numbered;
      forall i: nat | i < |envelopes| ensures s0.entries[i].request == envelopes[i].request {
        assert envelopes[i].Value() == state.entries[i];
        if i in ch.ids {
          var j :| 0 <= j < |ch.ids| && ch.ids[j] == i;
          assert state.entries[ch.ids[j]] == s0.entries[ch.ids[j]].(active := false, dispatchedNs := Some(ch.ats[j]));
        }
      }
    }

    /** The scan meets one more envelope: it skips it, selects it, or sets it aside. */
    method ScanNext(est: Predictor, clock: Clock, k: nat, limit: int, batchKey: BatchKey, selected: seq<Envelope>,
                    remaining: seq<Envelope>, ghost s0: State, ghost queue: seq<nat>, ghost ch: Choice)
      returns (selected': seq<Envelope>, remaining': seq<Envelope>, ghost ch': Choice)
      requires Valid() && heap != [] && Scanning(s0, state, queue, ch) && queue != [] && ScanRange(s0, queue, ch)
      requires Lists(envelopes, selected, ch.ids) && Lists(envelopes, remaining, ch.rest)
      requires limit == BatchLimit(config, backend) && batchKey == backend.batchKey(s0.entries[ch.ids[0]].request)
      modifies this`state, this`heap, this`pendingBySession, envelopes
      ensures Valid() && ch' == Scanned(config, backend, s0.entries, est, clock, queue[0], ch, k)
      ensures Scanning(s0, state, queue[1..], ch')
      ensures Lists(envelopes, selected', ch'.ids) && Lists(envelopes, remaining', ch'.rest)
      ensures ch'.ids[0] == ch.ids[0]
    {
      hide DeadlineScheduler.Valid, Scanning, Joins, Fits, Dispatch, DispatchAll, SameRequests, BatchLimit;
      SameRequestsAsStart(s0, queue, ch);
      ScanMeets(s0, state, queue, ch);
      ScanningParts(s0, state, queue, ch);
      var e := PopLocked();
      Identified(e);
      FitsAgrees(envelopes, s0.entries, backend, config, est, selected, ch.ids, e, queue[0], clock(2 * k + 1));
      ch' := Scanned(config, backend, s0.entries, est, clock, queue[0], ch, k);
      selected', remaining' := selected, remaining;
      if !e.active {
        ScanPasses(s0, old(state), queue, ch, ch.rest);
      } else if Fits(backend, config, est, limit, batchKey, selected, e, clock(2 * k + 1)) {
        ScanTakes(s0, old(state), queue, ch, clock(2 * k + 2), clock(2 * k + 1));
        DispatchEnvelope(e, clock(2 * k + 2));
        selected' := selected + [e];
      } else {
        ScanPasses(s0, old(state), queue, ch, ch.rest + [queue[0]]);
        remaining' := remaining + [e];
      }
    }

    /** The loop of `TakeBatchLocked` that started from `s0` has seen `k` envelopes, made the choice `ch` and has
        yet to see `queue`. */
    ghost predicate InScan(est: Predictor, clock: Clock, checkedAt: int, s0: State, queue: seq<nat>, ch: Choice, k: nat,
                           batchKey: BatchKey, selected: seq<Envelope>, remaining: seq<Envelope>)
      reads this, metrics, envelopes
    {
      && Valid() && |heap| == |queue| && s0.heap != [] && Sorted(config, s0.entries, s0.heap)
      && Scanning(s0, state, queue, ch) && ScanRange(s0, queue, ch)
      && Lists(envelopes, selected, ch.ids) && Lists(envelopes, remaining, ch.rest)
      && batchKey == backend.batchKey(s0.entries[ch.ids[0]].request)
      && Select(config, backend, s0.entries, est, clock, queue, ch, k)
         == TheChoice(config, backend, s0.entries, est, clock, s0.heap, checkedAt)
    }

    /** One turn of the scan's loop. */
    method ScanStep(est: Predictor, clock: Clock, ghost checkedAt: int, k: nat, limit: int, batchKey: BatchKey,
                    selected: seq<Envelope>, remaining: seq<Envelope>, ghost s0: State, ghost queue: seq<nat>,
                    ghost ch: Choice)
      returns (selected': seq<Envelope>, remaining': seq<Envelope>, ghost queue': seq<nat>, ghost ch': Choice)
      requires InScan(est, clock, checkedAt, s0, queue, ch, k, batchKey, selected, remaining)
      requires heap != [] && limit == BatchLimit(config, backend)
      modifies this`state, this`heap, this`pendingBySession, envelopes
      ensures InScan(est, clock, checkedAt, s0, queue', ch', k + 1, batchKey, selected', remaining')
      ensures |heap| < old(|heap|)
    {
      hide DeadlineScheduler.Valid, Scanning, Scanned, Select, TheChoice, Sorted, Lists, BatchLimit;
      SelectStep(config, backend, s0.entries, est, clock, queue, ch, k);
      selected', remaining', ch' := ScanNext(est, clock, k, limit, batchKey, selected, remaining, s0, queue, ch);
      queue' := queue[1..];
      ScanningParts(s0, state, queue', ch');
      HeapInRange();
    }

    lemma Identified(e: Envelope)
      requires Valid() && Owns(e)
      ensures envelopes[e.order] == e && e.order < |envelopes| == |state.entries| && e in envelopes
    {
    }

    /** The head of the queue leads the batch. */
    method TakeLeader(clock: Clock, ghost checkedAt: int, ghost s0: State, ghost queue: seq<nat>, ghost ch: Choice)
      returns (leader: Envelope)
      requires Valid() && heap != [] && state == s0 && s0.heap != [] && Sorted(config, s0.entries, s0.heap)
      requires queue == s0.heap[1..] && ch == Choice([s0.heap[0]], [clock(0)], checkedAt, [])
      modifies this`state, this`heap, this`pendingBySession, envelopes
      ensures Valid() && Scanning(s0, state, queue, ch) && |heap| == |queue|
      ensures s0.heap[0] < |s0.entries| && leader.request == s0.entries[s0.heap[0]].request
      ensures Lists(envelopes, [leader], ch.ids) && Lists(envelopes, [], ch.rest)
    {
      RequestAt(s0);
      ScanStarts(config, s0, clock(0), checkedAt);
      hide DeadlineScheduler.Valid, Sorted, Scanning, Dispatch;
      leader := PopLocked();
      DispatchEnvelope(leader, clock(0));
      Identified(leader);
      ScanningParts(s0, state, queue, ch);
      HeapInRange();
    }

    /** The loop of `TakeBatchLocked` starts with the leader selected. */
    method StartScan(est: Predictor, clock: Clock, ghost checkedAt: int)
      returns (leader: Envelope, ghost queue: seq<nat>, ghost ch: Choice)
      requires Valid() && heap != [] && Sorted(config, state.entries, state.heap)
      modifies this`state, this`heap, this`pendingBySession, envelopes
      ensures InScan(est, clock, checkedAt, old(state), queue, ch, 0, backend.batchKey(leader.request), [leader], [])
    {
      ghost var s0 := state;
      HeapInRange();
      ScanOpens(config, backend, s0, est, clock, checkedAt);
      hide DeadlineScheduler.Valid, Sorted, Scanning, Select, TheChoice, Lists;
      ch, queue := Choice([s0.heap[0]], [clock(0)], checkedAt, []), s0.heap[1..];
      leader := TakeLeader(clock, checkedAt, s0, queue, ch);
    }

    method TakeBatchLocked(est: Predictor, clock: Clock, ghost checkedAt: int) returns (batch: seq<Envelope>)
      requires Valid() && running && heap != [] && Sorted(config, state.entries, state.heap)
      modifies this`state, this`heap, this`pendingBySession, metrics, envelopes
      ensures old(state.heap) != [] && InRange(old(state.entries), old(state.heap))
      ensures Valid() && state == TakeBatch(config, backend, old(state), est, clock, checkedAt)
      ensures state.worker.Executing? && Lists(envelopes, batch, state.worker.batch)
    {
      hide DeadlineScheduler.Valid, DeadlineScheduler.InScan, Sorted, TakeBatch, Lists, BatchLimit;
      ghost var s0 := state;
      var leader;
      ghost var queue, ch;
      leader, queue, ch := StartScan(est, clock, checkedAt);
      var selected, remaining: seq<Envelope> := [leader], [];
      var batchKey := backend.batchKey(leader.request);
      var limit := BatchLimit(config, backend);
      var k := 0;
      while heap != []
        invariant InScan(est, clock, checkedAt, s0, queue, ch, k, batchKey, selected, remaining)
        decreases |heap|
      {
        selected, remaining, queue, ch :=
          ScanStep(est, clock, checkedAt, k, limit, batchKey, selected, remaining, s0, queue, ch);
        k := k + 1;
      }
      ConcludeBatch(est, clock, checkedAt, selected, remaining, s0, queue, ch, k, batchKey);
      batch := selected;
    }

    /** Puts back what the scan set aside, and counts the batch. */
    method ConcludeBatch(est: Predictor, clock: Clock, ghost checkedAt: int, selected: seq<Envelope>,
                         remaining: seq<Envelope>, ghost s0: State, ghost queue: seq<nat>, ghost ch: Choice, k: nat,
                         batchKey: BatchKey)
      requires InScan(est, clock, checkedAt, s0, queue, ch, k, batchKey, selected, remaining)
      requires running && heap == []
      modifies this`state, this`heap, metrics
      ensures s0.heap != [] && InRange(s0.entries, s0.heap)
      ensures Valid() && state == TakeBatch(config, backend, s0, est, clock, checkedAt)
      ensures state.worker.Executing? && Lists(envelopes, selected, state.worker.batch)
    {
      assert queue == [] && |selected| == |ch.ids|;
      ScanEnds(config, backend, s0, state, est, clock, ch, checkedAt, k);
      hide DeadlineScheduler.Valid, Scanning, Select, TheChoice, DispatchAll, Compact, SafeBy, TakeBatch;
      PushBack(remaining, ch.rest);
      TakeBatchParts(config, backend, s0, est, clock, checkedAt, ch, state);
      RecordBatch(|selected|, Executing(ch.ids, SafeBy(config, est, ch)));
    }

    method RecordBatch(n: nat, ghost worker: Worker)
      requires Valid() && running && !worker.Returned?
      modifies this`state, metrics
      ensures Valid() && state == old(state).(tally := Batched(old(state.tally), n), worker := worker)
    {
      metrics.RecordDispatch(n);
      state := state.(tally := metrics.Counters(), worker := worker);
    }

    /** The head of the heap carries the request of its entry. */
    lemma RequestAt(s0: State)
      requires Valid() && s0 == state && heap != []
      ensures s0.heap != [] && s0.heap[0] < |s0.entries| && heap[0].request == s0.entries[s0.heap[0]].request
    {
      HeapMember(0);
    }

    // -------------------------------------------------------------- the backend's reply

    method FailBatch(batch: seq<Envelope>, ghost ids: seq<nat>, now: int)
      requires Valid() && Lists(envelopes, batch, ids) && InRange(state.entries, ids) && Failed in state.tally.status
      modifies this`state, metrics, envelopes
      ensures Valid() && state == FailAll(old(state), ids, now)
    {
      hide DeadlineScheduler.Valid, SchedulerState.Finish;
      for i := 0 to |batch|
        invariant Valid() && state == FailAll(old(state), ids[..i], now) && Failed in state.tally.status
      {
        assert ids[..i + 1][..i] == ids[..i];
        Registered(batch[i], ids[i]);
        Finish(batch[i], Failed, None, now, None);
      }
      assert ids[..|batch|] == ids;
    }

    /** Hands one action to its own request, on time or too late. */
    method DeliverOne(e: Envelope, action: ActionChunk, now: int)
      requires Valid() && Owns(e) && e.order < |state.entries|
      requires Completed in state.tally.status && DeadlineMissed in state.tally.status
      modifies this`state, metrics, e
      ensures Valid() && state == Deliver(config, old(state), e.order, action, now)
    {
      SameRequestOf(e);
      if now > e.request.deadlineNs {
        Finish(e, DeadlineMissed, if config.dropMissedActions then None else Some(action), now, None);
      } else {
        Finish(e, Completed, Some(action), now, None);
      }
    }

    lemma SameRequestOf(e: Envelope)
      requires Valid() && Owns(e) && e.order < |state.entries|
      ensures state.entries[e.order].request == e.request
    {
      assert envelopes[e.order].Value() == state.entries[e.order];
    }

    /** `_execute`, after the backend has answered or raised: an action for another request fails whatever
        is left of the batch. */
    method SettleBatch(batch: seq<Envelope>, reply: Reply, clock: Clock)
      requires Valid() && WellFormed(state) && state.worker.Executing? && Lists(envelopes, batch, state.worker.batch)
      modifies this`state, metrics, envelopes
      ensures Valid() && state == Receive(config, old(state), reply, clock)
    {
      ghost var s0, ids := state, state.worker.batch;
      if reply.Raised? || |reply.actions| != |batch| {
        FailBatch(batch, ids, clock(0));
      } else {
        DeliverBatch(batch, reply.actions, ids, clock);
      }
      WorkerWaits(Waiting(None));
    }

    /** The worker's place in its loop is not a field; the abstract state keeps it. */
    ghost method WorkerWaits(worker: Worker)
      requires Valid() && running && !worker.Returned?
      modifies this`state
      ensures Valid() && state == old(state).(worker := worker)
    {
      state := state.(worker := worker);
    }

    method DeliverBatch(batch: seq<Envelope>, actions: seq<ActionChunk>, ghost ids: seq<nat>, clock: Clock)
      requires Valid() && Lists(envelopes, batch, ids) && InRange(state.entries, ids) && |actions| == |batch|
      requires Completed in state.tally.status && DeadlineMissed in state.tally.status && Failed in state.tally.status
      modifies this`state, metrics, envelopes
      ensures Valid() && state == DeliverFrom(config, old(state), ids, actions, 0, clock)
    {
      hide DeadlineScheduler.Valid, SchedulerState.Finish, Deliver;
      ghost var s0 := state;
      var k := 0;
      while k < |batch|
        invariant k <= |batch| && Valid() && InRange(state.entries, ids)
        invariant Completed in state.tally.status && DeadlineMissed in state.tally.status
                  && Failed in state.tally.status
        invariant DeliverFrom(config, s0, ids, actions, 0, clock) == DeliverFrom(config, state, ids, actions, k, clock)
      {
        Registered(batch[k], ids[k]);
        SameRequestOf(batch[k]);
        var request := batch[k].request;
        if actions[k].requestId != request.requestId || actions[k].sessionId != request.sessionId
           || actions[k].sequenceNo != request.sequenceNo || actions[k].model != request.model {
          FailBatch(batch, ids, clock(k));
          return;
        }
        DeliverKeepsShape(config, state, ids[k], actions[k], clock(k));
        DeliverOne(batch[k], actions[k], clock(k));
        k := k + 1;
      }
    }

    // -------------------------------------------------------------- closing

    method CancelPendingLocked(now: int)
      requires Valid() && Cancelled in state.tally.status
      modifies this`state, metrics, envelopes
      ensures Valid() && InRange(old(state.entries), old(state.heap))
      ensures state == CancelAll(old(state), old(state.heap), now)
    {
      hide DeadlineScheduler.Valid, SchedulerState.Finish;
      HeapInRange();
      ghost var ids := state.heap;
      for i := 0 to |heap|
        invariant Valid() && state == CancelAll(old(state), ids[..i], now) && state.heap == ids && |heap| == |ids|
        invariant Cancelled in state.tally.status
      {
        assert ids[..i + 1][..i] == ids[..i];
        HeapMember(i);
        CancelStep(old(state), ids, i, now);
        var e := heap[i];
        if e.active {
          Deactivate(e);
          Finish(e, Cancelled, None, now, None);
        }
      }
      assert ids[..|heap|] == ids;
    }

    /** `close`, up to the point where it waits for the worker. */
    method CloseLocked(cancelPending: bool, now: int)
      requires Valid() && WellFormed(state) && Inv(config, state)
      modifies this`state, this`heap, this`pendingBySession, this`accepting, metrics, envelopes
      ensures Valid() && state == SchedulerState.Close(old(state), cancelPending, now)
    {
      ReturnedIsClosed(config, state);
      hide Inv, WellFormed, CancelAll;
      if !running {
        return;
      }
      accepting := false;
      state := state.(accepting := false);
      if !cancelPending {
        return;
      }
      CancelStatus(old(state));
      ClearQueue(now);
    }

    method ClearQueue(now: int)
      requires Valid() && Cancelled in state.tally.status
      modifies this`state, this`heap, this`pendingBySession, metrics, envelopes
      ensures InRange(old(state.entries), old(state.heap))
      ensures Valid() && state == CancelAll(old(state), old(state.heap), now).(heap := [], pending := map[])
    {
      hide CancelAll, DeadlineScheduler.Valid;
      CancelPendingLocked(now);
      EmptyQueue();
    }

    method EmptyQueue()
      requires Valid()
      modifies this`state, this`heap, this`pendingBySession
      ensures Valid() && state == old(state).(heap := [], pending := map[])
    {
      heap, pendingBySession := [], map[];
      state := state.(heap := [], pending := map[]);
    }

    // -------------------------------------------------------------- the worker's turn

    method CleanUpLocked(est: Predictor, clock: Clock)
      requires Valid() && WellFormed(state)
      modifies this`state, this`heap, this`pendingBySession, metrics, envelopes
      ensures Valid() && state == CleanUp(config, old(state), est, clock)
    {
      hide DeadlineScheduler.Valid, Sweep;
      HeapInRange();
      RemoveInactiveLocked();
      SweepKeepsShape(state, state.heap, clock(0) + 1, Expired, clock(0));
      ExpireRequestsLocked(clock(0));
      DropUnserviceableRequestsLocked(est(1), clock(1));
    }

    /** One turn of the worker's inner loop: it returns, waits, or takes a batch to execute. */
    method RunTurn(est: Predictor, clock: Clock) returns (batch: Option<seq<Envelope>>)
      requires Valid() && WellFormed(state) && Inv(config, state) && state.worker.Waiting?
      modifies this`state, this`heap, this`pendingBySession, this`running, metrics, envelopes
      ensures Valid() && state == Wake(config, backend, old(state), est, clock)
      ensures batch.Some? <==> state.worker.Executing?
      ensures batch.Some? ==> Lists(envelopes, batch.value, state.worker.batch)
    {
      hide Inv, WellFormed, CleanUp, SchedulerState.Turn, Sorted, DeadlineScheduler.Valid, Lists;
      CleanedForTurn(config, state, est, clock);
      RunningWhileWaiting();
      CleanUpLocked(est, clock);
      batch := DecideTurn(est, clock);
    }

    lemma RunningWhileWaiting()
      requires Valid() && state.worker.Waiting?
      ensures running
    {
    }

    method DecideTurn(est: Predictor, clock: Clock) returns (batch: Option<seq<Envelope>>)
      requires Valid() && running && Sorted(config, state.entries, state.heap) && !state.worker.Executing?
      modifies this`state, this`heap, this`pendingBySession, this`running, metrics, envelopes
      ensures InRange(old(state.entries), old(state.heap))
      ensures Valid() && state == SchedulerState.Turn(config, backend, old(state), est, clock)
      ensures batch.Some? <==> state.worker.Executing?
      ensures batch.Some? ==> Lists(envelopes, batch.value, state.worker.batch)
    {
      hide DeadlineScheduler.Valid, TakeBatch, Sorted, Lists;
      HeapInRange();
      SameAccepting();
      if heap == [] {
        if accepting {
          WorkerWaits(Waiting(None));
        } else {
          WorkerReturns();
        }
        return None;
      }
      HeapMember(0);
      var leader := heap[0].request;
      var now := clock(2);
      var predictedNs := if est(1).Some? then est(1).value else 0;
      var dispatchAt := Min(leader.receivedNs + config.batchWindowNs, leader.deadlineNs - config.guardNs - predictedNs);
      if now < dispatchAt {
        WorkerWaits(Waiting(Some(dispatchAt)));
        return None;
      }
      var taken := TakeBatchLocked(est, (n: nat) => clock(n + 3), clock(1));
      return Some(taken);
    }

    lemma SameAccepting()
      requires Valid()
      ensures accepting == state.accepting
    {
    }

    method WorkerReturns()
      requires Valid()
      modifies this`state, this`running
      ensures Valid() && state == old(state).(worker := Returned)
    {
      running := false;
      state := state.(worker := Returned);
    }

    // -------------------------------------------------------------- what clients and the event loop call

    ghost method Track(e: Event)
      requires Valid() && state == Step(config, backend, Run(config, backend, events), e)
      modifies this`events
      ensures OnTrack() && events == old(events) + [e]
    {
      hide Run, Step, Numbered, Lists;
      SchedulerFreshness.RunStep(config, backend, events, e);
      events := events + [e];
    }

    method Enqueue(request: Request, clock: Clock) returns (future: Option<Envelope>)
      requires OnTrack()
      modifies this, metrics, envelopes
      ensures OnTrack() && events == old(events) + [Enqueued(request, clock)]
      ensures future.None? <==> !old(accepting)
      ensures future.Some? ==> fresh(future.value) && envelopes == old(envelopes) + [future.value]
    {
      hide Run, Inv, WellFormed, DeadlineScheduler.Valid, SchedulerState.Enqueue;
      future := EnqueueLocked(request, clock);
      Track(Enqueued(request, clock));
    }

    /** A turn of the worker, which sleeps on its condition until it is notified or its timer runs out. */
    method Turn(est: Predictor, clock: Clock) returns (batch: Option<seq<Envelope>>)
      requires OnTrack() && state.worker.Waiting?
      modifies this, metrics, envelopes
      ensures OnTrack() && events == old(events) + [Woken(est, clock)]
      ensures batch.Some? <==> state.worker.Executing?
      ensures batch.Some? ==> Lists(envelopes, batch.value, state.worker.batch)
    {
      hide Run, Inv, WellFormed, DeadlineScheduler.Valid, Wake;
      RunIsSound(config, backend, events);
      batch := RunTurn(est, clock);
      Track(Woken(est, clock));
    }

    method Execute(batch: seq<Envelope>, reply: Reply, clock: Clock)
      requires OnTrack() && state.worker.Executing? && Lists(envelopes, batch, state.worker.batch)
      modifies this, metrics, envelopes
      ensures OnTrack() && events == old(events) + [Replied(reply, clock)]
    {
      hide Run, Inv, WellFormed, DeadlineScheduler.Valid, Receive;
      SettleBatch(batch, reply, clock);
      Track(Replied(reply, clock));
    }

    method Close(cancelPending: bool, now: int)
      requires OnTrack()
      modifies this, metrics, envelopes
      ensures OnTrack() && events == old(events) + [Closed(cancelPending, now)]
    {
      hide Run, Inv, WellFormed, DeadlineScheduler.Valid, SchedulerState.Close;
      RunIsSound(config, backend, events);
      CloseLocked(cancelPending, now);
      Track(Closed(cancelPending, now));
    }

    method Start()
      requires OnTrack()
      modifies this
      ensures OnTrack() && events == old(events) + [Started]
    {
      hide Run, Inv, WellFormed;
      if !running {
        accepting, running := true, true;
        state := state.(accepting := true, worker := Waiting(None));
      }
      Track(Started);
    }

    /** Whatever was called in whatever order, the counters of the object add up. */
    lemma {:induction false} CountersAddUp()
      requires OnTrack()
      ensures forall x: Status :: x in metrics.status
      ensures metrics.submitted == |envelopes|
      ensures metrics.submitted
           == |Active(state.entries, state.heap)| + |FlightOf(state)|
              + metrics.status[Completed] + metrics.status[DeadlineMissed] + metrics.status[Expired]
              + metrics.status[Unserviceable] + metrics.status[Replaced] + metrics.status[OutOfOrder]
              + metrics.status[Overloaded] + metrics.status[Failed] + metrics.status[Cancelled]
      ensures metrics.dispatched
           == metrics.status[Completed] + metrics.status[DeadlineMissed] + metrics.status[Failed] + |FlightOf(state)|
    {
      hide Run, Inv, Active, Numbered, Lists;
      SchedulerOutcomes.Conservation(config, backend, events);
      RunIsSound(config, backend, events);
      SubmittedIsCounted(config, state);
    }
  }

  lemma SweepStep(s: State, ids: seq<nat>, i: nat, cutoff: int, status: Status, now: int)
    requires i < |ids| && InRange(s.entries, ids) && status in s.tally.status
    ensures var r := Sweep(s, ids[..i], cutoff, status, now);
            Sweep(s, ids[..i + 1], cutoff, status, now)
            == if r.entries[ids[i]].active && r.entries[ids[i]].request.deadlineNs < cutoff
            then SchedulerState.Retire(r, ids[i], status, now) else r
    ensures Sweep(s, ids[..i + 1], cutoff, status, now).heap == s.heap
    ensures status in Sweep(s, ids[..i + 1], cutoff, status, now).tally.status
  {
    hide SchedulerState.Retire;
    assert ids[..i + 1][..i] == ids[..i];
  }

  lemma DeliverKeepsShape(c: Config, s: State, id: nat, action: ActionChunk, now: int)
    requires id < |s.entries| && Completed in s.tally.status && DeadlineMissed in s.tally.status
    ensures var r := Deliver(c, s, id, action, now);
            |r.entries| == |s.entries| && r.tally.status.Keys == s.tally.status.Keys
  {
  }

  lemma CancelStep(s: State, ids: seq<nat>, i: nat, now: int)
    requires i < |ids| && InRange(s.entries, ids) && Cancelled in s.tally.status
    ensures var r := CancelAll(s, ids[..i], now);
            CancelAll(s, ids[..i + 1], now)
            == if r.entries[ids[i]].active
            then SchedulerState.Finish(SchedulerState.Deactivate(r, ids[i]), ids[i], Cancelled, None, now, None) else r
    ensures CancelAll(s, ids[..i], now).heap == s.heap ==> CancelAll(s, ids[..i + 1], now).heap == s.heap
    ensures Cancelled in CancelAll(s, ids[..i + 1], now).tally.status
  {
    assert ids[..i + 1][..i] == ids[..i];
  }

  lemma ReturnedIsClosed(c: Config, s: State)
    requires Inv(c, s)
    ensures s.worker.Returned? ==> !s.accepting && s.(accepting := false) == s
  {
    hide Sound;
  }

  lemma CancelStatus(s: State)
    requires WellFormed(s)
    ensures Cancelled in s.tally.status
  {
  }

  lemma CleanedForTurn(c: Config, s: State, est: Predictor, clock: Clock)
    requires WellFormed(s) && Inv(c, s) && s.worker.Waiting?
    ensures var r := CleanUp(c, s, est, clock); Sorted(c, r.entries, r.heap) && r.worker == s.worker
  {
    CleanUpCleans(c, s, [], est, clock);
    var r := CleanUp(c, s, est, clock);
    hide Sound, CleanUp, Sorted;
    CleanedIsClean(c, s, r, []);
    CleanedHeap(c, r);
    SchedulerOutcomes.CleanedKeepsWorker(c, s, r, []);
  }

  lemma SubmittedIsCounted(c: Config, s: State)
    requires Inv(c, s)
    ensures s.tally.submitted == |s.entries|
  {
    hide Sound;
  }
}
