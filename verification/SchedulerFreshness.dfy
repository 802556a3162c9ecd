/** Sessions only move forward: when the requests of one session reach the backend in increasing
    sequence order, and exactly which configurations guarantee it. */
module SchedulerFreshness {
  import opened Types
  import opened SchedulerState
  import opened SchedulerInvariants
  import opened SchedulerSafety
  import opened SchedulerOutcomes

  /** What a wake-up that starts a backend call hands over: the log grows by the batch, every request in
      it is the latest admitted of its session, and no two are of one session. */
  lemma {:induction false} DispatchedBatchIsFresh(c: Config, be: Backend, s: State, est: Predictor, clock: Clock)
    requires WellFormed(s) && Inv(c, s) && Orderly(c) && s.worker.Waiting?
    requires Wake(c, be, s, est, clock).worker.Executing?
    ensures var r := Wake(c, be, s, est, clock);
            var batch := r.worker.batch;
            && r.log == s.log + batch && InRange(r.entries, batch)
            && (forall i | 0 <= i < |batch| :: IsLatest(r, batch[i]))
            && (forall i, j | 0 <= i < j < |batch| :: !SameSession(r.entries, batch[i], batch[j]))
  {
    hide Sound, CleanUp, Turn, FreshOk;
    CleanUpCleans(c, s, [], est, clock);
    var s1 := CleanUp(c, s, est, clock);
    CleanedIsClean(c, s, s1, []);
    CleanedIsSound(c, s, s1, []);
    SoundIsFresh(c, s1, []);
    CleanedKeepsLog(c, s, s1, []);
    hide Cleaned;
    TurnIsFresh(c, be, s1, est, clock);
  }

  lemma CleanedKeepsLog(c: Config, s: State, r: State, flight: seq<nat>)
    requires Cleaned(c, s, r, flight)
    ensures r.log == s.log && r.worker == s.worker
  {
  }

  lemma SoundIsFresh(c: Config, s: State, flight: seq<nat>)
    requires Sound(c, s, flight) && Orderly(c)
    ensures FreshOk(s)
  {
  }

  lemma TurnIsFresh(c: Config, be: Backend, s: State, est: Predictor, clock: Clock)
    requires Cleaned(c, s, s, []) && FreshOk(s) && s.worker.Waiting?
    ensures InRange(s.entries, s.heap)
    ensures var r := Turn(c, be, s, est, clock);
            r.worker.Executing? ==>
              var batch := r.worker.batch;
              && r.log == s.log + batch && InRange(r.entries, batch)
              && (forall i | 0 <= i < |batch| :: IsLatest(r, batch[i]))
              && (forall i, j | 0 <= i < j < |batch| :: !SameSession(r.entries, batch[i], batch[j]))
  {
    hide Sound, Cleaned, Sorted, Select, DispatchAll, Active, EntryOk;
    CleanedHeap(c, s);
    if s.heap != [] && clock(2) >= DispatchAt(c, s.entries[s.heap[0]].request, est(1)) {
      var ch := TheChoice(c, be, s.entries, est, (n: nat) => clock(n + 3), s.heap, clock(1));
      ChoiceIsOrdered(c, be, s.entries, est, (n: nat) => clock(n + 3), s.heap, clock(1));
      DispatchKeepsRequests(s, ch.ids, ch.ats);
      DispatchAllEffect(s, ch.ids, ch.ats);
      var r := Turn(c, be, s, est, clock);
      forall i | 0 <= i < |ch.ids| ensures IsLatest(r, ch.ids[i]) {
        assert IsLatest(s, ch.ids[i]);
      }
    }
  }

  lemma RunStep(c: Config, be: Backend, events: seq<Event>, e: Event)
    ensures Run(c, be, events + [e]) == Step(c, be, Run(c, be, events), e)
  {
    hide Inv, WellFormed, Step;
    assert (events + [e])[..|events|] == events;
  }

  lemma {:induction false} RunSplit(c: Config, be: Backend, events: seq<Event>, more: seq<Event>)
    ensures Run(c, be, events + more) == RunFrom(c, be, Run(c, be, events), more)
  {
    hide Inv, WellFormed, Step;
    if more == [] {
      assert events + more == events;
    } else {
      var front := more[..|more| - 1];
      assert (events + more)[..|events + more| - 1] == events + front;
      RunSplit(c, be, events, front);
    }
  }

  // ---------------------------------------------------------------- steps of a quiet scheduler

  /** A request that meets an empty queue joins it. */
  lemma FirstAdmission(c: Config, s: State, r: Request, clock: Clock)
    requires WellFormed(s) && c.Valid() && s.accepting && s.heap == [] && SessionOf(r) !in s.pending && !Stale(c, s, r)
    ensures var id := |s.entries|;
            Enqueue(c, s, r, clock)
            == s.(entries := s.entries + [Entry(r, true, None, None)], heap := [id],
            latest := s.latest[SessionOf(r) := r.sequenceNo],
            pending := if c.coalesceSessions then s.pending[SessionOf(r) := id] else s.pending,
            tally := s.tally.(submitted := s.tally.submitted + 1))
  {
    var s0 := CountSubmit(s);
    assert Compact(s0) == s0;
    assert Expire(s0, clock(0)) == s0;
  }

  function Dispatched(e: Entry, now: int): Entry {
    e.(active := false, dispatchedNs := Some(now))
  }

  lemma NoneActive(es: seq<Entry>, id: nat)
    requires id < |es| && !es[id].active
    ensures Active(es, [id]) == []
  {
    assert [id][..0] == [];
  }

  lemma DispatchOne(s: State, id: nat, at: int)
    requires id < |s.entries|
    ensures DispatchAll(s, [id], [at]) == Dispatch(s, id, at)
  {
    var (ids, ats) := ([id], [at]);
    assert ids[..|ids| - 1] == [] && ats[..|ids| - 1] == [] && ids[|ids| - 1] == id && ats[|ids| - 1] == at;
    assert DispatchAll(s, ids[..|ids| - 1], ats[..|ids| - 1]) == s;
  }

  lemma SoloTake(c: Config, be: Backend, s: State, est: Predictor, clock: Clock, id: nat, checkedAt: int)
    requires id < |s.entries| && s.heap == [id] && s.entries[id].active
    ensures var r := TakeBatch(c, be, s, est, clock, checkedAt);
            && r.entries == s.entries[id := Dispatched(s.entries[id], clock(0))]
            && r.heap == [] && r.log == s.log + [id] && r.latest == s.latest && r.accepting == s.accepting
            && r.pending == ClearPointer(s, id).pending
            && r.worker == Executing([id], checkedAt + (if est(1).Some? then est(1).value else 0) + c.guardNs)
  {
    assert s.heap[1..] == [] && [id][..0] == [] && [clock(0)][..0] == [];
    assert TheChoice(c, be, s.entries, est, clock, s.heap, checkedAt) == Choice([id], [clock(0)], checkedAt, []);
    var s1 := DispatchAll(s, [id], [clock(0)]);
    DispatchOne(s, id, clock(0));
    DispatchEffect(s, id, clock(0));
    hide Dispatch, TheChoice, ClearPointer;
    NoneActive(s1.entries, id);
  }

  /** When the clean-up passes have nothing to do and the dispatch time has come, a queue of one is dispatched. */
  lemma SoloDispatch(c: Config, be: Backend, s: State, est: Predictor, id: nat, now: int)
    requires WellFormed(s) && s.worker.Waiting? && id < |s.entries| && s.heap == [id] && s.entries[id].active
    requires s.entries[id].request.deadlineNs > now && (!c.dropUnserviceable || est(1).None?)
    requires now >= DispatchAt(c, s.entries[id].request, est(1))
    ensures var r := Wake(c, be, s, est, (n: nat) => now);
            && r.entries == s.entries[id := Dispatched(s.entries[id], now)]
            && r.heap == [] && r.log == s.log + [id] && r.latest == s.latest && r.accepting == s.accepting
            && r.pending == ClearPointer(s, id).pending
            && r.worker == Executing([id], now + (if est(1).Some? then est(1).value else 0) + c.guardNs)
  {
    hide TakeBatch, CleanUp, ClearPointer, DispatchAt, WellFormed, Turn;
    SoloCleanUp(c, s, est, id, now);
    SoloTurn(c, be, s, est, (n: nat) => now, id, now);
  }

  lemma SoloTurn(c: Config, be: Backend, s: State, est: Predictor, clock: Clock, id: nat, now: int)
    requires id < |s.entries| && s.heap == [id] && s.entries[id].active && forall n: nat :: clock(n) == now
    requires now >= DispatchAt(c, s.entries[id].request, est(1))
    ensures var r := Turn(c, be, s, est, clock);
            && r.entries == s.entries[id := Dispatched(s.entries[id], now)]
            && r.heap == [] && r.log == s.log + [id] && r.latest == s.latest && r.accepting == s.accepting
            && r.pending == ClearPointer(s, id).pending
            && r.worker == Executing([id], now + (if est(1).Some? then est(1).value else 0) + c.guardNs)
  {
    hide TakeBatch, ClearPointer, DispatchAt;
    SoloTake(c, be, s, est, (n: nat) => clock(n + 3), id, now);
  }

  lemma SoloCleanUp(c: Config, s: State, est: Predictor, id: nat, now: int)
    requires WellFormed(s) && id < |s.entries| && s.heap == [id] && s.entries[id].active
    requires s.entries[id].request.deadlineNs > now
    requires !c.dropUnserviceable || est(1).None?
    ensures CleanUp(c, s, est, (n: nat) => now) == s
  {
    assert [id][..0] == [];
    assert Active(s.entries, [id]) == [id];
    assert Compact(s) == s;
    assert Sweep(s, [id], now + 1, Expired, now) == s;
  }

  /** A backend exception fails a batch of one. */
  lemma SoloFailure(c: Config, s: State, id: nat, now: int)
    requires WellFormed(s) && s.worker.Executing? && id < |s.entries| && s.worker.batch == [id]
    ensures var r := Receive(c, s, Raised, (n: nat) => now);
            && |r.entries| == |s.entries| && r.entries[id].request == s.entries[id].request
            && (forall x: nat | x < |s.entries| && x != id :: r.entries[x] == s.entries[x])
            && r.heap == s.heap && r.log == s.log && r.latest == s.latest && r.pending == s.pending
            && r.accepting == s.accepting && r.worker == Waiting(None)
  {
    assert [id][..0] == [];
    assert FailAll(s, [id], now) == Finish(s, id, Failed, None, now, None);
  }

  // ---------------------------------------------------------------- exactly which configurations are orderly

  /** Over any run, the requests of a session reach the backend in increasing sequence order, despite
      deadline order, replacement and expiry. */
  lemma {:induction false} SessionsMoveForward(c: Config, be: Backend, events: seq<Event>)
    requires Orderly(c)
    ensures var s := Run(c, be, events);
            InRange(s.entries, s.log) && Rising(s.entries, s.log)
  {
    var s := Run(c, be, events);
    RunIsSound(c, be, events);
    SoundIsFresh(c, s, FlightOf(s));
    hide Run, Sound;
  }

  function Observation(sequenceNo: int, deadlineNs: int, receivedNs: int): Request {
    Request("request", "robot", "model", "default", deadlineNs, receivedNs, sequenceNo, 0)
  }

  const NO_ESTIMATE: Predictor := (n: int) => None

  const SINGLE_BACKEND: Backend := Backend(1, (r: Request) => [])

  /** A state with an idle worker and nothing pending, whose dispatch log is known. */
  ghost predicate Idle(s: State, log: seq<nat>, n: nat) {
    && WellFormed(s) && s.accepting && s.worker.Waiting? && s.heap == [] && s.pending == map[]
    && s.log == log && |s.entries| == n
  }

  /** A queue of one request, freshly admitted by an idle scheduler. */
  ghost predicate Loaded(c: Config, s: State, s1: State, r: Request) {
    var id := |s.entries|;
    && WellFormed(s1) && Inv(c, s1)
    && s1.entries == s.entries + [Entry(r, true, None, None)] && s1.heap == [id]
    && s1.log == s.log && s1.accepting && s1.worker.Waiting?
    && ClearPointer(s1, id).pending == map[]
  }

  lemma LoadIdle(c: Config, s: State, r: Request, now: int)
    requires c.Valid() && Inv(c, s) && Idle(s, s.log, |s.entries|) && !Stale(c, s, r)
    ensures Loaded(c, s, Enqueue(c, s, r, (n: nat) => now), r)
  {
    hide Inv, Stale;
    var s1 := Enqueue(c, s, r, (n: nat) => now);
    FirstAdmission(c, s, r, (n: nat) => now);
    EnqueueKeepsInv(c, s, r, (n: nat) => now);
    InvIsWellFormed(c, s1);
    hide Enqueue, ClearPointer;
    ClearedPointers(c, s, s1, r);
  }

  lemma DispatchLoaded(c: Config, s: State, s1: State, r: Request, now: int)
    requires Loaded(c, s, s1, r) && r.deadlineNs > now >= DispatchAt(c, r, None)
    ensures var s2 := Wake(c, SINGLE_BACKEND, s1, NO_ESTIMATE, (n: nat) => now);
            && WellFormed(s2) && Inv(c, s2)
            && s2.entries == s1.entries[|s.entries| := Dispatched(s1.entries[|s.entries|], now)]
            && s2.heap == [] && s2.log == s.log + [|s.entries|] && s2.pending == map[] && s2.accepting
            && s2.worker.Executing? && s2.worker.batch == [|s.entries|]
  {
    hide Inv, ClearPointer, DispatchAt, Wake;
    SoloDispatch(c, SINGLE_BACKEND, s1, NO_ESTIMATE, |s.entries|, now);
    WakeKeepsInv(c, SINGLE_BACKEND, s1, NO_ESTIMATE, (n: nat) => now);
    InvIsWellFormed(c, Wake(c, SINGLE_BACKEND, s1, NO_ESTIMATE, (n: nat) => now));
  }

  lemma FailDispatched(c: Config, s: State, s1: State, s2: State, r: Request, now: int)
    requires Loaded(c, s, s1, r) && WellFormed(s2) && Inv(c, s2)
    requires s2.entries == s1.entries[|s.entries| := Dispatched(s1.entries[|s.entries|], now)]
    requires s2.heap == [] && s2.log == s.log + [|s.entries|] && s2.pending == map[] && s2.accepting
    requires s2.worker.Executing? && s2.worker.batch == [|s.entries|]
    ensures var t := Receive(c, s2, Raised, (n: nat) => now);
            && Inv(c, t) && Idle(t, s.log + [|s.entries|], |s.entries| + 1)
            && (forall id: nat | id < |s.entries| :: t.entries[id].request == s.entries[id].request)
            && t.entries[|s.entries|].request == r
  {
    hide Inv, Receive, ClearPointer;
    SoloFailure(c, s2, |s.entries|, now);
    ReceiveKeepsInv(c, s2, Raised, (n: nat) => now);
    InvIsWellFormed(c, Receive(c, s2, Raised, (n: nat) => now));
  }

  /** The events of a request that goes through the scheduler on its own and fails at the backend. */
  function Trip(r: Request, now: int): seq<Event> {
    [Enqueued(r, (n: nat) => now), Woken(NO_ESTIMATE, (n: nat) => now), Replied(Raised, (n: nat) => now)]
  }

  lemma TripSteps(c: Config, s: State, r: Request, now: int)
    requires WellFormed(s) && Inv(c, s)
    ensures var s1 := Enqueue(c, s, r, (n: nat) => now);
            && WellFormed(s1) && Inv(c, s1)
            && var s2 := Wake(c, SINGLE_BACKEND, s1, NO_ESTIMATE, (n: nat) => now);
            && WellFormed(s2) && Inv(c, s2)
            && RunFrom(c, SINGLE_BACKEND, s, Trip(r, now)) == Receive(c, s2, Raised, (n: nat) => now)
  {
    hide Inv, WellFormed, Enqueue, Wake, Receive;
    var clock := (n: nat) => now;
    EnqueueKeepsInv(c, s, r, clock);
    InvIsWellFormed(c, Enqueue(c, s, r, clock));
    WakeKeepsInv(c, SINGLE_BACKEND, Enqueue(c, s, r, clock), NO_ESTIMATE, clock);
    InvIsWellFormed(c, Wake(c, SINGLE_BACKEND, Enqueue(c, s, r, clock), NO_ESTIMATE, clock));
    var trip := Trip(r, now);
    assert trip[..|trip| - 1] == [Enqueued(r, clock), Woken(NO_ESTIMATE, clock)];
    var two := trip[..|trip| - 1];
    assert two[..|two| - 1] == [Enqueued(r, clock)];
    var one := two[..|two| - 1];
    assert one[..|one| - 1] == [];
    assert RunFrom(c, SINGLE_BACKEND, s, one) == Enqueue(c, s, r, clock);
    assert RunFrom(c, SINGLE_BACKEND, s, two) == Wake(c, SINGLE_BACKEND, Enqueue(c, s, r, clock), NO_ESTIMATE, clock);
  }

  /** The idle scheduler after one more request has passed through it. */
  ghost predicate PassedThrough(s: State, t: State, r: Request) {
    && Idle(t, s.log + [|s.entries|], |s.entries| + 1)
    && (forall id: nat | id < |s.entries| :: t.entries[id].request == s.entries[id].request)
    && t.entries[|s.entries|].request == r
  }

  lemma TripEffect(c: Config, s: State, r: Request, now: int)
    requires Inv(c, s) && ReadyFor(c, s, r)
    requires c.Valid() && r.deadlineNs > now >= DispatchAt(c, r, None)
    ensures WellFormed(s)
    ensures PassedThrough(s, RunFrom(c, SINGLE_BACKEND, s, Trip(r, now)), r)
  {
    LoadIdle(c, s, r, now);
    TripSteps(c, s, r, now);
    var s1 := Enqueue(c, s, r, (n: nat) => now);
    hide Inv, Enqueue, Wake, Receive, DispatchAt, Stale, Loaded, Idle, RunFrom, Trip;
    LoadedIsWellFormed(c, s, s1, r);
    DispatchLoaded(c, s, s1, r, now);
    FailDispatched(c, s, s1, Wake(c, SINGLE_BACKEND, s1, NO_ESTIMATE, (n: nat) => now), r, now);
  }

  lemma LoadedIsWellFormed(c: Config, s: State, s1: State, r: Request)
    requires Loaded(c, s, s1, r)
    ensures WellFormed(s1) && Inv(c, s1)
  {
  }

  ghost predicate ReadyFor(c: Config, s: State, r: Request) {
    Idle(s, s.log, |s.entries|) && !Stale(c, s, r)
  }

  lemma RoundTrip(c: Config, events: seq<Event>, r: Request, now: int)
    requires ReadyFor(c, Run(c, SINGLE_BACKEND, events), r)
    requires c.Valid() && r.deadlineNs > now >= DispatchAt(c, r, None)
    ensures PassedThrough(Run(c, SINGLE_BACKEND, events), Run(c, SINGLE_BACKEND, events + Trip(r, now)), r)
  {
    hide Inv, WellFormed, Run, RunFrom, DispatchAt, ReadyFor, Trip, PassedThrough;
    RunSplit(c, SINGLE_BACKEND, events, Trip(r, now));
    RunIsSound(c, SINGLE_BACKEND, events);
    TripEffect(c, Run(c, SINGLE_BACKEND, events), r, now);
  }

  lemma ClearedPointers(c: Config, s: State, s1: State, r: Request)
    requires s.pending == map[] && |s1.entries| == |s.entries| + 1 && s1.entries[|s.entries|].request == r
    requires s1.pending == if c.coalesceSessions then s.pending[SessionOf(r) := |s.entries|] else s.pending
    ensures ClearPointer(s1, |s.entries|).pending == map[]
  {
  }

  lemma InitIsIdle(c: Config)
    ensures Inv(c, INIT) && Idle(INIT, [], 0)
  {
    InitIsInv(c);
    InvIsWellFormed(c, INIT);
  }

  ghost predicate Backwards(s: State) {
    InRange(s.entries, s.log) && !Rising(s.entries, s.log)
  }

  lemma ReversedPair(s: State, a: nat, b: nat)
    requires InRange(s.entries, s.log) && 2 <= |s.log| && s.log[0] == a && s.log[1] == b
    requires SameSession(s.entries, a, b) && SequenceOf(s.entries, a) >= SequenceOf(s.entries, b)
    ensures Backwards(s)
  {
  }

  /** Without the sequence check a session can go backwards: an older observation sent after a newer one
      has been served is dispatched after it. */
  lemma {:induction false} UncheckedSequencesGoBack(c: Config) returns (events: seq<Event>)
    requires c.Valid() && !c.enforceMonotonicSequence
    ensures Backwards(Run(c, SINGLE_BACKEND, events))
  {
    var now := c.batchWindowNs + 10;
    var (r1, r2) := (Observation(2, now + 90, 10), Observation(1, now + 90, 10));
    InitIsIdle(c);
    hide Run, Inv, Trip, WellFormed;
    RunOfNothing(c);
    RoundTrip(c, [], r1, now);
    var first := [] + Trip(r1, now);
    RoundTrip(c, first, r2, now);
    events := first + Trip(r2, now);
    BackwardsAfterTwo(c, Run(c, SINGLE_BACKEND, first), Run(c, SINGLE_BACKEND, events), r1, r2);
  }

  lemma RunOfNothing(c: Config)
    ensures Run(c, SINGLE_BACKEND, []) == INIT
  {
  }

  lemma BackwardsAfterTwo(c: Config, s: State, t: State, r1: Request, r2: Request)
    requires PassedThrough(INIT, s, r1) && PassedThrough(s, t, r2)
    requires SessionOf(r1) == SessionOf(r2) && r1.sequenceNo >= r2.sequenceNo
    ensures Backwards(t)
  {
    assert s.log == [0] && t.log == [0, 1];
    assert t.log[0] == 0 && t.log[1] == 1;
    assert t.entries[0].request == r1;
    assert SameSession(t.entries, 0, 1);
  }

  // ---------------------------------------------------------------- two requests of one session in the queue

  /** A second request joins a queue of one in front of the first. */
  lemma SecondAdmission(c: Config, s: State, r: Request, now: int)
    requires WellFormed(s) && s.accepting && s.heap == [0] && |s.entries| == 1 && s.entries[0].active
    requires !c.coalesceSessions && !Stale(c, s, r) && (c.maxPending.Some? ==> c.maxPending.value >= 2)
    requires s.entries[0].request.deadlineNs > now
    requires Before(SortKey(c, r, 1), SortKey(c, s.entries[0].request, 0))
    ensures var t := Enqueue(c, s, r, (n: nat) => now);
            && t.entries == s.entries + [Entry(r, true, None, None)] && t.heap == [1, 0] && t.pending == s.pending
            && t.log == s.log && t.worker == s.worker && t.accepting
  {
    var s0 := CountSubmit(s);
    assert [0][..0] == [];
    assert Active(s.entries, [0]) == [0];
    assert Compact(s0) == s0;
    assert Sweep(s0, [0], now + 1, Expired, now) == s0;
    assert Expire(s0, now) == s0;
  }

  lemma PairCleanUp(c: Config, s: State, now: int)
    requires WellFormed(s) && s.heap == [1, 0] && |s.entries| == 2
    requires forall id: nat | id < 2 :: s.entries[id].active && s.entries[id].request.deadlineNs > now
    ensures CleanUp(c, s, NO_ESTIMATE, (n: nat) => now) == s
  {
    assert [1, 0][..1] == [1] && [1][..0] == [];
    assert Active(s.entries, [1]) == [1];
    assert Active(s.entries, [1, 0]) == [1, 0];
    assert Compact(s) == s;
    assert Sweep(s, [1], now + 1, Expired, now) == s;
    assert Sweep(s, [1, 0], now + 1, Expired, now) == s;
  }

  lemma PairTake(c: Config, s: State, clock: Clock, checkedAt: int)
    requires s.heap == [1, 0] && |s.entries| == 2 && s.entries[0].active && s.entries[1].active && c.Valid()
    ensures var r := TakeBatch(c, SINGLE_BACKEND, s, NO_ESTIMATE, clock, checkedAt);
            && r.entries == s.entries[1 := Dispatched(s.entries[1], clock(0))]
            && r.heap == [0] && r.log == s.log + [1] && r.accepting == s.accepting
            && r.worker.Executing? && r.worker.batch == [1]
  {
    assert s.heap[1..] == [0] && [0][1..] == [];
    var start := Choice([1], [clock(0)], checkedAt, []);
    assert TheChoice(c, SINGLE_BACKEND, s.entries, NO_ESTIMATE, clock, s.heap, checkedAt)
        == Choice([1], [clock(0)], checkedAt, [0]);
    var s1 := DispatchAll(s, [1], [clock(0)]);
    DispatchOne(s, 1, clock(0));
    DispatchEffect(s, 1, clock(0));
    hide Dispatch, TheChoice, ClearPointer;
    assert [1, 0][..1] == [1];
    NoneActive(s1.entries, 1);
    assert Active(s1.entries, [1, 0]) == Active(s1.entries, [1]) + [0];
  }

  lemma PairTurn(c: Config, s: State, clock: Clock, now: int)
    requires s.heap == [1, 0] && |s.entries| == 2 && s.entries[0].active && s.entries[1].active && c.Valid()
    requires now >= DispatchAt(c, s.entries[1].request, None) && forall n: nat :: clock(n) == now
    ensures var r := Turn(c, SINGLE_BACKEND, s, NO_ESTIMATE, clock);
            && r.entries == s.entries[1 := Dispatched(s.entries[1], now)]
            && r.heap == [0] && r.log == s.log + [1] && r.accepting == s.accepting
            && r.worker.Executing? && r.worker.batch == [1]
  {
    hide TakeBatch, DispatchAt;
    PairTake(c, s, (n: nat) => clock(n + 3), now);
  }

  /** The queue of two after the first of them was dispatched and failed. */
  ghost predicate Halfway(s: State, r1: Request, r2: Request) {
    && WellFormed(s) && |s.entries| == 2 && s.entries[0].request == r1 && s.entries[1].request == r2
    && s.entries[0].active && s.heap == [0] && s.log == [1] && s.worker.Waiting?
  }

  /** The queue of two, the later one in front. */
  ghost predicate Queued(s: State, r1: Request, r2: Request) {
    && s.heap == [1, 0] && s.entries == [Entry(r1, true, None, None), Entry(r2, true, None, None)]
    && s.log == [] && s.worker.Waiting?
  }

  ghost predicate FrontDispatched(s: State, r1: Request, r2: Request) {
    && |s.entries| == 2 && s.entries[0] == Entry(r1, true, None, None) && s.entries[1].request == r2
    && s.heap == [0] && s.log == [1] && s.worker.Executing? && s.worker.batch == [1]
  }

  lemma PairDispatchesFront(c: Config, s: State, r1: Request, r2: Request, now: int)
    requires WellFormed(s) && c.Valid() && Queued(s, r1, r2)
    requires r1.deadlineNs > now && r2.deadlineNs > now && now >= DispatchAt(c, r2, None)
    ensures FrontDispatched(Wake(c, SINGLE_BACKEND, s, NO_ESTIMATE, (n: nat) => now), r1, r2)
  {
    hide Turn, DispatchAt, CleanUp, WellFormed;
    PairCleanUp(c, s, now);
    PairTurn(c, s, (n: nat) => now, now);
  }

  lemma PairFailsFront(c: Config, s: State, r1: Request, r2: Request, now: int)
    requires WellFormed(s) && FrontDispatched(s, r1, r2) && WellFormed(Receive(c, s, Raised, (n: nat) => now))
    ensures Halfway(Receive(c, s, Raised, (n: nat) => now), r1, r2)
  {
    hide Receive, WellFormed;
    SoloFailure(c, s, 1, now);
  }

  lemma HalfwayGoesBack(c: Config, s: State, r1: Request, r2: Request, now: int)
    requires Halfway(s, r1, r2) && SessionOf(r1) == SessionOf(r2) && r2.sequenceNo >= r1.sequenceNo
    requires r1.deadlineNs > now >= DispatchAt(c, r1, None)
    ensures Backwards(Wake(c, SINGLE_BACKEND, s, NO_ESTIMATE, (n: nat) => now))
  {
    hide DispatchAt, Wake;
    SoloDispatch(c, SINGLE_BACKEND, s, NO_ESTIMATE, 0, now);
    var t := Wake(c, SINGLE_BACKEND, s, NO_ESTIMATE, (n: nat) => now);
    assert t.log == [1, 0];
    ReversedPair(t, 1, 0);
  }

  lemma FirstIsLoaded(c: Config, r1: Request, now: int)
    requires c.Valid()
    ensures Loaded(c, INIT, Run(c, SINGLE_BACKEND, [Enqueued(r1, (n: nat) => now)]), r1)
    ensures Run(c, SINGLE_BACKEND, [Enqueued(r1, (n: nat) => now)]).latest == map[SessionOf(r1) := r1.sequenceNo]
    ensures !c.coalesceSessions ==> Run(c, SINGLE_BACKEND, [Enqueued(r1, (n: nat) => now)]).pending == map[]
  {
    InitIsIdle(c);
    LoadIdle(c, INIT, r1, now);
    FirstAdmission(c, INIT, r1, (n: nat) => now);
    RunOfNothing(c);
    hide Enqueue, Run, Inv, WellFormed, Loaded;
    RunStep(c, SINGLE_BACKEND, [], Enqueued(r1, (n: nat) => now));
    assert [] + [Enqueued(r1, (n: nat) => now)] == [Enqueued(r1, (n: nat) => now)];
  }

  lemma PairIsQueued(c: Config, r1: Request, r2: Request, now: int)
    requires c.Valid() && !c.coalesceSessions && c.maxPending != Some(1)
    requires r1.deadlineNs > now && r1.sequenceNo < r2.sequenceNo && SessionOf(r1) == SessionOf(r2)
    requires Before(SortKey(c, r2, 1), SortKey(c, r1, 0))
    ensures Queued(Run(c, SINGLE_BACKEND, [Enqueued(r1, (n: nat) => now)] + [Enqueued(r2, (n: nat) => now)]), r1, r2)
  {
    hide Run, Enqueue, Inv, WellFormed, Before, SortKey;
    FirstIsLoaded(c, r1, now);
    RunStep(c, SINGLE_BACKEND, [Enqueued(r1, (n: nat) => now)], Enqueued(r2, (n: nat) => now));
    SecondAdmission(c, Run(c, SINGLE_BACKEND, [Enqueued(r1, (n: nat) => now)]), r2, now);
  }

  lemma PairRunTakesFront(c: Config, r1: Request, r2: Request, now: int, two: seq<Event>)
    requires c.Valid() && Queued(Run(c, SINGLE_BACKEND, two), r1, r2)
    requires r1.deadlineNs > now && r2.deadlineNs > now && now >= DispatchAt(c, r2, None)
    ensures FrontDispatched(Run(c, SINGLE_BACKEND, two + [Woken(NO_ESTIMATE, (n: nat) => now)]), r1, r2)
  {
    hide Inv, Run, WellFormed, Wake, Queued, FrontDispatched, DispatchAt;
    RunStep(c, SINGLE_BACKEND, two, Woken(NO_ESTIMATE, (n: nat) => now));
    PairDispatchesFront(c, Run(c, SINGLE_BACKEND, two), r1, r2, now);
  }

  lemma PairRunFailsFront(c: Config, r1: Request, r2: Request, now: int, three: seq<Event>)
    requires c.Valid() && FrontDispatched(Run(c, SINGLE_BACKEND, three), r1, r2)
    ensures Halfway(Run(c, SINGLE_BACKEND, three + [Replied(Raised, (n: nat) => now)]), r1, r2)
  {
    hide Inv, Run, WellFormed, Receive, Halfway, FrontDispatched;
    RunStep(c, SINGLE_BACKEND, three, Replied(Raised, (n: nat) => now));
    PairFailsFront(c, Run(c, SINGLE_BACKEND, three), r1, r2, now);
  }

  lemma PairRunGoesBack(c: Config, r1: Request, r2: Request, now: int, four: seq<Event>)
    requires c.Valid() && Halfway(Run(c, SINGLE_BACKEND, four), r1, r2)
    requires SessionOf(r1) == SessionOf(r2) && r2.sequenceNo >= r1.sequenceNo
    requires r1.deadlineNs > now >= DispatchAt(c, r1, None)
    ensures Backwards(Run(c, SINGLE_BACKEND, four + [Woken(NO_ESTIMATE, (n: nat) => now)]))
  {
    hide Inv, Run, WellFormed, Wake, Halfway, Backwards, DispatchAt;
    RunStep(c, SINGLE_BACKEND, four, Woken(NO_ESTIMATE, (n: nat) => now));
    HalfwayGoesBack(c, Run(c, SINGLE_BACKEND, four), r1, r2, now);
  }

  /** Without coalescing, and with room for two, a session can go backwards: a newer observation with the
      earlier deadline (or arrival) overtakes an older one in the queue. */
  lemma {:induction false} UncoalescedSessionsGoBack(c: Config) returns (events: seq<Event>)
    requires c.Valid() && !c.coalesceSessions && c.maxPending != Some(1)
    ensures Backwards(Run(c, SINGLE_BACKEND, events))
  {
    hide Run, Backwards, Queued, FrontDispatched, Halfway;
    var now := c.batchWindowNs + 10;
    var (r1, r2) := (Observation(1, now + 190, 10), Observation(2, now + 90, 5));
    PairIsQueued(c, r1, r2, now);
    var two := [Enqueued(r1, (n: nat) => now)] + [Enqueued(r2, (n: nat) => now)];
    PairRunTakesFront(c, r1, r2, now, two);
    var three := two + [Woken(NO_ESTIMATE, (n: nat) => now)];
    PairRunFailsFront(c, r1, r2, now, three);
    var four := three + [Replied(Raised, (n: nat) => now)];
    PairRunGoesBack(c, r1, r2, now, four);
    events := four + [Woken(NO_ESTIMATE, (n: nat) => now)];
  }

  /** A configuration keeps every session moving forward over all runs if and only if it checks sequence
      numbers and either coalesces sessions or admits a single pending request. */
  lemma {:induction false} OrderlyExactly(c: Config)
    requires c.Valid()
    ensures Orderly(c) <==> forall be: Backend, events: seq<Event> :: !Backwards(Run(c, be, events))
  {
    hide Run;
    if Orderly(c) {
      forall be: Backend, events: seq<Event> ensures !Backwards(Run(c, be, events)) {
        SessionsMoveForward(c, be, events);
      }
    } else if !c.enforceMonotonicSequence {
      var events := UncheckedSequencesGoBack(c);
    } else {
      var events := UncoalescedSessionsGoBack(c);
    }
  }
}
