/** What a wake-up of the worker makes of every request, and for whom the batching wait is safe. */
module SchedulerWaiting {
  import opened Types
  import opened SchedulerState
  import opened SchedulerInvariants
  import opened SchedulerSafety
  import opened SchedulerScan
  import opened SchedulerOutcomes
  import opened SchedulerBatches
  import opened SchedulerFreshness
  import opened SchedulerGathering
  import SchedulerInversion

  /** What must be left before a deadline for a request to be served alone: the guard and the prediction. */
  function Reserve(c: Config, est: Predictor): int {
    c.guardNs + if est(1).Some? then est(1).value else 0
  }

  /** The planned wake-up looks only at the head of the queue; whether that is enough for all is up to the
      order, or to there being nobody else. */
  predicate HeadIsEarliest(c: Config) {
    c.policy.EDF? || c.maxPending == Some(1)
  }

  // ---------------------------------------------------------------- the state in which the worker waits

  lemma TakingIsExecuting(c: Config, be: Backend, s: State, est: Predictor, clock: Clock, checkedAt: int)
    requires s.heap != [] && InRange(s.entries, s.heap)
    ensures TakeBatch(c, be, s, est, clock, checkedAt).worker.Executing?
  {
  }

  lemma WaitingTurn(c: Config, be: Backend, s: State, est: Predictor, clock: Clock, at: int)
    requires InRange(s.entries, s.heap) && Turn(c, be, s, est, clock).worker == Waiting(Some(at))
    ensures s.heap != [] && at == DispatchAt(c, s.entries[s.heap[0]].request, est(1)) && clock(2) < at
    ensures Turn(c, be, s, est, clock) == s.(worker := Waiting(Some(at)))
  {
    hide TakeBatch, DispatchAt;
    if s.heap != [] && clock(2) >= DispatchAt(c, s.entries[s.heap[0]].request, est(1)) {
      TakingIsExecuting(c, be, s, est, (n: nat) => clock(n + 3), clock(1));
    }
  }

  /** A worker that waits has left the cleaned queue as it was. */
  lemma WaitingState(c: Config, be: Backend, s: State, est: Predictor, clock: Clock, at: int)
    requires WellFormed(s) && Inv(c, s) && s.worker.Waiting?
    requires Wake(c, be, s, est, clock).worker == Waiting(Some(at))
    ensures var (s1, r) := (CleanUp(c, s, est, clock), Wake(c, be, s, est, clock));
            && r == s1.(worker := Waiting(Some(at))) && s1.heap != [] && clock(2) < at
            && Sorted(c, s1.entries, s1.heap) && AllActive(s1.entries, s1.heap) && Cleaned(c, s1, s1, [])
            && at == DispatchAt(c, s1.entries[s1.heap[0]].request, est(1))
            && WellFormed(r) && Inv(c, r)
  {
    WakeKeepsInv(c, be, s, est, clock);
    InvIsWellFormed(c, Wake(c, be, s, est, clock));
    hide Inv, WellFormed, CleanUp, Turn, Cleaned, Sorted, DispatchAt;
    CleanedQueue(c, s, est, clock);
    WaitingTurn(c, be, CleanUp(c, s, est, clock), est, clock, at);
  }

  lemma HeadDeadlineIsLeast(c: Config, s: State, id: nat)
    requires Cleaned(c, s, s, []) && Sorted(c, s.entries, s.heap) && s.heap != []
    requires c.policy.EDF? || |s.heap| <= 1
    requires id < |s.entries| && s.entries[id].active
    ensures DeadlineOf(s.entries, s.heap[0]) <= DeadlineOf(s.entries, id)
  {
    assert id in s.heap;
    hide Sound;
    if id != s.heap[0] {
      TailOf(s.heap, id);
      HeadIsBefore(c, s.entries, s.heap, id);
    }
  }

  /** The earlier of two instants: when the leader has been in the queue for the batching window, and the last at
      which it can be served alone before its deadline. */
  predicate IsDispatchTime(c: Config, leader: Request, est: Predictor, at: int) {
    var (due, last) := (leader.receivedNs + c.batchWindowNs, leader.deadlineNs - Reserve(c, est));
    at <= due && at <= last && (at == due || at == last)
  }

  lemma DispatchTime(c: Config, leader: Request, est: Predictor)
    ensures IsDispatchTime(c, leader, est, DispatchAt(c, leader, est(1)))
  {
  }

  lemma PlannedDispatch(c: Config, leader: Request, est: Predictor)
    ensures DispatchAt(c, leader, est(1)) <= leader.deadlineNs - Reserve(c, est)
  {
  }

  /** Where the head has the earliest deadline of all, the planned wake-up leaves the guard and the predicted
      latency before the deadline of every pending request. */
  lemma {:induction false} PlannedWaitIsSafe(c: Config, be: Backend, s: State, est: Predictor, clock: Clock, at: int,
                                             id: nat)
    requires WellFormed(s) && Inv(c, s) && HeadIsEarliest(c) && s.worker.Waiting?
    requires Wake(c, be, s, est, clock).worker == Waiting(Some(at))
    requires id < |Wake(c, be, s, est, clock).entries| && Wake(c, be, s, est, clock).entries[id].active
    ensures var r := Wake(c, be, s, est, clock);
            && r.heap != [] && InRange(r.entries, r.heap) && r.entries[r.heap[0]].active
            && DeadlineOf(r.entries, r.heap[0]) <= DeadlineOf(r.entries, id)
            && at <= DeadlineOf(r.entries, r.heap[0]) - Reserve(c, est)
  {
    WaitingState(c, be, s, est, clock, at);
    hide Inv, WellFormed, CleanUp, Wake, Cleaned, DispatchAt;
    var s1 := CleanUp(c, s, est, clock);
    if c.maxPending == Some(1) {
      QueueIsSmall(c, s, est, clock);
    }
    HeadDeadlineIsLeast(c, s1, id);
    PlannedDispatch(c, s1.entries[s1.heap[0]].request, est);
    HeadIsActive(s1.entries, s1.heap);
  }

  lemma HeadIsActive(es: seq<Entry>, heap: seq<nat>)
    requires AllActive(es, heap) && heap != []
    ensures heap[0] < |es| && es[heap[0]].active
  {
  }

  // ---------------------------------------------------------------- whom the next wake-up retires

  /** Whether the clean-up passes leave a pending request alone. */
  predicate Spared(c: Config, e: Entry, est: Predictor, clock: Clock) {
    clock(0) < e.request.deadlineNs
    && (c.dropUnserviceable && est(1).Some? ==> clock(1) + est(1).value + c.guardNs <= e.request.deadlineNs)
  }

  /** The clean-up passes change no envelope if and only if they spare every pending one. */
  lemma CleanUpSparesExactly(c: Config, s: State, est: Predictor, clock: Clock)
    requires WellFormed(s) && Inv(c, s)
    ensures CleanUp(c, s, est, clock).entries == s.entries
       <==> forall id: nat | id < |s.entries| && s.entries[id].active :: Spared(c, s.entries[id], est, clock)
  {
    hide Inv, WellFormed, CleanUp;
    CleanUpKeepsLength(c, s, est, clock);
    forall id: nat | id < |s.entries|
      ensures CleanUp(c, s, est, clock).entries[id] == AfterCleanUp(c, s.entries[id], est, clock)
    {
      CleanUpEffect(c, s, est, clock, id);
    }
  }

  lemma LaterIsSpared(c: Config, e: Entry, e': Entry, est: Predictor, clock: Clock)
    requires Spared(c, e, est, clock) && e.request.deadlineNs <= e'.request.deadlineNs
    ensures Spared(c, e', est, clock)
  {
  }

  /** After a wait, at whatever moment the worker wakes and whatever the estimate is by then, nobody is retired if
      and only if it wakes before the deadline of every pending request and, where it drops, early enough for each to
      be served alone.  Where the head has the earliest deadline of all, only the head matters.  The planned moment
      leaves the reserve before the head's deadline. */
  lemma {:induction false} WaitIsSafeExactly(c: Config, be: Backend, s: State, est: Predictor, clock: Clock, at: int,
                                             est': Predictor, clock': Clock)
    requires WellFormed(s) && Inv(c, s) && s.worker.Waiting?
    requires Wake(c, be, s, est, clock).worker == Waiting(Some(at))
    ensures WellFormed(Wake(c, be, s, est, clock))
    ensures var r := Wake(c, be, s, est, clock);
            && r.heap != [] && InRange(r.entries, r.heap)
            && var kept := CleanUp(c, r, est', clock').entries == r.entries;
            && (kept <==> forall id: nat | id < |r.entries| && r.entries[id].active ::
                            Spared(c, r.entries[id], est', clock'))
            && (HeadIsEarliest(c) ==> (kept <==> Spared(c, r.entries[r.heap[0]], est', clock')))
            && at <= DeadlineOf(r.entries, r.heap[0]) - Reserve(c, est)
  {
    WaitingState(c, be, s, est, clock, at);
    hide Inv, WellFormed, CleanUp, Wake, Cleaned, DispatchAt, Spared;
    var r := Wake(c, be, s, est, clock);
    HeadIsActive(r.entries, r.heap);
    var leader := r.heap[0];
    PlannedDispatch(c, r.entries[leader].request, est);
    CleanUpSparesExactly(c, r, est', clock');
    if HeadIsEarliest(c) && Spared(c, r.entries[leader], est', clock') {
      forall id: nat | id < |r.entries| && r.entries[id].active ensures Spared(c, r.entries[id], est', clock') {
        PlannedWaitIsSafe(c, be, s, est, clock, at, id);
        LaterIsSpared(c, r.entries[leader], r.entries[id], est', clock');
      }
    }
  }

  /** A wake-up not after the planned instant, with the estimate unchanged, finds every request that was pending
      when the wait began still pending, provided the reserve is not zero. */
  lemma {:induction false} WaitLosesNobody(c: Config, be: Backend, s: State, est: Predictor, clock: Clock, at: int,
                                           est': Predictor, clock': Clock)
    requires WellFormed(s) && Inv(c, s) && HeadIsEarliest(c) && s.worker.Waiting?
    requires Wake(c, be, s, est, clock).worker == Waiting(Some(at))
    requires est'(1) == est(1) && clock'(0) <= at && clock'(1) <= at && Reserve(c, est) > 0
    ensures WellFormed(Wake(c, be, s, est, clock))
    ensures CleanUp(c, Wake(c, be, s, est, clock), est', clock').entries == Wake(c, be, s, est, clock).entries
  {
    hide Inv, WellFormed, CleanUp, Wake;
    WaitIsSafeExactly(c, be, s, est, clock, at, est', clock');
  }

  // ---------------------------------------------------------------- what becomes of every request at a wake-up

  /** The same envelope, handed to the backend. */
  predicate HandedOver(e: Entry, e': Entry) {
    e'.dispatchedNs.Some? && e' == e.(active := false, dispatchedNs := e'.dispatchedNs)
  }

  /** Why a request that survived the clean-up is not in a batch: the leader of the batch goes first, or it is not
      time yet for the head of the queue and, where the head has the earliest deadline, not for this one either. */
  ghost predicate HasToWait(c: Config, r: State, est: Predictor, now: int, id: nat)
    requires id < |r.entries|
  {
    match r.worker
    case Executing(batch, _) => batch != [] && batch[0] < |r.entries|
                                && Before(KeyOf(c, r.entries, batch[0]), KeyOf(c, r.entries, id))
    case Waiting(until) =>
      && until.Some? && now < until.value && r.heap != [] && r.heap[0] < |r.entries|
      && until.value <= r.entries[r.heap[0]].request.receivedNs + c.batchWindowNs
      && (HeadIsEarliest(c) ==> until.value + Reserve(c, est) <= r.entries[id].request.deadlineNs)
    case Returned => false
  }

  lemma PlannedWindow(c: Config, leader: Request, est: Predictor)
    ensures DispatchAt(c, leader, est(1)) <= leader.receivedNs + c.batchWindowNs
  {
  }

  lemma TurnWithoutBatch(c: Config, be: Backend, s: State, est: Predictor, clock: Clock)
    requires InRange(s.entries, s.heap) && !Turn(c, be, s, est, clock).worker.Executing?
    ensures Turn(c, be, s, est, clock) == s.(worker := Turn(c, be, s, est, clock).worker)
    ensures s.heap != [] ==>
              Turn(c, be, s, est, clock).worker == Waiting(Some(DispatchAt(c, s.entries[s.heap[0]].request, est(1))))
  {
    hide TakeBatch, DispatchAt;
    if s.heap != [] && clock(2) >= DispatchAt(c, s.entries[s.heap[0]].request, est(1)) {
      TakingIsExecuting(c, be, s, est, (n: nat) => clock(n + 3), clock(1));
    }
  }

  lemma WakeIsTurn(c: Config, be: Backend, s: State, est: Predictor, clock: Clock)
    requires WellFormed(s) && s.worker.Waiting?
    ensures Wake(c, be, s, est, clock) == Turn(c, be, CleanUp(c, s, est, clock), est, clock)
  {
    hide WellFormed, CleanUp, Turn;
  }

  lemma VerdictWhenWaiting(c: Config, be: Backend, s: State, est: Predictor, clock: Clock, id: nat)
    requires WellFormed(s) && Inv(c, s) && s.worker.Waiting? && !Wake(c, be, s, est, clock).worker.Executing?
    requires id < |CleanUp(c, s, est, clock).entries|
    ensures var (s1, r) := (CleanUp(c, s, est, clock), Wake(c, be, s, est, clock));
            && r.entries == s1.entries && r.heap == s1.heap
            && (s1.entries[id].active ==> id in r.heap && HasToWait(c, r, est, clock(2), id))
  {
    hide Inv, WellFormed, CleanUp, Cleaned, Turn, Wake, DispatchAt, Sorted, AllActive, HasToWait;
    var s1 := CleanUp(c, s, est, clock);
    CleanedQueue(c, s, est, clock);
    ActiveIsQueued(c, s1, id);
    WakeIsTurn(c, be, s, est, clock);
    TurnWithoutBatch(c, be, s1, est, clock);
    if s1.entries[id].active {
      WaitingHasToWait(c, be, s, est, clock, id);
    }
  }

  lemma WaitingHasToWait(c: Config, be: Backend, s: State, est: Predictor, clock: Clock, id: nat)
    requires WellFormed(s) && Inv(c, s) && s.worker.Waiting?
    requires var r := Wake(c, be, s, est, clock); r.worker.Waiting? && r.worker.until.Some?
    requires id < |Wake(c, be, s, est, clock).entries| && Wake(c, be, s, est, clock).entries[id].active
    ensures HasToWait(c, Wake(c, be, s, est, clock), est, clock(2), id)
  {
    hide Inv, WellFormed, CleanUp, Cleaned, Wake, DispatchAt;
    var at := Wake(c, be, s, est, clock).worker.until.value;
    var s1 := CleanUp(c, s, est, clock);
    WaitingState(c, be, s, est, clock, at);
    PlannedWindow(c, s1.entries[s1.heap[0]].request, est);
    if HeadIsEarliest(c) {
      PlannedWaitIsSafe(c, be, s, est, clock, at, id);
    }
  }

  lemma LeftBehind(c: Config, be: Backend, es: seq<Entry>, est: Predictor, clock: Clock, heap: seq<nat>, checkedAt: int,
                   id: nat)
    requires SchedulerInversion.Queue(c, es, heap)
    ensures var ch := TheChoice(c, be, es, est, clock, heap, checkedAt);
            && (id in ch.ids ==> id in heap)
            && (id in heap && id !in ch.ids ==>
                  id in ch.rest && id < |es| && Before(KeyOf(c, es, ch.ids[0]), KeyOf(c, es, id)))
  {
    var ch := TheChoice(c, be, es, est, clock, heap, checkedAt);
    ChoicePartitionsQueue(c, be, es, est, clock, heap, checkedAt);
    BatchIsAdmissible(c, be, es, est, clock, heap, checkedAt);
    assert multiset(ch.ids)[id] + multiset(ch.rest)[id] == multiset(heap)[id];
    hide TheChoice, Sorted, Before, KeyOf, Admissible, AllActive;
    assert id in ch.ids ==> id in multiset(heap);
    if id in heap && id !in ch.ids {
      assert id in multiset(heap) && id !in multiset(ch.ids);
      assert id in multiset(ch.rest);
      SchedulerInversion.RestAfterLeader(c, be, es, est, clock, heap, checkedAt, id);
    }
  }

  lemma VerdictWhenTaking(c: Config, be: Backend, s: State, est: Predictor, clock: Clock, id: nat)
    requires WellFormed(s) && Inv(c, s) && s.worker.Waiting? && Wake(c, be, s, est, clock).worker.Executing?
    requires id < |CleanUp(c, s, est, clock).entries|
    ensures var (s1, r) := (CleanUp(c, s, est, clock), Wake(c, be, s, est, clock));
            && id < |r.entries|
            && (!s1.entries[id].active ==> id !in r.worker.batch && r.entries[id] == s1.entries[id])
            && (s1.entries[id].active ==>
                  if id in r.worker.batch then HandedOver(s1.entries[id], r.entries[id])
                  else r.entries[id] == s1.entries[id] && id in r.heap && HasToWait(c, r, est, clock(2), id))
  {
    hide Inv, WellFormed, CleanUp, Cleaned, Sorted, AllActive, TheChoice, Wake, TakeBatch, Before, HandedOver;
    var s1 := CleanUp(c, s, est, clock);
    CleanedQueue(c, s, est, clock);
    WakeTakesChoice(c, be, s, est, clock);
    WakeTakes(c, be, s, est, clock);
    ActiveIsQueued(c, s1, id);
    TakenEntry(c, be, s1, est, (n: nat) => clock(n + 3), clock(1), id);
    LeftBehind(c, be, s1.entries, est, (n: nat) => clock(n + 3), s1.heap, clock(1), id);
  }

  lemma ActiveIsQueued(c: Config, s: State, id: nat)
    requires Cleaned(c, s, s, []) && id < |s.entries|
    ensures s.entries[id].active <==> id in s.heap
  {
  }

  lemma WakeTakes(c: Config, be: Backend, s: State, est: Predictor, clock: Clock)
    requires WellFormed(s) && s.worker.Waiting? && Wake(c, be, s, est, clock).worker.Executing?
    requires CleanUp(c, s, est, clock).worker.Waiting?
    ensures var s1 := CleanUp(c, s, est, clock);
            s1.heap != [] && Wake(c, be, s, est, clock) == TakeBatch(c, be, s1, est, (n: nat) => clock(n + 3), clock(1))
  {
    hide WellFormed, CleanUp, TakeBatch, DispatchAt;
  }

  /** What taking a batch makes of one envelope. */
  lemma TakenEntry(c: Config, be: Backend, s: State, est: Predictor, clock: Clock, checkedAt: int, id: nat)
    requires s.heap != [] && Sorted(c, s.entries, s.heap) && AllActive(s.entries, s.heap) && id < |s.entries|
    ensures var (r, ch) := (TakeBatch(c, be, s, est, clock, checkedAt),
                            TheChoice(c, be, s.entries, est, clock, s.heap, checkedAt));
            && |r.entries| == |s.entries| && r.worker.Executing? && r.worker.batch == ch.ids
            && (id in ch.ids ==> HandedOver(s.entries[id], r.entries[id]))
            && (id !in ch.ids ==> r.entries[id] == s.entries[id])
  {
    BatchLeavesRest(c, be, s, est, clock, checkedAt);
    hide TheChoice, Sorted, AllActive, Active, SafeBy, DispatchAll;
    var ch := TheChoice(c, be, s.entries, est, clock, s.heap, checkedAt);
    DispatchAllEffect(s, ch.ids, ch.ats);
    if id in ch.ids {
      var i :| 0 <= i < |ch.ids| && ch.ids[i] == id;
      assert HandedOver(s.entries[ch.ids[i]], DispatchAll(s, ch.ids, ch.ats).entries[ch.ids[i]]);
    }
  }

  /** The exact verdict of a wake-up on every request of every run: one that was not pending is untouched; one
      whose deadline has passed expires; one that the configuration drops goes; every other one is handed to the
      backend in the batch, or stays in the queue unchanged because it has to wait. */
  lemma {:induction false} WakeVerdict(c: Config, be: Backend, events: seq<Event>, est: Predictor, clock: Clock,
                                       id: nat)
    requires Run(c, be, events).worker.Waiting? && id < |Run(c, be, events).entries|
    ensures var (s, r) := (Run(c, be, events), Wake(c, be, Run(c, be, events), est, clock));
            && |r.entries| == |s.entries|
            && var e := AfterCleanUp(c, s.entries[id], est, clock);
            if e.active && r.worker.Executing? && id in r.worker.batch then HandedOver(e, r.entries[id])
            else r.entries[id] == e && (e.active ==> id in r.heap && HasToWait(c, r, est, clock(2), id))
  {
    var s := Run(c, be, events);
    RunIsSound(c, be, events);
    hide Run, Inv, WellFormed, CleanUp, Wake, HasToWait, HandedOver, AfterCleanUp;
    CleanUpKeepsLength(c, s, est, clock);
    CleanUpEffect(c, s, est, clock, id);
    if Wake(c, be, s, est, clock).worker.Executing? {
      WakeTakesChoice(c, be, s, est, clock);
      VerdictWhenTaking(c, be, s, est, clock, id);
    } else {
      VerdictWhenWaiting(c, be, s, est, clock, id);
    }
  }

  lemma TurnIsDecided(c: Config, be: Backend, s: State, est: Predictor, clock: Clock)
    requires InRange(s.entries, s.heap) && s.heap != []
    ensures var (r, at) := (Turn(c, be, s, est, clock), DispatchAt(c, s.entries[s.heap[0]].request, est(1)));
            && (r.worker.Executing? <==> clock(2) >= at)
            && (!r.worker.Executing? ==> r.worker == Waiting(Some(at)))
  {
    hide TakeBatch, DispatchAt;
    TakingIsExecuting(c, be, s, est, (n: nat) => clock(n + 3), clock(1));
  }

  /** When a batch is taken, in every run: a wake-up that finds the queue not empty after its clean-up calls the
      backend if and only if the head has been there for the batching window or has no more than the guard and the
      predicted latency left; otherwise the worker waits for the earlier of these two instants. */
  lemma {:induction false} DispatchTimeExactly(c: Config, be: Backend, events: seq<Event>, est: Predictor,
                                               clock: Clock)
    requires Run(c, be, events).worker.Waiting? && CleanUp(c, Run(c, be, events), est, clock).heap != []
    ensures var (s1, r) := (CleanUp(c, Run(c, be, events), est, clock), Wake(c, be, Run(c, be, events), est, clock));
            var leader := s1.entries[s1.heap[0]].request;
            && (r.worker.Executing? <==>
                  || clock(2) >= leader.receivedNs + c.batchWindowNs
                  || clock(2) + c.guardNs + (if est(1).Some? then est(1).value else 0) >= leader.deadlineNs)
            && (!r.worker.Executing? ==> r.worker.Waiting? && r.worker.until.Some?
                                         && IsDispatchTime(c, leader, est, r.worker.until.value))
  {
    var s := Run(c, be, events);
    hide Run, WellFormed, CleanUp, Wake, Turn;
    WakeIsTurn(c, be, s, est, clock);
    var s1 := CleanUp(c, s, est, clock);
    TurnIsDecided(c, be, s1, est, clock);
    DispatchTime(c, s1.entries[s1.heap[0]].request, est);
  }

  // ---------------------------------------------------------------- which configurations wait safely

  /** A wake-up at or before the planned instant, with the estimate for one request as it was. */
  ghost predicate Punctual(at: int, est: Predictor, est': Predictor, clock': Clock) {
    est'(1) == est(1) && (est(1).Some? ==> est(1).value >= 0) && clock'(0) <= at && clock'(1) <= at
  }

  /** No request is stamped as received after `now`. */
  ghost predicate Stamped(s: State, now: int) {
    forall id: nat | id < |s.entries| :: s.entries[id].request.receivedNs <= now
  }

  /** If the worker reads the clock after all requests were received, finds that it has to wait, and wakes punctually,
      then nobody is retired. */
  ghost predicate WaitKeepsAll(c: Config, be: Backend, s: State, est: Predictor, clock: Clock, est': Predictor,
                               clock': Clock)
    requires WellFormed(s)
  {
    var r := Wake(c, be, s, est, clock);
    s.worker.Waiting? && Stamped(s, clock(2)) && r.worker.Waiting? && r.worker.until.Some?
    && Punctual(r.worker.until.value, est, est', clock')
    ==> WellFormed(r) && CleanUp(c, r, est', clock').entries == r.entries
  }

  ghost predicate WaitsKeepAll(c: Config) {
    forall be: Backend, events: seq<Event>, est: Predictor, clock: Clock, est': Predictor, clock': Clock ::
      WaitKeepsAll(c, be, Run(c, be, events), est, clock, est', clock')
  }

  /** A robot that is heard first but can wait, and one that cannot wait for it. */
  function Patient(now: int, deadline: int): Request {
    Request("request", "a", "model", "default", deadline, now, 0, 0)
  }

  function Hasty(now: int): Request {
    Request("request", "b", "model", "default", now + 1, now, 0, 0)
  }

  /** The head of a gathered queue is the first that came. */
  lemma GatheredHead(c: Config, s: State, rs: seq<Request>)
    requires Gathered(s, rs) && rs != []
    ensures s.heap != [] && s.heap[0] == 0 && |s.entries| == |rs| && s.worker.Waiting?
    ensures forall i | 0 <= i < |rs| :: s.entries[i] == PendingEntry(rs[i])
  {
  }

  /** Alone, the leader's dispatch is planned for its own deadline. */
  lemma OneWaitsTooLong(c: Config, s: State)
    requires WellFormed(s) && Gathered(s, [Patient(0, 1)]) && Inv(c, s) && c.guardNs == 0 && c.batchWindowNs >= 1
    ensures !WaitKeepsAll(c, SINGLE_BACKEND, s, NO_ESTIMATE, (n: nat) => 0, NO_ESTIMATE, (n: nat) => 1)
  {
    hide CleanUp, Inv, WellFormed, Gathered, WaitKeepsAll;
    GatheredCleanUp(c, s, [Patient(0, 1)], NO_ESTIMATE, 0);
    GatheredHead(c, s, [Patient(0, 1)]);
    PlannedFor(c, s, 0, 1);
    LosesAt(c, s, 1, 0);
  }

  /** Under FIFO with room for two, the leader's dispatch can be planned for after the other's deadline. */
  lemma TwoWaitTooLong(c: Config, s: State)
    requires WellFormed(s) && Gathered(s, [Patient(0, c.guardNs + 1), Hasty(0)]) && Inv(c, s) && c.policy.FIFO?
    requires c.batchWindowNs >= 1
    ensures !WaitKeepsAll(c, SINGLE_BACKEND, s, NO_ESTIMATE, (n: nat) => 0, NO_ESTIMATE, (n: nat) => 1)
  {
    hide CleanUp, Inv, WellFormed, Gathered, WaitKeepsAll;
    GatheredCleanUp(c, s, [Patient(0, c.guardNs + 1), Hasty(0)], NO_ESTIMATE, 0);
    GatheredHead(c, s, [Patient(0, c.guardNs + 1), Hasty(0)]);
    PlannedFor(c, s, 0, 1);
    LosesAt(c, s, 1, 1);
  }

  /** With the queue cleaned, the head's dispatch planned for `at`, and no estimate, the worker waits for it. */
  lemma PlannedFor(c: Config, s: State, now: int, at: int)
    requires WellFormed(s) && s.worker.Waiting? && CleanUp(c, s, NO_ESTIMATE, (n: nat) => now) == s
    requires s.heap != [] && now < DispatchAt(c, s.entries[s.heap[0]].request, None) == at
    ensures Wake(c, SINGLE_BACKEND, s, NO_ESTIMATE, (n: nat) => now) == s.(worker := Waiting(Some(at)))
  {
    hide CleanUp, DispatchAt, WellFormed;
  }

  lemma LosesAt(c: Config, s: State, at: int, id: nat)
    requires WellFormed(s) && Inv(c, s) && s.worker.Waiting?
    requires Wake(c, SINGLE_BACKEND, s, NO_ESTIMATE, (n: nat) => 0) == s.(worker := Waiting(Some(at)))
    requires Stamped(s, 0) && id < |s.entries| && s.entries[id].active && DeadlineOf(s.entries, id) <= at
    ensures !WaitKeepsAll(c, SINGLE_BACKEND, s, NO_ESTIMATE, (n: nat) => 0, NO_ESTIMATE, (n: nat) => at)
  {
    WakeKeepsInv(c, SINGLE_BACKEND, s, NO_ESTIMATE, (n: nat) => 0);
    var r := Wake(c, SINGLE_BACKEND, s, NO_ESTIMATE, (n: nat) => 0);
    InvIsWellFormed(c, r);
    hide Inv, WellFormed, CleanUp, Wake;
    CleanUpSparesExactly(c, r, NO_ESTIMATE, (n: nat) => at);
    assert !Spared(c, r.entries[id], NO_ESTIMATE, (n: nat) => at);
  }

  lemma PatientAlone(c: Config)
    ensures InLine(c, [Patient(0, 1)], 0)
  {
  }

  lemma PatientAndHasty(c: Config)
    requires c.policy.FIFO?
    ensures InLine(c, [Patient(0, c.guardNs + 1), Hasty(0)], 0)
  {
  }

  /** A run at whose end a punctual wait loses a request, all requests being stamped when they are received. */
  lemma {:induction false} WaitMayLose(c: Config) returns (events: seq<Event>)
    requires c.Valid() && c.batchWindowNs >= 1 && (c.guardNs == 0 || !HeadIsEarliest(c))
    ensures forall k | 0 <= k < |events| :: events[k].Enqueued?
    ensures !WaitKeepsAll(c, SINGLE_BACKEND, Run(c, SINGLE_BACKEND, events), NO_ESTIMATE, (n: nat) => 0, NO_ESTIMATE,
                          (n: nat) => 1)
  {
    hide Run, Inv, WellFormed, Gathered, InLine, WaitKeepsAll, Patient, Hasty;
    if c.guardNs == 0 {
      var rs := [Patient(0, 1)];
      events := Arrivals(rs, 0);
      ArrivalsAreEnqueued(rs, 0);
      PatientAlone(c);
      LineGathers(c, SINGLE_BACKEND, rs, 0);
      RunIsSound(c, SINGLE_BACKEND, events);
      OneWaitsTooLong(c, Run(c, SINGLE_BACKEND, events));
    } else {
      var rs := [Patient(0, c.guardNs + 1), Hasty(0)];
      events := Arrivals(rs, 0);
      ArrivalsAreEnqueued(rs, 0);
      PatientAndHasty(c);
      LineGathers(c, SINGLE_BACKEND, rs, 0);
      RunIsSound(c, SINGLE_BACKEND, events);
      TwoWaitTooLong(c, Run(c, SINGLE_BACKEND, events));
    }
  }

  /** Without a batching window there is no timed wait: it would have to end before the head was received. */
  lemma NoWindowNoWait(c: Config, be: Backend, s: State, est: Predictor, clock: Clock, at: int)
    requires WellFormed(s) && Inv(c, s) && s.worker.Waiting? && Stamped(s, clock(2)) && c.batchWindowNs == 0
    ensures Wake(c, be, s, est, clock).worker != Waiting(Some(at))
  {
    hide Inv, WellFormed, CleanUp, Wake, Cleaned, DispatchAt;
    if Wake(c, be, s, est, clock).worker == Waiting(Some(at)) {
      var s1 := CleanUp(c, s, est, clock);
      WaitingState(c, be, s, est, clock, at);
      HeadIsActive(s1.entries, s1.heap);
      CleanUpKeepsLength(c, s, est, clock);
      CleanUpEffect(c, s, est, clock, s1.heap[0]);
      PlannedWindow(c, s1.entries[s1.heap[0]].request, est);
      assert false;
    }
  }

  lemma WaitKeeps(c: Config, be: Backend, s: State, est: Predictor, clock: Clock, est': Predictor, clock': Clock)
    requires WellFormed(s) && Inv(c, s) && (c.batchWindowNs == 0 || (c.guardNs > 0 && HeadIsEarliest(c)))
    ensures WaitKeepsAll(c, be, s, est, clock, est', clock')
  {
    hide Inv, WellFormed, CleanUp, Wake;
    var r := Wake(c, be, s, est, clock);
    if s.worker.Waiting? && Stamped(s, clock(2)) && r.worker.Waiting? && r.worker.until.Some?
       && Punctual(r.worker.until.value, est, est', clock') {
      if c.batchWindowNs == 0 {
        NoWindowNoWait(c, be, s, est, clock, r.worker.until.value);
        assert false;
      }
      WaitLosesNobody(c, be, s, est, clock, r.worker.until.value, est', clock');
    }
  }

  /** No punctual wait of any run loses a request, for any estimates that are not negative and requests stamped when
      they are received, if and only if there is no batching window, or the guard is positive and the head of the
      queue always has the earliest deadline: under `edf`, or with room for one request only. */
  lemma {:induction false} WaitsKeepAllExactly(c: Config)
    requires c.Valid()
    ensures WaitsKeepAll(c) <==> c.batchWindowNs == 0 || (c.guardNs > 0 && HeadIsEarliest(c))
  {
    hide Run, WaitKeepsAll, Inv, WellFormed;
    if c.batchWindowNs == 0 || (c.guardNs > 0 && HeadIsEarliest(c)) {
      forall be: Backend, events: seq<Event>, est: Predictor, clock: Clock, est': Predictor, clock': Clock
        ensures WaitKeepsAll(c, be, Run(c, be, events), est, clock, est', clock')
      {
        RunIsSound(c, be, events);
        WaitKeeps(c, be, Run(c, be, events), est, clock, est', clock');
      }
    } else {
      var events := WaitMayLose(c);
    }
  }
}
