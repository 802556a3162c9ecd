/** A worker that sleeps on the condition of the scheduler while others call it: in every run it has a reason to
    sleep until somebody notifies it, and for whom the sleep is safe. */
module SchedulerSleeping {
  import opened Types
  import opened SchedulerState
  import opened SchedulerSafety
  import opened SchedulerOutcomes
  import opened SchedulerAdmission
  import opened SchedulerBatches
  import opened SchedulerFreshness
  import opened SchedulerWaiting

  /** Whether a call of `enqueue` notifies the worker: whether it admits the request. */
  ghost predicate Notifies(c: Config, s: State, r: Request, clock: Clock)
    requires WellFormed(s)
  {
    s.accepting && VerdictOn(c, s, r, clock).active
  }

  /** Whether the worker sleeps: its last wake-up found nothing due, and since then no request was admitted and
      nobody closed the scheduler.  A worker that has just been started, or has just got its reply, looks at the
      queue before it sleeps. */
  ghost predicate Asleep(c: Config, be: Backend, events: seq<Event>) {
    events != []
    && var before := events[..|events| - 1];
    match events[|events| - 1]
    case Enqueued(r, clock) => Asleep(c, be, before) && !Notifies(c, Run(c, be, before), r, clock)
    case Woken(est, clock) => Run(c, be, before).worker.Waiting? && Run(c, be, events).worker.Waiting?
    case Replied(reply, clock) => Asleep(c, be, before)
    case Closed(cancelPending, now) => false
    case Started => Asleep(c, be, before)
  }

  /** What the backend predicted at the last wake-up. */
  function LastEstimate(events: seq<Event>): Predictor {
    if events == [] then NO_ESTIMATE
    else if events[|events| - 1].Woken? then events[|events| - 1].est
    else LastEstimate(events[..|events| - 1])
  }

  /** The worker sleeps until the dispatch time of a request that nothing pending sorts before. */
  ghost predicate SleepsFor(c: Config, s: State, est: Predictor, at: int, leader: nat) {
    && leader < |s.entries| && IsDispatchTime(c, s.entries[leader].request, est, at)
    && forall id: nat | id < |s.entries| && s.entries[id].active && id != leader ::
         c.maxPending != Some(1) && Before(KeyOf(c, s.entries, leader), KeyOf(c, s.entries, id))
  }

  ghost predicate NothingPending(s: State) {
    forall id: nat | id < |s.entries| :: !s.entries[id].active
  }

  /** Why a sleeping worker need not be woken: for good, because nothing is pending and more may come; or until the
      dispatch time of a request that goes before all that is pending. */
  ghost predicate HasReasonToSleep(c: Config, s: State, est: Predictor) {
    match s.worker
    case Waiting(until) =>
      if until.None? then s.accepting && NothingPending(s)
      else exists leader: nat :: SleepsFor(c, s, est, until.value, leader)
    case Executing(_, _) => false
    case Returned => false
  }

  // ---------------------------------------------------------------- falling asleep

  lemma EmptyMeansNothing(c: Config, s: State)
    requires Cleaned(c, s, s, []) && s.heap == []
    ensures NothingPending(s)
  {
  }

  lemma TurnOnNothing(c: Config, be: Backend, s: State, est: Predictor, clock: Clock)
    requires InRange(s.entries, s.heap) && s.heap == []
    ensures Turn(c, be, s, est, clock) == s.(worker := if s.accepting then Waiting(None) else Returned)
  {
  }

  lemma QueueHeadLeads(c: Config, s: State, est: Predictor, at: int)
    requires Cleaned(c, s, s, []) && Sorted(c, s.entries, s.heap) && s.heap != []
    requires c.maxPending == Some(1) ==> |s.heap| <= 1
    requires IsDispatchTime(c, s.entries[s.heap[0]].request, est, at)
    ensures SleepsFor(c, s, est, at, s.heap[0])
  {
    hide Sorted, IsDispatchTime, KeyOf, Before, Cleaned;
    HeadInRange(c, s.entries, s.heap);
    forall id: nat | id < |s.entries| && s.entries[id].active && id != s.heap[0]
      ensures c.maxPending != Some(1) && Before(KeyOf(c, s.entries, s.heap[0]), KeyOf(c, s.entries, id))
    {
      ActiveIsQueued(c, s, id);
      TailOf(s.heap, id);
      HeadIsBefore(c, s.entries, s.heap, id);
    }
  }

  lemma HeadInRange(c: Config, es: seq<Entry>, heap: seq<nat>)
    requires Sorted(c, es, heap) && heap != []
    ensures heap[0] < |es|
  {
  }

  lemma SameEntriesSleep(c: Config, s: State, est: Predictor, at: int, leader: nat)
    requires SleepsFor(c, s, est, at, leader)
    ensures HasReasonToSleep(c, s.(worker := Waiting(Some(at))), est)
  {
    hide IsDispatchTime, KeyOf, Before;
    assert SleepsFor(c, s.(worker := Waiting(Some(at))), est, at, leader);
  }

  /** A wake-up that ends in waiting has a reason to. */
  lemma FallsAsleep(c: Config, be: Backend, s: State, est: Predictor, clock: Clock)
    requires WellFormed(s) && Inv(c, s) && s.worker.Waiting? && Wake(c, be, s, est, clock).worker.Waiting?
    ensures HasReasonToSleep(c, Wake(c, be, s, est, clock), est)
  {
    hide Inv, WellFormed, CleanUp, Wake, Turn, Cleaned, Sorted, DispatchAt, SleepsFor, HasReasonToSleep, NothingPending;
    var (s1, r) := (CleanUp(c, s, est, clock), Wake(c, be, s, est, clock));
    CleanedQueue(c, s, est, clock);
    WakeIsTurn(c, be, s, est, clock);
    TurnWithoutBatch(c, be, s1, est, clock);
    if s1.heap == [] {
      TurnOnNothing(c, be, s1, est, clock);
      EmptyMeansNothing(c, s1);
      SleepsForGood(c, s1, est);
    } else {
      if c.maxPending == Some(1) {
        QueueIsSmall(c, s, est, clock);
      }
      DispatchTime(c, s1.entries[s1.heap[0]].request, est);
      QueueHeadLeads(c, s1, est, r.worker.until.value);
      SameEntriesSleep(c, s1, est, r.worker.until.value, s1.heap[0]);
    }
  }

  lemma SleepsForGood(c: Config, s: State, est: Predictor)
    requires NothingPending(s) && s.accepting
    ensures HasReasonToSleep(c, s.(worker := Waiting(None)), est)
  {
  }

  // ---------------------------------------------------------------- sleeping on

  /** Every envelope of `s` is still there with its request, and none is pending that was not. */
  ghost predicate NoneNew(s: State, r: State) {
    && |s.entries| <= |r.entries| && r.worker == s.worker && r.accepting == s.accepting
    && (forall id: nat | id < |s.entries| :: r.entries[id].request == s.entries[id].request)
    && (forall id: nat | id < |r.entries| && r.entries[id].active :: id < |s.entries| && s.entries[id].active)
  }

  lemma NoneNewSleepsOn(c: Config, s: State, r: State, est: Predictor)
    requires HasReasonToSleep(c, s, est) && NoneNew(s, r)
    ensures HasReasonToSleep(c, r, est)
  {
    hide IsDispatchTime, Before;
    if s.worker.until.Some? {
      var leader: nat :| SleepsFor(c, s, est, s.worker.until.value, leader);
      assert SleepsFor(c, r, est, r.worker.until.value, leader);
    }
  }

  lemma AdmissionAddsNoOther(e: Entry, superseded: bool, r: Request, clock: Clock)
    ensures AfterAdmission(e, superseded, r, clock).request == e.request
    ensures AfterAdmission(e, superseded, r, clock).active ==> e.active
  {
  }

  /** A request that is turned away leaves nobody pending who was not. */
  lemma TurnedAway(c: Config, s: State, r: Request, clock: Clock)
    requires WellFormed(s) && Inv(c, s) && !Notifies(c, s, r, clock)
    ensures NoneNew(s, Enqueue(c, s, r, clock))
  {
    hide Inv, AfterAdmission, VerdictOn, Previous, Stale, Accept;
    if s.accepting {
      EnqueueEffect(c, s, r, clock);
      EnqueueKeepsWorker(c, s, r, clock);
      hide Enqueue;
      var t := Enqueue(c, s, r, clock);
      forall id: nat | id < |s.entries|
        ensures t.entries[id].request == s.entries[id].request && (t.entries[id].active ==> s.entries[id].active)
      {
        AdmissionAddsNoOther(s.entries[id], Previous(c, s, SessionOf(r)) == Some(id), r, clock);
      }
    }
  }

  lemma NobodyReplies(c: Config, s: State, reply: Reply, clock: Clock)
    requires WellFormed(s) && s.worker.Waiting?
    ensures Receive(c, s, reply, clock) == s
  {
  }

  lemma AlreadyStarted(s: State)
    requires s.worker.Waiting?
    ensures Start(s) == s
  {
  }

  /** In every run a sleeping worker that nobody has notified has a reason to sleep. */
  lemma {:induction false} SleepIsExplained(c: Config, be: Backend, events: seq<Event>)
    requires Asleep(c, be, events)
    ensures HasReasonToSleep(c, Run(c, be, events), LastEstimate(events))
  {
    var (before, e) := (events[..|events| - 1], events[|events| - 1]);
    var s := Run(c, be, before);
    RunIsSound(c, be, before);
    hide Inv, WellFormed, Enqueue, Wake, Receive, Start, HasReasonToSleep, Notifies;
    assert Run(c, be, events) == Step(c, be, s, e);
    if e.Woken? {
      FallsAsleep(c, be, s, e.est, e.clock);
    } else {
      SleepIsExplained(c, be, before);
      SleeperWaits(c, s, LastEstimate(before));
      match e
      case Enqueued(r, clock) =>
        TurnedAway(c, s, r, clock);
        NoneNewSleepsOn(c, s, Enqueue(c, s, r, clock), LastEstimate(before));
      case Replied(reply, clock) => NobodyReplies(c, s, reply, clock);
      case Started => AlreadyStarted(s);
    }
  }

  lemma SleeperWaits(c: Config, s: State, est: Predictor)
    requires HasReasonToSleep(c, s, est)
    ensures s.worker.Waiting?
  {
  }

  lemma NewlyPending(s: State, r: State)
    requires |r.entries| == |s.entries| + 1 && r.entries[|s.entries|].active
    ensures !NothingPending(r)
  {
  }

  /** No notification is missing and none is idle: a worker that sleeps for good gets work from a call of `enqueue`
      if and only if the call notifies it. */
  lemma {:induction false} WorkComesNotified(c: Config, be: Backend, events: seq<Event>, r: Request, clock: Clock)
    requires Asleep(c, be, events) && Run(c, be, events).worker == Waiting(None)
    ensures var s := Run(c, be, events);
            NothingPending(s) && (NothingPending(Enqueue(c, s, r, clock)) <==> !Notifies(c, s, r, clock))
  {
    var s := Run(c, be, events);
    RunIsSound(c, be, events);
    SleepIsExplained(c, be, events);
    hide Run, Inv, WellFormed, Asleep, Enqueue, Stale, VerdictOn;
    if Notifies(c, s, r, clock) {
      EnqueueEffect(c, s, r, clock);
      NewlyPending(s, Enqueue(c, s, r, clock));
    } else {
      TurnedAway(c, s, r, clock);
    }
  }

  // ---------------------------------------------------------------- for whom the sleep is safe

  lemma LeaderLeavesReserve(c: Config, s: State, est: Predictor, at: int, leader: nat, id: nat)
    requires SleepsFor(c, s, est, at, leader) && HeadIsEarliest(c) && id < |s.entries| && s.entries[id].active
    ensures at + Reserve(c, est) <= DeadlineOf(s.entries, id)
  {
    hide Reserve;
  }

  /** Where the head of the queue has the earliest deadline, a worker asleep until `at` leaves the guard and the
      predicted latency before the deadline of every pending request of the run, whoever called it in the meantime. */
  lemma {:induction false} SleepLeavesReserve(c: Config, be: Backend, events: seq<Event>, at: int, id: nat)
    requires Asleep(c, be, events) && HeadIsEarliest(c) && Run(c, be, events).worker == Waiting(Some(at))
    requires id < |Run(c, be, events).entries| && Run(c, be, events).entries[id].active
    ensures at + Reserve(c, LastEstimate(events)) <= DeadlineOf(Run(c, be, events).entries, id)
  {
    SleepIsExplained(c, be, events);
    hide Run, Asleep, SleepsFor;
    var (s, est) := (Run(c, be, events), LastEstimate(events));
    var leader: nat :| SleepsFor(c, s, est, at, leader);
    LeaderLeavesReserve(c, s, est, at, leader, id);
  }

  lemma ReserveSpares(c: Config, e: Entry, est: Predictor, at: int, est': Predictor, clock': Clock)
    requires at + Reserve(c, est) <= e.request.deadlineNs && Reserve(c, est) > 0
    requires est'(1) == est(1) && clock'(0) <= at && clock'(1) <= at
    ensures Spared(c, e, est', clock')
  {
  }

  /** A punctual wake-up from sleep, with a positive reserve, finds everybody still pending. */
  lemma {:induction false} SleepLosesNobody(c: Config, be: Backend, events: seq<Event>, at: int, est': Predictor,
                                            clock': Clock)
    requires Asleep(c, be, events) && HeadIsEarliest(c) && Run(c, be, events).worker == Waiting(Some(at))
    requires var est := LastEstimate(events);
             est'(1) == est(1) && clock'(0) <= at && clock'(1) <= at && Reserve(c, est) > 0
    ensures CleanUp(c, Run(c, be, events), est', clock').entries == Run(c, be, events).entries
  {
    var s := Run(c, be, events);
    RunIsSound(c, be, events);
    hide Run, Inv, WellFormed, Asleep, CleanUp, Spared, Reserve;
    CleanUpSparesExactly(c, s, est', clock');
    forall id: nat | id < |s.entries| && s.entries[id].active ensures Spared(c, s.entries[id], est', clock') {
      SleepLeavesReserve(c, be, events, at, id);
      ReserveSpares(c, s.entries[id], LastEstimate(events), at, est', clock');
    }
  }

  // ---------------------------------------------------------------- which configurations sleep safely

  /** At every wake-up of the run, no request is stamped as received later than the clock that is read. */
  ghost predicate Truthful(c: Config, be: Backend, events: seq<Event>) {
    events != [] ==>
      var (before, e) := (events[..|events| - 1], events[|events| - 1]);
      Truthful(c, be, before) && (e.Woken? ==> Stamped(Run(c, be, before), e.clock(2)))
  }

  /** If the worker is asleep and wakes punctually, then nobody is retired. */
  ghost predicate SleepKeepsAll(c: Config, be: Backend, events: seq<Event>, est': Predictor, clock': Clock) {
    var s := Run(c, be, events);
    Truthful(c, be, events) && Asleep(c, be, events) && s.worker.Waiting? && s.worker.until.Some?
    && Punctual(s.worker.until.value, LastEstimate(events), est', clock')
    ==> CleanUp(c, s, est', clock').entries == s.entries
  }

  ghost predicate SleepsKeepAll(c: Config) {
    forall be: Backend, events: seq<Event>, est': Predictor, clock': Clock ::
      SleepKeepsAll(c, be, events, est', clock')
  }

  /** Without a batching window nobody sleeps until an instant. */
  lemma {:induction false} NoWindowNoSleep(c: Config, be: Backend, events: seq<Event>, at: int)
    requires Asleep(c, be, events) && Truthful(c, be, events) && c.batchWindowNs == 0
    ensures Run(c, be, events).worker != Waiting(Some(at))
  {
    var (before, e) := (events[..|events| - 1], events[|events| - 1]);
    var s := Run(c, be, before);
    RunIsSound(c, be, before);
    hide Inv, WellFormed, Enqueue, Wake, Receive, Start, HasReasonToSleep, Notifies, Stamped;
    assert Run(c, be, events) == Step(c, be, s, e);
    if e.Woken? {
      NoWindowNoWait(c, be, s, e.est, e.clock, at);
    } else {
      NoWindowNoSleep(c, be, before, at);
      SleepIsExplained(c, be, before);
      SleeperWaits(c, s, LastEstimate(before));
      match e
      case Enqueued(r, clock) => TurnedAway(c, s, r, clock);
      case Replied(reply, clock) => NobodyReplies(c, s, reply, clock);
      case Started => AlreadyStarted(s);
    }
  }

  lemma SleepKeeps(c: Config, be: Backend, events: seq<Event>, est': Predictor, clock': Clock)
    requires c.batchWindowNs == 0 || (c.guardNs > 0 && HeadIsEarliest(c))
    ensures SleepKeepsAll(c, be, events, est', clock')
  {
    hide Run, Truthful, Asleep, CleanUp;
    var s := Run(c, be, events);
    if Truthful(c, be, events) && Asleep(c, be, events) && s.worker.Waiting? && s.worker.until.Some?
       && Punctual(s.worker.until.value, LastEstimate(events), est', clock') {
      if c.batchWindowNs == 0 {
        NoWindowNoSleep(c, be, events, s.worker.until.value);
        assert false;
      }
      SleepLosesNobody(c, be, events, s.worker.until.value, est', clock');
    }
  }

  lemma {:induction false} ArrivalsAreTruthful(c: Config, be: Backend, events: seq<Event>)
    requires forall k | 0 <= k < |events| :: events[k].Enqueued?
    ensures Truthful(c, be, events)
  {
    hide Run;
    if events != [] {
      ArrivalsAreTruthful(c, be, events[..|events| - 1]);
    }
  }

  /** A wake-up that ends in waiting begins a sleep. */
  lemma SleepBegins(c: Config, be: Backend, events: seq<Event>, est: Predictor, clock: Clock)
    requires Truthful(c, be, events) && Stamped(Run(c, be, events), clock(2))
    requires Run(c, be, events).worker.Waiting? && Wake(c, be, Run(c, be, events), est, clock).worker.Waiting?
    ensures var more := events + [Woken(est, clock)];
            && Run(c, be, more) == Wake(c, be, Run(c, be, events), est, clock)
            && Truthful(c, be, more) && Asleep(c, be, more) && LastEstimate(more) == est
  {
    var more := events + [Woken(est, clock)];
    RunStep(c, be, events, Woken(est, clock));
    hide Run, Wake, Stamped, WellFormed;
    assert more[..|more| - 1] == events && more[|more| - 1] == Woken(est, clock);
  }

  lemma LosingWait(c: Config, be: Backend, s: State, est: Predictor, clock: Clock, est': Predictor, clock': Clock)
    requires WellFormed(s) && Inv(c, s) && !WaitKeepsAll(c, be, s, est, clock, est', clock')
    ensures var r := Wake(c, be, s, est, clock);
            && s.worker.Waiting? && Stamped(s, clock(2)) && r.worker.Waiting? && r.worker.until.Some?
            && Punctual(r.worker.until.value, est, est', clock')
            && WellFormed(r) && CleanUp(c, r, est', clock').entries != r.entries
  {
    WakeKeepsInv(c, be, s, est, clock);
    InvIsWellFormed(c, Wake(c, be, s, est, clock));
    hide Inv, WellFormed, Wake, CleanUp, Stamped, Punctual;
  }

  /** The wait that loses a request, as a sleep. */
  lemma LosingWaitIsSleep(c: Config, be: Backend, events: seq<Event>, est: Predictor, clock: Clock, est': Predictor,
                          clock': Clock)
    requires Truthful(c, be, events) && !WaitKeepsAll(c, be, Run(c, be, events), est, clock, est', clock')
    ensures !SleepKeepsAll(c, be, events + [Woken(est, clock)], est', clock')
  {
    RunIsSound(c, be, events);
    hide Run, Inv, WellFormed, Wake, CleanUp, Stamped, Truthful, Asleep, LastEstimate, WaitKeepsAll, Punctual;
    LosingWait(c, be, Run(c, be, events), est, clock, est', clock');
    SleepBegins(c, be, events, est, clock);
  }

  /** A run at whose end a worker asleep loses a request although it wakes punctually. */
  lemma {:induction false} SleepMayLose(c: Config) returns (events: seq<Event>)
    requires c.Valid() && c.batchWindowNs >= 1 && (c.guardNs == 0 || !HeadIsEarliest(c))
    ensures !SleepKeepsAll(c, SINGLE_BACKEND, events, NO_ESTIMATE, (n: nat) => 1)
  {
    hide Run, WaitKeepsAll, SleepKeepsAll, Truthful;
    var arrivals := WaitMayLose(c);
    ArrivalsAreTruthful(c, SINGLE_BACKEND, arrivals);
    LosingWaitIsSleep(c, SINGLE_BACKEND, arrivals, NO_ESTIMATE, (n: nat) => 0, NO_ESTIMATE, (n: nat) => 1);
    events := arrivals + [Woken(NO_ESTIMATE, (n: nat) => 0)];
  }

  /** No sleep of any run, however often it is interrupted in vain, costs a request its service when it ends
      punctually, for any estimates that are not negative and truthful stamps, if and only if there is no batching
      window, or the guard is positive and the head of the queue always has the earliest deadline. */
  lemma {:induction false} SleepsKeepAllExactly(c: Config)
    requires c.Valid()
    ensures SleepsKeepAll(c) <==> c.batchWindowNs == 0 || (c.guardNs > 0 && HeadIsEarliest(c))
  {
    hide SleepKeepsAll;
    if c.batchWindowNs == 0 || (c.guardNs > 0 && HeadIsEarliest(c)) {
      forall be: Backend, events: seq<Event>, est': Predictor, clock': Clock
        ensures SleepKeepsAll(c, be, events, est', clock')
      {
        SleepKeeps(c, be, events, est', clock');
      }
    } else {
      var events := SleepMayLose(c);
    }
  }
}
