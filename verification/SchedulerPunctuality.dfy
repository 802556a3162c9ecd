/** Exactly which configurations never answer late when backends keep to their predictions. */
module SchedulerPunctuality {
  import opened Types
  import opened SchedulerState
  import opened SchedulerSafety
  import opened SchedulerOutcomes
  import opened SchedulerFreshness
  import opened SchedulerRouting

  const SLOW_ESTIMATE: Predictor := (n: int) => Some(200)

  /** A batch of one that is answered after its deadline. */
  lemma SoloAnsweredLate(c: Config, s: State, r: Request, now: int)
    requires WellFormed(s) && s.worker.Executing? && s.worker.batch == [0] && |s.entries| == 1
    requires s.entries[0].request == r && s.entries[0].outcome.None? && now > r.deadlineNs
    ensures !Unmissed(Receive(c, s, Answered([AnswerTo(r)]), (n: nat) => now))
  {
    var clock := (n: nat) => now;
    var (batch, actions) := ([0], [AnswerTo(r)]);
    var t := Deliver(c, s, 0, actions[0], now);
    assert t.entries[0].outcome.Some? && t.entries[0].outcome.value.status == DeadlineMissed;
    assert DeliverFrom(c, t, batch, actions, 1, clock) == t;
    assert DeliverFrom(c, s, batch, actions, 0, clock) == t;
  }

  lemma LoadedTakesOff(c: Config, s1: State, r: Request, now: int)
    requires Loaded(c, INIT, s1, r) && !c.dropUnserviceable && r.deadlineNs > now >= DispatchAt(c, r, Some(200))
    ensures InBackend(Wake(c, SINGLE_BACKEND, s1, SLOW_ESTIMATE, (n: nat) => now), r, now + 200 + c.guardNs)
  {
    hide Inv, ClearPointer, DispatchAt, Wake;
    SoloDispatch(c, SINGLE_BACKEND, s1, SLOW_ESTIMATE, 0, now);
  }

  function Urgent(c: Config): Request {
    Observation(1, c.batchWindowNs + 110, 10)
  }

  function SlowStart(r: Request, now: int): seq<Event> {
    [Enqueued(r, (n: nat) => now)] + [Woken(SLOW_ESTIMATE, (n: nat) => now)]
  }

  function LateReply(r: Request, now: int): Event {
    Replied(Answered([AnswerTo(r)]), (n: nat) => now + 150)
  }

  function SlowRun(c: Config): seq<Event> {
    SlowStart(Urgent(c), c.batchWindowNs + 10) + [LateReply(Urgent(c), c.batchWindowNs + 10)]
  }

  /** A state in which a single request has just been handed to the backend. */
  ghost predicate InBackend(s: State, r: Request, safeBy: int) {
    && |s.entries| == 1 && s.entries[0].request == r && s.entries[0].outcome.None?
    && s.worker == Executing([0], safeBy)
  }

  lemma UrgentIsDue(c: Config)
    ensures Urgent(c).deadlineNs > c.batchWindowNs + 10 >= DispatchAt(c, Urgent(c), Some(200))
  {
  }

  lemma SlowStartTakesOff(c: Config, r: Request, now: int)
    requires c.Valid() && !c.dropUnserviceable && r == Urgent(c) && now == c.batchWindowNs + 10
    ensures InBackend(Run(c, SINGLE_BACKEND, SlowStart(r, now)), r, now + 200 + c.guardNs)
  {
    hide Run, Inv, WellFormed, Wake, Loaded, DispatchAt, InBackend, Urgent;
    FirstIsLoaded(c, r, now);
    UrgentIsDue(c);
    RunStep(c, SINGLE_BACKEND, [Enqueued(r, (n: nat) => now)], Woken(SLOW_ESTIMATE, (n: nat) => now));
    LoadedTakesOff(c, Run(c, SINGLE_BACKEND, [Enqueued(r, (n: nat) => now)]), r, now);
  }

  lemma TimelyTriple(c: Config, be: Backend, e0: Event, e1: Event, e2: Event)
    requires e0.Enqueued? && e1.Woken? && Predicts(e1.est, BatchLimit(c, be))
    requires Timely(c, be, Run(c, be, [e0] + [e1]), e2)
    ensures AllTimely(c, be, [e0] + [e1] + [e2])
  {
    hide Run, Predicts, BatchLimit;
    var events := [e0] + [e1] + [e2];
    assert events[..2] == [e0] + [e1];
  }

  lemma LateReplyIsTimely(c: Config, r: Request, now: int)
    requires InBackend(Run(c, SINGLE_BACKEND, SlowStart(r, now)), r, now + 200 + c.guardNs)
    ensures AllTimely(c, SINGLE_BACKEND, SlowStart(r, now) + [LateReply(r, now)])
  {
    hide Run, BatchLimit, AllTimely, AnswerTo;
    TimelyTriple(c, SINGLE_BACKEND, Enqueued(r, (n: nat) => now), Woken(SLOW_ESTIMATE, (n: nat) => now),
                 LateReply(r, now));
  }

  lemma LateReplyMisses(c: Config, two: seq<Event>, r: Request, now: int)
    requires InBackend(Run(c, SINGLE_BACKEND, two), r, now + 200 + c.guardNs) && now + 150 > r.deadlineNs
    ensures !Unmissed(Run(c, SINGLE_BACKEND, two + [LateReply(r, now)]))
  {
    hide Run, Inv, WellFormed, Receive, Unmissed, AnswerTo;
    RunStep(c, SINGLE_BACKEND, two, LateReply(r, now));
    SoloAnsweredLate(c, Run(c, SINGLE_BACKEND, two), r, now + 150);
  }

  /** Without dropping, a request that arrives too late for the prediction is served all the same, and missed. */
  lemma {:induction false} SlowRunIsLate(c: Config)
    requires c.Valid() && !c.dropUnserviceable
    ensures AllTimely(c, SINGLE_BACKEND, SlowRun(c)) && !Unmissed(Run(c, SINGLE_BACKEND, SlowRun(c)))
  {
    var now := c.batchWindowNs + 10;
    var r := Urgent(c);
    hide Run, Unmissed, AllTimely, SlowStart, LateReply, InBackend;
    SlowStartTakesOff(c, r, now);
    LateReplyIsTimely(c, r, now);
    LateReplyMisses(c, SlowStart(r, now), r, now);
  }

  /** No run with punctual backends misses a deadline, on any backend, if and only if unserviceable requests
      are dropped. */
  lemma {:induction false} PunctualExactly(c: Config)
    requires c.Valid()
    ensures c.dropUnserviceable
       <==> forall be: Backend, events: seq<Event> | be.maxBatchSize >= 1 && AllTimely(c, be, events) ::
              Unmissed(Run(c, be, events))
  {
    hide Run, AllTimely, Unmissed;
    if c.dropUnserviceable {
      forall be: Backend, events: seq<Event> | be.maxBatchSize >= 1 && AllTimely(c, be, events)
        ensures Unmissed(Run(c, be, events))
      {
        NoDeadlineIsMissed(c, be, events);
      }
    } else {
      SlowRunIsLate(c);
      assert SINGLE_BACKEND.maxBatchSize >= 1;
    }
  }
}
