/** A closed scheduler drains: whatever else happens, enough timely wake-ups and replies end with the worker
    returned and every request resolved. */
module SchedulerDraining {
  import opened Types
  import opened SchedulerState
  import opened SchedulerInvariants
  import opened SchedulerSafety
  import opened SchedulerOutcomes
  import opened SchedulerFreshness

  /** What is left to do: two steps for every pending request, one for a batch in flight, one to return. */
  function Work(s: State): nat {
    match s.worker
    case Returned => 0
    case Waiting(_) => 1 + 2 * Count(s.entries, Pending)
    case Executing(_, _) => 2 + 2 * Count(s.entries, Pending)
  }

  /** By the horizon every request that was ever submitted has waited through the batching window. */
  ghost predicate Horizon(c: Config, s: State, horizon: int) {
    forall id: nat | id < |s.entries| :: s.entries[id].request.receivedNs + c.batchWindowNs <= horizon
  }

  /** The event that gets the worker on: a wake-up past the horizon, or the backend's reply. */
  ghost predicate Awaited(s: State, e: Event, horizon: int) {
    match s.worker
    case Waiting(_) => e.Woken? && e.clock(2) >= horizon
    case Executing(_, _) => e.Replied?
    case Returned => false
  }

  lemma SameRequestsSameHorizon(c: Config, s: State, r: State, horizon: int)
    requires Horizon(c, s, horizon) && |r.entries| == |s.entries|
    requires forall id: nat | id < |s.entries| :: r.entries[id].request == s.entries[id].request
    ensures Horizon(c, r, horizon)
  {
  }

  lemma WakeKeepsLength(c: Config, be: Backend, s: State, est: Predictor, clock: Clock)
    requires WellFormed(s) && Inv(c, s)
    ensures |Wake(c, be, s, est, clock).entries| == |s.entries|
  {
    hide Inv, WellFormed, CleanUp, Turn;
    CleanUpKeepsLength(c, s, est, clock);
    TurnKeepsLength(c, be, CleanUp(c, s, est, clock), est, clock);
  }

  lemma TurnKeepsLength(c: Config, be: Backend, s: State, est: Predictor, clock: Clock)
    requires InRange(s.entries, s.heap)
    ensures |Turn(c, be, s, est, clock).entries| == |s.entries|
  {
    hide TheChoice, DispatchAll, Active, DispatchAt, SafeBy;
  }

  lemma CloseKeepsLength(c: Config, s: State, cancelPending: bool, now: int)
    requires WellFormed(s) && Inv(c, s)
    ensures |Close(s, cancelPending, now).entries| == |s.entries|
  {
    hide CancelAll, Inv;
    var s1 := s.(accepting := false);
    CancelAllKeepsFrame(s1, s1.heap, now);
  }

  lemma ClosedStepKeepsHorizon(c: Config, be: Backend, s: State, e: Event, horizon: int)
    requires WellFormed(s) && Inv(c, s) && !s.accepting && !e.Started? && Horizon(c, s, horizon)
    ensures Horizon(c, Step(c, be, s, e), horizon)
  {
    StepIsTruthful(c, be, s, e);
    var r := Step(c, be, s, e);
    assert |r.entries| == |s.entries| by {
      hide Inv, WellFormed, Wake, Receive, Close;
      match e
      case Enqueued(_, _) =>
      case Woken(est, clock) => WakeKeepsLength(c, be, s, est, clock);
      case Replied(reply, clock) => ReceiveKeepsLength(c, s, reply, clock);
      case Closed(cancel, now) => CloseKeepsLength(c, s, cancel, now);
    }
    hide Inv, WellFormed, Step, Horizon, AllTruthful;
    SameRequestsSameHorizon(c, s, r, horizon);
  }

  // ---------------------------------------------------------------- one event

  lemma WakeWork(c: Config, be: Backend, s: State, est: Predictor, clock: Clock)
    requires WellFormed(s) && Inv(c, s) && s.worker.Waiting?
    ensures Work(Wake(c, be, s, est, clock)) <= Work(s)
    ensures !Wake(c, be, s, est, clock).worker.Waiting? ==> Work(Wake(c, be, s, est, clock)) < Work(s)
  {
    CleanUpCleans(c, s, [], est, clock);
    var s1 := CleanUp(c, s, est, clock);
    hide Sound, CleanUp, Turn, Cleaned;
    CleanedIsClean(c, s, s1, []);
    FewerPendingWhenCleaned(c, s, s1, []);
    CleanedKeepsWorker(c, s, s1, []);
    TurnSpendsCalls(c, be, s1, est, clock);
    TurnEndsSomehow(c, be, s1, est, clock);
  }

  lemma TurnEndsSomehow(c: Config, be: Backend, s: State, est: Predictor, clock: Clock)
    requires InRange(s.entries, s.heap) && s.worker.Waiting?
    ensures !Turn(c, be, s, est, clock).worker.Executing? ==> Turn(c, be, s, est, clock).entries == s.entries
  {
    hide TheChoice, DispatchAll, Active, DispatchAt, SafeBy;
  }

  /** A wake-up past the horizon does not leave the worker waiting. */
  lemma LateWakeWork(c: Config, be: Backend, s: State, est: Predictor, clock: Clock, horizon: int)
    requires WellFormed(s) && Inv(c, s) && s.worker.Waiting? && !s.accepting && Horizon(c, s, horizon)
    requires clock(2) >= horizon
    ensures Work(Wake(c, be, s, est, clock)) < Work(s)
  {
    ClosedTurnProgresses(c, be, s, est, clock);
    WakeWork(c, be, s, est, clock);
    var s1 := CleanUp(c, s, est, clock);
    CleanUpKeepsLength(c, s, est, clock);
    hide Inv, WellFormed, CleanUp, Wake;
    if s1.heap != [] {
      CleanUpEffect(c, s, est, clock, s1.heap[0]);
      SameRequestAfterCleanUp(c, s.entries[s1.heap[0]], est, clock);
    }
  }

  lemma SameRequestAfterCleanUp(c: Config, e: Entry, est: Predictor, clock: Clock)
    ensures AfterCleanUp(c, e, est, clock).request == e.request
  {
  }

  lemma ReplyWork(c: Config, s: State, reply: Reply, clock: Clock)
    requires WellFormed(s) && Inv(c, s) && s.worker.Executing?
    ensures Work(Receive(c, s, reply, clock)) < Work(s)
  {
    ReceiveSpendsNothing(c, s, reply, clock);
    ReceiveEnds(c, s, reply, clock);
    ReceiveKeepsBatches(c, s, reply, clock);
    hide Inv, WellFormed, Receive;
  }

  lemma ReceiveKeepsBatches(c: Config, s: State, reply: Reply, clock: Clock)
    requires WellFormed(s) && Inv(c, s)
    ensures Receive(c, s, reply, clock).tally.batches == s.tally.batches
  {
    if s.worker.Executing? {
      ReplyKeepsSound(c, s, reply, clock);
      hide Sound, FailAll, DeliverFrom;
    }
  }

  lemma CloseWork(c: Config, s: State, cancelPending: bool, now: int)
    requires WellFormed(s) && Inv(c, s)
    ensures Work(Close(s, cancelPending, now)) <= Work(s) && Close(s, cancelPending, now).worker == s.worker
  {
    CloseSpendsNothing(c, s, cancelPending, now);
    CloseKeepsWorker(c, s, cancelPending, now);
    CloseKeepsBatches(c, s, cancelPending, now);
    hide Inv, WellFormed, Close;
  }

  lemma CloseKeepsBatches(c: Config, s: State, cancelPending: bool, now: int)
    requires WellFormed(s) && Inv(c, s)
    ensures Close(s, cancelPending, now).tally.batches == s.tally.batches
  {
    hide Inv;
    var s1 := s.(accepting := false);
    CancelKeepsBatches(s1, s1.heap, now);
    hide CancelAll;
  }

  lemma {:induction false} CancelKeepsBatches(s: State, ids: seq<nat>, now: int)
    requires InRange(s.entries, ids) && Cancelled in s.tally.status
    ensures CancelAll(s, ids, now).tally.batches == s.tally.batches
  {
    if ids != [] {
      CancelKeepsBatches(s, ids[..|ids| - 1], now);
    }
  }

  /** No event adds to the work of a closed scheduler; the awaited one lessens it; and while the work stays the
      same, so does what is awaited. */
  lemma ClosedStepWork(c: Config, be: Backend, s: State, e: Event, horizon: int)
    requires WellFormed(s) && Inv(c, s) && !s.accepting && !e.Started? && Horizon(c, s, horizon)
    ensures var r := Step(c, be, s, e);
            && Work(r) <= Work(s)
            && (Awaited(s, e, horizon) ==> Work(r) < Work(s))
            && (Work(r) == Work(s) ==> SameKind(s, r))
  {
    hide Inv, WellFormed, Wake, Receive, Close, Work, Horizon;
    match e
    case Enqueued(_, _) =>
    case Woken(est, clock) =>
      if s.worker.Waiting? {
        WakeWork(c, be, s, est, clock);
        if clock(2) >= horizon {
          LateWakeWork(c, be, s, est, clock, horizon);
        }
      } else {
        NothingToWake(c, be, s, est, clock);
      }
    case Replied(reply, clock) =>
      if s.worker.Executing? {
        ReplyWork(c, s, reply, clock);
      } else {
        NothingToReceive(c, s, reply, clock);
      }
    case Closed(cancel, now) => CloseWork(c, s, cancel, now);
  }

  lemma NothingToWake(c: Config, be: Backend, s: State, est: Predictor, clock: Clock)
    requires WellFormed(s) && !s.worker.Waiting?
    ensures Wake(c, be, s, est, clock) == s
  {
  }

  lemma NothingToReceive(c: Config, s: State, reply: Reply, clock: Clock)
    requires WellFormed(s) && !s.worker.Executing?
    ensures Receive(c, s, reply, clock) == s
  {
  }

  // ---------------------------------------------------------------- rounds

  /** What a closed scheduler keeps. */
  ghost predicate Closing(c: Config, s: State, horizon: int) {
    WellFormed(s) && Inv(c, s) && !s.accepting && Horizon(c, s, horizon)
  }

  lemma StepKeepsClosing(c: Config, be: Backend, s: State, e: Event, horizon: int)
    requires Closing(c, s, horizon) && !e.Started?
    ensures Closing(c, Step(c, be, s, e), horizon)
  {
    hide Inv, WellFormed, Step, Horizon, Calls;
    StepKeepsInv(c, be, s, e);
    InvIsWellFormed(c, Step(c, be, s, e));
    StepSpendsCalls(c, be, s, e);
    ClosedStepKeepsHorizon(c, be, s, e, horizon);
  }

  ghost predicate NeverStarted(events: seq<Event>) {
    forall k | 0 <= k < |events| :: !events[k].Started?
  }

  lemma {:induction false} EventsKeepClosing(c: Config, be: Backend, s: State, events: seq<Event>, horizon: int)
    requires Closing(c, s, horizon) && NeverStarted(events)
    ensures Closing(c, RunFrom(c, be, s, events), horizon) && Work(RunFrom(c, be, s, events)) <= Work(s)
  {
    if events != [] {
      hide Closing, Step, Work;
      var front := events[..|events| - 1];
      EventsKeepClosing(c, be, s, front, horizon);
      ClosingParts(c, RunFrom(c, be, s, front), horizon);
      StepKeepsClosing(c, be, RunFrom(c, be, s, front), events[|events| - 1], horizon);
      ClosedStepWork(c, be, RunFrom(c, be, s, front), events[|events| - 1], horizon);
    }
  }

  lemma ClosingParts(c: Config, s: State, horizon: int)
    requires Closing(c, s, horizon)
    ensures WellFormed(s) && Inv(c, s) && !s.accepting && Horizon(c, s, horizon)
  {
  }

  ghost predicate SameKind(s: State, r: State) {
    (r.worker.Waiting? <==> s.worker.Waiting?) && (r.worker.Executing? <==> s.worker.Executing?)
  }

  lemma SameKindAwaitsSame(s: State, r: State, e: Event, horizon: int)
    requires SameKind(s, r)
    ensures Awaited(s, e, horizon) <==> Awaited(r, e, horizon)
  {
  }

  lemma LastEvent(c: Config, be: Backend, s: State, events: seq<Event>)
    requires WellFormed(s) && events != []
    ensures RunFrom(c, be, s, events) == Step(c, be, RunFrom(c, be, s, events[..|events| - 1]), events[|events| - 1])
  {
    hide WellFormed, Step;
  }

  ghost predicate NoneAwaited(s: State, events: seq<Event>, horizon: int) {
    forall k | 0 <= k < |events| :: !Awaited(s, events[k], horizon)
  }

  lemma NoneAwaitedGrows(s: State, events: seq<Event>, horizon: int)
    requires events != [] && NoneAwaited(s, events[..|events| - 1], horizon)
    requires !Awaited(s, events[|events| - 1], horizon)
    ensures NoneAwaited(s, events, horizon)
  {
    hide Awaited;
    assert events == events[..|events| - 1] + [events[|events| - 1]];
  }

  /** The last of some events that leave the work as it was is not awaited, nor did the others lessen it. */
  lemma LastIsNotAwaited(c: Config, be: Backend, s: State, r: State, last: Event, horizon: int)
    requires Closing(c, r, horizon) && !last.Started? && Work(r) <= Work(s) && SameKind(s, r)
    ensures WellFormed(r) && Work(Step(c, be, r, last)) <= Work(r)
    ensures Work(Step(c, be, r, last)) == Work(s) ==>
              SameKind(s, Step(c, be, r, last)) && !Awaited(s, last, horizon)
  {
    hide Closing, Step, Work, SameKind, Awaited, Inv, WellFormed, Horizon;
    ClosingParts(c, r, horizon);
    ClosedStepWork(c, be, r, last, horizon);
    SameKindAwaitsSame(s, r, last, horizon);
    SameKindTwice(s, r, Step(c, be, r, last));
  }

  lemma FrontOfRound(events: seq<Event>)
    requires NeverStarted(events) && events != []
    ensures NeverStarted(events[..|events| - 1]) && !events[|events| - 1].Started?
  {
  }

  /** A stretch of events that leaves the work as it was has not contained the awaited event. */
  lemma {:induction false} AwaitedLasts(c: Config, be: Backend, s: State, events: seq<Event>, horizon: int)
    requires Closing(c, s, horizon) && NeverStarted(events)
    ensures WellFormed(s)
    ensures Work(RunFrom(c, be, s, events)) == Work(s) ==>
              SameKind(s, RunFrom(c, be, s, events)) && NoneAwaited(s, events, horizon)
  {
    ClosingParts(c, s, horizon);
    if events == [] {
      assert RunFrom(c, be, s, events) == s;
    } else {
      hide Closing, Step, Work, RunFrom, SameKind, Awaited, NoneAwaited, NeverStarted, Inv, WellFormed, Horizon;
      var (front, last) := (events[..|events| - 1], events[|events| - 1]);
      FrontOfRound(events);
      LastEvent(c, be, s, events);
      EventsKeepClosing(c, be, s, front, horizon);
      EventsKeepClosing(c, be, s, events, horizon);
      AwaitedLasts(c, be, s, front, horizon);
      if Work(RunFrom(c, be, s, front)) == Work(s) {
        LastIsNotAwaited(c, be, s, RunFrom(c, be, s, front), last, horizon);
        if Work(RunFrom(c, be, s, events)) == Work(s) {
          NoneAwaitedGrows(s, events, horizon);
        }
      } else {
        ClosingParts(c, RunFrom(c, be, s, front), horizon);
        ClosedStepWork(c, be, RunFrom(c, be, s, front), last, horizon);
      }
    }
  }

  lemma SameKindTwice(s: State, r: State, t: State)
    requires SameKind(s, r)
    ensures SameKind(r, t) ==> SameKind(s, t)
  {
  }

  /** A round holds, in any order and among anything but a restart, a wake-up past the horizon and a reply. */
  ghost predicate DueRound(round: seq<Event>, horizon: int) {
    && NeverStarted(round)
    && (exists i :: 0 <= i < |round| && round[i].Woken? && round[i].clock(2) >= horizon)
    && (exists j :: 0 <= j < |round| && round[j].Replied?)
  }

  lemma RoundLessensWork(c: Config, be: Backend, s: State, round: seq<Event>, horizon: int)
    requires Closing(c, s, horizon) && DueRound(round, horizon) && !s.worker.Returned?
    ensures WellFormed(s) && Work(RunFrom(c, be, s, round)) < Work(s)
  {
    hide Closing, Work, RunFrom;
    ClosingParts(c, s, horizon);
    EventsKeepClosing(c, be, s, round, horizon);
    AwaitedLasts(c, be, s, round, horizon);
  }

  ghost function RunRounds(c: Config, be: Backend, s: State, rounds: seq<seq<Event>>): (r: State)
    requires WellFormed(s)
    ensures WellFormed(r)
    decreases |rounds|
  {
    if rounds == [] then s else RunRounds(c, be, RunFrom(c, be, s, rounds[0]), rounds[1..])
  }

  lemma NoWorkIsReturned(s: State)
    ensures Work(s) == 0 <==> s.worker.Returned?
  {
  }

  lemma {:induction false} RoundsFinishWork(c: Config, be: Backend, s: State, rounds: seq<seq<Event>>, horizon: int)
    requires Closing(c, s, horizon) && |rounds| >= Work(s)
    requires forall i | 0 <= i < |rounds| :: DueRound(rounds[i], horizon)
    ensures WellFormed(s)
    ensures Closing(c, RunRounds(c, be, s, rounds), horizon) && RunRounds(c, be, s, rounds).worker.Returned?
    decreases |rounds|
  {
    hide Closing, Work, RunFrom, DueRound;
    ClosingParts(c, s, horizon);
    NoWorkIsReturned(s);
    if rounds != [] {
      NeverStartedRound(rounds[0], horizon);
      EventsKeepClosing(c, be, s, rounds[0], horizon);
      if !s.worker.Returned? {
        RoundLessensWork(c, be, s, rounds[0], horizon);
      }
      RoundsFinishWork(c, be, RunFrom(c, be, s, rounds[0]), rounds[1..], horizon);
    }
  }

  lemma NeverStartedRound(round: seq<Event>, horizon: int)
    requires DueRound(round, horizon)
    ensures NeverStarted(round)
  {
  }

  function Concat(rounds: seq<seq<Event>>): seq<Event> {
    if rounds == [] then [] else rounds[0] + Concat(rounds[1..])
  }

  lemma {:induction false} RunFromConcat(c: Config, be: Backend, s: State, a: seq<Event>, b: seq<Event>)
    requires WellFormed(s)
    ensures RunFrom(c, be, s, a + b) == RunFrom(c, be, RunFrom(c, be, s, a), b)
    decreases |b|
  {
    hide WellFormed, Step;
    if b == [] {
      assert a + b == a;
    } else {
      assert (a + b)[..|a + b| - 1] == a + b[..|b| - 1];
      RunFromConcat(c, be, s, a, b[..|b| - 1]);
    }
  }

  lemma {:induction false} RoundsAreEvents(c: Config, be: Backend, s: State, rounds: seq<seq<Event>>)
    requires WellFormed(s)
    ensures RunFrom(c, be, s, Concat(rounds)) == RunRounds(c, be, s, rounds)
    decreases |rounds|
  {
    hide WellFormed, RunFrom;
    if rounds == [] {
      assert RunFrom(c, be, s, []) == s by {
        NoEvents(c, be, s);
      }
    } else {
      RunFromConcat(c, be, s, rounds[0], Concat(rounds[1..]));
      RoundsAreEvents(c, be, RunFrom(c, be, s, rounds[0]), rounds[1..]);
    }
  }

  lemma NoEvents(c: Config, be: Backend, s: State)
    requires WellFormed(s)
    ensures RunFrom(c, be, s, []) == s
  {
  }

  /** Closing drains over whole runs: from any reachable state in which admission has stopped, any continuation
      made of enough rounds, each with a wake-up past the horizon and a reply among whatever else but a restart,
      ends with the worker returned, the queue empty, nothing in flight and every request resolved.  Two rounds
      for every pending request and two more are enough. */
  lemma {:induction false} ClosedRunDrains(c: Config, be: Backend, events: seq<Event>, rounds: seq<seq<Event>>,
                                           horizon: int)
    requires !Run(c, be, events).accepting && Horizon(c, Run(c, be, events), horizon)
    requires forall i | 0 <= i < |rounds| :: DueRound(rounds[i], horizon)
    requires |rounds| >= 2 * Count(Run(c, be, events).entries, Pending) + 2
    ensures var r := Run(c, be, events + Concat(rounds));
            && r.worker.Returned? && r.heap == [] && FlightOf(r) == []
            && forall id: nat | id < |r.entries| :: r.entries[id].outcome.Some? && !r.entries[id].active
  {
    var s := Run(c, be, events);
    RunIsSound(c, be, events);
    WorkBound(s);
    hide Run, Inv, WellFormed, RunFrom, DueRound, Horizon, Work;
    RoundsFinishWork(c, be, s, rounds, horizon);
    RoundsAreEvents(c, be, s, rounds);
    RunSplit(c, be, events, Concat(rounds));
    RunIsSound(c, be, events + Concat(rounds));
    ReturnedResolvesAll(c, Run(c, be, events + Concat(rounds)));
  }

  lemma WorkBound(s: State)
    ensures Work(s) <= 2 * Count(s.entries, Pending) + 2
  {
  }
}
