/** When a backend call fails as a whole: exactly for which replies, and a run in which a mismatch spares the
    requests before it. */
module SchedulerRouting {
  import opened Types
  import opened SchedulerState
  import opened SchedulerInvariants
  import opened SchedulerSafety
  import opened SchedulerOutcomes
  import opened SchedulerBatches
  import opened SchedulerFreshness
  import opened SchedulerGathering

  predicate IsFailed(e: Entry) {
    e.outcome.Some? && e.outcome.value.status.Failed?
  }

  ghost predicate AllFailed(es: seq<Entry>, batch: seq<nat>)
    requires InRange(es, batch)
  {
    forall i | 0 <= i < |batch| :: IsFailed(es[batch[i]])
  }

  lemma BatchIsNotEmpty(c: Config, s: State)
    requires Inv(c, s) && s.worker.Executing?
    ensures s.worker.batch != []
  {
    hide Sound;
  }

  lemma DeliveredIsNotFailed(c: Config, e: Entry, action: ActionChunk, now: int)
    ensures !IsFailed(Delivered(c, e, action, now))
  {
  }

  lemma FailedIsFailed(e: Entry, now: int)
    requires e.outcome.None?
    ensures IsFailed(FailedEntry(e, now))
  {
  }

  /** The whole batch fails if and only if the backend raised, or its reply has the wrong length, or the first
      action of it differs from the first request in its request id, session, sequence number or model. */
  lemma {:induction false} WholeBatchFailsExactly(c: Config, s: State, reply: Reply, clock: Clock)
    requires WellFormed(s) && Inv(c, s) && s.worker.Executing?
    ensures s.worker.batch != [] && InRange(Receive(c, s, reply, clock).entries, s.worker.batch)
    ensures s.worker.batch[0] < |s.entries|
    ensures AllFailed(Receive(c, s, reply, clock).entries, s.worker.batch)
       <==> reply.Raised? || |reply.actions| != |s.worker.batch|
            || var (a, r) := (reply.actions[0], s.entries[s.worker.batch[0]].request);
               || a.requestId != r.requestId || a.sessionId != r.sessionId || a.sequenceNo != r.sequenceNo
               || a.model != r.model
  {
    BatchIsNotEmpty(c, s);
    BatchIsOpen(c, s);
    RoutingEffect(c, s, reply, clock);
    var (r, batch, n) := (Receive(c, s, reply, clock), s.worker.batch, Usable(s, reply));
    UsableIsSome(s, reply);
    if reply.Answered? && |reply.actions| == |batch| {
      IdentifiedByFourFields(reply.actions[0], s.entries[batch[0]].request);
    }
    hide Inv, WellFormed, Receive, Identifies, Delivered, FailedEntry, IsFailed, Usable;
    if n == 0 {
      forall i | 0 <= i < |batch| ensures IsFailed(r.entries[batch[i]]) {
        FailedIsFailed(s.entries[batch[i]], clock(n));
      }
    } else {
      DeliveredIsNotFailed(c, s.entries[batch[0]], reply.actions[0], clock(0));
    }
  }

  lemma UsableIsSome(s: State, reply: Reply)
    requires s.worker.Executing? && InRange(s.entries, s.worker.batch) && s.worker.batch != []
    ensures Usable(s, reply) == 0
       <==> reply.Raised? || |reply.actions| != |s.worker.batch|
            || !Identifies(reply.actions[0], s.entries[s.worker.batch[0]].request)
  {
  }

  // ---------------------------------------------------------------- a mismatch that spares the first request

  function AnswerTo(r: Request): ActionChunk {
    ActionChunk(r.requestId, r.sessionId, r.model, r.sequenceNo, [], 0)
  }

  const PAIR_BACKEND: Backend := Backend(2, (r: Request) => [])

  /** Two observations of two robots, both due at `now`. */
  function Pair(c: Config, now: int): seq<Request> {
    [Request("request", "a", "model", "default", now + 100, now - c.batchWindowNs, 0, 0),
     Request("request", "b", "model", "default", now + 200, now - c.batchWindowNs, 0, 0)]
  }

  /** The first action is right, the second is the first one's again. */
  function Mixed(c: Config, now: int): Reply {
    Answered([AnswerTo(Pair(c, now)[0]), AnswerTo(Pair(c, now)[0])])
  }

  /** A batch of the pair, in flight. */
  ghost predicate PairInFlight(c: Config, s: State, now: int) {
    && s.worker.Executing? && s.worker.batch == [0, 1] && |s.entries| == 2
    && s.entries[0].request == Pair(c, now)[0] && s.entries[1].request == Pair(c, now)[1]
  }

  /** The first request of the pair completes with its action, the second fails without one. */
  ghost predicate FirstSpared(c: Config, s: State, now: int) {
    && |s.entries| == 2 && s.entries[0].outcome.Some? && s.entries[1].outcome.Some?
    && s.entries[0].outcome.value.status == Completed
    && s.entries[0].outcome.value.action == Some(AnswerTo(Pair(c, now)[0]))
    && s.entries[1].outcome.value.status == Failed && s.entries[1].outcome.value.action == None
  }

  lemma MixedSparesTheFirst(c: Config, s: State, now: int)
    requires WellFormed(s) && Inv(c, s) && PairInFlight(c, s, now)
    ensures FirstSpared(c, Receive(c, s, Mixed(c, now), (n: nat) => now), now)
  {
    BatchIsOpen(c, s);
    RoutingEffect(c, s, Mixed(c, now), (n: nat) => now);
    hide Inv, WellFormed, Receive;
    assert s.worker.batch[0] == 0 && s.worker.batch[1] == 1;
    var actions := Mixed(c, now).actions;
    assert Identifies(actions[0], s.entries[0].request) && !Identifies(actions[1], s.entries[1].request);
    assert Matching(s.entries, s.worker.batch, actions, 0) == 1;
    assert s.entries[0].outcome.None? && s.entries[1].outcome.None?;
  }

  lemma PairIsChosen(c: Config, clock: Clock, now: int, checkedAt: int)
    requires c.Valid() && c.maxBatchSize != Some(1)
    ensures TheChoice(c, PAIR_BACKEND, PendingAll(Pair(c, now)), NO_ESTIMATE, clock, FirstIds(2), checkedAt).ids
         == [0, 1]
  {
    assert FirstIds(2) == [0, 1] && [0, 1][1..] == [1] && [1][1..] == [];
    assert BatchLimit(c, PAIR_BACKEND) == 2;
  }

  lemma PairIsInLine(c: Config, now: int)
    ensures InLine(c, Pair(c, now), now)
  {
  }

  lemma PairIsDue(c: Config, s: State, now: int)
    requires Gathered(s, Pair(c, now))
    ensures s.heap == FirstIds(2) && s.entries == PendingAll(Pair(c, now)) && s.worker.Waiting?
    ensures s.heap[0] == 0 && now >= DispatchAt(c, s.entries[0].request, NO_ESTIMATE(1))
  {
  }

  lemma GatheredPairTakesOff(c: Config, s: State, now: int)
    requires WellFormed(s) && Gathered(s, Pair(c, now)) && c.Valid() && c.maxBatchSize != Some(1)
    ensures PairInFlight(c, Wake(c, PAIR_BACKEND, s, NO_ESTIMATE, (n: nat) => now), now)
  {
    var clock: Clock := (n: nat) => now;
    GatheredCleanUp(c, s, Pair(c, now), NO_ESTIMATE, now);
    PairIsDue(c, s, now);
    PairIsInLine(c, now);
    LineIsSorted(c, Pair(c, now), now);
    PairIsChosen(c, (n: nat) => clock(n + 3), now, clock(1));
    hide CleanUp, TheChoice, Sorted, DispatchAt, InLine, TakeBatch, Gathered, WellFormed, Pair;
    TakenChoice(c, PAIR_BACKEND, s, NO_ESTIMATE, (n: nat) => clock(n + 3), clock(1));
  }

  /** The events of the pair's run: two arrivals, a batch, and the mixed reply. */
  function MixedRun(c: Config, now: int): seq<Event> {
    Arrivals(Pair(c, now), now) + [Woken(NO_ESTIMATE, (n: nat) => now)] + [Replied(Mixed(c, now), (n: nat) => now)]
  }

  /** Wherever two requests can share a batch there is a run in which a reply with a mismatch does not fail the
      whole call: the request before the mismatch completes with its action. */
  lemma {:induction false} MismatchSparesEarlier(c: Config, now: int)
    requires c.Valid() && c.maxBatchSize != Some(1) && c.maxPending != Some(1)
    ensures FirstSpared(c, Run(c, PAIR_BACKEND, MixedRun(c, now)), now)
  {
    var rs := Pair(c, now);
    var one := Arrivals(rs, now);
    var two := one + [Woken(NO_ESTIMATE, (n: nat) => now)];
    PairIsInLine(c, now);
    hide InLine, Gathered, Run, WellFormed, Wake, Receive, Inv, FirstSpared, PairInFlight, Pair, Mixed;
    PairSize(c, now);
    LineGathers(c, PAIR_BACKEND, rs, now);
    RunStep(c, PAIR_BACKEND, one, Woken(NO_ESTIMATE, (n: nat) => now));
    GatheredPairTakesOff(c, Run(c, PAIR_BACKEND, one), now);
    RunIsSound(c, PAIR_BACKEND, two);
    RunStep(c, PAIR_BACKEND, two, Replied(Mixed(c, now), (n: nat) => now));
    MixedSparesTheFirst(c, Run(c, PAIR_BACKEND, two), now);
  }

  lemma PairSize(c: Config, now: int)
    ensures |Pair(c, now)| == 2
  {
  }
}
