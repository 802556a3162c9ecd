/** Every request gets exactly one outcome, and it is the right one: conservation, final outcomes,
    fail-closed routing, no missed deadline under a punctual backend, and draining after close. */
module SchedulerOutcomes {
  import opened Types
  import opened SchedulerState
  import opened SchedulerInvariants
  import opened SchedulerSafety

  // ---------------------------------------------------------------- conservation

  /** In every reachable state each submitted request is pending, in flight, or counted under exactly
      one status, and each dispatched one is completed, missed, failed or in flight. */
  lemma {:induction false} Conservation(c: Config, be: Backend, events: seq<Event>)
    ensures var s := Run(c, be, events);
            && s.tally.submitted
               == |Active(s.entries, s.heap)| + |FlightOf(s)|
                  + s.tally.status[Completed] + s.tally.status[DeadlineMissed] + s.tally.status[Expired]
                  + s.tally.status[Unserviceable] + s.tally.status[Replaced] + s.tally.status[OutOfOrder]
                  + s.tally.status[Overloaded] + s.tally.status[Failed] + s.tally.status[Cancelled]
            && s.tally.dispatched
               == s.tally.status[Completed] + s.tally.status[DeadlineMissed] + s.tally.status[Failed] + |FlightOf(s)|
            && s.tally.batchItems == s.tally.dispatched
  {
    var s := Run(c, be, events);
    hide Run, WellFormed;
    RunIsSound(c, be, events);
    SoundHasParts(c, s, FlightOf(s));
    assert LogOk(s) && TallyOk(s) && FlightOk(s.entries, FlightOf(s));
    LiveCount(c, s);
    FlightCount(s.entries, FlightOf(s));
    PhasesPartition(s.entries);
    hide *;
  }

  lemma FlightCount(es: seq<Entry>, flight: seq<nat>)
    requires FlightOk(es, flight)
    ensures |flight| == Count(es, InFlight)
  {
    forall id: nat ensures id in flight <==> id < |es| && PhaseOf(es[id]).InFlight? {
      if id in flight {
        var i :| 0 <= i < |flight| && flight[i] == id;
      }
    }
    ListedCount(es, InFlight, flight);
  }

  // ---------------------------------------------------------------- how outcomes come about

  /** Whatever was resolved in `s` is the same in `r`, requests never change, and a new outcome is one
      of those that the scheduler gives without the backend: it carries no action. */
  ghost predicate Quiet(s: State, r: State) {
    && |s.entries| <= |r.entries|
    && (forall id: nat | id < |s.entries| :: r.entries[id].request == s.entries[id].request)
    && (forall id: nat | id < |s.entries| && s.entries[id].outcome.Some? :: r.entries[id] == s.entries[id])
    && (forall id: nat | id < |r.entries| && NewlyResolved(s, r, id) ::
          r.entries[id].outcome.value.action.None? && !FromBackend(r.entries[id].outcome.value.status))
  }

  ghost predicate NewlyResolved(s: State, r: State, id: nat)
    requires id < |r.entries|
  {
    r.entries[id].outcome.Some? && (id < |s.entries| ==> s.entries[id].outcome.None?)
  }

  lemma QuietTwice(s: State, r: State, t: State)
    requires Quiet(s, r) && Quiet(r, t)
    ensures Quiet(s, t)
  {
    forall id: nat | id < |t.entries| && NewlyResolved(s, t, id)
      ensures t.entries[id].outcome.value.action.None? && !FromBackend(t.entries[id].outcome.value.status)
    {
      if id < |r.entries| && r.entries[id].outcome.Some? {
        assert NewlyResolved(s, r, id);
      } else {
        assert NewlyResolved(r, t, id);
      }
    }
  }

  lemma SameEntriesIsQuiet(s: State, r: State)
    requires r.entries == s.entries
    ensures Quiet(s, r)
  {
  }

  lemma SweepIsQuiet(s: State, ids: seq<nat>, cutoff: int, status: Status, now: int)
    requires AllOk(s.entries) && InRange(s.entries, ids) && status in s.tally.status && !FromBackend(status)
    ensures Quiet(s, Sweep(s, ids, cutoff, status, now))
  {
    var r := Sweep(s, ids, cutoff, status, now);
    hide Sweep;
    forall id: nat | id < |s.entries|
      ensures r.entries[id].request == s.entries[id].request
      ensures s.entries[id].outcome.Some? ==> r.entries[id] == s.entries[id]
      ensures NewlyResolved(s, r, id) ==>
                r.entries[id].outcome.value.action.None? && !FromBackend(r.entries[id].outcome.value.status)
    {
      SweepEffect(s, ids, cutoff, status, now, id);
    }
  }

  lemma ExpireIsQuiet(c: Config, s: State, flight: seq<nat>, now: int)
    requires Sound(c, s, flight)
    ensures InRange(s.entries, s.heap)
    ensures InRange(Compact(s).entries, Compact(s).heap) && Expired in Compact(s).tally.status
    ensures Quiet(s, Expire(Compact(s), now))
  {
    hide Sound, Sweep, Quiet, Active;
    SoundHasParts(c, s, flight);
    ExpireCleans(c, s, flight, now);
    SweepIsQuiet(Compact(s), Compact(s).heap, now + 1, Expired, now);
    var s1 := Sweep(Compact(s), Compact(s).heap, now + 1, Expired, now);
    SameEntriesIsQuiet(s, Compact(s));
    SameEntriesIsQuiet(s1, Expire(Compact(s), now));
    QuietTwice(s, Compact(s), s1);
    QuietTwice(s, s1, Expire(Compact(s), now));
  }

  lemma CleanUpIsQuiet(c: Config, s: State, flight: seq<nat>, est: Predictor, clock: Clock)
    requires WellFormed(s) && Sound(c, s, flight)
    ensures Quiet(s, CleanUp(c, s, est, clock))
  {
    hide Sound, Quiet, Expire, Compact, Drop;
    ExpireCleans(c, s, flight, clock(0));
    ExpireIsQuiet(c, s, flight, clock(0));
    var s2 := Expire(Compact(s), clock(0));
    CleanedIsSound(c, s, s2, flight);
    SoundHasParts(c, s2, flight);
    SoundIsWellFormed(c, s2, flight);
    DropIsQuiet(c, s2, flight, est(1), clock(1));
    QuietTwice(s, s2, CleanUp(c, s, est, clock));
  }

  lemma DropIsQuiet(c: Config, s: State, flight: seq<nat>, predicted: Option<int>, now: int)
    requires AllOk(s.entries) && InRange(s.entries, s.heap) && Unserviceable in s.tally.status
    ensures Quiet(s, Drop(c, s, predicted, now))
  {
    hide Sweep, Quiet, Active, AllOk;
    if c.dropUnserviceable && predicted.Some? {
      var s1 := Sweep(s, s.heap, now + predicted.value + c.guardNs, Unserviceable, now);
      SweepIsQuiet(s, s.heap, now + predicted.value + c.guardNs, Unserviceable, now);
      SameEntriesIsQuiet(s1, Compact(s1));
      QuietTwice(s, s1, Compact(s1));
    } else {
      SameEntriesIsQuiet(s, s);
    }
  }

  lemma DispatchAllIsQuiet(s: State, ids: seq<nat>, ats: seq<int>)
    requires AllOk(s.entries) && AllActive(s.entries, ids) && |ats| == |ids| && Distinct(ids)
    ensures Quiet(s, DispatchAll(s, ids, ats))
  {
    var r := DispatchAll(s, ids, ats);
    DispatchAllEffect(s, ids, ats);
    hide DispatchAll;
    forall id: nat | id < |s.entries|
      ensures r.entries[id].request == s.entries[id].request && r.entries[id].outcome == s.entries[id].outcome
      ensures s.entries[id].outcome.Some? ==> r.entries[id] == s.entries[id]
    {
      if id in ids {
        var i :| 0 <= i < |ids| && ids[i] == id;
        assert s.entries[ids[i]].active && EntryOk(s.entries[ids[i]]);
      }
    }
  }

  lemma TurnIsQuiet(c: Config, be: Backend, s: State, est: Predictor, clock: Clock)
    requires Cleaned(c, s, s, [])
    ensures InRange(s.entries, s.heap) && Quiet(s, Turn(c, be, s, est, clock))
  {
    hide Sound, Cleaned, Quiet, Sorted, Select, DispatchAll, Active;
    CleanedHeap(c, s);
    SoundHasPartsWhenCleaned(c, s);
    var r := Turn(c, be, s, est, clock);
    if s.heap == [] || clock(2) < DispatchAt(c, s.entries[s.heap[0]].request, est(1)) {
      SameEntriesIsQuiet(s, r);
    } else {
      var ch := TheChoice(c, be, s.entries, est, (n: nat) => clock(n + 3), s.heap, clock(1));
      ChoiceIsOrdered(c, be, s.entries, est, (n: nat) => clock(n + 3), s.heap, clock(1));
      var s1 := DispatchAll(s, ch.ids, ch.ats);
      DispatchAllIsQuiet(s, ch.ids, ch.ats);
      assert r.entries == s1.entries;
      SameEntriesIsQuiet(s1, r);
      QuietTwice(s, s1, r);
    }
  }

  lemma SoundHasPartsWhenCleaned(c: Config, s: State)
    requires Cleaned(c, s, s, [])
    ensures AllOk(s.entries) && InRange(s.entries, s.heap)
  {
    CleanedIsSound(c, s, s, []);
    assert HeapOk(c, s);
  }

  lemma WakeIsQuiet(c: Config, be: Backend, s: State, est: Predictor, clock: Clock)
    requires WellFormed(s) && Inv(c, s)
    ensures Quiet(s, Wake(c, be, s, est, clock))
  {
    if s.worker.Waiting? {
      hide Sound, CleanUp, Cleaned, Turn, Quiet;
      CleanUpCleans(c, s, [], est, clock);
      CleanUpIsQuiet(c, s, [], est, clock);
      var s1 := CleanUp(c, s, est, clock);
      CleanedIsClean(c, s, s1, []);
      TurnIsQuiet(c, be, s1, est, clock);
      QuietTwice(s, s1, Turn(c, be, s1, est, clock));
    } else {
      SameEntriesIsQuiet(s, s);
    }
  }

  // ---------------------------------------------------------------- admission and close are quiet too

  lemma RejectIsQuiet(s: State, r: Request, status: Status, now: int)
    requires status in s.tally.status && !FromBackend(status)
    ensures Quiet(s, Reject(s, r, status, now))
  {
  }

  lemma AdmitIsQuiet(c: Config, s: State, r: Request)
    requires InRange(s.entries, s.heap)
    ensures Quiet(s, Admit(c, s, r))
  {
  }

  lemma SupersedeIsQuiet(s: State, id: nat, r: Request, now: int)
    requires id < |s.entries| && Replaced in s.tally.status && EntryOk(s.entries[id])
    requires !PhaseOf(s.entries[id]).InFlight?
    ensures Quiet(s, Supersede(s, id, r, now))
  {
    if PhaseOf(s.entries[id]).Done? {
      SupersedeResolved(s, id, r, now);
    }
  }

  lemma EnqueueIsQuiet(c: Config, s: State, r: Request, clock: Clock)
    requires WellFormed(s) && Inv(c, s)
    ensures Quiet(s, Enqueue(c, s, r, clock))
  {
    var s0 := CountSubmit(s);
    SameEntriesIsQuiet(s, s);
    SameEntriesIsQuiet(s, s0);
    SameCoreKeepsSound(c, s, s0, FlightOf(s));
    if s.accepting {
      hide Sound, Quiet, Reject, Admit, Supersede;
      if Stale(c, s, r) {
        RejectIsQuiet(s0, r, OutOfOrder, clock(0));
        QuietTwice(s, s0, Reject(s0, r, OutOfOrder, clock(0)));
      } else {
        EnqueueFreshIsQuiet(c, s0, r, clock);
        QuietTwice(s, s0, Enqueue(c, s, r, clock));
      }
    }
  }

  lemma ReplacingIsQuiet(c: Config, s0: State, s1: State, id: nat, r: Request, now: int)
    requires Quiet(s0, s1) && id < |s1.entries| && Replaced in s1.tally.status && InRange(s1.entries, s1.heap)
    requires EntryOk(s1.entries[id]) && !PhaseOf(s1.entries[id]).InFlight?
    ensures InRange(Supersede(s1, id, r, now).entries, Supersede(s1, id, r, now).heap)
    ensures Quiet(s0, Admit(c, Supersede(s1, id, r, now), r))
  {
    hide Quiet, Admit, Supersede;
    var s2 := Supersede(s1, id, r, now);
    SupersedeIsQuiet(s1, id, r, now);
    SupersedeShape(s1, id, r, now);
    AdmitIsQuiet(c, s2, r);
    QuietTwice(s0, s1, s2);
    QuietTwice(s0, s2, Admit(c, s2, r));
  }

  lemma EnqueueFreshIsQuiet(c: Config, s0: State, r: Request, clock: Clock)
    requires WellFormed(s0) && Sound(c, s0, FlightOf(s0)) && !Stale(c, s0, r)
    ensures InRange(s0.entries, s0.heap)
    ensures InRange(Compact(s0).entries, Compact(s0).heap) && Expired in Compact(s0).tally.status
    ensures var s1 := Expire(Compact(s0), clock(0));
            var p := Previous(c, s0, SessionOf(r));
            && (forall x: Status :: x in s1.tally.status) && InRange(s1.entries, s1.heap)
            && |s1.entries| == |s0.entries|
            && if p.None? && AtCapacity(c, s1) then Quiet(s0, Reject(s1, r, Overloaded, clock(1)))
               else
                 var s2 := if p.Some? then Supersede(s1, p.value, r, clock(1)) else s1;
                 InRange(s2.entries, s2.heap) && Quiet(s0, Admit(c, s2, r))
  {
    var (flight, p) := (FlightOf(s0), Previous(c, s0, SessionOf(r)));
    hide Sound, Quiet, Compact, Expire, Reject, Admit, Supersede, Previous, Stale, WellFormed;
    ExpireCleans(c, s0, flight, clock(0));
    ExpireIsQuiet(c, s0, flight, clock(0));
    var s1 := Expire(Compact(s0), clock(0));
    CleanedIsSound(c, s0, s1, flight);
    SoundIsWellFormed(c, s1, flight);
    SoundHasParts(c, s0, flight);
    SoundHasParts(c, s1, flight);
    PreviousIsPending(c, s0, SessionOf(r));
    if p.None? && AtCapacity(c, s1) {
      RejectIsQuiet(s1, r, Overloaded, clock(1));
      QuietTwice(s0, s1, Reject(s1, r, Overloaded, clock(1)));
    } else if p.None? {
      AdmitIsQuiet(c, s1, r);
      QuietTwice(s0, s1, Admit(c, s1, r));
    } else {
      if !s1.entries[p.value].active {
        ExpiredPreviousIsDone(c, s0, s1, flight, p.value);
      }
      ReplacingIsQuiet(c, s0, s1, p.value, r, clock(1));
    }
  }

  lemma SupersedeShape(s: State, id: nat, r: Request, now: int)
    requires id < |s.entries| && Replaced in s.tally.status
    ensures |Supersede(s, id, r, now).entries| == |s.entries| && Supersede(s, id, r, now).heap == s.heap
  {
  }

  lemma CloseIsQuiet(c: Config, s: State, cancelPending: bool, now: int)
    requires WellFormed(s) && Inv(c, s)
    ensures Quiet(s, Close(s, cancelPending, now))
  {
    var s1 := s.(accepting := false);
    SameEntriesIsQuiet(s, s1);
    if !s.worker.Returned? && cancelPending {
      SoundHasParts(c, s, FlightOf(s));
      var r := CancelAll(s1, s1.heap, now);
      hide CancelAll, Sound, HeapOk;
      forall id: nat | id < |s.entries|
        ensures r.entries[id].request == s.entries[id].request
        ensures s.entries[id].outcome.Some? ==> r.entries[id] == s.entries[id]
        ensures NewlyResolved(s, r, id) ==>
                  r.entries[id].outcome.value.action.None? && !FromBackend(r.entries[id].outcome.value.status)
      {
        CancelAllEffect(s1, s1.heap, now, id);
      }
    }
  }

  // ---------------------------------------------------------------- fail-closed routing

  /** How many actions, from position `k` on, arrive for their own requests before the first that does not. */
  function Matching(es: seq<Entry>, batch: seq<nat>, actions: seq<ActionChunk>, k: nat): (n: nat)
    requires |actions| == |batch| && k <= |batch| && InRange(es, batch)
    ensures k <= n <= |batch|
    ensures forall i | k <= i < n :: Identifies(actions[i], es[batch[i]].request)
    ensures n < |batch| ==> !Identifies(actions[n], es[batch[n]].request)
    decreases |batch| - k
  {
    if k == |batch| || !Identifies(actions[k], es[batch[k]].request) then k else Matching(es, batch, actions, k + 1)
  }

  /** How much of a reply is handed out: nothing of an exception or of a reply of the wrong length. */
  function Usable(s: State, reply: Reply): (n: nat)
    requires s.worker.Executing? && InRange(s.entries, s.worker.batch)
    ensures n <= |s.worker.batch|
  {
    if reply.Raised? || |reply.actions| != |s.worker.batch| then 0
    else Matching(s.entries, s.worker.batch, reply.actions, 0)
  }

  /** The outcome of a request whose action arrived at `now`. */
  function Delivered(c: Config, e: Entry, action: ActionChunk, now: int): Entry {
    var missed := now > e.request.deadlineNs;
    var shown := if missed && c.dropMissedActions then None else Some(action);
    e.(outcome := Some(Outcome(if missed then DeadlineMissed else Completed, shown, e.dispatchedNs, now, None)))
  }

  /** What `DeliverFrom` makes of each entry of the batch, and that it touches no other. */
  ghost predicate RoutedFrom(c: Config, s: State, r: State, batch: seq<nat>, actions: seq<ActionChunk>, k: nat,
                             clock: Clock)
    requires |actions| == |batch| && k <= |batch| && InRange(s.entries, batch)
  {
    var n := Matching(s.entries, batch, actions, k);
    && |r.entries| == |s.entries|
    && (forall id: nat | id < |s.entries| && id !in batch :: r.entries[id] == s.entries[id])
    && (forall i | 0 <= i < |batch| ::
          r.entries[batch[i]]
          == if i < k then s.entries[batch[i]]
          else if i < n then Delivered(c, s.entries[batch[i]], actions[i], clock(i))
          else FailedEntry(s.entries[batch[i]], clock(n)))
  }

  lemma DeliverEffect(c: Config, s: State, id: nat, action: ActionChunk, now: int)
    requires id < |s.entries| && s.entries[id].outcome.None?
    requires Completed in s.tally.status && DeadlineMissed in s.tally.status
    ensures Deliver(c, s, id, action, now).entries == s.entries[id := Delivered(c, s.entries[id], action, now)]
    ensures Deliver(c, s, id, action, now).tally.status.Keys == s.tally.status.Keys
  {
  }

  lemma {:induction false} MatchingIgnoresOutcomes(es: seq<Entry>, es': seq<Entry>, batch: seq<nat>,
                                                   actions: seq<ActionChunk>, k: nat)
    requires |actions| == |batch| && k <= |batch| && InRange(es, batch) && |es'| == |es|
    requires forall id: nat | id < |es| :: es'[id].request == es[id].request
    ensures Matching(es', batch, actions, k) == Matching(es, batch, actions, k)
    decreases |batch| - k
  {
    if k < |batch| && Identifies(actions[k], es[batch[k]].request) {
      MatchingIgnoresOutcomes(es, es', batch, actions, k + 1);
    }
  }

  lemma FailRestIsRouted(c: Config, s: State, batch: seq<nat>, actions: seq<ActionChunk>, k: nat, clock: Clock)
    requires |actions| == |batch| && k < |batch| && InRange(s.entries, batch) && Failed in s.tally.status
    requires forall i | 0 <= i < k :: s.entries[batch[i]].outcome.Some?
    requires !Identifies(actions[k], s.entries[batch[k]].request)
    ensures RoutedFrom(c, s, FailAll(s, batch, clock(k)), batch, actions, k, clock)
  {
    hide FailAll, Identifies;
    var r := FailAll(s, batch, clock(k));
    forall id: nat | id < |s.entries|
      ensures r.entries[id] == if id in batch then FailedEntry(s.entries[id], clock(k)) else s.entries[id]
    {
      FailAllEffect(s, batch, clock(k), id);
    }
  }

  lemma NothingIsRouted(c: Config, s: State, batch: seq<nat>, actions: seq<ActionChunk>, clock: Clock)
    requires |actions| == |batch| && InRange(s.entries, batch)
    ensures RoutedFrom(c, s, s, batch, actions, |batch|, clock)
  {
  }

  lemma DeliveredStep(c: Config, s: State, r: State, batch: seq<nat>, actions: seq<ActionChunk>, k: nat, clock: Clock)
    requires |actions| == |batch| && k < |batch| && InRange(s.entries, batch) && Distinct(batch)
    requires r.entries == s.entries[batch[k] := Delivered(c, s.entries[batch[k]], actions[k], clock(k))]
    requires forall i | 0 <= i < k :: s.entries[batch[i]].outcome.Some?
    requires forall i | k <= i < |batch| :: s.entries[batch[i]].outcome.None?
    ensures InRange(r.entries, batch)
    ensures forall i | 0 <= i < k + 1 :: r.entries[batch[i]].outcome.Some?
    ensures forall i | k + 1 <= i < |batch| :: r.entries[batch[i]].outcome.None?
    ensures forall id: nat | id < |s.entries| :: r.entries[id].request == s.entries[id].request
  {
  }

  lemma {:induction false} DeliverFromEffect(c: Config, s: State, batch: seq<nat>, actions: seq<ActionChunk>, k: nat,
                                             clock: Clock)
    requires |actions| == |batch| && k <= |batch| && InRange(s.entries, batch) && Distinct(batch)
    requires forall x: Status :: x in s.tally.status
    requires forall i | 0 <= i < k :: s.entries[batch[i]].outcome.Some?
    requires forall i | k <= i < |batch| :: s.entries[batch[i]].outcome.None?
    ensures RoutedFrom(c, s, DeliverFrom(c, s, batch, actions, k, clock), batch, actions, k, clock)
    decreases |batch| - k
  {
    hide Deliver, Identifies, RoutedFrom, FailAll, Matching, Delivered;
    if k == |batch| {
      NothingIsRouted(c, s, batch, actions, clock);
    } else if !Identifies(actions[k], s.entries[batch[k]].request) {
      FailRestIsRouted(c, s, batch, actions, k, clock);
    } else {
      var r := Deliver(c, s, batch[k], actions[k], clock(k));
      DeliverEffect(c, s, batch[k], actions[k], clock(k));
      DeliveredStep(c, s, r, batch, actions, k, clock);
      DeliverFromEffect(c, r, batch, actions, k + 1, clock);
      MatchingIgnoresOutcomes(s.entries, r.entries, batch, actions, k + 1);
      RoutedStep(c, s, r, DeliverFrom(c, s, batch, actions, k, clock), batch, actions, k, clock);
    }
  }

  lemma RoutedStep(c: Config, s: State, r: State, t: State, batch: seq<nat>, actions: seq<ActionChunk>, k: nat,
                   clock: Clock)
    requires |actions| == |batch| && k < |batch| && InRange(s.entries, batch) && Distinct(batch)
    requires Identifies(actions[k], s.entries[batch[k]].request)
    requires r.entries == s.entries[batch[k] := Delivered(c, s.entries[batch[k]], actions[k], clock(k))]
    requires RoutedFrom(c, r, t, batch, actions, k + 1, clock)
    requires Matching(r.entries, batch, actions, k + 1) == Matching(s.entries, batch, actions, k + 1)
    ensures RoutedFrom(c, s, t, batch, actions, k, clock)
  {
    hide Identifies, Delivered, FailedEntry;
    forall i | 0 <= i < |batch| && i != k ensures r.entries[batch[i]] == s.entries[batch[i]] {
    }
    assert r.entries[batch[k]] == Delivered(c, s.entries[batch[k]], actions[k], clock(k));
  }

  lemma {:induction false} RoutingEffect(c: Config, s: State, reply: Reply, clock: Clock)
    requires WellFormed(s) && Inv(c, s) && s.worker.Executing?
    ensures var r := Receive(c, s, reply, clock);
            var (batch, n) := (s.worker.batch, Usable(s, reply));
            && |r.entries| == |s.entries|
            && (forall id: nat | id < |s.entries| && id !in batch :: r.entries[id] == s.entries[id])
            && (forall i | 0 <= i < n ::
                  && Identifies(reply.actions[i], s.entries[batch[i]].request)
                  && r.entries[batch[i]] == Delivered(c, s.entries[batch[i]], reply.actions[i], clock(i)))
            && (forall i | n <= i < |batch| ::
                  r.entries[batch[i]] == FailedEntry(s.entries[batch[i]], clock(n))
                  && s.entries[batch[i]].outcome.None?)
            && r.worker == Waiting(None)
  {
    var batch := s.worker.batch;
    BatchIsOpen(c, s);
    hide Inv, Identifies, Delivered;
    if reply.Raised? || |reply.actions| != |batch| {
      forall id: nat | id < |s.entries|
        ensures FailAll(s, batch, clock(0)).entries[id]
             == if id in batch then FailedEntry(s.entries[id], clock(0)) else s.entries[id]
      {
        FailAllEffect(s, batch, clock(0), id);
      }
    } else {
      hide DeliverFrom;
      DeliverFromEffect(c, s, batch, reply.actions, 0, clock);
    }
  }

  /** Only the four fields that name a request decide whether an action was made for it. */
  lemma IdentifiedByFourFields(a: ActionChunk, r: Request)
    ensures Identifies(a, r)
       <==> a.requestId == r.requestId && a.sessionId == r.sessionId && a.sequenceNo == r.sequenceNo
            && a.model == r.model
  {
  }

  lemma UsableIsAPrefix(s: State, reply: Reply)
    requires s.worker.Executing? && InRange(s.entries, s.worker.batch)
    ensures var (batch, n) := (s.worker.batch, Usable(s, reply));
            if reply.Raised? || |reply.actions| != |batch| then n == 0
            else (forall i | 0 <= i < n :: Identifies(reply.actions[i], s.entries[batch[i]].request))
                 && (n < |batch| ==> !Identifies(reply.actions[n], s.entries[batch[n]].request))
  {
  }

  /** For any reply whatever: a prefix of the batch gets the actions that arrived for it, all the rest fails
      without an action, and no request outside the batch is touched.  The prefix is empty if the backend raised or
      the reply has the wrong length; it ends at the first action that differs from its request in the request id,
      the session, the sequence number or the model. */
  lemma {:induction false} RoutingFailsClosed(c: Config, s: State, reply: Reply, clock: Clock) returns (n: nat)
    requires WellFormed(s) && Inv(c, s) && s.worker.Executing?
    ensures n <= |s.worker.batch| && InRange(s.entries, s.worker.batch)
    ensures reply.Raised? || |reply.actions| != |s.worker.batch| ==> n == 0
    ensures reply.Answered? && |reply.actions| == |s.worker.batch| ==>
              forall i | 0 <= i < n ::
                var (a, r) := (reply.actions[i], s.entries[s.worker.batch[i]].request);
                && a.requestId == r.requestId && a.sessionId == r.sessionId && a.sequenceNo == r.sequenceNo
                && a.model == r.model
    ensures reply.Answered? && |reply.actions| == |s.worker.batch| && n < |s.worker.batch| ==>
              var (a, r) := (reply.actions[n], s.entries[s.worker.batch[n]].request);
              || a.requestId != r.requestId || a.sessionId != r.sessionId || a.sequenceNo != r.sequenceNo
              || a.model != r.model
    ensures var (r, batch) := (Receive(c, s, reply, clock), s.worker.batch);
            && |r.entries| == |s.entries| && r.worker == Waiting(None)
            && (forall id: nat | id < |s.entries| && id !in batch :: r.entries[id] == s.entries[id])
            && (forall i | 0 <= i < n ::
                  r.entries[batch[i]] == Delivered(c, s.entries[batch[i]], reply.actions[i], clock(i)))
            && (forall i | n <= i < |batch| ::
                  r.entries[batch[i]] == FailedEntry(s.entries[batch[i]], clock(n))
                  && s.entries[batch[i]].outcome.None?)
  {
    BatchIsOpen(c, s);
    RoutingEffect(c, s, reply, clock);
    UsableIsAPrefix(s, reply);
    n := Usable(s, reply);
    hide Inv, WellFormed, Receive, Usable, Delivered, FailedEntry, EntryOk;
  }

  lemma BatchIsOpen(c: Config, s: State)
    requires Inv(c, s) && s.worker.Executing?
    ensures Distinct(s.worker.batch) && InRange(s.entries, s.worker.batch)
    ensures forall i | 0 <= i < |s.worker.batch| ::
              s.entries[s.worker.batch[i]].outcome.None? && EntryOk(s.entries[s.worker.batch[i]])
  {
    assert FlightOk(s.entries, s.worker.batch) && AllOk(s.entries);
    forall i | 0 <= i < |s.worker.batch| ensures PhaseOf(s.entries[s.worker.batch[i]]).InFlight? {
      assert s.worker.batch[i] in s.worker.batch;
    }
  }

  // ---------------------------------------------------------------- outcomes are final and truthful

  ghost predicate Lasting(s: State, r: State) {
    && |s.entries| <= |r.entries|
    && (forall id: nat | id < |s.entries| :: r.entries[id].request == s.entries[id].request)
    && (forall id: nat | id < |s.entries| && s.entries[id].outcome.Some? :: r.entries[id] == s.entries[id])
  }

  /** What an outcome says is so: an action belongs to its request, it is called completed exactly when it
      arrived by the deadline, and a late one is shown only if late actions are not dropped. */
  ghost predicate Truthful(c: Config, e: Entry) {
    e.outcome.Some? ==>
      var o := e.outcome.value;
      && (o.action.Some? ==>
            && o.action.value.requestId == e.request.requestId && o.action.value.sessionId == e.request.sessionId
            && o.action.value.sequenceNo == e.request.sequenceNo && o.action.value.model == e.request.model)
      && (o.status.Completed? ==> o.action.Some? && o.completedNs <= e.request.deadlineNs)
      && (o.status.DeadlineMissed? ==> o.completedNs > e.request.deadlineNs
                                       && (o.action.Some? <==> !c.dropMissedActions))
      && (!o.status.Completed? && !o.status.DeadlineMissed? ==> o.action.None?)
  }

  ghost predicate AllTruthful(c: Config, s: State) {
    forall id: nat | id < |s.entries| :: Truthful(c, s.entries[id])
  }

  lemma QuietIsTruthful(c: Config, s: State, r: State)
    requires Quiet(s, r)
    ensures Lasting(s, r)
    ensures AllTruthful(c, s) ==> AllTruthful(c, r)
  {
    if AllTruthful(c, s) {
      forall id: nat | id < |r.entries| ensures Truthful(c, r.entries[id]) {
        if r.entries[id].outcome.Some? && id < |s.entries| && s.entries[id].outcome.Some? {
          assert Truthful(c, s.entries[id]);
        } else if r.entries[id].outcome.Some? {
          assert NewlyResolved(s, r, id);
        }
      }
    }
  }

  lemma DeliveredIsTruthful(c: Config, e: Entry, action: ActionChunk, now: int)
    requires e.outcome.None? && Identifies(action, e.request)
    ensures Truthful(c, Delivered(c, e, action, now)) && Delivered(c, e, action, now).request == e.request
  {
  }

  lemma FailedIsTruthful(c: Config, e: Entry, now: int)
    requires e.outcome.None?
    ensures Truthful(c, FailedEntry(e, now)) && FailedEntry(e, now).request == e.request
  {
  }

  lemma RoutedIsTruthful(c: Config, s: State, reply: Reply, clock: Clock, id: nat)
    requires WellFormed(s) && Inv(c, s) && s.worker.Executing? && id < |s.entries|
    ensures id < |Receive(c, s, reply, clock).entries|
    ensures var (e, e') := (s.entries[id], Receive(c, s, reply, clock).entries[id]);
            && e'.request == e.request && (e.outcome.Some? ==> e' == e) && (Truthful(c, e) ==> Truthful(c, e'))
  {
    var (batch, n) := (s.worker.batch, Usable(s, reply));
    RoutingEffect(c, s, reply, clock);
    BatchIsOpen(c, s);
    hide Inv, Receive, Identifies, Usable, Truthful, Delivered, FailedEntry, EntryOk, WellFormed;
    if id in batch {
      var i :| 0 <= i < |batch| && batch[i] == id;
      if i < n {
        DeliveredIsTruthful(c, s.entries[batch[i]], reply.actions[i], clock(i));
      } else {
        FailedIsTruthful(c, s.entries[batch[i]], clock(n));
      }
    }
  }

  lemma ReceiveIsTruthful(c: Config, s: State, reply: Reply, clock: Clock)
    requires WellFormed(s) && Inv(c, s)
    ensures Lasting(s, Receive(c, s, reply, clock))
    ensures AllTruthful(c, s) ==> AllTruthful(c, Receive(c, s, reply, clock))
  {
    if s.worker.Executing? {
      var r := Receive(c, s, reply, clock);
      ReceiveKeepsLength(c, s, reply, clock);
      hide Inv, Receive, Truthful, WellFormed;
      forall id: nat | id < |s.entries|
        ensures r.entries[id].request == s.entries[id].request
        ensures s.entries[id].outcome.Some? ==> r.entries[id] == s.entries[id]
        ensures Truthful(c, s.entries[id]) ==> Truthful(c, r.entries[id])
      {
        RoutedIsTruthful(c, s, reply, clock, id);
      }
    }
  }

  lemma ReceiveKeepsLength(c: Config, s: State, reply: Reply, clock: Clock)
    requires WellFormed(s) && Inv(c, s)
    ensures |Receive(c, s, reply, clock).entries| == |s.entries|
  {
    if s.worker.Executing? {
      RoutingEffect(c, s, reply, clock);
      hide Inv, Receive;
    }
  }

  lemma StepIsTruthful(c: Config, be: Backend, s: State, e: Event)
    requires WellFormed(s) && Inv(c, s)
    ensures Lasting(s, Step(c, be, s, e))
    ensures AllTruthful(c, s) ==> AllTruthful(c, Step(c, be, s, e))
  {
    var r := Step(c, be, s, e);
    hide Inv, Quiet, Lasting, AllTruthful, Enqueue, Wake, Receive, Close, WellFormed;
    match e
    case Enqueued(request, clock) =>
      EnqueueIsQuiet(c, s, request, clock);
      QuietIsTruthful(c, s, r);
    case Woken(est, clock) =>
      WakeIsQuiet(c, be, s, est, clock);
      QuietIsTruthful(c, s, r);
    case Replied(reply, clock) =>
      ReceiveIsTruthful(c, s, reply, clock);
    case Closed(cancel, now) =>
      CloseIsQuiet(c, s, cancel, now);
      QuietIsTruthful(c, s, r);
    case Started =>
      SameEntriesIsQuiet(s, r);
      QuietIsTruthful(c, s, r);
  }

  lemma LastingTwice(s: State, r: State, t: State)
    requires Lasting(s, r) && Lasting(r, t)
    ensures Lasting(s, t)
  {
  }

  lemma AlwaysLasting(s: State)
    ensures Lasting(s, s)
  {
  }

  /** One outcome per request: once there, it never changes, over any run. */
  lemma {:induction false} OutcomesAreFinal(c: Config, be: Backend, events: seq<Event>, k: nat)
    requires k <= |events|
    ensures Lasting(Run(c, be, events[..k]), Run(c, be, events))
    decreases |events|
  {
    hide Inv, WellFormed, Step, Lasting, AllTruthful;
    if k == |events| {
      assert events[..k] == events;
      AlwaysLasting(Run(c, be, events));
    } else {
      var front := events[..|events| - 1];
      OutcomesAreFinal(c, be, front, k);
      assert front[..k] == events[..k];
      RunIsSound(c, be, front);
      StepIsTruthful(c, be, Run(c, be, front), events[|events| - 1]);
      LastingTwice(Run(c, be, events[..k]), Run(c, be, front), Run(c, be, events));
    }
  }

  /** In every reachable state every outcome tells the truth; in particular no request ever receives an
      action made for another request, session, sequence number or model. */
  lemma {:induction false} OutcomesAreTruthful(c: Config, be: Backend, events: seq<Event>)
    ensures AllTruthful(c, Run(c, be, events))
  {
    if events != [] {
      hide Inv, WellFormed, Step, Lasting;
      OutcomesAreTruthful(c, be, events[..|events| - 1]);
      RunIsSound(c, be, events[..|events| - 1]);
      StepIsTruthful(c, be, Run(c, be, events[..|events| - 1]), events[|events| - 1]);
    }
  }

  // ---------------------------------------------------------------- no deadline is missed

  /** The batch in flight is predicted to be done, guard included, by every deadline in it. */
  ghost predicate Protected(s: State) {
    s.worker.Executing? ==>
      && InRange(s.entries, s.worker.batch)
      && forall i | 0 <= i < |s.worker.batch| :: s.worker.safeBy <= s.entries[s.worker.batch[i]].request.deadlineNs
  }

  lemma {:induction false} EarliestIsLeast(es: seq<Entry>, ids: seq<nat>, i: nat)
    requires ids != [] && InRange(es, ids) && i < |ids|
    ensures EarliestDeadline(es, ids) <= es[ids[i]].request.deadlineNs
  {
    if i < |ids| - 1 {
      EarliestIsLeast(es, ids[..|ids| - 1], i);
    }
  }

  ghost predicate Predicts(est: Predictor, limit: int) {
    forall n | 1 <= n <= limit :: est(n).Some?
  }

  lemma JoinIsSafe(c: Config, be: Backend, es: seq<Entry>, est: Predictor, ch: Choice, id: nat, checked: int, at: int)
    requires ch.ids != [] && InRange(es, ch.ids) && id < |es|
    requires Joins(c, be, es, est, ch.ids, id, checked) && Predicts(est, BatchLimit(c, be))
    ensures var ch1 := ch.(ids := ch.ids + [id], ats := ch.ats + [at], checkedAt := checked);
            && InRange(es, ch1.ids) && SafeBy(c, est, ch1) <= EarliestDeadline(es, ch1.ids)
            && |ch1.ids| <= BatchLimit(c, be)
  {
    assert (ch.ids + [id])[..|ch.ids|] == ch.ids;
  }

  /** Each envelope that joins keeps the enlarged batch within its prediction. */
  lemma {:induction false} SelectIsSafe(c: Config, be: Backend, es: seq<Entry>, est: Predictor, clock: Clock,
                                        queue: seq<nat>, ch: Choice, k: nat)
    requires InRange(es, queue) && InRange(es, ch.ids) && InRange(es, ch.rest)
    requires ch.ids != [] && |ch.ats| == |ch.ids|
    requires Predicts(est, BatchLimit(c, be)) && |ch.ids| <= BatchLimit(c, be)
    requires SafeBy(c, est, ch) <= EarliestDeadline(es, ch.ids)
    ensures var r := Select(c, be, es, est, clock, queue, ch, k);
            SafeBy(c, est, r) <= EarliestDeadline(es, r.ids) && |r.ids| <= BatchLimit(c, be)
    decreases |queue|
  {
    hide Joins, BatchLimit, Predicts, EarliestDeadline;
    if queue != [] {
      var (id, rest) := (queue[0], queue[1..]);
      if !es[id].active {
        SelectIsSafe(c, be, es, est, clock, rest, ch, k + 1);
      } else if Joins(c, be, es, est, ch.ids, id, clock(2 * k + 1)) {
        var ch1 := ch.(ids := ch.ids + [id], ats := ch.ats + [clock(2 * k + 2)], checkedAt := clock(2 * k + 1));
        JoinIsSafe(c, be, es, est, ch, id, clock(2 * k + 1), clock(2 * k + 2));
        SelectIsSafe(c, be, es, est, clock, rest, ch1, k + 1);
      } else {
        SelectIsSafe(c, be, es, est, clock, rest, ch.(rest := ch.rest + [id]), k + 1);
      }
    }
  }

  /** After the clean-up passes every pending request can still be served in time alone. */
  lemma CleanUpLeavesServiceable(c: Config, s: State, est: Predictor, clock: Clock, id: nat)
    requires WellFormed(s) && Inv(c, s) && s.worker.Waiting? && c.dropUnserviceable && est(1).Some?
    requires id < |CleanUp(c, s, est, clock).entries| && CleanUp(c, s, est, clock).entries[id].active
    ensures clock(1) + est(1).value + c.guardNs <= CleanUp(c, s, est, clock).entries[id].request.deadlineNs
  {
    hide Inv, WellFormed, CleanUp;
    CleanUpKeepsLength(c, s, est, clock);
    CleanUpEffect(c, s, est, clock, id);
  }

  lemma CleanUpKeepsLength(c: Config, s: State, est: Predictor, clock: Clock)
    requires WellFormed(s) && Inv(c, s)
    ensures |CleanUp(c, s, est, clock).entries| == |s.entries|
  {
    hide Sound, CleanUp;
    CleanUpCleans(c, s, FlightOf(s), est, clock);
  }

  lemma InvIsSound(c: Config, s: State)
    requires Inv(c, s)
    ensures Sound(c, s, FlightOf(s))
  {
  }

  /** The batch that a taken turn hands to the backend is protected. */
  lemma TakenBatchIsProtected(c: Config, be: Backend, s: State, est: Predictor, clock: Clock, checkedAt: int)
    requires Cleaned(c, s, s, []) && s.heap != [] && InRange(s.entries, s.heap)
    requires Predicts(est, BatchLimit(c, be)) && BatchLimit(c, be) >= 1
    requires checkedAt + est(1).value + c.guardNs <= s.entries[s.heap[0]].request.deadlineNs
    ensures Protected(TakeBatch(c, be, s, est, clock, checkedAt))
  {
    hide Sound, Cleaned, Sorted, Select, Active, DispatchAll, EarliestDeadline;
    CleanedHeap(c, s);
    var start := Choice([s.heap[0]], [clock(0)], checkedAt, []);
    EarliestOfOne(s.entries, s.heap[0]);
    SelectIsSafe(c, be, s.entries, est, clock, s.heap[1..], start, 0);
    var ch := TheChoice(c, be, s.entries, est, clock, s.heap, checkedAt);
    ChoiceIsOrdered(c, be, s.entries, est, clock, s.heap, checkedAt);
    var r := TakeBatch(c, be, s, est, clock, checkedAt);
    DispatchKeepsRequests(s, ch.ids, ch.ats);
    forall i | 0 <= i < |ch.ids| ensures r.worker.safeBy <= r.entries[ch.ids[i]].request.deadlineNs {
      EarliestIsLeast(s.entries, ch.ids, i);
    }
  }

  lemma EarliestOfOne(es: seq<Entry>, id: nat)
    requires id < |es|
    ensures EarliestDeadline(es, [id]) == es[id].request.deadlineNs
  {
  }

  lemma DispatchKeepsRequests(s: State, ids: seq<nat>, ats: seq<int>)
    requires InRange(s.entries, ids) && |ats| == |ids| && Distinct(ids)
    ensures forall id: nat | id < |s.entries| :: DispatchAll(s, ids, ats).entries[id].request == s.entries[id].request
  {
    var r := DispatchAll(s, ids, ats);
    DispatchAllEffect(s, ids, ats);
    hide DispatchAll;
    forall id: nat | id < |s.entries| ensures r.entries[id].request == s.entries[id].request {
      if id in ids {
        var i :| 0 <= i < |ids| && ids[i] == id;
      }
    }
  }

  lemma WakeProtects(c: Config, be: Backend, s: State, est: Predictor, clock: Clock)
    requires WellFormed(s) && Inv(c, s) && Protected(s) && c.dropUnserviceable
    requires Predicts(est, BatchLimit(c, be)) && BatchLimit(c, be) >= 1
    ensures Protected(Wake(c, be, s, est, clock))
  {
    if s.worker.Waiting? {
      hide Inv, CleanUp, Sound, Cleaned, TakeBatch, BatchLimit, Protected;
      InvIsSound(c, s);
      CleanUpCleans(c, s, [], est, clock);
      var s1 := CleanUp(c, s, est, clock);
      CleanedIsClean(c, s, s1, []);
      CleanedHeap(c, s1);
      NotExecutingIsProtected(Wake(c, be, s, est, clock));
      if s1.heap != [] && clock(2) >= DispatchAt(c, s1.entries[s1.heap[0]].request, est(1)) {
        CleanUpLeavesServiceable(c, s, est, clock, s1.heap[0]);
        TakenBatchIsProtected(c, be, s1, est, (n: nat) => clock(n + 3), clock(1));
      }
    }
  }

  lemma NotExecutingIsProtected(s: State)
    ensures !s.worker.Executing? ==> Protected(s)
  {
  }

  ghost predicate Unmissed(s: State) {
    forall id: nat | id < |s.entries| && s.entries[id].outcome.Some? ::
      !s.entries[id].outcome.value.status.DeadlineMissed?
  }

  /** A backend estimate for every size up to the limit, and a reply by the time the scheduler predicted. */
  ghost predicate Timely(c: Config, be: Backend, s: State, e: Event) {
    && (e.Woken? ==> Predicts(e.est, BatchLimit(c, be)))
    && (e.Replied? && s.worker.Executing? ==> forall k: nat | k < |s.worker.batch| :: e.clock(k) <= s.worker.safeBy)
  }

  lemma QuietIsUnmissed(s: State, r: State)
    requires Quiet(s, r) && Unmissed(s)
    ensures Unmissed(r)
  {
    forall id: nat | id < |r.entries| && r.entries[id].outcome.Some?
      ensures !r.entries[id].outcome.value.status.DeadlineMissed?
    {
      if !(id < |s.entries| && s.entries[id].outcome.Some?) {
        assert NewlyResolved(s, r, id);
      }
    }
  }

  lemma PunctualReplyIsUnmissed(c: Config, s: State, reply: Reply, clock: Clock)
    requires WellFormed(s) && Inv(c, s) && Protected(s) && Unmissed(s)
    requires s.worker.Executing? ==> forall k: nat | k < |s.worker.batch| :: clock(k) <= s.worker.safeBy
    ensures Unmissed(Receive(c, s, reply, clock))
  {
    if s.worker.Executing? {
      RoutingEffect(c, s, reply, clock);
      BatchIsOpen(c, s);
      var (r, batch, n) := (Receive(c, s, reply, clock), s.worker.batch, Usable(s, reply));
      hide Inv, Receive, Identifies, Usable, WellFormed, EntryOk;
      forall id: nat | id < |s.entries| && r.entries[id].outcome.Some?
        ensures !r.entries[id].outcome.value.status.DeadlineMissed?
      {
        if id in batch {
          var i :| 0 <= i < |batch| && batch[i] == id;
          if i < n {
            assert clock(i) <= s.entries[batch[i]].request.deadlineNs;
          }
        }
      }
    }
  }

  lemma QuietIsProtected(s: State, r: State)
    requires Quiet(s, r) && Protected(s) && r.worker == s.worker
    ensures Protected(r)
  {
  }

  /** What neither admission nor close touches. */
  ghost predicate SameWorker(s: State, r: State) {
    r.worker == s.worker && r.log == s.log && r.tally.batches == s.tally.batches
  }

  lemma ExpireKeepsWorker(s: State, now: int)
    requires InRange(s.entries, s.heap)
    ensures InRange(Compact(s).entries, Compact(s).heap)
    ensures forall x: Status :: x in s.tally.status ==> x in Compact(s).tally.status
    ensures Expired in s.tally.status ==>
              var r := Expire(Compact(s), now);
              SameWorker(s, r) && r.accepting == s.accepting && |r.entries| == |s.entries|
  {
    hide Sweep, Active;
    if Expired in s.tally.status {
      SweepKeepsShape(Compact(s), Compact(s).heap, now + 1, Expired, now);
    }
  }

  lemma SupersedeKeepsWorker(s: State, id: nat, r: Request, now: int)
    requires id < |s.entries| && Replaced in s.tally.status
    ensures SameWorker(s, Supersede(s, id, r, now)) && Supersede(s, id, r, now).accepting == s.accepting
  {
  }

  lemma EnqueueKeepsWorker(c: Config, s: State, r: Request, clock: Clock)
    requires WellFormed(s)
    ensures SameWorker(s, Enqueue(c, s, r, clock)) && Enqueue(c, s, r, clock).accepting == s.accepting
    ensures !s.accepting ==> Enqueue(c, s, r, clock) == s
  {
    if s.accepting && !Stale(c, s, r) {
      var s0 := CountSubmit(s);
      var p := Previous(c, s0, SessionOf(r));
      SweepKeepsShape(Compact(s0), Compact(s0).heap, clock(0) + 1, Expired, clock(0));
      ExpireKeepsWorker(s0, clock(0));
      if p.Some? {
        SupersedeKeepsWorker(Expire(Compact(s0), clock(0)), p.value, r, clock(1));
      }
      hide Stale, Active, Sweep, HeapPush, Supersede, Expire, Compact;
    }
  }

  lemma CloseKeepsWorker(c: Config, s: State, cancelPending: bool, now: int)
    requires WellFormed(s) && Inv(c, s)
    ensures SameWorker(s, Close(s, cancelPending, now)) && !Close(s, cancelPending, now).accepting
  {
    var s1 := s.(accepting := false);
    SameCoreKeepsSound(c, s, s1, FlightOf(s));
    SoundHasParts(c, s1, FlightOf(s));
    hide Inv, Sound, SoundButIndex, CancelAll;
    if !s.worker.Returned? && cancelPending {
      CancelAllKeepsSound(c, s1, FlightOf(s), s1.heap, now);
    }
  }

  lemma StepIsUnmissed(c: Config, be: Backend, s: State, e: Event)
    requires WellFormed(s) && Inv(c, s) && Protected(s) && Unmissed(s)
    requires c.dropUnserviceable && BatchLimit(c, be) >= 1 && Timely(c, be, s, e)
    ensures Protected(Step(c, be, s, e)) && Unmissed(Step(c, be, s, e))
  {
    var r := Step(c, be, s, e);
    hide Inv, Quiet, Unmissed, Protected, Enqueue, Wake, Receive, Close, WellFormed, BatchLimit, Predicts;
    match e
    case Enqueued(request, clock) =>
      EnqueueIsQuiet(c, s, request, clock);
      EnqueueKeepsWorker(c, s, request, clock);
      QuietIsUnmissed(s, r);
      QuietIsProtected(s, r);
    case Woken(est, clock) =>
      WakeIsQuiet(c, be, s, est, clock);
      QuietIsUnmissed(s, r);
      WakeProtects(c, be, s, est, clock);
    case Replied(reply, clock) =>
      PunctualReplyIsUnmissed(c, s, reply, clock);
      ReceiveEnds(c, s, reply, clock);
      NotExecutingIsProtected(r);
    case Closed(cancel, now) =>
      CloseIsQuiet(c, s, cancel, now);
      CloseKeepsWorker(c, s, cancel, now);
      QuietIsUnmissed(s, r);
      QuietIsProtected(s, r);
    case Started =>
      SameEntriesIsQuiet(s, r);
      QuietIsUnmissed(s, r);
      StartKeepsFlight(s);
      NotExecutingIsProtected(r);
  }

  lemma ReceiveEnds(c: Config, s: State, reply: Reply, clock: Clock)
    requires WellFormed(s)
    ensures !Receive(c, s, reply, clock).worker.Executing?
  {
  }

  lemma StartKeepsFlight(s: State)
    ensures Start(s).worker.Executing? ==> Start(s) == s
  {
  }

  ghost predicate AllTimely(c: Config, be: Backend, events: seq<Event>) {
    forall k | 0 <= k < |events| :: Timely(c, be, Run(c, be, events[..k]), events[k])
  }

  lemma TimelyFront(c: Config, be: Backend, events: seq<Event>)
    requires AllTimely(c, be, events) && events != []
    ensures AllTimely(c, be, events[..|events| - 1])
    ensures Timely(c, be, Run(c, be, events[..|events| - 1]), events[|events| - 1])
  {
    hide Run, Timely;
    var front := events[..|events| - 1];
    forall k | 0 <= k < |front| ensures Timely(c, be, Run(c, be, front[..k]), front[k]) {
      assert front[..k] == events[..k];
    }
  }

  lemma {:induction false} TimelyRunIsUnmissed(c: Config, be: Backend, events: seq<Event>)
    requires c.dropUnserviceable && BatchLimit(c, be) >= 1 && AllTimely(c, be, events)
    ensures Protected(Run(c, be, events)) && Unmissed(Run(c, be, events))
  {
    hide Inv, WellFormed, Step, Timely, BatchLimit, AllTimely;
    if events != [] {
      TimelyFront(c, be, events);
      TimelyRunIsUnmissed(c, be, events[..|events| - 1]);
      RunIsSound(c, be, events[..|events| - 1]);
      StepIsUnmissed(c, be, Run(c, be, events[..|events| - 1]), events[|events| - 1]);
    }
  }

  /** No run misses a deadline: with unserviceable requests dropped, an estimate for every batch size,
      and each reply processed by the instant the scheduler had predicted for its batch, no request of
      any batch of any size is ever answered late. */
  lemma {:induction false} NoDeadlineIsMissed(c: Config, be: Backend, events: seq<Event>)
    requires c.dropUnserviceable && BatchLimit(c, be) >= 1 && AllTimely(c, be, events)
    ensures Unmissed(Run(c, be, events))
    ensures Run(c, be, events).tally.status[DeadlineMissed] == 0
  {
    hide Inv, Run;
    TimelyRunIsUnmissed(c, be, events);
    RunIsSound(c, be, events);
    UnmissedCount(c, Run(c, be, events));
  }

  lemma UnmissedCount(c: Config, s: State)
    requires Inv(c, s)
    requires Unmissed(s)
    ensures DeadlineMissed in s.tally.status && s.tally.status[DeadlineMissed] == 0
  {
    assert TallyOk(s);
    MembersInPhase(s.entries, Done(DeadlineMissed), {});
  }

  // ---------------------------------------------------------------- closing drains the queue

  /** The state after more events. */
  ghost function RunFrom(c: Config, be: Backend, s: State, events: seq<Event>): (r: State)
    requires WellFormed(s)
    ensures WellFormed(r)
  {
    if events == [] then s
    else
      var m := RunFrom(c, be, s, events[..|events| - 1]);
      StepKeepsWellFormed(c, be, m, events[|events| - 1]);
      Step(c, be, m, events[|events| - 1])
  }

  lemma {:induction false} RunFromKeepsInv(c: Config, be: Backend, s: State, events: seq<Event>)
    requires WellFormed(s) && Inv(c, s)
    ensures Inv(c, RunFrom(c, be, s, events))
  {
    if events != [] {
      hide Inv, WellFormed, Step;
      RunFromKeepsInv(c, be, s, events[..|events| - 1]);
      StepKeepsInv(c, be, RunFrom(c, be, s, events[..|events| - 1]), events[|events| - 1]);
    }
  }

  /** Backend calls so far and requests that may still cause one. */
  function Calls(s: State): nat {
    s.tally.batches + Count(s.entries, Pending)
  }

  lemma TurnSpendsCalls(c: Config, be: Backend, s: State, est: Predictor, clock: Clock)
    requires Cleaned(c, s, s, [])
    ensures InRange(s.entries, s.heap)
    ensures var r := Turn(c, be, s, est, clock);
            && Calls(r) <= Calls(s) && r.accepting == s.accepting
            && (r.worker.Executing? ==> r.tally.batches == s.tally.batches + 1)
            && (!r.worker.Executing? ==> r.tally.batches == s.tally.batches)
  {
    hide Sound, Cleaned, Sorted, Select, DispatchAll, Active;
    CleanedHeap(c, s);
    if s.heap != [] && clock(2) >= DispatchAt(c, s.entries[s.heap[0]].request, est(1)) {
      var ch := TheChoice(c, be, s.entries, est, (n: nat) => clock(n + 3), s.heap, clock(1));
      ChoiceIsOrdered(c, be, s.entries, est, (n: nat) => clock(n + 3), s.heap, clock(1));
      DispatchAllEffect(s, ch.ids, ch.ats);
      DispatchedIsFewer(s, DispatchAll(s, ch.ids, ch.ats), ch.ids, ch.ats);
    }
  }

  lemma WakeSpendsCalls(c: Config, be: Backend, s: State, est: Predictor, clock: Clock)
    requires WellFormed(s) && Inv(c, s)
    ensures var r := Wake(c, be, s, est, clock);
            && Calls(r) <= Calls(s) && r.accepting == s.accepting
            && r.tally.batches == s.tally.batches + if s.worker.Waiting? && r.worker.Executing? then 1 else 0
  {
    if s.worker.Waiting? {
      hide Sound, CleanUp, Turn;
      CleanUpCleans(c, s, [], est, clock);
      var s1 := CleanUp(c, s, est, clock);
      CleanedIsClean(c, s, s1, []);
      FewerPendingWhenCleaned(c, s, s1, []);
      TurnSpendsCalls(c, be, s1, est, clock);
    }
  }

  lemma ReceiveSpendsNothing(c: Config, s: State, reply: Reply, clock: Clock)
    requires WellFormed(s) && Inv(c, s)
    ensures var r := Receive(c, s, reply, clock);
            Calls(r) == Calls(s) && r.accepting == s.accepting && r.tally.batches == s.tally.batches
  {
    if s.worker.Executing? {
      ReplyKeepsSound(c, s, reply, clock);
      hide Sound, Receive;
      SamePending(s.entries, Receive(c, s, reply, clock).entries);
    }
  }

  lemma CloseSpendsNothing(c: Config, s: State, cancelPending: bool, now: int)
    requires WellFormed(s) && Inv(c, s)
    ensures Calls(Close(s, cancelPending, now)) <= Calls(s)
    ensures cancelPending && !s.worker.Returned? ==> Count(Close(s, cancelPending, now).entries, Pending) == 0
  {
    CloseKeepsWorker(c, s, cancelPending, now);
    if cancelPending && !s.worker.Returned? {
      CloseCancels(c, s, cancelPending, now);
      hide Close;
      NonePending(Close(s, cancelPending, now).entries);
    }
  }

  /** Closing stops admission.  With cancellation it cancels exactly the requests that were not dispatched or
      resolved yet and empties the queue; without, it leaves every request and the queue as they are. */
  lemma {:induction false} CloseCancels(c: Config, s: State, cancelPending: bool, now: int)
    requires WellFormed(s) && Inv(c, s) && !s.worker.Returned?
    ensures var r := Close(s, cancelPending, now);
            && |r.entries| == |s.entries| && r.heap == (if cancelPending then [] else s.heap) && !r.accepting
            && r.worker == s.worker
            && (forall id: nat | id < |s.entries| ::
                  r.entries[id] == if cancelPending && s.entries[id].active
                  then Entry(s.entries[id].request, false, None, Some(Outcome(Cancelled, None, None, now, None)))
                  else s.entries[id])
  {
    var s1 := s.(accepting := false);
    SameCoreKeepsSound(c, s, s1, FlightOf(s));
    SoundHasParts(c, s1, FlightOf(s));
    hide CancelAll, Sound, SoundButIndex;
    CancelAllKeepsSound(c, s1, FlightOf(s), s1.heap, now);
    forall id: nat | id < |s.entries|
      ensures CancelAll(s1, s1.heap, now).entries[id]
           == if s.entries[id].active
              then Entry(s.entries[id].request, false, None, Some(Outcome(Cancelled, None, None, now, None)))
              else s.entries[id]
    {
      CancelAllEffect(s1, s1.heap, now, id);
    }
  }

  /** How many wake-ups of a run started a backend call. */
  ghost function CallsMade(c: Config, be: Backend, events: seq<Event>): nat {
    if events == [] then 0
    else
      var before := events[..|events| - 1];
      CallsMade(c, be, before)
      + if Run(c, be, before).worker.Waiting? && Run(c, be, events).worker.Executing? then 1 else 0
  }

  lemma StepCountsCalls(c: Config, be: Backend, s: State, e: Event)
    requires WellFormed(s) && Inv(c, s)
    ensures var r := Step(c, be, s, e);
            r.tally.batches == s.tally.batches + if s.worker.Waiting? && r.worker.Executing? then 1 else 0
  {
    hide Inv, Enqueue, Wake, Receive, Close, WellFormed, Calls;
    match e
    case Enqueued(request, clock) => EnqueueKeepsWorker(c, s, request, clock);
    case Woken(est, clock) => WakeSpendsCalls(c, be, s, est, clock);
    case Replied(reply, clock) =>
      ReceiveSpendsNothing(c, s, reply, clock);
      ReceiveEnds(c, s, reply, clock);
    case Closed(cancel, now) => CloseKeepsWorker(c, s, cancel, now);
    case Started =>
  }

  /** The batch counter is the number of backend calls of the run. */
  lemma {:induction false} BatchesAreCalls(c: Config, be: Backend, events: seq<Event>)
    ensures Run(c, be, events).tally.batches == CallsMade(c, be, events)
  {
    if events != [] {
      hide Inv, WellFormed, Step;
      BatchesAreCalls(c, be, events[..|events| - 1]);
      RunIsSound(c, be, events[..|events| - 1]);
      StepCountsCalls(c, be, Run(c, be, events[..|events| - 1]), events[|events| - 1]);
    }
  }

  lemma StepSpendsCalls(c: Config, be: Backend, s: State, e: Event)
    requires WellFormed(s) && Inv(c, s) && !s.accepting && !e.Started?
    ensures Calls(Step(c, be, s, e)) <= Calls(s) && !Step(c, be, s, e).accepting
  {
    hide Inv, Enqueue, Wake, Receive, Close, WellFormed, Calls;
    match e
    case Enqueued(request, clock) => EnqueueKeepsWorker(c, s, request, clock);
    case Woken(est, clock) => WakeSpendsCalls(c, be, s, est, clock);
    case Replied(reply, clock) => ReceiveSpendsNothing(c, s, reply, clock);
    case Closed(cancel, now) =>
      CloseSpendsNothing(c, s, cancel, now);
      CloseKeepsWorker(c, s, cancel, now);
  }

  /** Once admission has stopped, the worker makes at most as many further backend calls as there were
      pending requests, whatever else happens short of a restart. */
  lemma {:induction false} ClosedDrains(c: Config, be: Backend, s: State, events: seq<Event>)
    requires WellFormed(s) && Inv(c, s) && !s.accepting
    requires forall k | 0 <= k < |events| :: !events[k].Started?
    ensures var r := RunFrom(c, be, s, events);
            && !r.accepting
            && r.tally.batches + Count(r.entries, Pending) <= s.tally.batches + Count(s.entries, Pending)
  {
    if events != [] {
      hide Inv, WellFormed, Step;
      ClosedDrains(c, be, s, events[..|events| - 1]);
      RunFromKeepsInv(c, be, s, events[..|events| - 1]);
      StepSpendsCalls(c, be, RunFrom(c, be, s, events[..|events| - 1]), events[|events| - 1]);
    }
  }

  /** After close the worker makes progress: a turn past the planned dispatch time either starts a
      backend call on one of the pending requests or, when there are none, returns. */
  lemma {:induction false} ClosedTurnProgresses(c: Config, be: Backend, s: State, est: Predictor, clock: Clock)
    requires WellFormed(s) && Inv(c, s) && s.worker.Waiting? && !s.accepting
    ensures var s1 := CleanUp(c, s, est, clock);
            var r := Wake(c, be, s, est, clock);
            && (s1.heap == [] ==> r.worker.Returned?)
            && (s1.heap != [] && clock(2) >= DispatchAt(c, s1.entries[s1.heap[0]].request, est(1)) ==>
                  r.worker.Executing? && Count(r.entries, Pending) < Count(s.entries, Pending))
  {
    hide Sound, CleanUp;
    CleanUpCleans(c, s, [], est, clock);
    var s1 := CleanUp(c, s, est, clock);
    CleanedIsClean(c, s, s1, []);
    FewerPendingWhenCleaned(c, s, s1, []);
    CleanedKeepsWorker(c, s, s1, []);
    hide Cleaned;
    TurnSpendsCalls(c, be, s1, est, clock);
  }

  lemma CleanedKeepsWorker(c: Config, s: State, r: State, flight: seq<nat>)
    requires Cleaned(c, s, r, flight)
    ensures r.worker == s.worker && r.accepting == s.accepting
  {
  }

  /** When the worker has returned, the queue is empty, nothing is in flight and every request that was
      ever submitted has its outcome. */
  lemma {:induction false} ReturnedResolvesAll(c: Config, s: State)
    requires Inv(c, s) && s.worker.Returned?
    ensures s.heap == [] && FlightOf(s) == []
    ensures forall id: nat | id < |s.entries| :: s.entries[id].outcome.Some? && !s.entries[id].active
  {
    assert HeapOk(c, s) && FlightOk(s.entries, []);
    forall id: nat | id < |s.entries| ensures s.entries[id].outcome.Some? && !s.entries[id].active {
      assert id !in s.heap && id !in FlightOf(s);
    }
  }
}
