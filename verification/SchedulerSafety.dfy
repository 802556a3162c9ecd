/** What holds in every reachable state of the scheduler. */
module SchedulerSafety {
  import opened Types
  import opened SchedulerState
  import opened SchedulerInvariants

  function FlightOf(s: State): seq<nat> {
    if s.worker.Executing? then s.worker.batch else []
  }

  ghost predicate Counted(s: State) {
    && s.tally.submitted == |s.entries|
    && s.tally.dispatched == |s.log|
    && s.tally.batchItems == s.tally.dispatched
  }

  /** At most one resolved envelope lingers in the heap, and the pending ones respect the capacity. */
  ghost predicate Roomy(c: Config, s: State) {
    && |s.heap| <= Count(s.entries, Pending) + 1
    && (c.maxPending.Some? ==> Count(s.entries, Pending) <= c.maxPending.value)
  }

  ghost predicate Inv(c: Config, s: State) {
    && Sound(c, s, FlightOf(s))
    && Counted(s)
    && Roomy(c, s)
    && (s.worker.Executing? ==> s.worker.batch != [])
    && (s.worker.Returned? ==> !s.accepting && s.heap == [])
  }

  lemma InvIsWellFormed(c: Config, s: State)
    requires Inv(c, s)
    ensures WellFormed(s)
  {
    assert HeapOk(c, s) && TallyOk(s) && IndexOk(c, s) && FlightOk(s.entries, FlightOf(s));
  }

  /** The fields that `Sound` speaks of. */
  ghost predicate SameCore(s: State, r: State) {
    && r.entries == s.entries && r.heap == s.heap && r.pending == s.pending && r.latest == s.latest
    && r.log == s.log && r.tally.status == s.tally.status
  }

  lemma SameCoreKeepsSound(c: Config, s: State, r: State, flight: seq<nat>)
    requires Sound(c, s, flight) && SameCore(s, r)
    ensures Sound(c, r, flight)
  {
    assert HeapOk(c, r) && TallyOk(r) && LogOk(r) && IndexOk(c, r);
    if Orderly(c) {
      assert FreshOk(s);
      assert forall i | 0 <= i < |r.log| :: NotAhead(s, s.log[i]) ==> NotAhead(r, r.log[i]);
      assert forall id: nat | id < |r.entries| :: IsLatest(s, id) ==> IsLatest(r, id);
    }
  }

  // ---------------------------------------------------------------- what a sweep does to each envelope

  lemma RetireEntry(s: State, id: nat, status: Status, now: int)
    requires id < |s.entries| && status in s.tally.status && s.entries[id].active && EntryOk(s.entries[id])
    ensures Retire(s, id, status, now).entries
         == s.entries[id := Entry(s.entries[id].request, false, None, Some(Outcome(status, None, None, now, None)))]
  {
  }

  /** The exact effect of a sweep: the listed pending envelopes whose deadline lies before the cutoff
      get the status; every other envelope is untouched. */
  lemma {:induction false} SweepEffect(s: State, ids: seq<nat>, cutoff: int, status: Status, now: int, id: nat)
    requires InRange(s.entries, ids) && status in s.tally.status && id < |s.entries| && AllOk(s.entries)
    ensures Sweep(s, ids, cutoff, status, now).entries[id]
         == if id in ids && s.entries[id].active && s.entries[id].request.deadlineNs < cutoff
            then Entry(s.entries[id].request, false, None, Some(Outcome(status, None, None, now, None)))
            else s.entries[id]
  {
    if ids != [] {
      hide Retire, EntryOk;
      var (front, last) := (ids[..|ids| - 1], ids[|ids| - 1]);
      var r := Sweep(s, front, cutoff, status, now);
      assert ids == front + [last];
      SweepEffect(s, front, cutoff, status, now, id);
      SweepEffect(s, front, cutoff, status, now, last);
      if r.entries[last].active && r.entries[last].request.deadlineNs < cutoff {
        RetireEntry(r, last, status, now);
      }
    }
  }

  lemma SweepKeepsRequests(s: State, ids: seq<nat>, cutoff: int, status: Status, now: int)
    requires InRange(s.entries, ids) && status in s.tally.status && AllOk(s.entries)
    ensures var r := Sweep(s, ids, cutoff, status, now);
            forall id: nat | id < |s.entries| ::
              r.entries[id].request == s.entries[id].request && (r.entries[id].active ==> s.entries[id].active)
  {
    hide Sweep;
    forall id: nat | id < |s.entries|
      ensures var e := Sweep(s, ids, cutoff, status, now).entries[id];
              e.request == s.entries[id].request && (e.active ==> s.entries[id].active)
    {
      SweepEffect(s, ids, cutoff, status, now, id);
    }
  }

  lemma {:induction false} FewerPending(es: seq<Entry>, es': seq<Entry>)
    requires |es'| == |es| && forall id: nat | id < |es| :: es'[id].active ==> es[id].active
    ensures Count(es', Pending) <= Count(es, Pending)
    ensures (exists id: nat | id < |es| :: es[id].active && !es'[id].active) ==>
              Count(es', Pending) < Count(es, Pending)
  {
    if es != [] {
      var n := |es| - 1;
      FewerPending(es[..n], es'[..n]);
      if id: nat :| id < |es| && es[id].active && !es'[id].active {
        if id < n {
          assert es[..n][id].active && !es'[..n][id].active;
        }
      }
    }
  }

  // ---------------------------------------------------------------- the passes over the queue

  /** What a clean-up pass keeps and establishes. */
  ghost predicate Cleaned(c: Config, s: State, r: State, flight: seq<nat>) {
    && Sound(c, r, flight)
    && |r.entries| == |s.entries| && r.latest == s.latest && r.log == s.log
    && r.accepting == s.accepting && r.worker == s.worker && r.tally == s.tally.(status := r.tally.status)
    && |r.heap| == Count(r.entries, Pending)
    && (forall id: nat :: id in r.heap <==> id < |r.entries| && r.entries[id].active)
    && (forall id: nat | id < |s.entries| ::
          r.entries[id].request == s.entries[id].request && (r.entries[id].active ==> s.entries[id].active))
    && (forall k | k in r.pending :: k in s.pending && r.pending[k] == s.pending[k])
  }

  lemma SoundIsWellFormed(c: Config, s: State, flight: seq<nat>)
    requires Sound(c, s, flight)
    ensures InRange(s.entries, s.heap)
    ensures forall x: Status :: x in s.tally.status
    ensures forall k | k in s.pending :: s.pending[k] < |s.entries|
  {
    assert HeapOk(c, s) && TallyOk(s) && IndexOk(c, s);
  }

  lemma CleanedIsSound(c: Config, s: State, r: State, flight: seq<nat>)
    requires Cleaned(c, s, r, flight)
    ensures Sound(c, r, flight)
  {
  }

  lemma CompactCleans(c: Config, s: State, flight: seq<nat>)
    requires Sound(c, s, flight)
    ensures InRange(s.entries, s.heap) && Cleaned(c, s, Compact(s), flight)
    ensures Compact(s).entries == s.entries && Compact(s).pending == s.pending
  {
    assert HeapOk(c, s);
    hide Sound;
    CompactKeepsSound(c, s, flight);
    LiveCount(c, s);
  }

  lemma SweepCleans(c: Config, s: State, flight: seq<nat>, cutoff: int, status: Status, now: int)
    requires Sound(c, s, flight) && !FromBackend(status)
    ensures InRange(s.entries, s.heap) && status in s.tally.status
    ensures Cleaned(c, s, Compact(Sweep(s, s.heap, cutoff, status, now)), flight)
  {
    assert HeapOk(c, s) && TallyOk(s) && AllOk(s.entries);
    hide Sound, Sweep, Compact, AllOk, HeapOk, TallyOk, Cleaned;
    var r := Sweep(s, s.heap, cutoff, status, now);
    SweepKeepsSound(c, s, flight, s.heap, cutoff, status, now);
    SweepKeepsShape(s, s.heap, cutoff, status, now);
    SweepKeepsRequests(s, s.heap, cutoff, status, now);
    CompactCleans(c, r, flight);
    CleanedAfterShape(c, s, r, Compact(r), flight);
  }

  lemma CleanedAfterShape(c: Config, s: State, r: State, t: State, flight: seq<nat>)
    requires SameShape(s, r) && Cleaned(c, r, t, flight)
    requires forall id: nat | id < |s.entries| ::
               r.entries[id].request == s.entries[id].request && (r.entries[id].active ==> s.entries[id].active)
    ensures Cleaned(c, s, t, flight)
  {
  }

  lemma CleanedTwice(c: Config, s: State, r: State, t: State, flight: seq<nat>)
    requires Cleaned(c, s, r, flight) && Cleaned(c, r, t, flight)
    ensures Cleaned(c, s, t, flight)
  {
    hide Sound;
  }

  lemma ExpireCleans(c: Config, s: State, flight: seq<nat>, now: int)
    requires Sound(c, s, flight)
    ensures InRange(s.entries, s.heap) && Expired in s.tally.status
    ensures InRange(Compact(s).entries, Compact(s).heap) && Expired in Compact(s).tally.status
    ensures Cleaned(c, s, Expire(Compact(s), now), flight)
  {
    hide Sound, Sweep, Compact, Cleaned;
    SoundIsWellFormed(c, s, flight);
    CompactKeepsSound(c, s, flight);
    CompactCleans(c, s, flight);
    SweepCleans(c, Compact(s), flight, now + 1, Expired, now);
    CleanedTwice(c, s, Compact(s), Expire(Compact(s), now), flight);
  }

  lemma DropCleans(c: Config, s: State, flight: seq<nat>, predicted: Option<int>, now: int)
    requires Cleaned(c, s, s, flight)
    ensures InRange(s.entries, s.heap) && Unserviceable in s.tally.status
    ensures Cleaned(c, s, Drop(c, s, predicted, now), flight)
  {
    hide Sound, Sweep, Compact, Cleaned;
    CleanedIsSound(c, s, s, flight);
    SoundIsWellFormed(c, s, flight);
    if c.dropUnserviceable && predicted.Some? {
      SweepCleans(c, s, flight, now + predicted.value + c.guardNs, Unserviceable, now);
    }
  }

  lemma CleanedIsClean(c: Config, s: State, r: State, flight: seq<nat>)
    requires Cleaned(c, s, r, flight)
    ensures Cleaned(c, r, r, flight)
  {
    hide Sound;
  }

  lemma CleanUpCleans(c: Config, s: State, flight: seq<nat>, est: Predictor, clock: Clock)
    requires WellFormed(s) && Sound(c, s, flight)
    ensures Cleaned(c, s, CleanUp(c, s, est, clock), flight)
  {
    hide Sound, Sweep, Compact, Cleaned, Drop, Expire;
    ExpireCleans(c, s, flight, clock(0));
    var s1 := Expire(Compact(s), clock(0));
    CleanedIsClean(c, s, s1, flight);
    DropCleans(c, s1, flight, est(1), clock(1));
    CleanedTwice(c, s, s1, CleanUp(c, s, est, clock), flight);
  }

  /** An envelope that was taken out of service before it was dispatched. */
  function Retired(e: Entry, status: Status, now: int): Entry {
    Entry(e.request, false, None, Some(Outcome(status, None, None, now, None)))
  }

  /** A sweep of the whole heap reaches every pending envelope. */
  lemma HeapSweepEffect(c: Config, s: State, flight: seq<nat>, cutoff: int, status: Status, now: int, id: nat)
    requires Sound(c, s, flight) && id < |s.entries|
    ensures InRange(s.entries, s.heap) && status in s.tally.status
    ensures id < |Sweep(s, s.heap, cutoff, status, now).entries|
    ensures Sweep(s, s.heap, cutoff, status, now).entries[id]
         == if s.entries[id].active && s.entries[id].request.deadlineNs < cutoff
            then Retired(s.entries[id], status, now) else s.entries[id]
  {
    SoundIsWellFormed(c, s, flight);
    SoundHasParts(c, s, flight);
    PendingIsInHeap(c, s, id);
    hide Sound, Sweep, HeapOk, AllOk;
    SweepEffect(s, s.heap, cutoff, status, now, id);
  }

  lemma PendingIsInHeap(c: Config, s: State, id: nat)
    requires HeapOk(c, s) && id < |s.entries|
    ensures s.entries[id].active ==> id in s.heap
  {
  }

  /** What the clean-up passes of a turn make of an envelope: a pending one expires at its deadline and, if the
      configuration drops, goes as soon as the prediction for one request leaves it no time. */
  function AfterCleanUp(c: Config, e: Entry, est: Predictor, clock: Clock): Entry {
    if !e.active then e
    else if e.request.deadlineNs <= clock(0) then Retired(e, Expired, clock(0))
    else if c.dropUnserviceable && est(1).Some? && e.request.deadlineNs < clock(1) + est(1).value + c.guardNs
    then Retired(e, Unserviceable, clock(1))
    else e
  }

  /** The exact effect of the clean-up passes on every envelope. */
  lemma {:induction false} CleanUpEffect(c: Config, s: State, est: Predictor, clock: Clock, id: nat)
    requires WellFormed(s) && Inv(c, s) && id < |s.entries|
    ensures id < |CleanUp(c, s, est, clock).entries|
    ensures CleanUp(c, s, est, clock).entries[id] == AfterCleanUp(c, s.entries[id], est, clock)
  {
    var flight := FlightOf(s);
    hide Sound, Sweep, Active, Cleaned;
    CompactKeepsSound(c, s, flight);
    HeapSweepEffect(c, Compact(s), flight, clock(0) + 1, Expired, clock(0), id);
    ExpireCleans(c, s, flight, clock(0));
    var s1 := Expire(Compact(s), clock(0));
    CleanedIsSound(c, s, s1, flight);
    DropEffect(c, s1, flight, est(1), clock(1), id);
  }

  lemma CompactKeepsEntries(s: State)
    requires InRange(s.entries, s.heap)
    ensures Compact(s).entries == s.entries
  {
  }

  lemma DropEffect(c: Config, s: State, flight: seq<nat>, predicted: Option<int>, now: int, id: nat)
    requires Sound(c, s, flight) && id < |s.entries|
    ensures InRange(s.entries, s.heap) && Unserviceable in s.tally.status
    ensures id < |Drop(c, s, predicted, now).entries|
    ensures Drop(c, s, predicted, now).entries[id]
         == if c.dropUnserviceable && predicted.Some? && s.entries[id].active
               && s.entries[id].request.deadlineNs < now + predicted.value + c.guardNs
            then Retired(s.entries[id], Unserviceable, now) else s.entries[id]
  {
    hide Sound, Sweep, Compact, Retired;
    SoundIsWellFormed(c, s, flight);
    if c.dropUnserviceable && predicted.Some? {
      var cutoff := now + predicted.value + c.guardNs;
      HeapSweepEffect(c, s, flight, cutoff, Unserviceable, now, id);
      SweepKeepsShape(s, s.heap, cutoff, Unserviceable, now);
      CompactKeepsEntries(Sweep(s, s.heap, cutoff, Unserviceable, now));
    }
  }

  // ---------------------------------------------------------------- enqueue

  lemma RejectKeepsInv(c: Config, s: State, r: Request, status: Status, now: int)
    requires Sound(c, s, FlightOf(s)) && Roomy(c, s) && !FromBackend(status)
    requires s.tally.submitted == |s.entries| + 1 && s.tally.dispatched == |s.log|
    requires s.tally.batchItems == s.tally.dispatched
    requires s.accepting && !s.worker.Returned? && (s.worker.Executing? ==> s.worker.batch != [])
    ensures status in s.tally.status && Inv(c, Reject(s, r, status, now))
  {
    RejectKeepsSound(c, s, FlightOf(s), r, status, now);
    hide Sound;
    var e := Entry(r, false, None, Some(Outcome(status, None, None, now, None)));
    CountAppend(s.entries, e, Pending);
  }

  lemma AdmitKeepsInv(c: Config, s: State, r: Request)
    requires SoundButIndex(c, s, FlightOf(s)) && IndexBut(c, s, SessionOf(r)) && !Stale(c, s, r)
    requires Orderly(c) ==> NonePendingOf(s, SessionOf(r))
    requires |s.heap| <= Count(s.entries, Pending) + 1
    requires c.maxPending.Some? ==> Count(s.entries, Pending) < c.maxPending.value
    requires s.tally.submitted == |s.entries| + 1 && s.tally.dispatched == |s.log|
    requires s.tally.batchItems == s.tally.dispatched
    requires s.accepting && !s.worker.Returned? && (s.worker.Executing? ==> s.worker.batch != [])
    ensures InRange(s.entries, s.heap) && Inv(c, Admit(c, s, r))
  {
    AdmitKeepsSound(c, s, FlightOf(s), r);
    hide Sound, SoundButIndex, IndexBut, Stale, NonePendingOf;
    var e := Entry(r, true, None, None);
    CountAppend(s.entries, e, Pending);
    PushLength(c, s.entries + [e], s.heap, |s.entries|);
  }

  /** What the pending pointer of a session tells: the only pending request of that session. */
  lemma PreviousIsPending(c: Config, s: State, key: SessionKey)
    requires IndexOk(c, s) && AllOk(s.entries)
    ensures forall k | k in s.pending :: s.pending[k] < |s.entries|
    ensures var p := Previous(c, s, key);
            && (p.Some? ==> p.value < |s.entries| && s.entries[p.value].active
                            && SessionOf(s.entries[p.value].request) == key)
            && (p.Some? <==> c.coalesceSessions && exists id: nat | id < |s.entries| ::
                               s.entries[id].active && SessionOf(s.entries[id].request) == key)
            && (p.None? ==> IndexBut(c, s, key))
  {
  }

  /** Expiry either leaves the previous request of the session pending or clears its pointer. */
  lemma PreviousAfterExpiry(c: Config, s: State, s1: State, flight: seq<nat>, key: SessionKey)
    requires IndexOk(c, s) && AllOk(s.entries) && Cleaned(c, s, s1, flight)
    ensures forall k | k in s.pending :: s.pending[k] < |s.entries|
    ensures var p := Previous(c, s, key);
            && (p.None? ==> IndexBut(c, s1, key))
            && (p.Some? && !s1.entries[p.value].active ==>
                  IndexBut(c, s1, key) && Count(s1.entries, Pending) < Count(s.entries, Pending))
  {
    PreviousIsPending(c, s, key);
    assert IndexOk(c, s1);
    var p := Previous(c, s, key);
    if p.Some? && !s1.entries[p.value].active {
      assert s.entries[p.value].active;
      FewerPending(s.entries, s1.entries);
    }
  }

  lemma FewerPendingWhenCleaned(c: Config, s: State, r: State, flight: seq<nat>)
    requires Cleaned(c, s, r, flight)
    ensures Count(r.entries, Pending) <= Count(s.entries, Pending)
  {
    hide Sound;
    FewerPending(s.entries, r.entries);
  }

  /** Replacing a request that expired in the same call does nothing more. */
  lemma SupersedeResolved(s: State, id: nat, r: Request, now: int)
    requires id < |s.entries| && PhaseOf(s.entries[id]).Done? && Replaced in s.tally.status
    ensures Supersede(s, id, r, now) == s
  {
    assert s.entries[id := s.entries[id].(active := false)] == s.entries;
  }

  lemma ConcludedCount(s: State, r: State, id: nat, status: Status)
    requires Concludes(s, r, id, status)
    ensures Count(r.entries, Pending) == Count(s.entries, Pending) - 1
  {
    CountUpdate(s.entries, id, r.entries[id], Pending);
  }

  /** The state in which a new request that is neither stale nor refused joins the queue. */
  ghost predicate Receptive(c: Config, s: State, r: Request) {
    && SoundButIndex(c, s, FlightOf(s)) && IndexBut(c, s, SessionOf(r)) && !Stale(c, s, r)
    && |s.heap| <= Count(s.entries, Pending) + 1
    && (c.maxPending.Some? ==> Count(s.entries, Pending) < c.maxPending.value)
  }

  lemma SupersededIsReceptive(c: Config, s: State, id: nat, r: Request, now: int)
    requires Sound(c, s, FlightOf(s)) && c.coalesceSessions && id < |s.entries| && s.entries[id].active
    requires SessionOf(s.entries[id].request) == SessionOf(r) && !Stale(c, s, r) && Replaced in s.tally.status
    requires |s.heap| == Count(s.entries, Pending) && Roomy(c, s)
    ensures Receptive(c, Supersede(s, id, r, now), r)
    ensures Supersede(s, id, r, now).worker == s.worker && Supersede(s, id, r, now).accepting == s.accepting
    ensures Supersede(s, id, r, now).log == s.log && |Supersede(s, id, r, now).entries| == |s.entries|
    ensures Supersede(s, id, r, now).tally == s.tally.(status := Supersede(s, id, r, now).tally.status)
  {
    var s1 := Supersede(s, id, r, now);
    assert s1 == s.(entries := s1.entries, tally := s.tally.(status := s1.tally.status));
    assert |s1.entries| == |s.entries|;
    hide Sound, SoundButIndex, IndexBut, Supersede, Concludes;
    SupersedeKeepsSound(c, s, FlightOf(s), id, r, now);
    ConcludedCount(s, s1, id, Replaced);
  }

  lemma ExpiredPreviousIsDone(c: Config, s: State, s1: State, flight: seq<nat>, id: nat)
    requires Sound(c, s, flight) && Cleaned(c, s, s1, flight)
    requires id < |s.entries| && s.entries[id].active && !s1.entries[id].active
    ensures PhaseOf(s1.entries[id]).Done?
  {
    assert FlightOk(s.entries, flight) && FlightOk(s1.entries, flight);
    assert PhaseOf(s.entries[id]).Pending?;
  }

  lemma SoundHasParts(c: Config, s: State, flight: seq<nat>)
    requires Sound(c, s, flight)
    ensures SoundButIndex(c, s, flight) && IndexOk(c, s) && AllOk(s.entries) && HeapOk(c, s)
  {
  }

  /** The state at the moment the new envelope enters, whichever way the old one of its session went. */
  lemma EntranceIsReceptive(c: Config, s: State, s1: State, r: Request, now: int)
    requires Sound(c, s, FlightOf(s)) && Roomy(c, s) && Cleaned(c, s, s1, FlightOf(s)) && !Stale(c, s, r)
    requires WellFormed(s) && Replaced in s1.tally.status
    requires Previous(c, s, SessionOf(r)).None? ==> !AtCapacity(c, s1)
    ensures var p := Previous(c, s, SessionOf(r));
            var s2 := if p.Some? then Supersede(s1, p.value, r, now) else s1;
            && Receptive(c, s2, r)
            && s2.worker == s.worker && s2.accepting == s.accepting && s2.log == s.log && |s2.entries| == |s.entries|
            && s2.tally == s.tally.(status := s2.tally.status)
  {
    hide Sound, SoundButIndex, IndexBut, IndexOk, AllOk, HeapOk, Supersede, WellFormed;
    var (flight, key) := (FlightOf(s), SessionOf(r));
    SoundHasParts(c, s, flight);
    SoundHasParts(c, s1, flight);
    PreviousIsPending(c, s, key);
    PreviousAfterExpiry(c, s, s1, flight, key);
    FewerPendingWhenCleaned(c, s, s1, flight);
    var p := Previous(c, s, key);
    hide Previous;
    if p.Some? {
      if s1.entries[p.value].active {
        SupersededIsReceptive(c, s1, p.value, r, now);
      } else {
        ExpiredPreviousIsDone(c, s, s1, flight, p.value);
        SupersedeResolved(s1, p.value, r, now);
      }
    }
  }

  lemma {:induction false} CountIsPositive(es: seq<Entry>, p: Phase, id: nat)
    requires id < |es| && PhaseOf(es[id]) == p
    ensures Count(es, p) >= 1
  {
    if id < |es| - 1 {
      CountIsPositive(es[..|es| - 1], p, id);
    }
  }

  lemma ReceptiveHasNonePending(c: Config, s: State, r: Request)
    requires Receptive(c, s, r) && Orderly(c)
    ensures NonePendingOf(s, SessionOf(r))
  {
    hide SoundButIndex;
    forall id: nat | id < |s.entries| && s.entries[id].active ensures SessionOf(s.entries[id].request) != SessionOf(r) {
      if !c.coalesceSessions {
        CountIsPositive(s.entries, Pending, id);
      }
    }
  }

  lemma AdmitFromReceptive(c: Config, s: State, r: Request)
    requires Receptive(c, s, r)
    requires s.tally.submitted == |s.entries| + 1 && s.tally.dispatched == |s.log|
    requires s.tally.batchItems == s.tally.dispatched
    requires s.accepting && !s.worker.Returned? && (s.worker.Executing? ==> s.worker.batch != [])
    ensures InRange(s.entries, s.heap) && Inv(c, Admit(c, s, r))
  {
    hide SoundButIndex, IndexBut, NonePendingOf;
    if Orderly(c) {
      ReceptiveHasNonePending(c, s, r);
    }
    AdmitKeepsInv(c, s, r);
  }

  lemma CleanedKeepsRoom(c: Config, s: State, r: State, flight: seq<nat>)
    requires Cleaned(c, s, r, flight) && Roomy(c, s)
    ensures Roomy(c, r)
  {
    FewerPendingWhenCleaned(c, s, r, flight);
  }

  lemma EnqueueKeepsInv(c: Config, s: State, r: Request, clock: Clock)
    requires WellFormed(s) && Inv(c, s)
    ensures Inv(c, Enqueue(c, s, r, clock))
  {
    if s.accepting {
      var s0 := CountSubmit(s);
      SameCoreKeepsSound(c, s, s0, FlightOf(s));
      if Stale(c, s, r) {
        RejectKeepsInv(c, s0, r, OutOfOrder, clock(0));
      } else {
        EnqueueFreshKeepsInv(c, s0, r, clock);
      }
    }
  }

  lemma EnqueueFreshKeepsInv(c: Config, s0: State, r: Request, clock: Clock)
    requires WellFormed(s0) && Sound(c, s0, FlightOf(s0)) && Roomy(c, s0) && !Stale(c, s0, r)
    requires s0.tally.submitted == |s0.entries| + 1 && s0.tally.dispatched == |s0.log|
    requires s0.tally.batchItems == s0.tally.dispatched
    requires s0.accepting && !s0.worker.Returned? && (s0.worker.Executing? ==> s0.worker.batch != [])
    ensures Expired in Compact(s0).tally.status && InRange(Compact(s0).entries, Compact(s0).heap)
    ensures var s1 := Expire(Compact(s0), clock(0));
            var p := Previous(c, s0, SessionOf(r));
            && Cleaned(c, s0, s1, FlightOf(s0))
            && (forall x: Status :: x in s1.tally.status)
            && InRange(s1.entries, s1.heap)
            && if p.None? && AtCapacity(c, s1) then Inv(c, Reject(s1, r, Overloaded, clock(1)))
               else
                 var s2 := if p.Some? then Supersede(s1, p.value, r, clock(1)) else s1;
                 InRange(s2.entries, s2.heap) && Inv(c, Admit(c, s2, r))
  {
    hide Sound, SoundButIndex, Supersede, Previous, Inv, Receptive, Sweep, Compact, Expire, Admit, Reject, Stale;
    var flight := FlightOf(s0);
    ExpireCleans(c, s0, flight, clock(0));
    var s1 := Expire(Compact(s0), clock(0));
    CleanedIsSound(c, s0, s1, flight);
    SoundIsWellFormed(c, s1, flight);
    CleanedKeepsRoom(c, s0, s1, flight);
    if Previous(c, s0, SessionOf(r)).None? && AtCapacity(c, s1) {
      RejectKeepsInv(c, s1, r, Overloaded, clock(1));
    } else {
      EntranceIsReceptive(c, s0, s1, r, clock(1));
      SoundHasParts(c, s0, flight);
      PreviousIsPending(c, s0, SessionOf(r));
      var p := Previous(c, s0, SessionOf(r));
      AdmitFromReceptive(c, if p.Some? then Supersede(s1, p.value, r, clock(1)) else s1, r);
    }
  }

  // ---------------------------------------------------------------- forming a batch

  ghost predicate AllActive(es: seq<Entry>, ids: seq<nat>) {
    InRange(es, ids) && forall i | 0 <= i < |ids| :: es[ids[i]].active
  }

  lemma SortedParts(c: Config, es: seq<Entry>, a: seq<nat>, x: nat, b: seq<nat>)
    requires Sorted(c, es, a + [x] + b)
    ensures Sorted(c, es, a + b) && Sorted(c, es, (a + [x]) + b)
  {
    var (all, rest) := (a + [x] + b, a + b);
    assert (a + [x]) + b == all;
    forall i | 0 <= i < |rest| ensures rest[i] < |es| {
      assert all[if i < |a| then i else i + 1] == rest[i];
    }
    forall i, j | 0 <= i < j < |rest| ensures Before(KeyOf(c, es, rest[i]), KeyOf(c, es, rest[j])) {
      var i' := if i < |a| then i else i + 1;
      var j' := if j < |a| then j else j + 1;
      assert all[i'] == rest[i] && all[j'] == rest[j];
    }
  }

  /** The scan sorts the queue into a batch and a remainder without changing the order of either. */
  lemma {:induction false} SelectKeepsOrder(c: Config, be: Backend, es: seq<Entry>, est: Predictor, clock: Clock,
                                            queue: seq<nat>, ch: Choice, k: nat)
    requires Sorted(c, es, ch.ids + queue) && Sorted(c, es, ch.rest + queue)
    requires InRange(es, queue) && InRange(es, ch.ids) && InRange(es, ch.rest)
    requires ch.ids != [] && |ch.ats| == |ch.ids| && AllActive(es, ch.ids)
    ensures var r := Select(c, be, es, est, clock, queue, ch, k);
            Sorted(c, es, r.ids) && Sorted(c, es, r.rest) && AllActive(es, r.ids)
    decreases |queue|
  {
    if queue == [] {
      assert ch.ids + queue == ch.ids && ch.rest + queue == ch.rest;
    } else {
      var (id, rest) := (queue[0], queue[1..]);
      assert ch.ids + queue == ch.ids + [id] + rest && ch.rest + queue == ch.rest + [id] + rest;
      SortedParts(c, es, ch.ids, id, rest);
      SortedParts(c, es, ch.rest, id, rest);
      hide Sorted, Joins;
      if !es[id].active {
        SelectKeepsOrder(c, be, es, est, clock, rest, ch, k + 1);
      } else if Joins(c, be, es, est, ch.ids, id, clock(2 * k + 1)) {
        var ch1 := ch.(ids := ch.ids + [id], ats := ch.ats + [clock(2 * k + 2)], checkedAt := clock(2 * k + 1));
        SelectKeepsOrder(c, be, es, est, clock, rest, ch1, k + 1);
      } else {
        SelectKeepsOrder(c, be, es, est, clock, rest, ch.(rest := ch.rest + [id]), k + 1);
      }
    }
  }

  lemma ChoiceIsOrdered(c: Config, be: Backend, es: seq<Entry>, est: Predictor, clock: Clock, heap: seq<nat>,
                        checkedAt: int)
    requires heap != [] && Sorted(c, es, heap) && AllActive(es, heap)
    ensures var ch := TheChoice(c, be, es, est, clock, heap, checkedAt);
            && Sorted(c, es, ch.ids) && Sorted(c, es, ch.rest) && AllActive(es, ch.ids) && Distinct(ch.ids)
  {
    var start := Choice([heap[0]], [clock(0)], checkedAt, []);
    assert start.ids + heap[1..] == heap && start.rest + heap[1..] == heap[1..];
    SelectKeepsOrder(c, be, es, est, clock, heap[1..], start, 0);
    SortedIsDistinct(c, es, TheChoice(c, be, es, est, clock, heap, checkedAt).ids);
  }

  /** The exact effect of dispatching a batch on each envelope and on the log. */
  ghost predicate AllDispatched(s: State, r: State, ids: seq<nat>, ats: seq<int>)
    requires InRange(s.entries, ids) && |ats| == |ids|
  {
    && r.log == s.log + ids && |r.entries| == |s.entries|
    && r == s.(entries := r.entries, pending := r.pending, log := r.log)
    && (forall id: nat | id < |s.entries| && id !in ids :: r.entries[id] == s.entries[id])
    && (forall i | 0 <= i < |ids| ::
          r.entries[ids[i]] == s.entries[ids[i]].(active := false, dispatchedNs := Some(ats[i])))
  }

  lemma OneMoreDispatched(s: State, r: State, ids: seq<nat>, ats: seq<int>)
    requires InRange(s.entries, ids) && |ats| == |ids| && Distinct(ids) && ids != []
    requires AllDispatched(s, r, ids[..|ids| - 1], ats[..|ids| - 1])
    ensures AllDispatched(s, Dispatch(r, ids[|ids| - 1], ats[|ids| - 1]), ids, ats)
  {
    var n := |ids| - 1;
    DispatchEffect(r, ids[n], ats[n]);
    hide Dispatch, ClearPointer;
    assert ids == ids[..n] + [ids[n]];
    assert ids[n] !in ids[..n];
  }

  lemma {:induction false} DispatchAllIsAll(s: State, ids: seq<nat>, ats: seq<int>)
    requires InRange(s.entries, ids) && |ats| == |ids| && Distinct(ids)
    ensures AllDispatched(s, DispatchAll(s, ids, ats), ids, ats)
  {
    if ids != [] {
      hide AllDispatched;
      DispatchAllIsAll(s, ids[..|ids| - 1], ats[..|ids| - 1]);
      LastDispatch(s, ids, ats);
      OneMoreDispatched(s, DispatchAll(s, ids[..|ids| - 1], ats[..|ids| - 1]), ids, ats);
    }
  }

  lemma DispatchAllEffect(s: State, ids: seq<nat>, ats: seq<int>)
    requires InRange(s.entries, ids) && |ats| == |ids| && Distinct(ids)
    ensures var r := DispatchAll(s, ids, ats);
            && r.log == s.log + ids
            && r == s.(entries := r.entries, pending := r.pending, log := r.log)
            && (forall id: nat | id < |s.entries| && id !in ids :: r.entries[id] == s.entries[id])
            && (forall i | 0 <= i < |ids| ::
                  r.entries[ids[i]] == s.entries[ids[i]].(active := false, dispatchedNs := Some(ats[i])))
  {
    hide DispatchAll;
    DispatchAllIsAll(s, ids, ats);
  }

  lemma StaysPending(s: State, ids: seq<nat>, ats: seq<int>, id: nat)
    requires InRange(s.entries, ids) && |ats| == |ids| && Distinct(ids) && id < |s.entries|
    requires forall i | 0 <= i < |ids| :: ids[i] != id
    ensures DispatchAll(s, ids, ats).entries[id] == s.entries[id]
  {
    hide DispatchAll;
    DispatchAllEffect(s, ids, ats);
  }

  lemma FrontIsActive(es: seq<Entry>, ids: seq<nat>, n: nat)
    requires AllActive(es, ids) && Distinct(ids) && |ids| == n + 1
    ensures AllActive(es, ids[..n]) && Distinct(ids[..n])
    ensures ids[n] < |es| && es[ids[n]].active && forall i | 0 <= i < n :: ids[..n][i] != ids[n]
  {
  }

  lemma ActiveInRange(es: seq<Entry>, ids: seq<nat>)
    requires AllActive(es, ids)
    ensures InRange(es, ids) && forall n | 0 <= n <= |ids| :: InRange(es, ids[..n])
  {
  }

  lemma SplitFlight(flight: seq<nat>, ids: seq<nat>)
    requires ids != []
    ensures flight + ids == flight + ids[..|ids| - 1] + [ids[|ids| - 1]]
  {
  }

  lemma LastDispatch(s: State, ids: seq<nat>, ats: seq<int>)
    requires InRange(s.entries, ids) && |ats| == |ids| && ids != []
    ensures DispatchAll(s, ids, ats)
         == Dispatch(DispatchAll(s, ids[..|ids| - 1], ats[..|ids| - 1]), ids[|ids| - 1], ats[|ids| - 1])
  {
    hide Dispatch;
  }

  lemma {:induction false} DispatchAllKeepsSound(c: Config, s: State, flight: seq<nat>, ids: seq<nat>, ats: seq<int>)
    requires Sound(c, s, flight) && AllActive(s.entries, ids) && Distinct(ids) && |ats| == |ids|
    ensures Sound(c, DispatchAll(s, ids, ats), flight + ids)
  {
    if ids == [] {
      assert flight + ids == flight;
    } else {
      var n := |ids| - 1;
      FrontIsActive(s.entries, ids, n);
      hide Sound, Dispatch, Distinct, AllActive, DispatchAll, InRange;
      ActiveInRange(s.entries, ids);
      LastDispatch(s, ids, ats);
      var r := DispatchAll(s, ids[..n], ats[..n]);
      DispatchAllKeepsSound(c, s, flight, ids[..n], ats[..n]);
      StaysPending(s, ids[..n], ats[..n], ids[n]);
      DispatchKeepsSound(c, r, flight + ids[..n], ids[n], ats[n]);
      SplitFlight(flight, ids);
    }
  }

  /** Dispatching the chosen ones keeps the invariant and leaves fewer pending. */
  lemma ChoiceIsDispatched(c: Config, be: Backend, s: State, est: Predictor, clock: Clock, checkedAt: int)
    requires Cleaned(c, s, s, []) && s.heap != []
    ensures Sorted(c, s.entries, s.heap)
    ensures var ch := TheChoice(c, be, s.entries, est, clock, s.heap, checkedAt);
            var r := DispatchAll(s, ch.ids, ch.ats);
            && Sound(c, r, ch.ids) && r.log == s.log + ch.ids
            && r == s.(entries := r.entries, pending := r.pending, log := r.log)
            && |r.entries| == |s.entries| && Count(r.entries, Pending) < Count(s.entries, Pending)
  {
    hide Sound, Cleaned, Sorted, TheChoice, DispatchAll;
    CleanedIsSound(c, s, s, []);
    CleanedHeap(c, s);
    var ch := TheChoice(c, be, s.entries, est, clock, s.heap, checkedAt);
    ChoiceIsOrdered(c, be, s.entries, est, clock, s.heap, checkedAt);
    DispatchAllKeepsSound(c, s, [], ch.ids, ch.ats);
    DispatchAllEffect(s, ch.ids, ch.ats);
    assert [] + ch.ids == ch.ids;
    DispatchedIsFewer(s, DispatchAll(s, ch.ids, ch.ats), ch.ids, ch.ats);
  }

  lemma {:induction false} TakeBatchKeepsInv(c: Config, be: Backend, s: State, est: Predictor, clock: Clock,
                                             checkedAt: int)
    requires Cleaned(c, s, s, []) && s.heap != [] && Counted(s) && Roomy(c, s)
    ensures InRange(s.entries, s.heap)
    ensures Inv(c, TakeBatch(c, be, s, est, clock, checkedAt))
  {
    hide Sound, Cleaned, TheChoice, DispatchAll, Compact, SafeBy;
    ChoiceIsDispatched(c, be, s, est, clock, checkedAt);
    var ch := TheChoice(c, be, s.entries, est, clock, s.heap, checkedAt);
    var s1 := DispatchAll(s, ch.ids, ch.ats);
    CompactCleans(c, s1, ch.ids);
    CleanedIsSound(c, s1, Compact(s1), ch.ids);
    CompactShape(c, s1, ch.ids);
    SameCoreKeepsSound(c, Compact(s1), TakeBatch(c, be, s, est, clock, checkedAt), ch.ids);
  }

  lemma CleanedHeap(c: Config, s: State)
    requires Cleaned(c, s, s, [])
    ensures Sorted(c, s.entries, s.heap) && AllActive(s.entries, s.heap)
  {
    assert HeapOk(c, s);
    forall i | 0 <= i < |s.heap| ensures s.entries[s.heap[i]].active {
      assert s.heap[i] in s.heap;
    }
  }

  lemma CompactShape(c: Config, s: State, flight: seq<nat>)
    requires Sound(c, s, flight)
    ensures InRange(s.entries, s.heap) && Compact(s) == s.(heap := Compact(s).heap)
    ensures |Compact(s).heap| == Count(s.entries, Pending)
  {
    assert HeapOk(c, s);
    LiveCount(c, s);
  }

  lemma DispatchedIsFewer(s: State, r: State, ids: seq<nat>, ats: seq<int>)
    requires InRange(s.entries, ids) && |ats| == |ids| && Distinct(ids) && r == DispatchAll(s, ids, ats)
    ensures Count(r.entries, Pending) <= Count(s.entries, Pending)
    ensures ids != [] && AllActive(s.entries, ids) ==> Count(r.entries, Pending) < Count(s.entries, Pending)
  {
    DispatchAllEffect(s, ids, ats);
    hide DispatchAll;
    forall id: nat | id < |s.entries| ensures r.entries[id].active ==> s.entries[id].active {
      if id in ids {
        var i :| 0 <= i < |ids| && ids[i] == id;
        assert !r.entries[ids[i]].active;
      }
    }
    if ids != [] && AllActive(s.entries, ids) {
      assert s.entries[ids[0]].active && !r.entries[ids[0]].active;
    }
    FewerPending(s.entries, r.entries);
  }

  lemma TurnKeepsInv(c: Config, be: Backend, s: State, est: Predictor, clock: Clock)
    requires Cleaned(c, s, s, []) && Counted(s) && Roomy(c, s) && s.worker.Waiting?
    ensures InRange(s.entries, s.heap) && Inv(c, Turn(c, be, s, est, clock))
  {
    hide Sound, Cleaned, TakeBatch, DispatchAt;
    CleanedHeap(c, s);
    CleanedIsSound(c, s, s, []);
    if s.heap == [] || clock(2) < DispatchAt(c, s.entries[s.heap[0]].request, est(1)) {
      SameCoreKeepsSound(c, s, Turn(c, be, s, est, clock), []);
    } else {
      TakeBatchKeepsInv(c, be, s, est, (n: nat) => clock(n + 3), clock(1));
    }
  }

  lemma WakeKeepsInv(c: Config, be: Backend, s: State, est: Predictor, clock: Clock)
    requires WellFormed(s) && Inv(c, s)
    ensures Inv(c, Wake(c, be, s, est, clock))
  {
    if s.worker.Waiting? {
      var s1 := CleanUp(c, s, est, clock);
      CleanUpCleans(c, s, [], est, clock);
      assert s1.worker == s.worker;
      hide Sound, CleanUp, Cleaned, Turn;
      CleanedIsClean(c, s, s1, []);
      CleanedKeepsRoom(c, s, s1, []);
      CleanedKeepsCounts(c, s, s1, []);
      TurnKeepsInv(c, be, s1, est, clock);
    }
  }

  lemma CleanedKeepsCounts(c: Config, s: State, r: State, flight: seq<nat>)
    requires Cleaned(c, s, r, flight) && Counted(s)
    ensures Counted(r)
  {
    hide Sound;
  }

  // ---------------------------------------------------------------- the backend's reply

  function FailedEntry(e: Entry, now: int): Entry {
    if e.outcome.Some? then e else e.(outcome := Some(Outcome(Failed, None, e.dispatchedNs, now, None)))
  }

  /** The exact effect of failing a batch: what was resolved before stays as it is. */
  lemma {:induction false} FailAllEffect(s: State, batch: seq<nat>, now: int, id: nat)
    requires InRange(s.entries, batch) && Failed in s.tally.status && id < |s.entries|
    ensures FailAll(s, batch, now).entries[id] == if id in batch then FailedEntry(s.entries[id], now) else s.entries[id]
  {
    if batch != [] {
      var n := |batch| - 1;
      FailAllEffect(s, batch[..n], now, id);
      assert batch == batch[..n] + [batch[n]];
    }
  }

  /** Only outcomes and the counters of outcomes differ. */
  ghost predicate OnlyOutcomes(s: State, r: State) {
    && |r.entries| == |s.entries|
    && r == s.(entries := r.entries, tally := s.tally.(status := r.tally.status))
    && r.tally.status.Keys == s.tally.status.Keys
    && forall id: nat | id < |s.entries| :: r.entries[id] == s.entries[id].(outcome := r.entries[id].outcome)
  }

  lemma {:induction false} FailAllShape(s: State, batch: seq<nat>, now: int)
    requires InRange(s.entries, batch) && Failed in s.tally.status
    ensures OnlyOutcomes(s, FailAll(s, batch, now))
  {
    if batch != [] {
      FailAllShape(s, batch[..|batch| - 1], now);
    }
  }

  lemma {:induction false} SamePending(es: seq<Entry>, es': seq<Entry>)
    requires |es'| == |es| && forall id: nat | id < |es| :: es'[id].active == es[id].active
    ensures Count(es', Pending) == Count(es, Pending)
  {
    if es != [] {
      SamePending(es[..|es| - 1], es'[..|es| - 1]);
    }
  }

  lemma FailAllStep(s: State, batch: seq<nat>, m: nat, now: int)
    requires 0 < m <= |batch| && InRange(s.entries, batch) && Failed in s.tally.status
    ensures FailAll(s, batch[..m], now)
         == Finish(FailAll(s, batch[..m - 1], now), batch[m - 1], Failed, None, now, None)
    ensures batch[m - 1..] == [batch[m - 1]] + batch[m..]
  {
    assert batch[..m][..m - 1] == batch[..m - 1];
  }

  lemma {:induction false} FailAllKeepsSound(c: Config, s: State, batch: seq<nat>, k: nat, m: nat, now: int)
    requires k <= m <= |batch| && InRange(s.entries, batch) && Failed in s.tally.status
    requires Sound(c, s, batch[k..])
    requires forall i | 0 <= i < k :: PhaseOf(s.entries[batch[i]]).Done?
    ensures Sound(c, FailAll(s, batch[..m], now), batch[m..])
    decreases m
  {
    if m == k {
      FailResolved(s, batch[..m], now);
    } else {
      hide Sound, FailAll, Finish;
      var id := batch[m - 1];
      var r := FailAll(s, batch[..m - 1], now);
      FailAllStep(s, batch, m, now);
      FailAllKeepsSound(c, s, batch, k, m - 1, now);
      HeadIsInFlight(c, r, id, batch[m..]);
      FinishSettles(r, id, Failed, None, now);
      hide Settles;
      SettleKeepsSound(c, r, Finish(r, id, Failed, None, now, None), id, Failed, batch[m..]);
    }
  }

  lemma HeadIsInFlight(c: Config, s: State, id: nat, flight: seq<nat>)
    requires Sound(c, s, [id] + flight)
    ensures id < |s.entries| && PhaseOf(s.entries[id]).InFlight? && EntryOk(s.entries[id])
    ensures forall x: Status :: x in s.tally.status
  {
    assert TallyOk(s) && FlightOk(s.entries, [id] + flight);
    assert ([id] + flight)[0] == id;
  }

  lemma {:induction false} FailResolved(s: State, batch: seq<nat>, now: int)
    requires InRange(s.entries, batch) && Failed in s.tally.status
    requires forall i | 0 <= i < |batch| :: PhaseOf(s.entries[batch[i]]).Done?
    ensures FailAll(s, batch, now) == s
  {
    if batch != [] {
      FailResolved(s, batch[..|batch| - 1], now);
    }
  }

  lemma DeliverSettles(c: Config, s: State, id: nat, action: ActionChunk, now: int)
    requires id < |s.entries| && PhaseOf(s.entries[id]).InFlight? && EntryOk(s.entries[id])
    requires forall x: Status :: x in s.tally.status
    ensures var status := if now > s.entries[id].request.deadlineNs then DeadlineMissed else Completed;
            Settles(s, Deliver(c, s, id, action, now), id, status)
  {
    if now > s.entries[id].request.deadlineNs {
      FinishSettles(s, id, DeadlineMissed, if c.dropMissedActions then None else Some(action), now);
    } else {
      FinishSettles(s, id, Completed, Some(action), now);
    }
  }

  lemma {:induction false} DeliverFromKeepsSound(c: Config, s: State, batch: seq<nat>, actions: seq<ActionChunk>,
                                                 k: nat, clock: Clock)
    requires |actions| == |batch| && k <= |batch| && InRange(s.entries, batch)
    requires forall x: Status :: x in s.tally.status
    requires Sound(c, s, batch[k..])
    requires forall i | 0 <= i < k :: PhaseOf(s.entries[batch[i]]).Done?
    ensures Sound(c, DeliverFrom(c, s, batch, actions, k, clock), [])
    ensures OnlyOutcomes(s, DeliverFrom(c, s, batch, actions, k, clock))
    decreases |batch| - k
  {
    if k == |batch| {
      assert batch[k..] == [];
    } else if !Identifies(actions[k], s.entries[batch[k]].request) {
      assert batch[..|batch|] == batch && batch[|batch|..] == [];
      FailAllKeepsSound(c, s, batch, k, |batch|, clock(k));
      FailAllShape(s, batch, clock(k));
    } else {
      var id := batch[k];
      var r := Deliver(c, s, id, actions[k], clock(k));
      assert batch[k..] == [id] + batch[k + 1..];
      assert DeliverFrom(c, s, batch, actions, k, clock) == DeliverFrom(c, r, batch, actions, k + 1, clock);
      hide Sound, Deliver;
      HeadIsInFlight(c, s, id, batch[k + 1..]);
      DeliverSettles(c, s, id, actions[k], clock(k));
      var status := if clock(k) > s.entries[id].request.deadlineNs then DeadlineMissed else Completed;
      SettleKeepsSound(c, s, r, id, status, batch[k + 1..]);
      SettledPrefix(s, r, id, status, batch, k);
      hide Settles;
      DeliverFromKeepsSound(c, r, batch, actions, k + 1, clock);
      OnlyOutcomesTwice(s, r, DeliverFrom(c, r, batch, actions, k + 1, clock));
    }
  }

  lemma SettledPrefix(s: State, r: State, id: nat, status: Status, batch: seq<nat>, k: nat)
    requires Settles(s, r, id, status) && k < |batch| && batch[k] == id && InRange(s.entries, batch)
    requires forall x: Status :: x in s.tally.status
    requires forall i | 0 <= i < k :: PhaseOf(s.entries[batch[i]]).Done?
    ensures InRange(r.entries, batch) && forall x: Status :: x in r.tally.status
    ensures forall i | 0 <= i < k + 1 :: PhaseOf(r.entries[batch[i]]).Done?
    ensures OnlyOutcomes(s, r)
  {
  }

  lemma OnlyOutcomesTwice(s: State, r: State, t: State)
    requires OnlyOutcomes(s, r) && OnlyOutcomes(r, t)
    ensures OnlyOutcomes(s, t)
  {
  }

  lemma ReplyKeepsSound(c: Config, s: State, reply: Reply, clock: Clock)
    requires WellFormed(s) && s.worker.Executing? && Sound(c, s, s.worker.batch)
    ensures var r := Receive(c, s, reply, clock).(worker := s.worker);
            Sound(c, r, []) && OnlyOutcomes(s, r)
  {
    var batch := s.worker.batch;
    assert batch[0..] == batch && batch[..|batch|] == batch && batch[|batch|..] == [];
    hide Sound, FailAll, DeliverFrom, OnlyOutcomes;
    if reply.Raised? || |reply.actions| != |batch| {
      FailAllKeepsSound(c, s, batch, 0, |batch|, clock(0));
      FailAllShape(s, batch, clock(0));
      OnlyOutcomesIsShape(s, FailAll(s, batch, clock(0)));
    } else {
      DeliverFromKeepsSound(c, s, batch, reply.actions, 0, clock);
      OnlyOutcomesIsShape(s, DeliverFrom(c, s, batch, reply.actions, 0, clock));
    }
  }

  lemma OnlyOutcomesIsShape(s: State, r: State)
    requires OnlyOutcomes(s, r)
    ensures r == s.(entries := r.entries, tally := r.tally)
  {
  }

  lemma ReceiveKeepsInv(c: Config, s: State, reply: Reply, clock: Clock)
    requires WellFormed(s) && Inv(c, s)
    ensures Inv(c, Receive(c, s, reply, clock))
  {
    if s.worker.Executing? {
      ReplyKeepsSound(c, s, reply, clock);
      var r := Receive(c, s, reply, clock);
      assert r.worker == Waiting(None);
      var r0 := r.(worker := s.worker);
      hide Sound, Receive;
      SameCoreKeepsSound(c, r0, r, []);
      SamePending(s.entries, r.entries);
    }
  }

  // ---------------------------------------------------------------- close and start

  /** The exact effect of cancelling: the listed pending envelopes are cancelled, no other changes. */
  lemma {:induction false} CancelAllEffect(s: State, ids: seq<nat>, now: int, id: nat)
    requires InRange(s.entries, ids) && Cancelled in s.tally.status && id < |s.entries| && AllOk(s.entries)
    ensures CancelAll(s, ids, now).entries[id]
         == if id in ids && s.entries[id].active
            then Entry(s.entries[id].request, false, None, Some(Outcome(Cancelled, None, None, now, None)))
            else s.entries[id]
  {
    if ids != [] {
      var (front, last) := (ids[..|ids| - 1], ids[|ids| - 1]);
      assert ids == front + [last];
      CancelAllEffect(s, front, now, id);
      CancelAllEffect(s, front, now, last);
      assert EntryOk(s.entries[last]) && EntryOk(s.entries[id]);
    }
  }

  lemma CancelConcludes(s: State, id: nat, now: int)
    requires id < |s.entries| && s.entries[id].active && EntryOk(s.entries[id]) && Cancelled in s.tally.status
    ensures var r := Finish(Deactivate(s, id), id, Cancelled, None, now, None);
            && Concludes(s, r, id, Cancelled)
            && r == s.(entries := r.entries, tally := s.tally.(status := r.tally.status))
  {
  }

  lemma {:induction false} CancelAllKeepsSound(c: Config, s: State, flight: seq<nat>, ids: seq<nat>, now: int)
    requires SoundButIndex(c, s, flight) && InRange(s.entries, ids)
    ensures Cancelled in s.tally.status
    ensures var r := CancelAll(s, ids, now);
            && SoundButIndex(c, r, flight)
            && r == s.(entries := r.entries, tally := s.tally.(status := r.tally.status))
  {
    assert TallyOk(s);
    if ids != [] {
      var (front, id) := (ids[..|ids| - 1], ids[|ids| - 1]);
      var r := CancelAll(s, front, now);
      hide SoundButIndex;
      CancelAllKeepsSound(c, s, flight, front, now);
      if r.entries[id].active {
        SoundButIndexEntry(c, r, flight, id);
        hide Finish, Deactivate, Concludes;
        CancelConcludes(r, id, now);
        ConcludeKeepsSound(c, r, Finish(Deactivate(r, id), id, Cancelled, None, now, None), id, Cancelled, flight);
      }
    }
  }

  lemma SoundButIndexEntry(c: Config, s: State, flight: seq<nat>, id: nat)
    requires SoundButIndex(c, s, flight) && id < |s.entries|
    ensures EntryOk(s.entries[id]) && forall x: Status :: x in s.tally.status
  {
    assert AllOk(s.entries) && TallyOk(s);
  }

  lemma EmptiedIsSound(c: Config, s: State, flight: seq<nat>)
    requires SoundButIndex(c, s, flight) && forall id: nat | id < |s.entries| :: !s.entries[id].active
    ensures Sound(c, s.(heap := [], pending := map[]), flight)
  {
    var r := s.(heap := [], pending := map[]);
    assert HeapOk(c, r) && IndexOk(c, r) && TallyOk(r) && LogOk(r);
    if Orderly(c) {
      assert FreshOk(s);
      assert forall i | 0 <= i < |r.log| :: NotAhead(s, s.log[i]) ==> NotAhead(r, r.log[i]);
    }
  }

  lemma NonePending(es: seq<Entry>)
    requires forall id: nat | id < |es| :: !es[id].active
    ensures Count(es, Pending) == 0
  {
    MembersInPhase(es, Pending, {});
  }

  lemma CloseKeepsInv(c: Config, s: State, cancelPending: bool, now: int)
    requires WellFormed(s) && Inv(c, s)
    ensures Inv(c, Close(s, cancelPending, now))
  {
    var s1 := s.(accepting := false);
    SameCoreKeepsSound(c, s, s1, FlightOf(s));
    if !s.worker.Returned? && cancelPending {
      SoundHasParts(c, s1, FlightOf(s));
      var r := CancelAll(s1, s1.heap, now);
      forall id: nat | id < |s1.entries| ensures !r.entries[id].active {
        CancelAllEffect(s1, s1.heap, now, id);
      }
      hide SoundButIndex, Sound, CancelAll;
      CancelAllKeepsSound(c, s1, FlightOf(s), s1.heap, now);
      EmptiedIsSound(c, r, FlightOf(s));
      NonePending(r.entries);
    }
  }

  lemma StartKeepsInv(c: Config, s: State)
    requires Inv(c, s)
    ensures Inv(c, Start(s))
  {
    SameCoreKeepsSound(c, s, Start(s), FlightOf(s));
  }

  // ---------------------------------------------------------------- runs

  lemma {:induction false} StepKeepsInv(c: Config, be: Backend, s: State, e: Event)
    requires WellFormed(s) && Inv(c, s)
    ensures Inv(c, Step(c, be, s, e))
  {
    hide Inv;
    match e
    case Enqueued(r, clock) => EnqueueKeepsInv(c, s, r, clock);
    case Woken(est, clock) => WakeKeepsInv(c, be, s, est, clock);
    case Replied(reply, clock) => ReceiveKeepsInv(c, s, reply, clock);
    case Closed(cancel, now) => CloseKeepsInv(c, s, cancel, now);
    case Started => StartKeepsInv(c, s);
  }

  lemma InitIsInv(c: Config)
    ensures Inv(c, INIT)
  {
    forall x: Status ensures x in ZEROES && ZEROES[x] == 0 {
      match x {
        case Completed => case DeadlineMissed => case Expired => case Unserviceable => case Replaced =>
        case OutOfOrder => case Overloaded => case Failed => case Cancelled =>
      }
    }
    assert TallyOk(INIT);
  }

  /** Every reachable state satisfies the invariant. */
  lemma {:induction false} RunIsSound(c: Config, be: Backend, events: seq<Event>)
    ensures Inv(c, Run(c, be, events))
  {
    if events == [] {
      InitIsInv(c);
    } else {
      hide Inv, WellFormed, Step;
      RunIsSound(c, be, events[..|events| - 1]);
      StepKeepsInv(c, be, Run(c, be, events[..|events| - 1]), events[|events| - 1]);
    }
  }
}
