/** Runs in which several requests of different sessions gather in the queue: the witnesses of what can happen. */
module SchedulerGathering {
  import opened Types
  import opened SchedulerState
  import opened SchedulerSafety
  import opened SchedulerScan
  import opened SchedulerFreshness

  function PendingEntry(r: Request): Entry {
    Entry(r, true, None, None)
  }

  function PendingAll(rs: seq<Request>): (es: seq<Entry>)
    ensures |es| == |rs| && forall i | 0 <= i < |rs| :: es[i] == PendingEntry(rs[i])
  {
    seq(|rs|, i requires 0 <= i < |rs| => PendingEntry(rs[i]))
  }

  function FirstIds(n: nat): (ids: seq<nat>)
    ensures |ids| == n && forall i | 0 <= i < n :: ids[i] == i
  {
    seq(n, i => i)
  }

  /** The requests are of different sessions, in queue order, and not past their deadlines at `now`. */
  ghost predicate InLine(c: Config, rs: seq<Request>, now: int) {
    && (forall i, j | 0 <= i < j < |rs| :: SessionOf(rs[i]) != SessionOf(rs[j]))
    && (forall i, j | 0 <= i < j < |rs| :: Before(SortKey(c, rs[i], i), SortKey(c, rs[j], j)))
    && (forall i | 0 <= i < |rs| :: rs[i].deadlineNs > now)
  }

  ghost predicate Stranger(rs: seq<Request>, key: SessionKey) {
    forall i | 0 <= i < |rs| :: SessionOf(rs[i]) != key
  }

  /** The requests, and nothing else, wait in the queue of an idle scheduler. */
  ghost predicate Gathered(s: State, rs: seq<Request>) {
    && s.entries == PendingAll(rs) && s.heap == FirstIds(|rs|) && s.accepting && s.worker == Waiting(None)
    && s.log == []
    && (forall key | Stranger(rs, key) :: key !in s.pending && key !in s.latest)
  }

  lemma {:induction false} AllActiveStay(es: seq<Entry>, ids: seq<nat>)
    requires AllActive(es, ids)
    ensures Active(es, ids) == ids
  {
    if ids != [] {
      AllActiveStay(es, ids[..|ids| - 1]);
      assert ids == ids[..|ids| - 1] + [ids[|ids| - 1]];
    }
  }

  lemma {:induction false} SweepFindsNothing(s: State, ids: seq<nat>, cutoff: int, status: Status, now: int)
    requires InRange(s.entries, ids) && status in s.tally.status
    requires forall i | 0 <= i < |ids| :: s.entries[ids[i]].request.deadlineNs >= cutoff
    ensures Sweep(s, ids, cutoff, status, now) == s
  {
    if ids != [] {
      hide Retire;
      SweepFindsNothing(s, ids[..|ids| - 1], cutoff, status, now);
    }
  }

  lemma GatheredIsActive(s: State, rs: seq<Request>)
    requires Gathered(s, rs)
    ensures AllActive(s.entries, s.heap) && Compact(s) == s
  {
    AllActiveStay(s.entries, s.heap);
  }

  lemma LateEnough(s: State, rs: seq<Request>, cutoff: int)
    requires Gathered(s, rs) && forall i | 0 <= i < |rs| :: rs[i].deadlineNs >= cutoff
    ensures InRange(s.entries, s.heap)
    ensures forall i | 0 <= i < |s.heap| :: s.entries[s.heap[i]].request.deadlineNs >= cutoff
  {
  }

  /** A pass over the gathered queue that is too early for every deadline changes nothing. */
  lemma PassFindsNothing(s: State, rs: seq<Request>, cutoff: int, status: Status, now: int)
    requires Gathered(s, rs) && status in s.tally.status && forall i | 0 <= i < |rs| :: rs[i].deadlineNs >= cutoff
    ensures InRange(s.entries, s.heap) && Compact(s) == s
    ensures Compact(Sweep(s, s.heap, cutoff, status, now)) == s
  {
    hide Gathered, Compact, Sweep;
    LateEnough(s, rs, cutoff);
    GatheredIsActive(s, rs);
    SweepFindsNothing(s, s.heap, cutoff, status, now);
  }

  /** Nothing expires before its deadline, and nothing is dropped that the prediction lets finish. */
  lemma GatheredCleanUp(c: Config, s: State, rs: seq<Request>, est: Predictor, now: int)
    requires WellFormed(s) && Gathered(s, rs) && forall i | 0 <= i < |rs| :: rs[i].deadlineNs > now
    requires c.dropUnserviceable && est(1).Some? ==>
               forall i | 0 <= i < |rs| :: rs[i].deadlineNs >= now + est(1).value + c.guardNs
    ensures CleanUp(c, s, est, (n: nat) => now) == s
  {
    hide Gathered, Compact, Sweep, WellFormed;
    WellFormedParts(s);
    PassFindsNothing(s, rs, now + 1, Expired, now);
    if c.dropUnserviceable && est(1).Some? {
      PassFindsNothing(s, rs, now + est(1).value + c.guardNs, Unserviceable, now);
    }
  }

  lemma WellFormedParts(s: State)
    requires WellFormed(s)
    ensures InRange(s.entries, s.heap) && (forall x: Status :: x in s.tally.status)
    ensures forall k | k in s.pending :: s.pending[k] < |s.entries|
  {
  }

  lemma LineIsSorted(c: Config, rs: seq<Request>, now: int)
    requires InLine(c, rs, now)
    ensures Sorted(c, PendingAll(rs), FirstIds(|rs|))
  {
    hide Before, SortKey;
  }

  lemma LastIsAStranger(c: Config, rs: seq<Request>, r: Request, now: int)
    requires InLine(c, rs + [r], now)
    ensures Stranger(rs, SessionOf(r)) && (forall i | 0 <= i < |rs| :: rs[i].deadlineNs > now)
  {
    hide Before, SortKey;
    var all := rs + [r];
    assert forall i | 0 <= i < |rs| :: all[i] == rs[i] && SessionOf(all[i]) != SessionOf(all[|rs|]);
  }

  lemma NothingToReplace(c: Config, s: State, rs: seq<Request>, r: Request)
    requires Gathered(s, rs) && Stranger(rs, SessionOf(r)) && forall k | k in s.pending :: s.pending[k] < |s.entries|
    ensures !Stale(c, s, r) && Previous(c, s, SessionOf(r)).None? && |s.heap| == |rs| && s.accepting
  {
  }

  lemma CountedIsGathered(s: State, rs: seq<Request>)
    requires WellFormed(s) && Gathered(s, rs)
    ensures WellFormed(CountSubmit(s)) && Gathered(CountSubmit(s), rs)
  {
  }

  lemma QuietAccept(c: Config, s: State, r: Request, now: int)
    requires WellFormed(s) && Previous(c, s, SessionOf(r)).None? && InRange(s.entries, s.heap) && Compact(s) == s
    requires Expired in s.tally.status && Compact(Sweep(s, s.heap, now + 1, Expired, now)) == s
    requires c.maxPending.Some? ==> |s.heap| < c.maxPending.value
    ensures Accept(c, s, r, (n: nat) => now) == Admit(c, s, r)
  {
    hide Sweep, Compact, Admit, Previous, WellFormed;
  }

  lemma FreshEnqueue(c: Config, s: State, r: Request, clock: Clock)
    requires WellFormed(s) && s.accepting && !Stale(c, s, r)
    ensures WellFormed(CountSubmit(s)) && Enqueue(c, s, r, clock) == Accept(c, CountSubmit(s), r, clock)
  {
    hide Accept;
  }

  /** One more request of a new session joins at the end of the line. */
  lemma GatherOne(c: Config, s: State, rs: seq<Request>, r: Request, now: int)
    requires WellFormed(s) && Gathered(s, rs) && InLine(c, rs + [r], now)
    requires c.maxPending.Some? ==> |rs| < c.maxPending.value
    ensures Gathered(Enqueue(c, s, r, (n: nat) => now), rs + [r])
  {
    var s0 := CountSubmit(s);
    WellFormedParts(s);
    hide Sweep, Compact, Admit, Accept, Enqueue, InLine, WellFormed, Gathered, Stranger, Previous, Stale, Sorted;
    LastIsAStranger(c, rs, r, now);
    CountedIsGathered(s, rs);
    PassFindsNothing(s0, rs, now + 1, Expired, now);
    NothingToReplace(c, s, rs, r);
    NothingToReplace(c, s0, rs, r);
    LineIsSorted(c, rs + [r], now);
    JoinsAtTheEnd(c, s0, rs, r);
    FreshEnqueue(c, s, r, (n: nat) => now);
    QuietAccept(c, s0, r, now);
  }

  lemma JoinsAtTheEnd(c: Config, s: State, rs: seq<Request>, r: Request)
    requires Gathered(s, rs) && Sorted(c, PendingAll(rs + [r]), FirstIds(|rs| + 1)) && InRange(s.entries, s.heap)
    ensures Gathered(Admit(c, s, r), rs + [r])
  {
    var (es, n) := (PendingAll(rs + [r]), |rs|);
    assert es == s.entries + [PendingEntry(r)];
    assert FirstIds(n + 1) == s.heap + [n];
    PushLast(c, es, s.heap, n);
    hide HeapPush, Sorted;
    var t := Admit(c, s, r);
    forall key | Stranger(rs + [r], key) ensures key !in t.pending && key !in t.latest {
      assert SessionOf((rs + [r])[n]) != key;
      assert forall i | 0 <= i < n :: SessionOf(rs[i]) == SessionOf((rs + [r])[i]);
      assert Stranger(rs, key);
    }
  }

  function Arrivals(rs: seq<Request>, now: int): seq<Event> {
    if rs == [] then [] else Arrivals(rs[..|rs| - 1], now) + [Enqueued(rs[|rs| - 1], (n: nat) => now)]
  }

  lemma {:induction false} ArrivalsAreEnqueued(rs: seq<Request>, now: int)
    ensures forall k | 0 <= k < |Arrivals(rs, now)| :: Arrivals(rs, now)[k].Enqueued?
  {
    if rs != [] {
      ArrivalsAreEnqueued(rs[..|rs| - 1], now);
    }
  }

  lemma LineFront(c: Config, rs: seq<Request>, now: int)
    requires InLine(c, rs, now) && rs != []
    ensures InLine(c, rs[..|rs| - 1], now) && rs == rs[..|rs| - 1] + [rs[|rs| - 1]]
  {
    hide Before, SortKey;
  }

  /** Every line that the capacity admits can gather. */
  lemma {:induction false} LineGathers(c: Config, be: Backend, rs: seq<Request>, now: int)
    requires InLine(c, rs, now) && (c.maxPending.Some? ==> |rs| <= c.maxPending.value)
    ensures Gathered(Run(c, be, Arrivals(rs, now)), rs)
  {
    if rs == [] {
      assert Run(c, be, []) == INIT;
    } else {
      hide InLine, Gathered, Run, WellFormed;
      var (front, last) := (rs[..|rs| - 1], rs[|rs| - 1]);
      LineFront(c, rs, now);
      LineGathers(c, be, front, now);
      RunStep(c, be, Arrivals(front, now), Enqueued(last, (n: nat) => now));
      GatherOne(c, Run(c, be, Arrivals(front, now)), front, last, now);
    }
  }
}
