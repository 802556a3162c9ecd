/** What every change of an envelope keeps, and so what holds after every locked section. */
module SchedulerInvariants {
  import opened Types
  import opened SchedulerState

  // ---------------------------------------------------------------- counting envelopes

  /** Where an envelope is in its life. */
  datatype Phase = Pending | InFlight | Done(status: Status)

  function PhaseOf(e: Entry): Phase {
    if e.active then Pending else if e.outcome.None? then InFlight else Done(e.outcome.value.status)
  }

  function Count(es: seq<Entry>, p: Phase): nat {
    if es == [] then 0 else Count(es[..|es| - 1], p) + if PhaseOf(es[|es| - 1]) == p then 1 else 0
  }

  lemma {:induction false} CountUpdate(es: seq<Entry>, id: nat, e: Entry, p: Phase)
    requires id < |es|
    ensures Count(es[id := e], p) + (if PhaseOf(es[id]) == p then 1 else 0)
         == Count(es, p) + (if PhaseOf(e) == p then 1 else 0)
  {
    var n := |es| - 1;
    if id < n {
      CountUpdate(es[..n], id, e, p);
      assert es[id := e][..n] == es[..n][id := e];
    } else {
      assert es[id := e][..n] == es[..n];
    }
  }

  lemma CountAppend(es: seq<Entry>, e: Entry, p: Phase)
    ensures Count(es + [e], p) == Count(es, p) + if PhaseOf(e) == p then 1 else 0
  {
    assert (es + [e])[..|es|] == es;
  }

  /** Every envelope is in exactly one phase. */
  lemma {:induction false} PhasesPartition(es: seq<Entry>)
    ensures |es| == Count(es, Pending) + Count(es, InFlight)
                    + Count(es, Done(Completed)) + Count(es, Done(DeadlineMissed)) + Count(es, Done(Expired))
                    + Count(es, Done(Unserviceable)) + Count(es, Done(Replaced)) + Count(es, Done(OutOfOrder))
                    + Count(es, Done(Overloaded)) + Count(es, Done(Failed)) + Count(es, Done(Cancelled))
  {
    if es != [] {
      PhasesPartition(es[..|es| - 1]);
      match PhaseOf(es[|es| - 1]) {
        case Pending =>
        case InFlight =>
        case Done(x) =>
          match x {
            case Completed => case DeadlineMissed => case Expired => case Unserviceable => case Replaced =>
            case OutOfOrder => case Overloaded => case Failed => case Cancelled =>
          }
      }
    }
  }

  ghost predicate Distinct(ids: seq<nat>) {
    forall i, j | 0 <= i < j < |ids| :: ids[i] != ids[j]
  }

  lemma {:induction false} MembersInPhase(es: seq<Entry>, p: Phase, members: set<nat>)
    requires forall id: nat :: id in members <==> id < |es| && PhaseOf(es[id]) == p
    ensures |members| == Count(es, p)
  {
    if es == [] {
      assert members == {};
    } else {
      var n := |es| - 1;
      var rest := members - {n};
      forall id: nat ensures id in rest <==> id < |es[..n]| && PhaseOf(es[..n][id]) == p {
        assert id in members <==> id < |es| && PhaseOf(es[id]) == p;
      }
      MembersInPhase(es[..n], p, rest);
      assert members == if n in members then rest + {n} else rest;
    }
  }

  function Members(ids: seq<nat>): set<nat> {
    set id | id in ids
  }

  lemma {:induction false} DistinctSize(ids: seq<nat>)
    requires Distinct(ids)
    ensures |Members(ids)| == |ids|
  {
    if ids != [] {
      var (front, last) := (ids[..|ids| - 1], ids[|ids| - 1]);
      DistinctSize(front);
      assert ids == front + [last];
      assert Members(ids) == Members(front) + {last};
    }
  }

  /** A list without repetition of exactly the envelopes in one phase has that many members. */
  lemma ListedCount(es: seq<Entry>, p: Phase, ids: seq<nat>)
    requires Distinct(ids)
    requires forall id: nat :: id in ids <==> id < |es| && PhaseOf(es[id]) == p
    ensures |ids| == Count(es, p)
  {
    DistinctSize(ids);
    MembersInPhase(es, p, Members(ids));
  }

  // ---------------------------------------------------------------- the invariants

  predicate FromBackend(x: Status) {
    x.Completed? || x.DeadlineMissed? || x.Failed?
  }

  ghost predicate EntryOk(e: Entry) {
    && (e.active ==> e.outcome.None? && e.dispatchedNs.None?)
    && (!e.active && e.outcome.None? ==> e.dispatchedNs.Some?)
    && (e.outcome.Some? ==> (e.dispatchedNs.Some? <==> FromBackend(e.outcome.value.status)))
    && (e.outcome.Some? ==> e.outcome.value.dispatchedNs == e.dispatchedNs)
  }

  ghost predicate AllOk(es: seq<Entry>) {
    forall id: nat | id < |es| :: EntryOk(es[id])
  }

  /** The heap is sorted and holds every pending envelope. */
  ghost predicate HeapOk(c: Config, s: State) {
    Sorted(c, s.entries, s.heap) && forall id: nat | id < |s.entries| && s.entries[id].active :: id in s.heap
  }

  /** `flight` lists the envelopes that were dispatched and are not resolved yet. */
  ghost predicate FlightOk(es: seq<Entry>, flight: seq<nat>) {
    && Distinct(flight)
    && InRange(es, flight)
    && forall id: nat | id < |es| :: PhaseOf(es[id]).InFlight? <==> id in flight
  }

  /** The counters tell the truth. */
  ghost predicate TallyOk(s: State) {
    forall x: Status :: x in s.tally.status && s.tally.status[x] == Count(s.entries, Done(x))
  }

  ghost predicate LogOk(s: State) {
    && Distinct(s.log)
    && InRange(s.entries, s.log)
    && (forall id: nat | id < |s.entries| :: s.entries[id].dispatchedNs.Some? <==> id in s.log)
    && |s.log| == Count(s.entries, InFlight) + Count(s.entries, Done(Completed))
                  + Count(s.entries, Done(DeadlineMissed)) + Count(s.entries, Done(Failed))
  }

  /** With coalescing the session pointers and the pending envelopes are in one-to-one correspondence. */
  ghost predicate IndexOk(c: Config, s: State) {
    if c.coalesceSessions then
      && (forall k | k in s.pending ::
            s.pending[k] < |s.entries| && s.entries[s.pending[k]].active
            && SessionOf(s.entries[s.pending[k]].request) == k)
      && (forall id: nat | id < |s.entries| && s.entries[id].active ::
            SessionOf(s.entries[id].request) in s.pending && s.pending[SessionOf(s.entries[id].request)] == id)
    else s.pending == map[]
  }

  ghost predicate SameSession(es: seq<Entry>, a: nat, b: nat)
    requires a < |es| && b < |es|
  {
    es[a].request.model == es[b].request.model && es[a].request.sessionId == es[b].request.sessionId
  }

  function SequenceOf(es: seq<Entry>, id: nat): int
    requires id < |es|
  {
    es[id].request.sequenceNo
  }

  ghost predicate Rising(es: seq<Entry>, log: seq<nat>)
    requires InRange(es, log)
  {
    forall i, j | 0 <= i < j < |log| && SameSession(es, log[i], log[j]) ::
      SequenceOf(es, log[i]) < SequenceOf(es, log[j])
  }

  ghost predicate NotAhead(s: State, id: nat)
    requires id < |s.entries|
  {
    var key := SessionOf(s.entries[id].request);
    key in s.latest && SequenceOf(s.entries, id) <= s.latest[key]
  }

  ghost predicate IsLatest(s: State, id: nat)
    requires id < |s.entries|
  {
    var key := SessionOf(s.entries[id].request);
    key in s.latest && SequenceOf(s.entries, id) == s.latest[key]
  }

  ghost predicate NewerThanLog(s: State, id: nat)
    requires id < |s.entries| && InRange(s.entries, s.log)
  {
    forall i | 0 <= i < |s.log| && SameSession(s.entries, s.log[i], id) ::
      SequenceOf(s.entries, s.log[i]) < SequenceOf(s.entries, id)
  }

  ghost predicate OnePerSession(es: seq<Entry>) {
    forall a: nat, b: nat | a < |es| && b < |es| && es[a].active && es[b].active && SameSession(es, a, b) :: a == b
  }

  /** Pending requests are the latest admitted of their sessions and newer than all that was dispatched. */
  ghost predicate FreshOk(s: State) {
    && InRange(s.entries, s.log)
    && Rising(s.entries, s.log)
    && (forall i | 0 <= i < |s.log| :: NotAhead(s, s.log[i]))
    && (forall id: nat | id < |s.entries| && s.entries[id].active :: IsLatest(s, id) && NewerThanLog(s, id))
    && OnePerSession(s.entries)
  }

  /** The configurations under which a session's requests reach the backend in sequence order. */
  predicate Orderly(c: Config) {
    c.enforceMonotonicSequence && (c.coalesceSessions || c.maxPending == Some(1))
  }

  ghost predicate NonePendingOf(s: State, key: SessionKey) {
    forall id: nat | id < |s.entries| && s.entries[id].active :: SessionOf(s.entries[id].request) != key
  }

  ghost predicate Sound(c: Config, s: State, flight: seq<nat>) {
    && AllOk(s.entries)
    && HeapOk(c, s)
    && FlightOk(s.entries, flight)
    && TallyOk(s)
    && LogOk(s)
    && IndexOk(c, s)
    && (Orderly(c) ==> FreshOk(s))
  }

  // ---------------------------------------------------------------- concluding a pending envelope

  /** `r` is `s` after the pending envelope `id` got its final status without having been dispatched;
      what happened to the session pointers is left open. */
  ghost predicate Concludes(s: State, r: State, id: nat, status: Status) {
    && id < |s.entries| && s.entries[id].active
    && |r.entries| == |s.entries| && r.entries == s.entries[id := r.entries[id]]
    && r.entries[id].request == s.entries[id].request
    && EntryOk(r.entries[id]) && PhaseOf(r.entries[id]) == Done(status) && r.entries[id].dispatchedNs.None?
    && r.heap == s.heap && r.log == s.log && r.latest == s.latest
    && status in s.tally.status && r.tally == CountOutcome(s.tally, status)
  }

  lemma RetireConcludes(s: State, id: nat, status: Status, now: int)
    requires id < |s.entries| && status in s.tally.status && !FromBackend(status)
    requires s.entries[id].active && EntryOk(s.entries[id])
    ensures Concludes(s, Retire(s, id, status, now), id, status)
    ensures Retire(s, id, status, now).pending == ClearPointer(s, id).pending
    ensures Retire(s, id, status, now).entries[id].outcome == Some(Outcome(status, None, None, now, None))
  {
  }

  lemma ConcludeKeepsEntries(s: State, r: State, id: nat, status: Status, flight: seq<nat>)
    requires Concludes(s, r, id, status) && AllOk(s.entries) && FlightOk(s.entries, flight)
    ensures AllOk(r.entries) && FlightOk(r.entries, flight)
  {
  }

  lemma ConcludeKeepsHeap(c: Config, s: State, r: State, id: nat, status: Status)
    requires Concludes(s, r, id, status) && HeapOk(c, s)
    ensures HeapOk(c, r)
  {
  }

  lemma ConcludeKeepsTally(s: State, r: State, id: nat, status: Status)
    requires Concludes(s, r, id, status) && TallyOk(s)
    ensures TallyOk(r)
  {
    forall x: Status ensures x in r.tally.status && r.tally.status[x] == Count(r.entries, Done(x)) {
      CountUpdate(s.entries, id, r.entries[id], Done(x));
    }
  }

  lemma ConcludeKeepsLog(s: State, r: State, id: nat, status: Status)
    requires Concludes(s, r, id, status) && AllOk(s.entries) && LogOk(s)
    ensures LogOk(r)
  {
    CountUpdate(s.entries, id, r.entries[id], InFlight);
    CountUpdate(s.entries, id, r.entries[id], Done(Completed));
    CountUpdate(s.entries, id, r.entries[id], Done(DeadlineMissed));
    CountUpdate(s.entries, id, r.entries[id], Done(Failed));
  }

  lemma ConcludeKeepsFresh(s: State, r: State, id: nat, status: Status)
    requires Concludes(s, r, id, status) && FreshOk(s)
    ensures FreshOk(r)
  {
    forall i: nat | i < |s.entries|
      ensures r.entries[i].request == s.entries[i].request && (r.entries[i].active ==> s.entries[i].active)
    {
    }
  }

  lemma ConcludeKeepsIndex(c: Config, s: State, r: State, id: nat, status: Status)
    requires Concludes(s, r, id, status) && IndexOk(c, s) && r.pending == ClearPointer(s, id).pending
    ensures IndexOk(c, r)
  {
  }

  /** All of `Sound` but the session pointers. */
  ghost predicate SoundButIndex(c: Config, s: State, flight: seq<nat>) {
    && AllOk(s.entries)
    && HeapOk(c, s)
    && FlightOk(s.entries, flight)
    && TallyOk(s)
    && LogOk(s)
    && (Orderly(c) ==> FreshOk(s))
  }

  lemma ConcludeKeepsSound(c: Config, s: State, r: State, id: nat, status: Status, flight: seq<nat>)
    requires Concludes(s, r, id, status) && SoundButIndex(c, s, flight)
    ensures SoundButIndex(c, r, flight)
  {
    hide Concludes, AllOk, HeapOk, FlightOk, TallyOk, LogOk, FreshOk;
    ConcludeKeepsEntries(s, r, id, status, flight);
    ConcludeKeepsHeap(c, s, r, id, status);
    ConcludeKeepsTally(s, r, id, status);
    ConcludeKeepsLog(s, r, id, status);
    if Orderly(c) {
      ConcludeKeepsFresh(s, r, id, status);
    }
  }

  lemma RetireKeepsSound(c: Config, s: State, flight: seq<nat>, id: nat, status: Status, now: int)
    requires Sound(c, s, flight) && id < |s.entries| && s.entries[id].active && !FromBackend(status)
    ensures status in s.tally.status && Sound(c, Retire(s, id, status, now), flight)
  {
    hide Retire, Concludes, HeapOk, FlightOk, LogOk, FreshOk, IndexOk, ClearPointer;
    RetireConcludes(s, id, status, now);
    ConcludeKeepsSound(c, s, Retire(s, id, status, now), id, status, flight);
    ConcludeKeepsIndex(c, s, Retire(s, id, status, now), id, status);
  }

  lemma {:induction false} SweepKeepsSound(c: Config, s: State, flight: seq<nat>, ids: seq<nat>, cutoff: int,
                                           status: Status, now: int)
    requires Sound(c, s, flight) && InRange(s.entries, ids) && !FromBackend(status)
    ensures status in s.tally.status && Sound(c, Sweep(s, ids, cutoff, status, now), flight)
  {
    SoundCounts(c, s, flight, status);
    if ids != [] {
      hide Sound, Retire, Sweep;
      var (front, last) := (ids[..|ids| - 1], ids[|ids| - 1]);
      SweepKeepsSound(c, s, flight, front, cutoff, status, now);
      SweepLast(s, ids, cutoff, status, now);
      var r := Sweep(s, front, cutoff, status, now);
      if r.entries[last].active && r.entries[last].request.deadlineNs < cutoff {
        RetireKeepsSound(c, r, flight, last, status, now);
      }
    }
  }

  lemma SoundCounts(c: Config, s: State, flight: seq<nat>, status: Status)
    requires Sound(c, s, flight)
    ensures status in s.tally.status
  {
    assert TallyOk(s);
  }

  lemma SweepLast(s: State, ids: seq<nat>, cutoff: int, status: Status, now: int)
    requires InRange(s.entries, ids) && status in s.tally.status && ids != []
    ensures var (r, last) := (Sweep(s, ids[..|ids| - 1], cutoff, status, now), ids[|ids| - 1]);
            Sweep(s, ids, cutoff, status, now)
            == if r.entries[last].active && r.entries[last].request.deadlineNs < cutoff
            then Retire(r, last, status, now) else r
  {
    hide Retire;
  }

  // ---------------------------------------------------------------- dropping inactive envelopes from the heap

  lemma {:induction false} ActiveIsSublist(c: Config, es: seq<Entry>, ids: seq<nat>)
    requires Sorted(c, es, ids)
    ensures Sorted(c, es, Active(es, ids))
    ensures forall id: nat :: id in Active(es, ids) <==> id in ids && es[id].active
  {
    if ids != [] {
      var (front, last) := (ids[..|ids| - 1], ids[|ids| - 1]);
      assert ids == front + [last];
      ActiveIsSublist(c, es, front);
    }
  }

  lemma CompactKeepsSound(c: Config, s: State, flight: seq<nat>)
    requires Sound(c, s, flight)
    ensures InRange(s.entries, s.heap) && Sound(c, Compact(s), flight)
    ensures forall id: nat :: id in Compact(s).heap <==> id < |s.entries| && s.entries[id].active
  {
    ActiveIsSublist(c, s.entries, s.heap);
    hide FlightOk;
  }

  lemma SortedIsDistinct(c: Config, es: seq<Entry>, ids: seq<nat>)
    requires Sorted(c, es, ids)
    ensures Distinct(ids)
  {
  }

  /** The active part of the heap has one slot per pending envelope. */
  lemma LiveCount(c: Config, s: State)
    requires HeapOk(c, s)
    ensures |Active(s.entries, s.heap)| == Count(s.entries, Pending)
  {
    var live := Active(s.entries, s.heap);
    ActiveIsSublist(c, s.entries, s.heap);
    SortedIsDistinct(c, s.entries, live);
    forall id: nat ensures id in live <==> id < |s.entries| && PhaseOf(s.entries[id]).Pending? {
      assert id in live <==> id in s.heap && s.entries[id].active;
    }
    ListedCount(s.entries, Pending, live);
  }

  // ---------------------------------------------------------------- new envelopes

  lemma ConsKeepsSorted(c: Config, es: seq<Entry>, id: nat, ids: seq<nat>)
    requires Sorted(c, es, ids) && id < |es|
    requires forall j | 0 <= j < |ids| :: Before(KeyOf(c, es, id), KeyOf(c, es, ids[j]))
    ensures Sorted(c, es, [id] + ids)
  {
  }

  lemma HeadIsFirst(c: Config, es: seq<Entry>, heap: seq<nat>, id: nat, x: nat)
    requires Sorted(c, es, heap) && heap != [] && id < |es| && id !in heap
    requires !Before(KeyOf(c, es, id), KeyOf(c, es, heap[0]))
    requires x == id || x in heap[1..]
    ensures x < |es| && Before(KeyOf(c, es, heap[0]), KeyOf(c, es, x))
  {
    if x == id {
      assert heap[0] != id;
    }
  }

  lemma {:induction false} PushKeepsSorted(c: Config, es: seq<Entry>, heap: seq<nat>, id: nat)
    requires Sorted(c, es, heap) && id < |es| && id !in heap
    ensures Sorted(c, es, HeapPush(c, es, heap, id))
  {
    if heap == [] {
    } else if Before(KeyOf(c, es, id), KeyOf(c, es, heap[0])) {
      ConsKeepsSorted(c, es, id, heap);
    } else {
      var rest := HeapPush(c, es, heap[1..], id);
      PushKeepsSorted(c, es, heap[1..], id);
      hide Before, KeyOf;
      forall j | 0 <= j < |rest| ensures Before(KeyOf(c, es, heap[0]), KeyOf(c, es, rest[j])) {
        assert rest[j] in rest;
        HeadIsFirst(c, es, heap, id, rest[j]);
      }
      ConsKeepsSorted(c, es, heap[0], rest);
    }
  }

  lemma {:induction false} PushLength(c: Config, es: seq<Entry>, heap: seq<nat>, id: nat)
    requires InRange(es, heap) && id < |es|
    ensures |HeapPush(c, es, heap, id)| == |heap| + 1
  {
    if heap != [] && !Before(KeyOf(c, es, id), KeyOf(c, es, heap[0])) {
      PushLength(c, es, heap[1..], id);
    }
  }

  ghost predicate Appends(s: State, r: State, e: Entry) {
    && r.entries == s.entries + [e] && r.log == s.log
    && EntryOk(e) && e.dispatchedNs.None?
  }

  lemma AppendKeepsEntries(s: State, r: State, e: Entry, flight: seq<nat>)
    requires Appends(s, r, e) && AllOk(s.entries) && FlightOk(s.entries, flight)
    ensures AllOk(r.entries) && FlightOk(r.entries, flight)
  {
    assert !PhaseOf(e).InFlight?;
    forall id: nat | id < |r.entries| ensures PhaseOf(r.entries[id]).InFlight? <==> id in flight {
      if id == |s.entries| {
        assert forall i | 0 <= i < |flight| :: flight[i] < |s.entries|;
      }
    }
  }

  lemma AppendKeepsLog(s: State, r: State, e: Entry)
    requires Appends(s, r, e) && LogOk(s)
    ensures LogOk(r)
  {
    CountAppend(s.entries, e, InFlight);
    CountAppend(s.entries, e, Done(Completed));
    CountAppend(s.entries, e, Done(DeadlineMissed));
    CountAppend(s.entries, e, Done(Failed));
  }

  lemma RejectKeepsTally(s: State, r: State, e: Entry, status: Status)
    requires Appends(s, r, e) && TallyOk(s) && PhaseOf(e) == Done(status)
    requires status in s.tally.status && r.tally == CountOutcome(s.tally, status)
    ensures TallyOk(r)
  {
    forall x: Status ensures x in r.tally.status && r.tally.status[x] == Count(r.entries, Done(x)) {
      CountAppend(s.entries, e, Done(x));
    }
  }

  lemma AppendKeepsHeap(c: Config, s: State, r: State, e: Entry)
    requires Appends(s, r, e) && HeapOk(c, s)
    requires r.heap == if e.active then HeapPush(c, r.entries, s.heap, |s.entries|) else s.heap
    ensures HeapOk(c, r)
  {
    assert Sorted(c, r.entries, s.heap);
    if e.active {
      PushKeepsSorted(c, r.entries, s.heap, |s.entries|);
    }
  }

  lemma RejectKeepsFresh(s: State, r: State, e: Entry)
    requires Appends(s, r, e) && FreshOk(s) && !e.active && r.latest == s.latest
    ensures FreshOk(r)
  {
    assert forall id: nat | id < |s.entries| :: r.entries[id] == s.entries[id];
  }

  lemma RejectEffect(s: State, r: Request, status: Status, now: int)
    requires status in s.tally.status && !FromBackend(status)
    ensures var s1 := Reject(s, r, status, now);
            var e := Entry(r, false, None, Some(Outcome(status, None, None, now, None)));
            && Appends(s, s1, e) && PhaseOf(e) == Done(status)
            && s1 == s.(entries := s1.entries, tally := CountOutcome(s.tally, status))
  {
  }

  lemma RejectKeepsIndex(c: Config, s: State, r: State, e: Entry)
    requires Appends(s, r, e) && IndexOk(c, s) && !e.active && r.pending == s.pending
    ensures IndexOk(c, r)
  {
  }

  lemma RejectKeepsSound(c: Config, s: State, flight: seq<nat>, r: Request, status: Status, now: int)
    requires Sound(c, s, flight) && !FromBackend(status)
    ensures status in s.tally.status && Sound(c, Reject(s, r, status, now), flight)
  {
    hide Reject, Appends, AllOk, HeapOk, FlightOk, LogOk, FreshOk, IndexOk;
    assert TallyOk(s);
    var e := Entry(r, false, None, Some(Outcome(status, None, None, now, None)));
    var s1 := Reject(s, r, status, now);
    RejectEffect(s, r, status, now);
    AppendKeepsEntries(s, s1, e, flight);
    AppendKeepsLog(s, s1, e);
    AppendKeepsHeap(c, s, s1, e);
    RejectKeepsTally(s, s1, e, status);
    RejectKeepsIndex(c, s, s1, e);
    if Orderly(c) {
      RejectKeepsFresh(s, s1, e);
    }
  }

  /** The pointers are right for every session but one, which has nothing pending. */
  ghost predicate IndexBut(c: Config, s: State, key: SessionKey) {
    if c.coalesceSessions then
      && (forall k | k in s.pending && k != key ::
            s.pending[k] < |s.entries| && s.entries[s.pending[k]].active
            && SessionOf(s.entries[s.pending[k]].request) == k)
      && (forall id: nat | id < |s.entries| && s.entries[id].active ::
            SessionOf(s.entries[id].request) != key
            && SessionOf(s.entries[id].request) in s.pending && s.pending[SessionOf(s.entries[id].request)] == id)
    else s.pending == map[]
  }

  lemma AdmitKeepsIndex(c: Config, s: State, r: State, e: Entry)
    requires Appends(s, r, e) && e.active && IndexBut(c, s, SessionOf(e.request))
    requires r.pending == if c.coalesceSessions then s.pending[SessionOf(e.request) := |s.entries|] else s.pending
    ensures IndexOk(c, r)
  {
  }

  lemma AdmitKeepsFresh(c: Config, s: State, r: State, e: Entry)
    requires Appends(s, r, e) && e.active && FreshOk(s) && c.enforceMonotonicSequence
    requires NonePendingOf(s, SessionOf(e.request))
    requires r.latest == s.latest[SessionOf(e.request) := e.request.sequenceNo] && !Stale(c, s, e.request)
    ensures FreshOk(r)
  {
    var key := SessionOf(e.request);
    assert forall id: nat | id < |s.entries| :: r.entries[id] == s.entries[id];
    assert r.entries[|s.entries|] == e;
    assert Rising(r.entries, r.log);
    forall i | 0 <= i < |r.log|
      ensures NotAhead(r, r.log[i])
      ensures SameSession(r.entries, r.log[i], |s.entries|) ==> SequenceOf(r.entries, r.log[i]) < e.request.sequenceNo
    {
      assert NotAhead(s, s.log[i]);
    }
    forall id: nat | id < |r.entries| && r.entries[id].active ensures IsLatest(r, id) {
      if id < |s.entries| {
        assert IsLatest(s, id) && SessionOf(s.entries[id].request) != key;
      }
    }
  }

  lemma AdmitKeepsSound(c: Config, s: State, flight: seq<nat>, r: Request)
    requires SoundButIndex(c, s, flight) && IndexBut(c, s, SessionOf(r)) && !Stale(c, s, r)
    requires Orderly(c) ==> NonePendingOf(s, SessionOf(r))
    ensures InRange(s.entries, s.heap) && Sound(c, Admit(c, s, r), flight)
  {
    assert HeapOk(c, s);
    var e := Entry(r, true, None, None);
    var s1 := Admit(c, s, r);
    assert Appends(s, s1, e);
    hide Appends, AllOk, HeapOk, FlightOk, LogOk, FreshOk, IndexOk, IndexBut, HeapPush, Stale, EntryOk, NonePendingOf;
    AppendKeepsEntries(s, s1, e, flight);
    AppendKeepsLog(s, s1, e);
    AppendKeepsHeap(c, s, s1, e);
    AdmitKeepsTally(s, s1, e);
    AdmitKeepsIndex(c, s, s1, e);
    if Orderly(c) {
      AdmitKeepsFresh(c, s, s1, e);
    }
  }

  lemma AdmitKeepsTally(s: State, r: State, e: Entry)
    requires Appends(s, r, e) && TallyOk(s) && e.active && r.tally == s.tally
    ensures TallyOk(r)
  {
    forall x: Status ensures x in r.tally.status && r.tally.status[x] == Count(r.entries, Done(x)) {
      CountAppend(s.entries, e, Done(x));
    }
  }

  // ---------------------------------------------------------------- replacing the pending request of a session

  lemma SupersedeConcludes(s: State, id: nat, r: Request, now: int)
    requires id < |s.entries| && s.entries[id].active && EntryOk(s.entries[id]) && Replaced in s.tally.status
    ensures Concludes(s, Supersede(s, id, r, now), id, Replaced)
    ensures Supersede(s, id, r, now).pending == s.pending
    ensures Supersede(s, id, r, now).entries[id].outcome == Some(Outcome(Replaced, None, None, now, Some(r.requestId)))
  {
  }

  lemma SupersedeKeepsIndex(c: Config, s: State, s1: State, id: nat)
    requires IndexOk(c, s) && c.coalesceSessions && Concludes(s, s1, id, Replaced) && s1.pending == s.pending
    ensures IndexBut(c, s1, SessionOf(s.entries[id].request))
  {
  }

  lemma SupersedeKeepsSound(c: Config, s: State, flight: seq<nat>, id: nat, r: Request, now: int)
    requires Sound(c, s, flight) && c.coalesceSessions && id < |s.entries| && s.entries[id].active
    requires SessionOf(s.entries[id].request) == SessionOf(r)
    ensures Replaced in s.tally.status
    ensures var s1 := Supersede(s, id, r, now);
            && SoundButIndex(c, s1, flight) && IndexBut(c, s1, SessionOf(r)) && s1.latest == s.latest
            && Concludes(s, s1, id, Replaced)
  {
    assert TallyOk(s) && EntryOk(s.entries[id]);
    hide LogOk, FlightOk, HeapOk, FreshOk, AllOk, TallyOk, IndexOk, IndexBut, EntryOk;
    SupersedeConcludes(s, id, r, now);
    assert Supersede(s, id, r, now).latest == s.latest;
    hide Concludes, Supersede;
    ConcludeKeepsSound(c, s, Supersede(s, id, r, now), id, Replaced, flight);
    SupersedeKeepsIndex(c, s, Supersede(s, id, r, now), id);
  }

  // ---------------------------------------------------------------- dispatching a pending envelope

  lemma DispatchEffect(s: State, id: nat, now: int)
    requires id < |s.entries|
    ensures var r := Dispatch(s, id, now);
            && r.entries == s.entries[id := s.entries[id].(active := false, dispatchedNs := Some(now))]
            && r == s.(entries := r.entries, log := s.log + [id], pending := ClearPointer(s, id).pending)
  {
  }

  /** `r` is `s` after the pending envelope `id` was dispatched. */
  ghost predicate Dispatches(s: State, r: State, id: nat, now: int) {
    && id < |s.entries| && s.entries[id].active && EntryOk(s.entries[id])
    && r.entries == s.entries[id := s.entries[id].(active := false, dispatchedNs := Some(now))]
    && r == s.(entries := r.entries, log := s.log + [id], pending := ClearPointer(s, id).pending)
  }

  lemma DispatchKeepsEntries(c: Config, s: State, r: State, id: nat, now: int, flight: seq<nat>)
    requires Dispatches(s, r, id, now) && AllOk(s.entries) && FlightOk(s.entries, flight) && HeapOk(c, s)
    ensures AllOk(r.entries) && FlightOk(r.entries, flight + [id]) && HeapOk(c, r)
  {
    assert PhaseOf(s.entries[id]).Pending? && id !in flight;
    forall x: nat | x < |r.entries| ensures PhaseOf(r.entries[x]).InFlight? <==> x in flight + [id] {
    }
  }

  lemma DispatchKeepsTally(s: State, r: State, id: nat, now: int)
    requires Dispatches(s, r, id, now) && TallyOk(s)
    ensures TallyOk(r)
  {
    forall x: Status ensures x in r.tally.status && r.tally.status[x] == Count(r.entries, Done(x)) {
      CountUpdate(s.entries, id, r.entries[id], Done(x));
    }
  }

  lemma DispatchKeepsLog(s: State, r: State, id: nat, now: int)
    requires Dispatches(s, r, id, now) && LogOk(s)
    ensures LogOk(r)
  {
    assert id !in s.log;
    CountUpdate(s.entries, id, r.entries[id], InFlight);
    CountUpdate(s.entries, id, r.entries[id], Done(Completed));
    CountUpdate(s.entries, id, r.entries[id], Done(DeadlineMissed));
    CountUpdate(s.entries, id, r.entries[id], Done(Failed));
    assert forall x :: x in r.log <==> x == id || x in s.log;
  }

  lemma DispatchKeepsIndex(c: Config, s: State, r: State, id: nat, now: int)
    requires Dispatches(s, r, id, now) && IndexOk(c, s)
    ensures IndexOk(c, r)
  {
  }

  lemma DispatchKeepsRising(s: State, r: State, id: nat, now: int)
    requires Dispatches(s, r, id, now) && FreshOk(s)
    ensures InRange(r.entries, r.log) && Rising(r.entries, r.log)
    ensures forall i | 0 <= i < |r.log| :: NotAhead(r, r.log[i])
  {
    assert forall x: nat | x < |s.entries| :: r.entries[x].request == s.entries[x].request;
    assert IsLatest(s, id) && NewerThanLog(s, id);
    forall i | 0 <= i < |r.log| ensures r.log[i] < |s.entries| && NotAhead(s, r.log[i]) {
      if i == |s.log| {
        assert r.log[i] == id;
      }
    }
  }

  lemma DispatchKeepsFresh(c: Config, s: State, r: State, id: nat, now: int)
    requires Dispatches(s, r, id, now) && FreshOk(s)
    ensures FreshOk(r)
  {
    DispatchKeepsRising(s, r, id, now);
    hide Rising, EntryOk, ClearPointer;
    assert forall x: nat | x < |s.entries| :: r.entries[x].request == s.entries[x].request;
    forall x: nat | x < |r.entries| && r.entries[x].active ensures IsLatest(r, x) && NewerThanLog(r, x) {
      assert IsLatest(s, x) && NewerThanLog(s, x);
      assert !SameSession(s.entries, id, x);
      assert IsLatest(s, id);
    }
  }

  lemma DispatchKeepsSound(c: Config, s: State, flight: seq<nat>, id: nat, now: int)
    requires Sound(c, s, flight) && id < |s.entries| && s.entries[id].active
    ensures Sound(c, Dispatch(s, id, now), flight + [id])
  {
    var r := Dispatch(s, id, now);
    assert EntryOk(s.entries[id]);
    hide AllOk, HeapOk, FlightOk, LogOk, FreshOk, IndexOk, TallyOk, EntryOk, Dispatch, ClearPointer;
    DispatchEffect(s, id, now);
    assert Dispatches(s, r, id, now);
    hide Dispatches;
    DispatchKeepsEntries(c, s, r, id, now, flight);
    DispatchKeepsTally(s, r, id, now);
    DispatchKeepsLog(s, r, id, now);
    DispatchKeepsIndex(c, s, r, id, now);
    if Orderly(c) {
      DispatchKeepsFresh(c, s, r, id, now);
    }
  }

  // ---------------------------------------------------------------- settling an envelope in flight

  /** `r` is `s` after the first of the envelopes in flight got its final status. */
  ghost predicate Settles(s: State, r: State, id: nat, status: Status) {
    && id < |s.entries| && PhaseOf(s.entries[id]).InFlight? && FromBackend(status)
    && |r.entries| == |s.entries| && r.entries == s.entries[id := r.entries[id]]
    && r.entries[id].request == s.entries[id].request
    && r.entries[id].dispatchedNs == s.entries[id].dispatchedNs
    && EntryOk(r.entries[id]) && PhaseOf(r.entries[id]) == Done(status)
    && status in s.tally.status && r == s.(entries := r.entries, tally := CountOutcome(s.tally, status))
  }

  lemma FinishSettles(s: State, id: nat, status: Status, action: Option<ActionChunk>, now: int)
    requires id < |s.entries| && PhaseOf(s.entries[id]).InFlight? && EntryOk(s.entries[id])
    requires FromBackend(status) && status in s.tally.status
    ensures var r := Finish(s, id, status, action, now, None);
            && Settles(s, r, id, status)
            && r.entries[id].outcome == Some(Outcome(status, action, s.entries[id].dispatchedNs, now, None))
  {
  }

  lemma SettleKeepsEntries(c: Config, s: State, r: State, id: nat, status: Status, flight: seq<nat>)
    requires Settles(s, r, id, status) && AllOk(s.entries) && HeapOk(c, s)
    requires FlightOk(s.entries, [id] + flight)
    ensures AllOk(r.entries) && FlightOk(r.entries, flight) && HeapOk(c, r)
  {
    var all := [id] + flight;
    assert forall i | 0 <= i < |flight| :: flight[i] == all[i + 1];
    assert all[0] == id && id !in flight;
    forall x: nat | x < |r.entries| ensures PhaseOf(r.entries[x]).InFlight? <==> x in flight {
      assert x in all <==> x == id || x in flight;
    }
  }

  lemma SettleKeepsTally(s: State, r: State, id: nat, status: Status)
    requires Settles(s, r, id, status) && TallyOk(s)
    ensures TallyOk(r)
  {
    forall x: Status ensures x in r.tally.status && r.tally.status[x] == Count(r.entries, Done(x)) {
      CountUpdate(s.entries, id, r.entries[id], Done(x));
    }
  }

  lemma SettleKeepsLog(s: State, r: State, id: nat, status: Status)
    requires Settles(s, r, id, status) && LogOk(s)
    ensures LogOk(r)
  {
    CountUpdate(s.entries, id, r.entries[id], InFlight);
    CountUpdate(s.entries, id, r.entries[id], Done(Completed));
    CountUpdate(s.entries, id, r.entries[id], Done(DeadlineMissed));
    CountUpdate(s.entries, id, r.entries[id], Done(Failed));
  }

  lemma SettleKeepsIndex(c: Config, s: State, r: State, id: nat, status: Status)
    requires Settles(s, r, id, status) && IndexOk(c, s)
    ensures IndexOk(c, r)
  {
  }

  lemma SettleKeepsFresh(s: State, r: State, id: nat, status: Status)
    requires Settles(s, r, id, status) && FreshOk(s)
    ensures FreshOk(r)
  {
    assert forall x: nat | x < |s.entries| ::
        r.entries[x].request == s.entries[x].request && r.entries[x].active == s.entries[x].active;
  }

  lemma SettleKeepsSound(c: Config, s: State, r: State, id: nat, status: Status, flight: seq<nat>)
    requires Settles(s, r, id, status) && Sound(c, s, [id] + flight)
    ensures Sound(c, r, flight)
  {
    hide Settles, AllOk, HeapOk, FlightOk, LogOk, FreshOk, IndexOk, TallyOk;
    SettleKeepsEntries(c, s, r, id, status, flight);
    SettleKeepsTally(s, r, id, status);
    SettleKeepsLog(s, r, id, status);
    SettleKeepsIndex(c, s, r, id, status);
    if Orderly(c) {
      SettleKeepsFresh(s, r, id, status);
    }
  }
}
