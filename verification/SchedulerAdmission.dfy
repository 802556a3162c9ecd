/** What a new request meets: the exact verdict on it and on every other pending request, and the
    session index and capacity that all admissions together keep. */
module SchedulerAdmission {
  import opened Types
  import opened SchedulerState
  import opened SchedulerInvariants
  import opened SchedulerSafety

  /** The pending requests whose deadlines are still ahead. */
  function Unexpired(es: seq<Entry>, now: int): nat {
    if es == [] then 0
    else Unexpired(es[..|es| - 1], now)
         + if es[|es| - 1].active && es[|es| - 1].request.deadlineNs > now then 1 else 0
  }

  lemma {:induction false} UnexpiredCount(es: seq<Entry>, es': seq<Entry>, now: int)
    requires |es'| == |es|
    requires forall id: nat | id < |es| :: es'[id].active <==> es[id].active && es[id].request.deadlineNs > now
    ensures Count(es', Pending) == Unexpired(es, now)
  {
    if es != [] {
      UnexpiredCount(es[..|es| - 1], es'[..|es| - 1], now);
    }
  }

  function ExpiredEntry(e: Entry, now: int): Entry {
    if e.active && e.request.deadlineNs <= now
    then Entry(e.request, false, None, Some(Outcome(Expired, None, None, now, None)))
    else e
  }

  lemma ExpireEffect(c: Config, s: State, flight: seq<nat>, now: int)
    requires Sound(c, s, flight)
    ensures InRange(s.entries, s.heap)
    ensures InRange(Compact(s).entries, Compact(s).heap) && Expired in Compact(s).tally.status
    ensures var r := Expire(Compact(s), now);
            && |r.entries| == |s.entries|
            && (forall id: nat | id < |s.entries| :: r.entries[id] == ExpiredEntry(s.entries[id], now))
            && |r.heap| == Unexpired(s.entries, now)
  {
    SoundHasParts(c, s, flight);
    CompactKeepsSound(c, s, flight);
    ExpireCleans(c, s, flight, now);
    var r := Expire(Compact(s), now);
    assert |r.heap| == Count(r.entries, Pending);
    hide Sweep, Active, Sound, Cleaned;
    forall id: nat | id < |s.entries| ensures r.entries[id] == ExpiredEntry(s.entries[id], now) {
      SweepEffect(Compact(s), Compact(s).heap, now + 1, Expired, now, id);
    }
    UnexpiredCount(s.entries, r.entries, now);
  }

  /** What becomes of an older request when a new one of session `key` is admitted. */
  function AfterAdmission(e: Entry, superseded: bool, r: Request, clock: Clock): Entry {
    var e1 := ExpiredEntry(e, clock(0));
    if superseded && e1.active
    then Entry(e.request, false, None, Some(Outcome(Replaced, None, None, clock(1), Some(r.requestId))))
    else e1
  }

  /** Whether the request is refused for lack of room: there is nothing that it would replace (under coalescing,
      nothing of its session is pending), and the queue is full of requests that have not expired. */
  predicate Refused(c: Config, s: State, r: Request, now: int)
    requires forall k | k in s.pending :: s.pending[k] < |s.entries|
  {
    && Previous(c, s, SessionOf(r)).None?
    && c.maxPending.Some?
    && Unexpired(s.entries, now) >= c.maxPending.value
  }

  /** The verdict on the new request. */
  function VerdictOn(c: Config, s: State, r: Request, clock: Clock): Entry
    requires forall k | k in s.pending :: s.pending[k] < |s.entries|
  {
    if Stale(c, s, r) then Entry(r, false, None, Some(Outcome(OutOfOrder, None, None, clock(0), None)))
    else if Refused(c, s, r, clock(0)) then Entry(r, false, None, Some(Outcome(Overloaded, None, None, clock(1), None)))
    else Entry(r, true, None, None)
  }

  lemma SupersedeEntry(s: State, id: nat, r: Request, now: int, x: nat)
    requires id < |s.entries| && x < |s.entries| && Replaced in s.tally.status
    requires EntryOk(s.entries[id]) && !PhaseOf(s.entries[id]).InFlight?
    ensures Supersede(s, id, r, now).entries[x]
         == if x == id && s.entries[id].active
            then Entry(s.entries[x].request, false, None, Some(Outcome(Replaced, None, None, now, Some(r.requestId))))
            else s.entries[x]
  {
  }

  lemma AppendedEntries(c: Config, s: State, r: Request, status: Status, now: int)
    requires InRange(s.entries, s.heap) && status in s.tally.status
    ensures Admit(c, s, r).entries == s.entries + [Entry(r, true, None, None)]
    ensures Reject(s, r, status, now).entries
         == s.entries + [Entry(r, false, None, Some(Outcome(status, None, None, now, None)))]
  {
  }

  /** What the expiry pass leaves for a new request to meet. */
  lemma AfterExpiry(c: Config, s: State, r: Request, clock: Clock)
    requires WellFormed(s) && Sound(c, s, FlightOf(s))
    ensures InRange(Compact(s).entries, Compact(s).heap) && Expired in Compact(s).tally.status
    ensures var s1 := Expire(Compact(s), clock(0));
            && InRange(s1.entries, s1.heap) && (forall x: Status :: x in s1.tally.status) && |s1.entries| == |s.entries|
            && (forall id: nat | id < |s.entries| :: s1.entries[id] == ExpiredEntry(s.entries[id], clock(0)))
            && (Previous(c, s, SessionOf(r)).None? && AtCapacity(c, s1) <==> Refused(c, s, r, clock(0)))
  {
    var flight := FlightOf(s);
    hide Sound, Cleaned, Unexpired, ExpiredEntry, Previous, Expire, Compact;
    ExpireEffect(c, s, flight, clock(0));
    ExpireCleans(c, s, flight, clock(0));
    var s1 := Expire(Compact(s), clock(0));
    CleanedIsSound(c, s, s1, flight);
    SoundIsWellFormed(c, s1, flight);
  }

  /** What replacing does to each older request. */
  lemma AfterSupersede(c: Config, s: State, r: Request, clock: Clock, p: nat)
    requires WellFormed(s) && Sound(c, s, FlightOf(s)) && Previous(c, s, SessionOf(r)) == Some(p)
    requires InRange(Compact(s).entries, Compact(s).heap) && Expired in Compact(s).tally.status
    ensures var s1 := Expire(Compact(s), clock(0));
            && p < |s1.entries| == |s.entries| && Replaced in s1.tally.status
            && var s2 := Supersede(s1, p, r, clock(1));
            && InRange(s2.entries, s2.heap) && |s2.entries| == |s.entries| && Overloaded in s2.tally.status
            && (forall id: nat | id < |s.entries| :: s2.entries[id] == AfterAdmission(s.entries[id], id == p, r, clock))
  {
    var flight := FlightOf(s);
    SoundHasParts(c, s, flight);
    PreviousIsPending(c, s, SessionOf(r));
    hide Sound, Cleaned, Previous, Supersede, Unexpired, WellFormed, HeapOk, IndexOk, AllOk, Refused, AtCapacity,
      Expire, Compact, EntryOk;
    AfterExpiry(c, s, r, clock);
    ExpireCleans(c, s, flight, clock(0));
    var s1 := Expire(Compact(s), clock(0));
    CleanedIsSound(c, s, s1, flight);
    SoundHasParts(c, s1, flight);
    EntryIsOk(s1.entries, p);
    if !s1.entries[p].active {
      ExpiredPreviousIsDone(c, s, s1, flight, p);
    }
    SupersedeKeepsStatuses(s1, p, r, clock(1));
    forall id: nat | id < |s.entries|
      ensures Supersede(s1, p, r, clock(1)).entries[id] == AfterAdmission(s.entries[id], id == p, r, clock)
    {
      SupersedeEntry(s1, p, r, clock(1), id);
    }
  }

  lemma EntryIsOk(es: seq<Entry>, id: nat)
    requires AllOk(es) && id < |es|
    ensures EntryOk(es[id])
  {
  }

  lemma AcceptVerdict(c: Config, s: State, r: Request, clock: Clock)
    requires WellFormed(s) && Sound(c, s, FlightOf(s)) && !Stale(c, s, r)
    ensures var t := Accept(c, s, r, clock);
            && |t.entries| == |s.entries| + 1
            && t.entries[|s.entries|] == VerdictOn(c, s, r, clock)
            && (forall id: nat | id < |s.entries| ::
                  t.entries[id] == AfterAdmission(s.entries[id], Previous(c, s, SessionOf(r)) == Some(id), r, clock))
  {
    hide Sound, Stale, Unexpired, ExpiredEntry, Refused, Expire, Compact, Supersede, AtCapacity, Admit, Reject,
      HeapPush;
    AfterExpiry(c, s, r, clock);
    var s1 := Expire(Compact(s), clock(0));
    var p := Previous(c, s, SessionOf(r));
    hide Previous;
    AppendedEntries(c, s1, r, Overloaded, clock(1));
    if p.Some? {
      AfterSupersede(c, s, r, clock, p.value);
      AppendedEntries(c, Supersede(s1, p.value, r, clock(1)), r, Overloaded, clock(1));
    }
  }

  lemma SupersedeKeepsStatuses(s: State, id: nat, r: Request, now: int)
    requires id < |s.entries| && forall x: Status :: x in s.tally.status
    ensures forall x: Status :: x in Supersede(s, id, r, now).tally.status
    ensures InRange(s.entries, s.heap) ==> InRange(Supersede(s, id, r, now).entries, Supersede(s, id, r, now).heap)
    ensures |Supersede(s, id, r, now).entries| == |s.entries|
  {
  }

  /** The exact effect of one call of `enqueue`, on the new request and on every older one: rejected as
      out of order, refused, or admitted; the expired ones expire; the older request of the session is
      replaced, naming its successor, unless it expired in the same call. */
  lemma {:induction false} EnqueueEffect(c: Config, s: State, r: Request, clock: Clock)
    requires WellFormed(s) && Inv(c, s) && s.accepting
    ensures var t := Enqueue(c, s, r, clock);
            && |t.entries| == |s.entries| + 1
            && t.entries[|s.entries|] == VerdictOn(c, s, r, clock)
            && (forall id: nat | id < |s.entries| ::
                  t.entries[id] == if Stale(c, s, r) then s.entries[id]
                  else AfterAdmission(s.entries[id], Previous(c, s, SessionOf(r)) == Some(id), r, clock))
  {
    var s0 := CountSubmit(s);
    SameCoreKeepsSound(c, s, s0, FlightOf(s));
    assert Previous(c, s0, SessionOf(r)) == Previous(c, s, SessionOf(r));
    hide Sound, Inv, AfterAdmission, Previous, Unexpired, Accept;
    if Stale(c, s, r) {
      AppendedEntries(c, s0, r, OutOfOrder, clock(0));
    } else {
      AcceptVerdict(c, s0, r, clock);
      SameVerdict(c, s, s0, r, clock);
    }
  }

  lemma SameVerdict(c: Config, s: State, s0: State, r: Request, clock: Clock)
    requires forall k | k in s.pending :: s.pending[k] < |s.entries|
    requires s0 == s.(tally := s0.tally)
    ensures VerdictOn(c, s0, r, clock) == VerdictOn(c, s, r, clock)
  {
  }

  // ---------------------------------------------------------------- the index and the capacity, over all runs

  /** In every reachable state of a coalescing scheduler the session pointers and the pending requests
      are in one-to-one correspondence. */
  lemma {:induction false} PendingIndexIsExact(c: Config, be: Backend, events: seq<Event>)
    requires c.coalesceSessions
    ensures var s := Run(c, be, events);
            && (forall key | key in s.pending ::
                  s.pending[key] < |s.entries| && s.pending[key] in s.heap
                  && var e := s.entries[s.pending[key]]; e.active && key == (e.request.model, e.request.sessionId))
            && (forall id: nat | id < |s.entries| && s.entries[id].active ::
                  var key := (s.entries[id].request.model, s.entries[id].request.sessionId);
                  key in s.pending && s.pending[key] == id)
  {
    var s := Run(c, be, events);
    RunIsSound(c, be, events);
    SoundHasParts(c, s, FlightOf(s));
    hide Run, Inv;
  }

  /** In every reachable state the pending requests respect the configured capacity, and the heap never
      holds more than one entry beyond them. */
  lemma {:induction false} CapacityIsRespected(c: Config, be: Backend, events: seq<Event>)
    ensures var s := Run(c, be, events);
            var live := |Active(s.entries, s.heap)|;
            && |s.heap| <= live + 1
            && (c.maxPending.Some? ==> live <= c.maxPending.value && |s.heap| <= c.maxPending.value + 1)
  {
    var s := Run(c, be, events);
    RunIsSound(c, be, events);
    SoundHasParts(c, s, FlightOf(s));
    LiveCount(c, s);
    hide Run, Sound;
  }
}
