/** Which requests are turned away, told from the requests alone: what the sequence map, the session pointers and
    the capacity check amount to over whole runs. */
module SchedulerVerdicts {
  import opened Types
  import opened SchedulerState
  import opened SchedulerInvariants
  import opened SchedulerSafety
  import opened SchedulerOutcomes
  import opened SchedulerAdmission
  import opened SchedulerFreshness
  import opened SchedulerWaiting

  predicate IsOutOfOrder(e: Entry) {
    e.outcome.Some? && e.outcome.value.status.OutOfOrder?
  }

  /** Whether the request was let into the queue. */
  predicate Admitted(e: Entry) {
    !IsOutOfOrder(e) && !(e.outcome.Some? && e.outcome.value.status.Overloaded?)
  }

  predicate OfSession(a: Request, b: Request) {
    a.model == b.model && a.sessionId == b.sessionId
  }

  /** Whether some admitted request of the session is at least as far in its sequence. */
  ghost predicate Outrun(es: seq<Entry>, r: Request) {
    exists id: nat | id < |es| :: Admitted(es[id]) && OfSession(es[id].request, r)
                                  && es[id].request.sequenceNo >= r.sequenceNo
  }

  /** The last request of its session that was admitted. */
  ghost predicate LastAdmitted(es: seq<Entry>, id: nat) {
    && id < |es| && Admitted(es[id])
    && forall j: nat | id < j < |es| && OfSession(es[j].request, es[id].request) :: !Admitted(es[j])
  }

  // ---------------------------------------------------------------- what the sequence map remembers

  /** The map holds the sequence number of the last admitted request of the session. */
  ghost predicate Names(s: State, key: SessionKey, id: nat)
    requires key in s.latest
  {
    && LastAdmitted(s.entries, id)
    && s.latest[key] == s.entries[id].request.sequenceNo
    && key == (s.entries[id].request.model, s.entries[id].request.sessionId)
  }

  ghost predicate IsRemembered(c: Config, s: State, e: Entry) {
    var key := (e.request.model, e.request.sessionId);
    key in s.latest && (c.enforceMonotonicSequence ==> e.request.sequenceNo <= s.latest[key])
  }

  /** The map holds, for every session with an admitted request, the sequence number of the last one; with the
      check on it is the greatest. */
  ghost predicate Remembers(c: Config, s: State) {
    && (forall key | key in s.latest :: exists id: nat :: Names(s, key, id))
    && (forall id: nat | id < |s.entries| && Admitted(s.entries[id]) :: IsRemembered(c, s, s.entries[id]))
  }

  /** A request is out of order if and only if the check is on and an admitted one before it has outrun it. */
  ghost predicate OrderIsJudged(c: Config, es: seq<Entry>) {
    forall id: nat | id < |es| ::
      IsOutOfOrder(es[id]) <==> c.enforceMonotonicSequence && Outrun(es[..id], es[id].request)
  }

  /** Nobody is turned away or let in afterwards. */
  ghost predicate SameVerdicts(s: State, r: State) {
    && |r.entries| == |s.entries| && r.latest == s.latest
    && forall id: nat | id < |s.entries| :: JudgedAlike(s.entries[id], r.entries[id])
  }

  predicate JudgedAlike(e: Entry, e': Entry) {
    e'.request == e.request && (Admitted(e') <==> Admitted(e)) && (IsOutOfOrder(e') <==> IsOutOfOrder(e))
  }

  lemma SameVerdictsOutrun(es: seq<Entry>, es': seq<Entry>, r: Request)
    requires |es'| == |es| && forall id: nat | id < |es| :: JudgedAlike(es[id], es'[id])
    ensures Outrun(es', r) <==> Outrun(es, r)
  {
    if Outrun(es, r) {
      var id: nat :| id < |es| && Admitted(es[id]) && OfSession(es[id].request, r)
                     && es[id].request.sequenceNo >= r.sequenceNo;
      assert JudgedAlike(es[id], es'[id]);
    }
    if Outrun(es', r) {
      var id: nat :| id < |es'| && Admitted(es'[id]) && OfSession(es'[id].request, r)
                     && es'[id].request.sequenceNo >= r.sequenceNo;
      assert JudgedAlike(es[id], es'[id]);
    }
  }

  lemma SameVerdictsJudge(c: Config, es: seq<Entry>, es': seq<Entry>)
    requires OrderIsJudged(c, es)
    requires |es'| == |es| && forall id: nat | id < |es| :: JudgedAlike(es[id], es'[id])
    ensures OrderIsJudged(c, es')
  {
    forall id: nat | id < |es'|
      ensures IsOutOfOrder(es'[id]) <==> c.enforceMonotonicSequence && Outrun(es'[..id], es'[id].request)
    {
      assert JudgedAlike(es[id], es'[id]);
      assert forall k: nat | k < id :: JudgedAlike(es[..id][k], es'[..id][k]);
      SameVerdictsOutrun(es[..id], es'[..id], es[id].request);
    }
  }

  lemma SameVerdictsLast(es: seq<Entry>, es': seq<Entry>, id: nat)
    requires |es'| == |es| && forall k: nat | k < |es| :: JudgedAlike(es[k], es'[k])
    requires LastAdmitted(es, id)
    ensures LastAdmitted(es', id)
  {
    assert JudgedAlike(es[id], es'[id]);
    forall j: nat | id < j < |es'| && OfSession(es'[j].request, es'[id].request) ensures !Admitted(es'[j]) {
      assert JudgedAlike(es[j], es'[j]);
    }
  }

  lemma SameVerdictsName(s: State, r: State, key: SessionKey, id: nat)
    requires SameVerdicts(s, r) && key in s.latest && Names(s, key, id)
    ensures Names(r, key, id)
  {
    SameVerdictsLast(s.entries, r.entries, id);
    assert JudgedAlike(s.entries[id], r.entries[id]);
  }

  lemma SameVerdictsRemember(c: Config, s: State, r: State)
    requires Remembers(c, s) && SameVerdicts(s, r)
    ensures Remembers(c, r)
  {
    hide Names, Admitted, IsOutOfOrder;
    forall key | key in r.latest ensures exists id: nat :: Names(r, key, id) {
      var id: nat :| Names(s, key, id);
      SameVerdictsName(s, r, key, id);
    }
    forall id: nat | id < |r.entries| && Admitted(r.entries[id]) ensures IsRemembered(c, r, r.entries[id]) {
      assert JudgedAlike(s.entries[id], r.entries[id]);
      assert IsRemembered(c, s, s.entries[id]);
    }
  }

  // ---------------------------------------------------------------- steps that judge nobody

  lemma CleanedIsJudgedAlike(c: Config, e: Entry, est: Predictor, clock: Clock)
    ensures JudgedAlike(e, AfterCleanUp(c, e, est, clock)) || (e.active && e.outcome.Some?)
  {
  }

  lemma HandedOverIsJudgedAlike(e: Entry, e': Entry)
    requires HandedOver(e, e')
    ensures JudgedAlike(e, e')
  {
  }

  lemma JudgedAlikeTwice(e: Entry, e': Entry, e'': Entry)
    requires JudgedAlike(e, e') && JudgedAlike(e', e'')
    ensures JudgedAlike(e, e'')
  {
  }

  lemma ActiveIsOpen(c: Config, s: State, id: nat)
    requires Inv(c, s) && id < |s.entries|
    ensures s.entries[id].active ==> s.entries[id].outcome.None?
  {
    assert EntryOk(s.entries[id]);
  }

  lemma TurnKeepsLatest(c: Config, be: Backend, s: State, est: Predictor, clock: Clock)
    requires InRange(s.entries, s.heap) && Sorted(c, s.entries, s.heap) && AllActive(s.entries, s.heap)
    ensures Turn(c, be, s, est, clock).latest == s.latest
  {
    hide TheChoice, Active, DispatchAt, SafeBy, DispatchAll;
    if s.heap != [] {
      var ch := TheChoice(c, be, s.entries, est, (n: nat) => clock(n + 3), s.heap, clock(1));
      ChoiceIsOrdered(c, be, s.entries, est, (n: nat) => clock(n + 3), s.heap, clock(1));
      DispatchAllEffect(s, ch.ids, ch.ats);
    }
  }

  lemma WakeJudgesNobody(c: Config, be: Backend, events: seq<Event>, est: Predictor, clock: Clock)
    ensures SameVerdicts(Run(c, be, events), Wake(c, be, Run(c, be, events), est, clock))
  {
    var s := Run(c, be, events);
    RunIsSound(c, be, events);
    hide Run, Inv, WellFormed, CleanUp, Cleaned, Turn, Wake, Sorted, AllActive, JudgedAlike, HandedOver, HasToWait,
      AfterCleanUp;
    if s.worker.Waiting? {
      var r := Wake(c, be, s, est, clock);
      CleanedLatest(c, s, est, clock);
      WakeIsTurn(c, be, s, est, clock);
      TurnKeepsLatest(c, be, CleanUp(c, s, est, clock), est, clock);
      WakeKeepsSize(c, be, s, est, clock);
      forall id: nat | id < |s.entries| ensures JudgedAlike(s.entries[id], r.entries[id]) {
        WakeVerdict(c, be, events, est, clock, id);
        ActiveIsOpen(c, s, id);
        CleanedIsJudgedAlike(c, s.entries[id], est, clock);
        var e := AfterCleanUp(c, s.entries[id], est, clock);
        if r.entries[id] != e {
          HandedOverIsJudgedAlike(e, r.entries[id]);
          JudgedAlikeTwice(s.entries[id], e, r.entries[id]);
        }
      }
    } else {
      WakeOfNobody(c, be, s, est, clock);
      SameEntriesSameVerdicts(s, s);
    }
  }

  lemma WakeKeepsSize(c: Config, be: Backend, s: State, est: Predictor, clock: Clock)
    requires WellFormed(s) && Inv(c, s) && s.worker.Waiting?
    ensures |Wake(c, be, s, est, clock).entries| == |s.entries|
  {
    hide Inv, WellFormed, CleanUp;
    CleanUpKeepsLength(c, s, est, clock);
    hide TheChoice, DispatchAll, Active, DispatchAt, SafeBy;
  }

  lemma WakeOfNobody(c: Config, be: Backend, s: State, est: Predictor, clock: Clock)
    requires WellFormed(s) && !s.worker.Waiting?
    ensures Wake(c, be, s, est, clock) == s
  {
  }

  lemma SameEntriesSameVerdicts(s: State, r: State)
    requires r.entries == s.entries && r.latest == s.latest
    ensures SameVerdicts(s, r)
  {
  }

  lemma CleanedLatest(c: Config, s: State, est: Predictor, clock: Clock)
    requires WellFormed(s) && Inv(c, s) && s.worker.Waiting?
    ensures var s1 := CleanUp(c, s, est, clock);
            s1.latest == s.latest && InRange(s1.entries, s1.heap) && Sorted(c, s1.entries, s1.heap)
            && AllActive(s1.entries, s1.heap)
  {
    hide Sound, CleanUp, Sorted;
    CleanUpCleans(c, s, [], est, clock);
    CleanedIsClean(c, s, CleanUp(c, s, est, clock), []);
    CleanedHeap(c, CleanUp(c, s, est, clock));
  }

  lemma ReplyJudgesAlike(c: Config, e: Entry, action: ActionChunk, at: int, now: int)
    requires e.outcome.None?
    ensures JudgedAlike(e, Delivered(c, e, action, at)) && JudgedAlike(e, FailedEntry(e, now))
  {
  }

  const NO_ACTION := ActionChunk("", "", "", 0, [], 0)

  lemma ReplyJudgesNobody(c: Config, s: State, reply: Reply, clock: Clock)
    requires WellFormed(s) && Inv(c, s)
    ensures SameVerdicts(s, Receive(c, s, reply, clock))
  {
    hide Inv, EntryOk, Delivered, FailedEntry, JudgedAlike;
    if s.worker.Executing? {
      ReplyKeepsLatest(c, s, reply, clock);
      BatchIsOpen(c, s);
      var n := RoutingFailsClosed(c, s, reply, clock);
      hide Receive, WellFormed;
      forall id: nat | id < |s.entries| ensures JudgedAlike(s.entries[id], Receive(c, s, reply, clock).entries[id]) {
        AlwaysJudgedAlike(s.entries[id]);
        if id in s.worker.batch {
          var i :| 0 <= i < |s.worker.batch| && s.worker.batch[i] == id;
          ReplyJudgesAlike(c, s.entries[s.worker.batch[i]], if i < n then reply.actions[i] else NO_ACTION, clock(i),
                           clock(n));
        }
      }
    } else {
      SameEntriesSameVerdicts(s, s);
    }
  }

  lemma ReplyKeepsLatest(c: Config, s: State, reply: Reply, clock: Clock)
    requires WellFormed(s) && Inv(c, s) && s.worker.Executing?
    ensures Receive(c, s, reply, clock).latest == s.latest
  {
    ReplyKeepsSound(c, s, reply, clock);
    hide Sound, Receive;
  }

  lemma CloseJudgesNobody(c: Config, s: State, cancelPending: bool, now: int)
    requires WellFormed(s) && Inv(c, s)
    ensures SameVerdicts(s, Close(s, cancelPending, now))
  {
    CloseKeepsLatest(c, s, cancelPending, now);
    hide Close;
    var r := Close(s, cancelPending, now);
    if cancelPending && !s.worker.Returned? {
      CloseCancels(c, s, cancelPending, now);
      forall id: nat | id < |s.entries| ensures JudgedAlike(s.entries[id], r.entries[id]) {
        ActiveIsOpen(c, s, id);
      }
    } else {
      SameEntriesSameVerdicts(s, r);
    }
  }

  lemma CloseKeepsLatest(c: Config, s: State, cancelPending: bool, now: int)
    requires WellFormed(s) && Inv(c, s)
    ensures Close(s, cancelPending, now).latest == s.latest
    ensures !cancelPending || s.worker.Returned? ==> Close(s, cancelPending, now).entries == s.entries
  {
    var s1 := s.(accepting := false);
    SameCoreKeepsSound(c, s, s1, FlightOf(s));
    SoundHasParts(c, s1, FlightOf(s));
    hide CancelAll, Sound, SoundButIndex;
    CancelAllKeepsSound(c, s1, FlightOf(s), s1.heap, now);
  }

  // ---------------------------------------------------------------- admission

  /** With the map in order, the check compares with every admitted request of the session. */
  lemma StaleExactly(c: Config, s: State, r: Request)
    requires Remembers(c, s)
    ensures Stale(c, s, r) <==> c.enforceMonotonicSequence && Outrun(s.entries, r)
  {
    var key := (r.model, r.sessionId);
    if Stale(c, s, r) {
      var id: nat :| Names(s, key, id);
      assert Admitted(s.entries[id]) && OfSession(s.entries[id].request, r);
    }
    if c.enforceMonotonicSequence && Outrun(s.entries, r) {
      var id: nat :| id < |s.entries| && Admitted(s.entries[id]) && OfSession(s.entries[id].request, r)
                     && s.entries[id].request.sequenceNo >= r.sequenceNo;
      assert IsRemembered(c, s, s.entries[id]);
    }
  }

  lemma AdmissionRecords(c: Config, s: State, r: Request, clock: Clock)
    requires WellFormed(s) && Inv(c, s) && s.accepting
    ensures Enqueue(c, s, r, clock).latest
         == if VerdictOn(c, s, r, clock).active then s.latest[(r.model, r.sessionId) := r.sequenceNo] else s.latest
  {
    var s0 := CountSubmit(s);
    SameCoreKeepsSound(c, s, s0, FlightOf(s));
    assert Previous(c, s0, SessionOf(r)) == Previous(c, s, SessionOf(r));
    hide Sound, Inv, Previous, Unexpired, Accept;
    if !Stale(c, s, r) {
      SameVerdict(c, s, s0, r, clock);
      AcceptRecords(c, s0, r, clock);
    }
  }

  lemma AcceptRecords(c: Config, s: State, r: Request, clock: Clock)
    requires WellFormed(s) && Sound(c, s, FlightOf(s)) && !Stale(c, s, r)
    ensures Accept(c, s, r, clock).latest
         == if VerdictOn(c, s, r, clock).active then s.latest[(r.model, r.sessionId) := r.sequenceNo] else s.latest
  {
    hide Sound, Stale, Unexpired, Refused, Sweep, Active, HeapPush, AtCapacity;
    AfterExpiry(c, s, r, clock);
    SweepKeepsShape(Compact(s), Compact(s).heap, clock(0) + 1, Expired, clock(0));
  }

  /** Whether a request of the same session waits. */
  ghost predicate SomePending(es: seq<Entry>, r: Request) {
    exists id: nat | id < |es| :: es[id].active && OfSession(es[id].request, r)
  }

  /** Under coalescing a new request replaces the pending one of its session. */
  lemma PreviousExactly(c: Config, s: State, r: Request)
    requires WellFormed(s) && Inv(c, s)
    ensures forall id: nat | id < |s.entries| ::
              Previous(c, s, SessionOf(r)) == Some(id)
              <==> c.coalesceSessions && s.entries[id].active && OfSession(s.entries[id].request, r)
    ensures Previous(c, s, SessionOf(r)).None? <==> !(c.coalesceSessions && SomePending(s.entries, r))
  {
    SoundHasParts(c, s, FlightOf(s));
    assert forall id: nat | id < |s.entries| :: EntryOk(s.entries[id]);
    hide Inv, Sound;
  }

  lemma AdmissionJudgesAlike(e: Entry, superseded: bool, r: Request, clock: Clock)
    requires e.active ==> e.outcome.None?
    ensures JudgedAlike(e, AfterAdmission(e, superseded, r, clock))
  {
  }

  lemma OthersJudgedAlike(c: Config, s: State, r: Request, clock: Clock)
    requires WellFormed(s) && Inv(c, s) && s.accepting
    ensures var t := Enqueue(c, s, r, clock);
            && |t.entries| == |s.entries| + 1
            && forall id: nat | id < |s.entries| :: JudgedAlike(s.entries[id], t.entries[id])
  {
    EnqueueEffect(c, s, r, clock);
    hide WellFormed, Enqueue, AfterAdmission, VerdictOn, Previous, Stale, Inv, JudgedAlike;
    forall id: nat | id < |s.entries| ensures JudgedAlike(s.entries[id], Enqueue(c, s, r, clock).entries[id]) {
      ActiveIsOpen(c, s, id);
      AdmissionJudgesAlike(s.entries[id], Previous(c, s, SessionOf(r)) == Some(id), r, clock);
      AlwaysJudgedAlike(s.entries[id]);
    }
  }

  lemma AlwaysJudgedAlike(e: Entry)
    ensures JudgedAlike(e, e)
  {
  }

  /** One more request at the end, admitted or not; the others as they were. */
  ghost predicate Joined(c: Config, s: State, t: State, r: Request) {
    && |t.entries| == |s.entries| + 1
    && (forall id: nat | id < |s.entries| :: JudgedAlike(s.entries[id], t.entries[id]))
    && t.entries[|s.entries|].request == r
    && t.latest == (if Admitted(t.entries[|s.entries|]) then s.latest[(r.model, r.sessionId) := r.sequenceNo]
                    else s.latest)
    && (IsOutOfOrder(t.entries[|s.entries|]) <==> c.enforceMonotonicSequence && Outrun(s.entries, r))
  }

  lemma WellFormedHere(s: State)
    requires WellFormed(s)
    ensures forall k | k in s.pending :: s.pending[k] < |s.entries|
  {
  }

  lemma VerdictTells(c: Config, s: State, r: Request, clock: Clock)
    requires forall k | k in s.pending :: s.pending[k] < |s.entries|
    ensures var e := VerdictOn(c, s, r, clock);
            e.request == r && (Admitted(e) <==> e.active) && (IsOutOfOrder(e) <==> Stale(c, s, r))
  {
  }

  lemma EnqueueJoins(c: Config, s: State, r: Request, clock: Clock)
    requires WellFormed(s) && Inv(c, s) && Remembers(c, s) && s.accepting
    ensures Joined(c, s, Enqueue(c, s, r, clock), r)
  {
    WellFormedHere(s);
    EnqueueEffect(c, s, r, clock);
    OthersJudgedAlike(c, s, r, clock);
    AdmissionRecords(c, s, r, clock);
    StaleExactly(c, s, r);
    VerdictTells(c, s, r, clock);
    hide WellFormed, Inv, Remembers, Enqueue, AfterAdmission, Previous, Stale, JudgedAlike, Refused, Outrun, VerdictOn,
      Admitted, IsOutOfOrder;
  }

  lemma JoinedName(c: Config, s: State, t: State, r: Request, key: SessionKey, id: nat)
    requires Joined(c, s, t, r) && key in s.latest && Names(s, key, id)
    requires Admitted(t.entries[|s.entries|]) ==> key != (r.model, r.sessionId)
    ensures key in t.latest && Names(t, key, id)
  {
    assert JudgedAlike(s.entries[id], t.entries[id]);
    forall j: nat | id < j < |t.entries| && OfSession(t.entries[j].request, t.entries[id].request)
      ensures !Admitted(t.entries[j])
    {
      if j < |s.entries| {
        assert JudgedAlike(s.entries[j], t.entries[j]);
      }
    }
  }

  lemma JoinedRemembered(c: Config, s: State, t: State, r: Request, id: nat)
    requires Joined(c, s, t, r) && Remembers(c, s) && id < |t.entries| && Admitted(t.entries[id])
    ensures IsRemembered(c, t, t.entries[id])
  {
    if id < |s.entries| {
      assert JudgedAlike(s.entries[id], t.entries[id]);
      assert IsRemembered(c, s, s.entries[id]);
      if c.enforceMonotonicSequence && Admitted(t.entries[|s.entries|]) && OfSession(s.entries[id].request, r) {
        assert !Outrun(s.entries, r);
      }
    }
  }

  lemma JoinedRemembers(c: Config, s: State, t: State, r: Request)
    requires Joined(c, s, t, r) && Remembers(c, s)
    ensures Remembers(c, t)
  {
    var n := |s.entries|;
    forall key | key in t.latest ensures exists id: nat :: Names(t, key, id) {
      if Admitted(t.entries[n]) && key == (r.model, r.sessionId) {
        assert Names(t, key, n);
      } else {
        var id: nat :| Names(s, key, id);
        JoinedName(c, s, t, r, key, id);
      }
    }
    hide Joined, Names;
    forall id: nat | id < |t.entries| && Admitted(t.entries[id]) ensures IsRemembered(c, t, t.entries[id]) {
      JoinedRemembered(c, s, t, r, id);
    }
  }

  lemma JoinedIsJudged(c: Config, s: State, t: State, r: Request)
    requires Joined(c, s, t, r) && OrderIsJudged(c, s.entries)
    ensures OrderIsJudged(c, t.entries)
  {
    var n := |s.entries|;
    var front := t.entries[..n];
    SameVerdictsJudge(c, s.entries, front);
    SameVerdictsOutrun(s.entries, front, r);
    hide JudgedAlike, Outrun, IsOutOfOrder;
    forall id: nat | id < |t.entries|
      ensures IsOutOfOrder(t.entries[id])
         <==> c.enforceMonotonicSequence && Outrun(t.entries[..id], t.entries[id].request)
    {
      if id < n {
        assert front[id] == t.entries[id] && front[..id] == t.entries[..id];
      }
    }
  }

  lemma InitRemembers(c: Config)
    ensures Remembers(c, INIT) && OrderIsJudged(c, INIT.entries)
  {
  }

  lemma QuietStepRemembers(c: Config, s: State, r: State)
    requires Remembers(c, s) && OrderIsJudged(c, s.entries) && SameVerdicts(s, r)
    ensures Remembers(c, r) && OrderIsJudged(c, r.entries)
  {
    SameVerdictsRemember(c, s, r);
    SameVerdictsJudge(c, s.entries, r.entries);
  }

  /** In every reachable state the map is right and so is every verdict. */
  lemma {:induction false} RunRemembers(c: Config, be: Backend, events: seq<Event>)
    ensures Remembers(c, Run(c, be, events)) && OrderIsJudged(c, Run(c, be, events).entries)
  {
    if events == [] {
      InitRemembers(c);
    } else {
      var (before, e) := (events[..|events| - 1], events[|events| - 1]);
      var (s, t) := (Run(c, be, before), Run(c, be, events));
      RunRemembers(c, be, before);
      RunIsSound(c, be, before);
      assert t == Step(c, be, s, e);
      hide Run, Inv, WellFormed, Enqueue, Wake, Receive, Close, Remembers, OrderIsJudged, SameVerdicts;
      match e
      case Enqueued(r, clock) =>
        EnqueueKeepsWorker(c, s, r, clock);
        if s.accepting {
          EnqueueJoins(c, s, r, clock);
          JoinedRemembers(c, s, t, r);
          JoinedIsJudged(c, s, t, r);
        }
      case Woken(est, clock) =>
        WakeJudgesNobody(c, be, before, est, clock);
        QuietStepRemembers(c, s, t);
      case Replied(reply, clock) =>
        ReplyJudgesNobody(c, s, reply, clock);
        QuietStepRemembers(c, s, t);
      case Closed(cancelPending, now) =>
        CloseJudgesNobody(c, s, cancelPending, now);
        QuietStepRemembers(c, s, t);
      case Started =>
        SameEntriesSameVerdicts(s, t);
        QuietStepRemembers(c, s, t);
    }
  }

  /** In every run a request is out of order if and only if the check is on and an earlier request of its model and
      session was admitted with a sequence number at least as large. */
  lemma {:induction false} OutOfOrderExactly(c: Config, be: Backend, events: seq<Event>, id: nat)
    requires id < |Run(c, be, events).entries|
    ensures var es := Run(c, be, events).entries;
            IsOutOfOrder(es[id])
            <==> c.enforceMonotonicSequence
                 && exists j: nat | j < id :: Admitted(es[j]) && OfSession(es[j].request, es[id].request)
                                              && es[j].request.sequenceNo >= es[id].request.sequenceNo
  {
    var es := Run(c, be, events).entries;
    RunRemembers(c, be, events);
    hide Run, Remembers, IsOutOfOrder, Admitted;
    if j: nat :| j < id && Admitted(es[j]) && OfSession(es[j].request, es[id].request)
                 && es[j].request.sequenceNo >= es[id].request.sequenceNo {
      assert es[..id][j] == es[j];
    }
  }

  // ---------------------------------------------------------------- the whole verdict

  /** What a call of `enqueue` makes of its request: out of order behind an admitted one of the session; overloaded
      if there is nothing to replace and the queue is full of requests that have not expired; else pending. */
  ghost function Verdict(c: Config, es: seq<Entry>, r: Request, clock: Clock): Entry {
    if c.enforceMonotonicSequence && Outrun(es, r)
    then Entry(r, false, None, Some(Outcome(OutOfOrder, None, None, clock(0), None)))
    else if !(c.coalesceSessions && SomePending(es, r)) && c.maxPending.Some?
            && Unexpired(es, clock(0)) >= c.maxPending.value
    then Entry(r, false, None, Some(Outcome(Overloaded, None, None, clock(1), None)))
    else Entry(r, true, None, None)
  }

  /** What it makes of an older request: an expired one expires; under coalescing a pending one of the session is
      replaced, naming its successor. */
  function OlderRequest(c: Config, e: Entry, r: Request, clock: Clock): Entry {
    if !e.active then e
    else if e.request.deadlineNs <= clock(0)
    then Entry(e.request, false, None, Some(Outcome(Expired, None, None, clock(0), None)))
    else if c.coalesceSessions && OfSession(e.request, r)
    then Entry(e.request, false, None, Some(Outcome(Replaced, None, None, clock(1), Some(r.requestId))))
    else e
  }

  lemma OlderRequestExactly(c: Config, s: State, r: Request, clock: Clock, id: nat)
    requires WellFormed(s) && Inv(c, s) && id < |s.entries|
    ensures AfterAdmission(s.entries[id], Previous(c, s, SessionOf(r)) == Some(id), r, clock)
         == OlderRequest(c, s.entries[id], r, clock)
  {
    PreviousExactly(c, s, r);
    hide WellFormed, Inv, Previous;
  }

  /** The exact effect of one call of `enqueue` in any run, told from the requests: the verdict on the new one, and
      what becomes of every older one. */
  lemma {:induction false} EnqueueVerdict(c: Config, be: Backend, events: seq<Event>, r: Request, clock: Clock)
    requires Run(c, be, events).accepting
    ensures var (s, t) := (Run(c, be, events), Enqueue(c, Run(c, be, events), r, clock));
            && |t.entries| == |s.entries| + 1
            && t.entries[|s.entries|] == Verdict(c, s.entries, r, clock)
            && (forall id: nat | id < |s.entries| ::
                  t.entries[id] == if c.enforceMonotonicSequence && Outrun(s.entries, r) then s.entries[id]
                  else OlderRequest(c, s.entries[id], r, clock))
  {
    var s := Run(c, be, events);
    RunIsSound(c, be, events);
    RunRemembers(c, be, events);
    EnqueueEffect(c, s, r, clock);
    StaleExactly(c, s, r);
    PreviousExactly(c, s, r);
    hide Run, Inv, WellFormed, Remembers, Enqueue, AfterAdmission, OlderRequest, Previous, Stale, Outrun, SomePending,
      Unexpired, OrderIsJudged;
    forall id: nat | id < |s.entries|
      ensures AfterAdmission(s.entries[id], Previous(c, s, SessionOf(r)) == Some(id), r, clock)
           == OlderRequest(c, s.entries[id], r, clock)
    {
      OlderRequestExactly(c, s, r, clock, id);
    }
  }

  // ---------------------------------------------------------------- a new start

  lemma {:induction false} NobodyUnexpired(es: seq<Entry>, now: int)
    requires forall id: nat | id < |es| :: !es[id].active
    ensures Unexpired(es, now) == 0
  {
    if es != [] {
      NobodyUnexpired(es[..|es| - 1], now);
    }
  }

  /** A scheduler that is started again after its worker has returned keeps all outcomes and admits the next request,
      unless its session had already been admitted that far. */
  lemma {:induction false} RestartAdmits(c: Config, be: Backend, events: seq<Event>, r: Request, clock: Clock)
    requires c.Valid() && Run(c, be, events).worker.Returned?
    ensures var (s, t) := (Run(c, be, events), Run(c, be, events + [Started]));
            && t.entries == s.entries && t.accepting && t.worker == Waiting(None)
            && (Enqueue(c, t, r, clock).entries == s.entries + [Entry(r, true, None, None)]
                <==> !(c.enforceMonotonicSequence && Outrun(s.entries, r)))
  {
    var s := Run(c, be, events);
    RunIsSound(c, be, events);
    RunStep(c, be, events, Started);
    hide Run, Inv, WellFormed, Enqueue, Outrun, SomePending;
    ReturnedResolvesAll(c, s);
    NobodyUnexpired(s.entries, clock(0));
    EnqueueVerdict(c, be, events + [Started], r, clock);
    var t := Run(c, be, events + [Started]);
    forall id: nat | id < |s.entries| ensures Enqueue(c, t, r, clock).entries[id] == s.entries[id] {
      assert !s.entries[id].active;
    }
  }

  // ---------------------------------------------------------------- the newest request of a session

  lemma AdmittedInOrder(c: Config, es: seq<Entry>, i: nat, j: nat)
    requires OrderIsJudged(c, es) && c.enforceMonotonicSequence && i < j < |es|
    requires Admitted(es[i]) && Admitted(es[j]) && OfSession(es[i].request, es[j].request)
    ensures es[i].request.sequenceNo < es[j].request.sequenceNo
  {
    assert !Outrun(es[..j], es[j].request);
    assert es[..j][i] == es[i];
  }

  lemma LatestIsNewest(c: Config, s: State, id: nat, other: nat)
    requires Remembers(c, s) && OrderIsJudged(c, s.entries) && c.enforceMonotonicSequence
    requires id < |s.entries| && other < |s.entries| && other != id && Admitted(s.entries[id]) && IsLatest(s, id)
    requires Admitted(s.entries[other]) && OfSession(s.entries[other].request, s.entries[id].request)
    ensures s.entries[other].request.sequenceNo < s.entries[id].request.sequenceNo
  {
    assert IsRemembered(c, s, s.entries[other]);
    if other < id {
      AdmittedInOrder(c, s.entries, other, id);
    } else {
      AdmittedInOrder(c, s.entries, id, other);
    }
  }

  lemma InFlightIsAdmitted(c: Config, s: State, i: nat)
    requires Inv(c, s) && s.worker.Executing? && i < |s.worker.batch|
    ensures s.worker.batch[i] < |s.entries| && Admitted(s.entries[s.worker.batch[i]])
  {
    BatchIsOpen(c, s);
    hide Inv;
    assert s.entries[s.worker.batch[i]].outcome.None?;
  }

  /** In every run with the check and with coalescing, or with room for one, a request that is handed to the backend
      is ahead of every other request of its model and session that was ever admitted. */
  lemma {:induction false} DispatchedIsNewest(c: Config, be: Backend, events: seq<Event>, est: Predictor, clock: Clock,
                                              i: nat, other: nat)
    requires c.enforceMonotonicSequence && (c.coalesceSessions || c.maxPending == Some(1))
    requires Run(c, be, events).worker.Waiting?
    requires var r := Wake(c, be, Run(c, be, events), est, clock);
             && r.worker.Executing? && i < |r.worker.batch| && other < |r.entries| && other != r.worker.batch[i]
             && Admitted(r.entries[other])
    ensures var r := Wake(c, be, Run(c, be, events), est, clock);
            var id := r.worker.batch[i];
            && id < |r.entries|
            && (OfSession(r.entries[other].request, r.entries[id].request) ==>
                  r.entries[other].request.sequenceNo < r.entries[id].request.sequenceNo)
  {
    var s := Run(c, be, events);
    var r := Wake(c, be, s, est, clock);
    RunIsSound(c, be, events);
    RunIsSound(c, be, events + [Woken(est, clock)]);
    RunRemembers(c, be, events + [Woken(est, clock)]);
    RunStep(c, be, events, Woken(est, clock));
    hide Run, Inv, WellFormed, Wake, Remembers, OrderIsJudged, IsLatest, Admitted, OfSession, SameSession;
    DispatchedBatchIsFresh(c, be, s, est, clock);
    InFlightIsAdmitted(c, r, i);
    if OfSession(r.entries[other].request, r.entries[r.worker.batch[i]].request) {
      LatestIsNewest(c, r, r.worker.batch[i], other);
    }
  }
}
