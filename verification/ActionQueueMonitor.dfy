/** The action queue as a monitor: callers that sleep on its condition variable, and the refill slot. */
module ActionQueueMonitor {
  import opened Types
  import opened ActionQueue

  /** Sleepers wait for a notification; woken callers have yet to look again.  `claims` and `finishes` count
      the refills that were claimed and released. */
  datatype Monitor = Monitor(
    queue: Queue,
    getters: set<nat>,
    refillers: set<nat>,
    woken: set<nat>,
    claims: nat,
    finishes: nat)

  const START := Monitor(FRESH, {}, {}, {}, 0, 0)

  /** One section of one caller.  `Get` and `Refill` are the first or a later pass of a wait loop. */
  datatype Call =
    | PutCall(chunk: ActionChunk)
    | FinishCall(result: Option<ActionChunk>)
    | GetNowCall
    | CloseCall
    | Get(caller: nat)
    | GetTimeout(caller: nat)
    | Refill(caller: nat)

  /** `notify_all`. */
  function Notify(m: Monitor): Monitor {
    m.(getters := {}, refillers := {}, woken := m.woken + m.getters + m.refillers)
  }

  function Resume(m: Monitor, caller: nat): Monitor {
    m.(woken := m.woken - {caller})
  }

  /** Whether finishing a refill raises, which leaves the slot taken. */
  predicate FinishRaises(q: Queue, result: Option<ActionChunk>) {
    result.Some? && q.closed
  }

  function Act(c: QueueConfig, m: Monitor, call: Call): Monitor {
    var q := m.queue;
    match call
    case PutCall(chunk) => if q.closed then m else Notify(m.(queue := Put(c, q, chunk)))
    case FinishCall(result) =>
      if FinishRaises(q, result) then m
      else Notify(m.(queue := FinishRefill(c, q, result), finishes := m.finishes + 1))
    case GetNowCall => if q.actions != [] then Notify(m.(queue := Pop(q))) else m.(queue := GetNowait(q))
    case CloseCall => Notify(m.(queue := q.(closed := true)))
    case Get(caller) =>
      if q.actions != [] then Notify(Resume(m, caller).(queue := Pop(q)))
      else if q.closed then Resume(m, caller)
      else Resume(m, caller).(getters := m.getters + {caller})
    case GetTimeout(caller) => Resume(m, caller).(getters := m.getters - {caller}, queue := Underrun(q))
    case Refill(caller) =>
      if NeedsRefill(c, q) then Resume(m, caller).(queue := Claim(q), claims := m.claims + 1)
      else if q.closed then Resume(m, caller)
      else Resume(m, caller).(refillers := m.refillers + {caller})
  }

  function RunCalls(c: QueueConfig, calls: seq<Call>): Monitor {
    if calls == [] then START else Act(c, RunCalls(c, calls[..|calls| - 1]), calls[|calls| - 1])
  }

  /** Nobody sleeps who could go on. */
  ghost predicate Attentive(c: QueueConfig, m: Monitor) {
    && (m.getters != {} ==> m.queue.actions == [] && !m.queue.closed)
    && (m.refillers != {} ==> !m.queue.closed && (m.queue.refillInflight || |m.queue.actions| > c.lowWatermark))
  }

  lemma {:induction false} NoLostWakeups(c: QueueConfig, calls: seq<Call>)
    ensures Attentive(c, RunCalls(c, calls))
  {
    if calls != [] {
      hide Act, Attentive;
      NoLostWakeups(c, calls[..|calls| - 1]);
      ActIsAttentive(c, RunCalls(c, calls[..|calls| - 1]), calls[|calls| - 1]);
    }
  }

  lemma ActIsAttentive(c: QueueConfig, m: Monitor, call: Call)
    requires Attentive(c, m)
    ensures Attentive(c, Act(c, m, call))
  {
    hide PutOpen;
  }

  /** Whether the last pass of a caller through a wait loop found that it has to wait, with no timeout since. */
  ghost predicate Waits(c: QueueConfig, calls: seq<Call>, caller: nat) {
    calls != []
    && var (before, last) := (calls[..|calls| - 1], calls[|calls| - 1]);
    var q := RunCalls(c, before).queue;
    match last
    case Get(k) => if k == caller then q.actions == [] && !q.closed else Waits(c, before, caller)
    case Refill(k) =>
      if k == caller then !q.closed && (q.refillInflight || |q.actions| > c.lowWatermark) else Waits(c, before, caller)
    case GetTimeout(k) => k != caller && Waits(c, before, caller)
    case _ => Waits(c, before, caller)
  }

  ghost predicate Known(m: Monitor, caller: nat) {
    caller in m.getters || caller in m.refillers || caller in m.woken
  }

  lemma ActKeepsKnown(c: QueueConfig, m: Monitor, call: Call, caller: nat)
    requires Known(m, caller)
    requires call.Get? || call.Refill? || call.GetTimeout? ==> call.caller != caller
    ensures Known(Act(c, m, call), caller)
  {
    hide PutOpen, Pop, NeedsRefill;
  }

  /** In every run a caller that has to wait either sleeps still or has been woken and is about to look again. */
  lemma {:induction false} WaitersAreKnown(c: QueueConfig, calls: seq<Call>, caller: nat)
    requires Waits(c, calls, caller)
    ensures Known(RunCalls(c, calls), caller)
  {
    var (before, last) := (calls[..|calls| - 1], calls[|calls| - 1]);
    if (last.Get? || last.Refill?) && last.caller == caller {
      assert Known(Act(c, RunCalls(c, before), last), caller);
    } else {
      hide Act, Known;
      WaitersAreKnown(c, before, caller);
      ActKeepsKnown(c, RunCalls(c, before), last, caller);
    }
  }

  lemma ActIsASection(c: QueueConfig, m: Monitor, call: Call)
    ensures Act(c, m, call).queue
         == if SectionOf(c, m, call).Some? then Step(c, m.queue, SectionOf(c, m, call).value) else m.queue
  {
    hide PutOpen, Pop, NeedsRefill;
  }

  /** Every run of the monitor is, for the queue, a run of its sections: so the trace specification and the
      counters hold in it as well. */
  lemma {:induction false} MonitorRunsAreQueueRuns(c: QueueConfig, calls: seq<Call>) returns (sections: seq<Section>)
    ensures RunCalls(c, calls).queue == Run(c, sections)
  {
    if calls == [] {
      sections := [];
    } else {
      hide Act, Step, SectionOf;
      var before := MonitorRunsAreQueueRuns(c, calls[..|calls| - 1]);
      var m := RunCalls(c, calls[..|calls| - 1]);
      var section := SectionOf(c, m, calls[|calls| - 1]);
      ActIsASection(c, m, calls[|calls| - 1]);
      if section.Some? {
        sections := before + [section.value];
        assert sections[..|sections| - 1] == before;
      } else {
        sections := before;
      }
    }
  }

  function SectionOf(c: QueueConfig, m: Monitor, call: Call): Option<Section> {
    match call
    case PutCall(chunk) => Some(Publishing(chunk))
    case FinishCall(result) => Some(Finishing(result))
    case GetNowCall => Some(Taking)
    case CloseCall => Some(Closing)
    case Get(_) => if m.queue.actions != [] then Some(Taking) else None
    case GetTimeout(_) => Some(Missing)
    case Refill(_) => Some(Claiming)
  }

  // ---------------------------------------------------------------- the refill slot

  /** The slot is taken exactly while one claim is unfinished. */
  ghost predicate OneSlot(m: Monitor) {
    m.claims == m.finishes + if m.queue.refillInflight then 1 else 0
  }

  /** A caller that finishes a refill which nobody holds. */
  ghost predicate Stray(c: QueueConfig, m: Monitor, call: Call) {
    call.FinishCall? && !FinishRaises(m.queue, call.result) && m.claims <= m.finishes
  }

  ghost predicate NoneStray(c: QueueConfig, calls: seq<Call>) {
    forall k | 0 <= k < |calls| :: !Stray(c, RunCalls(c, calls[..k]), calls[k])
  }

  lemma ActKeepsOneSlot(c: QueueConfig, m: Monitor, call: Call)
    requires OneSlot(m)
    ensures OneSlot(Act(c, m, call)) <==> !Stray(c, m, call)
  {
  }

  lemma {:induction false} HeldSlot(c: QueueConfig, calls: seq<Call>)
    requires NoneStray(c, calls)
    ensures OneSlot(RunCalls(c, calls))
  {
    if calls != [] {
      var front := calls[..|calls| - 1];
      assert forall k | 0 <= k < |front| :: front[..k] == calls[..k];
      HeldSlot(c, front);
      ActKeepsOneSlot(c, RunCalls(c, front), calls[|calls| - 1]);
    }
  }

  /** Claims minus finishes is 0 or 1 and says whether the slot is taken, throughout a run, if and only if no
      caller finishes a refill that nobody holds. */
  lemma {:induction false} OneSlotExactly(c: QueueConfig, calls: seq<Call>)
    ensures (forall k | 0 <= k <= |calls| :: OneSlot(RunCalls(c, calls[..k]))) <==> NoneStray(c, calls)
  {
    hide Act, OneSlot, Stray;
    if NoneStray(c, calls) {
      forall k | 0 <= k <= |calls| ensures OneSlot(RunCalls(c, calls[..k])) {
        FrontsAreNotStray(c, calls, k);
        HeldSlot(c, calls[..k]);
      }
    } else {
      var k :| 0 <= k < |calls| && Stray(c, RunCalls(c, calls[..k]), calls[k]);
      OneMoreCall(c, calls, k);
      if OneSlot(RunCalls(c, calls[..k])) {
        ActKeepsOneSlot(c, RunCalls(c, calls[..k]), calls[k]);
        assert !OneSlot(RunCalls(c, calls[..k + 1]));
      }
    }
  }

  lemma FrontsAreNotStray(c: QueueConfig, calls: seq<Call>, k: nat)
    requires NoneStray(c, calls) && k <= |calls|
    ensures NoneStray(c, calls[..k])
  {
    hide RunCalls, Stray;
    assert forall j | 0 <= j < k :: calls[..k][..j] == calls[..j];
  }

  lemma OneMoreCall(c: QueueConfig, calls: seq<Call>, k: nat)
    requires k < |calls|
    ensures RunCalls(c, calls[..k + 1]) == Act(c, RunCalls(c, calls[..k]), calls[k])
  {
    hide Act;
    assert calls[..k + 1][..k] == calls[..k];
  }
}
