/** The asynchronous action queue of one robot session: its locked sections as functions on values, and the
    trace that they promise. */
module ActionQueue {
  import opened Types

  datatype Handoff = Replace | Append

  datatype QueueConfig = QueueConfig(sessionId: string, model: string, lowWatermark: nat, policy: Handoff)

  datatype QueuedAction = QueuedAction(
    action: Action,
    requestId: string,
    sessionId: string,
    model: string,
    sequenceNo: int,
    chunkIndex: nat,
    chunkSize: nat,
    generatedNs: int)

  /** `history` lists the accepted chunks and `trace` the served actions; the queue itself keeps neither. */
  datatype Queue = Queue(
    actions: seq<QueuedAction>,
    latest: Option<int>,
    refillInflight: bool,
    closed: bool,
    accepted: nat,
    rejected: nat,
    served: nat,
    replaced: nat,
    underruns: nat,
    history: seq<ActionChunk>,
    trace: seq<QueuedAction>)

  const FRESH := Queue([], None, false, false, 0, 0, 0, 0, 0, [], [])

  datatype QueueError = Closed | Empty

  // ---------------------------------------------------------------- the locked sections

  function Item(chunk: ActionChunk, i: nat): QueuedAction
    requires i < |chunk.actions|
  {
    QueuedAction(chunk.actions[i], chunk.requestId, chunk.sessionId, chunk.model, chunk.sequenceNo, i,
                 |chunk.actions|, chunk.generatedNs)
  }

  /** The queued form of a chunk: one item per action, in order. */
  function Items(chunk: ActionChunk): (r: seq<QueuedAction>)
    ensures |r| == |chunk.actions| && forall i | 0 <= i < |r| :: r[i] == Item(chunk, i)
  {
    seq(|chunk.actions|, i requires 0 <= i < |chunk.actions| => Item(chunk, i))
  }

  predicate NeedsRefill(c: QueueConfig, q: Queue) {
    !q.closed && !q.refillInflight && |q.actions| <= c.lowWatermark
  }

  predicate Routed(c: QueueConfig, chunk: ActionChunk) {
    chunk.sessionId == c.sessionId && chunk.model == c.model
  }

  predicate Newer(q: Queue, chunk: ActionChunk) {
    q.latest.None? || chunk.sequenceNo > q.latest.value
  }

  predicate Accepts(c: QueueConfig, q: Queue, chunk: ActionChunk) {
    Routed(c, chunk) && Newer(q, chunk) && chunk.actions != []
  }

  /** `_put_locked` on an open queue. */
  function PutOpen(c: QueueConfig, q: Queue, chunk: ActionChunk): Queue {
    if !Accepts(c, q, chunk) then q.(rejected := q.rejected + 1)
    else
      var kept := if c.policy.Replace? then [] else q.actions;
      q.(actions := kept + Items(chunk),
      replaced := q.replaced + |q.actions| - |kept|,
      latest := Some(chunk.sequenceNo),
      accepted := q.accepted + 1,
      history := q.history + [chunk])
  }

  /** `put`; on a closed queue it raises and changes nothing. */
  function Put(c: QueueConfig, q: Queue, chunk: ActionChunk): Queue {
    if q.closed then q else PutOpen(c, q, chunk)
  }

  /** `finish_refill`; publishing to a closed queue raises before the slot is released. */
  function FinishRefill(c: QueueConfig, q: Queue, chunk: Option<ActionChunk>): Queue {
    if chunk.None? then q.(refillInflight := false)
    else if q.closed then q
    else PutOpen(c, q, chunk.value).(refillInflight := false)
  }

  function Claim(q: Queue): Queue {
    q.(refillInflight := true)
  }

  /** `_pop_locked`. */
  function Pop(q: Queue): Queue
    requires q.actions != []
  {
    q.(actions := q.actions[1..], served := q.served + 1, trace := q.trace + [q.actions[0]])
  }

  function Underrun(q: Queue): Queue {
    q.(underruns := q.underruns + 1)
  }

  /** `get_nowait`. */
  function GetNowait(q: Queue): Queue {
    if q.actions != [] then Pop(q) else if q.closed then q else Underrun(q)
  }

  // ---------------------------------------------------------------- runs

  /** One locked section: of a caller that publishes, finishes or claims a refill (an unsuccessful claim
      changes nothing), takes an action, gives up waiting, or closes the queue. */
  datatype Section =
    | Publishing(chunk: ActionChunk)
    | Finishing(result: Option<ActionChunk>)
    | Claiming
    | Taking
    | Missing
    | Closing

  function Step(c: QueueConfig, q: Queue, section: Section): Queue {
    match section
    case Publishing(chunk) => Put(c, q, chunk)
    case Finishing(result) => FinishRefill(c, q, result)
    case Claiming => if NeedsRefill(c, q) then Claim(q) else q
    case Taking => GetNowait(q)
    case Missing => Underrun(q)
    case Closing => q.(closed := true)
  }

  function Run(c: QueueConfig, sections: seq<Section>): Queue {
    if sections == [] then FRESH
    else Step(c, Run(c, sections[..|sections| - 1]), sections[|sections| - 1])
  }

  // ---------------------------------------------------------------- what became of each chunk

  /** The first `served` actions of the chunk were handed out; the others wait, or were replaced. */
  datatype LaneRecord = LaneRecord(chunk: ActionChunk, served: nat, dropped: bool)

  type Lane = l: LaneRecord | l.served <= |l.chunk.actions|
    witness LaneRecord(ActionChunk("", "", "", 0, [], 0), 0, false)

  function Served(lane: Lane): seq<QueuedAction> {
    Items(lane.chunk)[..lane.served]
  }

  function Left(lane: Lane): seq<QueuedAction> {
    if lane.dropped then [] else Items(lane.chunk)[lane.served..]
  }

  function Lost(lane: Lane): nat {
    if lane.dropped then |lane.chunk.actions| - lane.served else 0
  }

  function ServedOf(lanes: seq<Lane>): seq<QueuedAction> {
    if lanes == [] then [] else Served(lanes[0]) + ServedOf(lanes[1..])
  }

  function LeftOf(lanes: seq<Lane>): seq<QueuedAction> {
    if lanes == [] then [] else Left(lanes[0]) + LeftOf(lanes[1..])
  }

  function LostOf(lanes: seq<Lane>): nat {
    if lanes == [] then 0 else Lost(lanes[0]) + LostOf(lanes[1..])
  }

  function ChunksOf(lanes: seq<Lane>): (r: seq<ActionChunk>)
    ensures |r| == |lanes| && forall i | 0 <= i < |lanes| :: r[i] == lanes[i].chunk
  {
    seq(|lanes|, i requires 0 <= i < |lanes| => lanes[i].chunk)
  }

  ghost predicate Spent(lanes: seq<Lane>) {
    forall i | 0 <= i < |lanes| :: Left(lanes[i]) == []
  }

  ghost predicate Untouched(lanes: seq<Lane>) {
    forall i | 0 <= i < |lanes| :: lanes[i].served == 0
  }

  ghost predicate NoneDropped(lanes: seq<Lane>) {
    forall i | 0 <= i < |lanes| :: !lanes[i].dropped
  }

  /** The lanes up to position k have nothing left and those after it have given nothing yet. */
  ghost predicate Turn(lanes: seq<Lane>, k: nat) {
    k <= |lanes| && Spent(lanes[..k]) && (k < |lanes| ==> Untouched(lanes[k + 1..]))
  }

  /** The trace specification: each accepted chunk, in accepted order, handed out a prefix of its actions and
      the served actions are the concatenation of these prefixes; what waits is the concatenation of the
      remainders; chunks are used up strictly one after another.  Under `append` nothing is replaced; under
      `replace` only the last chunk has anything left. */
  ghost predicate Explains(c: QueueConfig, q: Queue, lanes: seq<Lane>, k: nat) {
    && Turn(lanes, k)
    && ChunksOf(lanes) == q.history
    && ServedOf(lanes) == q.trace
    && LeftOf(lanes) == q.actions
    && LostOf(lanes) == q.replaced
    && (c.policy.Append? ==> NoneDropped(lanes))
    && (c.policy.Replace? ==> k + 1 >= |lanes|)
  }

  // ---------------------------------------------------------------- the robot's actions themselves

  function ActionsOf(s: seq<QueuedAction>): (r: seq<Action>)
    ensures |r| == |s| && forall i | 0 <= i < |s| :: r[i] == s[i].action
  {
    seq(|s|, i requires 0 <= i < |s| => s[i].action)
  }

  /** What was handed out: the first so-and-so many actions of each chunk, chunk after chunk. */
  function GivenOf(lanes: seq<Lane>): seq<Action> {
    if lanes == [] then [] else lanes[0].chunk.actions[..lanes[0].served] + GivenOf(lanes[1..])
  }

  /** What waits: the rest of each chunk that was not replaced, chunk after chunk. */
  function WaitingOf(lanes: seq<Lane>): seq<Action> {
    if lanes == [] then []
    else (if lanes[0].dropped then [] else lanes[0].chunk.actions[lanes[0].served..]) + WaitingOf(lanes[1..])
  }

  lemma ActionsConcat(a: seq<QueuedAction>, b: seq<QueuedAction>)
    ensures ActionsOf(a + b) == ActionsOf(a) + ActionsOf(b)
  {
  }

  lemma LaneActions(lane: Lane)
    ensures ActionsOf(Served(lane)) == lane.chunk.actions[..lane.served]
    ensures ActionsOf(Left(lane)) == if lane.dropped then [] else lane.chunk.actions[lane.served..]
  {
  }

  lemma {:induction false} LanesTellActions(lanes: seq<Lane>)
    ensures ActionsOf(ServedOf(lanes)) == GivenOf(lanes) && ActionsOf(LeftOf(lanes)) == WaitingOf(lanes)
  {
    if lanes != [] {
      LaneActions(lanes[0]);
      LanesTellActions(lanes[1..]);
      ActionsConcat(Served(lanes[0]), ServedOf(lanes[1..]));
      ActionsConcat(Left(lanes[0]), LeftOf(lanes[1..]));
    }
  }

  lemma Associate(a: seq<QueuedAction>, b: seq<QueuedAction>, c: seq<QueuedAction>)
    ensures a + (b + c) == (a + b) + c
  {
  }

  lemma {:induction false} LanesAppend(a: seq<Lane>, b: seq<Lane>)
    ensures ServedOf(a + b) == ServedOf(a) + ServedOf(b)
    ensures LeftOf(a + b) == LeftOf(a) + LeftOf(b)
    ensures LostOf(a + b) == LostOf(a) + LostOf(b)
  {
    hide Served, Left, Lost;
    if a == [] {
      assert a + b == b;
    } else {
      var rest := a[1..];
      assert (a + b)[1..] == rest + b && (a + b)[0] == a[0];
      LanesAppend(rest, b);
      Associate(Served(a[0]), ServedOf(rest), ServedOf(b));
      Associate(Left(a[0]), LeftOf(rest), LeftOf(b));
    }
  }

  lemma {:induction false} SpentHaveNothingLeft(lanes: seq<Lane>)
    requires Spent(lanes)
    ensures LeftOf(lanes) == []
  {
    hide Left;
    if lanes != [] {
      SpentHaveNothingLeft(lanes[1..]);
    }
  }

  lemma {:induction false} UntouchedServeNothing(lanes: seq<Lane>)
    requires Untouched(lanes)
    ensures ServedOf(lanes) == []
  {
    if lanes != [] {
      UntouchedServeNothing(lanes[1..]);
    }
  }

  // ---------------------------------------------------------------- accepting a chunk

  function Dropped(lane: Lane): Lane {
    lane.(dropped := true)
  }

  function DropAll(lanes: seq<Lane>): (r: seq<Lane>)
    ensures |r| == |lanes| && forall i | 0 <= i < |lanes| :: r[i] == Dropped(lanes[i])
  {
    seq(|lanes|, i requires 0 <= i < |lanes| => Dropped(lanes[i]))
  }

  lemma {:induction false} DropEffect(lanes: seq<Lane>)
    ensures Spent(DropAll(lanes)) && ChunksOf(DropAll(lanes)) == ChunksOf(lanes)
    ensures ServedOf(DropAll(lanes)) == ServedOf(lanes) && LeftOf(DropAll(lanes)) == []
    ensures LostOf(DropAll(lanes)) == LostOf(lanes) + |LeftOf(lanes)|
  {
    if lanes != [] {
      hide Items;
      DropEffect(lanes[1..]);
      assert DropAll(lanes)[1..] == DropAll(lanes[1..]);
    }
  }

  lemma NewLane(chunk: ActionChunk)
    ensures ServedOf([LaneRecord(chunk, 0, false)]) == [] && LostOf([LaneRecord(chunk, 0, false)]) == 0
    ensures LeftOf([LaneRecord(chunk, 0, false)]) == Items(chunk)
  {
  }

  lemma TurnGrows(lanes: seq<Lane>, k: nat, chunk: ActionChunk)
    requires Turn(lanes, k)
    ensures Turn(lanes + [LaneRecord(chunk, 0, false)], k)
  {
    hide Left;
    var lane: Lane := LaneRecord(chunk, 0, false);
    assert (lanes + [lane])[..k] == lanes[..k];
    if k < |lanes| {
      assert (lanes + [lane])[k + 1..] == lanes[k + 1..] + [lane];
    }
  }

  lemma AcceptIsExplained(c: QueueConfig, q: Queue, chunk: ActionChunk, lanes: seq<Lane>, k: nat)
    returns (lanes': seq<Lane>, k': nat)
    requires Explains(c, q, lanes, k) && Accepts(c, q, chunk)
    ensures Explains(c, PutOpen(c, q, chunk), lanes', k')
  {
    hide ServedOf, LeftOf, LostOf, Left, Turn;
    var kept, at := lanes, k;
    if c.policy.Replace? {
      DropEffect(lanes);
      kept, at := DropAll(lanes), |lanes|;
      SpentTurn(kept);
    }
    NewLane(chunk);
    TurnGrows(kept, at, chunk);
    lanes', k' := kept + [LaneRecord(chunk, 0, false)], at;
    LanesAppend(kept, [LaneRecord(chunk, 0, false)]);
  }

  lemma SpentTurn(lanes: seq<Lane>)
    requires Spent(lanes)
    ensures Turn(lanes, |lanes|)
  {
    assert lanes[..|lanes|] == lanes;
  }

  // ---------------------------------------------------------------- taking an action

  lemma SplitLanes(lanes: seq<Lane>, k: nat)
    requires k < |lanes|
    ensures ServedOf(lanes) == ServedOf(lanes[..k]) + (Served(lanes[k]) + ServedOf(lanes[k + 1..]))
    ensures LeftOf(lanes) == LeftOf(lanes[..k]) + (Left(lanes[k]) + LeftOf(lanes[k + 1..]))
    ensures LostOf(lanes) == LostOf(lanes[..k]) + Lost(lanes[k]) + LostOf(lanes[k + 1..])
  {
    hide Served, Left, Lost;
    assert lanes == lanes[..k] + lanes[k..];
    LanesAppend(lanes[..k], lanes[k..]);
    assert lanes[k..][1..] == lanes[k + 1..];
  }

  function Serve(lane: Lane): Lane
    requires Left(lane) != []
  {
    lane.(served := lane.served + 1)
  }

  lemma ServeOne(lane: Lane)
    requires Left(lane) != []
    ensures Served(Serve(lane)) == Served(lane) + [Left(lane)[0]]
    ensures Left(Serve(lane)) == Left(lane)[1..] && Lost(Serve(lane)) == Lost(lane)
  {
    hide Item;
  }

  lemma ServeEffect(lanes: seq<Lane>, k: nat)
    requires Turn(lanes, k) && k < |lanes| && Left(lanes[k]) != []
    ensures LeftOf(lanes) != []
    ensures ServedOf(lanes[k := Serve(lanes[k])]) == ServedOf(lanes) + [LeftOf(lanes)[0]]
    ensures LeftOf(lanes[k := Serve(lanes[k])]) == LeftOf(lanes)[1..]
    ensures LostOf(lanes[k := Serve(lanes[k])]) == LostOf(lanes)
  {
    hide Served, Left, Lost, ServedOf, LeftOf, LostOf, Serve;
    var r := lanes[k := Serve(lanes[k])];
    ServeOne(lanes[k]);
    SplitLanes(lanes, k);
    SplitLanes(r, k);
    assert r[..k] == lanes[..k] && r[k + 1..] == lanes[k + 1..];
    SpentHaveNothingLeft(lanes[..k]);
    UntouchedServeNothing(lanes[k + 1..]);
  }

  /** The turn passes on while the lane whose turn it is has nothing left. */
  lemma {:induction false} NextTurn(lanes: seq<Lane>, k: nat) returns (k': nat)
    requires Turn(lanes, k) && LeftOf(lanes) != []
    ensures k <= k' < |lanes| && Turn(lanes, k') && Left(lanes[k']) != []
    decreases |lanes| - k
  {
    hide Left, LeftOf;
    if k == |lanes| {
      assert lanes[..k] == lanes;
      SpentHaveNothingLeft(lanes);
      k' := k;
    } else if Left(lanes[k]) != [] {
      k' := k;
    } else {
      assert lanes[..k + 1] == lanes[..k] + [lanes[k]];
      assert k + 1 < |lanes| ==> lanes[k + 2..] == lanes[k + 1..][1..];
      k' := NextTurn(lanes, k + 1);
    }
  }

  lemma PopIsExplained(c: QueueConfig, q: Queue, lanes: seq<Lane>, k: nat) returns (lanes': seq<Lane>, k': nat)
    requires Explains(c, q, lanes, k) && q.actions != []
    ensures Explains(c, Pop(q), lanes', k')
  {
    hide ServedOf, LeftOf, LostOf, Left, Turn;
    k' := NextTurn(lanes, k);
    ServeEffect(lanes, k');
    ServeKeepsTurn(lanes, k');
    lanes' := lanes[k' := Serve(lanes[k'])];
  }

  lemma ServeKeepsTurn(lanes: seq<Lane>, k: nat)
    requires Turn(lanes, k) && k < |lanes| && Left(lanes[k]) != []
    ensures Turn(lanes[k := Serve(lanes[k])], k)
  {
    hide Left;
    var r := lanes[k := Serve(lanes[k])];
    assert r[..k] == lanes[..k] && r[k + 1..] == lanes[k + 1..];
  }

  lemma {:induction false} RunIsExplained(c: QueueConfig, sections: seq<Section>) returns (lanes: seq<Lane>, k: nat)
    ensures Explains(c, Run(c, sections), lanes, k)
  {
    if sections == [] {
      lanes, k := [], 0;
    } else {
      lanes, k := RunIsExplained(c, sections[..|sections| - 1]);
      lanes, k := StepIsExplained(c, Run(c, sections[..|sections| - 1]), sections[|sections| - 1], lanes, k);
    }
  }

  /** The trace specification holds after every run, and of the actions themselves: the robot got a prefix of each
      accepted chunk, in accepted order, and what waits are the remainders. */
  lemma {:induction false} TraceIsExplained(c: QueueConfig, sections: seq<Section>) returns (lanes: seq<Lane>, k: nat)
    ensures Explains(c, Run(c, sections), lanes, k)
    ensures ActionsOf(Run(c, sections).trace) == GivenOf(lanes)
    ensures ActionsOf(Run(c, sections).actions) == WaitingOf(lanes)
  {
    lanes, k := RunIsExplained(c, sections);
    hide Run, ServedOf, LeftOf, GivenOf, WaitingOf;
    LanesTellActions(lanes);
  }

  lemma StepIsExplained(c: QueueConfig, q: Queue, section: Section, lanes: seq<Lane>, k: nat)
    returns (lanes': seq<Lane>, k': nat)
    requires Explains(c, q, lanes, k)
    ensures Explains(c, Step(c, q, section), lanes', k')
  {
    lanes', k' := lanes, k;
    match section
    case Publishing(chunk) =>
      if !q.closed && Accepts(c, q, chunk) {
        lanes', k' := AcceptIsExplained(c, q, chunk, lanes, k);
      }
    case Finishing(result) =>
      if result.Some? && !q.closed && Accepts(c, q, result.value) {
        lanes', k' := AcceptIsExplained(c, q, result.value, lanes, k);
      }
    case Taking =>
      if q.actions != [] {
        lanes', k' := PopIsExplained(c, q, lanes, k);
      }
    case _ =>
  }

  // ---------------------------------------------------------------- counters and order

  /** The order in which actions are meant to be executed. */
  predicate Precedes(a: QueuedAction, b: QueuedAction) {
    a.sequenceNo < b.sequenceNo || (a.sequenceNo == b.sequenceNo && a.chunkIndex < b.chunkIndex)
  }

  ghost predicate Ascending(s: seq<QueuedAction>) {
    forall i, j | 0 <= i < j < |s| :: Precedes(s[i], s[j])
  }

  function TotalActions(chunks: seq<ActionChunk>): nat {
    if chunks == [] then 0 else TotalActions(chunks[..|chunks| - 1]) + |chunks[|chunks| - 1].actions|
  }

  function AllItems(chunks: seq<ActionChunk>): seq<QueuedAction> {
    if chunks == [] then [] else AllItems(chunks[..|chunks| - 1]) + Items(chunks[|chunks| - 1])
  }

  /** Whether every item belongs to the session and is no newer than the latest chunk. */
  ghost predicate Current(c: QueueConfig, latest: Option<int>, s: seq<QueuedAction>) {
    forall i | 0 <= i < |s| :: IsCurrent(c, latest, s[i])
  }

  predicate IsCurrent(c: QueueConfig, latest: Option<int>, item: QueuedAction) {
    item.sessionId == c.sessionId && item.model == c.model && latest.Some? && item.sequenceNo <= latest.value
  }

  ghost predicate Counted(q: Queue) {
    && q.served == |q.trace| && q.accepted == |q.history|
    && TotalActions(q.history) == q.served + q.replaced + |q.actions|
  }

  ghost predicate InOrder(c: QueueConfig, q: Queue) {
    && Ascending(q.trace + q.actions) && Current(c, q.latest, q.trace + q.actions)
    && (q.latest.None? <==> q.history == [])
    && (q.history != [] ==> q.latest == Some(q.history[|q.history| - 1].sequenceNo))
  }

  ghost predicate IsSuffix(s: seq<QueuedAction>, whole: seq<QueuedAction>) {
    |s| <= |whole| && s == whole[|whole| - |s|..]
  }

  ghost predicate HandedOff(c: QueueConfig, q: Queue) {
    match c.policy
    case Append => q.replaced == 0 && q.trace + q.actions == AllItems(q.history)
    case Replace => if q.history == [] then q.actions == [] else IsSuffix(q.actions, Items(q.history[|q.history| - 1]))
  }

  ghost predicate Consistent(c: QueueConfig, q: Queue) {
    Counted(q) && InOrder(c, q) && HandedOff(c, q)
  }

  lemma AscendingPart(s: seq<QueuedAction>, t: seq<QueuedAction>)
    requires Ascending(s + t)
    ensures Ascending(s)
  {
    forall i, j | 0 <= i < j < |s| ensures Precedes(s[i], s[j]) {
      assert (s + t)[i] == s[i] && (s + t)[j] == s[j];
    }
  }

  lemma PartIsCurrent(c: QueueConfig, latest: Option<int>, s: seq<QueuedAction>, t: seq<QueuedAction>)
    requires Current(c, latest, s + t)
    ensures Current(c, latest, s)
  {
    forall i | 0 <= i < |s| ensures IsCurrent(c, latest, s[i]) {
      assert IsCurrent(c, latest, (s + t)[i]);
    }
  }

  lemma LastChunk(history: seq<ActionChunk>, chunk: ActionChunk)
    ensures TotalActions(history + [chunk]) == TotalActions(history) + |chunk.actions|
    ensures AllItems(history + [chunk]) == AllItems(history) + Items(chunk)
  {
    assert (history + [chunk])[..|history|] == history;
  }

  lemma KeptIsOlder(c: QueueConfig, q: Queue, chunk: ActionChunk, s: seq<QueuedAction>)
    requires Current(c, q.latest, s) && Newer(q, chunk) && Routed(c, chunk) && Ascending(s)
    ensures Ascending(s + Items(chunk)) && Current(c, Some(chunk.sequenceNo), s + Items(chunk))
  {
    assert forall i | 0 <= i < |s| :: IsCurrent(c, q.latest, s[i]) && s[i].sequenceNo < chunk.sequenceNo;
  }

  lemma AcceptKeepsOrder(c: QueueConfig, q: Queue, chunk: ActionChunk)
    requires InOrder(c, q) && Accepts(c, q, chunk)
    ensures InOrder(c, PutOpen(c, q, chunk))
  {
    hide Ascending, Current, Items;
    if c.policy.Replace? {
      AscendingPart(q.trace, q.actions);
      PartIsCurrent(c, q.latest, q.trace, q.actions);
      KeptIsOlder(c, q, chunk, q.trace);
      assert [] + Items(chunk) == Items(chunk);
    } else {
      KeptIsOlder(c, q, chunk, q.trace + q.actions);
      assert q.trace + (q.actions + Items(chunk)) == (q.trace + q.actions) + Items(chunk);
    }
  }

  lemma AcceptKeepsCounts(c: QueueConfig, q: Queue, chunk: ActionChunk)
    requires Counted(q) && Accepts(c, q, chunk)
    ensures Counted(PutOpen(c, q, chunk))
  {
    hide TotalActions, Items;
    LastChunk(q.history, chunk);
    var r := PutOpen(c, q, chunk);
    if c.policy.Replace? {
      assert |r.actions| == |chunk.actions| && r.replaced == q.replaced + |q.actions|;
    } else {
      assert |r.actions| == |q.actions| + |chunk.actions| && r.replaced == q.replaced;
    }
  }

  lemma AcceptHandsOff(c: QueueConfig, q: Queue, chunk: ActionChunk)
    requires HandedOff(c, q) && Accepts(c, q, chunk)
    ensures HandedOff(c, PutOpen(c, q, chunk))
  {
    hide AllItems, Items, Accepts;
    var (r, items) := (PutOpen(c, q, chunk), Items(chunk));
    if c.policy.Append? {
      LastChunk(q.history, chunk);
      Associate(q.trace, q.actions, items);
      assert r.trace + r.actions == AllItems(r.history) && r.replaced == q.replaced;
    } else {
      assert r.actions == items == items[0..];
    }
  }

  lemma AcceptIsConsistent(c: QueueConfig, q: Queue, chunk: ActionChunk)
    requires Consistent(c, q) && Accepts(c, q, chunk)
    ensures Consistent(c, PutOpen(c, q, chunk))
  {
    hide Counted, InOrder, HandedOff, PutOpen, Accepts;
    AcceptKeepsOrder(c, q, chunk);
    AcceptKeepsCounts(c, q, chunk);
    AcceptHandsOff(c, q, chunk);
  }

  lemma PopIsConsistent(c: QueueConfig, q: Queue)
    requires Consistent(c, q) && q.actions != []
    ensures Consistent(c, Pop(q))
  {
    hide Ascending, Current, TotalActions, AllItems, Items;
    assert (q.trace + [q.actions[0]]) + q.actions[1..] == q.trace + q.actions;
  }

  /** Whether nothing changed but the counters of failures, the refill slot and the closed flag. */
  ghost predicate SameFlow(q: Queue, r: Queue) {
    r == q.(rejected := r.rejected, underruns := r.underruns, refillInflight := r.refillInflight, closed := r.closed)
  }

  lemma SameFlowIsConsistent(c: QueueConfig, q: Queue, r: Queue)
    requires Consistent(c, q) && SameFlow(q, r)
    ensures Consistent(c, r)
  {
    hide Ascending, Current, TotalActions, AllItems, Items, IsSuffix;
  }

  lemma PutIsConsistent(c: QueueConfig, q: Queue, chunk: ActionChunk)
    requires Consistent(c, q)
    ensures Consistent(c, PutOpen(c, q, chunk))
  {
    if Accepts(c, q, chunk) {
      AcceptIsConsistent(c, q, chunk);
    } else {
      hide Consistent;
      SameFlowIsConsistent(c, q, PutOpen(c, q, chunk));
    }
  }

  lemma StepIsConsistent(c: QueueConfig, q: Queue, section: Section)
    requires Consistent(c, q)
    ensures Consistent(c, Step(c, q, section))
  {
    hide Consistent, PutOpen, Pop;
    var r := Step(c, q, section);
    match section
    case Publishing(chunk) =>
      PutIsConsistent(c, q, chunk);
    case Finishing(result) =>
      if result.Some? && !q.closed {
        PutIsConsistent(c, q, result.value);
        SameFlowIsConsistent(c, PutOpen(c, q, result.value), r);
      } else {
        SameFlowIsConsistent(c, q, r);
      }
    case Taking =>
      if q.actions != [] {
        PopIsConsistent(c, q);
      } else {
        SameFlowIsConsistent(c, q, r);
      }
    case _ =>
      SameFlowIsConsistent(c, q, r);
  }

  /** After every run the counters add up, the served and waiting actions are in execution order, `append`
      loses nothing and `replace` keeps only the rest of the latest chunk. */
  lemma {:induction false} RunIsConsistent(c: QueueConfig, sections: seq<Section>)
    ensures Consistent(c, Run(c, sections))
  {
    if sections != [] {
      hide Consistent, Step;
      RunIsConsistent(c, sections[..|sections| - 1]);
      StepIsConsistent(c, Run(c, sections[..|sections| - 1]), sections[|sections| - 1]);
    }
  }

  // ---------------------------------------------------------------- every item is what its chunk says

  /** The item is the action of the chunk at its index, with the chunk's names. */
  predicate Carries(item: QueuedAction, chunk: ActionChunk) {
    && item.chunkIndex < |chunk.actions| && item.action == chunk.actions[item.chunkIndex]
    && item.chunkSize == |chunk.actions| && item.requestId == chunk.requestId && item.sessionId == chunk.sessionId
    && item.model == chunk.model && item.sequenceNo == chunk.sequenceNo && item.generatedNs == chunk.generatedNs
  }

  ghost predicate FromHistory(history: seq<ActionChunk>, item: QueuedAction) {
    exists chunk | chunk in history :: Carries(item, chunk)
  }

  ghost predicate AllFromHistory(history: seq<ActionChunk>, items: seq<QueuedAction>) {
    forall i | 0 <= i < |items| :: FromHistory(history, items[i])
  }

  /** The accepted chunks have rising sequence numbers; the last is the one that is remembered. */
  ghost predicate Rises(q: Queue) {
    && (forall i, j | 0 <= i < j < |q.history| :: q.history[i].sequenceNo < q.history[j].sequenceNo)
    && (q.history == [] ==> q.latest == None)
    && (q.history != [] ==> q.latest == Some(q.history[|q.history| - 1].sequenceNo))
  }

  ghost predicate Kept(q: Queue) {
    Rises(q) && AllFromHistory(q.history, q.trace) && AllFromHistory(q.history, q.actions)
  }

  lemma MoreHistory(history: seq<ActionChunk>, chunk: ActionChunk, items: seq<QueuedAction>)
    requires AllFromHistory(history, items)
    ensures AllFromHistory(history + [chunk], items)
  {
    hide Carries;
    forall i | 0 <= i < |items| ensures FromHistory(history + [chunk], items[i]) {
      assert FromHistory(history, items[i]);
      var source :| source in history && Carries(items[i], source);
      assert source in history + [chunk];
    }
  }

  lemma ItemsCarry(history: seq<ActionChunk>, chunk: ActionChunk)
    requires chunk in history
    ensures AllFromHistory(history, Items(chunk))
  {
    forall i | 0 <= i < |chunk.actions| ensures FromHistory(history, Items(chunk)[i]) {
      assert Carries(Items(chunk)[i], chunk);
    }
  }

  lemma AcceptKeeps(c: QueueConfig, q: Queue, chunk: ActionChunk)
    requires Kept(q) && Accepts(c, q, chunk)
    ensures Kept(PutOpen(c, q, chunk))
  {
    var history := q.history + [chunk];
    MoreHistory(q.history, chunk, q.trace);
    MoreHistory(q.history, chunk, q.actions);
    assert history[|q.history|] == chunk;
    ItemsCarry(history, chunk);
    hide FromHistory, Items;
  }

  lemma PopKeeps(q: Queue)
    requires Kept(q) && q.actions != []
    ensures Kept(Pop(q))
  {
    hide FromHistory;
  }

  lemma StepKeeps(c: QueueConfig, q: Queue, section: Section)
    requires Kept(q)
    ensures Kept(Step(c, q, section))
  {
    hide AllFromHistory, Items;
    match section
    case Publishing(chunk) =>
      if !q.closed && Accepts(c, q, chunk) {
        AcceptKeeps(c, q, chunk);
      }
    case Finishing(result) =>
      if result.Some? && !q.closed && Accepts(c, q, result.value) {
        AcceptKeeps(c, q, result.value);
      }
    case Taking =>
      if q.actions != [] {
        PopKeeps(q);
      }
    case _ =>
  }

  /** After every run each served and each waiting item is the action of an accepted chunk at its own index. */
  lemma {:induction false} ItemsAreAuthentic(c: QueueConfig, sections: seq<Section>)
    ensures Kept(Run(c, sections))
  {
    if sections != [] {
      hide Kept, Step;
      ItemsAreAuthentic(c, sections[..|sections| - 1]);
      StepKeeps(c, Run(c, sections[..|sections| - 1]), sections[|sections| - 1]);
    }
  }

  /** What a publication on an open queue comes to in any run: the chunk is accepted if and only if it is for this
      session and model, has actions, and is newer than every chunk accepted before; then all its actions join at the
      end, behind what waited or in its place.  Otherwise only the rejection is counted. */
  lemma {:induction false} PublishVerdict(c: QueueConfig, sections: seq<Section>, chunk: ActionChunk)
    requires !Run(c, sections).closed
    ensures var (q, r) := (Run(c, sections), Run(c, sections + [Publishing(chunk)]));
            if chunk.sessionId == c.sessionId && chunk.model == c.model && chunk.actions != []
               && forall h | h in q.history :: h.sequenceNo < chunk.sequenceNo
            then
              var kept := if c.policy.Replace? then [] else q.actions;
              && r.history == q.history + [chunk] && r.accepted == q.accepted + 1 && r.rejected == q.rejected
              && r.replaced == q.replaced + |q.actions| - |kept|
              && JoinsBehind(kept, r.actions, chunk)
            else r == q.(rejected := q.rejected + 1)
  {
    var q := Run(c, sections);
    ItemsAreAuthentic(c, sections);
    assert (sections + [Publishing(chunk)])[..|sections|] == sections;
    NewerThanAll(q, chunk);
    hide Rises, AllFromHistory, Newer, JoinsBehind, Items;
    WholeChunkJoins(if c.policy.Replace? then [] else q.actions, chunk);
  }

  /** All actions of the chunk, in order, behind what was kept. */
  ghost predicate JoinsBehind(kept: seq<QueuedAction>, actions: seq<QueuedAction>, chunk: ActionChunk) {
    && |actions| == |kept| + |chunk.actions| && actions[..|kept|] == kept
    && forall i | |kept| <= i < |actions| :: Carries(actions[i], chunk) && actions[i].chunkIndex == i - |kept|
  }

  lemma WholeChunkJoins(kept: seq<QueuedAction>, chunk: ActionChunk)
    ensures JoinsBehind(kept, kept + Items(chunk), chunk)
  {
    forall i | |kept| <= i < |kept + Items(chunk)|
      ensures Carries((kept + Items(chunk))[i], chunk) && (kept + Items(chunk))[i].chunkIndex == i - |kept|
    {
      assert (kept + Items(chunk))[i] == Item(chunk, i - |kept|);
    }
  }

  lemma NewerThanAll(q: Queue, chunk: ActionChunk)
    requires Rises(q)
    ensures Newer(q, chunk) <==> forall h | h in q.history :: h.sequenceNo < chunk.sequenceNo
  {
    if q.history != [] {
      assert q.history[|q.history| - 1] in q.history;
    }
  }

  /** A claim takes the refill slot if and only if it is free, the queue is open and at most the low watermark waits;
      it changes nothing else. */
  lemma {:induction false} ClaimVerdict(c: QueueConfig, sections: seq<Section>)
    ensures var (q, r) := (Run(c, sections), Run(c, sections + [Claiming]));
            r == q.(refillInflight := q.refillInflight || (!q.closed && |q.actions| <= c.lowWatermark))
  {
    assert (sections + [Claiming])[..|sections|] == sections;
    hide Run;
  }

  // ---------------------------------------------------------------- calls add up

  /** Publications, alone or with a finished refill, that met an open queue. */
  function Puts(c: QueueConfig, sections: seq<Section>): nat {
    if sections == [] then 0
    else
      var (before, last) := (sections[..|sections| - 1], sections[|sections| - 1]);
      Puts(c, before)
      + if (last.Publishing? || (last.Finishing? && last.result.Some?)) && !Run(c, before).closed then 1 else 0
  }

  /** Calls for an action that got one or were told that there is none. */
  function Takes(c: QueueConfig, sections: seq<Section>): nat {
    if sections == [] then 0
    else
      var (before, last) := (sections[..|sections| - 1], sections[|sections| - 1]);
      var q := Run(c, before);
      Takes(c, before) + if last.Missing? || (last.Taking? && (q.actions != [] || !q.closed)) then 1 else 0
  }

  /** After every run each publication was accepted or rejected, and each call for an action was served or counted as
      an underrun; calls on a closed queue raise and are not counted. */
  lemma {:induction false} CallsAddUp(c: QueueConfig, sections: seq<Section>)
    ensures Run(c, sections).accepted + Run(c, sections).rejected == Puts(c, sections)
    ensures Run(c, sections).served + Run(c, sections).underruns == Takes(c, sections)
  {
    if sections != [] {
      hide Step;
      CallsAddUp(c, sections[..|sections| - 1]);
      StepAddsUp(c, Run(c, sections[..|sections| - 1]), sections[|sections| - 1]);
    }
  }

  lemma StepAddsUp(c: QueueConfig, q: Queue, section: Section)
    ensures var r := Step(c, q, section);
            && r.accepted + r.rejected
               == q.accepted + q.rejected
                  + (if (section.Publishing? || (section.Finishing? && section.result.Some?)) && !q.closed then 1
                     else 0)
            && r.served + r.underruns
               == q.served + q.underruns
                  + if section.Missing? || (section.Taking? && (q.actions != [] || !q.closed)) then 1 else 0
  {
    hide Items, Accepts;
  }
}
