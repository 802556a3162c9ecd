/** The closed producer/consumer loop of the asynchronous benchmark: a producer that refills an appending
    action queue and a consumer that takes one action per tick.  Sleeps become the choice, at every move,
    of which side goes on. */
module ControlLoop {
  import opened Types
  import opened ActionQueue
  import opened AsyncActionQueue

  datatype Setup = Setup(chunks: nat, chunkSize: nat, lowWatermark: nat)

  /** The producer is about to ask for the refill slot for chunk `k`, holds it, or has returned. */
  datatype Producer = Asking(k: nat) | Inferring(k: nat) | Done

  datatype Loop = Loop(
    queue: Queue,
    producer: Producer,
    executed: nat,
    startupIdle: nat,
    steadyIdle: nat,
    seen: bool,
    exited: bool)

  datatype Move = Produce | Consume

  function ConfigOf(s: Setup): QueueConfig {
    QueueConfig("public-sim", "synthetic-policy", s.lowWatermark, Append)
  }

  function Synthetic(s: Setup, k: nat): ActionChunk {
    ActionChunk("synthetic", "public-sim", "synthetic-policy", k, seq(s.chunkSize, i => i), 0)
  }

  function Total(s: Setup): nat {
    s.chunks * s.chunkSize
  }

  function Next(s: Setup, k: nat): Producer {
    if k < s.chunks then Asking(k) else Done
  }

  function Begin(s: Setup): Loop {
    Loop(FRESH, Next(s, 0), 0, 0, 0, false, Total(s) == 0)
  }

  predicate Blocked(s: Setup, l: Loop) {
    l.producer.Asking? && !NeedsRefill(ConfigOf(s), l.queue)
  }

  function ProducerMove(s: Setup, l: Loop): Loop {
    match l.producer
    case Asking(k) =>
      if Blocked(s, l) then l else l.(queue := Claim(l.queue), producer := Inferring(k))
    case Inferring(k) =>
      l.(queue := FinishRefill(ConfigOf(s), l.queue, Some(Synthetic(s, k))), producer := Next(s, k + 1))
    case Done => l
  }

  function ConsumerMove(s: Setup, l: Loop): Loop {
    if l.exited then l
    else
      var l1 :=
        if l.queue.actions != [] then l.(queue := Pop(l.queue), seen := true, executed := l.executed + 1)
        else if l.seen then l.(queue := Underrun(l.queue), steadyIdle := l.steadyIdle + 1)
        else l.(queue := Underrun(l.queue), startupIdle := l.startupIdle + 1);
      l1.(exited := l1.executed >= Total(s) || (l1.producer.Done? && l1.queue.actions == []))
  }

  function Go(s: Setup, l: Loop, move: Move): Loop {
    if move.Produce? then ProducerMove(s, l) else ConsumerMove(s, l)
  }

  function RunLoop(s: Setup, moves: seq<Move>): Loop {
    if moves == [] then Begin(s) else Go(s, RunLoop(s, moves[..|moves| - 1]), moves[|moves| - 1])
  }

  // ---------------------------------------------------------------- the invariant

  /** How many chunks the producer has published. */
  function Published(s: Setup, l: Loop): nat {
    match l.producer
    case Asking(k) => k
    case Inferring(k) => k
    case Done => s.chunks
  }

  /** Everything that the loop is to execute once `n` chunks are published. */
  function Script(s: Setup, n: nat): seq<QueuedAction> {
    if n == 0 then [] else Script(s, n - 1) + Items(Synthetic(s, n - 1))
  }

  lemma TimesSucc(n: nat, size: nat)
    ensures (n + 1) * size == n * size + size
  {
  }

  lemma TimesGrows(m: nat, n: nat, size: nat)
    requires m <= n
    ensures m * size <= n * size
  {
  }

  lemma {:induction false} ScriptLength(s: Setup, n: nat)
    ensures |Script(s, n)| == n * s.chunkSize
  {
    if n > 0 {
      ScriptLength(s, n - 1);
      TimesSucc(n - 1, s.chunkSize);
    }
  }

  ghost predicate Flow(s: Setup, l: Loop) {
    var q := l.queue;
    && q.trace + q.actions == Script(s, Published(s, l))
    && l.executed == |q.trace|
    && l.startupIdle + l.steadyIdle == q.underruns
    && (l.seen <==> l.executed > 0)
    && (l.exited ==> l.executed == Total(s))
    && (!l.exited ==> l.executed < Total(s))
  }

  ghost predicate Slot(s: Setup, l: Loop) {
    var q := l.queue;
    && !q.closed && (q.refillInflight <==> l.producer.Inferring?)
    && Published(s, l) <= s.chunks && (!l.producer.Done? ==> Published(s, l) < s.chunks)
    && (q.latest.Some? ==> q.latest.value < Published(s, l))
    && |q.actions| <= s.lowWatermark + s.chunkSize
    && (l.producer.Inferring? ==> |q.actions| <= s.lowWatermark)
  }

  ghost predicate LoopInv(s: Setup, l: Loop) {
    Flow(s, l) && Slot(s, l)
  }

  lemma BeginIsInv(s: Setup)
    ensures LoopInv(s, Begin(s))
  {
  }

  /** A finished refill publishes its chunk, unless chunks are empty. */
  lemma FinishPublishes(s: Setup, q: Queue, k: nat)
    requires !q.closed && (q.latest.Some? ==> q.latest.value < k)
    ensures var r := FinishRefill(ConfigOf(s), q, Some(Synthetic(s, k)));
            && r.actions == q.actions + Items(Synthetic(s, k)) && r.trace == q.trace
            && r.underruns == q.underruns && !r.closed && !r.refillInflight
            && (r.latest.Some? ==> r.latest.value < k + 1)
  {
    if s.chunkSize == 0 {
      assert q.actions + Items(Synthetic(s, k)) == q.actions;
    } else {
      assert Synthetic(s, k).actions != [];
    }
  }

  lemma ProducerKeepsInv(s: Setup, l: Loop)
    requires LoopInv(s, l)
    ensures LoopInv(s, ProducerMove(s, l))
  {
    hide Total, FinishRefill, Items, Synthetic;
    if l.producer.Inferring? {
      var q := l.queue;
      FinishPublishes(s, q, l.producer.k);
      Associate(q.trace, q.actions, Items(Synthetic(s, l.producer.k)));
      SyntheticSize(s, l.producer.k);
    }
  }

  lemma SyntheticSize(s: Setup, k: nat)
    ensures |Items(Synthetic(s, k))| == s.chunkSize
  {
  }

  /** What is served and what waits never exceeds the total, and reaches it with the last chunk. */
  lemma FlowIsBounded(s: Setup, l: Loop)
    requires LoopInv(s, l)
    ensures |l.queue.trace| + |l.queue.actions| <= Total(s)
    ensures l.producer.Done? ==> |l.queue.trace| + |l.queue.actions| == Total(s)
  {
    hide Script, Total;
    ScriptIsShort(s, Published(s, l));
    TotalIsScript(s);
    assert |l.queue.trace + l.queue.actions| == |l.queue.trace| + |l.queue.actions|;
  }

  lemma ConsumerKeepsInv(s: Setup, l: Loop)
    requires LoopInv(s, l)
    ensures LoopInv(s, ConsumerMove(s, l))
  {
    hide Script, Total;
    FlowIsBounded(s, l);
    var q := l.queue;
    if q.actions != [] {
      assert (q.trace + [q.actions[0]]) + q.actions[1..] == q.trace + q.actions;
    }
  }

  lemma ScriptIsShort(s: Setup, n: nat)
    ensures n <= s.chunks ==> |Script(s, n)| <= Total(s)
  {
    ScriptLength(s, n);
    if n <= s.chunks {
      TimesGrows(n, s.chunks, s.chunkSize);
    }
  }

  lemma TotalIsScript(s: Setup)
    ensures |Script(s, s.chunks)| == Total(s)
  {
    ScriptLength(s, s.chunks);
  }

  lemma {:induction false} RunKeepsInv(s: Setup, moves: seq<Move>)
    ensures LoopInv(s, RunLoop(s, moves))
  {
    if moves == [] {
      BeginIsInv(s);
    } else {
      hide LoopInv, ProducerMove, ConsumerMove;
      RunKeepsInv(s, moves[..|moves| - 1]);
      ProducerKeepsInv(s, RunLoop(s, moves[..|moves| - 1]));
      ConsumerKeepsInv(s, RunLoop(s, moves[..|moves| - 1]));
    }
  }

  lemma {:induction false} ScriptGrows(s: Setup, m: nat, n: nat)
    requires m <= n
    ensures Script(s, m) <= Script(s, n)
    decreases n
  {
    if m < n {
      ScriptGrows(s, m, n - 1);
    }
  }

  lemma ChunkAndIndex(k: nat, j: nat, size: nat)
    requires j < size
    ensures (k * size + j) / size == k && (k * size + j) % size == j
  {
    var i := k * size + j;
    assert i == (i / size) * size + i % size;
    if i / size < k {
      TimesGrows(i / size + 1, k, size);
      TimesSucc(i / size, size);
    } else if i / size > k {
      TimesGrows(k + 1, i / size, size);
      TimesSucc(k, size);
    }
  }

  /** The i-th action of the synthetic policy: number i modulo the chunk size, of chunk i / chunk size. */
  ghost predicate IsNumber(s: Setup, item: QueuedAction, i: nat) {
    && s.chunkSize > 0 && item.action == i % s.chunkSize && item.chunkIndex == i % s.chunkSize
    && item.sequenceNo == i / s.chunkSize && item.chunkSize == s.chunkSize
  }

  lemma SyntheticItem(s: Setup, k: nat, j: nat)
    requires j < s.chunkSize
    ensures |Items(Synthetic(s, k))| == s.chunkSize
    ensures IsNumber(s, Items(Synthetic(s, k))[j], k * s.chunkSize + j)
  {
    ChunkAndIndex(k, j, s.chunkSize);
  }

  lemma {:induction false} ScriptAt(s: Setup, n: nat, i: nat)
    requires i < |Script(s, n)|
    ensures IsNumber(s, Script(s, n)[i], i)
  {
    hide IsNumber, Items, Synthetic;
    ScriptLength(s, n);
    ScriptLength(s, n - 1);
    if i < |Script(s, n - 1)| {
      ScriptAt(s, n - 1, i);
    } else {
      TimesSucc(n - 1, s.chunkSize);
      SyntheticItem(s, n - 1, i - (n - 1) * s.chunkSize);
    }
  }

  /** At every moment of every schedule: what was executed is a prefix of the full script, the buffer holds
      at most the low watermark plus one chunk, and every idle tick was an underrun; the i-th executed action is
      number i modulo the chunk size of chunk i / chunk size; and a loop that has exited has executed the full
      script, each action once and in order. */
  lemma {:induction false} LoopExecutesTheScript(s: Setup, moves: seq<Move>)
    ensures var l := RunLoop(s, moves);
            && l.executed == |l.queue.trace| && l.queue.trace <= Script(s, s.chunks)
            && |l.queue.actions| <= s.lowWatermark + s.chunkSize
            && l.startupIdle + l.steadyIdle == l.queue.underruns
            && (l.exited <==> l.queue.trace == Script(s, s.chunks))
            && (l.exited <==> l.executed == s.chunks * s.chunkSize)
            && (forall i: nat | i < l.executed :: IsNumber(s, l.queue.trace[i], i))
  {
    var l := RunLoop(s, moves);
    RunKeepsInv(s, moves);
    hide RunLoop, Script, IsNumber;
    ScriptGrows(s, Published(s, l), s.chunks);
    TotalIsScript(s);
    forall i: nat | i < l.executed ensures IsNumber(s, l.queue.trace[i], i) {
      ScriptAt(s, s.chunks, i);
    }
  }

  // ---------------------------------------------------------------- progress

  /** A move that gets the loop further: a producer that is not blocked, or a tick that finds an action. */
  predicate Effective(s: Setup, l: Loop, move: Move) {
    if move.Produce? then !l.producer.Done? && !Blocked(s, l) else !l.exited && l.queue.actions != []
  }

  /** Moves of the producer and actions of the consumer that are still to come. */
  function Remaining(s: Setup, l: Loop): int {
    2 * (s.chunks - Published(s, l)) - (if l.producer.Inferring? then 1 else 0) + (Total(s) - l.executed)
  }

  /** No unfinished state has both sides stuck. */
  lemma {:induction false} NeverStuck(s: Setup, moves: seq<Move>)
    ensures var l := RunLoop(s, moves);
            l.exited || Effective(s, l, Produce) || Effective(s, l, Consume)
  {
    RunKeepsInv(s, moves);
    UnfinishedMoves(s, RunLoop(s, moves));
  }

  lemma UnfinishedMoves(s: Setup, l: Loop)
    requires LoopInv(s, l)
    ensures l.exited || Effective(s, l, Produce) || Effective(s, l, Consume)
  {
    hide Script, Total;
    TotalIsScript(s);
    assert |l.queue.trace + l.queue.actions| == |l.queue.trace| + |l.queue.actions|;
  }

  /** Every effective move counts down by one, and no other move changes the count. */
  lemma {:induction false} MovesCountDown(s: Setup, l: Loop, move: Move)
    requires LoopInv(s, l)
    ensures Remaining(s, Go(s, l, move)) == Remaining(s, l) - (if Effective(s, l, move) then 1 else 0)
    ensures Remaining(s, l) >= 0
  {
    hide Script, Total, FinishRefill, Items, Synthetic;
  }

  lemma GoKeepsInv(s: Setup, l: Loop, move: Move)
    requires LoopInv(s, l)
    ensures LoopInv(s, Go(s, l, move))
  {
    hide LoopInv, ProducerMove, ConsumerMove;
    ProducerKeepsInv(s, l);
    ConsumerKeepsInv(s, l);
  }

  function GoOn(s: Setup, l: Loop, moves: seq<Move>): Loop {
    if moves == [] then l else Go(s, GoOn(s, l, moves[..|moves| - 1]), moves[|moves| - 1])
  }

  lemma {:induction false} GoOnKeepsInv(s: Setup, l: Loop, moves: seq<Move>)
    requires LoopInv(s, l)
    ensures LoopInv(s, GoOn(s, l, moves)) && Remaining(s, GoOn(s, l, moves)) <= Remaining(s, l)
    ensures l.exited ==> GoOn(s, l, moves).exited
  {
    if moves != [] {
      var before := GoOn(s, l, moves[..|moves| - 1]);
      GoOnKeepsInv(s, l, moves[..|moves| - 1]);
      hide LoopInv, Remaining, Effective;
      GoKeepsInv(s, before, moves[|moves| - 1]);
      MovesCountDown(s, before, moves[|moves| - 1]);
    }
  }

  /** A move that is possible stays possible until it is made, or until the loop gets further otherwise. */
  lemma {:induction false} EffectiveLasts(s: Setup, l: Loop, move: Move, moves: seq<Move>)
    requires LoopInv(s, l) && Effective(s, l, move) && Remaining(s, GoOn(s, l, moves)) == Remaining(s, l)
    ensures GoOn(s, l, moves)
         == l || (GoOn(s, l, moves).producer == l.producer && GoOn(s, l, moves).queue.actions == l.queue.actions)
    ensures Effective(s, GoOn(s, l, moves), move) && move !in moves
  {
    if moves != [] {
      var before := GoOn(s, l, moves[..|moves| - 1]);
      GoOnKeepsInv(s, l, moves[..|moves| - 1]);
      MovesCountDown(s, before, moves[|moves| - 1]);
      EffectiveLasts(s, l, move, moves[..|moves| - 1]);
      IdleMove(s, before, moves[|moves| - 1], move);
      assert moves == moves[..|moves| - 1] + [moves[|moves| - 1]];
    }
  }

  lemma IdleMove(s: Setup, l: Loop, idle: Move, move: Move)
    requires LoopInv(s, l) && !Effective(s, l, idle) && Effective(s, l, move)
    ensures var r := Go(s, l, idle);
            r.producer == l.producer && r.queue.actions == l.queue.actions && Effective(s, r, move)
  {
  }

  lemma RoundGetsFurther(s: Setup, l: Loop, round: seq<Move>)
    requires LoopInv(s, l) && !l.exited && Produce in round && Consume in round
    ensures Remaining(s, GoOn(s, l, round)) < Remaining(s, l)
  {
    hide LoopInv, Remaining, Effective, GoOn;
    GoOnKeepsInv(s, l, round);
    UnfinishedMoves(s, l);
    if Remaining(s, GoOn(s, l, round)) == Remaining(s, l) {
      var move := if Effective(s, l, Produce) then Produce else Consume;
      EffectiveLasts(s, l, move, round);
    }
  }

  function GoRounds(s: Setup, l: Loop, rounds: seq<seq<Move>>): Loop
    decreases |rounds|
  {
    if rounds == [] then l else GoRounds(s, GoOn(s, l, rounds[0]), rounds[1..])
  }

  lemma CountIsZeroAtExit(s: Setup, l: Loop)
    requires LoopInv(s, l) && Remaining(s, l) <= 0
    ensures l.exited
  {
  }

  /** From any reachable state, rounds in which both sides get a move finish the loop, after at most as many
      rounds as there are moves and actions to come. */
  lemma {:induction false} FairRoundsFinish(s: Setup, l: Loop, rounds: seq<seq<Move>>)
    requires LoopInv(s, l) && |rounds| >= Remaining(s, l)
    requires forall i | 0 <= i < |rounds| :: Produce in rounds[i] && Consume in rounds[i]
    ensures GoRounds(s, l, rounds).exited
    decreases |rounds|
  {
    hide LoopInv, Remaining, GoOn;
    if rounds == [] {
      CountIsZeroAtExit(s, l);
    } else {
      GoOnKeepsInv(s, l, rounds[0]);
      if l.exited {
        ExitLasts(s, GoOn(s, l, rounds[0]), rounds[1..]);
      } else {
        RoundGetsFurther(s, l, rounds[0]);
        FairRoundsFinish(s, GoOn(s, l, rounds[0]), rounds[1..]);
      }
    }
  }

  lemma {:induction false} ExitLasts(s: Setup, l: Loop, rounds: seq<seq<Move>>)
    requires LoopInv(s, l) && l.exited
    ensures GoRounds(s, l, rounds).exited
    decreases |rounds|
  {
    hide LoopInv, GoOn;
    if rounds != [] {
      GoOnKeepsInv(s, l, rounds[0]);
      ExitLasts(s, GoOn(s, l, rounds[0]), rounds[1..]);
    }
  }

  /** Every fair schedule completes: after 2 * chunks + chunks * chunkSize rounds the consumer has executed
      the whole script. */
  lemma {:induction false} ClosedLoopCompletes(s: Setup, rounds: seq<seq<Move>>)
    requires |rounds| >= 2 * s.chunks + Total(s)
    requires forall i | 0 <= i < |rounds| :: Produce in rounds[i] && Consume in rounds[i]
    ensures GoRounds(s, Begin(s), rounds).exited
    ensures GoRounds(s, Begin(s), rounds).queue.trace == Script(s, s.chunks)
  {
    hide GoRounds, LoopInv, Total, Script;
    BeginIsInv(s);
    BeginCount(s);
    FairRoundsFinish(s, Begin(s), rounds);
    GoRoundsKeepsInv(s, Begin(s), rounds);
    ExitedIsComplete(s, GoRounds(s, Begin(s), rounds));
  }

  lemma BeginCount(s: Setup)
    ensures Remaining(s, Begin(s)) <= 2 * s.chunks + Total(s)
  {
    hide Total;
  }

  lemma {:induction false} GoRoundsKeepsInv(s: Setup, l: Loop, rounds: seq<seq<Move>>)
    requires LoopInv(s, l)
    ensures LoopInv(s, GoRounds(s, l, rounds))
    decreases |rounds|
  {
    hide LoopInv, GoOn;
    if rounds != [] {
      GoOnKeepsInv(s, l, rounds[0]);
      GoRoundsKeepsInv(s, GoOn(s, l, rounds[0]), rounds[1..]);
    }
  }

  lemma ExitedIsComplete(s: Setup, l: Loop)
    requires LoopInv(s, l) && l.exited
    ensures l.queue.trace == Script(s, s.chunks)
  {
    hide Script, Total;
    FlowIsBounded(s, l);
    TotalIsScript(s);
    ScriptGrows(s, Published(s, l), s.chunks);
    assert l.queue.trace <= l.queue.trace + l.queue.actions <= Script(s, s.chunks);
  }

  // ---------------------------------------------------------------- the loop itself

  datatype LoopResult = LoopResult(
    actionsExecuted: nat,
    inferenceCalls: nat,
    startupIdleTicks: nat,
    steadyIdleTicks: nat,
    totalIdleTicks: nat)

  ghost predicate Mirrors(queue: AsyncQueue, s: Setup, l: Loop)
    reads queue
  {
    queue.config == ConfigOf(s) && queue.Value() == l.queue
  }

  /** One move of the producer coroutine. */
  method ProduceOnce(s: Setup, queue: AsyncQueue, producer: Producer, ghost l: Loop) returns (next: Producer)
    requires Mirrors(queue, s, l) && l.producer == producer && LoopInv(s, l)
    modifies queue
    ensures Mirrors(queue, s, ProducerMove(s, l)) && next == ProducerMove(s, l).producer
  {
    match producer
    case Asking(k) =>
      var claimed := queue.TryAcquireRefill();
      return match claimed case Yes => Inferring(k) case No => Done case NotYet => producer;
    case Inferring(k) =>
      var accepted, notify := queue.FinishRefillWith(Some(Synthetic(s, k)));
      return Next(s, k + 1);
    case Done =>
      return Done;
  }

  /** A producer that has been left behind by the consumer is never blocked: the buffer is empty. */
  lemma ExitedProducerGoesOn(s: Setup, l: Loop)
    requires LoopInv(s, l) && l.exited && !l.producer.Done?
    ensures !Blocked(s, l) && Remaining(s, ProducerMove(s, l)) < Remaining(s, l) && Remaining(s, l) > 0
    ensures LoopInv(s, ProducerMove(s, l)) && ProducerMove(s, l).exited
  {
    FlowIsBounded(s, l);
    MovesCountDown(s, l, Produce);
    ProducerKeepsInv(s, l);
    ProducerLeavesConsumer(s, l);
    hide Script, Total, ProducerMove, Remaining;
  }

  /** `await producer`, once the consumer's loop has ended. */
  method AwaitProducer(s: Setup, queue: AsyncQueue, left: Producer, ghost l: Loop) returns (ghost last: Loop)
    requires Mirrors(queue, s, l) && l.producer == left && LoopInv(s, l) && l.exited
    modifies queue
    ensures Mirrors(queue, s, last) && LoopInv(s, last) && last.exited && last.producer.Done?
    ensures (last.executed, last.startupIdle, last.steadyIdle) == (l.executed, l.startupIdle, l.steadyIdle)
  {
    hide LoopInv, ProducerMove, Remaining;
    var producer := left;
    last := l;
    while !producer.Done?
      invariant Mirrors(queue, s, last) && last.producer == producer && LoopInv(s, last) && last.exited
      invariant (last.executed, last.startupIdle, last.steadyIdle) == (l.executed, l.startupIdle, l.steadyIdle)
      decreases Remaining(s, last)
    {
      ExitedProducerGoesOn(s, last);
      ProducerLeavesConsumer(s, last);
      producer := ProduceOnce(s, queue, producer, last);
      last := ProducerMove(s, last);
    }
  }

  /** `run_asynchronous` under a schedule that says which side goes on at every move of the loop; once the loop
      has ended, the producer is awaited and the queue is closed.  `final` is the queue at the end. */
  method RunAsynchronous(s: Setup, schedule: seq<Move>) returns (finished: bool, r: LoopResult, ghost final: Queue)
    ensures finished == RunLoop(s, schedule).exited
    ensures r.actionsExecuted == RunLoop(s, schedule).executed && r.inferenceCalls == s.chunks
    ensures r.startupIdleTicks == RunLoop(s, schedule).startupIdle
    ensures r.steadyIdleTicks == RunLoop(s, schedule).steadyIdle
    ensures r.totalIdleTicks == r.startupIdleTicks + r.steadyIdleTicks == RunLoop(s, schedule).queue.underruns
    ensures finished <==> r.actionsExecuted == s.chunks * s.chunkSize
    ensures finished ==> final.trace == Script(s, s.chunks) && final.actions == [] && final.closed
                         && !final.refillInflight
  {
    hide RunLoop, ProducerMove, Total, LoopInv;
    var queue := new AsyncQueue(ConfigOf(s));
    var producer := Next(s, 0);
    var totalActions := Total(s);
    var startupIdleTicks, steadyIdleTicks, actionsExecuted := 0, 0, 0;
    var firstActionSeen := false;
    finished := totalActions == 0;
    ghost var l := Begin(s);
    BeginIsInv(s);
    RunOfNothing(s);
    for i := 0 to |schedule|
      invariant l == RunLoop(s, schedule[..i]) && LoopInv(s, l) && Mirrors(queue, s, l) && fresh(queue)
      invariant l.producer == producer && l.executed == actionsExecuted && l.startupIdle == startupIdleTicks
      invariant l.steadyIdle == steadyIdleTicks && l.seen == firstActionSeen && l.exited == finished
    {
      GoKeepsInv(s, l, schedule[i]);
      RunOneMore(s, schedule, i);
      if schedule[i].Produce? {
        ProducerLeavesConsumer(s, l);
        producer := ProduceOnce(s, queue, producer, l);
      } else if !finished {
        var action, notify := queue.GetOrFail();
        OpenQueue(s, l);
        if action.Err? {
          if firstActionSeen {
            steadyIdleTicks := steadyIdleTicks + 1;
          } else {
            startupIdleTicks := startupIdleTicks + 1;
          }
        } else {
          firstActionSeen := true;
          actionsExecuted := actionsExecuted + 1;
        }
        finished := actionsExecuted >= totalActions || (producer.Done? && queue.actions == []);
      }
      l := Go(s, l, schedule[i]);
    }
    assert schedule[..|schedule|] == schedule;
    LoopExecutesTheScript(s, schedule);
    if finished {
      l := AwaitProducer(s, queue, producer, l);
      EndOfLoop(s, l);
      var notify := queue.Close();
    }
    final := queue.Value();
    r := LoopResult(actionsExecuted, s.chunks, startupIdleTicks, steadyIdleTicks, startupIdleTicks + steadyIdleTicks);
  }

  lemma EndOfLoop(s: Setup, l: Loop)
    requires LoopInv(s, l) && l.exited && l.producer.Done?
    ensures l.queue.trace == Script(s, s.chunks) && l.queue.actions == [] && !l.queue.refillInflight
  {
    hide Script, Total;
    FlowIsBounded(s, l);
    ExitedIsComplete(s, l);
  }

  lemma RunOfNothing(s: Setup)
    ensures RunLoop(s, []) == Begin(s)
  {
  }

  lemma RunOneMore(s: Setup, moves: seq<Move>, i: nat)
    requires i < |moves|
    ensures RunLoop(s, moves[..i + 1]) == Go(s, RunLoop(s, moves[..i]), moves[i])
  {
    assert moves[..i + 1][..i] == moves[..i];
  }

  lemma ProducerLeavesConsumer(s: Setup, l: Loop)
    ensures var r := ProducerMove(s, l);
            r.executed == l.executed && r.startupIdle == l.startupIdle && r.steadyIdle == l.steadyIdle
            && r.seen == l.seen && r.exited == l.exited
  {
  }

  lemma OpenQueue(s: Setup, l: Loop)
    requires LoopInv(s, l)
    ensures !l.queue.closed
  {
  }
}
