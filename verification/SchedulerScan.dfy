/** The scan of `_take_batch_locked` that works the heap in place computes what the specification of a batch
    says: facts about scanning, leaving behind and pushing back. */
module SchedulerScan {
  import opened SchedulerState
  import opened SchedulerInvariants
  import opened SchedulerSafety

  lemma Shift(a: seq<nat>, b: seq<nat>, c: seq<nat>)
    ensures (a + b) + c == a + (b + c)
  {
  }

  lemma {:induction false} ActiveFront(es: seq<Entry>, x: nat, ids: seq<nat>)
    requires x < |es| && InRange(es, ids)
    ensures InRange(es, [x] + ids)
    ensures Active(es, [x] + ids) == (if es[x].active then [x] else []) + Active(es, ids)
  {
    if ids == [] {
      assert [x] + ids == [x] && [x][..0] == [];
    } else {
      var n := |ids| - 1;
      var whole := [x] + ids;
      ActiveFront(es, x, ids[..n]);
      assert whole[..n + 1] == [x] + ids[..n] && whole[n + 1] == ids[n] && |whole| == n + 2;
      var tail := if es[ids[n]].active then [ids[n]] else [];
      assert Active(es, whole) == Active(es, [x] + ids[..n]) + tail;
      assert Active(es, ids) == Active(es, ids[..n]) + tail;
      hide Active;
      Shift(if es[x].active then [x] else [], Active(es, ids[..n]), tail);
    }
  }

  /** One step of the scan. */
  function Scanned(c: Config, be: Backend, es: seq<Entry>, est: Predictor, clock: Clock, id: nat, ch: Choice,
                   k: nat): (r: Choice)
    requires id < |es| && InRange(es, ch.ids) && InRange(es, ch.rest) && ch.ids != [] && |ch.ats| == |ch.ids|
    ensures InRange(es, r.ids) && InRange(es, r.rest) && r.ids != [] && |r.ats| == |r.ids|
  {
    if !es[id].active then ch
    else if Joins(c, be, es, est, ch.ids, id, clock(2 * k + 1)) then
      ch.(ids := ch.ids + [id], ats := ch.ats + [clock(2 * k + 2)], checkedAt := clock(2 * k + 1))
    else ch.(rest := ch.rest + [id])
  }

  lemma SelectStep(c: Config, be: Backend, es: seq<Entry>, est: Predictor, clock: Clock, queue: seq<nat>, ch: Choice,
                   k: nat)
    requires queue != [] && InRange(es, queue) && InRange(es, ch.ids) && InRange(es, ch.rest)
    requires ch.ids != [] && |ch.ats| == |ch.ids|
    ensures Select(c, be, es, est, clock, queue, ch, k)
         == Select(c, be, es, est, clock, queue[1..], Scanned(c, be, es, est, clock, queue[0], ch, k), k + 1)
  {
    hide Joins;
  }

  lemma ScannedAdds(c: Config, be: Backend, es: seq<Entry>, est: Predictor, clock: Clock, id: nat, ch: Choice, k: nat)
    requires id < |es| && InRange(es, ch.ids) && InRange(es, ch.rest) && ch.ids != [] && |ch.ats| == |ch.ids|
    ensures var r := Scanned(c, be, es, est, clock, id, ch, k);
            && (r.ids == ch.ids || r.ids == ch.ids + [id])
            && r.rest == ch.rest + (if es[id].active && r.ids == ch.ids then [id] else [])
            && (!es[id].active ==> r.ids == ch.ids)
  {
    hide Joins;
  }

  lemma {:induction false} SelectChoosesFrom(c: Config, be: Backend, es: seq<Entry>, est: Predictor, clock: Clock,
                                             queue: seq<nat>, ch: Choice, k: nat, x: nat)
    requires InRange(es, queue) && InRange(es, ch.ids) && InRange(es, ch.rest) && ch.ids != [] && |ch.ats| == |ch.ids|
    ensures var r := Select(c, be, es, est, clock, queue, ch, k);
            (x in ch.ids ==> x in r.ids) && (x in r.ids ==> x in ch.ids || x in queue)
    decreases |queue|
  {
    if queue != [] {
      SelectStep(c, be, es, est, clock, queue, ch, k);
      ScannedAdds(c, be, es, est, clock, queue[0], ch, k);
      hide Select, Scanned;
      SelectChoosesFrom(c, be, es, est, clock, queue[1..], Scanned(c, be, es, est, clock, queue[0], ch, k), k + 1, x);
      assert queue == [queue[0]] + queue[1..];
    }
  }

  /** The envelope that is scanned next is chosen now or never. */
  lemma NowOrNever(c: Config, be: Backend, es: seq<Entry>, est: Predictor, clock: Clock, queue: seq<nat>, ch: Choice,
                   k: nat)
    requires queue != [] && InRange(es, queue) && InRange(es, ch.ids) && InRange(es, ch.rest)
    requires ch.ids != [] && |ch.ats| == |ch.ids| && Distinct(queue) && forall i | 0 <= i < |queue| ::
               queue[i] !in ch.ids
    ensures queue[0] in Select(c, be, es, est, clock, queue, ch, k).ids
       <==> Scanned(c, be, es, est, clock, queue[0], ch, k).ids != ch.ids
  {
    var ch1 := Scanned(c, be, es, est, clock, queue[0], ch, k);
    SelectStep(c, be, es, est, clock, queue, ch, k);
    ScannedAdds(c, be, es, est, clock, queue[0], ch, k);
    hide Select, Scanned;
    SelectChoosesFrom(c, be, es, est, clock, queue[1..], ch1, k + 1, queue[0]);
    TailStaysApart(queue, ch.ids, ch1.ids);
  }

  ghost predicate LeftActive(es: seq<Entry>, es': seq<Entry>, queue: seq<nat>, ids: seq<nat>)
    requires InRange(es, queue) && |es'| == |es|
  {
    forall i | 0 <= i < |queue| :: es'[queue[i]].active <==> es[queue[i]].active && queue[i] !in ids
  }

  /** What the scan leaves behind is what is still active once the chosen ones are not. */
  lemma {:induction false} SelectLeaves(c: Config, be: Backend, es: seq<Entry>, es': seq<Entry>, est: Predictor,
                                        clock: Clock, queue: seq<nat>, ch: Choice, k: nat)
    requires InRange(es, queue) && InRange(es, ch.ids) && InRange(es, ch.rest) && ch.ids != [] && |ch.ats| == |ch.ids|
    requires |es'| == |es| && Distinct(queue) && forall i | 0 <= i < |queue| :: queue[i] !in ch.ids
    requires LeftActive(es, es', queue, Select(c, be, es, est, clock, queue, ch, k).ids)
    ensures Select(c, be, es, est, clock, queue, ch, k).rest == ch.rest + Active(es', queue)
    decreases |queue|
  {
    if queue == [] {
      assert ch.rest + Active(es', queue) == ch.rest;
    } else {
      hide Scanned, Active, Select;
      var (id, rest) := (queue[0], queue[1..]);
      var ch1 := Scanned(c, be, es, est, clock, id, ch, k);
      SelectStep(c, be, es, est, clock, queue, ch, k);
      ScannedAdds(c, be, es, est, clock, id, ch, k);
      NowOrNever(c, be, es, est, clock, queue, ch, k);
      assert es'[queue[0]].active <==> es[id].active && ch1.ids == ch.ids;
      LeftTail(es, es', queue, Select(c, be, es, est, clock, queue, ch, k).ids);
      TailStaysApart(queue, ch.ids, ch1.ids);
      SelectLeaves(c, be, es, es', est, clock, rest, ch1, k + 1);
      assert queue == [id] + rest;
      ActiveFront(es', id, rest);
      Shift(ch.rest, if es'[id].active then [id] else [], Active(es', rest));
    }
  }

  lemma LeftTail(es: seq<Entry>, es': seq<Entry>, queue: seq<nat>, ids: seq<nat>)
    requires queue != [] && InRange(es, queue) && |es'| == |es| && LeftActive(es, es', queue, ids)
    ensures InRange(es, queue[1..]) && LeftActive(es, es', queue[1..], ids)
  {
  }

  lemma TailStaysApart(queue: seq<nat>, ids: seq<nat>, ids1: seq<nat>)
    requires queue != [] && Distinct(queue) && (forall i | 0 <= i < |queue| :: queue[i] !in ids)
    requires ids1 == ids || ids1 == ids + [queue[0]]
    ensures Distinct(queue[1..]) && forall i | 0 <= i < |queue[1..]| :: queue[1..][i] !in ids1
    ensures queue[0] !in queue[1..] && queue[0] !in ids
  {
    assert forall i | 0 <= i < |queue[1..]| :: queue[1..][i] == queue[i + 1];
  }

  lemma LastIsAfter(c: Config, es: seq<Entry>, ids: seq<nat>, id: nat)
    requires Sorted(c, es, ids + [id])
    ensures InRange(es, ids) && id < |es|
    ensures ids != [] ==> !Before(KeyOf(c, es, id), KeyOf(c, es, ids[0])) && Sorted(c, es, ids[1..] + [id])
  {
    var whole := ids + [id];
    assert whole[|ids|] == id && forall i | 0 <= i < |ids| :: ids[i] == whole[i];
    if ids != [] {
      hide KeyOf;
      assert Before(KeyOf(c, es, whole[0]), KeyOf(c, es, whole[|ids|]));
      assert ids[1..] + [id] == whole[1..];
    }
  }

  /** Pushing something that sorts after everything else appends it. */
  lemma {:induction false} PushLast(c: Config, es: seq<Entry>, ids: seq<nat>, id: nat)
    requires Sorted(c, es, ids + [id])
    ensures InRange(es, ids) && id < |es| && HeapPush(c, es, ids, id) == ids + [id]
  {
    hide Sorted, Before, KeyOf;
    LastIsAfter(c, es, ids, id);
    if ids != [] {
      PushLast(c, es, ids[1..], id);
      assert ids + [id] == [ids[0]] + (ids[1..] + [id]);
    }
  }

  lemma AppendDistinct(ids: seq<nat>, x: nat)
    requires Distinct(ids) && x !in ids
    ensures Distinct(ids + [x])
  {
  }

  lemma {:induction false} SelectIsDistinct(c: Config, be: Backend, es: seq<Entry>, est: Predictor, clock: Clock,
                                            queue: seq<nat>, ch: Choice, k: nat)
    requires InRange(es, queue) && InRange(es, ch.ids) && InRange(es, ch.rest) && ch.ids != [] && |ch.ats| == |ch.ids|
    requires Distinct(ch.ids) && Distinct(queue) && forall i | 0 <= i < |queue| :: queue[i] !in ch.ids
    ensures Distinct(Select(c, be, es, est, clock, queue, ch, k).ids)
    decreases |queue|
  {
    if queue != [] {
      hide Scanned;
      var ch1 := Scanned(c, be, es, est, clock, queue[0], ch, k);
      SelectStep(c, be, es, est, clock, queue, ch, k);
      ScannedAdds(c, be, es, est, clock, queue[0], ch, k);
      hide Select, Distinct;
      TailStaysApart(queue, ch.ids, ch1.ids);
      AppendDistinct(ch.ids, queue[0]);
      SelectIsDistinct(c, be, es, est, clock, queue[1..], ch1, k + 1);
    }
  }

  lemma HeadApart(heap: seq<nat>)
    requires heap != [] && Distinct(heap)
    ensures Distinct([heap[0]]) && Distinct(heap[1..])
            && (forall i | 0 <= i < |heap[1..]| :: heap[1..][i] !in [heap[0]])
    ensures heap == [heap[0]] + heap[1..]
  {
    assert forall i | 0 <= i < |heap[1..]| :: heap[1..][i] == heap[i + 1];
  }

  lemma DispatchedAreInactive(s: State, ids: seq<nat>, ats: seq<int>, queue: seq<nat>)
    requires InRange(s.entries, ids) && |ats| == |ids| && Distinct(ids) && InRange(s.entries, queue)
    ensures LeftActive(s.entries, DispatchAll(s, ids, ats).entries, queue, ids)
    ensures forall x: nat :: x in ids ==> x < |s.entries| && !DispatchAll(s, ids, ats).entries[x].active
  {
    DispatchAllEffect(s, ids, ats);
    hide DispatchAll;
  }

  lemma DispatchKeepsSorted(c: Config, s: State, ids: seq<nat>, ats: seq<int>, queue: seq<nat>)
    requires InRange(s.entries, ids) && |ats| == |ids| && Distinct(ids) && Sorted(c, s.entries, queue)
    ensures Sorted(c, DispatchAll(s, ids, ats).entries, queue)
  {
    DispatchAllEffect(s, ids, ats);
    hide DispatchAll, Before;
    var r := DispatchAll(s, ids, ats);
    forall id: nat | id < |s.entries| ensures r.entries[id].request == s.entries[id].request {
      if id in ids {
        var i :| 0 <= i < |ids| && ids[i] == id;
        assert r.entries[ids[i]].request == s.entries[ids[i]].request;
      }
    }
  }

  /** After the batch is dispatched, the compacted queue is what the scan left behind. */
  lemma {:induction false} BatchLeavesRest(c: Config, be: Backend, s: State, est: Predictor, clock: Clock,
                                           checkedAt: int)
    requires s.heap != [] && Sorted(c, s.entries, s.heap)
    ensures var ch := TheChoice(c, be, s.entries, est, clock, s.heap, checkedAt);
            var es := DispatchAll(s, ch.ids, ch.ats).entries;
            Distinct(ch.ids) && InRange(es, s.heap) && Active(es, s.heap) == ch.rest && Sorted(c, es, ch.rest)
  {
    SortedIsDistinct(c, s.entries, s.heap);
    HeadApart(s.heap);
    var start := Choice([s.heap[0]], [clock(0)], checkedAt, []);
    var ch := TheChoice(c, be, s.entries, est, clock, s.heap, checkedAt);
    hide Select, Active, DispatchAll, Sorted, Distinct;
    SelectIsDistinct(c, be, s.entries, est, clock, s.heap[1..], start, 0);
    SelectChoosesFrom(c, be, s.entries, est, clock, s.heap[1..], start, 0, s.heap[0]);
    var es := DispatchAll(s, ch.ids, ch.ats).entries;
    DispatchedAreInactive(s, ch.ids, ch.ats, s.heap[1..]);
    SelectLeaves(c, be, s.entries, es, est, clock, s.heap[1..], start, 0);
    ActiveFront(es, s.heap[0], s.heap[1..]);
    DispatchKeepsSorted(c, s, ch.ids, ch.ats, s.heap);
    ActiveIsSublist(c, es, s.heap);
  }

  // ---------------------------------------------------------------- the scan half way

  /** The queue `s` of a scan that started from `s0`, has yet to see `queue` and has made the choice `ch`. */
  ghost predicate Scanning(s0: State, s: State, queue: seq<nat>, ch: Choice) {
    && InRange(s0.entries, ch.ids) && InRange(s0.entries, ch.rest) && InRange(s0.entries, queue)
    && ch.ids != [] && |ch.ats| == |ch.ids| && Distinct(ch.ids) && Distinct(queue)
    && (forall i | 0 <= i < |queue| :: queue[i] !in ch.ids)
    && s == DispatchAll(s0, ch.ids, ch.ats).(heap := queue)
  }

  ghost predicate ScanRange(s0: State, queue: seq<nat>, ch: Choice) {
    && InRange(s0.entries, ch.ids) && InRange(s0.entries, ch.rest) && InRange(s0.entries, queue)
    && ch.ids != [] && |ch.ats| == |ch.ids|
  }

  lemma ScanningParts(s0: State, s: State, queue: seq<nat>, ch: Choice)
    requires Scanning(s0, s, queue, ch)
    ensures ScanRange(s0, queue, ch) && s.heap == queue
  {
    hide DispatchAll;
  }

  lemma ScanStarts(c: Config, s0: State, at: int, checkedAt: int)
    requires s0.heap != [] && Sorted(c, s0.entries, s0.heap)
    ensures Scanning(s0, Dispatch(s0.(heap := s0.heap[1..]), s0.heap[0], at), s0.heap[1..],
                     Choice([s0.heap[0]], [at], checkedAt, []))
  {
    SortedIsDistinct(c, s0.entries, s0.heap);
    HeadApart(s0.heap);
    var (id, queue) := (s0.heap[0], s0.heap[1..]);
    assert [id][..0] == [] && [at][..0] == [];
    assert DispatchAll(s0, [id], [at]) == Dispatch(s0, id, at);
  }

  lemma ScanMeets(s0: State, s: State, queue: seq<nat>, ch: Choice)
    requires Scanning(s0, s, queue, ch) && queue != []
    ensures |s.entries| == |s0.entries| && s.entries[queue[0]] == s0.entries[queue[0]]
    ensures s.heap == queue && InRange(s.entries, queue)
  {
    DispatchAllEffect(s0, ch.ids, ch.ats);
    hide DispatchAll;
  }

  lemma ScanPasses(s0: State, s: State, queue: seq<nat>, ch: Choice, rest: seq<nat>)
    requires Scanning(s0, s, queue, ch) && queue != [] && (rest == ch.rest || rest == ch.rest + [queue[0]])
    ensures Scanning(s0, s.(heap := queue[1..]), queue[1..], ch.(rest := rest))
  {
    hide DispatchAll;
    TailStaysApart(queue, ch.ids, ch.ids);
  }

  lemma ScanTakes(s0: State, s: State, queue: seq<nat>, ch: Choice, at: int, checkedAt: int)
    requires Scanning(s0, s, queue, ch) && queue != []
    ensures InRange(s.entries, queue)
    ensures Scanning(s0, Dispatch(s.(heap := queue[1..]), queue[0], at), queue[1..],
                     ch.(ids := ch.ids + [queue[0]], ats := ch.ats + [at], checkedAt := checkedAt))
  {
    ScanMeets(s0, s, queue, ch);
    var id := queue[0];
    TailStaysApart(queue, ch.ids, ch.ids + [id]);
    AppendDistinct(ch.ids, id);
    DispatchAllOneMore(s0, ch.ids, ch.ats, id, at);
    hide DispatchAll, Distinct;
    var t := DispatchAll(s0, ch.ids, ch.ats);
    assert Dispatch(t.(heap := queue[1..]), id, at) == Dispatch(t, id, at).(heap := queue[1..]);
  }

  lemma DispatchAllOneMore(s: State, ids: seq<nat>, ats: seq<int>, id: nat, at: int)
    requires InRange(s.entries, ids) && |ats| == |ids| && id < |s.entries|
    ensures DispatchAll(s, ids + [id], ats + [at]) == Dispatch(DispatchAll(s, ids, ats), id, at)
  {
    hide Dispatch;
    assert (ids + [id])[..|ids|] == ids && (ats + [at])[..|ids|] == ats;
  }

  /** At the end of the scan the choice is made, and what was set aside is the compacted queue. */
  lemma ScanEnds(c: Config, be: Backend, s0: State, s: State, est: Predictor, clock: Clock, ch: Choice,
                 checkedAt: int, k: nat)
    requires s0.heap != [] && Sorted(c, s0.entries, s0.heap) && Scanning(s0, s, [], ch) && ScanRange(s0, [], ch)
    requires Select(c, be, s0.entries, est, clock, [], ch, k)
          == TheChoice(c, be, s0.entries, est, clock, s0.heap, checkedAt)
    ensures ch == TheChoice(c, be, s0.entries, est, clock, s0.heap, checkedAt)
    ensures Sorted(c, s.entries, ch.rest) && s.heap == [] && s.tally == s0.tally
    ensures s.(heap := ch.rest) == Compact(DispatchAll(s0, ch.ids, ch.ats))
  {
    hide Sorted, DispatchAll, Active, TheChoice;
    BatchLeavesRest(c, be, s0, est, clock, checkedAt);
  }

  /** At its start the scan has chosen the head of the queue. */
  lemma ScanOpens(c: Config, be: Backend, s0: State, est: Predictor, clock: Clock, checkedAt: int)
    requires s0.heap != [] && InRange(s0.entries, s0.heap)
    ensures ScanRange(s0, s0.heap[1..], Choice([s0.heap[0]], [clock(0)], checkedAt, []))
    ensures Select(c, be, s0.entries, est, clock, s0.heap[1..], Choice([s0.heap[0]], [clock(0)], checkedAt, []), 0)
         == TheChoice(c, be, s0.entries, est, clock, s0.heap, checkedAt)
  {
    hide Select;
  }

  lemma TakeBatchParts(c: Config, be: Backend, s0: State, est: Predictor, clock: Clock, checkedAt: int, ch: Choice,
                       r: State)
    requires s0.heap != [] && InRange(s0.entries, s0.heap)
    requires ch == TheChoice(c, be, s0.entries, est, clock, s0.heap, checkedAt)
    requires r == Compact(DispatchAll(s0, ch.ids, ch.ats))
    ensures TakeBatch(c, be, s0, est, clock, checkedAt)
         == r.(tally := Batched(s0.tally, |ch.ids|), worker := Executing(ch.ids, SafeBy(c, est, ch)))
  {
    hide TheChoice, Compact, DispatchAll, SafeBy;
  }

  function Batched(t: Tally, n: nat): Tally {
    t.(dispatched := t.dispatched + n, batches := t.batches + 1, batchItems := t.batchItems + n)
  }
}
