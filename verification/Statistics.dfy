/** Percentiles of a sample list, over exact numbers.  Both the scheduler's metrics and the stage
    profiler report them; the latency estimator takes the ninth decile of its windows. */
module Statistics {
  import opened Types

  ghost predicate Ascending(s: seq<real>) {
    forall i, j | 0 <= i < j < |s| :: s[i] <= s[j]
  }

  function Insert(x: real, s: seq<real>): (r: seq<real>)
    requires Ascending(s)
    ensures Ascending(r)
    ensures |r| == |s| + 1 && r[0] == if s == [] || x <= s[0] then x else s[0]
  {
    if s == [] then [x] else if x <= s[0] then [x] + s else [s[0]] + Insert(x, s[1..])
  }

  lemma {:induction false} InsertKeepsElements(x: real, s: seq<real>)
    requires Ascending(s)
    ensures multiset(Insert(x, s)) == multiset([x] + s)
  {
    if s != [] && x > s[0] {
      InsertKeepsElements(x, s[1..]);
      assert s == [s[0]] + s[1..];
      hide Ascending;
      assert multiset(s) == multiset{s[0]} + multiset(s[1..]);
      assert multiset([s[0]] + Insert(x, s[1..])) == multiset{s[0]} + multiset([x] + s[1..]);
    }
  }

  /** The contract of Python's `sorted` on numbers. */
  function Sorted(s: seq<real>): (r: seq<real>)
    ensures Ascending(r) && |r| == |s|
  {
    if s == [] then [] else Insert(s[0], Sorted(s[1..]))
  }

  lemma {:induction false} SortedIsPermutation(s: seq<real>)
    ensures multiset(Sorted(s)) == multiset(s)
  {
    if s != [] {
      SortedIsPermutation(s[1..]);
      InsertKeepsElements(s[0], Sorted(s[1..]));
      assert s == [s[0]] + s[1..];
    }
  }

  lemma {:induction false} SortedIsUnique(a: seq<real>, b: seq<real>)
    requires Ascending(a) && Ascending(b)
    requires multiset(a) == multiset(b)
    ensures a == b
  {
    assert |a| == |multiset(a)| == |multiset(b)| == |b|;
    if a != [] {
      HeadsAgree(a, b);
      DropHead(a);
      DropHead(b);
      SortedIsUnique(a[1..], b[1..]);
      assert a == [a[0]] + a[1..] && b == [b[0]] + b[1..];
    }
  }

  lemma HeadsAgree(a: seq<real>, b: seq<real>)
    requires a != [] && b != [] && Ascending(a) && Ascending(b) && multiset(a) == multiset(b)
    ensures a[0] == b[0]
  {
    assert a[0] in multiset(b) && b[0] in multiset(a);
  }

  lemma DropHead(s: seq<real>)
    requires s != []
    ensures multiset(s[1..]) == multiset(s) - multiset{s[0]}
  {
    assert s == [s[0]] + s[1..];
  }

  // ---------------------------------------------------------------- totals

  function Total(s: seq<real>): real {
    if s == [] then 0.0 else s[0] + Total(s[1..])
  }

  lemma {:induction false} TotalGrows(s: seq<real>, x: real)
    ensures Total(s + [x]) == Total(s) + x
  {
    if s == [] {
      assert [x][1..] == [];
    } else {
      TotalGrows(s[1..], x);
      assert (s + [x])[1..] == s[1..] + [x];
    }
  }

  lemma {:induction false} InsertTotal(x: real, s: seq<real>)
    requires Ascending(s)
    ensures Total(Insert(x, s)) == x + Total(s)
  {
    assert ([x] + s)[1..] == s;
    if s != [] && x > s[0] {
      InsertTotal(x, s[1..]);
      assert ([s[0]] + Insert(x, s[1..]))[1..] == Insert(x, s[1..]);
    }
  }

  lemma {:induction false} SortedTotal(s: seq<real>)
    ensures Total(Sorted(s)) == Total(s)
  {
    if s != [] {
      SortedTotal(s[1..]);
      InsertTotal(s[0], Sorted(s[1..]));
    }
  }

  // ---------------------------------------------------------------- percentiles

  /** Where the percentile lies among the indices 0 .. n - 1 of the sorted samples. */
  function Position(n: nat, p: real): real {
    (n - 1) as real * p
  }

  lemma PositionInRange(n: nat, p: real)
    requires n >= 1 && 0.0 <= p <= 1.0
    ensures 0.0 <= Position(n, p) <= (n - 1) as real
    ensures 0 <= Position(n, p).Floor < n
    ensures Position(n, p).Floor as real != Position(n, p) ==> Position(n, p).Floor + 1 < n
  {
    FractionIsWithin((n - 1) as real, p);
  }

  lemma FractionIsWithin(d: real, p: real)
    requires 0.0 <= d && 0.0 <= p <= 1.0
    ensures 0.0 <= d * p <= d
  {
    assert d * (1.0 - p) >= 0.0;
    assert d * (1.0 - p) == d - d * p;
  }

  lemma PositionIsMonotone(n: nat, p: real, q: real)
    requires n >= 1 && p <= q
    ensures Position(n, p) <= Position(n, q) && Position(n, p).Floor <= Position(n, q).Floor
  {
    ProductIsMonotone((n - 1) as real, p, q);
  }

  lemma ProductIsMonotone(d: real, v: real, w: real)
    requires 0.0 <= d && v <= w
    ensures d * v <= d * w
  {
    assert d * (w - v) >= 0.0;
  }

  /** The mean of `a` and `b` with weight `w` on `b`. */
  function Mean(a: real, b: real, w: real): real {
    a * (1.0 - w) + b * w
  }

  lemma MeanIsMonotone(a: real, b: real, v: real, w: real)
    requires a <= b && v <= w
    ensures Mean(a, b, v) <= Mean(a, b, w)
  {
    ProductIsMonotone(b - a, v, w);
  }

  lemma MeanIsBetween(a: real, b: real, w: real)
    requires a <= b && 0.0 <= w <= 1.0
    ensures a <= Mean(a, b, w) <= b
  {
    MeanIsMonotone(a, b, 0.0, w);
    MeanIsMonotone(a, b, w, 1.0);
  }

  /** Linear interpolation between the two order statistics around the position. */
  function Interpolated(ordered: seq<real>, p: real): real
    requires ordered != [] && 0.0 <= p <= 1.0
  {
    PositionInRange(|ordered|, p);
    var position := Position(|ordered|, p);
    var lower := position.Floor;
    if lower as real == position then ordered[lower]
    else Mean(ordered[lower], ordered[lower + 1], position - lower as real)
  }

  /** `_percentile`: nothing for an empty list. */
  function Percentile(values: seq<real>, p: real): Option<real>
    requires 0.0 <= p <= 1.0
  {
    var ordered := Sorted(values);
    if ordered == [] then None else Some(Interpolated(ordered, p))
  }

  /** The value lies between the two order statistics around its position. */
  lemma InterpolatedIsBetween(ordered: seq<real>, p: real)
    requires ordered != [] && Ascending(ordered) && 0.0 <= p <= 1.0
    ensures var lower := Position(|ordered|, p).Floor;
            && 0 <= lower < |ordered|
            && ordered[lower] <= Interpolated(ordered, p)
            && (lower + 1 < |ordered| ==> Interpolated(ordered, p) <= ordered[lower + 1])
            && (lower + 1 == |ordered| ==> Interpolated(ordered, p) == ordered[lower])
  {
    hide Position, Mean;
    PositionInRange(|ordered|, p);
    var position := Position(|ordered|, p);
    var lower := position.Floor;
    if lower as real != position {
      MeanIsBetween(ordered[lower], ordered[lower + 1], position - lower as real);
    }
  }

  lemma InterpolatedAsMean(ordered: seq<real>, p: real)
    requires ordered != [] && 0.0 <= p <= 1.0
    ensures var position := Position(|ordered|, p);
            0 <= position.Floor && (position.Floor + 1 < |ordered| ==>
                                      Interpolated(ordered, p)
                                      == Mean(ordered[position.Floor], ordered[position.Floor + 1],
                                              position - position.Floor as real))
  {
    PositionInRange(|ordered|, p);
  }

  lemma {:induction false} InterpolatedIsMonotone(ordered: seq<real>, p: real, q: real)
    requires ordered != [] && Ascending(ordered) && 0.0 <= p <= q <= 1.0
    ensures Interpolated(ordered, p) <= Interpolated(ordered, q)
  {
    hide Position, Mean, Interpolated;
    var (x, y) := (Position(|ordered|, p), Position(|ordered|, q));
    PositionIsMonotone(|ordered|, p, q);
    InterpolatedIsBetween(ordered, p);
    InterpolatedIsBetween(ordered, q);
    if x.Floor == y.Floor && y.Floor + 1 < |ordered| {
      InterpolatedAsMean(ordered, p);
      InterpolatedAsMean(ordered, q);
      MeanIsMonotone(ordered[y.Floor], ordered[y.Floor + 1], x - x.Floor as real, y - y.Floor as real);
    } else if x.Floor < y.Floor {
      assert ordered[x.Floor + 1] <= ordered[y.Floor];
    }
  }

  /** How many samples do not exceed `bound`. */
  function CountAtMost(s: seq<real>, bound: real): nat {
    if s == [] then 0 else (if s[0] <= bound then 1 else 0) + CountAtMost(s[1..], bound)
  }

  lemma {:induction false} CountAtMostAfterInsert(x: real, s: seq<real>, bound: real)
    requires Ascending(s)
    ensures CountAtMost(Insert(x, s), bound) == CountAtMost([x] + s, bound)
  {
    assert ([x] + s)[1..] == s;
    if s != [] && x > s[0] {
      CountAtMostAfterInsert(x, s[1..], bound);
      assert ([x] + s[1..])[1..] == s[1..];
      assert ([s[0]] + Insert(x, s[1..]))[1..] == Insert(x, s[1..]);
    }
  }

  lemma {:induction false} SortingKeepsCounts(s: seq<real>, bound: real)
    ensures CountAtMost(Sorted(s), bound) == CountAtMost(s, bound)
  {
    if s != [] {
      SortingKeepsCounts(s[1..], bound);
      CountAtMostAfterInsert(s[0], Sorted(s[1..]), bound);
      assert ([s[0]] + Sorted(s[1..]))[1..] == Sorted(s[1..]);
    }
  }

  lemma {:induction false} CountAtMostOfPrefix(s: seq<real>, n: nat, bound: real)
    requires n <= |s| && forall i | 0 <= i < n :: s[i] <= bound
    ensures CountAtMost(s, bound) >= n
  {
    if n > 0 {
      CountAtMostOfPrefix(s[1..], n - 1, bound);
    }
  }

  lemma SortedKeepsMembers(s: seq<real>, k: nat)
    requires k < |s|
    ensures Sorted(s)[k] in s
  {
    SortedIsPermutation(s);
    assert Sorted(s)[k] in multiset(Sorted(s));
  }

  /** The percentile lies between two of the samples. */
  lemma {:induction false} PercentileIsWithinSamples(values: seq<real>, p: real)
    requires values != [] && 0.0 <= p <= 1.0
    ensures Percentile(values, p).Some?
    ensures exists x, y | x in values && y in values :: x <= Percentile(values, p).value <= y
  {
    var ordered := Sorted(values);
    var lower := Position(|ordered|, p).Floor;
    InterpolatedIsBetween(ordered, p);
    var upper := if lower + 1 < |ordered| then lower + 1 else lower;
    SortedKeepsMembers(values, lower);
    SortedKeepsMembers(values, upper);
    assert ordered[lower] <= Percentile(values, p).value <= ordered[upper];
  }

  lemma InterpolatedCoversItsShare(ordered: seq<real>, p: real)
    requires ordered != [] && Ascending(ordered) && 0.0 <= p <= 1.0
    ensures CountAtMost(ordered, Interpolated(ordered, p)) >= Position(|ordered|, p).Floor + 1
  {
    var lower := Position(|ordered|, p).Floor;
    var r := Interpolated(ordered, p);
    InterpolatedIsBetween(ordered, p);
    CountAtMostOfPrefix(ordered, lower + 1, r);
  }

  /** What a percentile means: at least floor((n - 1) * p) + 1 of the samples do not exceed it. */
  lemma {:induction false} PercentileCoversItsShare(values: seq<real>, p: real)
    requires values != [] && 0.0 <= p <= 1.0
    ensures Percentile(values, p).Some?
    ensures CountAtMost(values, Percentile(values, p).value) >= ((|values| - 1) as real * p).Floor + 1
  {
    hide Interpolated, Sorted, CountAtMost;
    InterpolatedCoversItsShare(Sorted(values), p);
    SortingKeepsCounts(values, Interpolated(Sorted(values), p));
  }

  lemma MeanAsStep(a: real, b: real, w: real)
    ensures Mean(a, b, w) == a + (b - a) * w
  {
  }

  /** With h = (n - 1) * p and j its whole part: the value of rank j, and from there the fraction of h of the way to
      the next one. */
  ghost predicate IsQuantile(ordered: seq<real>, p: real, x: real) {
    var h := (|ordered| - 1) as real * p;
    var j := h.Floor;
    && 0 <= j < |ordered|
    && (j + 1 == |ordered| ==> x == ordered[j])
    && (j + 1 < |ordered| ==> x == ordered[j] + (ordered[j + 1] - ordered[j]) * (h - j as real))
  }

  lemma InterpolatedExactly(ordered: seq<real>, p: real)
    requires ordered != [] && Ascending(ordered) && 0.0 <= p <= 1.0
    ensures IsQuantile(ordered, p, Interpolated(ordered, p))
  {
    InterpolatedIsBetween(ordered, p);
    InterpolatedAsMean(ordered, p);
    hide Interpolated, Mean;
    var h := (|ordered| - 1) as real * p;
    if h.Floor + 1 < |ordered| {
      MeanAsStep(ordered[h.Floor], ordered[h.Floor + 1], h - h.Floor as real);
    }
  }

  /** What a percentile is, for any ascending arrangement of the samples. */
  lemma {:induction false} PercentileExactly(values: seq<real>, ordered: seq<real>, p: real)
    requires values != [] && Ascending(ordered) && multiset(ordered) == multiset(values) && 0.0 <= p <= 1.0
    ensures |ordered| == |values| && Percentile(values, p).Some?
    ensures IsQuantile(ordered, p, Percentile(values, p).value)
  {
    hide Interpolated, Ascending, IsQuantile, Sorted;
    SameMembersSameSize(values, ordered);
    SortedIsPermutation(values);
    SortedIsUnique(Sorted(values), ordered);
    InterpolatedExactly(ordered, p);
  }

  lemma SameMembersSameSize(a: seq<real>, b: seq<real>)
    requires multiset(a) == multiset(b)
    ensures |a| == |b|
  {
    assert |multiset(a)| == |a| && |multiset(b)| == |b|;
  }

  lemma HalfOfEven(n: int, k: int)
    requires n == 2 * k
    ensures n as real * 0.5 == k as real && (n as real * 0.5).Floor == k
  {
    assert n as real == 2.0 * k as real;
  }

  lemma MiddleQuantile(ordered: seq<real>, k: nat, x: real)
    requires |ordered| - 1 == 2 * k && IsQuantile(ordered, 0.5, x)
    ensures x == ordered[k]
  {
    HalfOfEven(|ordered| - 1, k);
  }

  /** The median of an odd number of samples is the middle one. */
  lemma {:induction false} MedianIsTheMiddle(values: seq<real>, ordered: seq<real>)
    requires |values| % 2 == 1 && Ascending(ordered) && multiset(ordered) == multiset(values)
    ensures |ordered| == |values| && Percentile(values, 0.5) == Some(ordered[|values| / 2])
  {
    hide Percentile, Ascending, IsQuantile;
    PercentileExactly(values, ordered, 0.5);
    MiddleQuantile(ordered, |values| / 2, Percentile(values, 0.5).value);
  }

  /** A percentile does not depend on the order in which the samples arrived. */
  lemma {:induction false} PercentileIgnoresOrder(a: seq<real>, b: seq<real>, p: real)
    requires multiset(a) == multiset(b) && 0.0 <= p <= 1.0
    ensures Percentile(a, p) == Percentile(b, p)
  {
    SortedIsPermutation(a);
    SortedIsPermutation(b);
    SortedIsUnique(Sorted(a), Sorted(b));
  }

  lemma AtLeastLeast(ordered: seq<real>, p: real)
    requires ordered != [] && Ascending(ordered) && 0.0 <= p <= 1.0
    ensures ordered[0] <= Interpolated(ordered, p)
  {
    hide Interpolated, Position;
    InterpolatedIsBetween(ordered, p);
  }

  lemma AtMostGreatest(ordered: seq<real>, p: real)
    requires ordered != [] && Ascending(ordered) && 0.0 <= p <= 1.0
    ensures Interpolated(ordered, p) <= ordered[|ordered| - 1]
  {
    hide Interpolated, Position;
    InterpolatedIsBetween(ordered, p);
  }

  /** The order in which a snapshot reports its figures: min <= p50 <= p95 <= p99 <= max. */
  lemma {:induction false} SnapshotIsOrdered(values: seq<real>)
    requires values != []
    ensures var ordered := Sorted(values);
            ordered[0] <= Interpolated(ordered, 0.50) <= Interpolated(ordered, 0.95)
         <= Interpolated(ordered, 0.99) <= ordered[|ordered| - 1]
  {
    var ordered := Sorted(values);
    hide Interpolated, Sorted;
    AtLeastLeast(ordered, 0.50);
    InterpolatedIsMonotone(ordered, 0.50, 0.95);
    InterpolatedIsMonotone(ordered, 0.95, 0.99);
    AtMostGreatest(ordered, 0.99);
  }
}
