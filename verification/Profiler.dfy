/** The stage profiler: bounded samples by (name, unit), and the ordered figures of a snapshot. */
module Profiler {
  import opened Types
  import opened Lexicographic
  import Statistics

  type Key = (string, string)

  datatype ProfileMetric = ProfileMetric(
    name: string,
    unit: string,
    count: nat,
    total: real,
    mean: real,
    minimum: real,
    maximum: real,
    p50: real,
    p95: real,
    p99: real)

  datatype Observation = Observation(key: Key, value: real)

  function Sum(values: seq<real>): real {
    if values == [] then 0.0 else Sum(values[..|values| - 1]) + values[|values| - 1]
  }

  lemma {:induction false} SumIsTotal(values: seq<real>)
    ensures Sum(values) == Statistics.Total(values)
  {
    if values != [] {
      SumIsTotal(values[..|values| - 1]);
      Statistics.TotalGrows(values[..|values| - 1], values[|values| - 1]);
      assert values == values[..|values| - 1] + [values[|values| - 1]];
    }
  }

  /** The observed values of one key, in order. */
  function Of(history: seq<Observation>, key: Key): seq<real> {
    if history == [] then []
    else
      var last := history[|history| - 1];
      Of(history[..|history| - 1], key) + if last.key == key then [last.value] else []
  }

  function First(values: seq<real>, n: nat): seq<real> {
    if |values| <= n then values else values[..n]
  }

  lemma FirstGrows(values: seq<real>, x: real, n: nat)
    ensures First(values + [x], n) == if |First(values, n)| < n then First(values, n) + [x] else First(values, n)
  {
  }

  lemma FirstOfNone(n: nat)
    ensures First([], n) == []
  {
  }

  lemma OneMoreObserved(history: seq<Observation>, key: Key, value: real)
    ensures forall k: Key :: Of(history + [Observation(key, value)], k)
                             == if k == key then Of(history, k) + [value] else Of(history, k)
  {
    assert (history + [Observation(key, value)])[..|history|] == history;
  }

  // ---------------------------------------------------------------- key order

  /** Python's order on pairs of strings. */
  predicate KeyBefore(a: Key, b: Key) {
    NameBefore(a.0, b.0) || (a.0 == b.0 && NameBefore(a.1, b.1))
  }

  lemma KeysAreOrdered(a: Key, b: Key, c: Key)
    ensures a == b || KeyBefore(a, b) || KeyBefore(b, a)
    ensures !KeyBefore(a, a)
    ensures KeyBefore(a, b) && KeyBefore(b, c) ==> KeyBefore(a, c)
  {
    hide LexBefore;
    NamesAreTotal(a.0, b.0);
    NamesAreTotal(a.1, b.1);
    LexIrreflexive(Codes(a.0));
    LexIrreflexive(Codes(a.1));
    if NameBefore(a.0, b.0) && NameBefore(b.0, c.0) {
      LexTransitive(Codes(a.0), Codes(b.0), Codes(c.0));
    }
    if NameBefore(a.1, b.1) && NameBefore(b.1, c.1) {
      LexTransitive(Codes(a.1), Codes(b.1), Codes(c.1));
    }
  }

  ghost predicate IsLeast(key: Key, keys: set<Key>) {
    key in keys && forall other | other in keys && other != key :: KeyBefore(key, other)
  }

  lemma {:induction false} LeastExists(keys: set<Key>) returns (key: Key)
    requires keys != {}
    ensures IsLeast(key, keys)
    decreases |keys|
  {
    hide KeyBefore;
    var first :| first in keys;
    var rest := keys - {first};
    key := first;
    if rest != {} {
      var least := LeastExists(rest);
      KeysAreOrdered(first, least, least);
      if KeyBefore(least, first) {
        key := least;
        assert forall other | other in keys && other != key :: other == first || other in rest;
      } else {
        forall other | other in keys && other != key ensures KeyBefore(key, other) {
          assert other in rest;
          KeysAreOrdered(first, least, other);
        }
      }
    } else {
      assert forall other | other in keys :: other == first || other in rest;
    }
  }

  ghost predicate KeysAscend(keys: seq<Key>) {
    forall i, j | 0 <= i < j < |keys| ::
      NameBefore(keys[i].0, keys[j].0) || (keys[i].0 == keys[j].0 && NameBefore(keys[i].1, keys[j].1))
  }

  /** `sorted` on the keys of the copied samples. */
  method SortedKeys(keys: set<Key>) returns (r: seq<Key>)
    ensures KeysAscend(r) && (forall key :: key in r <==> key in keys)
  {
    hide NameBefore;
    r := [];
    var todo := keys;
    while todo != {}
      invariant KeysAscend(r) && todo <= keys && forall key :: key in keys <==> key in r || key in todo
      invariant forall i, key | 0 <= i < |r| && key in todo :: KeyBefore(r[i], key)
    {
      ghost var least := LeastExists(todo);
      var key :| key in todo && forall other | other in todo && other != key :: KeyBefore(key, other);
      todo := todo - {key};
      r := r + [key];
    }
  }

  // ---------------------------------------------------------------- the profiler

  /** What a snapshot says of one key. */
  ghost predicate Describes(m: ProfileMetric, key: Key, values: seq<real>) {
    && m.name == key.0 && m.unit == key.1 && values != []
    && m.count == |values| && m.total == Statistics.Total(values) && m.mean == m.total / m.count as real
    && m.minimum <= m.p50 <= m.p95 <= m.p99 <= m.maximum
    && m.minimum in values && m.maximum in values && (forall v | v in values :: m.minimum <= v <= m.maximum)
    && Statistics.Percentile(values, 0.50) == Some(m.p50)
    && Statistics.Percentile(values, 0.95) == Some(m.p95)
    && Statistics.Percentile(values, 0.99) == Some(m.p99)
  }

  lemma PercentileOf(values: seq<real>, p: real)
    requires values != [] && 0.0 <= p <= 1.0
    ensures Statistics.Percentile(values, p) == Some(Statistics.Interpolated(Statistics.Sorted(values), p))
  {
    hide Statistics.Interpolated;
  }

  method Describe(key: Key, values: seq<real>) returns (m: ProfileMetric)
    requires values != []
    ensures Describes(m, key, values)
  {
    var ordered := Statistics.Sorted(values);
    Statistics.SnapshotIsOrdered(values);
    SortedEnds(values);
    Statistics.SortedTotal(values);
    SumIsTotal(ordered);
    PercentileOf(values, 0.50);
    PercentileOf(values, 0.95);
    PercentileOf(values, 0.99);
    hide Statistics.Interpolated, Statistics.Sorted, Statistics.Total, Statistics.Percentile, Sum;
    var (n, total) := (|ordered|, Sum(ordered));
    m := ProfileMetric(key.0, key.1, n, total, total / n as real, ordered[0],
                       ordered[|ordered| - 1], Statistics.Interpolated(ordered, 0.50),
                       Statistics.Interpolated(ordered, 0.95), Statistics.Interpolated(ordered, 0.99));
  }

  lemma SortedEnds(values: seq<real>)
    requires values != []
    ensures var ordered := Statistics.Sorted(values);
            && |ordered| == |values| && ordered[0] in values && ordered[|ordered| - 1] in values
            && forall v | v in values :: ordered[0] <= v <= ordered[|ordered| - 1]
  {
    hide Statistics.Sorted;
    var ordered := Statistics.Sorted(values);
    Statistics.SortedIsPermutation(values);
    assert |multiset(values)| == |values| && |multiset(ordered)| == |ordered|;
    Statistics.SortedKeepsMembers(values, 0);
    Statistics.SortedKeepsMembers(values, |ordered| - 1);
    forall v | v in values ensures ordered[0] <= v <= ordered[|ordered| - 1] {
      assert v in multiset(ordered);
      var k :| 0 <= k < |ordered| && ordered[k] == v;
    }
  }

  /** The samples of a key are its first so-and-so many observations. */
  ghost predicate Samples(samples: map<Key, seq<real>>, history: seq<Observation>, limit: nat) {
    && (forall key | key in samples :: samples[key] != [] && samples[key] == First(Of(history, key), limit))
    && (forall key | key !in samples :: Of(history, key) == [])
  }

  lemma StoresOne(samples: map<Key, seq<real>>, history: seq<Observation>, key: Key, value: real, limit: nat)
    requires limit >= 1 && Samples(samples, history, limit)
    ensures var known := if key in samples then samples[key] else [];
            Samples(samples[key := if |known| < limit then known + [value] else known],
                    history + [Observation(key, value)], limit)
  {
    OneMoreObserved(history, key, value);
    FirstGrows(Of(history, key), value, limit);
    FirstOfNone(limit);
    hide Of, First;
  }

  class StageProfiler {
    const sampleLimit: nat
    var samples: map<Key, seq<real>>
    ghost var history: seq<Observation>

    ghost predicate Valid()
      reads this
    {
      sampleLimit >= 1 && Samples(samples, history, sampleLimit)
    }

    constructor (sampleLimit: nat)
      requires sampleLimit >= 1
      ensures Valid() && this.sampleLimit == sampleLimit && history == [] && samples == map[]
    {
      this.sampleLimit := sampleLimit;
      samples, history := map[], [];
    }

    method Observe(name: string, value: real, unit: string) returns (r: Result<(), string>)
      requires Valid()
      modifies this
      ensures Valid()
      ensures r.Err? <==> name == "" || unit == ""
      ensures history == if r.Ok? then old(history) + [Observation((name, unit), value)] else old(history)
    {
      hide Of, First, Samples;
      if name == "" || unit == "" {
        return Err("profile metric name and unit must be non-empty");
      }
      var key := (name, unit);
      ghost var before := history;
      ghost var known := if key in samples then samples[key] else [];
      history := history + [Observation(key, value)];
      StoresOne(samples, before, key, value, sampleLimit);
      if key !in samples {
        samples := samples[key := []];
      }
      if |samples[key]| < sampleLimit {
        samples := samples[key := samples[key] + [value]];
      }
      assert samples == old(samples)[key := if |known| < sampleLimit then known + [value] else known];
      return Ok(());
    }

    /** One metric per observed key, in key order. */
    method Snapshot() returns (metrics: seq<ProfileMetric>, keys: seq<Key>)
      requires Valid()
      ensures KeysAscend(keys) && (forall key :: key in keys <==> Of(history, key) != [])
      ensures |metrics| == |keys|
      ensures forall i | 0 <= i < |keys| :: Describes(metrics[i], keys[i], First(Of(history, keys[i]), sampleLimit))
    {
      keys := SortedKeys(samples.Keys);
      metrics := [];
      hide KeysAscend, Describes;
      for i := 0 to |keys|
        invariant |metrics| == i
        invariant forall j | 0 <= j < i :: Describes(metrics[j], keys[j], First(Of(history, keys[j]), sampleLimit))
      {
        assert keys[i] in keys;
        var metric := Describe(keys[i], samples[keys[i]]);
        metrics := metrics + [metric];
      }
    }
  }
}
