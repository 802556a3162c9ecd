/** The learned batch-latency estimate that the HTTP and SmolVLA backends share: a rolling window of
    measured latencies per batch size, the ninth decile of each window scaled to the requested size,
    the largest of these times a safety factor, and a configured floor. */
module LatencyEstimator {
  import opened Types
  import opened Statistics

  ghost predicate NonNegative(s: seq<real>) {
    forall i | 0 <= i < |s| :: s[i] >= 0.0
  }

  /** The per-size windows, with the sizes in the order in which they were first seen. */
  datatype Latencies = Latencies(sizes: seq<nat>, samples: map<nat, seq<real>>) {
    ghost predicate Valid() {
      && (forall s :: s in sizes <==> s in samples)
      && (forall s | s in samples :: s >= 1 && NonNegative(samples[s]))
    }
  }

  datatype Settings = Settings(window: nat, safetyFactor: real, initial: Option<real>) {
    predicate Valid() {
      window >= 1 && safetyFactor >= 1.0 && (initial.Some? ==> initial.value >= 0.0)
    }
  }

  datatype Measurement = Measurement(size: nat, elapsedMs: real)

  // ---------------------------------------------------------------- the windows

  /** Appending to a deque of bounded length. */
  function Push(samples: seq<real>, x: real, window: nat): seq<real>
    requires window >= 1
  {
    var grown := samples + [x];
    if |grown| > window then grown[|grown| - window..] else grown
  }

  function Observe(l: Latencies, m: Measurement, window: nat): Latencies
    requires window >= 1
  {
    var known := if m.size in l.samples then l.samples[m.size] else [];
    Latencies(if m.size in l.samples then l.sizes else l.sizes + [m.size],
              l.samples[m.size := Push(known, m.elapsedMs, window)])
  }

  /** The windows after a whole history of successful backend calls. */
  function After(history: seq<Measurement>, window: nat): Latencies
    requires window >= 1
  {
    if history == [] then Latencies([], map[])
    else Observe(After(history[..|history| - 1], window), history[|history| - 1], window)
  }

  function OfSize(history: seq<Measurement>, size: nat): seq<real> {
    if history == [] then []
    else
      var m := history[|history| - 1];
      OfSize(history[..|history| - 1], size) + if m.size == size then [m.elapsedMs] else []
  }

  function Last<T>(s: seq<T>, n: nat): seq<T> {
    if |s| > n then s[|s| - n..] else s
  }

  lemma PushKeepsTheLast(s: seq<real>, x: real, window: nat)
    requires window >= 1
    ensures Push(Last(s, window), x, window) == Last(s + [x], window)
  {
  }

  /** After any history the window of a size is exactly the last `window` measurements of that size. */
  lemma {:induction false} WindowsAreTheLastSamples(history: seq<Measurement>, window: nat, size: nat)
    requires window >= 1
    ensures var l := After(history, window);
            && (size in l.samples <==> OfSize(history, size) != [])
            && (size in l.samples ==> l.samples[size] == Last(OfSize(history, size), window))
  {
    if history != [] {
      var (before, m) := (history[..|history| - 1], history[|history| - 1]);
      WindowsAreTheLastSamples(before, window, size);
      if m.size == size {
        PushKeepsTheLast(OfSize(before, size), m.elapsedMs, window);
      }
    }
  }

  ghost predicate Measured(history: seq<Measurement>) {
    forall m | m in history :: m.size >= 1 && m.elapsedMs >= 0.0
  }

  lemma ObserveKeepsValid(l: Latencies, m: Measurement, window: nat)
    requires l.Valid() && window >= 1 && m.size >= 1 && m.elapsedMs >= 0.0
    ensures Observe(l, m, window).Valid()
    ensures forall s | s in l.samples && l.samples[s] != [] :: Observe(l, m, window).samples[s] != []
  {
  }

  lemma {:induction false} LearnedLatenciesAreValid(history: seq<Measurement>, window: nat)
    requires window >= 1 && Measured(history)
    ensures After(history, window).Valid()
  {
    if history != [] {
      LearnedLatenciesAreValid(history[..|history| - 1], window);
      ObserveKeepsValid(After(history[..|history| - 1], window), history[|history| - 1], window);
    }
  }

  // ---------------------------------------------------------------- the ninth decile

  /** `statistics.quantiles(samples, n=10, method="inclusive")[8]`, or the only sample. */
  function NinthDecile(samples: seq<real>): real
    requires samples != []
  {
    if |samples| == 1 then samples[0]
    else
      var ordered := Sorted(samples);
      var m := |samples| - 1;
      var (j, delta) := (9 * m / 10, 9 * m % 10);
      (ordered[j] * (10 - delta) as real + ordered[j + 1] * delta as real) / 10.0
  }

  lemma DecilePosition(m: nat)
    ensures var (j, delta) := (9 * m / 10, 9 * m % 10);
            && Position(m + 1, 0.9) == j as real + delta as real / 10.0
            && Position(m + 1, 0.9).Floor == j
            && (m > 0 ==> j < m)
  {
  }

  /** The decile is the 0.9 percentile that the metrics would report for the same samples. */
  lemma {:induction false} NinthDecileIsPercentile(samples: seq<real>)
    requires samples != []
    ensures Percentile(samples, 0.9) == Some(NinthDecile(samples))
  {
    hide Sorted, Position, Mean;
    var ordered := Sorted(samples);
    var m := |samples| - 1;
    var (j, delta) := (9 * m / 10, 9 * m % 10);
    DecilePosition(m);
    if m == 0 {
      SortedKeepsMembers(samples, 0);
    } else {
      WeightsInTenths(ordered[j], ordered[j + 1], delta);
      assert Interpolated(ordered, 0.9) == NinthDecile(samples);
    }
  }

  lemma WeightsInTenths(a: real, b: real, delta: int)
    ensures (a * (10 - delta) as real + b * delta as real) / 10.0
         == Mean(a, b, delta as real / 10.0)
    ensures delta == 0 ==> (a * (10 - delta) as real + b * delta as real) / 10.0 == a
  {
  }

  lemma NinthDecileIsNonNegative(samples: seq<real>)
    requires samples != [] && NonNegative(samples)
    ensures NinthDecile(samples) >= 0.0
  {
    NinthDecileIsPercentile(samples);
    PercentileIsWithinSamples(samples, 0.9);
  }

  // ---------------------------------------------------------------- the estimate

  /** How much slower a batch of `batchSize` is taken to be than the observed size. */
  function Scale(batchSize: nat, observedSize: nat): real
    requires observedSize >= 1
  {
    MaxReal(1.0, batchSize as real / observedSize as real)
  }

  function Candidate(samples: seq<real>, batchSize: nat, observedSize: nat): real
    requires samples != [] && observedSize >= 1
  {
    NinthDecile(samples) * Scale(batchSize, observedSize)
  }

  /** The scaled deciles of the first `n` non-empty windows. */
  function Candidates(l: Latencies, batchSize: nat, n: nat): seq<real>
    requires l.Valid() && n <= |l.sizes|
  {
    if n == 0 then []
    else
      var size := l.sizes[n - 1];
      Candidates(l, batchSize, n - 1)
      + if l.samples[size] == [] then [] else [Candidate(l.samples[size], batchSize, size)]
  }

  /** The contract of Python's `max` on a non-empty list of numbers. */
  function MaxOf(s: seq<real>): (r: real)
    requires s != []
    ensures r in s && forall x | x in s :: x <= r
  {
    if |s| == 1 then s[0]
    else
      assert s == s[..|s| - 1] + [s[|s| - 1]];
      MaxReal(MaxOf(s[..|s| - 1]), s[|s| - 1])
  }

  /** `max(candidates) * safety_factor`, if there is any candidate. */
  function Learn(candidates: seq<real>, safetyFactor: real): Option<real> {
    if candidates == [] then None else Some(MaxOf(candidates) * safetyFactor)
  }

  /** The estimate that `estimate_batch_latency_ms` returns. */
  function Estimate(l: Latencies, c: Settings, batchSize: nat): Option<real>
    requires l.Valid()
  {
    var learned := Learn(Candidates(l, batchSize, |l.sizes|), c.safetyFactor);
    if c.initial.None? then learned
    else if learned.None? then c.initial
    else Some(MaxReal(learned.value, c.initial.value))
  }

  ghost predicate HasSamples(l: Latencies, size: nat) {
    size in l.sizes && size in l.samples && l.samples[size] != []
  }

  lemma {:induction false} CandidateOfWindow(l: Latencies, batchSize: nat, n: nat, size: nat)
    requires l.Valid() && n <= |l.sizes| && size in l.sizes[..n] && l.samples[size] != []
    ensures Candidate(l.samples[size], batchSize, size) in Candidates(l, batchSize, n)
  {
    hide Candidate;
    if l.sizes[n - 1] != size {
      CandidateOfWindow(l, batchSize, n - 1, size);
    }
  }

  lemma {:induction false} WindowOfCandidate(l: Latencies, batchSize: nat, n: nat, x: real) returns (size: nat)
    requires l.Valid() && n <= |l.sizes| && x in Candidates(l, batchSize, n)
    ensures HasSamples(l, size)
    ensures x == Candidate(l.samples[size], batchSize, size)
  {
    hide Candidate;
    size := l.sizes[n - 1];
    if x in Candidates(l, batchSize, n - 1) {
      size := WindowOfCandidate(l, batchSize, n - 1, x);
    }
  }

  lemma NoCandidatesWithoutSamples(l: Latencies, batchSize: nat, size: nat)
    requires l.Valid() && Candidates(l, batchSize, |l.sizes|) == []
    ensures !HasSamples(l, size)
  {
    if HasSamples(l, size) {
      assert l.sizes[..|l.sizes|] == l.sizes;
      CandidateOfWindow(l, batchSize, |l.sizes|, size);
    }
  }

  /** There is an estimate for one batch size exactly when there is one for every size: exactly when
      a floor is configured or some window holds a sample. */
  lemma {:induction false} EstimateExists(l: Latencies, c: Settings, batchSize: nat)
    requires l.Valid()
    ensures Estimate(l, c, batchSize).Some? <==> c.initial.Some? || exists size :: HasSamples(l, size)
  {
    var candidates := Candidates(l, batchSize, |l.sizes|);
    if candidates == [] {
      forall size ensures !HasSamples(l, size) {
        NoCandidatesWithoutSamples(l, batchSize, size);
      }
    } else {
      var size := WindowOfCandidate(l, batchSize, |l.sizes|, candidates[0]);
    }
  }

  lemma MulMonotone(a: real, b: real, f: real)
    requires a <= b && f >= 0.0
    ensures a * f <= b * f
  {
  }

  lemma MulSubadditive(z: real, x: real, y: real, f: real)
    requires z <= x + y && f >= 0.0
    ensures z * f <= x * f + y * f
  {
    MulMonotone(z, x + y, f);
    assert (x + y) * f == x * f + y * f;
  }

  predicate IsScale(scale: real, batchSize: nat, size: nat) {
    && scale >= 1.0 && scale * size as real >= batchSize as real
    && (scale == 1.0 || scale * size as real == batchSize as real)
  }

  lemma TimesSize(b: nat, size: nat)
    requires size >= 1
    ensures IsScale(Scale(b, size), b, size)
  {
    var q := b as real / size as real;
    assert q * size as real == b as real;
    MulMonotone(q, Scale(b, size), size as real);
  }

  lemma MulInTurn(d: real, scale: real, f: real, size: real)
    ensures d * scale * f == scale * (d * f)
    ensures scale * (d * f) * size == scale * size * (d * f)
  {
  }

  /** Whether `x` times the factor is `d` times the factor, as it is or in proportion to the batch size, whichever is
      more. */
  predicate InProportion(x: real, d: real, f: real, batchSize: nat, size: nat) {
    && x * f >= d * f && x * f * size as real >= batchSize as real * (d * f)
    && (x * f == d * f || x * f * size as real == batchSize as real * (d * f))
  }

  lemma ScaledInProportion(d: real, f: real, scale: real, x: real, batchSize: nat, size: nat)
    requires d >= 0.0 && f >= 1.0 && IsScale(scale, batchSize, size) && x == d * scale
    ensures InProportion(x, d, f, batchSize, size)
  {
    var w := d * f;
    MulMonotone(0.0, d, f);
    MulInTurn(d, scale, f, size as real);
    MulMonotone(1.0, scale, w);
    MulMonotone(batchSize as real, scale * size as real, w);
  }

  lemma CandidateIsScaled(samples: seq<real>, batchSize: nat, size: nat)
    requires samples != [] && size >= 1
    ensures Candidate(samples, batchSize, size) == NinthDecile(samples) * Scale(batchSize, size)
  {
  }

  /** What one window contributes: its decile times the safety factor, in proportion to the batch size where that is
      more than the measured one. */
  lemma CandidateInProportion(samples: seq<real>, batchSize: nat, size: nat, f: real)
    requires samples != [] && NonNegative(samples) && size >= 1 && f >= 1.0
    ensures InProportion(Candidate(samples, batchSize, size), NinthDecile(samples), f, batchSize, size)
  {
    hide NinthDecile, Scale, InProportion, IsScale;
    NinthDecileIsNonNegative(samples);
    TimesSize(batchSize, size);
    CandidateIsScaled(samples, batchSize, size);
    hide Candidate;
    var (d, scale, x) := (NinthDecile(samples), Scale(batchSize, size), Candidate(samples, batchSize, size));
    ScaledInProportion(d, f, scale, x, batchSize, size);
  }

  /** The estimate is at least the floor; and for every window with samples it is at least the ninth decile times the
      safety factor, and at least as much in proportion to the batch size. */
  lemma {:induction false} EstimateCovers(l: Latencies, c: Settings, batchSize: nat, size: nat)
    requires l.Valid() && c.Valid()
    ensures c.initial.Some? ==>
              Estimate(l, c, batchSize).Some? && c.initial.value <= Estimate(l, c, batchSize).value
    ensures HasSamples(l, size) ==>
              && Estimate(l, c, batchSize).Some?
              && var (d, e) := (NinthDecile(l.samples[size]), Estimate(l, c, batchSize).value);
              e >= d * c.safetyFactor && e * size as real >= batchSize as real * (d * c.safetyFactor)
  {
    hide Candidate, MaxOf, NinthDecile, Estimate;
    if c.initial.Some? {
      EstimateCoversFloor(l, c, batchSize);
    }
    if HasSamples(l, size) {
      EstimateCoversWindow(l, c, batchSize, size);
      CandidateInProportion(l.samples[size], batchSize, size, c.safetyFactor);
      MulMonotone(Candidate(l.samples[size], batchSize, size) * c.safetyFactor, Estimate(l, c, batchSize).value,
                  size as real);
    }
  }

  lemma EstimateCoversWindow(l: Latencies, c: Settings, batchSize: nat, size: nat)
    requires l.Valid() && c.Valid() && HasSamples(l, size)
    ensures Estimate(l, c, batchSize).Some?
    ensures Candidate(l.samples[size], batchSize, size) * c.safetyFactor <= Estimate(l, c, batchSize).value
  {
    hide Candidate, MaxOf;
    assert l.sizes[..|l.sizes|] == l.sizes;
    CandidateOfWindow(l, batchSize, |l.sizes|, size);
    var peak := MaxOf(Candidates(l, batchSize, |l.sizes|));
    MulMonotone(Candidate(l.samples[size], batchSize, size), peak, c.safetyFactor);
  }

  lemma EstimateCoversFloor(l: Latencies, c: Settings, batchSize: nat)
    requires l.Valid() && c.initial.Some?
    ensures Estimate(l, c, batchSize).Some? && c.initial.value <= Estimate(l, c, batchSize).value
  {
    hide Candidate, MaxOf;
  }

  /** ... and it is one of those figures: the floor, or for some window the decile times the safety factor, as it is or
      in proportion to the batch size. */
  lemma {:induction false} EstimateIsAttained(l: Latencies, c: Settings, batchSize: nat) returns (size: nat)
    requires l.Valid() && c.Valid() && Estimate(l, c, batchSize).Some?
    ensures || Estimate(l, c, batchSize) == c.initial
            || (&& HasSamples(l, size)
                && var (d, e) := (NinthDecile(l.samples[size]), Estimate(l, c, batchSize).value);
                e == d * c.safetyFactor || e * size as real == batchSize as real * (d * c.safetyFactor))
  {
    hide Estimate, Candidate, NinthDecile;
    size := AttainingWindow(l, c, batchSize);
    if Estimate(l, c, batchSize) != c.initial {
      CandidateInProportion(l.samples[size], batchSize, size, c.safetyFactor);
    }
  }

  lemma AttainingWindow(l: Latencies, c: Settings, batchSize: nat) returns (size: nat)
    requires l.Valid() && Estimate(l, c, batchSize).Some?
    ensures || Estimate(l, c, batchSize) == c.initial
            || (HasSamples(l, size)
                && Estimate(l, c, batchSize).value == Candidate(l.samples[size], batchSize, size) * c.safetyFactor)
  {
    hide Candidate, MaxOf;
    size := 0;
    var candidates := Candidates(l, batchSize, |l.sizes|);
    if candidates != [] {
      size := WindowOfCandidate(l, batchSize, |l.sizes|, MaxOf(candidates));
    }
  }

  lemma ScaleGrows(a: nat, b: nat, size: nat)
    requires a <= b && size >= 1
    ensures 1.0 <= Scale(a, size) <= Scale(b, size)
    ensures Scale(a + b, size) <= Scale(a, size) + Scale(b, size)
  {
    var s := size as real;
    assert (a + b) as real / s == a as real / s + b as real / s;
    assert a as real / s <= b as real / s;
  }

  lemma CandidateGrows(samples: seq<real>, a: nat, b: nat, size: nat)
    requires samples != [] && NonNegative(samples) && a <= b && size >= 1
    ensures 0.0 <= NinthDecile(samples) <= Candidate(samples, a, size) <= Candidate(samples, b, size)
    ensures Candidate(samples, a + b, size) <= Candidate(samples, a, size) + Candidate(samples, b, size)
  {
    hide NinthDecile, Scale;
    NinthDecileIsNonNegative(samples);
    ScaleGrows(a, b, size);
    var d := NinthDecile(samples);
    MulMonotone(1.0, Scale(a, size), d);
    MulMonotone(Scale(a, size), Scale(b, size), d);
    MulSubadditive(Scale(a + b, size), Scale(a, size), Scale(b, size), d);
  }

  /** A larger batch is never predicted to be faster. */
  lemma {:induction false} EstimateIsMonotone(l: Latencies, c: Settings, a: nat, b: nat)
    requires l.Valid() && c.Valid() && a <= b && Estimate(l, c, a).Some?
    ensures Estimate(l, c, b).Some?
    ensures 0.0 <= Estimate(l, c, a).value <= Estimate(l, c, b).value
  {
    hide Estimate, Candidate, NinthDecile;
    EstimateExists(l, c, a);
    EstimateExists(l, c, b);
    var size := AttainingWindow(l, c, a);
    if Estimate(l, c, a) == c.initial {
      EstimateCoversFloor(l, c, b);
    } else {
      CandidateGrows(l.samples[size], a, b, size);
      MulMonotone(Candidate(l.samples[size], a, size), Candidate(l.samples[size], b, size), c.safetyFactor);
      MulMonotone(0.0, Candidate(l.samples[size], a, size), c.safetyFactor);
      EstimateCoversWindow(l, c, b, size);
    }
  }

  /** A merged batch is never predicted to be slower than its two parts run one after the other. */
  lemma {:induction false} EstimateIsSubadditive(l: Latencies, c: Settings, a: nat, b: nat)
    requires l.Valid() && c.Valid() && Estimate(l, c, a + b).Some?
    ensures Estimate(l, c, a).Some? && Estimate(l, c, b).Some?
    ensures Estimate(l, c, a + b).value <= Estimate(l, c, a).value + Estimate(l, c, b).value
    decreases b < a
  {
    hide Estimate, Candidate, NinthDecile;
    EstimateExists(l, c, a);
    EstimateExists(l, c, b);
    EstimateExists(l, c, a + b);
    if b < a {
      EstimateIsSubadditive(l, c, b, a);
      return;
    }
    EstimateIsMonotone(l, c, a, b);
    var size := AttainingWindow(l, c, a + b);
    if Estimate(l, c, a + b) == c.initial {
      EstimateCoversFloor(l, c, a);
    } else {
      CandidateGrows(l.samples[size], a, b, size);
      MulSubadditive(Candidate(l.samples[size], a + b, size), Candidate(l.samples[size], a, size),
                     Candidate(l.samples[size], b, size), c.safetyFactor);
      EstimateCoversWindow(l, c, a, size);
      EstimateCoversWindow(l, c, b, size);
    }
  }

  /** What the estimate promises for a batch size that has been measured: at least the safety factor
      times the ninth decile of that size's own window. */
  lemma {:induction false} EstimateCoversOwnWindow(l: Latencies, c: Settings, size: nat)
    requires l.Valid() && c.Valid() && HasSamples(l, size)
    ensures Estimate(l, c, size).Some?
    ensures NinthDecile(l.samples[size]) * c.safetyFactor <= Estimate(l, c, size).value
  {
    hide Estimate, Candidate, NinthDecile;
    EstimateCoversWindow(l, c, size, size);
    CandidateGrows(l.samples[size], size, size, size);
    MulMonotone(NinthDecile(l.samples[size]), Candidate(l.samples[size], size, size), c.safetyFactor);
  }

  // ---------------------------------------------------------------- nanoseconds for the scheduler

  /** `int(estimate_ms * 1_000_000)` for an estimate that is not negative. */
  function PredictedNs(l: Latencies, c: Settings, batchSize: nat): Option<int>
    requires l.Valid()
  {
    var estimate := Estimate(l, c, batchSize);
    if estimate.None? then None else Some((estimate.value * 1000000.0).Floor)
  }

  /** The prediction is the estimate in nanoseconds, without the fraction. */
  lemma {:induction false} PredictedNsTruncates(l: Latencies, c: Settings, batchSize: nat)
    requires l.Valid() && c.Valid()
    ensures var (e, n) := (Estimate(l, c, batchSize), PredictedNs(l, c, batchSize));
            && (n.Some? <==> e.Some?)
            && (e.Some? ==> 0 <= n.value && n.value as real <= e.value * 1000000.0 < n.value as real + 1.0)
  {
    hide Estimate;
    if Estimate(l, c, batchSize).Some? {
      EstimateIsMonotone(l, c, batchSize, batchSize);
    }
  }

  /** What a backend predicts after a history of successful calls. */
  ghost function LearnedNs(history: seq<Measurement>, c: Settings, batchSize: nat): Option<int>
    requires c.Valid() && Measured(history)
  {
    LearnedLatenciesAreValid(history, c.window);
    PredictedNs(After(history, c.window), c, batchSize)
  }

  lemma {:induction false} PredictedNsIsMonotone(l: Latencies, c: Settings, a: nat, b: nat)
    requires l.Valid() && c.Valid() && a <= b
    ensures PredictedNs(l, c, a).Some? <==> PredictedNs(l, c, b).Some?
    ensures PredictedNs(l, c, a).Some? ==> 0 <= PredictedNs(l, c, a).value <= PredictedNs(l, c, b).value
  {
    EstimateExists(l, c, a);
    EstimateExists(l, c, b);
    if Estimate(l, c, a).Some? {
      EstimateIsMonotone(l, c, a, b);
    }
  }

  // ---------------------------------------------------------------- the backend's own state

  class AdaptiveLatency {
    const settings: Settings
    var sizes: seq<nat>
    var samples: map<nat, seq<real>>

    ghost function Learned(): Latencies
      reads this
    {
      Latencies(sizes, samples)
    }

    ghost predicate Valid()
      reads this
    {
      settings.Valid() && Learned().Valid()
    }

    constructor (settings: Settings)
      requires settings.Valid()
      ensures Valid() && this.settings == settings && Learned() == After([], settings.window)
    {
      this.settings := settings;
      sizes, samples := [], map[];
    }

    /** What `infer_batch` does with the measured latency of a successful call. */
    method RecordLatency(m: Measurement)
      requires Valid() && m.size >= 1 && m.elapsedMs >= 0.0
      modifies this
      ensures Valid() && Learned() == Observe(old(Learned()), m, settings.window)
    {
      ObserveKeepsValid(Learned(), m, settings.window);
      if m.size !in samples {
        sizes, samples := sizes + [m.size], samples[m.size := []];
      }
      var grown := samples[m.size] + [m.elapsedMs];
      if |grown| > settings.window {
        grown := grown[|grown| - settings.window..];
      }
      samples := samples[m.size := grown];
    }

    /** `estimate_batch_latency_ms`. */
    method EstimateBatchLatencyMs(batchSize: int) returns (r: Result<Option<real>, string>)
      requires Valid()
      ensures batchSize < 1 ==> r == Err("batch_size must be positive")
      ensures batchSize >= 1 ==> r == Ok(Estimate(Learned(), settings, batchSize))
    {
      hide Candidate, NinthDecile, Scale;
      if batchSize < 1 {
        return Err("batch_size must be positive");
      }
      var candidates: seq<real> := [];
      for i := 0 to |sizes|
        invariant candidates == Candidates(Learned(), batchSize, i)
      {
        var observedSize := sizes[i];
        if samples[observedSize] != [] {
          candidates := candidates + [Candidate(samples[observedSize], batchSize, observedSize)];
        }
      }
      var estimate := Learn(candidates, settings.safetyFactor);
      hide Learn;
      if settings.initial.Some? {
        estimate := Some(if estimate.None? then settings.initial.value
                         else MaxReal(estimate.value, settings.initial.value));
      }
      r := Ok(estimate);
    }
  }
}
