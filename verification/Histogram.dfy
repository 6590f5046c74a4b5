/** Latency histograms of the stream analyzer and the bucket interval that answers
    a quantile query (perf/tools/checkpoint_analyze.py, "histograms"). */
module Histogram {
  import opened Common

  /** The stream-v1 layout: bucket i covers [bounds[i-1], bounds[i]), the last is overflow. */
  const BUCKETS: seq<real> :=
    [1.0, 2.0, 5.0, 10.0, 20.0, 50.0, 100.0, 200.0, 500.0, 1000.0, 2000.0, 5000.0, 10000.0]

  datatype Hist = Hist(n: nat, sum: real, min: Option<real>, max: Option<real>, b: seq<nat>)

  function NewHist(bounds: seq<real>): Hist {
    Hist(0, 0.0, None, None, seq(|bounds| + 1, _ => 0))
  }

  ghost predicate Increasing(bounds: seq<real>) {
    forall i, j :: 0 <= i < j < |bounds| ==> bounds[i] < bounds[j]
  }

  /** `bisect_right(bounds, v)`: how many bounds are at or below `v`. */
  function BisectRight(bounds: seq<real>, v: real): (i: nat)
    ensures i <= |bounds|
  {
    if bounds == [] || v < bounds[0] then 0 else 1 + BisectRight(bounds[1..], v)
  }

  lemma {:induction false} BisectRightPosition(bounds: seq<real>, v: real)
    requires Increasing(bounds)
    ensures forall k :: 0 <= k < |bounds| ==> (k < BisectRight(bounds, v) <==> bounds[k] <= v)
  {
    if bounds != [] && v >= bounds[0] {
      BisectRightPosition(bounds[1..], v);
      assert forall k :: 1 <= k < |bounds| ==> bounds[k] == bounds[1..][k - 1];
    }
  }

  function Least(m: Option<real>, v: real): Option<real> {
    Some(if m.None? then v else MinReal(m.value, v))
  }

  function Greatest(m: Option<real>, v: real): Option<real> {
    Some(if m.None? then v else MaxReal(m.value, v))
  }

  function HistAdd(bounds: seq<real>, h: Hist, v: real): Hist
    requires |h.b| == |bounds| + 1
  {
    var i := BisectRight(bounds, v);
    Hist(h.n + 1, h.sum + v, Least(h.min, v), Greatest(h.max, v), h.b[i := h.b[i] + 1])
  }

  /** Both sides are merged bucket by bucket unless one of them is empty. */
  function HistMerge(a: Hist, b: Hist): Hist {
    if a.n == 0 then b
    else if b.n == 0 then a
    else Hist(a.n + b.n, a.sum + b.sum,
              if b.min.None? then a.min else Least(a.min, b.min.value),
              if b.max.None? then a.max else Greatest(a.max, b.max.value),
              seq(Min(|a.b|, |b.b|), i requires 0 <= i < Min(|a.b|, |b.b|) => a.b[i] + b.b[i]))
  }

  /** What every histogram built by the analyzer satisfies. */
  ghost predicate Valid(bounds: seq<real>, h: Hist) {
    && |h.b| == |bounds| + 1
    && (h.n == 0 ==> h == NewHist(bounds))
    && (h.n > 0 ==> h.min.Some? && h.max.Some?)
  }

  lemma HistMergeAdd(bounds: seq<real>, a: Hist, b: Hist, v: real)
    requires Valid(bounds, a) && Valid(bounds, b)
    ensures Valid(bounds, HistMerge(a, b)) && Valid(bounds, HistAdd(bounds, b, v))
    ensures HistMerge(a, HistAdd(bounds, b, v)) == HistAdd(bounds, HistMerge(a, b), v)
    ensures HistMerge(HistAdd(bounds, a, v), b) == HistAdd(bounds, HistMerge(a, b), v)
  {
    assert HistMerge(a, HistAdd(bounds, b, v)).b == HistAdd(bounds, HistMerge(a, b), v).b;
    assert HistMerge(HistAdd(bounds, a, v), b).b == HistAdd(bounds, HistMerge(a, b), v).b;
  }

  // ---------------------------------------------------------------------------
  // Histograms of whole sample lists

  /** `hist_add` over a sample list, in arrival order. */
  function HistOf(bounds: seq<real>, samples: seq<real>): (h: Hist)
    ensures |h.b| == |bounds| + 1
  {
    if samples == [] then NewHist(bounds)
    else HistAdd(bounds, HistOf(bounds, samples[..|samples| - 1]), samples[|samples| - 1])
  }

  /** Any way of accumulating parts separately and merging them pairwise. */
  datatype MergeTree = Part(samples: seq<real>) | Join(left: MergeTree, right: MergeTree)

  function Samples(t: MergeTree): seq<real> {
    match t
    case Part(samples) => samples
    case Join(left, right) => Samples(left) + Samples(right)
  }

  function MergedHist(bounds: seq<real>, t: MergeTree): Hist {
    match t
    case Part(samples) => HistOf(bounds, samples)
    case Join(left, right) => HistMerge(MergedHist(bounds, left), MergedHist(bounds, right))
  }

  lemma {:induction false} HistOfValid(bounds: seq<real>, samples: seq<real>)
    ensures Valid(bounds, HistOf(bounds, samples)) && HistOf(bounds, samples).n == |samples|
  {
    if samples != [] {
      HistOfValid(bounds, samples[..|samples| - 1]);
    }
  }

  function SumOf(samples: seq<real>): real {
    if samples == [] then 0.0 else SumOf(samples[..|samples| - 1]) + samples[|samples| - 1]
  }

  /** The plain fields of a histogram are the count, the sum and the extremes of its samples. */
  lemma {:induction false} HistFields(bounds: seq<real>, samples: seq<real>)
    ensures var h := HistOf(bounds, samples);
            && h.n == |samples| && h.sum == SumOf(samples)
            && (samples == [] ==> h.min.None? && h.max.None?)
            && (samples != [] ==>
                  && h.min.Some? && h.min.value in samples && (forall v :: v in samples ==> h.min.value <= v)
                  && h.max.Some? && h.max.value in samples && (forall v :: v in samples ==> v <= h.max.value))
  {
    if samples != [] {
      var rest, last := samples[..|samples| - 1], samples[|samples| - 1];
      HistFields(bounds, rest);
      assert forall v :: v in samples <==> v in rest || v == last;
    }
  }

  lemma {:induction false} HistOfConcat(bounds: seq<real>, s: seq<real>, t: seq<real>)
    ensures HistMerge(HistOf(bounds, s), HistOf(bounds, t)) == HistOf(bounds, s + t)
  {
    hide HistAdd;
    HistOfValid(bounds, s);
    HistOfValid(bounds, t);
    if t == [] {
      assert s + t == s;
    } else {
      var rest := t[..|t| - 1];
      HistOfValid(bounds, rest);
      HistOfConcat(bounds, s, rest);
      HistMergeAdd(bounds, HistOf(bounds, s), HistOf(bounds, rest), t[|t| - 1]);
      assert (s + t)[..|s + t| - 1] == s + rest;
    }
  }

  /** Accumulating in parts and merging in any shape loses nothing: count, sum, extremes
      and every bucket agree with one histogram fed all samples. */
  lemma {:induction false} MergedHistIsHistOf(bounds: seq<real>, t: MergeTree)
    ensures MergedHist(bounds, t) == HistOf(bounds, Samples(t))
  {
    match t
    case Part(_) =>
    case Join(left, right) =>
      MergedHistIsHistOf(bounds, left);
      MergedHistIsHistOf(bounds, right);
      HistOfConcat(bounds, Samples(left), Samples(right));
  }

  // ---------------------------------------------------------------------------
  // Quantiles

  /** Bucket bounds and the side on which a bucket is closed. */
  datatype Schema = Schema(bounds: seq<real>, upperInclusive: bool)

  const STREAM_V1: Schema := Schema(BUCKETS, false)

  /** `interval_ms` with its semantics, [lo, hi) or (lo, hi]; no upper end is the overflow bucket. */
  datatype Interval = Interval(lo: real, hi: Option<real>, upperInclusive: bool, bucket: nat)

  ghost predicate Contains(i: Interval, x: real) {
    if i.upperInclusive then i.lo < x && (i.hi.Some? ==> x <= i.hi.value)
    else i.lo <= x && (i.hi.Some? ==> x < i.hi.value)
  }

  function SumTo(b: seq<nat>, k: nat): nat
    requires k <= |b|
  {
    if k == 0 then 0 else SumTo(b, k - 1) + b[k - 1]
  }

  /** The cumulative count a quantile asks for. */
  function RankTarget(q: real, n: nat): real {
    q * n as real
  }

  /** Bucket `i` is the first of the bounded buckets whose cumulative count reaches the target,
      or the overflow bucket when none does. */
  ghost predicate FirstReaching(b: seq<nat>, target: real, i: nat)
    requires b != []
  {
    && i < |b|
    && (i < |b| - 1 ==> SumTo(b, i + 1) as real >= target)
    && forall k :: 0 < k <= i ==> (SumTo(b, k) as real) < target
  }

  /** What is reported for bucket i; the overflow bucket is always given as closed below. */
  function BucketInterval(schema: Schema, i: nat): Interval
    requires i <= |schema.bounds|
  {
    var bounds := schema.bounds;
    if i < |bounds| then Interval(if i == 0 then 0.0 else bounds[i - 1], Some(bounds[i]), schema.upperInclusive, i)
    else Interval(if i == 0 then 0.0 else bounds[i - 1], None, false, i)
  }

  /** The interval of the first bucket whose cumulative count reaches q*n. */
  method QuantileInterval(h: Hist, q: real, schema: Schema) returns (r: Interval)
    requires schema.bounds != [] && |h.b| == |schema.bounds| + 1
    ensures FirstReaching(h.b, RankTarget(q, h.n), r.bucket)
    ensures r == BucketInterval(schema, r.bucket)
  {
    var bounds := schema.bounds;
    var target := RankTarget(q, h.n);
    var cum := 0;
    for i := 0 to |bounds|
      invariant cum == SumTo(h.b, i)
      invariant forall k :: 0 < k <= i ==> (SumTo(h.b, k) as real) < target
    {
      cum := cum + h.b[i];
      if cum as real >= target {
        return Interval(if i == 0 then 0.0 else bounds[i - 1], Some(bounds[i]), schema.upperInclusive, i);
      }
    }
    return Interval(bounds[|bounds| - 1], None, false, |bounds|);
  }

  ghost predicate Sorted(s: seq<real>) {
    forall i, j :: 0 <= i < j < |s| ==> s[i] <= s[j]
  }

  function Insert(s: seq<real>, x: real): seq<real> {
    if s == [] || x <= s[0] then [x] + s else [s[0]] + Insert(s[1..], x)
  }

  function SortSamples(s: seq<real>): seq<real> {
    if s == [] then [] else Insert(SortSamples(s[1..]), s[0])
  }

  function NearestRank(s: seq<real>, target: real): (r: real)
    requires s != []
  {
    s[Min(|s| - 1, Max(0, Ceil(target) - 1))]
  }

  /** Nearest-rank quantile of a raw sample list. */
  function SampleQuantile(samples: seq<real>, q: real): Option<real> {
    var s := SortSamples(samples);
    if s == [] then None else Some(NearestRank(s, RankTarget(q, |s|)))
  }

  /** The upper end of a bucket. */
  datatype Bound = Bound(at: real, inclusive: bool)

  predicate Under(v: real, bound: Bound) {
    v < bound.at || (bound.inclusive && v == bound.at)
  }

  function CountUnder(s: seq<real>, x: Bound): nat {
    if s == [] then 0 else CountUnder(s[..|s| - 1], x) + (if Under(s[|s| - 1], x) then 1 else 0)
  }

  lemma {:induction false} InsertPermutes(s: seq<real>, x: real)
    ensures |Insert(s, x)| == |s| + 1
    ensures multiset(Insert(s, x)) == multiset(s) + multiset{x}
  {
    if s != [] && x > s[0] {
      InsertPermutes(s[1..], x);
      assert s == [s[0]] + s[1..];
    }
  }

  lemma {:induction false} InsertSorted(s: seq<real>, x: real)
    requires Sorted(s)
    ensures Sorted(Insert(s, x))
  {
    if s != [] && x > s[0] {
      InsertSorted(s[1..], x);
      InsertPermutes(s[1..], x);
      var rest := Insert(s[1..], x);
      forall k | 0 <= k < |rest|
        ensures s[0] <= rest[k]
      {
        assert rest[k] in multiset(rest);
        assert rest[k] in multiset(s[1..]) || rest[k] == x;
      }
    }
  }

  lemma {:induction false} SortFacts(s: seq<real>)
    ensures Sorted(SortSamples(s)) && |SortSamples(s)| == |s|
    ensures multiset(SortSamples(s)) == multiset(s)
  {
    if s != [] {
      SortFacts(s[1..]);
      InsertSorted(SortSamples(s[1..]), s[0]);
      InsertPermutes(SortSamples(s[1..]), s[0]);
      assert s == [s[0]] + s[1..];
    }
  }

  lemma {:induction false} CountUnderSplit(s: seq<real>, i: nat, x: Bound)
    requires i < |s|
    ensures CountUnder(s, x) == CountUnder(s[..i] + s[i + 1..], x) + (if Under(s[i], x) then 1 else 0)
  {
    var last := |s| - 1;
    if i == last {
      assert s[..i] + s[i + 1..] == s[..last];
    } else {
      CountUnderSplit(s[..last], i, x);
      assert s[..last][..i] + s[..last][i + 1..] == (s[..i] + s[i + 1..])[..last - 1];
    }
  }

  lemma {:induction false} CountUnderPermuted(s: seq<real>, t: seq<real>, x: Bound)
    requires multiset(s) == multiset(t)
    ensures CountUnder(s, x) == CountUnder(t, x)
  {
    if s == [] {
      assert |multiset(t)| == 0;
    } else {
      var i := FindLast(s, t);
      CountUnderPermuted(s[..|s| - 1], t[..i] + t[i + 1..], x);
      CountUnderSplit(t, i, x);
    }
  }

  /** In a sorted list the count under `x` is a position. */
  lemma {:induction false} CountUnderSorted(s: seq<real>, x: Bound)
    requires Sorted(s)
    ensures CountUnder(s, x) <= |s|
    ensures forall k :: 0 <= k < |s| ==> (Under(s[k], x) <==> k < CountUnder(s, x))
  {
    if s != [] {
      CountUnderSorted(s[..|s| - 1], x);
      assert forall k :: 0 <= k < |s| - 1 ==> s[..|s| - 1][k] == s[k];
    }
  }

  lemma {:induction false} SumToAdd(b: seq<nat>, i: nat, k: nat)
    requires i < |b| && k <= |b|
    ensures SumTo(b[i := b[i] + 1], k) == SumTo(b, k) + (if i < k then 1 else 0)
  {
    if k > 0 {
      SumToAdd(b, i, k - 1);
    }
  }

  lemma {:induction false} SumToEmpty(bounds: seq<real>, k: nat)
    requires k <= |bounds| + 1
    ensures SumTo(NewHist(bounds).b, k) == 0
  {
    if k > 0 {
      SumToEmpty(bounds, k - 1);
    }
  }

  /** No sample is lost: the buckets, overflow included, hold all of them. */
  lemma {:induction false} BucketsHoldAll(bounds: seq<real>, samples: seq<real>)
    ensures SumTo(HistOf(bounds, samples).b, |bounds| + 1) == |samples|
  {
    if samples == [] {
      SumToEmpty(bounds, |bounds| + 1);
    } else {
      var rest, v := samples[..|samples| - 1], samples[|samples| - 1];
      BucketsHoldAll(bounds, rest);
      SumToAdd(HistOf(bounds, rest).b, BisectRight(bounds, v), |bounds| + 1);
    }
  }

  /** The cumulative count of the buckets up to i is the number of samples below bounds[i]. */
  lemma {:induction false} CumulativeCount(bounds: seq<real>, samples: seq<real>, i: nat)
    requires Increasing(bounds) && i < |bounds|
    ensures SumTo(HistOf(bounds, samples).b, i + 1) == CountUnder(samples, Bound(bounds[i], false))
  {
    if samples == [] {
      SumToEmpty(bounds, i + 1);
    } else {
      var rest, v := samples[..|samples| - 1], samples[|samples| - 1];
      CumulativeCount(bounds, rest, i);
      BisectRightPosition(bounds, v);
      SumToAdd(HistOf(bounds, rest).b, BisectRight(bounds, v), i + 1);
    }
  }

  /** The ranked sample stays under `bound` exactly when enough samples do. */
  lemma RankAgainstBound(samples: seq<real>, target: real, bound: Bound)
    requires samples != [] && 0.0 < target <= |samples| as real
    ensures SortSamples(samples) != []
    ensures Under(NearestRank(SortSamples(samples), target), bound)
            <==> target <= CountUnder(samples, bound) as real
  {
    SortFacts(samples);
    CeilLeast(target, |samples|);
    CeilLeast(target, 0);
    CeilLeast(target, CountUnder(samples, bound));
    CountUnderPermuted(samples, SortSamples(samples), bound);
    CountUnderSorted(SortSamples(samples), bound);
  }

  /** The buckets count the samples as the schema says: those up to i hold what is under bound i. */
  ghost predicate Tallies(schema: Schema, samples: seq<real>, b: seq<nat>) {
    && |b| == |schema.bounds| + 1
    && forall i :: 0 <= i < |schema.bounds| ==>
         SumTo(b, i + 1) == CountUnder(samples, Bound(schema.bounds[i], schema.upperInclusive))
  }

  ghost predicate Usable(schema: Schema) {
    schema.bounds != [] && Increasing(schema.bounds) && 0.0 <= schema.bounds[0]
  }

  /** The analyzer's own histograms count by half-open buckets closed below. */
  lemma HistTallies(bounds: seq<real>, samples: seq<real>)
    requires Increasing(bounds)
    ensures Tallies(Schema(bounds, false), samples, HistOf(bounds, samples).b)
  {
    forall i | 0 <= i < |bounds|
      ensures SumTo(HistOf(bounds, samples).b, i + 1) == CountUnder(samples, Bound(bounds[i], false))
    {
      CumulativeCount(bounds, samples, i);
    }
  }

  /** The value lies above the lower end that the first bucket is reported with. */
  predicate AboveFloor(schema: Schema, x: real) {
    if schema.upperInclusive then 0.0 < x else 0.0 <= x
  }

  /** The bucket chosen for a rank target encloses the ranked sample, unless the sample lies below
      the fixed lower end 0 of the first bucket. */
  lemma RankBucket(schema: Schema, samples: seq<real>, b: seq<nat>, target: real, bucket: nat)
    requires Usable(schema) && samples != [] && 0.0 < target <= |samples| as real
    requires Tallies(schema, samples, b) && FirstReaching(b, target, bucket)
    ensures SortSamples(samples) != []
    ensures var exact := NearestRank(SortSamples(samples), target);
            Contains(BucketInterval(schema, bucket), exact) <==> AboveFloor(schema, exact)
  {
    hide SumTo, CountUnder, SortSamples, NearestRank;
    var bounds, inclusive := schema.bounds, schema.upperInclusive;
    SortFacts(samples);
    if bucket < |bounds| {
      RankAgainstBound(samples, target, Bound(bounds[bucket], inclusive));
    }
    if bucket > 0 {
      RankAgainstBound(samples, target, Bound(bounds[bucket - 1], inclusive));
      assert bounds[0] <= bounds[bucket - 1];
    }
  }

  lemma RankTargetInRange(q: real, n: nat)
    requires n > 0 && 0.0 < q <= 1.0
    ensures 0.0 < RankTarget(q, n) <= n as real
  {
  }

  /** The nearest-rank quantile is the sample that q of the list reaches: at least q*n samples are at
      most it, and fewer than q*n lie below it. */
  lemma QuantileMeaning(samples: seq<real>, q: real)
    requires samples != [] && 0.0 < q <= 1.0
    ensures var exact := SampleQuantile(samples, q);
            && exact.Some? && exact.value in samples
            && q * |samples| as real <= CountUnder(samples, Bound(exact.value, true)) as real
            && CountUnder(samples, Bound(exact.value, false)) as real < q * |samples| as real
  {
    var s, target := SortSamples(samples), RankTarget(q, |samples|);
    SortFacts(samples);
    RankTargetInRange(q, |samples|);
    var exact := NearestRank(s, target);
    assert exact in multiset(s);
    RankAgainstBound(samples, target, Bound(exact, true));
    RankAgainstBound(samples, target, Bound(exact, false));
  }

  /** For every histogram that counts as its schema says, own or foreign, the bucket reported for a
      quantile contains the exact nearest-rank value if and only if that value is not negative, or
      for buckets closed above is positive: the first bucket is reported as starting at 0. */
  lemma SchemaQuantileContainsExact(schema: Schema, samples: seq<real>, b: seq<nat>, q: real, bucket: nat)
    requires Usable(schema) && samples != [] && 0.0 < q <= 1.0
    requires Tallies(schema, samples, b) && FirstReaching(b, RankTarget(q, |samples|), bucket)
    ensures var exact := SampleQuantile(samples, q);
            && exact.Some?
            && (Contains(BucketInterval(schema, bucket), exact.value) <==> AboveFloor(schema, exact.value))
  {
    RankTargetInRange(q, |samples|);
    SortFacts(samples);
    RankBucket(schema, samples, b, RankTarget(q, |samples|), bucket);
  }

  /** Whatever shape the partial histograms were merged in, the interval `QuantileInterval`
      reports contains the exact nearest-rank quantile if and only if that quantile is not
      negative: the first bucket also counts negative samples, but its interval starts at 0. */
  lemma MergedQuantileContainsExact(bounds: seq<real>, t: MergeTree, q: real, bucket: nat)
    requires bounds != [] && Increasing(bounds) && 0.0 <= bounds[0]
    requires Samples(t) != [] && 0.0 < q <= 1.0
    requires var h := MergedHist(bounds, t);
             |h.b| == |bounds| + 1 && FirstReaching(h.b, RankTarget(q, h.n), bucket)
    ensures var exact := SampleQuantile(Samples(t), q);
            && exact.Some?
            && (Contains(BucketInterval(Schema(bounds, false), bucket), exact.value) <==> 0.0 <= exact.value)
  {
    MergedHistIsHistOf(bounds, t);
    HistOfValid(bounds, Samples(t));
    HistTallies(bounds, Samples(t));
    SchemaQuantileContainsExact(Schema(bounds, false), Samples(t), HistOf(bounds, Samples(t)).b, q, bucket);
  }

  /** Latencies are not negative, so their interval always surrounds the exact value. */
  lemma LatencyQuantileContainsExact(t: MergeTree, q: real, bucket: nat)
    requires Samples(t) != [] && 0.0 < q <= 1.0
    requires forall i :: 0 <= i < |Samples(t)| ==> 0.0 <= Samples(t)[i]
    requires var h := MergedHist(BUCKETS, t);
             |h.b| == |BUCKETS| + 1 && FirstReaching(h.b, RankTarget(q, h.n), bucket)
    ensures SampleQuantile(Samples(t), q).Some?
    ensures Contains(BucketInterval(STREAM_V1, bucket), SampleQuantile(Samples(t), q).value)
  {
    hide Increasing, MergedHist, Samples, Contains, BucketInterval, SampleQuantile, FirstReaching, RankTarget;
    StreamSchemaUsable();
    MergedQuantileContainsExact(BUCKETS, t, q, bucket);
    QuantileNotNegative(Samples(t), q);
  }

  lemma StreamSchemaUsable()
    ensures Usable(STREAM_V1)
  {
  }

  lemma QuantileNotNegative(samples: seq<real>, q: real)
    requires samples != [] && forall i :: 0 <= i < |samples| ==> 0.0 <= samples[i]
    ensures SampleQuantile(samples, q).Some? && 0.0 <= SampleQuantile(samples, q).value
  {
    SortFacts(samples);
    var exact := SampleQuantile(samples, q).value;
    assert exact in multiset(SortSamples(samples));
  }

  lemma OnlySample(x: real)
    ensures SampleQuantile([x], 1.0) == Some(x)
  {
    SortFacts([x]);
    assert SortSamples([x]) == [x];
  }

  /** The bucket of a histogram of one negative sample is reported without that sample. */
  lemma NegativeSampleOutside(bucket: nat)
    requires FirstReaching(HistOf(BUCKETS, [-1.0]).b, RankTarget(1.0, 1), bucket)
    ensures SampleQuantile([-1.0], 1.0) == Some(-1.0)
    ensures !Contains(BucketInterval(STREAM_V1, bucket), -1.0)
  {
    hide Increasing, SampleQuantile, FirstReaching, RankTarget, Contains, BucketInterval;
    StreamSchemaUsable();
    OnlySample(-1.0);
    HistTallies(BUCKETS, [-1.0]);
    SchemaQuantileContainsExact(STREAM_V1, [-1.0], HistOf(BUCKETS, [-1.0]).b, 1.0, bucket);
  }

  /** Under a schema closed above, the bucket reported for a single zero excludes it. */
  lemma ZeroSampleOutside(bounds: seq<real>, b: seq<nat>, bucket: nat)
    requires Usable(Schema(bounds, true)) && Tallies(Schema(bounds, true), [0.0], b)
    requires FirstReaching(b, RankTarget(1.0, 1), bucket)
    ensures SampleQuantile([0.0], 1.0) == Some(0.0)
    ensures !Contains(BucketInterval(Schema(bounds, true), bucket), 0.0)
  {
    OnlySample(0.0);
    SchemaQuantileContainsExact(Schema(bounds, true), [0.0], b, 1.0, bucket);
  }
}
