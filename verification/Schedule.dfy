/** The constant-arrival-rate schedule and the accounting of its measurement cohort
    (perf/tools/measure_schedule.py, perf/k6/measurement_clock.js). Times are milliseconds. */
module Schedule {
  import opened Common

  datatype Limit = Unlimited | Unreadable | Lasts(ms: real)

  /** The schedule inputs; a field that is not a number is absent. */
  datatype Plan = Plan(
    scenarioStart: Option<real>, windowStart: Option<real>, windowEnd: Option<real>,
    rate: Option<real>, unit: Option<real>, limit: Limit)
  {
    predicate Readable() {
      && scenarioStart.Some? && windowStart.Some? && windowEnd.Some? && rate.Some? && unit.Some?
      && !limit.Unreadable?
    }

    /** The inputs can be interpreted exactly. */
    predicate Interpretable() {
      && Readable()
      && rate.value > 0.0 && unit.value > 0.0
      && scenarioStart.value <= windowStart.value < windowEnd.value
      && (limit.Lasts? ==> limit.ms > 0.0)
    }

    function Period(): (p: real)
      requires Interpretable()
      ensures p > 0.0
    {
      Quotient(unit.value, rate.value)
    }

    /** Where the arrivals of the window stop. */
    function Stop(): real
      requires Readable()
    {
      if limit.Lasts? then MinReal(windowEnd.value, scenarioStart.value + limit.ms) else windowEnd.value
    }
  }

  function Quotient(x: real, d: real): (q: real)
    requires d > 0.0
    ensures x > 0.0 ==> q > 0.0
  {
    x / d
  }

  /** The number of arrivals scheduled in the window, when the inputs are exact. */
  function ScheduledArrivals(p: Plan): (n: Option<nat>)
    ensures n.Some? <==> p.Interpretable()
  {
    if !p.Readable() then None
    else if p.rate.value <= 0.0 || p.unit.value <= 0.0 then None
    else if p.windowStart.value < p.scenarioStart.value || p.windowEnd.value <= p.windowStart.value then None
    else if p.limit.Lasts? && p.limit.ms <= 0.0 then None
    else if p.Stop() <= p.windowStart.value then Some(0)
    else
      var first := Ceil(Quotient(p.windowStart.value - p.scenarioStart.value, p.Period()));
      var past := Ceil(Quotient(p.Stop() - p.scenarioStart.value, p.Period()));
      Some(Max(0, past - first))
  }

  // ---------- What the count means ----------

  function Times(k: int, d: real): real {
    k as real * d
  }

  /** When arrival k enters. */
  function ArrivalTime(p: Plan, k: int): real
    requires p.Interpretable()
  {
    p.scenarioStart.value + Times(k, Quotient(p.unit.value, p.rate.value))
  }

  /** Arrival k enters inside the half-open window and before the scenario ends. */
  predicate Arrives(p: Plan, k: nat)
    requires p.Interpretable()
  {
    && p.windowStart.value <= ArrivalTime(p, k) < p.windowEnd.value
    && (p.limit.Lasts? ==> ArrivalTime(p, k) < p.scenarioStart.value + p.limit.ms)
  }

  lemma QuotientBelow(x: real, d: real, k: int)
    requires d > 0.0
    ensures Times(k, d) >= x <==> k >= Ceil(Quotient(x, d))
  {
    var q := Quotient(x, d);
    assert q * d == x;
    Ordered(q, k as real, d);
    CeilLeast(q, k);
  }

  lemma Ordered(a: real, b: real, d: real)
    requires d > 0.0
    ensures a <= b <==> a * d <= b * d
  {
  }

  lemma TimesOrdered(a: int, b: int, d: real)
    requires d > 0.0
    ensures a <= b <==> Times(a, d) <= Times(b, d)
    ensures Times(0, d) == 0.0
  {
    Ordered(a as real, b as real, d);
  }

  lemma QuotientMonotone(x: real, y: real, d: real)
    requires d > 0.0 && x <= y
    ensures Ceil(Quotient(x, d)) <= Ceil(Quotient(y, d))
  {
    QuotientBelow(x, d, Ceil(Quotient(y, d)));
    QuotientBelow(y, d, Ceil(Quotient(y, d)));
  }

  ghost function Range(a: nat, b: nat): (s: set<nat>)
    ensures forall k :: k in s <==> a <= k < b
    ensures |s| == if a < b then b - a else 0
    decreases b
  {
    if b <= a then {} else Range(a, b - 1) + {b - 1}
  }

  lemma ArrivesIff(p: Plan, k: nat)
    requires p.Interpretable()
    ensures Arrives(p, k) <==>
      Ceil(Quotient(p.windowStart.value - p.scenarioStart.value, p.Period())) <= k <
      Ceil(Quotient(p.Stop() - p.scenarioStart.value, p.Period()))
  {
    QuotientBelow(p.windowStart.value - p.scenarioStart.value, p.Period(), k);
    QuotientBelow(p.Stop() - p.scenarioStart.value, p.Period(), k);
  }

  /** The count is defined for exactly the interpretable inputs, and it is the number of arrivals
      whose entry time lies in the window. */
  lemma ArrivalsCounted(p: Plan) returns (arrivals: set<nat>)
    ensures ScheduledArrivals(p).Some? <==> p.Interpretable()
    ensures p.Interpretable() <==>
      && p.scenarioStart.Some? && p.windowStart.Some? && p.windowEnd.Some? && p.rate.Some? && p.unit.Some?
      && p.rate.value > 0.0 && p.unit.value > 0.0
      && p.scenarioStart.value <= p.windowStart.value && p.windowStart.value < p.windowEnd.value
      && (p.limit == Unlimited || (p.limit.Lasts? && p.limit.ms > 0.0))
    ensures p.Interpretable() ==> forall k :: k in arrivals <==> Arrives(p, k)
    ensures p.Interpretable() ==> |arrivals| == ScheduledArrivals(p).value
  {
    arrivals := {};
    if p.Interpretable() {
      var d := p.Period();
      var first := Ceil(Quotient(p.windowStart.value - p.scenarioStart.value, d));
      var past := Ceil(Quotient(p.Stop() - p.scenarioStart.value, d));
      QuotientBelow(p.windowStart.value - p.scenarioStart.value, d, -1);
      if p.Stop() <= p.windowStart.value {
        QuotientMonotone(p.Stop() - p.scenarioStart.value, p.windowStart.value - p.scenarioStart.value, d);
      } else {
        QuotientMonotone(p.windowStart.value - p.scenarioStart.value, p.Stop() - p.scenarioStart.value, d);
        arrivals := Range(first, past);
      }
      forall k: nat
        ensures k in arrivals <==> Arrives(p, k)
      {
        ArrivesIff(p, k);
      }
    }
  }

  // ---------- Splitting the window ----------

  lemma SplitAt(p: Plan, mid: real)
    requires p.Interpretable() && p.windowStart.value < mid < p.windowEnd.value
    ensures var left := p.(windowEnd := Some(mid));
            var right := p.(windowStart := Some(mid));
            && left.Interpretable() && right.Interpretable()
            && ScheduledArrivals(p).value == ScheduledArrivals(left).value + ScheduledArrivals(right).value
  {
    var start, d := p.scenarioStart.value, p.Period();
    var left, right := p.(windowEnd := Some(mid)), p.(windowStart := Some(mid));
    assert left.Period() == d && right.Period() == d;
    var end := p.Stop();
    if p.windowStart.value < end {
      QuotientMonotone(p.windowStart.value - start, end - start, d);
      if mid < end {
        assert left.Stop() == mid && right.Stop() == end;
        QuotientMonotone(p.windowStart.value - start, mid - start, d);
        QuotientMonotone(mid - start, end - start, d);
      } else {
        assert left.Stop() == end && right.Stop() == end;
      }
    } else {
      assert left.Stop() == end && right.Stop() == end;
    }
  }

  ghost predicate Increasing(cuts: seq<real>) {
    forall i, j :: 0 <= i < j < |cuts| ==> cuts[i] < cuts[j]
  }

  /** The counts of the windows between consecutive cuts, added up. */
  ghost function CountBetween(p: Plan, cuts: seq<real>): nat
    requires p.Interpretable() && Increasing(cuts) && |cuts| >= 2 && p.scenarioStart.value <= cuts[0]
    decreases |cuts|
  {
    var here := ScheduledArrivals(p.(windowStart := Some(cuts[0]), windowEnd := Some(cuts[1]))).value;
    if |cuts| == 2 then here else here + CountBetween(p, cuts[1..])
  }

  /** However a window is cut up, the parts count every arrival once. */
  lemma {:induction false} SplitAnywhere(p: Plan, cuts: seq<real>)
    requires p.Interpretable() && Increasing(cuts) && |cuts| >= 2
    requires cuts[0] == p.windowStart.value && cuts[|cuts| - 1] == p.windowEnd.value
    ensures CountBetween(p, cuts) == ScheduledArrivals(p).value
    decreases |cuts|
  {
    if |cuts| == 2 {
      assert p.(windowStart := Some(cuts[0]), windowEnd := Some(cuts[1])) == p;
    } else {
      SplitAt(p, cuts[1]);
      var right := p.(windowStart := Some(cuts[1]));
      assert p.(windowStart := Some(cuts[0]), windowEnd := Some(cuts[1])) == p.(windowEnd := Some(cuts[1]));
      SplitAnywhere(right, cuts[1..]);
      WindowStartIrrelevant(p, right, cuts[1..]);
    }
  }

  lemma {:induction false} WindowStartIrrelevant(p: Plan, q: Plan, cuts: seq<real>)
    requires p.Interpretable() && q.Interpretable() && q == p.(windowStart := q.windowStart)
    requires Increasing(cuts) && |cuts| >= 2 && p.scenarioStart.value <= cuts[0]
    ensures CountBetween(p, cuts) == CountBetween(q, cuts)
    decreases |cuts|
  {
    assert p.(windowStart := Some(cuts[0]), windowEnd := Some(cuts[1]))
        == q.(windowStart := Some(cuts[0]), windowEnd := Some(cuts[1]));
    if |cuts| > 2 {
      WindowStartIrrelevant(p, q, cuts[1..]);
    }
  }

  // ---------- The clock inside the load generator ----------

  datatype Cohort = Pre | Measure | Post

  /** The half-open measurement window; without a finite duration it has no end. */
  datatype Window = Window(start: real, end: Option<real>)

  function MeasurementWindow(scenarioStart: real, duration: Option<real>, offset: real): Window {
    Window(scenarioStart + offset, if duration.Some? then Some(scenarioStart + duration.value) else None)
  }

  function CohortAt(entry: real, w: Window): Cohort {
    if entry < w.start then Pre
    else if w.end.None? || entry < w.end.value then Measure
    else Post
  }

  function BucketCount(duration: Option<real>, offset: real, bucket: real): nat {
    if duration.None? || bucket <= 0.0 then 2
    else Max(1, Ceil(Quotient(MaxReal(0.0, duration.value - offset), bucket))) + 1
  }

  function BucketIndexAt(ms: real, windowStart: real, bucket: real, count: nat): int
    requires bucket > 0.0
  {
    var idx := Quotient(ms - windowStart, bucket).Floor;
    if idx < 0 then -1 else Min(idx, count - 1)
  }

  /** The plan whose window is the one the load generator's clock announces. */
  predicate Announces(p: Plan, w: Window) {
    p.windowStart == Some(w.start) && p.windowEnd == w.end
  }

  /** Scheduler and load generator agree: the arrivals counted for the window the clock announces
      are the ones the clock puts in the measurement cohort. */
  lemma CountIsMeasureCohort(p: Plan, offset: real) returns (arrivals: set<nat>)
    requires p.Interpretable() && p.limit.Lasts?
    requires Announces(p, MeasurementWindow(p.scenarioStart.value, Some(p.limit.ms), offset))
    ensures |arrivals| == ScheduledArrivals(p).value
    ensures forall k :: k in arrivals <==>
        CohortAt(ArrivalTime(p, k), MeasurementWindow(p.scenarioStart.value, Some(p.limit.ms), offset)) == Measure
  {
    arrivals := ArrivalsCounted(p);
    assert p.Stop() == p.windowEnd.value;
  }

  lemma QuotientFloor(x: real, d: real)
    requires d > 0.0
    ensures var i := Quotient(x, d).Floor;
            Times(i, d) <= x < Times(i + 1, d)
  {
    var q := Quotient(x, d);
    assert q * d == x;
    var i := q.Floor;
    Ordered(i as real, q, d);
    var next := (i + 1) as real;
    assert q < next;
    Ordered(next, q, d);
    assert next * d > x;
  }

  /** Every entry of the measurement cohort has a regular bucket, the one whose span holds it. */
  lemma MeasuredEntryHasRegularBucket(entry: real, scenarioStart: real, duration: real, offset: real, bucket: real)
    requires bucket > 0.0
    requires CohortAt(entry, MeasurementWindow(scenarioStart, Some(duration), offset)) == Measure
    ensures var count := BucketCount(Some(duration), offset, bucket);
            var i := BucketIndexAt(entry, scenarioStart + offset, bucket, count);
            && 0 <= i < count - 1
            && Times(i, bucket) <= entry - (scenarioStart + offset) < Times(i + 1, bucket)
  {
    hide Times, Quotient;
    var since := entry - (scenarioStart + offset);
    var i := Quotient(since, bucket).Floor;
    QuotientFloor(since, bucket);
    QuotientBelow(duration - offset, bucket, i);
    TimesOrdered(i + 1, 0, bucket);
  }

  /** An entry before the window has no bucket. */
  lemma EarlyEntryHasNoBucket(entry: real, scenarioStart: real, duration: Option<real>, offset: real, bucket: real)
    requires bucket > 0.0
    requires CohortAt(entry, MeasurementWindow(scenarioStart, duration, offset)) == Pre
    ensures entry < scenarioStart + offset
    ensures BucketIndexAt(entry, scenarioStart + offset, bucket, BucketCount(duration, offset, bucket)) == -1
  {
    hide Times, Quotient;
    var since := entry - (scenarioStart + offset);
    QuotientFloor(since, bucket);
    TimesOrdered(0, Quotient(since, bucket).Floor, bucket);
  }

  /** Without a finite duration the measurement has no end: the first bucket holds its first stretch,
      the second all the rest. */
  lemma EndlessMeasurement(entry: real, scenarioStart: real, offset: real, bucket: real)
    requires bucket > 0.0 && entry >= scenarioStart + offset
    ensures CohortAt(entry, MeasurementWindow(scenarioStart, None, offset)) == Measure
    ensures var i := BucketIndexAt(entry, scenarioStart + offset, bucket, BucketCount(None, offset, bucket));
            i == if entry < scenarioStart + offset + bucket then 0 else 1
  {
    hide Times, Quotient;
    var since := entry - (scenarioStart + offset);
    var i := Quotient(since, bucket).Floor;
    QuotientFloor(since, bucket);
    TimesOrdered(i + 1, 0, bucket);
    TimesOrdered(1, i, bucket);
    TimesOrdered(i + 1, 1, bucket);
    OneTimes(bucket);
  }

  lemma OneTimes(d: real)
    ensures Times(1, d) == d
  {
  }

  /** The extra bucket holds every entry past the window's end. */
  ghost predicate OverflowKeepsPost(scenarioStart: real, duration: real, offset: real, bucket: real)
    requires bucket > 0.0
  {
    var count := BucketCount(Some(duration), offset, bucket);
    forall ms :: CohortAt(ms, MeasurementWindow(scenarioStart, Some(duration), offset)) == Post ==>
      BucketIndexAt(ms, scenarioStart + offset, bucket, count) == count - 1
  }

  /** The measured span is a positive whole number of buckets. */
  predicate WholeBuckets(duration: real, offset: real, bucket: real)
    requires bucket > 0.0
  {
    duration > offset && Times(Ceil(Quotient(duration - offset, bucket)), bucket) == duration - offset
  }

  /** Times past the window's end stay out of the regular buckets exactly when the measured span
      is a whole number of buckets; otherwise the last regular bucket absorbs the first of them. */
  lemma OverflowKeepsPostIff(scenarioStart: real, duration: real, offset: real, bucket: real)
    requires bucket > 0.0
    ensures OverflowKeepsPost(scenarioStart, duration, offset, bucket) <==> WholeBuckets(duration, offset, bucket)
  {
    if WholeBuckets(duration, offset, bucket) {
      var count := BucketCount(Some(duration), offset, bucket);
      forall ms | CohortAt(ms, MeasurementWindow(scenarioStart, Some(duration), offset)) == Post
        ensures BucketIndexAt(ms, scenarioStart + offset, bucket, count) == count - 1
      {
        WholeBucketsOverflow(ms, scenarioStart, duration, offset, bucket);
      }
    } else if duration > offset {
      PartialBucketAbsorbs(scenarioStart, duration, offset, bucket);
    } else {
      EmptySpanAbsorbs(scenarioStart, duration, offset, bucket);
    }
  }

  lemma WholeBucketsOverflow(ms: real, scenarioStart: real, duration: real, offset: real, bucket: real)
    requires bucket > 0.0 && WholeBuckets(duration, offset, bucket)
    requires CohortAt(ms, MeasurementWindow(scenarioStart, Some(duration), offset)) == Post
    ensures var count := BucketCount(Some(duration), offset, bucket);
            BucketIndexAt(ms, scenarioStart + offset, bucket, count) == count - 1
  {
    hide Times, Quotient;
    var span, since := duration - offset, ms - (scenarioStart + offset);
    var n := Ceil(Quotient(span, bucket));
    QuotientFloor(since, bucket);
    var i := Quotient(since, bucket).Floor;
    TimesOrdered(i + 1, n, bucket);
    TimesOrdered(n, 0, bucket);
  }

  lemma PartialBucketAbsorbs(scenarioStart: real, duration: real, offset: real, bucket: real)
    requires bucket > 0.0 && duration > offset && !WholeBuckets(duration, offset, bucket)
    ensures !OverflowKeepsPost(scenarioStart, duration, offset, bucket)
  {
    hide Times, Quotient;
    var span := duration - offset;
    var ms := scenarioStart + duration;
    assert CohortAt(ms, MeasurementWindow(scenarioStart, Some(duration), offset)) == Post;
    assert ms - (scenarioStart + offset) == span;
    var i, n := Quotient(span, bucket).Floor, Ceil(Quotient(span, bucket));
    QuotientFloor(span, bucket);
    QuotientBelow(span, bucket, n);
    QuotientBelow(span, bucket, i + 1);
    TimesOrdered(n, i, bucket);
    TimesOrdered(n, 0, bucket);
    assert i == n - 1 && n >= 1;
  }

  lemma EmptySpanAbsorbs(scenarioStart: real, duration: real, offset: real, bucket: real)
    requires bucket > 0.0 && duration <= offset
    ensures !OverflowKeepsPost(scenarioStart, duration, offset, bucket)
  {
    var ms := scenarioStart + offset;
    assert CohortAt(ms, MeasurementWindow(scenarioStart, Some(duration), offset)) == Post;
    assert Quotient(ms - (scenarioStart + offset), bucket) == 0.0;
    assert Quotient(0.0, bucket) == 0.0;
  }

  /** Ninety measured seconds in minute buckets: a completion one second after the end is counted
      in the second regular bucket. */
  lemma LateEntryInRegularBucket()
    ensures var count := BucketCount(Some(90000.0), 0.0, 60000.0);
            && count == 3 && CohortAt(91000.0, MeasurementWindow(0.0, Some(90000.0), 0.0)) == Post
            && BucketIndexAt(91000.0, 0.0, 60000.0, count) == 1
  {
    assert Quotient(90000.0, 60000.0) == 1.5;
    assert 1.5 < Quotient(91000.0, 60000.0) < 2.0;
  }

  // ---------- Cohort accounting ----------

  const BOUNDARY_JITTER_MS: real := 1.0

  /** The counters of one run's summary; absent counters read as zero. */
  datatype Counters = Counters(
    beginMeasure: Option<nat>, ops: Option<nat>, outcomes: seq<nat>, begins: nat)

  datatype Problem =
    | MissingBeginMeasure | MissingOps | NotInterpretable | MoreStartedThanScheduled
    | Unfinished | OutcomesMismatch | ScheduledZero

  datatype Drops = Drops(delta: int, overshoot: int, lower: int, upper: int)

  datatype Accounting = Accounting(
    scheduled: Option<nat>, started: nat, completed: nat,
    drops: Option<Drops>, preDrops: Option<int>, problems: seq<Problem>)

  function Sum(s: seq<nat>): nat {
    if s == [] then 0 else Sum(s[..|s| - 1]) + s[|s| - 1]
  }

  lemma SumNext(s: seq<nat>, k: nat)
    requires k < |s|
    ensures Sum(s[..k + 1]) == Sum(s[..k]) + s[k]
  {
    assert s[..k + 1][..k] == s[..k];
  }

  /** Arrivals that may land on the other side of a window edge. */
  function Allowance(p: Plan): nat
    requires p.Interpretable()
  {
    Max(2, Ceil(Quotient(p.rate.value, p.unit.value) * BOUNDARY_JITTER_MS))
  }

  method AddUp(s: seq<nat>) returns (total: nat)
    ensures total == Sum(s)
  {
    total := 0;
    for i := 0 to |s|
      invariant total == Sum(s[..i])
    {
      SumNext(s, i);
      total := total + s[i];
    }
    assert s[..|s|] == s;
  }

  /** The signed difference between entries and schedule, and the drops it stands for: the lower
      figure is the deficit, the upper one the distance, in every branch. */
  method ScheduleDelta(started: nat, scheduled: nat, allowance: nat) returns (d: Drops, excessive: bool)
    ensures d.delta == started - scheduled
    ensures d.lower == Max(scheduled - started, 0) && d.upper == Abs(started - scheduled)
    ensures started + d.lower == scheduled + d.overshoot
    ensures d.lower == 0 || d.overshoot == 0
    ensures excessive <==> started > scheduled + allowance
  {
    var delta := started - scheduled;
    var overshoot := 0;
    excessive := false;
    if delta > allowance {
      excessive := true;
      overshoot := delta;
    } else if delta > 0 {
      overshoot := delta;
    }
    var upper := if Abs(delta) <= allowance then Abs(delta) else Max(-delta, overshoot);
    d := Drops(delta, overshoot, Max(-delta, 0), upper);
  }

  /** The estimate of drops before the window, where it can be derived. */
  method PreDrops(p: Plan, scheduled: Option<nat>, started: nat, begins: nat) returns (r: Option<int>)
    requires scheduled == ScheduledArrivals(p)
    ensures r.Some? <==>
      && p.Interpretable() && p.limit.Lasts? && begins >= started
      && p.windowEnd.value == p.scenarioStart.value + p.limit.ms
      && p.scenarioStart.value < p.windowStart.value
    ensures r.Some? ==>
      r.value + (scheduled.value - started)
      == ScheduledArrivals(p.(windowStart := p.scenarioStart)).value - begins
  {
    ghost var arrivals := ArrivalsCounted(p);
    if scheduled.Some? && p.limit.Lasts?
      && p.windowEnd.value == p.scenarioStart.value + p.limit.ms && begins >= started
    {
      var pre := ScheduledArrivals(p.(windowStart := p.scenarioStart, windowEnd := p.windowStart));
      if p.scenarioStart.value < p.windowStart.value {
        ghost var whole := p.(windowStart := p.scenarioStart);
        SplitAt(whole, p.windowStart.value);
        assert whole.(windowEnd := p.windowStart) == p.(windowStart := p.scenarioStart, windowEnd := p.windowStart);
        assert whole.(windowStart := p.windowStart) == p;
      }
      if pre.Some? {
        return Some(pre.value - (begins - started));
      }
    }
    return None;
  }

  /** A window's books balance: every entry finished under one outcome and was counted once, the
      schedule is exact and not empty, and at most the allowance entered beyond it. */
  ghost predicate Balanced(c: Counters, p: Plan) {
    && c.beginMeasure.Some? && c.ops.Some?
    && c.beginMeasure.value == Sum(c.outcomes) == c.ops.value
    && p.Interpretable() && ScheduledArrivals(p).value > 0
    && c.beginMeasure.value <= ScheduledArrivals(p).value + Allowance(p)
  }

  method CohortAccounting(c: Counters, p: Plan) returns (a: Accounting)
    ensures a.problems == [] <==> Balanced(c, p)
    ensures a.scheduled == ScheduledArrivals(p)
    ensures a.started == c.beginMeasure.GetOr(0) && a.completed == Sum(c.outcomes)
    ensures a.drops.Some? <==> p.Interpretable()
    ensures a.drops.Some? ==>
      && a.drops.value.upper == Abs(a.started - a.scheduled.value)
      && a.drops.value.lower == Max(a.scheduled.value - a.started, 0)
      && a.started + a.drops.value.lower == a.scheduled.value + a.drops.value.overshoot
    ensures a.preDrops.Some? && a.drops.Some? ==>
      a.preDrops.value - a.drops.value.delta
      == ScheduledArrivals(p.(windowStart := p.scenarioStart)).value - c.begins
    ensures ScheduledZero in a.problems <==> a.scheduled == Some(0)
    ensures Unfinished in a.problems <==> a.started != a.completed
    ensures a.drops.Some? ==>
      (CoversDrops(a.started, a.scheduled.value, Allowance(p), a.drops.value.upper) <==>
       NothingHidden(a.started, a.scheduled.value, Allowance(p)))
  {
    hide ScheduledArrivals, Allowance, Sum, Abs, Max, CoversDrops, NothingHidden;
    var completed := AddUp(c.outcomes);
    var started := c.beginMeasure.GetOr(0);
    var scheduled := ScheduledArrivals(p);
    var drops, excessive := None, false;
    if scheduled.Some? {
      var d;
      d, excessive := ScheduleDelta(started, scheduled.value, Allowance(p));
      UpperFigureCoversIff(started, scheduled.value, Allowance(p));
      drops := Some(d);
    }
    var problems := WindowProblems(c, completed, scheduled, excessive);
    var pre := PreDrops(p, scheduled, started, c.begins);
    a := Accounting(scheduled, started, completed, drops, pre, problems);
  }

  /** Everything that speaks against the window, in the order it is looked for. */
  method WindowProblems(c: Counters, completed: nat, scheduled: Option<nat>, excessive: bool)
    returns (problems: seq<Problem>)
    ensures problems == [] <==>
      && c.beginMeasure.Some? && c.ops.Some? && scheduled.Some? && !excessive && scheduled.value > 0
      && c.beginMeasure.value == completed == c.ops.value
    ensures ScheduledZero in problems <==> scheduled == Some(0)
    ensures Unfinished in problems <==> c.beginMeasure.GetOr(0) != completed
  {
    problems := [];
    if c.beginMeasure.None? {
      problems := problems + [MissingBeginMeasure];
    }
    if c.ops.None? {
      problems := problems + [MissingOps];
    }
    if scheduled.None? {
      problems := problems + [NotInterpretable];
    } else if excessive {
      problems := problems + [MoreStartedThanScheduled];
    }
    if c.beginMeasure.GetOr(0) != completed {
      problems := problems + [Unfinished];
    }
    if completed != c.ops.GetOr(0) {
      problems := problems + [OutcomesMismatch];
    }
    if scheduled == Some(0) {
      problems := problems + [ScheduledZero];
    }
  }

  // ---------- What the figures say about real drops ----------

  /** So many drops, together with so many entries that jitter let in, make these counts. */
  predicate Consistent(started: nat, scheduled: nat, drops: nat, extra: nat) {
    drops <= scheduled && started == scheduled - drops + extra
  }

  /** The figure bounds the real drops, whatever they are, while at most `excess` entered in excess. */
  ghost predicate CoversDrops(started: nat, scheduled: nat, excess: nat, figure: int) {
    forall drops: nat, extra: nat :: Consistent(started, scheduled, drops, extra) && extra <= excess ==> drops <= figure
  }

  /** Either nothing can hide a drop, or the entries beyond the schedule outweigh what they could. */
  predicate NothingHidden(started: nat, scheduled: nat, excess: nat) {
    if started <= scheduled then excess == 0 || started == 0
    else excess <= 2 * (started - scheduled) || scheduled <= started - scheduled
  }

  /** The lower figure never exceeds the real drops. The upper one bounds them exactly when the counts
      show that nothing is hidden. */
  lemma UpperFigureCoversIff(started: nat, scheduled: nat, excess: nat)
    ensures CoversDrops(started, scheduled, excess, Abs(started - scheduled)) <==> NothingHidden(started, scheduled, excess)
    ensures forall drops: nat, extra: nat :: Consistent(started, scheduled, drops, extra) ==>
              Max(scheduled - started, 0) <= drops
  {
    if !NothingHidden(started, scheduled, excess) {
      if started <= scheduled {
        assert Consistent(started, scheduled, scheduled - started + 1, 1);
      } else {
        var beyond := started - scheduled;
        assert Consistent(started, scheduled, beyond + 1, 2 * beyond + 1);
      }
    }
  }

  /** Ten arrivals over ten seconds, and ten entries. */
  function TenSecondPlan(): Plan {
    Plan(Some(0.0), Some(0.0), Some(10000.0), Some(1.0), Some(1000.0), Lasts(10000.0))
  }

  /** A window whose books balance and whose upper figure is zero, although one arrival may have been
      dropped and another entered in excess. */
  lemma MaskedDrop()
    ensures var p := TenSecondPlan();
            && p.Interpretable() && Balanced(Counters(Some(10), Some(10), [10], 10), p)
            && ScheduledArrivals(p) == Some(10) && Abs(10 - 10) == 0
            && Consistent(10, 10, 1, 1) && 1 <= Allowance(p)
            && !CoversDrops(10, 10, Allowance(p), 0)
  {
    var p := TenSecondPlan();
    assert p.Period() == 1000.0;
    assert Quotient(10000.0, 1000.0) == 10.0 && Quotient(0.0, 1000.0) == 0.0;
    assert ScheduledArrivals(p) == Some(10);
    assert [10][..0] == [] && Sum([10]) == 10;
    assert Consistent(10, 10, 1, 1);
  }
}
