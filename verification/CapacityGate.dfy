/** The capacity gate: from the evidence of one load run to its verdict
    (perf/tools/capacity_search.py, contract_validity, stream_evidence and evaluate). */
module CapacityGate {
  import opened Common
  import opened DropAccounting
  import StreamSeries
  import StreamSharding
  import Counts
  import Schedule

  datatype Verdict = Pass | Fail | Invalid | LoadModelInvalid | GeneratorInvalid

  const OUTCOME_NAMES: seq<string> := [
    "success", "expected_rejection", "local_no_request", "unexpected",
    "prepare_failed", "prepare_local_failed", "prepare_sut_failed"]

  // ---------- The measurement contract ----------

  datatype Contract = Contract(
    windowStart: Option<real>, windowEnd: Option<real>, scenarioStart: Option<real>, duration: Option<real>,
    clockOk: bool, divergent: bool, known: bool, windowSeconds: Option<real>)

  datatype ContractProblem =
    | NoContract | MissingBound | ClockNotOk | Divergent | EmptyWindow | UnknownContract | MissingSeconds

  predicate ContractOk(c: Option<Contract>) {
    && c.Some?
    && var k := c.value;
       && k.scenarioStart.Some? && k.duration.Some? && k.windowStart.Some? && k.windowEnd.Some?
       && k.windowStart.value < k.windowEnd.value
       && k.clockOk && !k.divergent && k.known && k.windowSeconds.Some?
  }

  method ContractValidity(c: Option<Contract>) returns (problems: seq<ContractProblem>)
    ensures problems == [] <==> ContractOk(c)
    ensures MissingSeconds in problems ==> |problems| == 1
  {
    if c.None? {
      return [NoContract];
    }
    var k := c.value;
    problems := [];
    var required := [k.windowStart, k.windowEnd, k.scenarioStart, k.duration];
    for i := 0 to |required|
      invariant problems == [] <==> forall j :: 0 <= j < i ==> required[j].Some?
      invariant MissingSeconds !in problems
    {
      if required[i].None? {
        problems := problems + [MissingBound];
      }
    }
    assert (forall j :: 0 <= j < |required| ==> required[j].Some?) <==>
      required[0].Some? && required[1].Some? && required[2].Some? && required[3].Some?;
    if !k.clockOk {
      problems := problems + [ClockNotOk];
    }
    if k.divergent {
      problems := problems + [Divergent];
    }
    if k.windowStart.Some? && k.windowEnd.Some? && k.windowStart.value >= k.windowEnd.value {
      problems := problems + [EmptyWindow];
    }
    if !k.known {
      problems := problems + [UnknownContract];
    }
    if k.windowSeconds.None? && problems == [] {
      problems := problems + [MissingSeconds];
    }
  }

  // ---------- Stream artifacts ----------

  datatype WindowFile = NoWindowFile | UnreadableWindow | WindowFile(valid: bool, cohort: Option<CohortReport>)

  datatype StatsFile = NoStatsFile | UnreadableStats | StatsFile(parseErrors: nat, readerError: bool, lagOver5s: nat)

  datatype Artifacts = Artifacts(series: bool, window: WindowFile, stats: StatsFile)

  datatype StreamEvidence = StreamEvidence(complete: bool, valid: bool, cohort: Option<CohortReport>)

  predicate ArtifactsComplete(a: Artifacts) {
    a.series && !a.window.NoWindowFile? && !a.stats.NoStatsFile?
  }

  /** All three artifacts are there and readable, the analyzer called its window and its cohort
      valid, and it neither failed on the stream nor fell behind it. */
  predicate ArtifactsSound(a: Artifacts) {
    && a.series
    && a.window.WindowFile? && a.window.valid && a.window.cohort.Some? && a.window.cohort.value.valid
    && a.stats.StatsFile? && a.stats.parseErrors == 0 && !a.stats.readerError && a.stats.lagOver5s == 0
  }

  datatype StreamProblem =
    | MissingArtifact | WindowUnreadable | StatsUnreadable | WindowInvalid | ParseErrors | ReaderError
    | PipelineLag | CohortMissing | CohortInvalid

  method ReadStreamEvidence(a: Artifacts) returns (e: StreamEvidence)
    ensures e.complete == ArtifactsComplete(a)
    ensures e.valid <==> ArtifactsSound(a)
    ensures e.valid ==> e.complete && e.cohort == a.window.cohort
  {
    var problems: seq<StreamProblem> := [];
    var complete := true;
    if !a.series || a.window.NoWindowFile? || a.stats.NoStatsFile? {
      complete := false;
      problems := [MissingArtifact];
    }
    if a.window.UnreadableWindow? {
      problems := problems + [WindowUnreadable];
    }
    if a.stats.UnreadableStats? {
      problems := problems + [StatsUnreadable];
    }
    var cohort := None;
    if a.series || !a.window.NoWindowFile? || !a.stats.NoStatsFile? {
      if !a.window.WindowFile? || !a.window.valid {
        problems := problems + [WindowInvalid];
      }
      if a.stats.StatsFile? {
        if a.stats.parseErrors != 0 {
          problems := problems + [ParseErrors];
        }
        if a.stats.readerError {
          problems := problems + [ReaderError];
        }
        if a.stats.lagOver5s != 0 {
          problems := problems + [PipelineLag];
        }
      }
      if a.window.WindowFile? {
        cohort := a.window.cohort;
      }
      if !a.window.NoWindowFile? {
        if cohort.None? {
          problems := problems + [CohortMissing];
        } else if !cohort.value.valid {
          problems := problems + [CohortInvalid];
        }
      }
    }
    e := StreamEvidence(complete, complete && problems == [], cohort);
  }

  // ---------- One run ----------

  datatype Metrics = Metrics(
    named: map<string, nat>, beginMeasure: Option<nat>, ops: Option<nat>, begins: nat,
    lateVu: nat, p95: real, p99: real, classified: nat)

  datatype WholeRun = WholeRun(completed: nat, dropped: nat, p95: real, p99: real, seconds: real)

  /** The stream-integrity fields the runner copied into the summary. */
  datatype SummaryEvidence = SummaryEvidence(windowInvalid: bool, readerError: bool, parseErrors: bool)

  datatype Run = Run(
    evidence: Option<SummaryEvidence>, capRun: bool, contract: Option<Contract>, artifacts: Artifacts,
    metrics: Metrics, whole: WholeRun, timeUnit: Option<real>,
    thresholdFailed: bool, coldLogin: bool, generatorFault: bool)

  /** What the last step of the gate reads. */
  datatype Gate = Gate(
    dropFraction: real, rate: Option<real>, unexpected: int,
    prepareFailed: int, prepareLocal: int, prepareSut: int, latencyOk: bool)

  datatype Step = Stop(verdict: Verdict) | Go(gate: Gate)

  function Ratio(x: real, d: real): real
    requires d != 0.0
  {
    x / d
  }

  function NamedCount(m: Metrics, name: string): nat {
    if name in m.named then m.named[name] else 0
  }

  function NamedCounts(m: Metrics): seq<nat> {
    seq(|OUTCOME_NAMES|, i requires 0 <= i < |OUTCOME_NAMES| => NamedCount(m, OUTCOME_NAMES[i]))
  }

  predicate SummaryEvidenceOk(run: Run) {
    run.evidence.Some? ==>
      !run.evidence.value.windowInvalid && !run.evidence.value.readerError && !run.evidence.value.parseErrors
  }

  predicate LatencyOk(run: Run) {
    if run.coldLogin then !run.thresholdFailed else run.metrics.p95 <= 100.0 && run.metrics.p99 <= 250.0
  }

  /** More than 0.1% of the started iterations ran on virtual users created inside the window. */
  predicate LateStarts(m: Metrics, started: int) {
    started != 0 && Ratio(m.lateVu as real, started as real) > 0.001
  }

  // ---------- Stream path ----------

  /** The outcomes on the stream and the named counters tell of the same events. */
  ghost predicate OutcomesAgree(outcomes: map<string, int>, m: Metrics) {
    && (forall name :: name in outcomes ==> name in OUTCOME_NAMES)
    && (forall name :: name in OUTCOME_NAMES ==> Counts.At(outcomes, name) == NamedCount(m, name))
  }

  method CountersAgree(outcomes: map<string, int>, m: Metrics) returns (ok: bool)
    ensures ok <==> OutcomesAgree(outcomes, m)
  {
    if exists name :: name in outcomes.Keys && name !in OUTCOME_NAMES {
      return false;
    }
    for i := 0 to |OUTCOME_NAMES|
      invariant forall j :: 0 <= j < i ==>
          Counts.At(outcomes, OUTCOME_NAMES[j]) == NamedCount(m, OUTCOME_NAMES[j])
    {
      if Counts.At(outcomes, OUTCOME_NAMES[i]) != NamedCount(m, OUTCOME_NAMES[i]) {
        return false;
      }
    }
    return true;
  }

  function AbsReal(x: real): real {
    if x >= 0.0 then x else -x
  }

  /** Stream and summary place the window within a millisecond of each other. */
  predicate BoundsAgree(c: CohortReport, k: Contract)
    requires ContractOk(Some(k))
  {
    && c.window.Some?
    && AbsReal(c.window.value.start * 1000.0 - k.windowStart.value) <= 1.0
    && AbsReal(c.window.value.end * 1000.0 - k.windowEnd.value) <= 1.0
  }

  /** The cohort's own figures agree, before any rate is formed. */
  predicate CohortClosed(c: CohortReport, k: Contract)
    requires ContractOk(Some(k))
  {
    BoundsAgree(c, k) && c.started == c.completed == c.outcomeSum && c.scheduledObserved > 0
  }

  /** The observed schedule is within half a percent of the registered rate. */
  predicate OnTarget(scheduled: int, seconds: real, target: int)
    requires seconds != 0.0 && target != 0
  {
    AbsReal(Ratio(Ratio(scheduled as real, seconds), target as real) - 1.0) <= 0.005
  }

  ghost predicate StreamSound(c: CohortReport, k: Contract, m: Metrics, target: int)
    requires ContractOk(Some(k))
  {
    && CohortClosed(c, k) && k.windowSeconds.value != 0.0 && target != 0
    && OnTarget(c.scheduledObserved, k.windowSeconds.value, target)
    && OutcomesAgree(c.outcomes, m)
  }

  function StreamGate(c: CohortReport, seconds: real, run: Run): Gate
    requires seconds != 0.0 && c.scheduledObserved != 0
  {
    Gate(Ratio(c.dropped as real, c.scheduledObserved as real),
         Some(Ratio(Counts.At(c.outcomes, "success") as real, seconds)),
         Counts.At(c.outcomes, "unexpected"), Counts.At(c.outcomes, "prepare_failed"),
         Counts.At(c.outcomes, "prepare_local_failed"), Counts.At(c.outcomes, "prepare_sut_failed"),
         LatencyOk(run))
  }

  method EvaluateStream(run: Run, k: Contract, c: CohortReport, target: int) returns (r: Result<Step>)
    requires ContractOk(Some(k))
    ensures r.Err? <==> CohortClosed(c, k) && (k.windowSeconds.value == 0.0 || target == 0)
    ensures r.Ok? && r.value.Go? <==> StreamSound(c, k, run.metrics, target) && !LateStarts(run.metrics, c.started)
    ensures r == Ok(Stop(LoadModelInvalid)) <==> StreamSound(c, k, run.metrics, target) && LateStarts(run.metrics, c.started)
    ensures r.Ok? && r.value.Stop? ==> r.value.verdict in {Invalid, LoadModelInvalid}
    ensures r.Ok? && r.value.Go? ==> r.value.gate == StreamGate(c, k.windowSeconds.value, run)
  {
    if c.window.None? {
      return Ok(Stop(Invalid));
    }
    if AbsReal(c.window.value.start * 1000.0 - k.windowStart.value) > 1.0
      || AbsReal(c.window.value.end * 1000.0 - k.windowEnd.value) > 1.0
    {
      return Ok(Stop(Invalid));
    }
    if c.started != c.completed {
      return Ok(Stop(Invalid));
    }
    if c.outcomeSum != c.completed {
      return Ok(Stop(Invalid));
    }
    if c.scheduledObserved <= 0 {
      return Ok(Stop(Invalid));
    }
    var seconds := k.windowSeconds.value;
    if seconds == 0.0 || target == 0 {
      return Err;
    }
    if !OnTarget(c.scheduledObserved, seconds, target) {
      return Ok(Stop(Invalid));
    }
    var agree := CountersAgree(c.outcomes, run.metrics);
    if !agree {
      return Ok(Stop(Invalid));
    }
    if LateStarts(run.metrics, c.started) {
      return Ok(Stop(LoadModelInvalid));
    }
    return Ok(Go(StreamGate(c, seconds, run)));
  }

  // ---------- Counter path, for runs without stream artifacts ----------

  function PlanOf(k: Contract, target: int, unit: Option<real>): Schedule.Plan {
    Schedule.Plan(k.scenarioStart, k.windowStart, k.windowEnd, Some(target as real), unit,
                  if k.duration.Some? then Schedule.Lasts(k.duration.value) else Schedule.Unlimited)
  }

  function CountersOf(m: Metrics): Schedule.Counters {
    Schedule.Counters(m.beginMeasure, m.ops, NamedCounts(m), m.begins)
  }

  /** Rounded to six decimals, halves to the even neighbour. */
  function Round6(x: real): (r: real)
    ensures r - 0.0000005 <= x <= r + 0.0000005
  {
    var scaled := x * 1000000.0;
    var low := scaled.Floor;
    var rest := scaled - low as real;
    var n := if rest < 0.5 || (rest == 0.5 && low % 2 == 0) then low else low + 1;
    n as real / 1000000.0
  }

  function CounterGate(m: Metrics, upper: int, scheduled: nat, seconds: real, run: Run): Gate
    requires scheduled > 0 && seconds != 0.0
  {
    Gate(Round6(Ratio(upper as real, scheduled as real)), Some(Ratio(NamedCount(m, "success") as real, seconds)),
         NamedCount(m, "unexpected"), NamedCount(m, "prepare_failed"), NamedCount(m, "prepare_local_failed"),
         NamedCount(m, "prepare_sut_failed"), LatencyOk(run))
  }

  method EvaluateCounters(run: Run, k: Contract, target: int) returns (r: Result<Step>)
    requires ContractOk(Some(k))
    ensures r.Err? <==> k.windowSeconds.value == 0.0
    ensures var m, p := run.metrics, PlanOf(k, target, run.timeUnit);
            && (r.Ok? && r.value.Go? <==>
                  && k.windowSeconds.value != 0.0 && Schedule.Balanced(CountersOf(m), p)
                  && !LateStarts(m, m.beginMeasure.GetOr(0)))
            && (r == Ok(Stop(LoadModelInvalid)) <==>
                  && k.windowSeconds.value != 0.0 && Schedule.Balanced(CountersOf(m), p)
                  && LateStarts(m, m.beginMeasure.GetOr(0)))
    ensures r.Ok? && r.value.Stop? ==> r.value.verdict in {Invalid, LoadModelInvalid}
    ensures r.Ok? && r.value.Go? ==>
      var scheduled := Schedule.ScheduledArrivals(PlanOf(k, target, run.timeUnit)).value;
      r.value.gate == CounterGate(run.metrics, Abs(run.metrics.beginMeasure.value - scheduled), scheduled,
                                  k.windowSeconds.value, run)
  {
    hide Schedule.ScheduledArrivals, Schedule.Sum, Schedule.Allowance, Round6;
    if k.windowSeconds.value == 0.0 {
      return Err;
    }
    var a := Schedule.CohortAccounting(CountersOf(run.metrics), PlanOf(k, target, run.timeUnit));
    if a.problems != [] {
      return Ok(Stop(Invalid));
    }
    if LateStarts(run.metrics, a.started) {
      return Ok(Stop(LoadModelInvalid));
    }
    return Ok(Go(CounterGate(run.metrics, a.drops.value.upper, a.scheduled.value, k.windowSeconds.value, run)));
  }

  // ---------- Whole-scenario path ----------

  function WholeGate(run: Run): Gate {
    var w := run.whole;
    Gate(if w.completed + w.dropped == 0 then 0.0 else Ratio(w.dropped as real, (w.completed + w.dropped) as real),
         if w.seconds == 0.0 then None else Some(Ratio(w.completed as real, w.seconds)),
         run.metrics.classified, 0, 0, 0,
         !run.thresholdFailed && w.p95 <= 100.0 && w.p99 <= 250.0)
  }

  // ---------- The verdict ----------

  predicate Acceptable(g: Gate, target: int) {
    && g.dropFraction <= 0.001
    && g.rate.Some? && g.rate.value >= target as real * 0.995
    && g.unexpected == 0 && g.prepareSut == 0 && g.latencyOk
  }

  predicate Unprepared(g: Gate) {
    g.prepareFailed != 0 || g.prepareLocal != 0
  }

  /** Drops that the load generator itself can answer for. */
  predicate Excused(g: Gate, generatorFault: bool) {
    g.dropFraction > 0.001 && g.unexpected == 0 && g.prepareSut == 0 && generatorFault
  }

  function Decide(g: Gate, target: int, generatorFault: bool): (v: Verdict)
    ensures v == Pass <==> !Unprepared(g) && Acceptable(g, target)
    ensures v == GeneratorInvalid ==> !Acceptable(g, target)
  {
    if Unprepared(g) then Invalid
    else if Excused(g, generatorFault) then GeneratorInvalid
    else if Acceptable(g, target) then Pass
    else Fail
  }

  /** Which population the gate reads, if the evidence allows any. */
  ghost predicate GateReads(run: Run, target: int, requireStream: bool, g: Gate) {
    if !run.capRun then g == WholeGate(run)
    else
      && ContractOk(run.contract)
      && var k, m := run.contract.value, run.metrics;
         if ArtifactsComplete(run.artifacts) then
           && ArtifactsSound(run.artifacts)
           && var c := run.artifacts.window.cohort.value;
              && StreamSound(c, k, m, target) && !LateStarts(m, c.started)
              && g == StreamGate(c, k.windowSeconds.value, run)
         else
           && !requireStream && k.windowSeconds.value != 0.0
           && Schedule.Balanced(CountersOf(m), PlanOf(k, target, run.timeUnit))
           && !LateStarts(m, m.beginMeasure.value)
           && var scheduled := Schedule.ScheduledArrivals(PlanOf(k, target, run.timeUnit)).value;
              g == CounterGate(m, Abs(m.beginMeasure.value - scheduled), scheduled, k.windowSeconds.value, run)
  }

  /** The evidence is sound but too many iterations ran on late virtual users. */
  ghost predicate TooLate(run: Run, target: int, requireStream: bool) {
    && run.capRun && ContractOk(run.contract)
    && var k, m := run.contract.value, run.metrics;
       if ArtifactsComplete(run.artifacts) then
         && ArtifactsSound(run.artifacts)
         && var c := run.artifacts.window.cohort.value;
            StreamSound(c, k, m, target) && LateStarts(m, c.started)
       else
         && !requireStream && k.windowSeconds.value != 0.0
         && Schedule.Balanced(CountersOf(m), PlanOf(k, target, run.timeUnit))
         && LateStarts(m, m.beginMeasure.value)
  }

  /** A rate would have to be divided by zero. */
  ghost predicate Undefined(run: Run, target: int, requireStream: bool) {
    && run.capRun && ContractOk(run.contract)
    && var k := run.contract.value;
       if ArtifactsComplete(run.artifacts) then
         && ArtifactsSound(run.artifacts) && CohortClosed(run.artifacts.window.cohort.value, k)
         && (k.windowSeconds.value == 0.0 || target == 0)
       else
         !requireStream && k.windowSeconds.value == 0.0
  }

  // ---------- The verdicts in the run's own figures ----------

  /** No integrity failure was copied into the summary. */
  ghost predicate Untainted(run: Run) {
    run.evidence.Some? ==>
      !run.evidence.value.windowInvalid && !run.evidence.value.readerError && !run.evidence.value.parseErrors
  }

  /** A cap run with both window ends, the scenario start, its duration and the window's length, read
      from one known contract on a sound clock. */
  ghost predicate Contracted(run: Run) {
    && run.capRun && run.contract.Some?
    && var k := run.contract.value;
       && k.windowStart.Some? && k.windowEnd.Some? && k.windowStart.value < k.windowEnd.value
       && k.scenarioStart.Some? && k.duration.Some? && k.windowSeconds.Some?
       && k.clockOk && !k.divergent && k.known
  }

  ghost predicate HasStream(run: Run) {
    run.artifacts.series && !run.artifacts.window.NoWindowFile? && !run.artifacts.stats.NoStatsFile?
  }

  /** The artifacts are readable, called valid by the analyzer, and free of errors and of lag. */
  ghost predicate CleanStream(run: Run) {
    && run.artifacts.series
    && run.artifacts.window.WindowFile? && run.artifacts.window.valid
    && run.artifacts.window.cohort.Some? && run.artifacts.window.cohort.value.valid
    && run.artifacts.stats.StatsFile? && run.artifacts.stats.parseErrors == 0
    && !run.artifacts.stats.readerError && run.artifacts.stats.lagOver5s == 0
  }

  /** The cohort's window is the contract's to the millisecond, and its books are closed. */
  ghost predicate ClosedCohort(run: Run)
    requires Contracted(run) && CleanStream(run)
  {
    var k, c := run.contract.value, run.artifacts.window.cohort.value;
    && c.window.Some?
    && -1.0 <= c.window.value.start * 1000.0 - k.windowStart.value <= 1.0
    && -1.0 <= c.window.value.end * 1000.0 - k.windowEnd.value <= 1.0
    && c.started == c.completed && c.completed == c.outcomeSum && c.scheduledObserved > 0
  }

  /** The arrivals observed come within half a percent of the target, and the counters of the summary
      tell outcome by outcome what the stream tells. */
  ghost predicate StreamAdmits(run: Run, target: int) {
    && Contracted(run) && CleanStream(run) && ClosedCohort(run)
    && var k, m, c := run.contract.value, run.metrics, run.artifacts.window.cohort.value;
       && k.windowSeconds.value != 0.0 && target != 0
       && -0.005 <= Ratio(Ratio(c.scheduledObserved as real, k.windowSeconds.value), target as real) - 1.0 <= 0.005
       && c.outcomes.Keys <= {"success", "expected_rejection", "local_no_request", "unexpected",
                              "prepare_failed", "prepare_local_failed", "prepare_sut_failed"}
       && Counts.At(c.outcomes, "success") == Counts.At(m.named, "success")
       && Counts.At(c.outcomes, "expected_rejection") == Counts.At(m.named, "expected_rejection")
       && Counts.At(c.outcomes, "local_no_request") == Counts.At(m.named, "local_no_request")
       && Counts.At(c.outcomes, "unexpected") == Counts.At(m.named, "unexpected")
       && Counts.At(c.outcomes, "prepare_failed") == Counts.At(m.named, "prepare_failed")
       && Counts.At(c.outcomes, "prepare_local_failed") == Counts.At(m.named, "prepare_local_failed")
       && Counts.At(c.outcomes, "prepare_sut_failed") == Counts.At(m.named, "prepare_sut_failed")
  }

  /** Without stream artifacts: entries, operations and outcomes are the same number, and at most the
      allowance beyond the exact schedule, which is not empty. */
  ghost predicate CountersAdmit(run: Run, target: int) {
    && Contracted(run) && !HasStream(run) && run.contract.value.windowSeconds.value != 0.0
    && var k, m := run.contract.value, run.metrics;
       var scheduled := Schedule.ScheduledArrivals(
         Schedule.Plan(k.scenarioStart, k.windowStart, k.windowEnd, Some(target as real), run.timeUnit,
                       Schedule.Lasts(k.duration.value)));
       && m.beginMeasure.Some? && m.ops == m.beginMeasure
       && m.beginMeasure.value
          == Counts.At(m.named, "success") + Counts.At(m.named, "expected_rejection")
             + Counts.At(m.named, "local_no_request") + Counts.At(m.named, "unexpected")
             + Counts.At(m.named, "prepare_failed") + Counts.At(m.named, "prepare_local_failed")
             + Counts.At(m.named, "prepare_sut_failed")
       && scheduled.Some? && scheduled.value > 0 && run.timeUnit.Some? && run.timeUnit.value > 0.0
       && m.beginMeasure.value <= scheduled.value + Max(2, Ceil(target as real / run.timeUnit.value))
  }

  /** At most 0.1% of the entries ran on virtual users created inside the window. */
  ghost predicate FewLate(run: Run, started: int) {
    started == 0 || Ratio(run.metrics.lateVu as real, started as real) <= 0.001
  }

  /** The evidence allows a judgement on the system: it is admitted, its virtual users were there in
      time, and no iteration failed to prepare for a reason of its own. */
  ghost predicate Judged(run: Run, target: int, requireStream: bool) {
    run.capRun ==>
      && (if HasStream(run) then StreamAdmits(run, target) && FewLate(run, run.artifacts.window.cohort.value.started)
          else !requireStream && CountersAdmit(run, target) && FewLate(run, run.metrics.beginMeasure.value))
      && Counts.At(run.metrics.named, "prepare_failed") == 0
      && Counts.At(run.metrics.named, "prepare_local_failed") == 0
  }

  /** Drops are within 0.1% of what was scheduled; on counters, rounding allows 0.10005%. */
  ghost predicate DropsWithin(run: Run, target: int) {
    if !run.capRun then run.whole.dropped as real <= 0.001 * (run.whole.completed + run.whole.dropped) as real
    else if HasStream(run) then
      && run.artifacts.window.WindowFile? && run.artifacts.window.cohort.Some?
      && var c := run.artifacts.window.cohort.value; c.dropped as real <= 0.001 * c.scheduledObserved as real
    else
      && Contracted(run) && run.metrics.beginMeasure.Some?
      && var k := run.contract.value;
         var scheduled := Schedule.ScheduledArrivals(
           Schedule.Plan(k.scenarioStart, k.windowStart, k.windowEnd, Some(target as real), run.timeUnit,
                         Schedule.Lasts(k.duration.value)));
         && scheduled.Some?
         && Abs(run.metrics.beginMeasure.value - scheduled.value) as real <= 0.0010005 * scheduled.value as real
  }

  /** Nothing ended unexpectedly, and no preparation failed at the system. */
  ghost predicate Blameless(run: Run) {
    if !run.capRun then run.metrics.classified == 0
    else Counts.At(run.metrics.named, "unexpected") == 0 && Counts.At(run.metrics.named, "prepare_sut_failed") == 0
  }

  /** At least 99.5% of the target rate succeeded. */
  ghost predicate RateMet(run: Run, target: int) {
    if !run.capRun then
      run.whole.seconds != 0.0 && Ratio(run.whole.completed as real, run.whole.seconds) >= target as real * 0.995
    else
      && Contracted(run) && run.contract.value.windowSeconds.value != 0.0
      && Ratio(Counts.At(run.metrics.named, "success") as real, run.contract.value.windowSeconds.value)
         >= target as real * 0.995
  }

  /** The 100 and 250 millisecond limits; a cold login answers to the load tool's own thresholds, and
      a run without measurement window to both. */
  ghost predicate Prompt(run: Run) {
    if !run.capRun then !run.thresholdFailed && run.whole.p95 <= 100.0 && run.whole.p99 <= 250.0
    else if run.coldLogin then !run.thresholdFailed
    else run.metrics.p95 <= 100.0 && run.metrics.p99 <= 250.0
  }

  ghost predicate Passes(run: Run, target: int, requireStream: bool) {
    Judged(run, target, requireStream) && DropsWithin(run, target) && Blameless(run) && RateMet(run, target) && Prompt(run)
  }

  /** Too many drops, nothing else against the system, and a fault of the load generator to explain them. */
  ghost predicate GeneratorBlamed(run: Run, target: int, requireStream: bool) {
    Judged(run, target, requireStream) && !DropsWithin(run, target) && Blameless(run) && run.generatorFault
  }

  ghost predicate Fails(run: Run, target: int, requireStream: bool) {
    && Judged(run, target, requireStream)
    && !Passes(run, target, requireStream) && !GeneratorBlamed(run, target, requireStream)
  }

  ghost predicate LoadedLate(run: Run, target: int, requireStream: bool) {
    && run.capRun
    && if HasStream(run) then StreamAdmits(run, target) && !FewLate(run, run.artifacts.window.cohort.value.started)
       else !requireStream && CountersAdmit(run, target) && !FewLate(run, run.metrics.beginMeasure.value)
  }

  ghost predicate DividesByZero(run: Run, target: int, requireStream: bool) {
    && Contracted(run)
    && if HasStream(run) then
         CleanStream(run) && ClosedCohort(run) && (run.contract.value.windowSeconds.value == 0.0 || target == 0)
       else !requireStream && run.contract.value.windowSeconds.value == 0.0
  }

  // ---------- The two readings agree ----------

  lemma SevenNames()
    ensures forall name :: name in OUTCOME_NAMES <==>
      name in {"success", "expected_rejection", "local_no_request", "unexpected",
               "prepare_failed", "prepare_local_failed", "prepare_sut_failed"}
  {
    assert OUTCOME_NAMES[0] == "success" && OUTCOME_NAMES[1] == "expected_rejection";
    assert OUTCOME_NAMES[2] == "local_no_request" && OUTCOME_NAMES[3] == "unexpected";
    assert OUTCOME_NAMES[4] == "prepare_failed" && OUTCOME_NAMES[5] == "prepare_local_failed";
    assert OUTCOME_NAMES[6] == "prepare_sut_failed" && |OUTCOME_NAMES| == 7;
  }

  lemma StreamAdmitsIff(run: Run, target: int)
    requires Contracted(run) && CleanStream(run)
    ensures ContractOk(run.contract)
    ensures var k, c := run.contract.value, run.artifacts.window.cohort.value;
            && (CohortClosed(c, k) <==> ClosedCohort(run))
            && (StreamSound(c, k, run.metrics, target) <==> StreamAdmits(run, target))
  {
    hide Counts.At, Ratio;
    SevenNames();
    NamedIsAt(run.metrics);
  }

  lemma NamedIsAt(m: Metrics)
    ensures forall name :: NamedCount(m, name) == Counts.At(m.named, name)
  {
  }

  lemma SevenCounts(m: Metrics)
    ensures Schedule.Sum(NamedCounts(m))
         == Counts.At(m.named, "success") + Counts.At(m.named, "expected_rejection")
            + Counts.At(m.named, "local_no_request") + Counts.At(m.named, "unexpected")
            + Counts.At(m.named, "prepare_failed") + Counts.At(m.named, "prepare_local_failed")
            + Counts.At(m.named, "prepare_sut_failed")
  {
    hide Counts.At;
    var s := NamedCounts(m);
    NamedIsAt(m);
    assert s[..7] == s && s[..0] == [];
    Schedule.SumNext(s, 0);
    Schedule.SumNext(s, 1);
    Schedule.SumNext(s, 2);
    Schedule.SumNext(s, 3);
    Schedule.SumNext(s, 4);
    Schedule.SumNext(s, 5);
    Schedule.SumNext(s, 6);
  }

  lemma CountersAdmitIff(run: Run, target: int)
    requires Contracted(run) && !HasStream(run)
    ensures CountersAdmit(run, target) <==>
      && run.contract.value.windowSeconds.value != 0.0
      && Schedule.Balanced(CountersOf(run.metrics), PlanOf(run.contract.value, target, run.timeUnit))
  {
    hide Schedule.ScheduledArrivals, Schedule.Sum, NamedCounts, Counts.At, Ceil;
    SevenCounts(run.metrics);
    var p := PlanOf(run.contract.value, target, run.timeUnit);
    if p.Interpretable() {
      assert Schedule.Allowance(p) == Max(2, Ceil(target as real / run.timeUnit.value));
    }
  }

  /** What the gate was handed stands for what the run's figures say. */
  ghost predicate GateMeans(run: Run, target: int, g: Gate) {
    && (Unprepared(g) <==> run.capRun && !(Counts.At(run.metrics.named, "prepare_failed") == 0
                                           && Counts.At(run.metrics.named, "prepare_local_failed") == 0))
    && (g.dropFraction <= 0.001 <==> DropsWithin(run, target))
    && (g.unexpected == 0 && g.prepareSut == 0 <==> Blameless(run))
    && (g.rate.Some? && g.rate.value >= target as real * 0.995 <==> RateMet(run, target))
    && (g.latencyOk <==> Prompt(run))
  }

  lemma WholeGateMeans(run: Run, target: int)
    requires !run.capRun
    ensures GateMeans(run, target, WholeGate(run))
  {
    hide Ratio;
    var w := run.whole;
    if w.completed + w.dropped > 0 {
      RatioScales(w.dropped as real, (w.completed + w.dropped) as real, 0.001);
    }
  }

  lemma StreamGateMeans(run: Run, target: int)
    requires HasStream(run) && StreamAdmits(run, target)
    ensures GateMeans(run, target,
              StreamGate(run.artifacts.window.cohort.value, run.contract.value.windowSeconds.value, run))
  {
    hide Ratio, Counts.At;
    var c := run.artifacts.window.cohort.value;
    RatioScales(c.dropped as real, c.scheduledObserved as real, 0.001);
  }

  lemma CounterGateMeans(run: Run, target: int, scheduled: nat)
    requires CountersAdmit(run, target)
    requires Some(scheduled) == Schedule.ScheduledArrivals(PlanOf(run.contract.value, target, run.timeUnit))
    ensures scheduled > 0
    ensures GateMeans(run, target,
              CounterGate(run.metrics, Abs(run.metrics.beginMeasure.value - scheduled), scheduled,
                          run.contract.value.windowSeconds.value, run))
  {
    hide Ratio, Counts.At, Round6, Schedule.ScheduledArrivals, Abs;
    NamedIsAt(run.metrics);
    CounterDropsIff(run.metrics, Abs(run.metrics.beginMeasure.value - scheduled), scheduled,
                    run.contract.value.windowSeconds.value, run);
  }

  /** The gate is given exactly for runs that are admitted with few late users, and stands for them. */
  lemma GateReadsMeans(run: Run, target: int, requireStream: bool, g: Gate)
    requires GateReads(run, target, requireStream, g)
    ensures GateMeans(run, target, g)
    ensures Judged(run, target, requireStream) <==> !Unprepared(g)
  {
    hide GateMeans, StreamGate, CounterGate, WholeGate, Schedule.Balanced, CohortClosed, StreamSound, Schedule.ScheduledArrivals;
    if !run.capRun {
      WholeGateMeans(run, target);
      MeantPreparation(run, target, g);
    } else {
      assert Contracted(run);
      if HasStream(run) {
        StreamAdmitsIff(run, target);
        StreamGateMeans(run, target);
      } else {
        CountersAdmitIff(run, target);
        CounterGateMeans(run, target, Schedule.ScheduledArrivals(PlanOf(run.contract.value, target, run.timeUnit)).value);
      }
      MeantPreparation(run, target, g);
    }
  }

  lemma MeantPreparation(run: Run, target: int, g: Gate)
    requires GateMeans(run, target, g)
    ensures Unprepared(g) <==> run.capRun && !(Counts.At(run.metrics.named, "prepare_failed") == 0
                                               && Counts.At(run.metrics.named, "prepare_local_failed") == 0)
  {
  }

  lemma DecideTable(run: Run, target: int, requireStream: bool, g: Gate)
    requires GateReads(run, target, requireStream, g)
    ensures var v := Decide(g, target, run.generatorFault);
            && (v == Pass <==> Passes(run, target, requireStream))
            && (v == GeneratorInvalid <==> GeneratorBlamed(run, target, requireStream))
            && (v == Fail <==> Fails(run, target, requireStream))
            && v in {Pass, Fail, GeneratorInvalid, Invalid}
  {
    hide GateReads, Judged, DropsWithin, Blameless, RateMet, Prompt, Unprepared;
    GateReadsMeans(run, target, requireStream, g);
  }

  /** A run that may be judged is one the gate is given for. */
  lemma JudgedHasGate(run: Run, target: int, requireStream: bool)
    requires Judged(run, target, requireStream)
    ensures exists g :: GateReads(run, target, requireStream, g)
  {
    hide StreamGate, CounterGate, WholeGate, Schedule.Balanced, CohortClosed, StreamSound, Schedule.ScheduledArrivals;
    if !run.capRun {
      assert GateReads(run, target, requireStream, WholeGate(run));
    } else if HasStream(run) {
      StreamAdmitsIff(run, target);
      var g := StreamGate(run.artifacts.window.cohort.value, run.contract.value.windowSeconds.value, run);
      assert GateReads(run, target, requireStream, g);
    } else {
      CountersAdmitIff(run, target);
      var scheduled := Schedule.ScheduledArrivals(PlanOf(run.contract.value, target, run.timeUnit)).value;
      var g := CounterGate(run.metrics, Abs(run.metrics.beginMeasure.value - scheduled), scheduled,
                           run.contract.value.windowSeconds.value, run);
      assert GateReads(run, target, requireStream, g);
    }
  }

  lemma StopTable(run: Run, target: int, requireStream: bool)
    ensures TooLate(run, target, requireStream) <==> LoadedLate(run, target, requireStream)
    ensures Undefined(run, target, requireStream) <==> DividesByZero(run, target, requireStream)
  {
    hide Schedule.Balanced, CohortClosed, StreamSound, Schedule.ScheduledArrivals, StreamAdmits, CountersAdmit, ClosedCohort;
    if Contracted(run) {
      if HasStream(run) {
        if CleanStream(run) {
          StreamAdmitsIff(run, target);
        }
      } else {
        CountersAdmitIff(run, target);
      }
    }
    AdmittedParts(run, target);
  }

  lemma AdmittedParts(run: Run, target: int)
    ensures StreamAdmits(run, target) ==> Contracted(run) && CleanStream(run)
    ensures CountersAdmit(run, target) ==> Contracted(run) && !HasStream(run) && run.metrics.beginMeasure.Some?
  {
  }

  /** The gate population of a run, where its evidence allows one. */
  method ReadGate(run: Run, target: int, requireStream: bool) returns (step: Result<Step>)
    ensures step.Ok? && step.value.Go? ==> GateReads(run, target, requireStream, step.value.gate)
    ensures forall g :: GateReads(run, target, requireStream, g) ==> step == Ok(Go(g))
    ensures step.Ok? && step.value.Stop? ==> step.value.verdict in {Invalid, LoadModelInvalid}
    ensures step == Ok(Stop(LoadModelInvalid)) <==> TooLate(run, target, requireStream)
    ensures step.Err? <==> Undefined(run, target, requireStream)
    ensures run.capRun && requireStream && step != Ok(Stop(Invalid)) ==> ArtifactsSound(run.artifacts)
  {
    hide StreamGate, CounterGate, StreamSound, LateStarts, Schedule.Balanced, WholeGate, CohortClosed;
    if !run.capRun {
      return Ok(Go(WholeGate(run)));
    }
    var problems := ContractValidity(run.contract);
    if problems != [] {
      return Ok(Stop(Invalid));
    }
    var k := run.contract.value;
    var e := ReadStreamEvidence(run.artifacts);
    if e.complete {
      if !e.valid {
        return Ok(Stop(Invalid));
      }
      step := EvaluateStream(run, k, e.cohort.value, target);
    } else if requireStream {
      return Ok(Stop(Invalid));
    } else {
      step := EvaluateCounters(run, k, target);
    }
    BalancedCounts(run, k, target);
  }

  /** Every verdict is given exactly when the run's own figures call for it, and a verdict on the
      system under test only on sound evidence; whatever is left is invalid. */
  method Evaluate(summary: Option<Run>, target: int, requireStream: bool) returns (r: Result<Verdict>)
    ensures r == Ok(Pass) <==>
      summary.Some? && Untainted(summary.value) && Passes(summary.value, target, requireStream)
    ensures r == Ok(Fail) <==>
      summary.Some? && Untainted(summary.value) && Fails(summary.value, target, requireStream)
    ensures r == Ok(GeneratorInvalid) <==>
      summary.Some? && Untainted(summary.value) && GeneratorBlamed(summary.value, target, requireStream)
    ensures r == Ok(LoadModelInvalid) <==>
      summary.Some? && Untainted(summary.value) && LoadedLate(summary.value, target, requireStream)
    ensures r.Err? <==>
      summary.Some? && Untainted(summary.value) && DividesByZero(summary.value, target, requireStream)
    ensures summary.Some? && Untainted(summary.value) ==>
      forall g :: GateReads(summary.value, target, requireStream, g) ==>
        r == Ok(Decide(g, target, summary.value.generatorFault))
    ensures summary.Some? && summary.value.capRun && requireStream && r != Ok(Invalid) ==>
      ArtifactsSound(summary.value.artifacts)
  {
    hide GateReads, TooLate, Undefined, Passes, Fails, GeneratorBlamed, LoadedLate, DividesByZero, Decide, ArtifactsSound;
    if summary.None? {
      return Ok(Invalid);
    }
    var run := summary.value;
    if !SummaryEvidenceOk(run) {
      return Ok(Invalid);
    }
    var step := ReadGate(run, target, requireStream);
    StopTable(run, target, requireStream);
    if step.Err? || step.value.Stop? {
      NoGateNoVerdict(run, target, requireStream);
    }
    if step.Err? {
      return Err;
    }
    match step.value
    case Stop(v) => return Ok(v);
    case Go(g) =>
      DecideTable(run, target, requireStream, g);
      return Ok(Decide(g, target, run.generatorFault));
  }

  lemma NoGateNoVerdict(run: Run, target: int, requireStream: bool)
    requires forall g :: !GateReads(run, target, requireStream, g)
    ensures !Passes(run, target, requireStream)
    ensures !Fails(run, target, requireStream)
    ensures !GeneratorBlamed(run, target, requireStream)
  {
    hide GateReads, Judged, DropsWithin, Blameless, RateMet, Prompt;
    if Judged(run, target, requireStream) {
      JudgedHasGate(run, target, requireStream);
    }
  }

  lemma BalancedCounts(run: Run, k: Contract, target: int)
    ensures Schedule.Balanced(CountersOf(run.metrics), PlanOf(k, target, run.timeUnit)) ==> run.metrics.beginMeasure.Some?
  {
  }

  // ---------- What a pass means ----------

  lemma RatioScales(x: real, w: real, y: real)
    requires w > 0.0
    ensures Ratio(x, w) >= y <==> x >= y * w
    ensures Ratio(x, w) <= y <==> x <= y * w
  {
    var q := Ratio(x, w);
    assert q * w == x;
    Schedule.Ordered(q, y, w);
    Schedule.Ordered(y, q, w);
  }

  lemma PositiveRatio(x: real, w: real)
    requires w != 0.0 && x >= 0.0 && Ratio(x, w) > 0.0
    ensures w > 0.0
  {
  }

  /** A schedule on target bounds the scheduled arrivals from both sides. */
  lemma OnTargetBounds(scheduled: int, seconds: real, target: int)
    requires scheduled > 0 && target > 0 && seconds != 0.0 && OnTarget(scheduled, seconds, target)
    ensures seconds > 0.0
    ensures 0.995 * (target as real * seconds) <= scheduled as real <= 1.005 * (target as real * seconds)
  {
    var rate := Ratio(scheduled as real, seconds);
    var t := target as real;
    RatioScales(rate, t, 0.995);
    RatioScales(rate, t, 1.005);
    PositiveRatio(scheduled as real, seconds);
    RatioScales(scheduled as real, seconds, 0.995 * t);
    RatioScales(scheduled as real, seconds, 1.005 * t);
    assert 0.995 * t * seconds == 0.995 * (t * seconds);
    assert 1.005 * t * seconds == 1.005 * (t * seconds);
  }

  lemma SuccessRate(success: int, seconds: real, target: int)
    requires seconds > 0.0 && Ratio(success as real, seconds) >= target as real * 0.995
    ensures success as real >= 0.995 * (target as real * seconds)
  {
    RatioScales(success as real, seconds, target as real * 0.995);
    assert target as real * 0.995 * seconds == 0.995 * (target as real * seconds);
  }

  lemma DistinctNames()
    ensures forall i, j :: 0 <= i < j < |OUTCOME_NAMES| ==> OUTCOME_NAMES[i] != OUTCOME_NAMES[j]
  {
    var lengths := [7, 18, 16, 10, 14, 20, 18];
    assert forall i :: 0 <= i < |OUTCOME_NAMES| ==> |OUTCOME_NAMES[i]| == lengths[i];
    assert OUTCOME_NAMES[1][0] == 'e' && OUTCOME_NAMES[6][0] == 'p';
  }

  ghost function SumAt(m: map<string, int>, names: seq<string>): int {
    if names == [] then 0 else SumAt(m, names[..|names| - 1]) + Counts.At(m, names[|names| - 1])
  }

  /** Counters whose keys are all listed add up to the sum over the list. */
  lemma {:induction false} TotalBySum(m: map<string, int>, names: seq<string>)
    requires forall i, j :: 0 <= i < j < |names| ==> names[i] != names[j]
    requires forall name :: name in m ==> name in names
    ensures Counts.Total(m) == SumAt(m, names)
    decreases |names|
  {
    if names == [] {
      assert m == map[];
    } else {
      var last := |names| - 1;
      var name, rest := names[last], m - {names[last]};
      TotalBySum(rest, names[..last]);
      SumAtSkips(m, name, names[..last]);
      if name in m {
        Counts.TotalRemove(m, name);
      } else {
        assert rest == m;
      }
    }
  }

  lemma {:induction false} SumAtSkips(m: map<string, int>, name: string, names: seq<string>)
    requires name !in names
    ensures SumAt(m, names) == SumAt(m - {name}, names)
  {
    if names != [] {
      SumAtSkips(m, name, names[..|names| - 1]);
    }
  }

  lemma {:induction false} SumNamed(outcomes: map<string, int>, m: Metrics, n: nat)
    requires OutcomesAgree(outcomes, m) && n <= |OUTCOME_NAMES|
    ensures SumAt(outcomes, OUTCOME_NAMES[..n]) == Schedule.Sum(NamedCounts(m)[..n])
  {
    if n > 0 {
      SumNamed(outcomes, m, n - 1);
      assert OUTCOME_NAMES[..n][..n - 1] == OUTCOME_NAMES[..n - 1];
      assert NamedCounts(m)[..n][..n - 1] == NamedCounts(m)[..n - 1];
      assert OUTCOME_NAMES[n - 1] in OUTCOME_NAMES;
    }
  }

  lemma CountersAddUp(outcomes: map<string, int>, m: Metrics)
    requires OutcomesAgree(outcomes, m)
    ensures Counts.Total(outcomes) == Schedule.Sum(NamedCounts(m))
  {
    DistinctNames();
    TotalBySum(outcomes, OUTCOME_NAMES);
    SumNamed(outcomes, m, |OUTCOME_NAMES|);
    assert OUTCOME_NAMES[..|OUTCOME_NAMES|] == OUTCOME_NAMES;
    assert NamedCounts(m)[..|OUTCOME_NAMES|] == NamedCounts(m);
  }

  /** What a pass certifies about a cohort: with `offered` the registered load over the window,
      drops stay within 0.1% of the observed schedule, and drops together with iterations that
      did not succeed within 1% of the offered load. */
  ghost predicate Certified(c: CohortReport, offered: real) {
    && c.started == c.completed == c.outcomeSum
    && c.dropped as real <= 0.001 * c.scheduledObserved as real
    && 0.995 * offered <= c.scheduledObserved as real <= 1.005 * offered
    && Counts.At(c.outcomes, "success") as real >= 0.995 * offered
    && Counts.At(c.outcomes, "unexpected") == 0
    && (c.scheduledObserved - Counts.At(c.outcomes, "success")) as real <= 0.01 * offered
  }

  /** The load registered for the run, over its window. */
  function Offered(k: Contract, target: int): real
    requires k.windowSeconds.Some?
  {
    target as real * k.windowSeconds.value
  }

  lemma GateCertifies(run: Run, k: Contract, c: CohortReport, target: int)
    requires target > 0 && ContractOk(Some(k)) && StreamSound(c, k, run.metrics, target)
    requires Acceptable(StreamGate(c, k.windowSeconds.value, run), target)
    ensures k.windowSeconds.value > 0.0
    ensures Certified(c, Offered(k, target))
  {
    hide OutcomesAgree, BoundsAgree, LatencyOk, OnTarget, Ratio;
    var seconds := k.windowSeconds.value;
    OnTargetBounds(c.scheduledObserved, seconds, target);
    SuccessRate(Counts.At(c.outcomes, "success"), seconds, target);
    RatioScales(c.dropped as real, c.scheduledObserved as real, 0.001);
  }

  /** The published figures are those of the stream: the iterations it says began and ended in the
      cohort, outcome by outcome, and the drops inside the window. */
  ghost predicate FaithfulTo(c: CohortReport, rows: seq<StreamSharding.Row>) {
    && c.started == Begun(rows) && c.completed == Ended(rows)
    && (forall outcome :: Counts.At(c.outcomes, outcome) == EndedAs(rows, outcome))
    && c.window.Some? && c.dropped == SumIn(DropsOf(rows), c.window.value, Inside)
    && c.scheduledObserved == c.started + c.dropped
  }

  lemma PublishedFigures(rows: seq<StreamSharding.Row>)
    requires WindowValid(StreamSharding.Run(rows)) && EmitCohort(StreamSharding.Run(rows)).valid
    ensures FaithfulTo(EmitCohort(StreamSharding.Run(rows)), rows)
  {
    ValidCohortIsExact(rows);
  }

  /** What the rows of a stream have to say for a pass: everything that began in the cohort ended;
      drops inside the window are within 0.1% of what was scheduled there, and that within 0.5% of the
      offered load; at least 99.5% of the offered load succeeded, nothing ended unexpectedly, and
      what was lost or did not succeed is at most 1% of it. */
  ghost predicate Served(rows: seq<StreamSharding.Row>, w: StreamSeries.Window, offered: real) {
    var dropped := SumIn(DropsOf(rows), w, Inside);
    var scheduled := Begun(rows) + dropped;
    && Begun(rows) == Ended(rows)
    && dropped as real <= 0.001 * scheduled as real
    && 0.995 * offered <= scheduled as real <= 1.005 * offered
    && EndedAs(rows, "success") as real >= 0.995 * offered && EndedAs(rows, "unexpected") == 0
    && (scheduled - EndedAs(rows, "success")) as real <= 0.01 * offered
  }

  lemma CertifiedIsServed(c: CohortReport, rows: seq<StreamSharding.Row>, offered: real)
    requires Certified(c, offered) && FaithfulTo(c, rows)
    ensures Served(rows, c.window.value, offered)
  {
    hide Begun, Ended, EndedAs, SumIn, DropsOf;
    assert Counts.At(c.outcomes, "success") == EndedAs(rows, "success");
    assert Counts.At(c.outcomes, "unexpected") == EndedAs(rows, "unexpected");
  }

  lemma PassReads(run: Run, target: int, requireStream: bool, g: Gate)
    requires run.capRun && ArtifactsComplete(run.artifacts)
    requires GateReads(run, target, requireStream, g) && Decide(g, target, run.generatorFault) == Pass
    ensures ContractOk(run.contract) && ArtifactsSound(run.artifacts)
    ensures var c := run.artifacts.window.cohort.value;
            && StreamSound(c, run.contract.value, run.metrics, target)
            && Acceptable(StreamGate(c, run.contract.value.windowSeconds.value, run), target)
  {
    hide Acceptable, StreamGate, OutcomesAgree, LateStarts;
  }

  /** Every pass on stream evidence certifies the cohort it read, whose outcomes add up to the
      named counters. */
  lemma PassCertifies(c: CohortReport, run: Run, target: int, requireStream: bool, g: Gate)
    requires target > 0 && run.capRun && ArtifactsComplete(run.artifacts)
    requires GateReads(run, target, requireStream, g) && Decide(g, target, run.generatorFault) == Pass
    requires run.artifacts.window.WindowFile? && run.artifacts.window.cohort == Some(c)
    ensures ContractOk(run.contract) && Certified(c, Offered(run.contract.value, target))
    ensures run.artifacts.window.valid && c.valid
    ensures Counts.Total(c.outcomes) == Schedule.Sum(NamedCounts(run.metrics))
  {
    hide Certified, StreamGate, Acceptable, GateReads, Decide, NamedCounts, OutcomesAgree, CohortClosed, OnTarget;
    PassReads(run, target, requireStream, g);
    GateCertifies(run, run.contract.value, c, target);
    CountersAddUp(c.outcomes, run.metrics);
  }

  /** A pass on the cohort that the analyzer published for a stream is a statement about that stream:
      over a window within a millisecond of the contract's, the rows say what `Served` demands, and
      every named counter is what they say of its outcome. */
  lemma PassMeans(rows: seq<StreamSharding.Row>, c: CohortReport, run: Run, target: int, requireStream: bool, g: Gate)
    requires target > 0 && run.capRun && ArtifactsComplete(run.artifacts)
    requires c == EmitCohort(StreamSharding.Run(rows))
    requires run.artifacts.window == WindowFile(WindowValid(StreamSharding.Run(rows)), Some(c))
    requires GateReads(run, target, requireStream, g) && Decide(g, target, run.generatorFault) == Pass
    ensures ContractOk(run.contract) && BoundsAgree(c, run.contract.value)
    ensures Served(rows, c.window.value, Offered(run.contract.value, target))
    ensures EndedAs(rows, "prepare_failed") == EndedAs(rows, "prepare_local_failed") == EndedAs(rows, "prepare_sut_failed") == 0
    ensures forall name :: name in OUTCOME_NAMES ==> Counts.At(run.metrics.named, name) == EndedAs(rows, name)
    ensures Ended(rows) == Schedule.Sum(NamedCounts(run.metrics))
    ensures if run.coldLogin then !run.thresholdFailed else run.metrics.p95 <= 100.0 && run.metrics.p99 <= 250.0
    ensures Begun(rows) == 0 || Ratio(run.metrics.lateVu as real, Begun(rows) as real) <= 0.001
  {
    hide Passes, Certified, StreamSharding.Run, GateReads, EmitCohort, WindowValid, Decide, NamedCounts, NamedCount,
      SumIn, DropsOf, Begun, Ended, EndedAs, Served;
    PassCertifies(c, run, target, requireStream, g);
    PassReads(run, target, requireStream, g);
    PublishedFigures(rows);
    CertifiedIsServed(c, rows, Offered(run.contract.value, target));
    EmittedSum(rows);
    assert forall name :: name in OUTCOME_NAMES ==> Counts.At(c.outcomes, name) == EndedAs(rows, name);
    NamedIsAt(run.metrics);
    DecideTable(run, target, requireStream, g);
    PassedFigures(run, target, requireStream);
    assert Counts.At(run.metrics.named, "prepare_failed") == EndedAs(rows, "prepare_failed");
    assert Counts.At(run.metrics.named, "prepare_local_failed") == EndedAs(rows, "prepare_local_failed");
    assert Counts.At(run.metrics.named, "prepare_sut_failed") == EndedAs(rows, "prepare_sut_failed");
  }

  lemma PassedFigures(run: Run, target: int, requireStream: bool)
    requires run.capRun && Passes(run, target, requireStream)
    ensures Counts.At(run.metrics.named, "prepare_failed") == Counts.At(run.metrics.named, "prepare_local_failed")
         == Counts.At(run.metrics.named, "prepare_sut_failed") == 0
    ensures if run.coldLogin then !run.thresholdFailed else run.metrics.p95 <= 100.0 && run.metrics.p99 <= 250.0
    ensures HasStream(run) ==> CleanStream(run) && FewLate(run, run.artifacts.window.cohort.value.started)
    ensures {"prepare_failed", "prepare_local_failed", "prepare_sut_failed"} <= set name | name in OUTCOME_NAMES
  {
    hide Counts.At, Ratio, DropsWithin, RateMet, CountersAdmit;
    SevenNames();
  }

  lemma EmittedSum(rows: seq<StreamSharding.Row>)
    ensures Counts.Total(EmitCohort(StreamSharding.Run(rows)).outcomes) == EmitCohort(StreamSharding.Run(rows)).completed
  {
    OutcomesAddUp(rows);
  }

  /** A run without measurement window passes exactly when the load tool's thresholds held, drops are
      within 0.1% of all iterations, 99.5% of the registered load completed over a positive time, no
      error was classified and both latency limits were kept over the whole scenario. */
  lemma WholePassIff(run: Run, target: int, requireStream: bool, g: Gate)
    requires target > 0 && !run.capRun && GateReads(run, target, requireStream, g)
    ensures var w := run.whole;
            Decide(g, target, run.generatorFault) == Pass <==>
              && !run.thresholdFailed && run.metrics.classified == 0
              && w.dropped as real <= 0.001 * (w.completed + w.dropped) as real
              && w.seconds > 0.0 && w.completed as real >= 0.995 * (target as real * w.seconds)
              && w.p95 <= 100.0 && w.p99 <= 250.0
  {
    hide Ratio, GateReads, Decide;
    var w := run.whole;
    DecideTable(run, target, requireStream, g);
    if w.seconds > 0.0 {
      RatioScales(w.completed as real, w.seconds, target as real * 0.995);
      assert target as real * 0.995 * w.seconds == 0.995 * (target as real * w.seconds);
    } else if w.seconds < 0.0 && RateMet(run, target) {
      PositiveRatio(w.completed as real, w.seconds);
    }
  }

  // ---------- Passing on counters ----------

  /** Rounding to six decimals lets half a millionth more through. */
  lemma RoundedWithin(x: real)
    ensures Round6(x) <= 0.001 <==> x <= 0.0010005
  {
    var scaled := x * 1000000.0;
    assert x <= 0.0010005 <==> scaled <= 1000.5;
  }

  /** The rounded value is the nearest millionth, and the even one of two that are equally near. */
  lemma RoundsHalfEven(x: real) returns (n: int)
    ensures Round6(x) * 1000000.0 == n as real
    ensures -0.5 <= x * 1000000.0 - n as real <= 0.5
    ensures x * 1000000.0 - n as real == 0.5 || x * 1000000.0 - n as real == -0.5 ==> n % 2 == 0
  {
    var scaled := x * 1000000.0;
    var low := scaled.Floor;
    var rest := scaled - low as real;
    n := if rest < 0.5 || (rest == 0.5 && low % 2 == 0) then low else low + 1;
    assert n as real / 1000000.0 * 1000000.0 == n as real;
  }

  /** The drop criterion on counters, in terms of the counts: entries and schedule are at most
      0.10005% apart. */
  lemma CounterDropsIff(m: Metrics, distance: int, scheduled: nat, seconds: real, run: Run)
    requires scheduled > 0 && seconds != 0.0
    ensures CounterGate(m, distance, scheduled, seconds, run).dropFraction <= 0.001 <==>
            distance as real <= 0.0010005 * scheduled as real
  {
    hide Round6, Ratio;
    RoundedWithin(Ratio(distance as real, scheduled as real));
    RatioScales(distance as real, scheduled as real, 0.0010005);
  }

  /** Entries and exact schedule of a run judged by its counters. */
  function ScheduleDistance(run: Run, target: int): (nat, nat)
    requires ContractOk(run.contract) && run.metrics.beginMeasure.Some?
    requires PlanOf(run.contract.value, target, run.timeUnit).Interpretable()
  {
    var scheduled := Schedule.ScheduledArrivals(PlanOf(run.contract.value, target, run.timeUnit)).value;
    (Abs(run.metrics.beginMeasure.value - scheduled), scheduled)
  }

  /** All that a pass on counters asks for besides the drops. */
  predicate CountersServe(run: Run, target: int)
    requires ContractOk(run.contract)
  {
    var m, seconds := run.metrics, run.contract.value.windowSeconds.value;
    && Counts.At(m.named, "success") as real >= 0.995 * (target as real * seconds)
    && Counts.At(m.named, "unexpected") == Counts.At(m.named, "prepare_failed")
       == Counts.At(m.named, "prepare_local_failed") == Counts.At(m.named, "prepare_sut_failed") == 0
    && (if run.coldLogin then !run.thresholdFailed else m.p95 <= 100.0 && m.p99 <= 250.0)
  }

  lemma CounterReads(run: Run, target: int, g: Gate)
    requires run.capRun && !ArtifactsComplete(run.artifacts) && GateReads(run, target, false, g)
    ensures ContractOk(run.contract) && run.contract.value.windowSeconds.value != 0.0
    ensures run.metrics.beginMeasure.Some? && run.metrics.beginMeasure == run.metrics.ops
    ensures run.metrics.beginMeasure.value == Schedule.Sum(NamedCounts(run.metrics))
    ensures PlanOf(run.contract.value, target, run.timeUnit).Interpretable()
    ensures ScheduleDistance(run, target).1 > 0
    ensures g == CounterGate(run.metrics, ScheduleDistance(run, target).0, ScheduleDistance(run, target).1,
                             run.contract.value.windowSeconds.value, run)
  {
    hide Schedule.ScheduledArrivals, Schedule.Sum, Schedule.Allowance, NamedCounts, CounterGate, LateStarts, Abs;
  }

  lemma AcceptableOnCounters(run: Run, target: int, distance: nat, scheduled: nat)
    requires target > 0 && scheduled > 0 && ContractOk(run.contract) && run.contract.value.windowSeconds.value > 0.0
    ensures var g := CounterGate(run.metrics, distance, scheduled, run.contract.value.windowSeconds.value, run);
            !Unprepared(g) && Acceptable(g, target) <==>
              CountersServe(run, target) && distance as real <= 0.0010005 * scheduled as real
  {
    hide Round6, NamedCount, Ratio;
    NamedIsAt(run.metrics);
    var seconds := run.contract.value.windowSeconds.value;
    CounterDropsIff(run.metrics, distance, scheduled, seconds, run);
    RatioScales(NamedCount(run.metrics, "success") as real, seconds, target as real * 0.995);
    assert target as real * 0.995 * seconds == 0.995 * (target as real * seconds);
  }

  /** A run judged by its counters passes exactly when its window is positive, they serve the target,
      and entries and schedule are at most 0.10005% apart. So it passes with more than 0.1% between
      them exactly in the narrow band that rounding lets through. */
  lemma CounterPassIff(run: Run, target: int, g: Gate)
    requires target > 0 && run.capRun && !ArtifactsComplete(run.artifacts) && GateReads(run, target, false, g)
    ensures ContractOk(run.contract) && run.metrics.beginMeasure.Some?
    ensures PlanOf(run.contract.value, target, run.timeUnit).Interpretable()
    ensures var (distance, scheduled) := ScheduleDistance(run, target);
            var pass := Decide(g, target, run.generatorFault) == Pass;
            var served := run.contract.value.windowSeconds.value > 0.0 && CountersServe(run, target);
            && (pass <==> served && distance as real <= 0.0010005 * scheduled as real)
            && (pass && distance as real > 0.001 * scheduled as real <==>
                  served && 0.001 * scheduled as real < distance as real <= 0.0010005 * scheduled as real)
  {
    hide GateReads, CountersServe, Unprepared, ScheduleDistance, Round6, NamedCount;
    CounterReads(run, target, g);
    var (distance, scheduled) := ScheduleDistance(run, target);
    if run.contract.value.windowSeconds.value > 0.0 {
      AcceptableOnCounters(run, target, distance, scheduled);
    } else if Acceptable(g, target) {
      PositiveRatio(NamedCount(run.metrics, "success") as real, run.contract.value.windowSeconds.value);
    }
  }

  /** The books behind a pass on counters: every entry was counted once and ended once. */
  lemma CounterPassMeans(run: Run, target: int, g: Gate)
    requires target > 0 && run.capRun && !ArtifactsComplete(run.artifacts)
    requires GateReads(run, target, false, g) && Decide(g, target, run.generatorFault) == Pass
    ensures ContractOk(run.contract) && run.contract.value.windowSeconds.value > 0.0
    ensures run.metrics.beginMeasure == run.metrics.ops == Some(Schedule.Sum(NamedCounts(run.metrics)))
    ensures PlanOf(run.contract.value, target, run.timeUnit).Interpretable()
    ensures var (distance, scheduled) := ScheduleDistance(run, target);
            CountersServe(run, target) && distance as real <= 0.0010005 * scheduled as real
  {
    hide GateReads, CountersServe, ScheduleDistance, Schedule.Sum, NamedCounts, Schedule.ScheduledArrivals, Round6;
    CounterReads(run, target, g);
    CounterPassIff(run, target, g);
  }

  // A run at 1000 arrivals per second over 1999.001 seconds in which 2000 of 1999001 arrivals are missing.

  const BAND_TARGET: int := 1000
  const BAND_STARTED: nat := 1997001
  const BAND_SCHEDULED: nat := 1999001

  function BandRun(): Run {
    Run(None, true,
        Some(Contract(Some(0.0), Some(1999001.0), Some(0.0), Some(1999001.0), true, false, true, Some(1999.0))),
        Artifacts(false, NoWindowFile, NoStatsFile),
        Metrics(map["success" := BAND_STARTED], Some(BAND_STARTED), Some(BAND_STARTED), BAND_STARTED, 0, 10.0, 20.0, 0),
        WholeRun(BAND_STARTED, 2000, 10.0, 20.0, 1999.0), Some(1000.0), false, false, false)
  }

  lemma BandPlan()
    ensures var p := PlanOf(BandRun().contract.value, BAND_TARGET, BandRun().timeUnit);
            p.Interpretable() && Schedule.ScheduledArrivals(p) == Some(BAND_SCHEDULED)
  {
    var p := PlanOf(BandRun().contract.value, BAND_TARGET, BandRun().timeUnit);
    assert p.Period() == 1.0;
    assert Schedule.Quotient(1999001.0, 1.0) == 1999001.0 && Schedule.Quotient(0.0, 1.0) == 0.0;
  }

  lemma BandCounts()
    ensures NamedCount(BandRun().metrics, "success") == BAND_STARTED
    ensures forall name :: name in OUTCOME_NAMES && name != "success" ==> NamedCount(BandRun().metrics, name) == 0
    ensures Schedule.Sum(NamedCounts(BandRun().metrics)) == BAND_STARTED
  {
    var m := BandRun().metrics;
    var outcomes: map<string, int> := map["success" := BAND_STARTED];
    assert OUTCOME_NAMES[0] == "success";
    assert forall name :: name in OUTCOME_NAMES ==> Counts.At(outcomes, name) == NamedCount(m, name);
    CountersAddUp(outcomes, m);
    Counts.TotalRemove(outcomes, "success");
    assert outcomes - {"success"} == map[];
  }

  /** The counter path passes a run that misses more than 0.1% of its schedule. */
  lemma PassAboveOnePerMille()
    ensures exists g :: GateReads(BandRun(), BAND_TARGET, false, g) && Decide(g, BAND_TARGET, false) == Pass
    ensures (BAND_SCHEDULED - BAND_STARTED) as real > 0.001 * BAND_SCHEDULED as real
  {
    hide Schedule.Sum, NamedCounts, NamedCount, Schedule.ScheduledArrivals, Round6;
    var run := BandRun();
    NamedIsAt(run.metrics);
    BandPlan();
    BandCounts();
    BandNames();
    var p := PlanOf(run.contract.value, BAND_TARGET, run.timeUnit);
    assert Schedule.Balanced(CountersOf(run.metrics), p);
    var g := CounterGate(run.metrics, 2000, BAND_SCHEDULED, 1999.0, run);
    assert !LateStarts(run.metrics, BAND_STARTED);
    assert GateReads(run, BAND_TARGET, false, g);
    AcceptableOnCounters(run, BAND_TARGET, 2000, BAND_SCHEDULED);
  }

  lemma BandNames()
    ensures {"unexpected", "prepare_failed", "prepare_local_failed", "prepare_sut_failed"} <= set name | name in OUTCOME_NAMES
    ensures "success" !in {"unexpected", "prepare_failed", "prepare_local_failed", "prepare_sut_failed"}
  {
    assert OUTCOME_NAMES[3] == "unexpected" && OUTCOME_NAMES[4] == "prepare_failed";
    assert OUTCOME_NAMES[5] == "prepare_local_failed" && OUTCOME_NAMES[6] == "prepare_sut_failed";
    assert |"success"| == 7 && |"unexpected"| == 10 && |"prepare_failed"| == 14;
    assert |"prepare_local_failed"| == 20 && |"prepare_sut_failed"| == 18;
  }

  // ---------- What the verdict does not depend on ----------

  /** Nothing but stream evidence and the figures it is checked against. */
  function OnlyStreamEvidence(run: Run): Run {
    run.(metrics := run.metrics.(beginMeasure := None, ops := None, begins := 0, classified := 0),
         whole := WholeRun(0, 0, 0.0, 0.0, 0.0), timeUnit := None)
  }

  /** Where stream evidence is required or complete, the counters of the other paths, the whole-run
      figures and the time unit have no say: without them the gate reads the same. */
  lemma NoFallback(run: Run, target: int, requireStream: bool, g: Gate)
    requires run.capRun && (requireStream || ArtifactsComplete(run.artifacts))
    ensures GateReads(run, target, requireStream, g) <==> GateReads(OnlyStreamEvidence(run), target, requireStream, g)
    ensures TooLate(run, target, requireStream) <==> TooLate(OnlyStreamEvidence(run), target, requireStream)
    ensures Undefined(run, target, requireStream) <==> Undefined(OnlyStreamEvidence(run), target, requireStream)
  {
    hide ContractOk, ArtifactsSound, CohortClosed, OnTarget;
    StreamPartsAgree(run, target);
  }

  lemma StreamPartsAgree(run: Run, target: int)
    ensures var m, m' := run.metrics, OnlyStreamEvidence(run).metrics;
            && (forall c, k :: ContractOk(Some(k)) ==> (StreamSound(c, k, m, target) <==> StreamSound(c, k, m', target)))
            && (forall started :: LateStarts(m, started) <==> LateStarts(m', started))
            && LatencyOk(run) == LatencyOk(OnlyStreamEvidence(run))
  {
    hide CohortClosed, OnTarget, ContractOk;
    var m, m' := run.metrics, OnlyStreamEvidence(run).metrics;
    forall outcomes: map<string, int>
      ensures OutcomesAgree(outcomes, m) <==> OutcomesAgree(outcomes, m')
    {
      assert forall name :: NamedCount(m, name) == NamedCount(m', name);
    }
  }
}
