/** Where the dropped iterations of a stream end up: conservation at every step, stability of
    the resolved window, independence of arrival order, and the cohort that the analyzer
    publishes (perf/tools/checkpoint_analyze.py, _maybe_resolve_window, _classify_drop,
    emit_window). */
module DropAccounting {
  import opened Common
  import opened StreamSeries
  import opened StreamSharding
  import Counts

  /** The row is a point of the named metric and nothing is missing from it. */
  predicate PointOf(row: Row, metric: string) {
    row.PointRow? && row.p.metric == Some(metric) && row.p.time.Some? && row.p.value.Some?
  }

  /** The drop a row reports, if it is a point of the drop metric. */
  function DropOf(row: Row): Option<Drop> {
    if PointOf(row, "dropped_iterations")
    then Some(Drop(row.p.time.value, Trunc(row.p.value.value)))
    else None
  }

  function DropsOf(rows: seq<Row>): seq<Drop> {
    if rows == [] then []
    else
      DropsOf(rows[..|rows| - 1]) +
      (if DropOf(rows[|rows| - 1]).Some? then [DropOf(rows[|rows| - 1]).value] else [])
  }

  function Sum(drops: seq<Drop>): int {
    if drops == [] then 0 else Sum(drops[..|drops| - 1]) + drops[|drops| - 1].n
  }

  datatype Zone = Before | Inside | After

  function ZoneOf(w: Window, ts: real): Zone {
    if ts < w.start then Before else if ts < w.end then Inside else After
  }

  /** Iterations dropped in one zone of the timeline. */
  function SumIn(drops: seq<Drop>, w: Window, z: Zone): int {
    if drops == [] then 0
    else
      SumIn(drops[..|drops| - 1], w, z) +
      (if ZoneOf(w, drops[|drops| - 1].ts) == z then drops[|drops| - 1].n else 0)
  }

  lemma {:induction false} SumAppend(drops: seq<Drop>, d: Drop)
    ensures Sum(drops + [d]) == Sum(drops) + d.n
    ensures forall w, z :: SumIn(drops + [d], w, z) == SumIn(drops, w, z) + (if ZoneOf(w, d.ts) == z then d.n else 0)
  {
    assert (drops + [d])[..|drops|] == drops;
  }

  lemma {:induction false} SumByZone(drops: seq<Drop>, w: Window)
    ensures Sum(drops) == SumIn(drops, w, Before) + SumIn(drops, w, Inside) + SumIn(drops, w, After)
  {
    if drops != [] {
      SumByZone(drops[..|drops| - 1], w);
    }
  }

  lemma {:induction false} ClassifyAllSums(ds: Drops, w: Window, drops: seq<Drop>)
    ensures ClassifyAll(ds, w, drops)
         == ds.(pre := ds.pre + SumIn(drops, w, Before),
                inside := ds.inside + SumIn(drops, w, Inside),
                post := ds.post + SumIn(drops, w, After))
  {
    if drops != [] {
      ClassifyAllSums(ds, w, drops[..|drops| - 1]);
    }
  }

  // ---------------------------------------------------------------------------
  // Every reachable state

  /** While the window is open the buffer holds the first drops of the stream, and it has
      overflowed exactly when there were more than it can hold. */
  ghost predicate Waiting(ds: Drops, drops: seq<Drop>) {
    && ds.pre == ds.inside == ds.post == 0
    && ds.pending == drops[..Min(|drops|, MAX_PENDING_DROPS)]
    && (ds.overflow <==> |drops| > MAX_PENDING_DROPS)
  }

  /** Once the window is known nothing waits, and without overflow each counter is the sum of
      its zone over all drops seen. */
  ghost predicate Classified(ds: Drops, w: Window, drops: seq<Drop>) {
    && ds.pending == []
    && (!ds.overflow ==>
          && ds.pre == SumIn(drops, w, Before)
          && ds.inside == SumIn(drops, w, Inside)
          && ds.post == SumIn(drops, w, After))
  }

  ghost predicate Accounted(s: Series, drops: seq<Drop>) {
    if s.contract.window.None? then Waiting(s.drops, drops)
    else Classified(s.drops, s.contract.window.value, drops)
  }

  lemma AddDropAccounted(ds: Drops, w: Option<Window>, drops: seq<Drop>, d: Drop)
    requires if w.None? then Waiting(ds, drops) else Classified(ds, w.value, drops)
    ensures var after := AddDrop(ds, w, d);
            if w.None? then Waiting(after, drops + [d]) else Classified(after, w.value, drops + [d])
  {
    SumAppend(drops, d);
  }

  lemma FlushAccounted(ds: Drops, w: Window, drops: seq<Drop>)
    requires Waiting(ds, drops)
    ensures Classified(Flush(ds, None, Some(w)), w, drops)
  {
    ClassifyAllSums(ds, w, ds.pending);
    if !ds.overflow {
      assert drops[..|drops|] == drops;
    }
  }

  lemma StepAccounted(s: Series, row: Row, drops: seq<Drop>)
    requires ValidBins(s.bins) && Accounted(s, drops)
    ensures Accounted(OnRow(s, row), drops + (if DropOf(row).Some? then [DropOf(row).value] else []))
  {
    hide AddDrop, Flush, Waiting, Classified, KindOf;
    if row.PointRow? && Complete(row.p) {
      KindByName(row.p.metric.value);
    }
    if DropOf(row).Some? {
      AddDropAccounted(s.drops, s.contract.window, drops, DropOf(row).value);
    } else {
      assert drops + [] == drops;
      if row.PointRow? && Complete(row.p) {
        var after := AddContract(s.contract, KindOf(row.p.metric.value), row.p.value.value).window;
        if s.contract.window.None? && after.Some? {
          FlushAccounted(s.drops, after.value, drops);
        } else {
          FlushIdle(s.drops, s.contract.window, after);
          AddContractKeepsWindow(s.contract, KindOf(row.p.metric.value), row.p.value.value);
        }
      }
    }
  }

  lemma FlushIdle(ds: Drops, before: Option<Window>, after: Option<Window>)
    requires before.Some? || after.None?
    ensures Flush(ds, before, after) == ds
  {
  }

  lemma AddContractKeepsWindow(c: ContractState, kind: Kind, v: real)
    ensures c.window.Some? ==> AddContract(c, kind, v).window == c.window
  {
  }

  lemma {:induction false} RunAccounted(rows: seq<Row>)
    ensures Accounted(Run(rows), DropsOf(rows))
  {
    if rows != [] {
      RunAccounted(rows[..|rows| - 1]);
      StepAccounted(Run(rows[..|rows| - 1]), rows[|rows| - 1], DropsOf(rows[..|rows| - 1]));
    }
  }

  // ---------------------------------------------------------------------------
  // Conservation

  function DroppedPerSecond(bins: map<int, Bin>): map<int, int> {
    map sec | sec in bins :: bins[sec].gauges.dropped
  }

  lemma TallyDropped(bins: map<int, Bin>, kind: Kind, ts: real, v: real, tags: Tags)
    requires ValidBins(bins) && !kind.Contract?
    ensures DroppedPerSecond(TallyBins(bins, kind, ts, v, tags))
         == Counts.Add(DroppedPerSecond(bins), Trunc(ts), if kind.Dropped? then Trunc(v) else 0)
  {
  }

  lemma {:induction false} BinsConserveDrops(rows: seq<Row>)
    ensures Counts.Total(DroppedPerSecond(Run(rows).bins)) == Sum(DropsOf(rows))
  {
    if rows != [] {
      var prefix, row := rows[..|rows| - 1], rows[|rows| - 1];
      BinsConserveDrops(prefix);
      if DropOf(row).Some? {
        SumAppend(DropsOf(prefix), DropOf(row).value);
      } else {
        assert DropsOf(rows) == DropsOf(prefix);
      }
      if row.PointRow? && Complete(row.p) {
        KindByName(row.p.metric.value);
        BinStepConserves(Run(prefix), KindOf(row.p.metric.value), row.p.time.value, row.p.value.value, row.p.tags);
      }
    } else {
      assert DroppedPerSecond(Run(rows).bins) == map[];
    }
  }

  lemma BinStepConserves(s: Series, kind: Kind, ts: real, v: real, tags: Tags)
    requires ValidBins(s.bins)
    ensures Counts.Total(DroppedPerSecond(OnKind(s, kind, ts, v, tags).bins))
         == Counts.Total(DroppedPerSecond(s.bins)) + (if kind.Dropped? then Trunc(v) else 0)
  {
    if !kind.Contract? {
      TallyDropped(s.bins, kind, ts, v, tags);
      Counts.TotalAdd(DroppedPerSecond(s.bins), Trunc(ts), if kind.Dropped? then Trunc(v) else 0);
    }
  }

  /** After every prefix of every stream that did not overflow the buffer, the classified and
      the waiting drops together are all drops of the stream, and so are the per-second bins. */
  lemma DropConservation(rows: seq<Row>)
    requires !Run(rows).drops.overflow
    ensures var ds := Run(rows).drops;
            && ds.pre + ds.inside + ds.post + Sum(ds.pending) == Sum(DropsOf(rows))
            && Counts.Total(DroppedPerSecond(Run(rows).bins)) == Sum(DropsOf(rows))
  {
    RunAccounted(rows);
    BinsConserveDrops(rows);
    var s, drops := Run(rows), DropsOf(rows);
    if s.contract.window.None? {
      assert drops[..|drops|] == drops;
    } else {
      SumByZone(drops, s.contract.window.value);
    }
  }

  // ---------------------------------------------------------------------------
  // Stability and order

  /** Resolved bounds never change, whatever follows. */
  lemma {:induction false} WindowStable(rows: seq<Row>, k: nat)
    requires k <= |rows| && Run(rows[..k]).contract.window.Some?
    ensures Run(rows).contract.window == Run(rows[..k]).contract.window
    ensures Run(rows).drops.pending == []
    decreases |rows|
  {
    RunAccounted(rows);
    if k == |rows| {
      assert rows[..k] == rows;
    } else {
      var prefix := rows[..|rows| - 1];
      assert prefix[..k] == rows[..k];
      WindowStable(prefix, k);
    }
  }

  /** The row carries value `v` of contract field `field`. */
  predicate Announces(row: Row, field: string, v: real) {
    PointOf(row, "cap_window_" + field) && row.p.value.value == v
  }

  /** The contract sets hold what was announced, in whatever order. */
  lemma {:induction false} FieldsAreAnnouncements(rows: seq<Row>, field: string, v: real)
    ensures v in FieldValues(Run(rows).contract.fields, field) <==> exists row :: row in rows && Announces(row, field, v)
  {
    if rows != [] {
      var prefix, row := rows[..|rows| - 1], rows[|rows| - 1];
      FieldsAreAnnouncements(prefix, field, v);
      assert forall r :: r in rows <==> r in prefix || r == row;
      StepAnnounces(Run(prefix), row, field, v);
    }
  }

  lemma StepAnnounces(s: Series, row: Row, field: string, v: real)
    requires ValidBins(s.bins)
    ensures v in FieldValues(OnRow(s, row).contract.fields, field)
       <==> v in FieldValues(s.contract.fields, field) || Announces(row, field, v)
  {
    hide KindOf, AddContract, FieldValues, TallyBins, Observe, CountCohort, StepDrops;
    if row.PointRow? && Complete(row.p) {
      KindByName(row.p.metric.value);
      ContractFieldsStep(s.contract, KindOf(row.p.metric.value), row.p.value.value, field, v);
    }
  }

  lemma ContractFieldsStep(c: ContractState, kind: Kind, x: real, field: string, v: real)
    ensures v in FieldValues(AddContract(c, kind, x).fields, field)
       <==> v in FieldValues(c.fields, field) || (kind == Contract(field) && x == v)
  {
    hide Resolve;
    ResolveKeepsFields(c);
    if kind.Contract? {
      ResolveKeepsFields(c.(fields := c.fields[kind.field := FieldValues(c.fields, kind.field) + {x}]));
    }
  }

  lemma ResolveKeepsFields(c: ContractState)
    ensures Resolve(c).fields == c.fields
  {
    hide FieldValues;
  }

  /** One value each for start and end: the window resolves to exactly those. */
  ghost predicate Agreed(c: ContractState, start: real, end: real) {
    FieldValues(c.fields, "measure_start_ms") == {start} && FieldValues(c.fields, "measure_end_ms") == {end}
  }

  /** Start and end sets only ever grow, so a window that resolved did so on these values. */
  ghost predicate WindowFromFields(c: ContractState) {
    var starts := FieldValues(c.fields, "measure_start_ms");
    var ends := FieldValues(c.fields, "measure_end_ms");
    && (c.window.Some? ==> exists s, e :: s in starts && e in ends && c.window.value == Window(s / 1000.0, e / 1000.0))
    && (c.divergent ==> |starts| > 1 || |ends| > 1)
    && (c.window.None? && !c.divergent ==> starts == {} || ends == {})
  }

  lemma GrowKeepsMany(s: set<real>, t: set<real>)
    requires s <= t && |s| > 1
    ensures |t| > 1
  {
    assert |t - s| + |s| == |t| by {
      assert (t - s) + s == t;
    }
  }

  lemma AddContractFromFields(c: ContractState, kind: Kind, v: real)
    requires WindowFromFields(c)
    ensures WindowFromFields(AddContract(c, kind, v))
  {
    if kind.Contract? {
      var starts, ends := FieldValues(c.fields, "measure_start_ms"), FieldValues(c.fields, "measure_end_ms");
      var d := AddContract(c, kind, v);
      var starts', ends' := FieldValues(d.fields, "measure_start_ms"), FieldValues(d.fields, "measure_end_ms");
      assert starts <= starts' && ends <= ends';
      if |starts| > 1 {
        GrowKeepsMany(starts, starts');
      }
      if |ends| > 1 {
        GrowKeepsMany(ends, ends');
      }
    }
  }

  lemma {:induction false} RunFromFields(rows: seq<Row>)
    ensures WindowFromFields(Run(rows).contract)
  {
    hide WindowFromFields, AddContract, KindOf;
    if rows != [] {
      var prefix, row := rows[..|rows| - 1], rows[|rows| - 1];
      RunFromFields(prefix);
      if row.PointRow? && Complete(row.p) {
        AddContractFromFields(Run(prefix).contract, KindOf(row.p.metric.value), row.p.value.value);
      }
    } else {
      EmptyFromFields();
    }
  }

  lemma EmptyFromFields()
    ensures WindowFromFields(EmptySeries().contract)
  {
  }

  lemma AgreedWindow(rows: seq<Row>, start: real, end: real)
    requires Agreed(Run(rows).contract, start, end)
    ensures Run(rows).contract.window == Some(Window(start / 1000.0, end / 1000.0))
  {
    hide Run, FieldValues;
    RunFromFields(rows);
  }

  function Contribution(row: Row, w: Window, z: Zone): int {
    if DropOf(row).Some? && ZoneOf(w, DropOf(row).value.ts) == z then DropOf(row).value.n else 0
  }

  lemma SumLastRow(rows: seq<Row>, w: Window, z: Zone)
    requires rows != []
    ensures SumIn(DropsOf(rows), w, z)
         == SumIn(DropsOf(rows[..|rows| - 1]), w, z) + Contribution(rows[|rows| - 1], w, z)
  {
    var prefix, row := rows[..|rows| - 1], rows[|rows| - 1];
    if DropOf(row).Some? {
      SumAppend(DropsOf(prefix), DropOf(row).value);
    } else {
      assert DropsOf(rows) == DropsOf(prefix);
    }
  }

  lemma {:induction false} SumWithoutRow(rows: seq<Row>, i: nat, w: Window, z: Zone)
    requires i < |rows|
    ensures SumIn(DropsOf(rows), w, z)
         == SumIn(DropsOf(rows[..i] + rows[i + 1..]), w, z) + Contribution(rows[i], w, z)
  {
    hide DropsOf, SumIn, Contribution;
    var last := |rows| - 1;
    SumLastRow(rows, w, z);
    if i == last {
      assert rows[..i] + rows[i + 1..] == rows[..last];
    } else {
      SumWithoutRow(rows[..last], i, w, z);
      var rest := rows[..i] + rows[i + 1..];
      assert rest[..|rest| - 1] == rows[..last][..i] + rows[..last][i + 1..] && rest[|rest| - 1] == rows[last];
      SumLastRow(rest, w, z);
    }
  }

  lemma {:induction false} SumPermuted(rows: seq<Row>, rows': seq<Row>, w: Window, z: Zone)
    requires multiset(rows) == multiset(rows')
    ensures SumIn(DropsOf(rows), w, z) == SumIn(DropsOf(rows'), w, z)
  {
    if rows == [] {
      assert |multiset(rows')| == 0;
    } else {
      var last := |rows| - 1;
      var i := FindLast(rows, rows');
      SumPermuted(rows[..last], rows'[..i] + rows'[i + 1..], w, z);
      SumLastRow(rows, w, z);
      SumWithoutRow(rows', i, w, z);
    }
  }

  lemma FieldPermuted(rows: seq<Row>, rows': seq<Row>, field: string)
    requires multiset(rows) == multiset(rows')
    ensures FieldValues(Run(rows).contract.fields, field) == FieldValues(Run(rows').contract.fields, field)
  {
    hide Run, FieldValues, Announces;
    assert forall row :: row in rows <==> row in multiset(rows);
    assert forall row :: row in rows' <==> row in multiset(rows');
    forall v: real
      ensures v in FieldValues(Run(rows).contract.fields, field) <==> v in FieldValues(Run(rows').contract.fields, field)
    {
      FieldsAreAnnouncements(rows, field, v);
      FieldsAreAnnouncements(rows', field, v);
    }
  }

  /** Drops before, between and after the contract points are treated alike: any reordering of a
      stream with one agreed window gives the same bounds and the same three counters. */
  lemma ArrivalOrderIrrelevant(rows: seq<Row>, rows': seq<Row>, start: real, end: real)
    requires multiset(rows) == multiset(rows')
    requires Agreed(Run(rows).contract, start, end)
    requires !Run(rows).drops.overflow && !Run(rows').drops.overflow
    ensures Run(rows).contract.window == Run(rows').contract.window == Some(Window(start / 1000.0, end / 1000.0))
    ensures Run(rows).drops == Run(rows').drops
  {
    FieldPermuted(rows, rows', "measure_start_ms");
    FieldPermuted(rows, rows', "measure_end_ms");
    AgreedWindow(rows, start, end);
    AgreedWindow(rows', start, end);
    RunAccounted(rows);
    RunAccounted(rows');
    var w := Window(start / 1000.0, end / 1000.0);
    SumPermuted(rows, rows', w, Before);
    SumPermuted(rows, rows', w, Inside);
    SumPermuted(rows, rows', w, After);
  }

  // ---------------------------------------------------------------------------
  // What the analyzer publishes

  /** The `measurement_cohort` block of window.json. */
  datatype CohortReport = CohortReport(
    window: Option<Window>, started: int, completed: int, dropped: int, scheduledObserved: int,
    outcomes: map<string, int>, outcomeSum: int, dropsPre: int, dropsPost: int,
    pendingUnclassified: nat, overflow: bool, valid: bool)

  ghost function EmitCohort(s: Series): CohortReport {
    var sum := Counts.Total(s.cohort.outcomes);
    CohortReport(
      s.contract.window, s.cohort.begins, s.cohort.ends, s.drops.inside, s.cohort.begins + s.drops.inside,
      s.cohort.outcomes, sum, s.drops.pre, s.drops.post, |s.drops.pending|, s.drops.overflow,
      && s.contract.window.Some? && !s.drops.overflow && s.drops.pending == []
      && s.cohort.begins == s.cohort.ends && sum == s.cohort.ends)
  }

  const BOUNDS_FIELDS: seq<string> := ["scenario_start_ms", "measure_start_ms", "measure_end_ms", "duration_ms"]

  /** `valid` of window.json: every bounds field present, no field with two values, a non-empty
      window, no parse error and a usable clock. */
  ghost predicate WindowValid(s: Series) {
    var fields := s.contract.fields;
    && (forall i :: 0 <= i < |BOUNDS_FIELDS| ==> FieldValues(fields, BOUNDS_FIELDS[i]) != {})
    && (forall f :: f in fields ==> |fields[f]| <= 1)
    && (forall a, b :: a in FieldValues(fields, "measure_start_ms") && b in FieldValues(fields, "measure_end_ms") ==> a < b)
    && s.seen.parseErrors == 0
    && FieldValues(fields, "clock_ok") == {1.0}
  }

  // ---------------------------------------------------------------------------
  // Begun and ended iterations of the stream

  /** The row is a point of the metric, tagged as part of the measurement cohort. */
  predicate MeasuredPoint(row: Row, metric: string) {
    PointOf(row, metric) && row.p.tags.cohort == Some("measure")
  }

  function BegunBy(row: Row): int {
    if MeasuredPoint(row, "cap_iter_begin") then Trunc(row.p.value.value) else 0
  }

  function EndedBy(row: Row): int {
    if MeasuredPoint(row, "cap_iter_end") then Trunc(row.p.value.value) else 0
  }

  /** A point without an outcome counts as "?". */
  function EndedByAs(row: Row, outcome: string): int {
    if MeasuredPoint(row, "cap_iter_end") && row.p.tags.outcome.GetOr("?") == outcome
    then Trunc(row.p.value.value) else 0
  }

  /** Iterations that the stream says began in the measurement cohort. */
  function Begun(rows: seq<Row>): int {
    if rows == [] then 0 else Begun(rows[..|rows| - 1]) + BegunBy(rows[|rows| - 1])
  }

  /** Iterations that the stream says ended there. */
  function Ended(rows: seq<Row>): int {
    if rows == [] then 0 else Ended(rows[..|rows| - 1]) + EndedBy(rows[|rows| - 1])
  }

  /** Those that ended with the given outcome. */
  function EndedAs(rows: seq<Row>, outcome: string): int {
    if rows == [] then 0 else EndedAs(rows[..|rows| - 1], outcome) + EndedByAs(rows[|rows| - 1], outcome)
  }

  lemma CohortStep(c: Cohort, row: Row, outcome: string)
    requires row.PointRow? && Complete(row.p)
    ensures var after := CountCohort(c, KindOf(row.p.metric.value), Trunc(row.p.value.value), row.p.tags);
            && after.begins == c.begins + BegunBy(row) && after.ends == c.ends + EndedBy(row)
            && Counts.At(after.outcomes, outcome) == Counts.At(c.outcomes, outcome) + EndedByAs(row, outcome)
  {
    hide KindOf;
    KindByName(row.p.metric.value);
    assert |"?"| == 1 && |"measure"| == 7;
  }

  /** The cohort kept by the analyzer is what the rows of the stream say, outcome by outcome. */
  lemma {:induction false} CohortIsStream(rows: seq<Row>, outcome: string)
    ensures Run(rows).cohort.begins == Begun(rows)
    ensures Run(rows).cohort.ends == Ended(rows)
    ensures Counts.At(Run(rows).cohort.outcomes, outcome) == EndedAs(rows, outcome)
  {
    if rows != [] {
      var prefix, row := rows[..|rows| - 1], rows[|rows| - 1];
      CohortIsStream(prefix, outcome);
      if row.PointRow? && Complete(row.p) {
        CohortStep(Run(prefix).cohort, row, outcome);
      }
    }
  }

  lemma {:induction false} OutcomesAddUp(rows: seq<Row>)
    ensures Counts.Total(Run(rows).cohort.outcomes) == Run(rows).cohort.ends
  {
    if rows != [] {
      var prefix, row := rows[..|rows| - 1], rows[|rows| - 1];
      OutcomesAddUp(prefix);
      if row.PointRow? && Complete(row.p) {
        CountCohortAddsUp(Run(prefix).cohort, KindOf(row.p.metric.value), Trunc(row.p.value.value), row.p.tags);
      }
    }
  }

  lemma CountCohortAddsUp(c: Cohort, kind: Kind, n: int, tags: Tags)
    requires Counts.Total(c.outcomes) == c.ends
    ensures Counts.Total(CountCohort(c, kind, n, tags).outcomes) == CountCohort(c, kind, n, tags).ends
  {
    Counts.TotalAdd(c.outcomes, NameOf(tags.outcome), n);
  }

  /** A cohort published as valid is exact: its window is the single announced one; its figures are
      the iterations that the stream says began, and ended under each outcome, as many of the one as
      of the other; its drops are precisely the drops whose time lies in [start, end), and no drop of
      the stream is missing from the three zones. */
  lemma ValidCohortIsExact(rows: seq<Row>)
    requires WindowValid(Run(rows)) && EmitCohort(Run(rows)).valid
    ensures var r := EmitCohort(Run(rows));
            && r.window.Some? && r.window.value.start < r.window.value.end
            && (forall row, v :: row in rows && Announces(row, "measure_start_ms", v) ==> r.window.value.start == v / 1000.0)
            && (forall row, v :: row in rows && Announces(row, "measure_end_ms", v) ==> r.window.value.end == v / 1000.0)
            && r.started == Begun(rows) == Ended(rows) == r.completed == r.outcomeSum
            && (forall outcome :: Counts.At(r.outcomes, outcome) == EndedAs(rows, outcome))
            && r.dropped == SumIn(DropsOf(rows), r.window.value, Inside)
            && r.scheduledObserved == Begun(rows) + SumIn(DropsOf(rows), r.window.value, Inside)
            && r.dropsPre == SumIn(DropsOf(rows), r.window.value, Before)
            && r.dropsPost == SumIn(DropsOf(rows), r.window.value, After)
            && r.dropsPre + r.dropped + r.dropsPost == Sum(DropsOf(rows))
  {
    hide Announces;
    RunAccounted(rows);
    RunFromFields(rows);
    DropConservation(rows);
    forall outcome: string
      ensures Counts.At(Run(rows).cohort.outcomes, outcome) == EndedAs(rows, outcome)
    {
      CohortIsStream(rows, outcome);
    }
    CohortIsStream(rows, "");
    var c := Run(rows).contract;
    assert BOUNDS_FIELDS[1] == "measure_start_ms" && BOUNDS_FIELDS[2] == "measure_end_ms";
    SingletonMember(FieldValues(c.fields, "measure_start_ms"));
    SingletonMember(FieldValues(c.fields, "measure_end_ms"));
    forall row, v | row in rows
      ensures Announces(row, "measure_start_ms", v) ==> v in FieldValues(c.fields, "measure_start_ms")
      ensures Announces(row, "measure_end_ms", v) ==> v in FieldValues(c.fields, "measure_end_ms")
    {
      FieldsAreAnnouncements(rows, "measure_start_ms", v);
      FieldsAreAnnouncements(rows, "measure_end_ms", v);
    }
  }
}
