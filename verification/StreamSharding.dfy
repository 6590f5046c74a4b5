/** The metric-sharded form of the stream analyzer: contract rows go to every worker, all other
    rows to the worker their metric names, and the worker states are merged
    (perf/tools/checkpoint_analyze.py, _stream_shard, _merge_stream_shard,
    _consume_sharded_stream). The merged state is the sequential one. */
module StreamSharding {
  import opened Common
  import opened Histogram
  import opened StreamSeries
  import Counts

  /** One line of the stream. `route` is the metric name that the router reads off a line that
      later fails to decode; a line that is no point leaves the analyzer unchanged. */
  datatype Row = Undecodable(route: Option<string>) | NotAPoint | PointRow(p: Point)

  // ---------------------------------------------------------------------------
  // Sequential analysis

  function AddErrors(s: Series, n: int): Series {
    s.(seen := s.seen.(parseErrors := s.seen.parseErrors + n))
  }

  function OnRow(s: Series, row: Row): Series
    requires ValidBins(s.bins)
  {
    match row
    case Undecodable(_) => AddErrors(s, 1)
    case NotAPoint => s
    case PointRow(p) => OnPoint(s, p)
  }

  function Run(rows: seq<Row>): (s: Series)
    ensures ValidBins(s.bins)
  {
    if rows == [] then EmptySeries()
    else
      var s := Run(rows[..|rows| - 1]);
      OnRowKeepsValid(s, rows[|rows| - 1]);
      OnRow(s, rows[|rows| - 1])
  }

  lemma OnRowKeepsValid(s: Series, row: Row)
    requires ValidBins(s.bins)
    ensures ValidBins(OnRow(s, row).bins)
  {
    if row.PointRow? {
      OnPointKeepsValid(s, row.p);
    }
  }

  // ---------------------------------------------------------------------------
  // Routing and workers

  function RouteOf(row: Row): Option<string> {
    match row
    case Undecodable(route) => route
    case NotAPoint => None
    case PointRow(p) => p.metric
  }

  predicate Broadcast(row: Row) {
    RouteOf(row).Some? && IsContract(RouteOf(row).value)
  }

  /** The one worker that gets a row which is not broadcast. */
  function OwnerOf(row: Row, owner: string -> nat): nat {
    if RouteOf(row).None? then 0 else owner(RouteOf(row).value)
  }

  ghost predicate ValidOwner(owner: string -> nat, workers: nat) {
    workers > 0 && forall m :: owner(m) < workers
  }

  /** A worker keeps separate count of the broadcast points it must not report as its own. */
  datatype Shard = Shard(series: Series, unownedPoints: int, unownedErrors: int)

  function OnShardRow(sh: Shard, row: Row, index: nat, owner: string -> nat): Shard
    requires ValidBins(sh.series.bins)
  {
    var s := sh.series;
    if Broadcast(row) then
      var t := OnRow(s, row);
      if row.PointRow? && index != 0 then
        Shard(t, sh.unownedPoints + t.seen.points - s.seen.points,
              sh.unownedErrors + t.seen.parseErrors - s.seen.parseErrors)
      else sh.(series := t)
    else if OwnerOf(row, owner) == index then sh.(series := OnRow(s, row))
    else sh
  }

  function RunShard(rows: seq<Row>, index: nat, owner: string -> nat): (sh: Shard)
    ensures ValidBins(sh.series.bins)
  {
    if rows == [] then Shard(EmptySeries(), 0, 0)
    else
      var sh := RunShard(rows[..|rows| - 1], index, owner);
      OnRowKeepsValid(sh.series, rows[|rows| - 1]);
      OnShardRow(sh, rows[|rows| - 1], index, owner)
  }

  function Uncount(s: Series, points: int, errors: int): Series {
    s.(seen := s.seen.(points := s.seen.points - points, parseErrors := s.seen.parseErrors - errors))
  }

  /** `t` with the two counters still as they were in `s`. */
  function Unseen(t: Series, s: Series): Series {
    Uncount(t, t.seen.points - s.seen.points, t.seen.parseErrors - s.seen.parseErrors)
  }

  function Report(sh: Shard): Series {
    Uncount(sh.series, sh.unownedPoints, sh.unownedErrors)
  }

  // ---------------------------------------------------------------------------
  // Merging worker states

  function MergeIters(a: Iters, b: Iters): Iters {
    Iters(Counts.Merge(a.begins, b.begins), Counts.Merge(a.beginsPair, b.beginsPair), Counts.Merge(a.ends, b.ends))
  }

  function MergeGauges(a: Gauges, b: Gauges): Gauges {
    Gauges(a.iterations + b.iterations, a.dropped + b.dropped, Max(a.vus, b.vus), Max(a.vusMax, b.vusMax),
           a.httpReqs + b.httpReqs, a.httpReqFailed + b.httpReqFailed,
           a.dataReceived + b.dataReceived, a.dataSent + b.dataSent)
  }

  function MergeLatency(a: Latency, b: Latency): Latency {
    Latency(HistMerge(a.capMeasureMs, b.capMeasureMs), HistMerge(a.capIterMs, b.capIterMs),
            HistMerge(a.httpReqDuration, b.httpReqDuration))
  }

  function MergeBin(a: Bin, b: Bin): Bin {
    Bin(MergeIters(a.iters, b.iters), MergeGauges(a.gauges, b.gauges), MergeLatency(a.latency, b.latency))
  }

  function MergeBins(a: map<int, Bin>, b: map<int, Bin>): map<int, Bin> {
    map sec | sec in a.Keys + b.Keys :: if sec in b then MergeBin(BinAt(a, sec), b[sec]) else a[sec]
  }

  function MergeFields(a: map<string, set<real>>, b: map<string, set<real>>): map<string, set<real>> {
    map k | k in a.Keys + b.Keys :: FieldValues(a, k) + FieldValues(b, k)
  }

  function MergeSeen(a: Seen, b: Seen): Seen {
    Seen(a.points + b.points, a.parseErrors + b.parseErrors,
         if b.firstTs.None? then a.firstTs else Least(a.firstTs, b.firstTs.value),
         if b.lastTs.None? then a.lastTs else Greatest(a.lastTs, b.lastTs.value),
         a.vus + b.vus)
  }

  function MergeCohort(a: Cohort, b: Cohort): Cohort {
    Cohort(a.begins + b.begins, a.ends + b.ends, Counts.Merge(a.outcomes, b.outcomes))
  }

  function MergeContract(a: ContractState, b: ContractState): ContractState {
    ContractState(MergeFields(a.fields, b.fields), if b.window.Some? then b.window else a.window,
                  a.divergent || b.divergent)
  }

  function MergeDrops(a: Drops, b: Drops): Drops {
    Drops(a.pre + b.pre, a.inside + b.inside, a.post + b.post, a.pending + b.pending, a.overflow || b.overflow)
  }

  function MergeSeries(a: Series, b: Series): Series {
    Series(MergeBins(a.bins, b.bins), MergeSeen(a.seen, b.seen), MergeCohort(a.cohort, b.cohort),
           MergeContract(a.contract, b.contract), MergeDrops(a.drops, b.drops))
  }

  /** Workers that resolved different bounds are an error, never a choice. */
  function Merge(total: Series, part: Series): Result<Series> {
    if part.contract.window.Some? && total.contract.window.Some? && total.contract.window != part.contract.window
    then Err
    else Ok(MergeSeries(total, part))
  }

  function MergeReports(rows: seq<Row>, n: nat, owner: string -> nat): Result<Series> {
    if n == 0 then Ok(EmptySeries())
    else
      var total := MergeReports(rows, n - 1, owner);
      if total.Err? then Err else Merge(total.value, Report(RunShard(rows, n - 1, owner)))
  }

  /** `_maybe_resolve_window` on a whole state. */
  function ResolveSeries(s: Series): Series {
    s.(contract := Resolve(s.contract), drops := Flush(s.drops, s.contract.window, Resolve(s.contract).window))
  }

  /** The whole sharded analysis, including the final attempt to resolve the window. */
  function RunSharded(rows: seq<Row>, workers: nat, owner: string -> nat): Result<Series> {
    var total := MergeReports(rows, workers, owner);
    if total.Err? then Err else Ok(ResolveSeries(total.value))
  }

  /** Rows that fail to decode although the router took them for contract rows. */
  function BrokenBroadcasts(rows: seq<Row>): nat {
    if rows == [] then 0
    else
      BrokenBroadcasts(rows[..|rows| - 1]) +
      (if rows[|rows| - 1].Undecodable? && Broadcast(rows[|rows| - 1]) then 1 else 0)
  }

  // ---------------------------------------------------------------------------
  // What a contiguous group of workers [lo, hi) reports together

  function OnPartRow(s: Series, row: Row, lo: nat, hi: nat, owner: string -> nat): Series
    requires ValidBins(s.bins) && lo < hi
  {
    if Broadcast(row) then
      match row
      case Undecodable(_) => AddErrors(s, hi - lo)
      case NotAPoint => s
      case PointRow(p) =>
        var t := OnPoint(s, p);
        if lo == 0 then t else Unseen(t, s)
    else if lo <= OwnerOf(row, owner) < hi then OnRow(s, row)
    else s
  }

  function RunPart(rows: seq<Row>, lo: nat, hi: nat, owner: string -> nat): (s: Series)
    requires lo < hi
    ensures ValidBins(s.bins)
  {
    if rows == [] then EmptySeries()
    else
      var s := RunPart(rows[..|rows| - 1], lo, hi, owner);
      OnRowKeepsValid(s, rows[|rows| - 1]);
      OnPartRow(s, rows[|rows| - 1], lo, hi, owner)
  }

  // ---------------------------------------------------------------------------
  // A worker's report is its part of the stream

  /** No step reads the two counters that a worker corrects at the end. */
  lemma OnRowUncount(s: Series, row: Row, points: int, errors: int)
    requires ValidBins(s.bins)
    ensures OnRow(Uncount(s, points, errors), row) == Uncount(OnRow(s, row), points, errors)
  {
    if row.PointRow? && Complete(row.p) {
      OnKindUncount(s, KindOf(row.p.metric.value), row.p, points, errors);
    }
  }

  lemma OnKindUncount(s: Series, kind: Kind, p: Point, points: int, errors: int)
    requires ValidBins(s.bins) && Complete(p)
    ensures OnKind(Uncount(s, points, errors), kind, p.time.value, p.value.value, p.tags)
         == Uncount(OnKind(s, kind, p.time.value, p.value.value, p.tags), points, errors)
  {
  }

  lemma {:induction false} ReportIsPart(rows: seq<Row>, index: nat, owner: string -> nat)
    ensures Report(RunShard(rows, index, owner)) == RunPart(rows, index, index + 1, owner)
  {
    if rows != [] {
      var prefix, row := rows[..|rows| - 1], rows[|rows| - 1];
      ReportIsPart(prefix, index, owner);
      var sh := RunShard(prefix, index, owner);
      OnRowUncount(sh.series, row, sh.unownedPoints, sh.unownedErrors);
    }
  }

  // ---------------------------------------------------------------------------
  // Merging commutes with each step

  lemma MergeBinEmpty(a: Bin)
    requires ValidBin(a)
    ensures MergeBin(a, EmptyBin()) == a && MergeBin(EmptyBin(), a) == a
  {
    assert forall m: map<string, int> :: Counts.Merge(m, map[]) == m && Counts.Merge(map[], m) == m;
  }

  lemma MergeGaugesTally(a: Gauges, b: Gauges, kind: Kind, n: int)
    ensures MergeGauges(a, TallyGauges(b, kind, n)) == TallyGauges(MergeGauges(a, b), kind, n)
    ensures MergeGauges(TallyGauges(a, kind, n), b) == TallyGauges(MergeGauges(a, b), kind, n)
    ensures MergeGauges(a, b).vus == Max(a.vus, b.vus) && MergeGauges(a, b).vusMax == Max(a.vusMax, b.vusMax)
  {
  }

  lemma MergeItersTally(a: Iters, b: Iters, kind: Kind, tags: Tags)
    ensures MergeIters(a, TallyIters(b, kind, tags)) == TallyIters(MergeIters(a, b), kind, tags)
    ensures MergeIters(TallyIters(a, kind, tags), b) == TallyIters(MergeIters(a, b), kind, tags)
  {
    hide Counts.Merge, Counts.Add;
    var cohort, lw := NameOf(tags.cohort), NameOf(tags.lw);
    var pair := cohort + "|" + lw;
    var triple := cohort + "|" + lw + "|" + NameOf(tags.outcome);
    Counts.MergeAddRight(a.begins, b.begins, cohort, 1);
    Counts.MergeAddLeft(a.begins, b.begins, cohort, 1);
    Counts.MergeAddRight(a.beginsPair, b.beginsPair, pair, 1);
    Counts.MergeAddLeft(a.beginsPair, b.beginsPair, pair, 1);
    Counts.MergeAddRight(a.ends, b.ends, triple, 1);
    Counts.MergeAddLeft(a.ends, b.ends, triple, 1);
  }

  lemma MergeLatencyTally(a: Latency, b: Latency, kind: Kind, v: real)
    requires ValidLatency(a) && ValidLatency(b)
    ensures ValidLatency(MergeLatency(a, b))
    ensures MergeLatency(a, TallyLatency(b, kind, v)) == TallyLatency(MergeLatency(a, b), kind, v)
    ensures MergeLatency(TallyLatency(a, kind, v), b) == TallyLatency(MergeLatency(a, b), kind, v)
  {
    HistMergeAdd(BUCKETS, a.capMeasureMs, b.capMeasureMs, v);
    HistMergeAdd(BUCKETS, a.capIterMs, b.capIterMs, v);
    HistMergeAdd(BUCKETS, a.httpReqDuration, b.httpReqDuration, v);
  }

  lemma MergeBinTally(a: Bin, b: Bin, kind: Kind, v: real, tags: Tags)
    requires ValidBin(a) && ValidBin(b)
    ensures ValidBin(MergeBin(a, b))
    ensures MergeBin(a, Tally(b, kind, v, tags)) == Tally(MergeBin(a, b), kind, v, tags)
    ensures MergeBin(Tally(a, kind, v, tags), b) == Tally(MergeBin(a, b), kind, v, tags)
  {
    hide TallyIters, TallyGauges, TallyLatency, MergeIters, MergeGauges, MergeLatency, Valid;
    MergeItersTally(a.iters, b.iters, kind, tags);
    MergeGaugesTally(a.gauges, b.gauges, kind, Trunc(v));
    MergeLatencyTally(a.latency, b.latency, kind, v);
  }

  lemma BinAtValid(bins: map<int, Bin>, sec: int)
    requires ValidBins(bins)
    ensures ValidBin(BinAt(bins, sec))
  {
  }

  lemma MergeBinsValid(a: map<int, Bin>, b: map<int, Bin>)
    requires ValidBins(a) && ValidBins(b)
    ensures ValidBins(MergeBins(a, b))
    ensures forall sec :: BinAt(MergeBins(a, b), sec) == MergeBin(BinAt(a, sec), BinAt(b, sec))
  {
    hide MergeBin, ValidBin, EmptyBin;
    forall sec
      ensures BinAt(MergeBins(a, b), sec) == MergeBin(BinAt(a, sec), BinAt(b, sec))
      ensures ValidBin(BinAt(MergeBins(a, b), sec))
    {
      BinAtValid(a, sec);
      BinAtValid(b, sec);
      MergeBinEmpty(BinAt(a, sec));
      MergeBinEmpty(BinAt(b, sec));
      MergeBinTally(BinAt(a, sec), BinAt(b, sec), Unlisted, 0.0, Tags(None, None, None, None));
    }
  }

  lemma MergeBinsTally(a: map<int, Bin>, b: map<int, Bin>, kind: Kind, ts: real, v: real, tags: Tags)
    requires ValidBins(a) && ValidBins(b) && !kind.Contract?
    ensures ValidBins(MergeBins(a, b))
    ensures MergeBins(a, TallyBins(b, kind, ts, v, tags)) == TallyBins(MergeBins(a, b), kind, ts, v, tags)
    ensures MergeBins(TallyBins(a, kind, ts, v, tags), b) == TallyBins(MergeBins(a, b), kind, ts, v, tags)
  {
    hide MergeBin, ValidBin, EmptyBin, Tally;
    var sec := Trunc(ts);
    BinAtValid(a, sec);
    BinAtValid(b, sec);
    MergeBinsValid(a, b);
    TallyBinsKeepsValid(a, kind, ts, v, tags);
    TallyBinsKeepsValid(b, kind, ts, v, tags);
    MergeBinsValid(TallyBins(a, kind, ts, v, tags), b);
    MergeBinsValid(a, TallyBins(b, kind, ts, v, tags));
    MergeBinTally(BinAt(a, sec), BinAt(b, sec), kind, v, tags);
  }

  // Samples: only one side of a merge takes the step.

  lemma MergeSeenObserve(a: Seen, b: Seen, ts: real, tags: Tags)
    ensures MergeSeen(Observe(a, ts, tags), b) == Observe(MergeSeen(a, b), ts, tags)
    ensures MergeSeen(a, Observe(b, ts, tags)) == Observe(MergeSeen(a, b), ts, tags)
    ensures MergeSeen(Observe(a, ts, tags), Observe(b, ts, tags).(points := b.points, parseErrors := b.parseErrors))
         == Observe(MergeSeen(a, b), ts, tags)
  {
  }

  lemma MergeCohortCount(a: Cohort, b: Cohort, kind: Kind, n: int, tags: Tags)
    ensures MergeCohort(CountCohort(a, kind, n, tags), b) == CountCohort(MergeCohort(a, b), kind, n, tags)
    ensures MergeCohort(a, CountCohort(b, kind, n, tags)) == CountCohort(MergeCohort(a, b), kind, n, tags)
  {
    hide Counts.Merge, Counts.Add;
    Counts.MergeAddLeft(a.outcomes, b.outcomes, NameOf(tags.outcome), n);
    Counts.MergeAddRight(a.outcomes, b.outcomes, NameOf(tags.outcome), n);
  }

  lemma MergeDropsLeft(a: Drops, b: Drops, w: Option<Window>, d: Drop)
    requires w.Some? || b.pending == []
    ensures MergeDrops(AddDrop(a, w, d), b) == AddDrop(MergeDrops(a, b), w, d)
  {
  }

  lemma MergeDropsRight(a: Drops, b: Drops, w: Option<Window>, d: Drop)
    requires w.Some? || a.pending == []
    ensures MergeDrops(a, AddDrop(b, w, d)) == AddDrop(MergeDrops(a, b), w, d)
  {
  }

  lemma MergeContractSame(c: ContractState)
    ensures MergeContract(c, c) == c
  {
    assert forall k :: FieldValues(c.fields, k) + FieldValues(c.fields, k) == FieldValues(c.fields, k);
    assert MergeFields(c.fields, c.fields) == c.fields;
  }

  lemma MergeSampleLeft(a: Series, b: Series, kind: Kind, ts: real, v: real, tags: Tags)
    requires ValidBins(a.bins) && ValidBins(b.bins) && a.contract == b.contract && !kind.Contract?
    requires kind.Dropped? ==> b.drops.pending == []
    ensures ValidBins(MergeBins(a.bins, b.bins))
    ensures MergeSeries(OnKind(a, kind, ts, v, tags), b) == OnKind(MergeSeries(a, b), kind, ts, v, tags)
  {
    hide MergeBins, TallyBins, MergeSeen, Observe, MergeCohort, CountCohort, AddDrop, MergeDrops, MergeContract;
    MergeBinsTally(a.bins, b.bins, kind, ts, v, tags);
    MergeSeenObserve(a.seen, b.seen, ts, tags);
    MergeCohortCount(a.cohort, b.cohort, kind, Trunc(v), tags);
    if kind.Dropped? {
      MergeDropsLeft(a.drops, b.drops, a.contract.window, Drop(ts, Trunc(v)));
    }
    MergeContractSame(a.contract);
  }

  lemma MergeSampleRight(a: Series, b: Series, kind: Kind, ts: real, v: real, tags: Tags)
    requires ValidBins(a.bins) && ValidBins(b.bins) && a.contract == b.contract && !kind.Contract?
    requires kind.Dropped? ==> a.drops.pending == []
    ensures ValidBins(MergeBins(a.bins, b.bins))
    ensures MergeSeries(a, OnKind(b, kind, ts, v, tags)) == OnKind(MergeSeries(a, b), kind, ts, v, tags)
  {
    hide MergeBins, TallyBins, MergeSeen, Observe, MergeCohort, CountCohort, AddDrop, MergeDrops, MergeContract;
    MergeBinsTally(a.bins, b.bins, kind, ts, v, tags);
    MergeSeenObserve(a.seen, b.seen, ts, tags);
    MergeCohortCount(a.cohort, b.cohort, kind, Trunc(v), tags);
    if kind.Dropped? {
      MergeDropsRight(a.drops, b.drops, a.contract.window, Drop(ts, Trunc(v)));
    }
    MergeContractSame(a.contract);
  }

  // Contract points: both sides take the step, one of them without counting it.

  lemma {:induction false} MergeClassifyAll(a: Drops, b: Drops, w: Window, p: seq<Drop>, q: seq<Drop>)
    ensures MergeDrops(ClassifyAll(a, w, p), ClassifyAll(b, w, q)) == ClassifyAll(MergeDrops(a, b), w, p + q)
    decreases |p| + |q|
  {
    if q != [] {
      MergeClassifyAll(a, b, w, p, q[..|q| - 1]);
      assert (p + q)[..|p + q| - 1] == p + q[..|q| - 1];
    } else if p != [] {
      MergeClassifyAll(a, b, w, p[..|p| - 1], q);
      assert (p + q)[..|p + q| - 1] == p[..|p| - 1] + q;
    }
  }

  lemma MergeFlush(a: Drops, b: Drops, before: Option<Window>, after: Option<Window>)
    ensures MergeDrops(Flush(a, before, after), Flush(b, before, after)) == Flush(MergeDrops(a, b), before, after)
  {
    if before.None? && after.Some? {
      MergeClassifyAll(a, b, after.value, a.pending, b.pending);
    }
  }

  lemma MergeContractStep(a: Series, b: Series, kind: Kind, ts: real, v: real, tags: Tags)
    requires ValidBins(a.bins) && ValidBins(b.bins) && a.contract == b.contract && kind.Contract?
    ensures ValidBins(MergeBins(a.bins, b.bins))
    ensures MergeSeries(OnKind(a, kind, ts, v, tags), Unseen(OnKind(b, kind, ts, v, tags), b))
         == OnKind(MergeSeries(a, b), kind, ts, v, tags)
  {
    hide MergeBins, MergeSeen, MergeCohort, Flush, MergeDrops, AddContract, MergeContract;
    MergeBinsValid(a.bins, b.bins);
    MergeSeenObserve(a.seen, b.seen, ts, tags);
    MergeContractSame(a.contract);
    var after := AddContract(a.contract, kind, v);
    MergeContractSame(after);
    MergeFlush(a.drops, b.drops, a.contract.window, after.window);
  }

  // ---------------------------------------------------------------------------
  // The two analyses agree

  /** Contract rows reach everyone in the same order, so all workers share one contract state. */
  lemma {:induction false} PartContract(rows: seq<Row>, lo: nat, hi: nat, owner: string -> nat)
    requires lo < hi
    ensures RunPart(rows, lo, hi, owner).contract == Run(rows).contract
  {
    if rows != [] {
      PartContract(rows[..|rows| - 1], lo, hi, owner);
    }
  }

  /** Only the group that owns the drop metric ever buffers drops. */
  lemma {:induction false} PartPending(rows: seq<Row>, lo: nat, hi: nat, owner: string -> nat)
    requires lo < hi && !(lo <= owner("dropped_iterations") < hi)
    ensures RunPart(rows, lo, hi, owner).drops.pending == []
  {
    if rows != [] {
      var prefix, row := rows[..|rows| - 1], rows[|rows| - 1];
      PartPending(prefix, lo, hi, owner);
      var s := RunPart(prefix, lo, hi, owner);
      if row.PointRow? && Complete(row.p) {
        var kind := KindOf(row.p.metric.value);
        if !kind.Dropped? {
          StepDropsPending(s.drops, s.contract, kind, row.p.time.value, row.p.value.value);
        }
      }
    }
  }

  lemma StepDropsPending(ds: Drops, c: ContractState, kind: Kind, ts: real, v: real)
    requires !kind.Dropped? && ds.pending == []
    ensures StepDrops(ds, c, kind, ts, v).pending == []
  {
  }

  /** Two neighbouring groups that agree so far still agree, merged, after one more row. */
  lemma JoinRow(a: Series, b: Series, row: Row, n: nat, owner: string -> nat)
    requires n > 0 && ValidBins(a.bins) && ValidBins(b.bins) && a.contract == b.contract
    requires owner("dropped_iterations") < n ==> b.drops.pending == []
    requires owner("dropped_iterations") >= n ==> a.drops.pending == []
    ensures ValidBins(MergeBins(a.bins, b.bins))
    ensures MergeSeries(OnPartRow(a, row, 0, n, owner), OnPartRow(b, row, n, n + 1, owner))
         == OnPartRow(MergeSeries(a, b), row, 0, n + 1, owner)
  {
    hide MergeBins, MergeCohort, MergeContract, MergeDrops, OnKind, KindOf;
    MergeBinsValid(a.bins, b.bins);
    if row.PointRow? && Complete(row.p) {
      var kind, ts, v, tags := KindOf(row.p.metric.value), row.p.time.value, row.p.value.value, row.p.tags;
      if kind.Contract? {
        MergeContractStep(a, b, kind, ts, v, tags);
      } else if OwnerOf(row, owner) < n {
        MergeSampleLeft(a, b, kind, ts, v, tags);
      } else if OwnerOf(row, owner) == n {
        MergeSampleRight(a, b, kind, ts, v, tags);
      }
    }
  }

  lemma {:induction false} JoinParts(rows: seq<Row>, n: nat, owner: string -> nat)
    requires n > 0
    ensures MergeSeries(RunPart(rows, 0, n, owner), RunPart(rows, n, n + 1, owner))
         == RunPart(rows, 0, n + 1, owner)
  {
    if rows != [] {
      var prefix := rows[..|rows| - 1];
      JoinParts(prefix, n, owner);
      PartContract(prefix, 0, n, owner);
      PartContract(prefix, n, n + 1, owner);
      if owner("dropped_iterations") < n {
        PartPending(prefix, n, n + 1, owner);
      } else {
        PartPending(prefix, 0, n, owner);
      }
      JoinRow(RunPart(prefix, 0, n, owner), RunPart(prefix, n, n + 1, owner), rows[|rows| - 1], n, owner);
    }
  }

  lemma MergeEmptyBins(bins: map<int, Bin>)
    requires ValidBins(bins)
    ensures MergeBins(map[], bins) == bins
  {
    hide MergeBin, EmptyBin, ValidBin;
    forall sec | sec in bins
      ensures MergeBin(EmptyBin(), bins[sec]) == bins[sec]
    {
      MergeBinEmpty(bins[sec]);
    }
  }

  lemma MergeEmptyContract(c: ContractState)
    ensures MergeContract(ContractState(map[], None, false), c) == c
  {
    assert forall k :: {} + FieldValues(c.fields, k) == FieldValues(c.fields, k);
    assert MergeFields(map[], c.fields) == c.fields;
  }

  lemma MergeEmpty(s: Series)
    requires ValidBins(s.bins)
    ensures MergeSeries(EmptySeries(), s) == s
  {
    hide MergeBins, MergeContract, ValidBins;
    MergeEmptyBins(s.bins);
    MergeEmptyContract(s.contract);
    assert Counts.Merge(map[], s.cohort.outcomes) == s.cohort.outcomes;
  }

  /** Merging the first n reports yields what those n workers saw together. */
  lemma {:induction false} MergeReportsIsPart(rows: seq<Row>, n: nat, owner: string -> nat)
    requires n > 0
    ensures MergeReports(rows, n, owner) == Ok(RunPart(rows, 0, n, owner))
  {
    ReportIsPart(rows, n - 1, owner);
    if n == 1 {
      MergeEmpty(RunPart(rows, 0, 1, owner));
    } else {
      MergeReportsIsPart(rows, n - 1, owner);
      PartContract(rows, 0, n - 1, owner);
      PartContract(rows, n - 1, n, owner);
      JoinParts(rows, n - 1, owner);
    }
  }

  /** What the workers count too often. */
  function RepeatedErrors(rows: seq<Row>, workers: nat): int {
    (workers - 1) * BrokenBroadcasts(rows)
  }

  lemma RepeatedErrorsStep(rows: seq<Row>, workers: nat)
    requires rows != []
    ensures var row := rows[|rows| - 1];
            RepeatedErrors(rows, workers) == RepeatedErrors(rows[..|rows| - 1], workers) +
                                             (if row.Undecodable? && Broadcast(row) then workers - 1 else 0)
  {
  }

  lemma RepeatedErrorsZero(rows: seq<Row>, workers: nat)
    requires workers > 0
    ensures RepeatedErrors(rows, workers) == 0 <==> workers == 1 || BrokenBroadcasts(rows) == 0
  {
  }

  /** All workers together see the whole stream; only the broadcast rows that nobody can
      decode are seen by each of them. */
  lemma {:induction false} AllPartsIsRun(rows: seq<Row>, workers: nat, owner: string -> nat)
    requires ValidOwner(owner, workers)
    ensures RunPart(rows, 0, workers, owner) == AddErrors(Run(rows), RepeatedErrors(rows, workers))
  {
    hide OnPoint, RepeatedErrors;
    if rows == [] {
      RepeatedErrorsNone(workers);
    } else {
      var prefix, row := rows[..|rows| - 1], rows[|rows| - 1];
      AllPartsIsRun(prefix, workers, owner);
      RepeatedErrorsStep(rows, workers);
      OnRowUncount(Run(prefix), row, 0, -RepeatedErrors(prefix, workers));
    }
  }

  lemma RepeatedErrorsNone(workers: nat)
    ensures RepeatedErrors([], workers) == 0
  {
  }

  /** A resolved, divergent or incomplete contract has nothing left to resolve. */
  lemma {:induction false} RunIsResolved(rows: seq<Row>)
    ensures Resolve(Run(rows).contract) == Run(rows).contract
  {
    if rows != [] {
      RunIsResolved(rows[..|rows| - 1]);
    }
  }

  /** For every stream, worker count and assignment of metrics to workers the sharded analysis
      succeeds and yields the sequential state, except that an undecodable row which the router
      took for a contract row is counted as a parse error once by every worker. */
  lemma ShardedEqualsSequential(rows: seq<Row>, workers: nat, owner: string -> nat)
    requires ValidOwner(owner, workers)
    ensures RunSharded(rows, workers, owner) == Ok(AddErrors(Run(rows), RepeatedErrors(rows, workers)))
  {
    hide RepeatedErrors;
    MergeReportsIsPart(rows, workers, owner);
    AllPartsIsRun(rows, workers, owner);
    RunIsResolved(rows);
  }

  /** The two analyses agree in full exactly when there is one worker or no such row. */
  lemma ShardedAgreesIff(rows: seq<Row>, workers: nat, owner: string -> nat)
    requires ValidOwner(owner, workers)
    ensures RunSharded(rows, workers, owner) == Ok(Run(rows)) <==> workers == 1 || BrokenBroadcasts(rows) == 0
  {
    hide RepeatedErrors, RunSharded;
    ShardedEqualsSequential(rows, workers, owner);
    RepeatedErrorsZero(rows, workers);
    assert AddErrors(Run(rows), RepeatedErrors(rows, workers)).seen.parseErrors
        == Run(rows).seen.parseErrors + RepeatedErrors(rows, workers);
  }

  /** One broken contract row and two workers: the sequential analyzer reports one parse error,
      the sharded one two. */
  lemma BrokenBroadcastCountedTwice(owner: string -> nat)
    requires ValidOwner(owner, 2)
    ensures var rows := [Undecodable(Some(CONTRACT_PREFIX))];
            && Run(rows).seen.parseErrors == 1
            && RunSharded(rows, 2, owner).Ok?
            && RunSharded(rows, 2, owner).value.seen.parseErrors == 2
  {
    var rows := [Undecodable(Some(CONTRACT_PREFIX))];
    ShardedEqualsSequential(rows, 2, owner);
    assert rows[..|rows| - 1] == [];
    assert BrokenBroadcasts(rows) == 1;
  }

  // ---------------------------------------------------------------------------
  // The analyzers as they run

  method Accept(series: StreamingSeries, row: Row)
    requires ValidBins(series.bins)
    modifies series
    ensures series.State() == OnRow(old(series.State()), row) && ValidBins(series.bins)
  {
    match row
    case Undecodable(_) =>
      series.seen := series.seen.(parseErrors := series.seen.parseErrors + 1);
    case NotAPoint =>
    case PointRow(p) =>
      series.AcceptPoint(p);
  }

  method Consume(rows: seq<Row>) returns (series: StreamingSeries)
    ensures fresh(series) && series.State() == Run(rows)
  {
    series := new StreamingSeries();
    for i := 0 to |rows|
      invariant fresh(series) && series.State() == Run(rows[..i])
    {
      assert rows[..i + 1][..i] == rows[..i];
      Accept(series, rows[i]);
    }
    assert rows[..|rows|] == rows;
  }

  method StreamShard(rows: seq<Row>, index: nat, owner: string -> nat) returns (series: StreamingSeries)
    ensures fresh(series) && series.State() == Report(RunShard(rows, index, owner))
  {
    hide OnRow;
    series := new StreamingSeries();
    var unownedPoints, unownedErrors := 0, 0;
    for i := 0 to |rows|
      invariant fresh(series)
      invariant Shard(series.State(), unownedPoints, unownedErrors) == RunShard(rows[..i], index, owner)
    {
      assert rows[..i + 1][..i] == rows[..i];
      var row := rows[i];
      if Broadcast(row) || OwnerOf(row, owner) == index {
        var points, errors := series.seen.points, series.seen.parseErrors;
        Accept(series, row);
        if row.PointRow? && Broadcast(row) && index != 0 {
          unownedPoints := unownedPoints + series.seen.points - points;
          unownedErrors := unownedErrors + series.seen.parseErrors - errors;
        }
      }
    }
    assert rows[..|rows|] == rows;
    series.seen := series.seen.(points := series.seen.points - unownedPoints,
                                parseErrors := series.seen.parseErrors - unownedErrors);
  }

  /** One record of the other worker after another, into the bins of the total. */
  method MergeBinsInto(total: map<int, Bin>, part: map<int, Bin>) returns (bins: map<int, Bin>)
    ensures bins == MergeBins(total, part)
  {
    hide MergeBin, EmptyBin;
    bins := total;
    var todo := part.Keys;
    while todo != {}
      invariant todo <= part.Keys
      invariant bins.Keys == total.Keys + (part.Keys - todo)
      invariant forall sec :: sec in bins && (sec !in part || sec in todo) ==> bins[sec] == total[sec]
      invariant forall sec :: sec in part.Keys - todo ==> bins[sec] == MergeBin(BinAt(total, sec), part[sec])
    {
      ghost var member := SomeMember(todo);
      var sec :| sec in todo;
      bins := bins[sec := MergeBin(BinAt(bins, sec), part[sec])];
      todo := todo - {sec};
    }
    assert forall sec :: sec in bins ==> bins[sec] == MergeBins(total, part)[sec];
  }

  method MergeShard(total: StreamingSeries, part: StreamingSeries) returns (ok: bool)
    requires total != part
    modifies total
    ensures ok == Merge(old(total.State()), part.State()).Ok?
    ensures ok ==> Ok(total.State()) == Merge(old(total.State()), part.State())
  {
    hide MergeBins, MergeSeen, MergeCohort, MergeDrops, MergeFields;
    var before := total.contract.window;
    if part.contract.window.Some? && before.Some? && before != part.contract.window {
      return false;
    }
    total.contract := MergeContract(total.contract, part.contract);
    total.seen := MergeSeen(total.seen, part.seen);
    total.cohort := MergeCohort(total.cohort, part.cohort);
    total.drops := MergeDrops(total.drops, part.drops);
    total.bins := MergeBinsInto(total.bins, part.bins);
    ok := true;
  }

  /** Every worker in turn reports and is merged. Only broken contract rows, counted by each
      worker, separate the result from the sequential analyzer's. */
  method ConsumeSharded(rows: seq<Row>, workers: nat, owner: string -> nat)
    returns (ok: bool, series: StreamingSeries)
    requires ValidOwner(owner, workers)
    ensures fresh(series) && ok
    ensures series.State() == AddErrors(Run(rows), RepeatedErrors(rows, workers))
  {
    hide RepeatedErrors, Merge, Resolve, Flush;
    series := new StreamingSeries();
    ok := true;
    for i := 0 to workers
      invariant fresh(series) && ok
      invariant MergeReports(rows, i, owner) == Ok(series.State())
    {
      var part := StreamShard(rows, i, owner);
      MergeReportsIsPart(rows, i + 1, owner);
      ok := MergeShard(series, part);
    }
    ShardedEqualsSequential(rows, workers, owner);
    series.MaybeResolveWindow();
  }
}
