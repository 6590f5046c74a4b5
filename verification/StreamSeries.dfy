/** The k6 point-stream analyzer: per-second bins, the measurement cohort and the drops that
    wait for the window contract (perf/tools/checkpoint_analyze.py, class StreamingSeries).
    `Series` is the analyzer's state as a value, `OnPoint` what one point does to it, and the
    class performs the same step in place. */
module StreamSeries {
  import opened Common
  import opened Histogram
  import Counts

  const MAX_PENDING_DROPS: nat := 100_000
  const CONTRACT_PREFIX: string := "cap_window_"

  /** The tags the analyzer reads. */
  datatype Tags = Tags(vu: Option<string>, cohort: Option<string>, lw: Option<string>, outcome: Option<string>)

  /** A decoded point; an absent field is the source's None. */
  datatype Point = Point(metric: Option<string>, time: Option<real>, value: Option<real>, tags: Tags)

  // ---------------------------------------------------------------------------
  // State

  datatype Iters = Iters(begins: map<string, int>, beginsPair: map<string, int>, ends: map<string, int>)

  datatype Gauges = Gauges(iterations: int, dropped: int, vus: int, vusMax: int,
                           httpReqs: int, httpReqFailed: int, dataReceived: int, dataSent: int)

  datatype Latency = Latency(capMeasureMs: Hist, capIterMs: Hist, httpReqDuration: Hist)

  /** One second of the stream. */
  datatype Bin = Bin(iters: Iters, gauges: Gauges, latency: Latency)

  /** What every well-formed point updates. */
  datatype Seen = Seen(points: int, parseErrors: int, firstTs: Option<real>, lastTs: Option<real>,
                       vus: set<string>)

  datatype Cohort = Cohort(begins: int, ends: int, outcomes: map<string, int>)

  datatype Window = Window(start: real, end: real)

  datatype ContractState = ContractState(fields: map<string, set<real>>, window: Option<Window>, divergent: bool)

  datatype Drop = Drop(ts: real, n: int)

  datatype Drops = Drops(pre: int, inside: int, post: int, pending: seq<Drop>, overflow: bool)

  datatype Series = Series(bins: map<int, Bin>, seen: Seen, cohort: Cohort, contract: ContractState, drops: Drops)

  function EmptyBin(): Bin {
    Bin(Iters(map[], map[], map[]), Gauges(0, 0, 0, 0, 0, 0, 0, 0),
        Latency(NewHist(BUCKETS), NewHist(BUCKETS), NewHist(BUCKETS)))
  }

  function BinAt(bins: map<int, Bin>, sec: int): Bin {
    if sec in bins then bins[sec] else EmptyBin()
  }

  function EmptySeries(): Series {
    Series(map[], Seen(0, 0, None, None, {}), Cohort(0, 0, map[]), ContractState(map[], None, false),
           Drops(0, 0, 0, [], false))
  }

  ghost predicate ValidLatency(l: Latency) {
    Valid(BUCKETS, l.capMeasureMs) && Valid(BUCKETS, l.capIterMs) && Valid(BUCKETS, l.httpReqDuration)
  }

  /** Every bin keeps the analyzer's bucket layout and non-negative gauge maxima. */
  ghost predicate ValidBin(b: Bin) {
    ValidLatency(b.latency) && b.gauges.vus >= 0 && b.gauges.vusMax >= 0
  }

  ghost predicate ValidBins(bins: map<int, Bin>) {
    forall sec :: sec in bins ==> ValidBin(bins[sec])
  }

  // ---------------------------------------------------------------------------
  // Metric names

  /** The analyzer's dispatch on the metric name. */
  datatype Kind =
    | Contract(field: string) | IterBegin | IterEnd | Iterations | Dropped | Vus | VusMax
    | HttpReqs | HttpReqFailed | DataReceived | DataSent
    | CapMeasureMs | CapIterMs | HttpReqDuration | Unlisted

  predicate IsContract(metric: string) {
    CONTRACT_PREFIX <= metric
  }

  function KindOf(metric: string): (k: Kind)
    ensures k.Contract? <==> IsContract(metric)
    ensures k.Dropped? ==> metric == "dropped_iterations"
  {
    if IsContract(metric) then Contract(metric[|CONTRACT_PREFIX|..])
    else if metric == "cap_iter_begin" then IterBegin
    else if metric == "cap_iter_end" then IterEnd
    else if metric == "iterations" then Iterations
    else if metric == "dropped_iterations" then Dropped
    else if metric == "vus" then Vus
    else if metric == "vus_max" then VusMax
    else if metric == "http_reqs" then HttpReqs
    else if metric == "http_req_failed" then HttpReqFailed
    else if metric == "data_received" then DataReceived
    else if metric == "data_sent" then DataSent
    else if metric == "cap_measure_ms" then CapMeasureMs
    else if metric == "cap_iter_ms" then CapIterMs
    else if metric == "http_req_duration" then HttpReqDuration
    else Unlisted
  }

  /** Each name has its own kind, and no other name has it. */
  lemma KindByName(metric: string)
    ensures KindOf(metric).IterBegin? <==> metric == "cap_iter_begin"
    ensures KindOf(metric).IterEnd? <==> metric == "cap_iter_end"
    ensures KindOf(metric).Iterations? <==> metric == "iterations"
    ensures KindOf(metric).Dropped? <==> metric == "dropped_iterations"
    ensures KindOf(metric).Vus? <==> metric == "vus"
    ensures KindOf(metric).VusMax? <==> metric == "vus_max"
    ensures KindOf(metric).HttpReqs? <==> metric == "http_reqs"
    ensures KindOf(metric).HttpReqFailed? <==> metric == "http_req_failed"
    ensures KindOf(metric).DataReceived? <==> metric == "data_received"
    ensures KindOf(metric).DataSent? <==> metric == "data_sent"
    ensures KindOf(metric).CapMeasureMs? <==> metric == "cap_measure_ms"
    ensures KindOf(metric).CapIterMs? <==> metric == "cap_iter_ms"
    ensures KindOf(metric).HttpReqDuration? <==> metric == "http_req_duration"
    ensures forall field :: KindOf(metric) == Contract(field) <==> metric == "cap_window_" + field
  {
    assert |"cap_iter_begin"| == 14 && "cap_iter_begin"[4] == 'i' && |"cap_measure_ms"| == 14 && "cap_measure_ms"[4] == 'm';
    assert |"http_reqs"| == 9 && "http_reqs"[0] == 'h' && |"data_sent"| == 9 && "data_sent"[0] == 'd';
    assert |"cap_iter_end"| == 12 && |"iterations"| == 10 && |"dropped_iterations"| == 18 && |"vus"| == 3;
    assert |"vus_max"| == 7 && |"http_req_failed"| == 15 && |"data_received"| == 13 && |"cap_iter_ms"| == 11;
    assert |"http_req_duration"| == 17 && |CONTRACT_PREFIX| == 11;
    assert CONTRACT_PREFIX[4] == 'w' && "cap_iter_end"[4] == 'i' && "cap_iter_ms"[4] == 'i' && "dropped_iterations"[4] == 'p';
    assert "http_req_failed"[4] == '_' && "data_received"[4] == '_' && "http_req_duration"[4] == '_';
    assert forall field: string :: ("cap_window_" + field)[11..] == field;
    assert IsContract(metric) ==> metric == CONTRACT_PREFIX + metric[11..];
  }

  function NameOf(tag: Option<string>): string {
    tag.GetOr("?")
  }

  predicate Measured(tags: Tags) {
    NameOf(tags.cohort) == "measure"
  }

  // ---------------------------------------------------------------------------
  // One point, component by component

  function TallyIters(i: Iters, kind: Kind, tags: Tags): Iters {
    var cohort, lw := NameOf(tags.cohort), NameOf(tags.lw);
    if kind.IterBegin? then
      i.(begins := Counts.Add(i.begins, cohort, 1),
         beginsPair := Counts.Add(i.beginsPair, cohort + "|" + lw, 1))
    else if kind.IterEnd? then
      i.(ends := Counts.Add(i.ends, cohort + "|" + lw + "|" + NameOf(tags.outcome), 1))
    else i
  }

  function TallyGauges(g: Gauges, kind: Kind, n: int): Gauges {
    match kind
    case Iterations => g.(iterations := g.iterations + n)
    case Dropped => g.(dropped := g.dropped + n)
    case Vus => g.(vus := Max(g.vus, n))
    case VusMax => g.(vusMax := Max(g.vusMax, n))
    case HttpReqs => g.(httpReqs := g.httpReqs + n)
    case HttpReqFailed => g.(httpReqFailed := g.httpReqFailed + n)
    case DataReceived => g.(dataReceived := g.dataReceived + n)
    case DataSent => g.(dataSent := g.dataSent + n)
    case _ => g
  }

  function TallyLatency(l: Latency, kind: Kind, v: real): Latency
    requires ValidLatency(l)
  {
    match kind
    case CapMeasureMs => l.(capMeasureMs := HistAdd(BUCKETS, l.capMeasureMs, v))
    case CapIterMs => l.(capIterMs := HistAdd(BUCKETS, l.capIterMs, v))
    case HttpReqDuration => l.(httpReqDuration := HistAdd(BUCKETS, l.httpReqDuration, v))
    case _ => l
  }

  /** What a non-contract point does to the bin of its second. */
  function Tally(b: Bin, kind: Kind, v: real, tags: Tags): Bin
    requires ValidBin(b)
  {
    Bin(TallyIters(b.iters, kind, tags), TallyGauges(b.gauges, kind, Trunc(v)), TallyLatency(b.latency, kind, v))
  }

  function TallyBins(bins: map<int, Bin>, kind: Kind, ts: real, v: real, tags: Tags): map<int, Bin>
    requires ValidBins(bins)
  {
    if kind.Contract? then bins
    else bins[Trunc(ts) := Tally(BinAt(bins, Trunc(ts)), kind, v, tags)]
  }

  function Observe(s: Seen, ts: real, tags: Tags): Seen {
    Seen(s.points + 1, s.parseErrors, Least(s.firstTs, ts), Greatest(s.lastTs, ts),
         if tags.vu.Some? then s.vus + {tags.vu.value} else s.vus)
  }

  function CountCohort(c: Cohort, kind: Kind, n: int, tags: Tags): Cohort {
    if !Measured(tags) then c
    else if kind.IterBegin? then c.(begins := c.begins + n)
    else if kind.IterEnd? then
      c.(ends := c.ends + n, outcomes := Counts.Add(c.outcomes, NameOf(tags.outcome), n))
    else c
  }

  function FieldValues(fields: map<string, set<real>>, field: string): set<real> {
    if field in fields then fields[field] else {}
  }

  function Only(s: set<real>): (x: real)
    requires |s| == 1
    ensures s == {x}
  {
    SingletonMember(s);
    var x :| x in s;
    x
  }

  lemma SingletonMember(s: set<real>)
    requires |s| == 1
    ensures s != {} && exists x :: x in s
    ensures forall x, y :: x in s && y in s ==> x == y
    ensures forall x :: x in s ==> s == {x}
  {
    var member := SomeMember(s);
    forall x | x in s
      ensures s == {x}
    {
      assert |s - {x}| == 0;
    }
  }

  /** The window resolves once both bounds carry one agreed value. Disagreement met before
      that point is final. */
  function Resolve(c: ContractState): ContractState {
    var starts := FieldValues(c.fields, "measure_start_ms");
    var ends := FieldValues(c.fields, "measure_end_ms");
    if c.window.Some? || c.divergent || starts == {} || ends == {} then c
    else if |starts| > 1 || |ends| > 1 then c.(divergent := true)
    else c.(window := Some(Window(Only(starts) / 1000.0, Only(ends) / 1000.0)))
  }

  function AddContract(c: ContractState, kind: Kind, v: real): ContractState {
    if kind.Contract? then
      Resolve(c.(fields := c.fields[kind.field := FieldValues(c.fields, kind.field) + {v}]))
    else c
  }

  /** A drop against resolved bounds [start, end). */
  function Classify(ds: Drops, w: Window, d: Drop): Drops {
    if d.ts < w.start then ds.(pre := ds.pre + d.n)
    else if d.ts >= w.end then ds.(post := ds.post + d.n)
    else ds.(inside := ds.inside + d.n)
  }

  function ClassifyAll(ds: Drops, w: Window, drops: seq<Drop>): Drops {
    if drops == [] then ds
    else Classify(ClassifyAll(ds, w, drops[..|drops| - 1]), w, drops[|drops| - 1])
  }

  /** Everything that waited is classified at the moment the window resolves. */
  function Flush(ds: Drops, before: Option<Window>, after: Option<Window>): Drops {
    if before.None? && after.Some? then ClassifyAll(ds, after.value, ds.pending).(pending := []) else ds
  }

  /** Until the bounds are known a drop is buffered, and the buffer is bounded. */
  function AddDrop(ds: Drops, w: Option<Window>, d: Drop): Drops {
    if w.Some? then Classify(ds, w.value, d)
    else if |ds.pending| >= MAX_PENDING_DROPS then ds.(overflow := true)
    else ds.(pending := ds.pending + [d])
  }

  function StepDrops(ds: Drops, c: ContractState, kind: Kind, ts: real, v: real): Drops {
    if kind.Dropped? then AddDrop(ds, c.window, Drop(ts, Trunc(v)))
    else Flush(ds, c.window, AddContract(c, kind, v).window)
  }

  predicate Complete(p: Point) {
    p.metric.Some? && p.time.Some? && p.value.Some?
  }

  function OnKind(s: Series, kind: Kind, ts: real, v: real, tags: Tags): Series
    requires ValidBins(s.bins)
  {
    Series(TallyBins(s.bins, kind, ts, v, tags), Observe(s.seen, ts, tags),
           CountCohort(s.cohort, kind, Trunc(v), tags), AddContract(s.contract, kind, v),
           StepDrops(s.drops, s.contract, kind, ts, v))
  }

  function OnPoint(s: Series, p: Point): Series
    requires ValidBins(s.bins)
  {
    if !Complete(p) then s.(seen := s.seen.(parseErrors := s.seen.parseErrors + 1))
    else OnKind(s, KindOf(p.metric.value), p.time.value, p.value.value, p.tags)
  }

  lemma TallyKeepsValid(b: Bin, kind: Kind, v: real, tags: Tags)
    requires ValidBin(b)
    ensures ValidBin(Tally(b, kind, v, tags))
  {
  }

  lemma TallyBinsKeepsValid(bins: map<int, Bin>, kind: Kind, ts: real, v: real, tags: Tags)
    requires ValidBins(bins)
    ensures ValidBins(TallyBins(bins, kind, ts, v, tags))
  {
    TallyKeepsValid(BinAt(bins, Trunc(ts)), kind, v, tags);
  }

  lemma OnPointKeepsValid(s: Series, p: Point)
    requires ValidBins(s.bins)
    ensures ValidBins(OnPoint(s, p).bins)
  {
    if Complete(p) {
      TallyBinsKeepsValid(s.bins, KindOf(p.metric.value), p.time.value, p.value.value, p.tags);
    }
  }

  // ---------------------------------------------------------------------------
  // The analyzer object

  class StreamingSeries {
    var bins: map<int, Bin>
    var seen: Seen
    var cohort: Cohort
    var contract: ContractState
    var drops: Drops

    function State(): Series
      reads this
    {
      Series(bins, seen, cohort, contract, drops)
    }

    constructor ()
      ensures State() == EmptySeries()
    {
      bins, seen, cohort := map[], Seen(0, 0, None, None, {}), Cohort(0, 0, map[]);
      contract, drops := ContractState(map[], None, false), Drops(0, 0, 0, [], false);
    }

    method ClassifyDropResolved(d: Drop)
      requires contract.window.Some?
      modifies this`drops
      ensures drops == Classify(old(drops), contract.window.value, d)
    {
      var w := contract.window.value;
      if d.ts < w.start {
        drops := drops.(pre := drops.pre + d.n);
      } else if d.ts >= w.end {
        drops := drops.(post := drops.post + d.n);
      } else {
        drops := drops.(inside := drops.inside + d.n);
      }
    }

    method ClassifyDrop(d: Drop)
      modifies this`drops
      ensures drops == AddDrop(old(drops), contract.window, d)
    {
      if contract.window.None? {
        if |drops.pending| >= MAX_PENDING_DROPS {
          drops := drops.(overflow := true);
          return;
        }
        drops := drops.(pending := drops.pending + [d]);
        return;
      }
      ClassifyDropResolved(d);
    }

    method MaybeResolveWindow()
      modifies this`contract, this`drops
      ensures contract == Resolve(old(contract))
      ensures drops == Flush(old(drops), old(contract).window, contract.window)
    {
      if contract.window.Some? || contract.divergent {
        return;
      }
      var s := FieldValues(contract.fields, "measure_start_ms");
      var e := FieldValues(contract.fields, "measure_end_ms");
      if s == {} || e == {} {
        return;
      }
      if |s| > 1 || |e| > 1 {
        contract := contract.(divergent := true);
        return;
      }
      assert |s| == 1 && |e| == 1;
      contract := contract.(window := Some(Window(Only(s) / 1000.0, Only(e) / 1000.0)));
      ClassifyPending();
      drops := drops.(pending := []);
    }

    method ClassifyPending()
      requires contract.window.Some?
      modifies this`drops
      ensures drops == ClassifyAll(old(drops), contract.window.value, old(drops.pending))
    {
      var pending := drops.pending;
      for i := 0 to |pending|
        invariant drops == ClassifyAll(old(drops), contract.window.value, pending[..i])
      {
        assert pending[..i + 1][..i] == pending[..i];
        ClassifyDropResolved(pending[i]);
      }
      assert pending[..|pending|] == pending;
    }

    method ObservePoint(ts: real, tags: Tags)
      modifies this`seen
      ensures seen == Observe(old(seen), ts, tags)
    {
      seen := seen.(points := seen.points + 1);
      if seen.firstTs.None? || ts < seen.firstTs.value {
        seen := seen.(firstTs := Some(ts));
      }
      if seen.lastTs.None? || ts > seen.lastTs.value {
        seen := seen.(lastTs := Some(ts));
      }
      if tags.vu.Some? {
        seen := seen.(vus := seen.vus + {tags.vu.value});
      }
    }

    method CountPoint(kind: Kind, n: int, tags: Tags)
      modifies this`cohort
      ensures cohort == CountCohort(old(cohort), kind, n, tags)
    {
      if kind.IterBegin? {
        if Measured(tags) {
          cohort := cohort.(begins := cohort.begins + n);
        }
      } else if kind.IterEnd? {
        if Measured(tags) {
          cohort := cohort.(ends := cohort.ends + n);
          cohort := cohort.(outcomes := Counts.Add(cohort.outcomes, NameOf(tags.outcome), n));
        }
      }
    }

    method BinPoint(kind: Kind, ts: real, v: real, tags: Tags)
      requires ValidBins(bins) && !kind.Contract?
      modifies this`bins
      ensures bins == TallyBins(old(bins), kind, ts, v, tags) && ValidBins(bins)
    {
      TallyBinsKeepsValid(bins, kind, ts, v, tags);
      var sec := Trunc(ts);
      bins := bins[sec := Tally(BinAt(bins, sec), kind, v, tags)];
    }

    method AcceptPoint(p: Point)
      requires ValidBins(bins)
      modifies this
      ensures State() == OnPoint(old(State()), p) && ValidBins(bins)
    {
      if !Complete(p) {
        seen := seen.(parseErrors := seen.parseErrors + 1);
        return;
      }
      AcceptKind(KindOf(p.metric.value), p.time.value, p.value.value, p.tags);
    }

    method AcceptKind(kind: Kind, ts: real, v: real, tags: Tags)
      requires ValidBins(bins)
      modifies this
      ensures State() == OnKind(old(State()), kind, ts, v, tags) && ValidBins(bins)
    {
      ObservePoint(ts, tags);
      if kind.Contract? {
        contract := contract.(
          fields := contract.fields[kind.field := FieldValues(contract.fields, kind.field) + {v}]);
        MaybeResolveWindow();
        return;
      }
      BinPoint(kind, ts, v, tags);
      CountPoint(kind, Trunc(v), tags);
      if kind.Dropped? {
        ClassifyDrop(Drop(ts, Trunc(v)));
      }
    }
  }
}
