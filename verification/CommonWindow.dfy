/** The measurement window shared by every participating load
    (perf/tools/checkpoint_analyze.py, load_windows and common_window). */
module CommonWindow {
  import opened Common

  const DEFAULT_WARMUP: real := 15.0

  datatype Interval = Interval(start: real, end: real)

  /** What the main load recorded about its own window, in milliseconds. */
  datatype MainEvidence = MainEvidence(startMs: Option<real>, endMs: Option<real>, clockOk: bool)

  /** What a sidecar's own contract says; an absent contract has every field absent. */
  datatype SidecarContract = SidecarContract(
    isContract: bool, clockOk: bool, divergent: bool,
    start: Option<real>, end: Option<real>, duration: Option<real>)

  datatype Sidecar = Sidecar(
    contract: SidecarContract, started: Option<real>, ended: Option<real>, duration: Option<real>)

  datatype Config = Config(main: MainEvidence, warmup: Option<real>, sidecars: seq<Sidecar>)

  /** A load's window evidence: exact bounds, or the container's lifetime around a scenario of
      known duration, or nothing usable. */
  datatype Load =
    | Contract(start: real, end: real)
    | Bounded(started: real, ended: real, duration: real, warmup: real)
    | Missing

  datatype Report =
    | Unusable
    | Disjoint(exact: bool)
    | Shared(exact: bool, start: real, end: real)

  /** A present, non-zero number. */
  predicate Truthy(x: Option<real>) {
    x.Some? && x.value != 0.0
  }

  predicate MainTrusted(m: MainEvidence) {
    Truthy(m.startMs) && Truthy(m.endMs) && m.clockOk
  }

  predicate SidecarTrusted(c: SidecarContract) {
    && c.isContract && c.clockOk && !c.divergent
    && c.start.Some? && c.end.Some? && c.end.value > c.start.value
  }

  function ScenarioDuration(sc: Sidecar): Option<real> {
    if Truthy(sc.duration) then sc.duration else sc.contract.duration
  }

  predicate HasLifetime(sc: Sidecar) {
    Truthy(sc.started) && Truthy(sc.ended) && Truthy(ScenarioDuration(sc))
  }

  function MainLoad(m: MainEvidence): Load {
    if MainTrusted(m) then Contract(m.startMs.value / 1000.0, m.endMs.value / 1000.0) else Missing
  }

  function SidecarLoad(sc: Sidecar, warmup: real): Load {
    if SidecarTrusted(sc.contract) then Contract(sc.contract.start.value, sc.contract.end.value)
    else if HasLifetime(sc) then
      Bounded(sc.started.value, sc.ended.value, ScenarioDuration(sc).value, warmup)
    else Missing
  }

  /** The evidence of every load, the main one first. */
  function LoadsOf(c: Config): (loads: seq<Load>)
    ensures |loads| == 1 + |c.sidecars|
  {
    [MainLoad(c.main)] +
    seq(|c.sidecars|, i requires 0 <= i < |c.sidecars| => SidecarLoad(c.sidecars[i], Warmup(c)))
  }

  function Warmup(c: Config): real {
    c.warmup.GetOr(DEFAULT_WARMUP)
  }

  method LoadWindows(c: Config) returns (loads: seq<Load>)
    ensures loads == LoadsOf(c)
    ensures forall ws :: Truthful(c, ws) <==> World(loads, ws)
  {
    loads := [MainLoad(c.main)];
    var warmup := c.warmup.GetOr(DEFAULT_WARMUP);
    for i := 0 to |c.sidecars|
      invariant loads == LoadsOf(c)[..i + 1]
    {
      loads := loads + [SidecarLoad(c.sidecars[i], warmup)];
    }
    assert LoadsOf(c)[..|c.sidecars| + 1] == LoadsOf(c);
    forall ws: seq<Interval>
      ensures Truthful(c, ws) <==> World(loads, ws)
    {
      EvidenceIsTruth(c, ws);
    }
  }

  /** The conservative bound a load puts on the shared start, and on the shared end. */
  function LatestStart(load: Load): real
    requires !load.Missing?
  {
    if load.Contract? then load.start else load.ended - load.duration + load.warmup
  }

  function EarliestEnd(load: Load): real
    requires !load.Missing?
  {
    if load.Contract? then load.end else load.started + load.duration
  }

  predicate Usable(loads: seq<Load>) {
    loads != [] && forall i :: 0 <= i < |loads| ==> !loads[i].Missing?
  }

  predicate Exact(loads: seq<Load>) {
    forall i :: 0 <= i < |loads| ==> loads[i].Contract?
  }

  ghost predicate IsMaxStart(loads: seq<Load>, s: real)
    requires Usable(loads)
  {
    && (forall i :: 0 <= i < |loads| ==> LatestStart(loads[i]) <= s)
    && (exists i :: 0 <= i < |loads| && LatestStart(loads[i]) == s)
  }

  ghost predicate IsMinEnd(loads: seq<Load>, e: real)
    requires Usable(loads)
  {
    && (forall i :: 0 <= i < |loads| ==> e <= EarliestEnd(loads[i]))
    && (exists i :: 0 <= i < |loads| && EarliestEnd(loads[i]) == e)
  }

  method Intersect(loads: seq<Load>) returns (start: real, end: real)
    requires Usable(loads)
    ensures IsMaxStart(loads, start) && IsMinEnd(loads, end)
  {
    start, end := LatestStart(loads[0]), EarliestEnd(loads[0]);
    for k := 1 to |loads|
      invariant forall i :: 0 <= i < k ==> LatestStart(loads[i]) <= start
      invariant exists i :: 0 <= i < k && LatestStart(loads[i]) == start
      invariant forall i :: 0 <= i < k ==> end <= EarliestEnd(loads[i])
      invariant exists i :: 0 <= i < k && EarliestEnd(loads[i]) == end
    {
      start := MaxReal(start, LatestStart(loads[k]));
      end := MinReal(end, EarliestEnd(loads[k]));
    }
  }

  method CommonWindow(loads: seq<Load>) returns (r: Report)
    ensures r.Unusable? <==> !Usable(loads)
    ensures !r.Unusable? ==> r.exact == Exact(loads)
    ensures Answers(loads, r)
    ensures r.Shared? ==> Sound(loads, r)
    ensures loads != [] ==> (Maximal(loads, r) <==> Feasible(loads))
  {
    if !Usable(loads) {
      r := Unusable;
      SoundAndMaximal(loads, r);
      if loads != [] {
        MaximalIff(loads, r);
      }
      return;
    }
    var start, end := Intersect(loads);
    if end <= start {
      r := Disjoint(Exact(loads));
    } else {
      r := Shared(Exact(loads), start, end);
    }
    assert IsReport(loads, start, end, r);
    SoundAndMaximal(loads, r);
    MaximalIff(loads, r);
  }

  // ---------- What the evidence leaves possible ----------

  /** The real window `w` agrees with the load's evidence: for a container, some scenario start
      inside its lifetime that leaves room for the duration explains it. */
  predicate Possible(load: Load, w: Interval) {
    match load
    case Contract(s, e) => w == Interval(s, e)
    case Bounded(started, ended, duration, warmup) =>
      var scenario := w.start - warmup;
      started <= scenario && scenario + duration <= ended && w.end == scenario + duration
    case Missing => true
  }

  /** The real windows of all loads agree with all the evidence. */
  ghost predicate World(loads: seq<Load>, ws: seq<Interval>) {
    |ws| == |loads| && forall i :: 0 <= i < |loads| ==> Possible(loads[i], ws[i])
  }

  // The same conditions as a reader of the record would put them.

  /** The main load's clock was sound and both its bounds are known. */
  ghost predicate MainVouched(m: MainEvidence) {
    m.clockOk && m.startMs.Some? && m.startMs.value != 0.0 && m.endMs.Some? && m.endMs.value != 0.0
  }

  /** The sidecar's own contract, on a sound clock and without dissent, gives a window that is not empty. */
  ghost predicate Vouched(sc: Sidecar) {
    var k := sc.contract;
    k.isContract && k.clockOk && !k.divergent && k.start.Some? && k.end.Some? && k.start.value < k.end.value
  }

  /** How long the scenario is said to have lasted; a zero counts as nothing said. */
  ghost function SaidToLast(sc: Sidecar): Option<real> {
    if sc.duration.Some? && sc.duration.value != 0.0 then sc.duration
    else if sc.contract.duration.Some? && sc.contract.duration.value != 0.0 then sc.contract.duration
    else None
  }

  /** When the container started and ended is known, and how long its scenario lasted. */
  ghost predicate LifetimeKnown(sc: Sidecar) {
    && sc.started.Some? && sc.started.value != 0.0 && sc.ended.Some? && sc.ended.value != 0.0
    && SaidToLast(sc).Some?
  }

  lemma TrustIff(sc: Sidecar)
    ensures SidecarTrusted(sc.contract) <==> Vouched(sc)
    ensures HasLifetime(sc) <==> LifetimeKnown(sc)
    ensures HasLifetime(sc) ==> ScenarioDuration(sc) == SaidToLast(sc)
  {
  }

  /** The raw record is true of the real window: a trusted contract gives the window itself;
      otherwise some scenario start inside the container's lifetime, that leaves room for the
      duration, explains it. */
  ghost predicate SidecarTruth(sc: Sidecar, warmup: real, w: Interval) {
    if Vouched(sc) then
      w.start == sc.contract.start.value && w.end == sc.contract.end.value
    else if LifetimeKnown(sc) then
      exists scenario: real :: Explains(sc, warmup, scenario, w)
    else true
  }

  /** A scenario that starts at this moment runs while the container lives and measures `w`. */
  ghost predicate Explains(sc: Sidecar, warmup: real, scenario: real, w: Interval)
    requires LifetimeKnown(sc)
  {
    && sc.started.value <= scenario && scenario + SaidToLast(sc).value <= sc.ended.value
    && w == Interval(scenario + warmup, scenario + SaidToLast(sc).value)
  }

  ghost predicate Truthful(c: Config, ws: seq<Interval>) {
    && |ws| == 1 + |c.sidecars|
    && (MainVouched(c.main) ==>
          ws[0] == Interval(c.main.startMs.value / 1000.0, c.main.endMs.value / 1000.0))
    && forall i :: 0 <= i < |c.sidecars| ==>
        SidecarTruth(c.sidecars[i], if c.warmup.Some? then c.warmup.value else 15.0, ws[i + 1])
  }

  lemma SidecarEvidenceIsTruth(sc: Sidecar, warmup: real, w: Interval)
    ensures Possible(SidecarLoad(sc, warmup), w) <==> SidecarTruth(sc, warmup, w)
  {
    TrustIff(sc);
    if !Vouched(sc) && LifetimeKnown(sc) && Possible(SidecarLoad(sc, warmup), w) {
      assert Explains(sc, warmup, w.start - warmup, w);
    }
  }

  /** The windows that the evidence leaves possible are exactly those the raw record is true of. */
  lemma EvidenceIsTruth(c: Config, ws: seq<Interval>)
    ensures World(LoadsOf(c), ws) <==> Truthful(c, ws)
  {
    hide SidecarTruth, SidecarLoad, Possible;
    var loads := LoadsOf(c);
    MainEvidenceIsTruth(c.main, if ws == [] then Interval(0.0, 0.0) else ws[0]);
    if |ws| == |loads| {
      forall i | 0 <= i < |c.sidecars|
        ensures Possible(loads[i + 1], ws[i + 1]) <==> SidecarTruth(c.sidecars[i], Warmup(c), ws[i + 1])
      {
        SidecarEvidenceIsTruth(c.sidecars[i], Warmup(c), ws[i + 1]);
      }
      if Truthful(c, ws) {
        forall k | 0 <= k < |loads|
          ensures Possible(loads[k], ws[k])
        {
          if k > 0 {
            var i := k - 1;
            assert Possible(loads[i + 1], ws[i + 1]) <==> SidecarTruth(c.sidecars[i], Warmup(c), ws[i + 1]);
          }
        }
      }
    }
  }

  lemma MainEvidenceIsTruth(m: MainEvidence, w: Interval)
    ensures Possible(MainLoad(m), w) <==>
      (MainVouched(m) ==> w == Interval(m.startMs.value / 1000.0, m.endMs.value / 1000.0))
  {
  }

  ghost predicate Within(s: real, e: real, ws: seq<Interval>) {
    forall i :: 0 <= i < |ws| ==> ws[i].start <= s && e <= ws[i].end
  }

  /** The interval lies inside every load's window whatever the real windows are. */
  ghost predicate Guaranteed(loads: seq<Load>, s: real, e: real) {
    forall ws :: World(loads, ws) ==> Within(s, e, ws)
  }

  /** The container lived at least as long as the scenario it is said to have run. */
  predicate Explicable(load: Load) {
    load.Bounded? ==> load.started <= load.ended - load.duration
  }

  predicate Feasible(loads: seq<Load>) {
    forall i :: 0 <= i < |loads| ==> Explicable(loads[i])
  }

  ghost predicate Sound(loads: seq<Load>, r: Report)
    requires r.Shared?
  {
    r.start < r.end && Guaranteed(loads, r.start, r.end)
  }

  /** No guaranteed interval reaches outside the report. */
  ghost predicate Maximal(loads: seq<Load>, r: Report) {
    forall s, e :: s < e && Guaranteed(loads, s, e) ==> r.Shared? && r.start <= s && e <= r.end
  }

  /** What the code answers for usable evidence with these extreme bounds. */
  ghost predicate IsReport(loads: seq<Load>, start: real, end: real, r: Report) {
    && Usable(loads) && IsMaxStart(loads, start) && IsMinEnd(loads, end)
    && r == if end <= start then Disjoint(Exact(loads)) else Shared(Exact(loads), start, end)
  }

  ghost predicate Answers(loads: seq<Load>, r: Report) {
    if Usable(loads) then exists start, end :: IsReport(loads, start, end, r) else r == Unusable
  }

  /** A real window that explains one load and starts as late as it can. */
  function LateWindow(load: Load): (w: Interval)
    ensures Explicable(load) ==> Possible(load, w)
  {
    match load
    case Contract(s, e) => Interval(s, e)
    case Bounded(_, ended, duration, warmup) => Interval(ended - duration + warmup, ended)
    case Missing => Interval(0.0, 0.0)
  }

  function EarlyWindow(load: Load): (w: Interval)
    ensures Explicable(load) ==> Possible(load, w)
  {
    match load
    case Contract(s, e) => Interval(s, e)
    case Bounded(started, _, duration, warmup) => Interval(started + warmup, started + duration)
    case Missing => Interval(0.0, 0.0)
  }

  /** Any one load can have started as late, or as early, as its evidence allows, with the others
      explained too. */
  lemma ExtremeWorlds(loads: seq<Load>, late: seq<Interval>, early: seq<Interval>)
    requires Feasible(loads) && |late| == |early| == |loads|
    requires forall i :: 0 <= i < |loads| ==> late[i] == LateWindow(loads[i])
    requires forall i :: 0 <= i < |loads| ==> early[i] == EarlyWindow(loads[i])
    ensures World(loads, late) && World(loads, early)
  {
  }

  lemma PossibleWithin(load: Load, w: Interval)
    requires !load.Missing? && Possible(load, w)
    ensures w.start <= LatestStart(load) && EarliestEnd(load) <= w.end
  {
  }

  lemma ReportSound(loads: seq<Load>, start: real, end: real, r: Report)
    requires IsReport(loads, start, end, r)
    ensures Guaranteed(loads, start, end)
  {
    forall ws: seq<Interval> | World(loads, ws)
      ensures Within(start, end, ws)
    {
      forall i | 0 <= i < |ws|
        ensures ws[i].start <= start && end <= ws[i].end
      {
        PossibleWithin(loads[i], ws[i]);
      }
    }
  }

  lemma GuaranteedBounded(loads: seq<Load>, s: real, e: real)
    requires Feasible(loads) && Guaranteed(loads, s, e) && s < e
    ensures forall i :: 0 <= i < |loads| ==> !loads[i].Missing?
    ensures forall i :: 0 <= i < |loads| ==> LatestStart(loads[i]) <= s && e <= EarliestEnd(loads[i])
  {
    var late := seq(|loads|, i requires 0 <= i < |loads| => LateWindow(loads[i]));
    var early := seq(|loads|, i requires 0 <= i < |loads| => EarlyWindow(loads[i]));
    ExtremeWorlds(loads, late, early);
    assert Within(s, e, late) && Within(s, e, early);
    forall i | 0 <= i < |loads|
      ensures !loads[i].Missing? && LatestStart(loads[i]) <= s && e <= EarliestEnd(loads[i])
    {
      assert late[i].start <= s && e <= late[i].end;
      assert early[i].start <= s && e <= early[i].end;
    }
  }

  lemma NoWorld(loads: seq<Load>, s: real, e: real)
    requires !Feasible(loads)
    ensures Guaranteed(loads, s, e)
  {
  }

  /** The reported interval is never empty and always inside every real window; and it is the
      largest such interval when every container could hold its scenario. */
  lemma SoundAndMaximal(loads: seq<Load>, r: Report)
    requires Answers(loads, r)
    ensures r.Shared? ==> Sound(loads, r)
    ensures loads != [] && Feasible(loads) ==> Maximal(loads, r)
  {
    if r.Shared? {
      var start, end :| IsReport(loads, start, end, r);
      ReportSound(loads, start, end, r);
    }
    if loads != [] && Feasible(loads) {
      forall s, e | s < e && Guaranteed(loads, s, e)
        ensures r.Shared? && r.start <= s && e <= r.end
      {
        GuaranteedBounded(loads, s, e);
        assert Usable(loads);
        var start, end :| IsReport(loads, start, end, r);
      }
    }
  }

  /** The report is the largest guaranteed interval exactly when no container was shorter than the
      scenario it is said to have run. */
  lemma MaximalIff(loads: seq<Load>, r: Report)
    requires loads != [] && Answers(loads, r)
    ensures Maximal(loads, r) <==> Feasible(loads)
  {
    SoundAndMaximal(loads, r);
    if !Feasible(loads) {
      var s := if r.Shared? then r.start - 1.0 else 0.0;
      NoWorld(loads, s, s + 1.0);
    }
  }

  /** With exact evidence everywhere the report is the intersection of the windows. */
  lemma ExactIsIntersection(loads: seq<Load>, ws: seq<Interval>, r: Report, s: real, e: real)
    requires Answers(loads, r) && loads != [] && Exact(loads) && World(loads, ws) && s < e
    ensures Within(s, e, ws) <==> r.Shared? && r.start <= s && e <= r.end
  {
    SoundAndMaximal(loads, r);
    if Within(s, e, ws) {
      assert forall vs :: World(loads, vs) ==> vs == ws;
      assert Guaranteed(loads, s, e);
    }
    if r.Shared? {
      assert Within(r.start, r.end, ws);
    }
  }

  /** Some real windows explain the evidence exactly when every container could hold its scenario. */
  lemma SomeWorldIff(loads: seq<Load>)
    ensures (exists ws :: World(loads, ws)) <==> Feasible(loads)
  {
    if Feasible(loads) {
      var late := seq(|loads|, i requires 0 <= i < |loads| => LateWindow(loads[i]));
      var early := seq(|loads|, i requires 0 <= i < |loads| => EarlyWindow(loads[i]));
      ExtremeWorlds(loads, late, early);
    }
  }

  /** The container lived shorter than the scenario that is all that is known of the sidecar. */
  ghost predicate TooShort(sc: Sidecar) {
    !Vouched(sc) && LifetimeKnown(sc) && sc.ended.value - sc.started.value < SaidToLast(sc).value
  }

  lemma FeasibleIffNoneTooShort(c: Config)
    ensures Feasible(LoadsOf(c)) <==> forall i :: 0 <= i < |c.sidecars| ==> !TooShort(c.sidecars[i])
  {
    var loads := LoadsOf(c);
    forall i | 0 <= i < |c.sidecars|
      ensures Explicable(loads[i + 1]) <==> !TooShort(c.sidecars[i])
    {
      TrustIff(c.sidecars[i]);
    }
    if forall i :: 0 <= i < |c.sidecars| ==> !TooShort(c.sidecars[i]) {
      forall k | 0 <= k < |loads|
        ensures Explicable(loads[k])
      {
        if k > 0 {
          var i := k - 1;
          assert Explicable(loads[i + 1]) <==> !TooShort(c.sidecars[i]);
        }
      }
    }
  }

  /** A record is true of some windows exactly when no sidecar's container was too short. */
  lemma TruthfulIffNoneTooShort(c: Config)
    ensures (exists ws :: Truthful(c, ws)) <==> forall i :: 0 <= i < |c.sidecars| ==> !TooShort(c.sidecars[i])
  {
    hide World, Truthful, Feasible, TooShort, LoadsOf;
    FeasibleIffNoneTooShort(c);
    SomeWorldIff(LoadsOf(c));
    if ws :| World(LoadsOf(c), ws) {
      EvidenceIsTruth(c, ws);
    }
    if ws :| Truthful(c, ws) {
      EvidenceIsTruth(c, ws);
    }
  }

  /** The shared window ends no later than a sidecar's container exactly when that container could
      hold its scenario, as far as that sidecar is concerned. */
  lemma EndsInLifetimeIff(load: Load)
    requires load.Bounded?
    ensures EarliestEnd(load) <= load.ended <==> Explicable(load)
    ensures Explicable(load) ==> load.started + load.warmup <= LatestStart(load)
  {
  }

  /** A main load measured from second 10 to 200, and a sidecar whose container lived from 5 to 15
      although its scenario is said to have lasted a hundred seconds. */
  function ShortSidecarConfig(): Config {
    Config(MainEvidence(Some(10000.0), Some(200000.0), true), Some(0.0),
           [Sidecar(SidecarContract(false, false, false, None, None, None), Some(5.0), Some(15.0), Some(100.0))])
  }

  /** The code reports 95 shared seconds for it, ninety of them after the container had ended, and
      no real windows agree with the record. */
  lemma ShortContainerWidensWindow()
    ensures Answers(LoadsOf(ShortSidecarConfig()), Shared(false, 10.0, 105.0))
    ensures ShortSidecarConfig().sidecars[0].ended.value == 15.0
    ensures forall ws :: !Truthful(ShortSidecarConfig(), ws)
  {
    var c := ShortSidecarConfig();
    var loads := LoadsOf(c);
    assert loads == [Contract(10.0, 200.0), Bounded(5.0, 15.0, 100.0, 0.0)];
    assert LatestStart(loads[0]) == 10.0 && EarliestEnd(loads[1]) == 105.0;
    assert IsReport(loads, 10.0, 105.0, Shared(false, 10.0, 105.0));
    assert TooShort(c.sidecars[0]);
    TruthfulIffNoneTooShort(c);
  }

  /** Every load left something to bound its window by. */
  ghost predicate Evidenced(c: Config) {
    && MainVouched(c.main)
    && forall i :: 0 <= i < |c.sidecars| ==> Vouched(c.sidecars[i]) || LifetimeKnown(c.sidecars[i])
  }

  /** The interval lies inside every real window, as long as the record is true. */
  ghost predicate Promised(c: Config, s: real, e: real) {
    forall ws :: Truthful(c, ws) ==> Within(s, e, ws)
  }

  lemma PromisedIsGuaranteed(c: Config, s: real, e: real)
    ensures Promised(c, s, e) <==> Guaranteed(LoadsOf(c), s, e)
  {
    hide World, Truthful, LoadsOf, Within;
    forall ws: seq<Interval>
      ensures Truthful(c, ws) <==> World(LoadsOf(c), ws)
    {
      EvidenceIsTruth(c, ws);
    }
  }

  lemma UsableIffEvidenced(c: Config)
    ensures Usable(LoadsOf(c)) <==> Evidenced(c)
  {
    var loads := LoadsOf(c);
    forall i | 0 <= i < |c.sidecars|
      ensures loads[i + 1].Missing? <==> !(Vouched(c.sidecars[i]) || LifetimeKnown(c.sidecars[i]))
    {
      TrustIff(c.sidecars[i]);
    }
    assert loads[0].Missing? <==> !MainVouched(c.main);
    if Evidenced(c) {
      forall k | 0 <= k < |loads|
        ensures !loads[k].Missing?
      {
        if k > 0 {
          var i := k - 1;
          assert loads[i + 1].Missing? <==> !(Vouched(c.sidecars[i]) || LifetimeKnown(c.sidecars[i]));
        }
      }
    }
  }

  /** End to end. The interval reported for a run's record is not empty, lies inside the main window
      and inside every real window of a true record. It is the largest promised interval exactly when
      no container was too short; and it is reported although no windows fit the record exactly when
      one was. */
  method ReportRun(c: Config) returns (r: Report)
    ensures !r.Unusable? <==> Evidenced(c)
    ensures !r.Unusable? ==> (r.exact <==> forall i :: 0 <= i < |c.sidecars| ==> Vouched(c.sidecars[i]))
    ensures r.Shared? ==> r.start < r.end && Promised(c, r.start, r.end)
    ensures r.Shared? ==> c.main.startMs.value / 1000.0 <= r.start && r.end <= c.main.endMs.value / 1000.0
    ensures (forall s, e :: s < e && Promised(c, s, e) ==> r.Shared? && r.start <= s && e <= r.end)
       <==> forall i :: 0 <= i < |c.sidecars| ==> !TooShort(c.sidecars[i])
    ensures r.Shared? && (forall ws :: !Truthful(c, ws)) <==>
      r.Shared? && exists i :: 0 <= i < |c.sidecars| && TooShort(c.sidecars[i])
  {
    hide LoadsOf, Guaranteed, Promised, Truthful, TooShort, Feasible, Vouched, LifetimeKnown;
    var loads := LoadWindows(c);
    r := CommonWindow(loads);
    UsableIffEvidenced(c);
    ExactIffVouched(c);
    FeasibleIffNoneTooShort(c);
    TruthfulIffNoneTooShort(c);
    MaximalIff(loads, r);
    MainComesFirst(c);
    if r.Shared? {
      InsideEveryContract(loads, r, 0);
    }
    forall s: real, e: real
      ensures Promised(c, s, e) <==> Guaranteed(loads, s, e)
    {
      PromisedIsGuaranteed(c, s, e);
    }
  }

  lemma MainComesFirst(c: Config)
    ensures LoadsOf(c)[0] == MainLoad(c.main)
    ensures MainVouched(c.main) ==> MainLoad(c.main) == Contract(c.main.startMs.value / 1000.0, c.main.endMs.value / 1000.0)
  {
  }

  lemma ExactIffVouched(c: Config)
    ensures Evidenced(c) ==> (Exact(LoadsOf(c)) <==> forall i :: 0 <= i < |c.sidecars| ==> Vouched(c.sidecars[i]))
  {
    var loads := LoadsOf(c);
    forall i | 0 <= i < |c.sidecars|
      ensures loads[i + 1].Contract? <==> Vouched(c.sidecars[i])
    {
      TrustIff(c.sidecars[i]);
    }
    if Evidenced(c) && forall i :: 0 <= i < |c.sidecars| ==> Vouched(c.sidecars[i]) {
      forall k | 0 <= k < |loads|
        ensures loads[k].Contract?
      {
        if k > 0 {
          var i := k - 1;
          assert loads[i + 1].Contract? <==> Vouched(c.sidecars[i]);
        }
      }
    }
  }

  lemma InsideEveryContract(loads: seq<Load>, r: Report, i: nat)
    requires Answers(loads, r) && r.Shared? && i < |loads| && loads[i].Contract?
    ensures loads[i].start <= r.start && r.end <= loads[i].end
  {
    var start, end :| IsReport(loads, start, end, r);
    assert LatestStart(loads[i]) <= start && end <= EarliestEnd(loads[i]);
  }
}
