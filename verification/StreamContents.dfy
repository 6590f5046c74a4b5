/** What the analyzer's state says about the stream it read: every counter of every second, the
    points, errors and users seen, and the two validity flags of window.json, all in terms of the
    rows (perf/tools/checkpoint_analyze.py, StreamingSeries.on_point, emit_window). */
module StreamContents {
  import opened Common
  import opened Histogram
  import opened StreamSeries
  import opened StreamSharding
  import opened DropAccounting
  import Counts

  // ---------------------------------------------------------------------------
  // The rows of one metric in one second

  /** Points of the named metric whose time lies in the second, in stream order. */
  function PointsIn(rows: seq<Row>, metric: string, sec: int): (points: seq<Point>)
    ensures forall p :: p in points ==> p.time.Some? && p.value.Some?
  {
    if rows == [] then []
    else
      var prefix, row := PointsIn(rows[..|rows| - 1], metric, sec), rows[|rows| - 1];
      if PointOf(row, metric) && Trunc(row.p.time.value) == sec then prefix + [row.p] else prefix
  }

  predicate Valued(points: seq<Point>) {
    forall p :: p in points ==> p.value.Some?
  }

  /** Sum of the values, each cut to an integer. */
  function Amount(points: seq<Point>): int
    requires Valued(points)
  {
    if points == [] then 0 else Amount(points[..|points| - 1]) + Trunc(points[|points| - 1].value.value)
  }

  /** Greatest of the values cut to integers, and at least zero. */
  function Peak(points: seq<Point>): int
    requires Valued(points)
  {
    if points == [] then 0 else Max(Peak(points[..|points| - 1]), Trunc(points[|points| - 1].value.value))
  }

  function Values(points: seq<Point>): seq<real>
    requires Valued(points)
  {
    if points == [] then [] else Values(points[..|points| - 1]) + [points[|points| - 1].value.value]
  }

  /** How many of the points carry a tag. */
  function Labelled(points: seq<Point>, tag: Point -> string, name: string): nat {
    if points == [] then 0
    else Labelled(points[..|points| - 1], tag, name) + (if tag(points[|points| - 1]) == name then 1 else 0)
  }

  const COHORT: Point -> string := (p: Point) => p.tags.cohort.GetOr("?")

  const COHORT_AND_LW: Point -> string := (p: Point) => p.tags.cohort.GetOr("?") + "|" + p.tags.lw.GetOr("?")

  const COHORT_LW_AND_OUTCOME: Point -> string :=
    (p: Point) => p.tags.cohort.GetOr("?") + "|" + p.tags.lw.GetOr("?") + "|" + p.tags.outcome.GetOr("?")

  lemma LastPoint(points: seq<Point>, p: Point)
    requires Valued(points) && p.value.Some?
    ensures Valued(points + [p])
    ensures Amount(points + [p]) == Amount(points) + Trunc(p.value.value)
    ensures Peak(points + [p]) == Max(Peak(points), Trunc(p.value.value))
    ensures Values(points + [p]) == Values(points) + [p.value.value]
    ensures forall tag, name :: Labelled(points + [p], tag, name) == Labelled(points, tag, name) + (if tag(p) == name then 1 else 0)
  {
    assert (points + [p])[..|points|] == points;
  }

  // ---------------------------------------------------------------------------
  // A second's bin, field by field

  ghost predicate GaugesAre(g: Gauges, rows: seq<Row>, sec: int) {
    && g.iterations == Amount(PointsIn(rows, "iterations", sec))
    && g.dropped == Amount(PointsIn(rows, "dropped_iterations", sec))
    && g.vus == Peak(PointsIn(rows, "vus", sec))
    && g.vusMax == Peak(PointsIn(rows, "vus_max", sec))
    && g.httpReqs == Amount(PointsIn(rows, "http_reqs", sec))
    && g.httpReqFailed == Amount(PointsIn(rows, "http_req_failed", sec))
    && g.dataReceived == Amount(PointsIn(rows, "data_received", sec))
    && g.dataSent == Amount(PointsIn(rows, "data_sent", sec))
  }

  ghost predicate LatencyIs(l: Latency, rows: seq<Row>, sec: int) {
    && l.capMeasureMs == HistOf(BUCKETS, Values(PointsIn(rows, "cap_measure_ms", sec)))
    && l.capIterMs == HistOf(BUCKETS, Values(PointsIn(rows, "cap_iter_ms", sec)))
    && l.httpReqDuration == HistOf(BUCKETS, Values(PointsIn(rows, "http_req_duration", sec)))
  }

  ghost predicate ItersAre(i: Iters, rows: seq<Row>, sec: int) {
    && (forall name :: Counts.At(i.begins, name) == Labelled(PointsIn(rows, "cap_iter_begin", sec), COHORT, name))
    && (forall name :: Counts.At(i.beginsPair, name) == Labelled(PointsIn(rows, "cap_iter_begin", sec), COHORT_AND_LW, name))
    && (forall name :: Counts.At(i.ends, name) == Labelled(PointsIn(rows, "cap_iter_end", sec), COHORT_LW_AND_OUTCOME, name))
  }

  ghost predicate BinIs(b: Bin, rows: seq<Row>, sec: int) {
    GaugesAre(b.gauges, rows, sec) && LatencyIs(b.latency, rows, sec) && ItersAre(b.iters, rows, sec)
  }

  predicate CompleteRow(row: Row) {
    row.PointRow? && row.p.metric.Some? && row.p.time.Some? && row.p.value.Some?
  }

  /** The row is complete and no contract point, so its second has a bin. */
  predicate Fills(row: Row, sec: int) {
    CompleteRow(row) && !("cap_window_" <= row.p.metric.value) && Trunc(row.p.time.value) == sec
  }

  /** Appending one row changes at most the points of its own metric and second. */
  lemma PointsAppend(rows: seq<Row>, row: Row, metric: string, sec: int)
    ensures PointsIn(rows + [row], metric, sec)
         == if PointOf(row, metric) && Trunc(row.p.time.value) == sec then PointsIn(rows, metric, sec) + [row.p]
            else PointsIn(rows, metric, sec)
  {
    assert (rows + [row])[..|rows|] == rows;
  }

  /** What a row that fills the second adds to the points of each metric. */
  lemma PointsFilled(rows: seq<Row>, row: Row, sec: int)
    requires Fills(row, sec)
    ensures forall m :: m != row.p.metric.value ==> PointsIn(rows + [row], m, sec) == PointsIn(rows, m, sec)
    ensures var m := row.p.metric.value; PointsIn(rows + [row], m, sec) == PointsIn(rows, m, sec) + [row.p]
  {
    forall m: string
      ensures PointsIn(rows + [row], m, sec)
           == if m == row.p.metric.value then PointsIn(rows, m, sec) + [row.p] else PointsIn(rows, m, sec)
    {
      PointsAppend(rows, row, m, sec);
    }
  }

  lemma EmptyBinIs(rows: seq<Row>, sec: int)
    requires forall metric :: PointsIn(rows, metric, sec) == []
    ensures BinIs(EmptyBin(), rows, sec)
  {
    hide PointsIn;
    assert HistOf(BUCKETS, []) == NewHist(BUCKETS);
    assert EmptyBin().iters == Iters(map[], map[], map[]) && EmptyBin().gauges == Gauges(0, 0, 0, 0, 0, 0, 0, 0);
  }

  lemma GaugesStep(g: Gauges, rows: seq<Row>, row: Row, sec: int)
    requires GaugesAre(g, rows, sec)
    requires Fills(row, sec)
    ensures GaugesAre(TallyGauges(g, KindOf(row.p.metric.value), Trunc(row.p.value.value)), rows + [row], sec)
  {
    hide KindOf, PointsIn, Amount, Peak, Values, Labelled;
    var metric := row.p.metric.value;
    KindByName(metric);
    PointsFilled(rows, row, sec);
    LastPoint(PointsIn(rows, metric, sec), row.p);
  }

  lemma LatencyStep(l: Latency, rows: seq<Row>, row: Row, sec: int)
    requires ValidLatency(l) && LatencyIs(l, rows, sec)
    requires Fills(row, sec)
    ensures LatencyIs(TallyLatency(l, KindOf(row.p.metric.value), row.p.value.value), rows + [row], sec)
  {
    hide KindOf, PointsIn, Amount, Peak, Values, Labelled, HistAdd;
    var metric := row.p.metric.value;
    KindByName(metric);
    PointsFilled(rows, row, sec);
    var points := PointsIn(rows, metric, sec);
    LastPoint(points, row.p);
    HistOfLast(Values(points), row.p.value.value);
  }

  lemma HistOfLast(samples: seq<real>, v: real)
    ensures HistOf(BUCKETS, samples + [v]) == HistAdd(BUCKETS, HistOf(BUCKETS, samples), v)
  {
    assert (samples + [v])[..|samples|] == samples;
  }

  lemma ItersStep(i: Iters, rows: seq<Row>, row: Row, sec: int)
    requires ItersAre(i, rows, sec)
    requires Fills(row, sec)
    ensures ItersAre(TallyIters(i, KindOf(row.p.metric.value), row.p.tags), rows + [row], sec)
  {
    hide KindOf, PointsIn, Amount, Peak, Values, Labelled;
    var metric := row.p.metric.value;
    KindByName(metric);
    PointsFilled(rows, row, sec);
    LastPoint(PointsIn(rows, metric, sec), row.p);
  }

  lemma BinStep(b: Bin, rows: seq<Row>, row: Row, sec: int)
    requires ValidBin(b) && BinIs(b, rows, sec) && Fills(row, sec)
    ensures BinIs(Tally(b, KindOf(row.p.metric.value), row.p.value.value, row.p.tags), rows + [row], sec)
  {
    hide KindOf, TallyGauges, TallyIters, TallyLatency, GaugesAre, LatencyIs, ItersAre;
    GaugesStep(b.gauges, rows, row, sec);
    LatencyStep(b.latency, rows, row, sec);
    ItersStep(b.iters, rows, row, sec);
  }

  /** A row of another second, an incomplete row or a contract point adds to no other metric. */
  lemma PointsUnfilled(rows: seq<Row>, row: Row, sec: int)
    requires !Fills(row, sec)
    ensures forall m :: !(CompleteRow(row) && "cap_window_" <= row.p.metric.value && m == row.p.metric.value)
                        ==> PointsIn(rows + [row], m, sec) == PointsIn(rows, m, sec)
  {
    forall m: string
      ensures PointsIn(rows + [row], m, sec)
           == if PointOf(row, m) && Trunc(row.p.time.value) == sec then PointsIn(rows, m, sec) + [row.p]
              else PointsIn(rows, m, sec)
    {
      PointsAppend(rows, row, m, sec);
    }
  }

  lemma GaugesKept(g: Gauges, rows: seq<Row>, row: Row, sec: int)
    requires GaugesAre(g, rows, sec) && !Fills(row, sec)
    ensures GaugesAre(g, rows + [row], sec)
  {
    hide PointsIn, Amount, Peak, KindOf;
    PointsUnfilled(rows, row, sec);
    if CompleteRow(row) {
      KindByName(row.p.metric.value);
    }
  }

  lemma LatencyKept(l: Latency, rows: seq<Row>, row: Row, sec: int)
    requires LatencyIs(l, rows, sec) && !Fills(row, sec)
    ensures LatencyIs(l, rows + [row], sec)
  {
    hide PointsIn, Values, HistOf, KindOf;
    PointsUnfilled(rows, row, sec);
    if CompleteRow(row) {
      KindByName(row.p.metric.value);
    }
  }

  lemma ItersKept(i: Iters, rows: seq<Row>, row: Row, sec: int)
    requires ItersAre(i, rows, sec) && !Fills(row, sec)
    ensures ItersAre(i, rows + [row], sec)
  {
    hide PointsIn, Labelled, KindOf;
    PointsUnfilled(rows, row, sec);
    if CompleteRow(row) {
      KindByName(row.p.metric.value);
    }
  }

  lemma OtherSecond(b: Bin, rows: seq<Row>, row: Row, sec: int)
    requires BinIs(b, rows, sec) && !Fills(row, sec)
    ensures BinIs(b, rows + [row], sec)
  {
    hide GaugesAre, LatencyIs, ItersAre;
    GaugesKept(b.gauges, rows, row, sec);
    LatencyKept(b.latency, rows, row, sec);
    ItersKept(b.iters, rows, row, sec);
  }

  /** Whether or not it exists yet, a second's bin is what the rows of that second say. */
  ghost predicate SecondIs(bins: map<int, Bin>, rows: seq<Row>, sec: int) {
    && (sec in bins <==> exists row :: row in rows && Fills(row, sec))
    && BinIs(BinAt(bins, sec), rows, sec)
  }

  lemma SecondStep(s: Series, rows: seq<Row>, row: Row, sec: int)
    requires ValidBins(s.bins) && SecondIs(s.bins, rows, sec)
    ensures SecondIs(OnRow(s, row).bins, rows + [row], sec)
  {
    hide BinIs, Tally, KindOf, EmptyBin;
    assert forall r :: r in rows + [row] <==> r in rows || r == row;
    EmptyBinValid();
    if Fills(row, sec) {
      BinStep(BinAt(s.bins, sec), rows, row, sec);
    } else {
      OtherSecond(BinAt(s.bins, sec), rows, row, sec);
    }
  }

  lemma EmptyBinValid()
    ensures ValidBin(EmptyBin())
  {
  }

  lemma {:induction false} EverySecond(rows: seq<Row>, sec: int)
    ensures SecondIs(Run(rows).bins, rows, sec)
  {
    hide SecondIs, OnRow;
    if rows == [] {
      NoSecondsYet(sec);
    } else {
      var prefix, row := rows[..|rows| - 1], rows[|rows| - 1];
      EverySecond(prefix, sec);
      SecondStep(Run(prefix), prefix, row, sec);
      assert rows == prefix + [row];
    }
  }

  lemma NoSecondsYet(sec: int)
    ensures SecondIs(EmptySeries().bins, [], sec)
  {
    EmptyBinIs([], sec);
  }

  /** In every reachable state the seconds with a bin are those of the rows that are no contract
      point, and each gauge, iteration counter and histogram of such a bin is what the rows of that
      metric in that second add up to. */
  lemma BinsAreStream(rows: seq<Row>, sec: int)
    ensures sec in Run(rows).bins <==> exists row :: row in rows && Fills(row, sec)
    ensures sec in Run(rows).bins ==> BinIs(Run(rows).bins[sec], rows, sec)
  {
    hide Run, BinIs;
    EverySecond(rows, sec);
  }

  // ---------------------------------------------------------------------------
  // Points, errors and users

  /** A line that does not decode, or a point with a field missing. */
  predicate BrokenRow(row: Row) {
    row.Undecodable? || (row.PointRow? && (row.p.metric.None? || row.p.time.None? || row.p.value.None?))
  }

  function CompleteRows(rows: seq<Row>): nat {
    if rows == [] then 0 else CompleteRows(rows[..|rows| - 1]) + (if CompleteRow(rows[|rows| - 1]) then 1 else 0)
  }

  function BrokenRows(rows: seq<Row>): nat {
    if rows == [] then 0 else BrokenRows(rows[..|rows| - 1]) + (if BrokenRow(rows[|rows| - 1]) then 1 else 0)
  }

  /** `t` is the time of a complete row, and no complete row is earlier. */
  ghost predicate FirstTime(rows: seq<Row>, t: real) {
    && (exists row :: row in rows && CompleteRow(row) && row.p.time.value == t)
    && forall row :: row in rows && CompleteRow(row) ==> t <= row.p.time.value
  }

  ghost predicate LastTime(rows: seq<Row>, t: real) {
    && (exists row :: row in rows && CompleteRow(row) && row.p.time.value == t)
    && forall row :: row in rows && CompleteRow(row) ==> row.p.time.value <= t
  }

  ghost predicate SeenIs(seen: Seen, rows: seq<Row>) {
    && seen.points == CompleteRows(rows) && seen.parseErrors == BrokenRows(rows)
    && (seen.firstTs.None? <==> seen.lastTs.None?)
    && (seen.firstTs.None? ==> forall row :: row in rows ==> !CompleteRow(row))
    && (seen.firstTs.Some? ==> FirstTime(rows, seen.firstTs.value))
    && (seen.lastTs.Some? ==> LastTime(rows, seen.lastTs.value))
    && (forall vu :: vu in seen.vus <==> exists row :: row in rows && CompleteRow(row) && row.p.tags.vu == Some(vu))
  }

  lemma SeenStep(seen: Seen, rows: seq<Row>, row: Row)
    requires SeenIs(seen, rows) && CompleteRow(row)
    ensures SeenIs(Observe(seen, row.p.time.value, row.p.tags), rows + [row])
  {
    assert forall r :: r in rows + [row] <==> r in rows || r == row;
    assert (rows + [row])[..|rows|] == rows;
  }

  lemma UnseenStep(seen: Seen, rows: seq<Row>, row: Row)
    requires SeenIs(seen, rows) && !CompleteRow(row)
    ensures SeenIs(seen.(parseErrors := seen.parseErrors + if BrokenRow(row) then 1 else 0), rows + [row])
  {
    assert forall r :: r in rows + [row] <==> r in rows || r == row;
    assert (rows + [row])[..|rows|] == rows;
  }

  /** Points and errors counted, the first and last time, and the users seen are those of the rows. */
  lemma {:induction false} SeenIsStream(rows: seq<Row>)
    ensures SeenIs(Run(rows).seen, rows)
  {
    hide SeenIs, OnKind, Observe, KindOf;
    if rows == [] {
      NothingSeenYet();
    } else {
      var prefix, row := rows[..|rows| - 1], rows[|rows| - 1];
      SeenIsStream(prefix);
      assert rows == prefix + [row];
      if CompleteRow(row) {
        SeenStep(Run(prefix).seen, prefix, row);
        ObservedOnKind(Run(prefix), KindOf(row.p.metric.value), row.p);
      } else {
        UnseenStep(Run(prefix).seen, prefix, row);
      }
    }
  }

  lemma ObservedOnKind(s: Series, kind: Kind, p: Point)
    requires ValidBins(s.bins) && p.time.Some? && p.value.Some?
    ensures OnKind(s, kind, p.time.value, p.value.value, p.tags).seen == Observe(s.seen, p.time.value, p.tags)
  {
  }

  lemma NothingSeenYet()
    ensures SeenIs(EmptySeries().seen, [])
  {
  }

  lemma {:induction false} NoBrokenRows(rows: seq<Row>)
    ensures BrokenRows(rows) == 0 <==> forall row :: row in rows ==> !BrokenRow(row)
  {
    if rows != [] {
      var prefix, row := rows[..|rows| - 1], rows[|rows| - 1];
      NoBrokenRows(prefix);
      assert forall r :: r in rows <==> r in prefix || r == row;
    }
  }

  // ---------------------------------------------------------------------------
  // When window.json and its cohort are valid

  ghost predicate Announced(rows: seq<Row>, field: string, v: real) {
    exists row :: row in rows && Announces(row, field, v)
  }

  ghost predicate SomethingAnnounced(rows: seq<Row>, field: string) {
    exists v :: Announced(rows, field, v)
  }

  ghost predicate NoTwoAnnounced(rows: seq<Row>, field: string) {
    forall v, w :: Announced(rows, field, v) && Announced(rows, field, w) ==> v == w
  }

  /** The stream's window contract is complete, free of contradiction and of broken lines, spans a
      positive stretch and vouches for the clock. */
  ghost predicate ContractAgreed(rows: seq<Row>) {
    && SomethingAnnounced(rows, "scenario_start_ms") && SomethingAnnounced(rows, "measure_start_ms")
    && SomethingAnnounced(rows, "measure_end_ms") && SomethingAnnounced(rows, "duration_ms")
    && (forall field :: NoTwoAnnounced(rows, field))
    && (forall v, w :: Announced(rows, "measure_start_ms", v) && Announced(rows, "measure_end_ms", w) ==> v < w)
    && (forall row :: row in rows ==> !BrokenRow(row))
    && (forall v :: Announced(rows, "clock_ok", v) <==> v == 1.0)
  }

  lemma FieldIsAnnounced(rows: seq<Row>, field: string)
    ensures forall v :: v in FieldValues(Run(rows).contract.fields, field) <==> Announced(rows, field, v)
    ensures FieldValues(Run(rows).contract.fields, field) != {} <==> SomethingAnnounced(rows, field)
    ensures |FieldValues(Run(rows).contract.fields, field)| <= 1 <==> NoTwoAnnounced(rows, field)
  {
    hide Run, FieldValues, Announces;
    var values := FieldValues(Run(rows).contract.fields, field);
    forall v: real
      ensures v in values <==> Announced(rows, field, v)
    {
      FieldsAreAnnouncements(rows, field, v);
    }
    if values != {} {
      var v := SomeMember(values);
      assert Announced(rows, field, v);
    }
    AtMostOne(values);
  }

  lemma AtMostOne(s: set<real>)
    ensures |s| <= 1 <==> forall v, w :: v in s && w in s ==> v == w
  {
    if |s| == 1 {
      SingletonMember(s);
    } else if |s| > 1 {
      var v := SomeMember(s);
      assert |s - {v}| == |s| - 1;
      var w := SomeMember(s - {v});
      assert v in s && w in s && v != w;
    }
  }

  lemma FieldsAreSingle(fields: map<string, set<real>>)
    ensures (forall f :: f in fields ==> |fields[f]| <= 1) <==> forall f :: |FieldValues(fields, f)| <= 1
  {
    if forall f :: |FieldValues(fields, f)| <= 1 {
      forall f | f in fields
        ensures |fields[f]| <= 1
      {
        assert |FieldValues(fields, f)| <= 1;
      }
    }
  }

  lemma JustOne(s: set<real>, x: real)
    ensures s == {x} <==> forall v :: v in s <==> v == x
  {
    if forall v :: v in s <==> v == x {
      assert forall v :: v in s <==> v in {x};
    }
  }

  /** window.json is published as valid exactly when the rows agree on a usable contract. */
  lemma WindowValidIff(rows: seq<Row>)
    ensures WindowValid(Run(rows)) <==> ContractAgreed(rows)
  {
    hide Run, Announced, SomethingAnnounced, NoTwoAnnounced, BrokenRow, FieldValues;
    var fields := Run(rows).contract.fields;
    forall field: string
      ensures |FieldValues(fields, field)| <= 1 <==> NoTwoAnnounced(rows, field)
    {
      FieldIsAnnounced(rows, field);
    }
    FieldsAreSingle(fields);
    FieldIsAnnounced(rows, "scenario_start_ms");
    FieldIsAnnounced(rows, "measure_start_ms");
    FieldIsAnnounced(rows, "measure_end_ms");
    FieldIsAnnounced(rows, "duration_ms");
    FieldIsAnnounced(rows, "clock_ok");
    assert BOUNDS_FIELDS[0] == "scenario_start_ms" && BOUNDS_FIELDS[1] == "measure_start_ms";
    assert BOUNDS_FIELDS[2] == "measure_end_ms" && BOUNDS_FIELDS[3] == "duration_ms";
    JustOne(FieldValues(fields, "clock_ok"), 1.0);
    assert |BOUNDS_FIELDS| == 4;
    SeenIsStream(rows);
    NoBrokenRows(rows);
    assert Run(rows).seen.parseErrors == 0 <==> forall row :: row in rows ==> !BrokenRow(row);
  }

  /** The window still open after these rows, and more than 100000 drops among them. */
  ghost predicate Crowded(rows: seq<Row>) {
    Run(rows).contract.window.None? && |DropsOf(rows)| > 100_000
  }

  lemma OverflowStep(s: Series, row: Row)
    requires ValidBins(s.bins) && OnRow(s, row).contract.window.Some?
    ensures OnRow(s, row).drops.overflow == s.drops.overflow
  {
    hide KindOf, AddContract;
    if row.PointRow? && Complete(row.p) {
      var kind, v := KindOf(row.p.metric.value), row.p.value.value;
      if kind.Dropped? {
        OnlyContractsResolve(s.contract, kind, v);
      } else {
        var after := AddContract(s.contract, kind, v).window;
        if after.Some? {
          ClassifyAllSums(s.drops, after.value, s.drops.pending);
        }
      }
    }
  }

  lemma OnlyContractsResolve(c: ContractState, kind: Kind, v: real)
    requires !kind.Contract?
    ensures AddContract(c, kind, v) == c
  {
  }

  /** The buffer overflowed exactly when some prefix of the stream, its window still open, held
      more than 100000 drops. */
  lemma {:induction false} OverflowIff(rows: seq<Row>)
    ensures Run(rows).drops.overflow <==> exists k: nat :: k <= |rows| && Crowded(rows[..k])
  {
    hide OnRow, Classified;
    RunAccounted(rows);
    assert rows[..|rows|] == rows;
    if rows == [] {
      assert forall k: nat :: k <= |rows| ==> rows[..k] == [];
    } else {
      var prefix := rows[..|rows| - 1];
      OverflowIff(prefix);
      assert forall k: nat :: k <= |prefix| ==> rows[..k] == prefix[..k];
      if Run(rows).contract.window.Some? {
        OverflowStep(Run(prefix), rows[|rows| - 1]);
      } else {
        RunAccounted(prefix);
        if Run(prefix).contract.window.Some? {
          WindowStable(rows, |prefix|);
        }
        assert |DropsOf(rows)| >= |DropsOf(prefix)|;
      }
    }
  }

  /** The analyzer vouches for window and cohort exactly when the rows agree on a usable contract,
      every measured iteration that began has ended, and the drops never outgrew the buffer. */
  lemma PublishedAsValidIff(rows: seq<Row>)
    ensures WindowValid(Run(rows)) && EmitCohort(Run(rows)).valid
       <==> && ContractAgreed(rows) && Begun(rows) == Ended(rows)
            && forall k: nat :: k <= |rows| ==> !Crowded(rows[..k])
  {
    hide Run, ContractAgreed, Crowded, Begun, Ended, WindowFromFields;
    WindowValidIff(rows);
    OverflowIff(rows);
    CohortIsStream(rows, "");
    OutcomesAddUp(rows);
    NothingWaits(rows);
    if WindowValid(Run(rows)) {
      ValidWindowResolves(rows);
    }
  }

  lemma NothingWaits(rows: seq<Row>)
    ensures Run(rows).contract.window.Some? ==> Run(rows).drops.pending == []
  {
    hide Run;
    RunAccounted(rows);
  }

  lemma ValidWindowResolves(rows: seq<Row>)
    requires WindowValid(Run(rows))
    ensures Run(rows).contract.window.Some?
  {
    hide Run;
    RunFromFields(rows);
    assert BOUNDS_FIELDS[1] == "measure_start_ms" && BOUNDS_FIELDS[2] == "measure_end_ms";
  }
}
