/** Write-ahead-log counters: deltas that never cross a reset, and the peak volume inside any
    stretch of wall-clock time (perf/tools/checkpoint_analyze.py, wal_deltas,
    rolling_time_volume). */
module WalVolume {
  import opened Common

  /** The counter columns that are differenced; the first is wal_bytes. */
  const COLUMNS: nat := 6
  const MAX_GAP: real := 5.0

  /** One observer row; a row without counters or time stamp breaks continuity. */
  datatype Row = Gap | Row(ts: real, reset: Option<string>, columns: seq<Option<real>>)

  datatype Delta = Delta(t0: real, t1: real, values: seq<Option<real>>)

  ghost predicate ValidRows(rows: seq<Row>) {
    forall i :: 0 <= i < |rows| && rows[i].Row? ==> |rows[i].columns| == COLUMNS
  }

  /** The counters of `q` may be differenced against those of `p`. */
  predicate Linked(p: Row, q: Row) {
    && p.Row? && q.Row? && |p.columns| == |q.columns| == COLUMNS
    && p.reset == q.reset
    && p.columns[0].Some? && q.columns[0].Some? && p.columns[0].value <= q.columns[0].value
    && 0.0 < q.ts - p.ts <= MAX_GAP
  }

  /** A column that is absent or went backwards has no delta. */
  function ColumnDelta(p: Option<real>, q: Option<real>): Option<real> {
    if p.None? || q.None? || q.value < p.value then None else Some(q.value - p.value)
  }

  function DeltaOf(p: Row, q: Row): Delta
    requires Linked(p, q)
  {
    Delta(p.ts, q.ts, seq(COLUMNS, k requires 0 <= k < COLUMNS => ColumnDelta(p.columns[k], q.columns[k])))
  }

  /** One delta for each pair of neighbouring rows that can be differenced. */
  function Deltas(rows: seq<Row>): seq<Delta> {
    if |rows| < 2 then []
    else
      var p, q := rows[|rows| - 2], rows[|rows| - 1];
      Deltas(rows[..|rows| - 1]) + (if Linked(p, q) then [DeltaOf(p, q)] else [])
  }

  /** One break for each row with counters that its successor cannot be differenced against. */
  function Breaks(rows: seq<Row>): nat {
    if |rows| < 2 then 0
    else
      var p, q := rows[|rows| - 2], rows[|rows| - 1];
      Breaks(rows[..|rows| - 1]) + (if p.Row? && !Linked(p, q) then 1 else 0)
  }

  method WalDeltas(rows: seq<Row>) returns (deltas: seq<Delta>, breaks: nat)
    requires ValidRows(rows)
    ensures deltas == Deltas(rows) && breaks == Breaks(rows)
  {
    deltas, breaks := [], 0;
    var prev := Gap;
    for i := 0 to |rows|
      invariant deltas == Deltas(rows[..i]) && breaks == Breaks(rows[..i])
      invariant prev == if i == 0 then Gap else rows[i - 1]
    {
      assert rows[..i + 1][..i] == rows[..i];
      var r := rows[i];
      if r.Gap? {
        if prev.Row? {
          breaks := breaks + 1;
        }
        prev := Gap;
        continue;
      }
      if prev.Row? {
        if Linked(prev, r) {
          deltas := deltas + [DeltaOf(prev, r)];
        } else {
          breaks := breaks + 1;
        }
      }
      prev := r;
    }
    assert rows[..|rows|] == rows;
  }

  // ---------------------------------------------------------------------------
  // What the deltas are

  /** `q` continues `p`: both have counters, their reset stamps are equal, both byte counters are there
      and did not fall, and at most five seconds passed. */
  ghost predicate Continues(p: Row, q: Row) {
    && p.Row? && q.Row? && |p.columns| == 6 && |q.columns| == 6
    && p.reset == q.reset
    && p.columns[0].Some? && q.columns[0].Some? && p.columns[0].value <= q.columns[0].value
    && 0.0 < q.ts - p.ts && q.ts - p.ts <= 5.0
  }

  /** The delta spans the two rows and holds, column by column, how much the counter grew, or nothing
      where a counter is missing or fell. */
  ghost predicate Spans(d: Delta, p: Row, q: Row) {
    && p.Row? && q.Row? && |p.columns| == |q.columns| == |d.values| == 6
    && d.t0 == p.ts && d.t1 == q.ts
    && forall k :: 0 <= k < 6 ==>
         && (d.values[k].Some? <==> p.columns[k].Some? && q.columns[k].Some? && p.columns[k].value <= q.columns[k].value)
         && (d.values[k].Some? ==> p.columns[k].value + d.values[k].value == q.columns[k].value)
  }

  lemma LinkedContinues(p: Row, q: Row)
    ensures Linked(p, q) <==> Continues(p, q)
    ensures Linked(p, q) ==> Spans(DeltaOf(p, q), p, q)
  {
  }

  /** Each delta stems from a row that continues its predecessor, and spans the two. */
  lemma {:induction false} DeltaOrigin(rows: seq<Row>, e: nat) returns (i: nat)
    requires e < |Deltas(rows)|
    ensures 0 < i < |rows| && Continues(rows[i - 1], rows[i]) && Spans(Deltas(rows)[e], rows[i - 1], rows[i])
  {
    hide Linked, DeltaOf, Continues, Spans;
    var prefix := rows[..|rows| - 1];
    if e < |Deltas(prefix)| {
      i := DeltaOrigin(prefix, e);
    } else {
      i := |rows| - 1;
      LinkedContinues(rows[i - 1], rows[i]);
    }
  }

  ghost predicate Ascending(s: seq<nat>) {
    forall a, b :: 0 <= a < b < |s| ==> s[a] < s[b]
  }

  ghost predicate ContinuesAt(rows: seq<Row>, i: nat) {
    0 < i < |rows| && Continues(rows[i - 1], rows[i])
  }

  ghost predicate BreaksAt(rows: seq<Row>, i: nat) {
    0 < i < |rows| && rows[i - 1].Row? && !Continues(rows[i - 1], rows[i])
  }

  ghost predicate SpansAt(d: Delta, rows: seq<Row>, i: nat) {
    0 < i < |rows| && Spans(d, rows[i - 1], rows[i])
  }

  lemma LastNeighbours(rows: seq<Row>)
    requires |rows| >= 2
    ensures var prefix, last := rows[..|rows| - 1], |rows| - 1;
            && (forall i: nat :: ContinuesAt(rows, i) <==> ContinuesAt(prefix, i) || (i == last && ContinuesAt(rows, last)))
            && (forall i: nat :: BreaksAt(rows, i) <==> BreaksAt(prefix, i) || (i == last && BreaksAt(rows, last)))
            && (forall d, i: nat :: SpansAt(d, prefix, i) ==> SpansAt(d, rows, i))
            && (forall i: nat :: ContinuesAt(prefix, i) || BreaksAt(prefix, i) ==> i < last)
  {
    hide Continues, Spans;
  }

  /** The deltas are, in order, those of all rows that continue their predecessor. */
  lemma {:induction false} DeltasComplete(rows: seq<Row>) returns (origins: seq<nat>)
    ensures |origins| == |Deltas(rows)| && Ascending(origins)
    ensures forall i :: i in origins <==> ContinuesAt(rows, i)
    ensures forall e :: 0 <= e < |origins| ==> SpansAt(Deltas(rows)[e], rows, origins[e])
  {
    hide Linked, DeltaOf, Continues, Spans;
    origins := [];
    if |rows| >= 2 {
      var last := |rows| - 1;
      origins := DeltasComplete(rows[..last]);
      LastNeighbours(rows);
      LinkedContinues(rows[last - 1], rows[last]);
      if ContinuesAt(rows, last) {
        origins := Extended(origins, last);
      }
    }
  }

  lemma Extended(s: seq<nat>, last: nat) returns (t: seq<nat>)
    requires Ascending(s) && forall i :: i in s ==> i < last
    ensures t == s + [last] && Ascending(t) && forall i :: i in t <==> i in s || i == last
  {
    t := s + [last];
    assert forall a :: 0 <= a < |s| ==> s[a] in s;
  }

  /** The breaks count the rows with counters whose successor does not continue them. */
  lemma {:induction false} BreaksCounted(rows: seq<Row>) returns (broken: set<nat>)
    ensures |broken| == Breaks(rows)
    ensures forall i :: i in broken <==> BreaksAt(rows, i)
  {
    hide Linked, Continues;
    broken := {};
    if |rows| >= 2 {
      var last := |rows| - 1;
      broken := BreaksCounted(rows[..last]);
      LastNeighbours(rows);
      LinkedContinues(rows[last - 1], rows[last]);
      if BreaksAt(rows, last) {
        assert last !in broken;
        broken := broken + {last};
      }
    }
  }

  ghost predicate NonNegative(ds: seq<Delta>) {
    forall e, k :: 0 <= e < |ds| && 0 <= k < |ds[e].values| && ds[e].values[k].Some? ==> ds[e].values[k].value >= 0.0
  }

  lemma DeltasNonNegative(rows: seq<Row>)
    ensures NonNegative(Deltas(rows))
    ensures forall e :: 0 <= e < |Deltas(rows)| ==>
              |Deltas(rows)[e].values| == COLUMNS && Deltas(rows)[e].values[0].Some?
  {
    forall e | 0 <= e < |Deltas(rows)|
      ensures |Deltas(rows)[e].values| == COLUMNS && Deltas(rows)[e].values[0].Some?
      ensures forall k :: 0 <= k < COLUMNS && Deltas(rows)[e].values[k].Some? ==> Deltas(rows)[e].values[k].value >= 0.0
    {
      var i := DeltaOrigin(rows, e);
    }
  }

  /** Time stamps never go back. */
  ghost predicate Chronological(rows: seq<Row>) {
    forall i, j :: 0 <= i < j < |rows| && rows[i].Row? && rows[j].Row? ==> rows[i].ts <= rows[j].ts
  }

  ghost predicate Ordered(ds: seq<Delta>) {
    forall e, f :: 0 <= e < f < |ds| ==> ds[e].t1 < ds[f].t1
  }

  lemma {:induction false} DeltasBefore(rows: seq<Row>, e: nat)
    requires Chronological(rows) && e < |Deltas(rows)| && rows != [] && rows[|rows| - 1].Row?
    ensures Deltas(rows)[e].t1 <= rows[|rows| - 1].ts
  {
    var i := DeltaOrigin(rows, e);
    assert i < |rows| - 1 ==> rows[i].ts <= rows[|rows| - 1].ts;
  }

  lemma {:induction false} DeltasOrdered(rows: seq<Row>)
    requires Chronological(rows)
    ensures Ordered(Deltas(rows))
  {
    if |rows| >= 2 {
      var prefix := rows[..|rows| - 1];
      DeltasOrdered(prefix);
      if Linked(rows[|rows| - 2], rows[|rows| - 1]) {
        forall e | 0 <= e < |Deltas(prefix)|
          ensures Deltas(prefix)[e].t1 < rows[|rows| - 1].ts
        {
          DeltasBefore(prefix, e);
        }
      }
    }
  }

  /** Volume of column k over the deltas [i, j); unavailable volumes count as none. */
  function Volume(ds: seq<Delta>, k: nat, i: nat, j: nat): real
    requires i <= j <= |ds| && forall e :: 0 <= e < |ds| ==> k < |ds[e].values|
  {
    if i == j then 0.0 else Volume(ds, k, i, j - 1) + ds[j - 1].values[k].GetOr(0.0)
  }

  lemma {:induction false} VolumePrefix(ds: seq<Delta>, ds': seq<Delta>, k: nat, i: nat, j: nat)
    requires i <= j <= |ds| && ds <= ds' && forall e :: 0 <= e < |ds'| ==> k < |ds'[e].values|
    ensures Volume(ds, k, i, j) == Volume(ds', k, i, j)
  {
    if i < j {
      VolumePrefix(ds, ds', k, i, j - 1);
    }
  }

  /** With no break the byte deltas telescope: together they are the growth of the counter. */
  lemma {:induction false} UnbrokenBytes(rows: seq<Row>)
    requires rows != [] && Breaks(rows) == 0
    requires forall i :: 0 <= i < |rows| ==> rows[i].Row? && |rows[i].columns| == COLUMNS && rows[i].columns[0].Some?
    ensures |Deltas(rows)| == |rows| - 1
    ensures forall e :: 0 <= e < |Deltas(rows)| ==> |Deltas(rows)[e].values| == COLUMNS
    ensures Volume(Deltas(rows), 0, 0, |rows| - 1) == rows[|rows| - 1].columns[0].value - rows[0].columns[0].value
  {
    if |rows| >= 2 {
      var prefix := rows[..|rows| - 1];
      UnbrokenBytes(prefix);
      VolumePrefix(Deltas(prefix), Deltas(rows), 0, 0, |prefix| - 1);
    }
  }

  // ---------------------------------------------------------------------------
  // Peak volume in a time window

  /** Volume of the first n deltas that end after `lo`. */
  function VolumeAfter(ds: seq<Delta>, k: nat, n: nat, lo: real): real
    requires n <= |ds| && forall e :: 0 <= e < |ds| ==> k < |ds[e].values|
  {
    if n == 0 then 0.0
    else VolumeAfter(ds, k, n - 1, lo) + (if ds[n - 1].t1 > lo then ds[n - 1].values[k].GetOr(0.0) else 0.0)
  }

  /** Volume of the window of the given width that ends with delta i. */
  function WindowVolume(ds: seq<Delta>, k: nat, i: nat, width: real): real
    requires i < |ds| && forall e :: 0 <= e < |ds| ==> k < |ds[e].values|
  {
    VolumeAfter(ds, k, i + 1, ds[i].t1 - width)
  }

  lemma {:induction false} VolumeFrom(ds: seq<Delta>, k: nat, j: nat, n: nat, lo: real)
    requires j <= n <= |ds| && forall e :: 0 <= e < |ds| ==> k < |ds[e].values|
    requires forall e :: 0 <= e < j ==> ds[e].t1 <= lo
    requires forall e :: j <= e < n ==> ds[e].t1 > lo
    ensures VolumeAfter(ds, k, n, lo) == Volume(ds, k, j, n)
  {
    if n > j {
      VolumeFrom(ds, k, j, n - 1, lo);
    } else if n > 0 {
      VolumeFrom(ds, k, n - 1, n - 1, lo);
    }
  }

  lemma {:induction false} VolumeDropFirst(ds: seq<Delta>, k: nat, j: nat, n: nat)
    requires j < n <= |ds| && forall e :: 0 <= e < |ds| ==> k < |ds[e].values|
    ensures Volume(ds, k, j, n) == ds[j].values[k].GetOr(0.0) + Volume(ds, k, j + 1, n)
  {
    if j + 1 < n {
      VolumeDropFirst(ds, k, j, n - 1);
    }
  }

  ghost predicate HasColumn(ds: seq<Delta>, k: nat) {
    forall e :: 0 <= e < |ds| ==> k < |ds[e].values|
  }

  /** Some delta before n has a known volume. */
  ghost predicate Known(ds: seq<Delta>, k: nat, n: nat)
    requires HasColumn(ds, k) && n <= |ds|
  {
    exists e :: 0 <= e < n && ds[e].values[k].Some?
  }

  /** `best` is the largest window volume among the windows that end where a volume is known to
      have been seen. */
  ghost predicate IsPeak(ds: seq<Delta>, k: nat, width: real, n: nat, best: Option<real>)
    requires HasColumn(ds, k) && n <= |ds|
  {
    if best.None? then !Known(ds, k, n)
    else
      && Known(ds, k, n)
      && (forall i :: 0 <= i < n && Known(ds, k, i + 1) ==> WindowVolume(ds, k, i, width) <= best.value)
      && exists i :: 0 <= i < n && Known(ds, k, i + 1) && WindowVolume(ds, k, i, width) == best.value
  }

  lemma ExtendPeak(ds: seq<Delta>, k: nat, width: real, i: nat, best: Option<real>)
    requires HasColumn(ds, k) && i < |ds| && IsPeak(ds, k, width, i, best)
    ensures var acc := WindowVolume(ds, k, i, width);
            var have := Known(ds, k, i + 1);
            IsPeak(ds, k, width, i + 1, if have && (best.None? || acc > best.value) then Some(acc) else best)
  {
    hide WindowVolume;
    assert Known(ds, k, i) ==> Known(ds, k, i + 1);
    assert Known(ds, k, i + 1) <==> Known(ds, k, i) || ds[i].values[k].Some?;
  }

  /** Volume over [j, n), negative where j has run ahead of n. */
  function SignedVolume(ds: seq<Delta>, k: nat, j: nat, n: nat): real
    requires j <= |ds| && n <= |ds| && HasColumn(ds, k)
  {
    if j <= n then Volume(ds, k, j, n) else -Volume(ds, k, n, j)
  }

  lemma SignedVolumeSteps(ds: seq<Delta>, k: nat, j: nat, n: nat)
    requires j <= |ds| && n <= |ds| && HasColumn(ds, k)
    ensures j < |ds| ==> SignedVolume(ds, k, j + 1, n) == SignedVolume(ds, k, j, n) - ds[j].values[k].GetOr(0.0)
    ensures n < |ds| ==> SignedVolume(ds, k, j, n + 1) == SignedVolume(ds, k, j, n) + ds[n].values[k].GetOr(0.0)
  {
    if j < n {
      VolumeDropFirst(ds, k, j, n);
    } else if n < j {
      VolumeDropFirst(ds, k, n, j);
    }
  }

  /** Move the left end past every delta that ended by `lo`, taking its volume off again. */
  method DropExpired(ds: seq<Delta>, k: nat, from: nat, n: nat, lo: real, volume: real) returns (j: nat, acc: real)
    requires HasColumn(ds, k) && from <= |ds| && n <= |ds| && volume == SignedVolume(ds, k, from, n)
    ensures from <= j <= |ds| && (j < |ds| ==> ds[j].t1 > lo)
    ensures forall e :: from <= e < j ==> ds[e].t1 <= lo
    ensures acc == SignedVolume(ds, k, j, n)
  {
    j, acc := from, volume;
    while j < |ds| && ds[j].t1 <= lo
      invariant from <= j <= |ds|
      invariant forall e :: from <= e < j ==> ds[e].t1 <= lo
      invariant acc == SignedVolume(ds, k, j, n)
    {
      SignedVolumeSteps(ds, k, j, n);
      if ds[j].values[k].Some? {
        acc := acc - ds[j].values[k].value;
      }
      j := j + 1;
    }
  }

  lemma NoPeak(ds: seq<Delta>, k: nat, width: real)
    requires HasColumn(ds, k)
    ensures IsPeak(ds, k, width, 0, None)
  {
  }

  lemma WindowIsRange(ds: seq<Delta>, k: nat, i: nat, j: nat, width: real)
    requires HasColumn(ds, k) && Ordered(ds) && j <= i < |ds| && ds[j].t1 > ds[i].t1 - width
    requires forall e :: 0 <= e < j ==> ds[e].t1 <= ds[i].t1 - width
    ensures WindowVolume(ds, k, i, width) == SignedVolume(ds, k, j, i + 1)
  {
    VolumeFrom(ds, k, j, i + 1, ds[i].t1 - width);
  }

  /** The two-pointer scan. A positive width keeps it inside the list. On deltas in time order it runs
      off the list exactly when the width is not positive and there is something to scan, and
      otherwise reports the peak. */
  method RollingTimeVolume(ds: seq<Delta>, k: nat, width: real) returns (r: Result<Option<real>>)
    requires HasColumn(ds, k)
    ensures width > 0.0 ==> r.Ok?
    ensures Ordered(ds) ==> (r.Err? <==> width <= 0.0 && ds != [])
    ensures Ordered(ds) && r.Ok? ==> IsPeak(ds, k, width, |ds|, r.value)
  {
    hide IsPeak, WindowVolume, SignedVolume;
    var best: Option<real>, j, acc, have := None, 0, 0.0, false;
    NoPeak(ds, k, width);
    assert acc == SignedVolume(ds, k, 0, 0) by { SignedNone(ds, k); }
    for i := 0 to |ds|
      invariant 0 <= j <= |ds| && have == Known(ds, k, i)
      invariant acc == SignedVolume(ds, k, j, i)
      invariant width > 0.0 ==> j <= i
      invariant width > 0.0 && Ordered(ds) ==> IsPeak(ds, k, width, i, best)
      invariant Ordered(ds) && i > 0 ==> forall e :: 0 <= e < j ==> ds[e].t1 <= ds[i - 1].t1 - width
      invariant i == 0 ==> j == 0 && best.None?
      invariant Ordered(ds) && width <= 0.0 && i > 0 ==> i <= j < |ds|
    {
      var d := ds[i];
      assert Known(ds, k, i + 1) <==> Known(ds, k, i) || d.values[k].Some?;
      SignedVolumeSteps(ds, k, j, i);
      if d.values[k].Some? {
        acc := acc + d.values[k].value;
        have := true;
      }
      ghost var from := j;
      j, acc := DropExpired(ds, k, j, i + 1, d.t1 - width, acc);
      assert width > 0.0 ==> !(from <= i < j);
      if j == |ds| {
        return Err;
      }
      if Ordered(ds) && width > 0.0 {
        WindowIsRange(ds, k, i, j, width);
        ExtendPeak(ds, k, width, i, best);
      }
      if have && (best.None? || acc > best.value) {
        best := Some(acc);
      }
    }
    r := Ok(best);
  }

  lemma SignedNone(ds: seq<Delta>, k: nat)
    requires HasColumn(ds, k)
    ensures SignedVolume(ds, k, 0, 0) == 0.0
  {
  }

  // ---------------------------------------------------------------------------
  // The peak bounds every stretch of time

  /** Volume of the first n deltas that end in (x, x + width]. */
  function VolumeIn(ds: seq<Delta>, k: nat, n: nat, x: real, width: real): real
    requires n <= |ds| && HasColumn(ds, k)
  {
    if n == 0 then 0.0
    else
      VolumeIn(ds, k, n - 1, x, width) +
      (if x < ds[n - 1].t1 <= x + width then ds[n - 1].values[k].GetOr(0.0) else 0.0)
  }

  lemma {:induction false} AfterGrows(ds: seq<Delta>, k: nat, n: nat, lo: real, lo': real)
    requires n <= |ds| && HasColumn(ds, k) && NonNegative(ds) && lo' <= lo
    ensures 0.0 <= VolumeAfter(ds, k, n, lo) <= VolumeAfter(ds, k, n, lo')
  {
    if n > 0 {
      AfterGrows(ds, k, n - 1, lo, lo');
    }
  }

  /** A stretch of time holds no more than the window that ends with its last delta. */
  lemma {:induction false} StretchBelowWindow(ds: seq<Delta>, k: nat, n: nat, x: real, width: real, best: real)
    requires n <= |ds| && HasColumn(ds, k) && NonNegative(ds) && Ordered(ds) && width > 0.0 && best >= 0.0
    requires forall i :: 0 <= i < n ==> WindowVolume(ds, k, i, width) <= best
    ensures VolumeIn(ds, k, n, x, width) <= best
  {
    if n > 0 {
      if ds[n - 1].t1 <= x + width {
        AllEndByNow(ds, k, n, x, width);
        AfterGrows(ds, k, n, x, ds[n - 1].t1 - width);
        assert WindowVolume(ds, k, n - 1, width) <= best;
      } else {
        StretchBelowWindow(ds, k, n - 1, x, width, best);
      }
    }
  }

  lemma {:induction false} AllEndByNow(ds: seq<Delta>, k: nat, n: nat, x: real, width: real)
    requires n <= |ds| && HasColumn(ds, k) && forall e :: 0 <= e < n ==> ds[e].t1 <= x + width
    ensures VolumeIn(ds, k, n, x, width) == VolumeAfter(ds, k, n, x)
  {
    if n > 0 {
      AllEndByNow(ds, k, n - 1, x, width);
    }
  }

  lemma {:induction false} UnknownIsZero(ds: seq<Delta>, k: nat, n: nat, lo: real)
    requires n <= |ds| && HasColumn(ds, k) && !Known(ds, k, n)
    ensures VolumeAfter(ds, k, n, lo) == 0.0
  {
    if n > 0 {
      UnknownIsZero(ds, k, n - 1, lo);
    }
  }

  lemma {:induction false} LaterEndsDropOut(ds: seq<Delta>, k: nat, i: nat, n: nat, width: real)
    requires i < n <= |ds| && HasColumn(ds, k) && Ordered(ds)
    ensures VolumeIn(ds, k, n, ds[i].t1 - width, width) == WindowVolume(ds, k, i, width)
  {
    if n == i + 1 {
      AllEndByNow(ds, k, n, ds[i].t1 - width, width);
    } else {
      LaterEndsDropOut(ds, k, i, n - 1, width);
    }
  }

  /** Windows in which nothing is known are empty, so the peak bounds all windows. */
  lemma PeakBoundsWindows(ds: seq<Delta>, k: nat, width: real, best: real, m: nat)
    requires HasColumn(ds, k) && NonNegative(ds) && IsPeak(ds, k, width, |ds|, Some(best)) && m < |ds|
    ensures 0.0 <= best && WindowVolume(ds, k, m, width) <= best
  {
    var i :| 0 <= i < |ds| && Known(ds, k, i + 1) && WindowVolume(ds, k, i, width) == best;
    AfterGrows(ds, k, i + 1, ds[i].t1 - width, ds[i].t1 - width);
    if !Known(ds, k, m + 1) {
      UnknownIsZero(ds, k, m + 1, ds[m].t1 - width);
    }
  }

  lemma PeakBoundsStretch(ds: seq<Delta>, k: nat, width: real, best: real, x: real)
    requires ds != [] && HasColumn(ds, k) && NonNegative(ds) && Ordered(ds) && width > 0.0
    requires IsPeak(ds, k, width, |ds|, Some(best))
    ensures VolumeIn(ds, k, |ds|, x, width) <= best
  {
    hide WindowVolume, IsPeak, VolumeIn;
    forall m | 0 <= m < |ds|
      ensures WindowVolume(ds, k, m, width) <= best && 0.0 <= best
    {
      PeakBoundsWindows(ds, k, width, best, m);
    }
    assert WindowVolume(ds, k, 0, width) <= best;
    StretchBelowWindow(ds, k, |ds|, x, width, best);
  }

  /** `best` is the true peak over the deltas: no stretch of the given width of wall-clock time holds
      more, some stretch holds exactly as much, and it is unavailable only when every volume is. */
  ghost predicate TruePeak(ds: seq<Delta>, k: nat, width: real, best: Option<real>)
    requires HasColumn(ds, k)
  {
    && (best.None? <==> forall e :: 0 <= e < |ds| ==> ds[e].values[k].None?)
    && (best.Some? ==>
          && (forall x: real :: VolumeIn(ds, k, |ds|, x, width) <= best.value)
          && exists x: real :: VolumeIn(ds, k, |ds|, x, width) == best.value)
  }

  lemma PeakIsTrue(ds: seq<Delta>, k: nat, width: real, best: Option<real>)
    requires HasColumn(ds, k) && NonNegative(ds) && Ordered(ds) && width > 0.0
    requires IsPeak(ds, k, width, |ds|, best)
    ensures TruePeak(ds, k, width, best)
  {
    hide VolumeIn, WindowVolume;
    assert best.Some? <==> Known(ds, k, |ds|);
    if best.Some? {
      var i :| 0 <= i < |ds| && WindowVolume(ds, k, i, width) == best.value;
      LaterEndsDropOut(ds, k, i, |ds|, width);
      forall x: real
        ensures VolumeIn(ds, k, |ds|, x, width) <= best.value
      {
        PeakBoundsStretch(ds, k, width, best.value, x);
      }
    }
  }

  // ---------------------------------------------------------------------------
  // Clipping to the reported interval

  /** The deltas are kept whose midpoint lies in [start, end). */
  datatype Clip = Clip(start: real, end: real) {
    predicate Keeps(d: Delta) {
      start <= (d.t0 + d.t1) / 2.0 < end
    }
  }

  function Clipped(ds: seq<Delta>, clip: Clip): seq<Delta> {
    if ds == [] then []
    else
      Clipped(ds[..|ds| - 1], clip) + (if clip.Keeps(ds[|ds| - 1]) then [ds[|ds| - 1]] else [])
  }

  /** The deltas the envelope is computed from; a start of zero counts as no interval. */
  function Reported(ds: seq<Delta>, clip: Option<Clip>): seq<Delta> {
    if clip.Some? && clip.value.start != 0.0 then Clipped(ds, clip.value) else ds
  }

  method ClipDeltas(ds: seq<Delta>, clip: Clip) returns (kept: seq<Delta>)
    ensures kept == Clipped(ds, clip)
  {
    kept := [];
    for i := 0 to |ds|
      invariant kept == Clipped(ds[..i], clip)
    {
      assert ds[..i + 1][..i] == ds[..i];
      if clip.Keeps(ds[i]) {
        kept := kept + [ds[i]];
      }
    }
    assert ds[..|ds|] == ds;
  }

  /** A delta is kept exactly when the middle of its span lies in the half-open interval. */
  lemma {:induction false} ClippedMembers(ds: seq<Delta>, clip: Clip, d: Delta)
    ensures d in Clipped(ds, clip) <==> d in ds && 2.0 * clip.start <= d.t0 + d.t1 && d.t0 + d.t1 < 2.0 * clip.end
  {
    if ds != [] {
      ClippedMembers(ds[..|ds| - 1], clip, d);
      assert ds == ds[..|ds| - 1] + [ds[|ds| - 1]];
    }
  }

  /** Clipping takes out deltas and disturbs nothing else. */
  lemma {:induction false} ClippingKeeps(ds: seq<Delta>, clip: Clip, k: nat)
    ensures HasColumn(ds, k) ==> HasColumn(Clipped(ds, clip), k)
    ensures NonNegative(ds) ==> NonNegative(Clipped(ds, clip))
    ensures Ordered(ds) ==> Ordered(Clipped(ds, clip))
  {
    if ds != [] {
      var prefix, last := ds[..|ds| - 1], ds[|ds| - 1];
      var rest := Clipped(prefix, clip);
      ClippingKeeps(prefix, clip, k);
      if Ordered(ds) {
        forall e | 0 <= e < |rest|
          ensures rest[e].t1 < last.t1
        {
          ClippedMembers(prefix, clip, rest[e]);
        }
      }
    }
  }

  /** On the deltas of chronological rows, clipped or not, the peak found by the scan is the true
      one. */
  lemma PeakIsExact(rows: seq<Row>, clip: Option<Clip>, k: nat, width: real, best: Option<real>)
    requires Chronological(rows) && k < COLUMNS && width > 0.0
    requires var ds := Reported(Deltas(rows), clip);
             HasColumn(ds, k) && IsPeak(ds, k, width, |ds|, best)
    ensures TruePeak(Reported(Deltas(rows), clip), k, width, best)
  {
    hide TruePeak, IsPeak, Deltas, NonNegative;
    DeltasNonNegative(rows);
    DeltasOrdered(rows);
    if clip.Some? {
      ClippingKeeps(Deltas(rows), clip.value, k);
    }
    PeakIsTrue(Reported(Deltas(rows), clip), k, width, best);
  }

  /** From observer rows to the peak volume in the report. */
  method PeakVolume(rows: seq<Row>, clip: Option<Clip>, k: nat, width: real) returns (best: Option<real>)
    requires ValidRows(rows) && Chronological(rows) && k < COLUMNS && width > 0.0
    ensures var ds := if clip.Some? && clip.value.start != 0.0 then Clipped(Deltas(rows), clip.value) else Deltas(rows);
            HasColumn(ds, k) && TruePeak(ds, k, width, best)
  {
    hide TruePeak, IsPeak, Deltas, NonNegative;
    var ds, breaks := WalDeltas(rows);
    DeltasNonNegative(rows);
    DeltasOrdered(rows);
    assert HasColumn(ds, k);
    if clip.Some? && clip.value.start != 0.0 {
      ClippingKeeps(ds, clip.value, k);
      ds := ClipDeltas(ds, clip.value);
    }
    var r := RollingTimeVolume(ds, k, width);
    best := r.value;
    PeakIsExact(rows, clip, k, width, best);
  }
}
