/** Merging coverage records and whole reports (scripts/merge_lcov.py, SourceRecord.merge,
    merge_reports, coverage_totals): a partial commutative monoid whose one failure is a
    checksum conflict. */
module LcovMerge {
  import opened Common
  import Counts

  datatype Line = Line(hits: nat, checksum: Option<string>)

  datatype Branch = Branch(line: nat, block: string, branch: string)

  datatype Record = Record(functions: set<string>, functionHits: map<string, nat>,
                           lines: map<nat, Line>, branches: map<Branch, Option<nat>>)

  type Report = map<string, Record>

  const EMPTY_RECORD: Record := Record({}, map[], map[], map[])

  // ---------------------------------------------------------------------------
  // One record into another

  /** `p or q`: an absent and an empty checksum are both falsy. */
  function OrElse(p: Option<string>, q: Option<string>): Option<string> {
    if p.None? || p.value == "" then q else p
  }

  predicate Clash(p: Option<string>, q: Option<string>) {
    p.Some? && q.Some? && p != q
  }

  predicate Conflict(a: map<nat, Line>, b: map<nat, Line>) {
    exists n :: n in a && n in b && Clash(a[n].checksum, b[n].checksum)
  }

  function MergeLine(p: Line, q: Line): Line {
    Line(p.hits + q.hits, OrElse(p.checksum, q.checksum))
  }

  function MergeLines(a: map<nat, Line>, b: map<nat, Line>): map<nat, Line> {
    map n | n in a.Keys + b.Keys ::
      if n !in b then a[n] else if n !in a then b[n] else MergeLine(a[n], b[n])
  }

  function MergeHits(a: map<string, nat>, b: map<string, nat>): map<string, nat> {
    map k | k in a.Keys + b.Keys ::
      if k !in b then a[k] else if k !in a then b[k] else a[k] + b[k]
  }

  /** A branch never reached in one run keeps the count of the other. */
  function AddTaken(p: Option<nat>, q: Option<nat>): Option<nat> {
    if p.None? then q else if q.None? then p else Some(p.value + q.value)
  }

  function MergeBranches(a: map<Branch, Option<nat>>, b: map<Branch, Option<nat>>): map<Branch, Option<nat>> {
    map k | k in a.Keys + b.Keys ::
      if k !in b then a[k] else if k !in a then b[k] else AddTaken(a[k], b[k])
  }

  function Union(a: Record, b: Record): Record {
    Record(a.functions + b.functions, MergeHits(a.functionHits, b.functionHits),
           MergeLines(a.lines, b.lines), MergeBranches(a.branches, b.branches))
  }

  function Merge(a: Record, b: Record): Result<Record> {
    if Conflict(a.lines, b.lines) then Err else Ok(Union(a, b))
  }

  /** Checksums as the parser produces them: absent or not empty. */
  predicate CleanLines(lines: map<nat, Line>) {
    forall n :: n in lines ==> lines[n].checksum != Some("")
  }

  // ---------------------------------------------------------------------------
  // Algebra of records

  predicate EmptyAgainstNone(p: Option<string>, q: Option<string>) {
    (p == None && q == Some("")) || (p == Some("") && q == None)
  }

  /** Some line has an empty checksum on one side and none on the other. */
  predicate Ambiguous(a: map<nat, Line>, b: map<nat, Line>) {
    exists n :: n in a && n in b && EmptyAgainstNone(a[n].checksum, b[n].checksum)
  }

  lemma MergeLinesCommute(a: map<nat, Line>, b: map<nat, Line>)
    requires !Conflict(a, b)
    ensures MergeLines(a, b) == MergeLines(b, a) <==> !Ambiguous(a, b)
  {
    if Ambiguous(a, b) {
      var n :| n in a && n in b && EmptyAgainstNone(a[n].checksum, b[n].checksum);
      assert MergeLines(a, b)[n].checksum != MergeLines(b, a)[n].checksum;
    } else {
      forall n | n in a && n in b
        ensures MergeLine(a[n], b[n]) == MergeLine(b[n], a[n])
      {
        assert !Clash(a[n].checksum, b[n].checksum);
      }
    }
  }

  /** Merging does not depend on the order of two records, failure included, exactly when no
      line pairs an empty checksum with an absent one or the records conflict anyway. */
  lemma MergeCommutesIff(a: Record, b: Record)
    ensures Merge(a, b) == Merge(b, a) <==> Conflict(a.lines, b.lines) || !Ambiguous(a.lines, b.lines)
  {
    if !Conflict(a.lines, b.lines) {
      MergeLinesCommute(a.lines, b.lines);
      assert MergeHits(a.functionHits, b.functionHits) == MergeHits(b.functionHits, a.functionHits);
      assert MergeBranches(a.branches, b.branches) == MergeBranches(b.branches, a.branches);
      assert a.functions + b.functions == b.functions + a.functions;
    }
  }

  /** An empty checksum is dropped on one side and kept on the other. */
  lemma EmptyChecksumDoesNotCommute()
    ensures var a := EMPTY_RECORD.(lines := map[1 := Line(0, Some(""))]);
            var b := EMPTY_RECORD.(lines := map[1 := Line(0, None)]);
            Merge(a, b) != Merge(b, a)
  {
    var a := EMPTY_RECORD.(lines := map[1 := Line(0, Some(""))]);
    var b := EMPTY_RECORD.(lines := map[1 := Line(0, None)]);
    assert a.lines[1].checksum == Some("") && b.lines[1].checksum == None;
    assert Ambiguous(a.lines, b.lines);
    MergeCommutesIff(a, b);
  }

  lemma MergeCommutative(a: Record, b: Record)
    requires CleanLines(a.lines) && CleanLines(b.lines)
    ensures Merge(a, b) == Merge(b, a)
  {
    MergeCommutesIff(a, b);
  }

  function Then(r: Result<Record>, c: Record): Result<Record> {
    if r.Err? then Err else Merge(r.value, c)
  }

  function Before(a: Record, r: Result<Record>): Result<Record> {
    if r.Err? then Err else Merge(a, r.value)
  }

  lemma MergeLinesAssociative(a: map<nat, Line>, b: map<nat, Line>, c: map<nat, Line>)
    requires CleanLines(a) && CleanLines(b) && CleanLines(c)
    ensures MergeLines(MergeLines(a, b), c) == MergeLines(a, MergeLines(b, c))
    ensures Conflict(a, b) || Conflict(MergeLines(a, b), c) <==> Conflict(b, c) || Conflict(a, MergeLines(b, c))
  {
    hide Conflict, MergeLine, CleanLines;
    ConflictSplit(a, b, c);
    ConflictSplit'(a, b, c);
    forall p: Line, q: Line, r: Line
      ensures MergeLine(MergeLine(p, q), r) == MergeLine(p, MergeLine(q, r))
    {
      MergeLineAssociative(p, q, r);
    }
    MergeLinesRegroup(a, b, c);
  }

  lemma MergeLineAssociative(p: Line, q: Line, r: Line)
    ensures MergeLine(MergeLine(p, q), r) == MergeLine(p, MergeLine(q, r))
  {
  }

  lemma MergeLinesRegroup(a: map<nat, Line>, b: map<nat, Line>, c: map<nat, Line>)
    requires forall p, q, r :: MergeLine(MergeLine(p, q), r) == MergeLine(p, MergeLine(q, r))
    ensures MergeLines(MergeLines(a, b), c) == MergeLines(a, MergeLines(b, c))
  {
    hide MergeLine;
    var left, right := MergeLines(MergeLines(a, b), c), MergeLines(a, MergeLines(b, c));
    assert left.Keys == right.Keys;
    forall n | n in left.Keys
      ensures left[n] == right[n]
    {
    }
  }

  /** Without a conflict inside, a merged pair conflicts with a third exactly when one of the two does. */
  lemma ConflictSplit(a: map<nat, Line>, b: map<nat, Line>, c: map<nat, Line>)
    requires CleanLines(a) && CleanLines(b)
    ensures Conflict(a, b) || Conflict(MergeLines(a, b), c) <==> Conflict(a, b) || Conflict(a, c) || Conflict(b, c)
  {
    var ab := MergeLines(a, b);
    if !Conflict(a, b) {
      forall n | n in ab && n in c
        ensures Clash(ab[n].checksum, c[n].checksum)
           <==> (n in a && Clash(a[n].checksum, c[n].checksum)) || (n in b && Clash(b[n].checksum, c[n].checksum))
      {
      }
      if Conflict(a, c) {
        var n :| n in a && n in c && Clash(a[n].checksum, c[n].checksum);
        assert n in ab;
      }
      if Conflict(b, c) {
        var n :| n in b && n in c && Clash(b[n].checksum, c[n].checksum);
        assert n in ab;
      }
    }
  }

  lemma ConflictSplit'(a: map<nat, Line>, b: map<nat, Line>, c: map<nat, Line>)
    requires CleanLines(b) && CleanLines(c)
    ensures Conflict(b, c) || Conflict(a, MergeLines(b, c)) <==> Conflict(b, c) || Conflict(a, b) || Conflict(a, c)
  {
    ConflictSplit(b, c, a);
    ConflictSymmetric(a, b);
    ConflictSymmetric(a, c);
    ConflictSymmetric(a, MergeLines(b, c));
  }

  lemma ConflictSymmetric(a: map<nat, Line>, b: map<nat, Line>)
    ensures Conflict(a, b) <==> Conflict(b, a)
  {
    if Conflict(a, b) {
      var n :| n in a && n in b && Clash(a[n].checksum, b[n].checksum);
      assert Clash(b[n].checksum, a[n].checksum);
    }
    if Conflict(b, a) {
      var n :| n in b && n in a && Clash(b[n].checksum, a[n].checksum);
      assert Clash(a[n].checksum, b[n].checksum);
    }
  }

  lemma MergeHitsAssociative(a: map<string, nat>, b: map<string, nat>, c: map<string, nat>)
    ensures MergeHits(MergeHits(a, b), c) == MergeHits(a, MergeHits(b, c))
  {
  }

  lemma MergeBranchesAssociative(a: map<Branch, Option<nat>>, b: map<Branch, Option<nat>>, c: map<Branch, Option<nat>>)
    ensures MergeBranches(MergeBranches(a, b), c) == MergeBranches(a, MergeBranches(b, c))
  {
  }

  lemma UnionAssociative(a: Record, b: Record, c: Record)
    requires CleanLines(a.lines) && CleanLines(b.lines) && CleanLines(c.lines)
    ensures Union(Union(a, b), c) == Union(a, Union(b, c))
  {
    hide MergeLines, MergeHits, MergeBranches;
    MergeLinesAssociative(a.lines, b.lines, c.lines);
    MergeHitsAssociative(a.functionHits, b.functionHits, c.functionHits);
    MergeBranchesAssociative(a.branches, b.branches, c.branches);
  }

  /** Grouping does not matter, and one grouping fails exactly when the other does. */
  lemma MergeAssociative(a: Record, b: Record, c: Record)
    requires CleanLines(a.lines) && CleanLines(b.lines) && CleanLines(c.lines)
    ensures Then(Merge(a, b), c) == Before(a, Merge(b, c))
  {
    UnionAssociative(a, b, c);
    MergeLinesAssociative(a.lines, b.lines, c.lines);
  }

  lemma MergeKeepsClean(a: Record, b: Record)
    requires CleanLines(a.lines) && CleanLines(b.lines)
    ensures CleanLines(Union(a, b).lines)
  {
  }

  lemma UnionCommutative(a: Record, b: Record)
    requires CleanLines(a.lines) && CleanLines(b.lines) && !Conflict(a.lines, b.lines)
    ensures Union(a, b) == Union(b, a)
  {
    MergeCommutative(a, b);
    ConflictSymmetric(a.lines, b.lines);
  }

  // ---------------------------------------------------------------------------
  // Reports

  ghost predicate CleanReport(m: Report) {
    forall s :: s in m ==> CleanLines(m[s].lines)
  }

  predicate ReportConflict(a: Report, b: Report) {
    exists s :: s in a && s in b && Conflict(a[s].lines, b[s].lines)
  }

  function UnionReports(a: Report, b: Report): Report {
    map s | s in a.Keys + b.Keys ::
      if s !in b then a[s] else if s !in a then b[s] else Union(a[s], b[s])
  }

  function MergeReport(a: Report, b: Report): Result<Report> {
    if ReportConflict(a, b) then Err else Ok(UnionReports(a, b))
  }

  /** A failed merge stays failed. */
  function Plus(a: Result<Report>, b: Result<Report>): Result<Report> {
    if a.Err? || b.Err? then Err else MergeReport(a.value, b.value)
  }

  ghost predicate CleanResult(r: Result<Report>) {
    r.Ok? ==> CleanReport(r.value)
  }

  lemma PlusKeepsClean(a: Result<Report>, b: Result<Report>)
    requires CleanResult(a) && CleanResult(b)
    ensures CleanResult(Plus(a, b))
  {
    hide Union, CleanLines;
    if Plus(a, b).Ok? {
      forall s | s in a.value && s in b.value
        ensures CleanLines(Union(a.value[s], b.value[s]).lines)
      {
        MergeKeepsClean(a.value[s], b.value[s]);
      }
    }
  }

  lemma ReportConflictSymmetric(a: Report, b: Report)
    ensures ReportConflict(a, b) <==> ReportConflict(b, a)
  {
    hide Conflict;
    forall s | s in a && s in b
      ensures Conflict(a[s].lines, b[s].lines) <==> Conflict(b[s].lines, a[s].lines)
    {
      ConflictSymmetric(a[s].lines, b[s].lines);
    }
  }

  lemma PlusCommutative(a: Result<Report>, b: Result<Report>)
    requires CleanResult(a) && CleanResult(b)
    ensures Plus(a, b) == Plus(b, a)
  {
    hide Conflict, Union, CleanLines;
    if a.Ok? && b.Ok? {
      ReportConflictSymmetric(a.value, b.value);
      if !ReportConflict(a.value, b.value) {
        forall s | s in a.value && s in b.value
          ensures Union(a.value[s], b.value[s]) == Union(b.value[s], a.value[s])
        {
          UnionCommutative(a.value[s], b.value[s]);
        }
        assert UnionReports(a.value, b.value) == UnionReports(b.value, a.value);
      }
    }
  }

  lemma ReportConflictSplit(a: Report, b: Report, c: Report)
    requires CleanReport(a) && CleanReport(b) && !ReportConflict(a, b)
    ensures ReportConflict(UnionReports(a, b), c) <==> ReportConflict(a, c) || ReportConflict(b, c)
  {
    hide Conflict, Union, CleanLines;
    var ab := UnionReports(a, b);
    forall s | s in ab && s in c
      ensures Conflict(ab[s].lines, c[s].lines)
         <==> (s in a && Conflict(a[s].lines, c[s].lines)) || (s in b && Conflict(b[s].lines, c[s].lines))
    {
      if s in a && s in b {
        UnionConflict(a[s], b[s], c[s]);
      }
    }
    assert forall s :: s in a || s in b ==> s in ab;
  }

  lemma UnionConflict(a: Record, b: Record, c: Record)
    requires CleanLines(a.lines) && CleanLines(b.lines) && !Conflict(a.lines, b.lines)
    ensures Conflict(Union(a, b).lines, c.lines) <==> Conflict(a.lines, c.lines) || Conflict(b.lines, c.lines)
  {
    ConflictSplit(a.lines, b.lines, c.lines);
  }

  lemma UnionReportsAssociative(a: Report, b: Report, c: Report)
    requires CleanReport(a) && CleanReport(b) && CleanReport(c)
    ensures UnionReports(UnionReports(a, b), c) == UnionReports(a, UnionReports(b, c))
  {
    hide Union, CleanLines, UnionReports;
    var ab, bc := UnionReports(a, b), UnionReports(b, c);
    var left, right := UnionReports(ab, c), UnionReports(a, bc);
    forall s: string
      ensures s in left <==> s in right
      ensures s in left ==> left[s] == right[s]
    {
      UnionAt(a, b, s);
      UnionAt(ab, c, s);
      UnionAt(b, c, s);
      UnionAt(a, bc, s);
      if s in a && s in b && s in c {
        UnionAssociative(a[s], b[s], c[s]);
      }
    }
  }

  lemma UnionAt(a: Report, b: Report, s: string)
    ensures s in UnionReports(a, b) <==> s in a || s in b
    ensures s in UnionReports(a, b) ==>
      UnionReports(a, b)[s] == if s !in b then a[s] else if s !in a then b[s] else Union(a[s], b[s])
  {
  }

  /** Reports form a commutative monoid in which a conflict anywhere absorbs everything. */
  lemma PlusAssociative(a: Result<Report>, b: Result<Report>, c: Result<Report>)
    requires CleanResult(a) && CleanResult(b) && CleanResult(c)
    ensures Plus(Plus(a, b), c) == Plus(a, Plus(b, c))
  {
    hide ReportConflict, UnionReports, CleanReport;
    if a.Ok? && b.Ok? && c.Ok? {
      var x, y, z := a.value, b.value, c.value;
      UnionReportsAssociative(x, y, z);
      if !ReportConflict(x, y) {
        ReportConflictSplit(x, y, z);
      }
      if !ReportConflict(y, z) {
        ReportConflictSplit(y, z, x);
        ReportConflictSymmetric(x, UnionReports(y, z));
      }
      ReportConflictSymmetric(x, y);
      ReportConflictSymmetric(x, z);
    }
  }

  // ---------------------------------------------------------------------------
  // Merging many reports under normalized source names

  ghost function One(source: string, record: Record): Result<Report> {
    Ok(map[source := record])
  }

  /** All records of a report, each under its normalized name; two sources may share one. */
  ghost function Normalized(m: Report, norm: string -> string): Result<Report>
    decreases |m|
  {
    if m == map[] then Ok(map[])
    else
      var s :| s in m;
      assert (m - {s}).Keys == m.Keys - {s};
      Plus(Normalized(m - {s}, norm), One(norm(s), m[s]))
  }

  lemma {:induction false} NormalizedClean(m: Report, norm: string -> string)
    requires CleanReport(m)
    ensures CleanResult(Normalized(m, norm))
    decreases |m|
  {
    if m != map[] {
      var s :| s in m && Normalized(m, norm) == Plus(Normalized(m - {s}, norm), One(norm(s), m[s]));
      assert (m - {s}).Keys == m.Keys - {s};
      NormalizedClean(m - {s}, norm);
      PlusKeepsClean(Normalized(m - {s}, norm), One(norm(s), m[s]));
    }
  }

  /** The records of a report may be visited in any order. */
  lemma {:induction false} NormalizedAnyOrder(m: Report, norm: string -> string, k: string)
    requires CleanReport(m) && k in m
    ensures Normalized(m, norm) == Plus(Normalized(m - {k}, norm), One(norm(k), m[k]))
    decreases |m|
  {
    hide Plus, CleanLines, CleanResult;
    var s :| s in m && Normalized(m, norm) == Plus(Normalized(m - {s}, norm), One(norm(s), m[s]));
    assert (m - {s}).Keys == m.Keys - {s};
    assert (m - {k}).Keys == m.Keys - {k};
    if s != k {
      NormalizedAnyOrder(m - {s}, norm, k);
      NormalizedAnyOrder(m - {k}, norm, s);
      assert m - {s} - {k} == m - {k} - {s};
      var rest := Normalized(m - {s} - {k}, norm);
      NormalizedClean(m - {s} - {k}, norm);
      OneClean(norm(k), m[k]);
      OneClean(norm(s), m[s]);
      PlusSwap(rest, One(norm(k), m[k]), One(norm(s), m[s]));
    }
  }

  lemma OneClean(source: string, record: Record)
    requires CleanLines(record.lines)
    ensures CleanResult(One(source, record))
  {
  }

  lemma PlusSwap(r: Result<Report>, a: Result<Report>, b: Result<Report>)
    requires CleanResult(r) && CleanResult(a) && CleanResult(b)
    ensures Plus(Plus(r, a), b) == Plus(Plus(r, b), a)
  {
    hide Plus, CleanResult;
    PlusAssociative(r, a, b);
    PlusAssociative(r, b, a);
    PlusCommutative(a, b);
  }

  ghost function MergedAll(reports: seq<Report>, norm: string -> string): Result<Report> {
    if reports == [] then Ok(map[])
    else Plus(MergedAll(reports[..|reports| - 1], norm), Normalized(reports[|reports| - 1], norm))
  }

  ghost predicate AllClean(reports: seq<Report>) {
    forall i :: 0 <= i < |reports| ==> CleanReport(reports[i])
  }

  lemma {:induction false} MergedAllClean(reports: seq<Report>, norm: string -> string)
    requires AllClean(reports)
    ensures CleanResult(MergedAll(reports, norm))
  {
    if reports != [] {
      MergedAllClean(reports[..|reports| - 1], norm);
      NormalizedClean(reports[|reports| - 1], norm);
      PlusKeepsClean(MergedAll(reports[..|reports| - 1], norm), Normalized(reports[|reports| - 1], norm));
    }
  }

  lemma {:induction false} MergedWithout(reports: seq<Report>, i: nat, norm: string -> string)
    requires AllClean(reports) && i < |reports|
    ensures MergedAll(reports, norm)
         == Plus(MergedAll(reports[..i] + reports[i + 1..], norm), Normalized(reports[i], norm))
  {
    hide Plus, CleanResult, CleanReport;
    var last := |reports| - 1;
    var rest := reports[..i] + reports[i + 1..];
    if i == last {
      assert rest == reports[..last];
    } else {
      MergedWithout(reports[..last], i, norm);
      var inner := reports[..last][..i] + reports[..last][i + 1..];
      assert rest[..|rest| - 1] == inner && rest[|rest| - 1] == reports[last];
      MergedAllClean(inner, norm);
      NormalizedClean(reports[i], norm);
      NormalizedClean(reports[last], norm);
      PlusSwap(MergedAll(inner, norm), Normalized(reports[i], norm), Normalized(reports[last], norm));
    }
  }

  /** The order of the input files is irrelevant, for the result and for failure. */
  lemma {:induction false} MergedPermuted(reports: seq<Report>, reports': seq<Report>, norm: string -> string)
    requires AllClean(reports) && multiset(reports) == multiset(reports')
    ensures MergedAll(reports, norm) == MergedAll(reports', norm)
  {
    hide Plus, CleanReport;
    if reports == [] {
      assert |multiset(reports')| == 0;
    } else {
      var last := |reports| - 1;
      var i := FindLast(reports, reports');
      MergedPermuted(reports[..last], reports'[..i] + reports'[i + 1..], norm);
      assert AllClean(reports') by {
        forall j | 0 <= j < |reports'|
          ensures CleanReport(reports'[j])
        {
          assert reports'[j] in multiset(reports);
        }
      }
      MergedWithout(reports', i, norm);
    }
  }

  // ---------------------------------------------------------------------------
  // Coverage totals

  function HitLines(r: Record): set<nat> {
    set n | n in r.lines && r.lines[n].hits > 0
  }

  function HitsBySource(m: Report): map<string, set<nat>> {
    map s | s in m :: HitLines(m[s])
  }

  function LinesBySource(m: Report): map<string, set<nat>> {
    map s | s in m :: m[s].lines.Keys
  }

  function Sizes(f: map<string, set<nat>>): map<string, int> {
    map s | s in f :: |f[s]|
  }

  /** Hit and instrumented lines, summed over the sources of a report. */
  ghost function CoverageTotals(m: Report): (int, int) {
    (Counts.Total(Sizes(HitsBySource(m))), Counts.Total(Sizes(LinesBySource(m))))
  }

  ghost function Pairs(f: map<string, set<nat>>): set<(string, nat)> {
    set s, n | s in f && n in f[s] :: (s, n)
  }

  ghost function PairsWith(s: string, ns: set<nat>): set<(string, nat)> {
    set n | n in ns :: (s, n)
  }

  lemma {:induction false} PairsWithSize(s: string, ns: set<nat>)
    ensures |PairsWith(s, ns)| == |ns|
  {
    if ns == {} {
      assert PairsWith(s, ns) == {};
    } else {
      var k := SomeMember(ns);
      PairsWithSize(s, ns - {k});
      assert PairsWith(s, ns) == PairsWith(s, ns - {k}) + {(s, k)};
    }
  }

  /** A sum of sizes per source counts the pairs of source and line. */
  lemma {:induction false} SizesCountPairs(f: map<string, set<nat>>)
    ensures Counts.Total(Sizes(f)) == |Pairs(f)|
    decreases |f|
  {
    if f == map[] {
      assert Sizes(f) == map[];
      assert Pairs(f) == {};
    } else {
      hide Pairs, PairsWith;
      var k :| k in f;
      var rest := f - {k};
      assert rest.Keys == f.Keys - {k};
      SizesCountPairs(rest);
      Counts.TotalRemove(Sizes(f), k);
      assert Sizes(f) - {k} == Sizes(rest);
      PairsWithSize(k, f[k]);
      PairsWithout(f, k);
    }
  }

  lemma PairsWithout(f: map<string, set<nat>>, k: string)
    requires k in f
    ensures Pairs(f) == Pairs(f - {k}) + PairsWith(k, f[k])
    ensures Pairs(f - {k}) !! PairsWith(k, f[k])
  {
  }

  lemma UnionHitLines(a: Record, b: Record)
    ensures HitLines(Union(a, b)) == HitLines(a) + HitLines(b)
    ensures Union(a, b).lines.Keys == a.lines.Keys + b.lines.Keys
  {
  }

  function LinesAt(f: map<string, set<nat>>, s: string): set<nat> {
    if s in f then f[s] else {}
  }

  lemma PairsOfUnion(f: map<string, set<nat>>, g: map<string, set<nat>>, h: map<string, set<nat>>)
    requires forall s :: LinesAt(h, s) == LinesAt(f, s) + LinesAt(g, s)
    ensures Pairs(h) == Pairs(f) + Pairs(g)
  {
    forall p: (string, nat)
      ensures p in Pairs(h) <==> p in Pairs(f) + Pairs(g)
    {
      assert p in Pairs(h) <==> p.1 in LinesAt(h, p.0);
      assert p in Pairs(f) <==> p.1 in LinesAt(f, p.0);
      assert p in Pairs(g) <==> p.1 in LinesAt(g, p.0);
    }
  }

  /** The lines a total counts: those hit, or all instrumented ones. */
  function Counted(r: Record, hit: bool): set<nat> {
    if hit then HitLines(r) else r.lines.Keys
  }

  function BySource(m: Report, hit: bool): map<string, set<nat>> {
    if hit then HitsBySource(m) else LinesBySource(m)
  }

  lemma PairsOfPlus(a: Report, b: Report, hit: bool)
    ensures Pairs(BySource(UnionReports(a, b), hit)) == Pairs(BySource(a, hit)) + Pairs(BySource(b, hit))
  {
    hide UnionReports, Pairs, HitsBySource, LinesBySource, LinesAt;
    var m := UnionReports(a, b);
    forall s: string
      ensures LinesAt(BySource(m, hit), s) == LinesAt(BySource(a, hit), s) + LinesAt(BySource(b, hit), s)
    {
      LinesOfUnion(a, b, s);
    }
    PairsOfUnion(BySource(a, hit), BySource(b, hit), BySource(m, hit));
  }

  /** The lines of one report under normalized names, one pair for each. */
  ghost function CoveredBy(m: Report, norm: string -> string, hit: bool): set<(string, nat)> {
    set s, n | s in m && n in Counted(m[s], hit) :: (norm(s), n)
  }

  /** The lines of all inputs under normalized names. */
  ghost function Covered(reports: seq<Report>, norm: string -> string, hit: bool): set<(string, nat)> {
    set i, p | 0 <= i < |reports| && p in CoveredBy(reports[i], norm, hit) :: p
  }

  lemma PairsOfOne(source: string, record: Record, hit: bool)
    ensures Pairs(BySource(map[source := record], hit)) == PairsWith(source, Counted(record, hit))
  {
    hide HitLines;
  }

  lemma CoveredWithout(m: Report, norm: string -> string, hit: bool, s: string)
    requires s in m
    ensures CoveredBy(m, norm, hit) == CoveredBy(m - {s}, norm, hit) + PairsWith(norm(s), Counted(m[s], hit))
  {
    hide Counted;
    forall p: (string, nat)
      ensures p in CoveredBy(m, norm, hit)
         <==> p in CoveredBy(m - {s}, norm, hit) + PairsWith(norm(s), Counted(m[s], hit))
    {
      if p in CoveredBy(m, norm, hit) {
        var t, n :| t in m && n in Counted(m[t], hit) && p == (norm(t), n);
        if t != s {
          assert t in m - {s};
        }
      }
    }
  }

  lemma {:induction false} NormalizedPairs(m: Report, norm: string -> string, hit: bool)
    requires Normalized(m, norm).Ok?
    ensures Pairs(BySource(Normalized(m, norm).value, hit)) == CoveredBy(m, norm, hit)
    decreases |m|
  {
    hide Pairs, CoveredBy, Counted, BySource, Plus, PairsWith;
    NoPairs(norm, hit);
    if m != map[] {
      var s :| s in m && Normalized(m, norm) == Plus(Normalized(m - {s}, norm), One(norm(s), m[s]));
      assert (m - {s}).Keys == m.Keys - {s};
      var rest := Normalized(m - {s}, norm);
      PlusParts(rest, One(norm(s), m[s]));
      NormalizedPairs(m - {s}, norm, hit);
      PairsOfPlus(rest.value, map[norm(s) := m[s]], hit);
      PairsOfOne(norm(s), m[s], hit);
      CoveredWithout(m, norm, hit, s);
    }
  }

  lemma PlusParts(a: Result<Report>, b: Result<Report>)
    requires Plus(a, b).Ok?
    ensures a.Ok? && b.Ok? && Plus(a, b).value == UnionReports(a.value, b.value)
  {
    hide UnionReports, ReportConflict;
  }

  lemma NoPairs(norm: string -> string, hit: bool)
    ensures Pairs(BySource(map[], hit)) == CoveredBy(map[], norm, hit) == Covered([], norm, hit) == {}
  {
  }

  lemma CoveredLast(reports: seq<Report>, norm: string -> string, hit: bool)
    requires reports != []
    ensures Covered(reports, norm, hit)
         == Covered(reports[..|reports| - 1], norm, hit) + CoveredBy(reports[|reports| - 1], norm, hit)
  {
    hide CoveredBy;
    var prefix, last := reports[..|reports| - 1], reports[|reports| - 1];
    forall p: (string, nat)
      ensures p in Covered(reports, norm, hit) <==> p in Covered(prefix, norm, hit) + CoveredBy(last, norm, hit)
    {
      if p in Covered(reports, norm, hit) {
        var i :| 0 <= i < |reports| && p in CoveredBy(reports[i], norm, hit);
        assert i < |prefix| ==> prefix[i] == reports[i];
      }
      if p in Covered(prefix, norm, hit) {
        var i :| 0 <= i < |prefix| && p in CoveredBy(prefix[i], norm, hit);
        assert prefix[i] == reports[i];
      }
    }
  }

  lemma {:induction false} MergedPairs(reports: seq<Report>, norm: string -> string, hit: bool)
    requires MergedAll(reports, norm).Ok?
    ensures Pairs(BySource(MergedAll(reports, norm).value, hit)) == Covered(reports, norm, hit)
  {
    hide Pairs, CoveredBy, Covered, BySource, UnionReports, ReportConflict, Normalized;
    NoPairs(norm, hit);
    if reports != [] {
      var prefix, last := reports[..|reports| - 1], reports[|reports| - 1];
      MergedPairs(prefix, norm, hit);
      NormalizedPairs(last, norm, hit);
      PairsOfPlus(MergedAll(prefix, norm).value, Normalized(last, norm).value, hit);
      CoveredLast(reports, norm, hit);
    }
  }

  /** Overlapping coverage is neither lost nor counted twice: however many inputs there are and
      whatever sources normalization joins, the totals are the numbers of different lines hit, and
      instrumented, in any of them. */
  lemma MergedCoverage(reports: seq<Report>, norm: string -> string)
    requires MergedAll(reports, norm).Ok?
    ensures CoverageTotals(MergedAll(reports, norm).value)
         == (|Covered(reports, norm, true)|, |Covered(reports, norm, false)|)
  {
    hide Pairs, Covered, MergedAll, HitsBySource, LinesBySource;
    var m := MergedAll(reports, norm).value;
    MergedPairs(reports, norm, true);
    MergedPairs(reports, norm, false);
    SizesCountPairs(HitsBySource(m));
    SizesCountPairs(LinesBySource(m));
  }

  lemma LinesOfUnion(a: Report, b: Report, s: string)
    ensures var m := UnionReports(a, b);
            && LinesAt(HitsBySource(m), s) == LinesAt(HitsBySource(a), s) + LinesAt(HitsBySource(b), s)
            && LinesAt(LinesBySource(m), s) == LinesAt(LinesBySource(a), s) + LinesAt(LinesBySource(b), s)
  {
    hide Union, HitLines, UnionReports;
    UnionAt(a, b, s);
    if s in a && s in b {
      UnionHitLines(a[s], b[s]);
    }
  }

  // ---------------------------------------------------------------------------
  // The tool as it runs

  /** A record that is merged in place. */
  class SourceRecord {
    var functions: set<string>
    var functionHits: map<string, nat>
    var lines: map<nat, Line>
    var branches: map<Branch, Option<nat>>

    function Value(): Record
      reads this
    {
      Record(functions, functionHits, lines, branches)
    }

    constructor ()
      ensures Value() == EMPTY_RECORD
    {
      functions, functionHits, lines, branches := {}, map[], map[], map[];
    }

    /** Fails exactly on a checksum conflict; what an aborted merge leaves behind is unspecified. */
    method MergeFrom(other: SourceRecord) returns (ok: bool)
      requires other != this
      modifies this
      ensures ok == Merge(old(Value()), other.Value()).Ok?
      ensures ok ==> Ok(Value()) == Merge(old(Value()), other.Value())
    {
      functions := functions + other.functions;
      functionHits := AddHits(functionHits, other.functionHits);
      ok, lines := AddLines(lines, other.lines);
      if !ok {
        return;
      }
      branches := AddBranches(branches, other.branches);
    }
  }

  method AddHits(into: map<string, nat>, from: map<string, nat>) returns (r: map<string, nat>)
    ensures r == MergeHits(into, from)
  {
    r := into;
    var todo := from.Keys;
    while todo != {}
      invariant todo <= from.Keys && r.Keys == into.Keys + (from.Keys - todo)
      invariant forall k :: k in r ==>
        r[k] == if k !in from || k in todo then into[k] else if k !in into then from[k] else into[k] + from[k]
    {
      var k :| k in todo;
      r := r[k := (if k in r then r[k] else 0) + from[k]];
      todo := todo - {k};
    }
  }

  method AddBranches(into: map<Branch, Option<nat>>, from: map<Branch, Option<nat>>)
    returns (r: map<Branch, Option<nat>>)
    ensures r == MergeBranches(into, from)
  {
    r := into;
    var todo := from.Keys;
    while todo != {}
      invariant todo <= from.Keys && r.Keys == into.Keys + (from.Keys - todo)
      invariant forall k :: k in r ==>
        r[k] == if k !in from || k in todo then into[k] else if k !in into then from[k] else AddTaken(into[k], from[k])
    {
      var k :| k in todo;
      var previous := if k in r then r[k] else None;
      if previous.None? {
        r := r[k := from[k]];
      } else if from[k].Some? {
        r := r[k := Some(previous.value + from[k].value)];
      }
      todo := todo - {k};
    }
  }

  method AddLines(into: map<nat, Line>, from: map<nat, Line>) returns (ok: bool, r: map<nat, Line>)
    ensures ok == !Conflict(into, from)
    ensures ok ==> r == MergeLines(into, from)
  {
    r := into;
    var todo := from.Keys;
    while todo != {}
      invariant todo <= from.Keys && r.Keys == into.Keys + (from.Keys - todo)
      invariant forall n :: n in into && n in from && n !in todo ==> !Clash(into[n].checksum, from[n].checksum)
      invariant forall n :: n in r ==>
        r[n] == if n !in from || n in todo then into[n] else if n !in into then from[n] else MergeLine(into[n], from[n])
    {
      ghost var member := SomeMember(todo);
      var n :| n in todo;
      var previous := if n in r then r[n] else Line(0, from[n].checksum);
      if Clash(previous.checksum, from[n].checksum) {
        return false, r;
      }
      r := r[n := Line(previous.hits + from[n].hits, OrElse(previous.checksum, from[n].checksum))];
      todo := todo - {n};
    }
    ok := true;
  }

  lemma PlusOne(x: Result<Report>, m: Report, norm: string -> string, k: string)
    requires CleanResult(x) && CleanReport(m) && k in m
    ensures Plus(x, Normalized(m, norm)) == Plus(Plus(x, Normalized(m - {k}, norm)), One(norm(k), m[k]))
  {
    hide Plus, CleanResult, CleanLines;
    NormalizedAnyOrder(m, norm, k);
    NormalizedClean(m - {k}, norm);
    OneClean(norm(k), m[k]);
    PlusAssociative(x, Normalized(m - {k}, norm), One(norm(k), m[k]));
  }

  /** A conflict met on the way is a conflict of the whole. */
  lemma {:induction false} ConflictPersists(x: Result<Report>, part: Report, m: Report, norm: string -> string)
    requires CleanResult(x) && CleanReport(m)
    requires part.Keys <= m.Keys && (forall s :: s in part ==> part[s] == m[s])
    requires Plus(x, Normalized(part, norm)).Err?
    ensures Plus(x, Normalized(m, norm)).Err?
    decreases |m|
  {
    hide Normalized, CleanLines;
    if part != m {
      var k :| k in m && k !in part;
      assert (m - {k}).Keys == m.Keys - {k};
      ConflictPersists(x, part, m - {k}, norm);
      PlusOne(x, m, norm, k);
    }
  }

  function Put(total: Report, name: string, record: Record): Report {
    total[name := if name in total then Union(total[name], record) else record]
  }

  lemma PlusOneIsPut(total: Report, name: string, record: Record)
    ensures Plus(Ok(total), One(name, record))
         == if name in total && Conflict(total[name].lines, record.lines) then Err else Ok(Put(total, name, record))
  {
    hide Conflict, Union;
    var one := map[name := record];
    assert ReportConflict(total, one) <==> name in total && Conflict(total[name].lines, record.lines) by {
      assert name in one && one[name] == record;
    }
    assert UnionReports(total, one) == Put(total, name, record);
  }

  method MergeInto(total: Report, report: Report, norm: string -> string) returns (r: Result<Report>)
    requires CleanReport(total) && CleanReport(report)
    ensures r == Plus(Ok(total), Normalized(report, norm))
  {
    hide CleanLines, Normalized, Plus, One, Put, Conflict;
    NormalizedEmpty(norm);
    PlusEmpty(total);
    var merged := total;
    var todo := report.Keys;
    ghost var done: Report := map[];
    while todo != {}
      invariant todo <= report.Keys && done == report - todo
      invariant Ok(merged) == Plus(Ok(total), Normalized(done, norm))
    {
      var source :| source in todo;
      var name, record := norm(source), report[source];
      ghost var next := done[source := record];
      assert next - {source} == done;
      PlusOne(Ok(total), next, norm, source);
      PlusOneIsPut(merged, name, record);
      if name in merged && Conflict(merged[name].lines, record.lines) {
        ConflictPersists(Ok(total), next, report, norm);
        return Err;
      }
      merged := Put(merged, name, record);
      todo := todo - {source};
      done := next;
    }
    assert done == report;
    r := Ok(merged);
  }

  lemma NormalizedEmpty(norm: string -> string)
    ensures Normalized(map[], norm) == Ok(map[])
  {
  }

  lemma PlusEmpty(total: Report)
    ensures Plus(Ok(total), Ok(map[])) == Ok(total)
  {
    assert UnionReports(total, map[]) == total;
  }

  /** Every record of every input, in any order, under its normalized name. */
  method MergeReports(inputs: seq<Report>, norm: string -> string) returns (r: Result<Report>)
    requires AllClean(inputs)
    ensures r == MergedAll(inputs, norm)
  {
    hide Normalized;
    r := Ok(map[]);
    for i := 0 to |inputs|
      invariant r.Ok? && r == MergedAll(inputs[..i], norm)
    {
      assert inputs[..i + 1][..i] == inputs[..i];
      MergedAllClean(inputs[..i], norm);
      r := MergeInto(r.value, inputs[i], norm);
      if r.Err? {
        FailurePersists(inputs, i + 1, norm);
        return;
      }
    }
    assert inputs[..|inputs|] == inputs;
  }

  lemma {:induction false} FailurePersists(inputs: seq<Report>, i: nat, norm: string -> string)
    requires i <= |inputs| && MergedAll(inputs[..i], norm).Err?
    ensures MergedAll(inputs, norm).Err?
  {
    if i == |inputs| {
      assert inputs[..i] == inputs;
    } else {
      assert inputs[..|inputs| - 1][..i] == inputs[..i];
      FailurePersists(inputs[..|inputs| - 1], i, norm);
    }
  }
}
