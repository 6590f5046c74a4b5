/** What a merged report contains, in terms of its inputs: every fact that some input states about a
    source and no other, every count as the sum over the inputs, and a failure exactly where two
    inputs give one line different checksums (scripts/merge_lcov.py, SourceRecord.merge,
    merge_reports). */
module LcovContents {
  import opened Common
  import opened LcovMerge
  import Counts

  // ---------------------------------------------------------------------------
  // Facts

  /** What a record can state, counts aside. */
  datatype Fact =
    | Present
    | Defined(definition: string) | Called(name: string)
    | Instrumented(line: nat) | Checked(line: nat, checksum: string)
    | Branching(branch: Branch) | Evaluated(branch: Branch)

  predicate Says(r: Record, f: Fact) {
    match f
    case Present => true
    case Defined(definition) => definition in r.functions
    case Called(name) => name in r.functionHits
    case Instrumented(line) => line in r.lines
    case Checked(line, checksum) => line in r.lines && r.lines[line].checksum == Some(checksum)
    case Branching(branch) => branch in r.branches
    case Evaluated(branch) => branch in r.branches && r.branches[branch].Some?
  }

  predicate SaysOf(m: Report, source: string, f: Fact) {
    source in m && Says(m[source], f)
  }

  /** Some record of the report, under its normalized name, states the fact. */
  ghost predicate StatedBy(m: Report, norm: string -> string, source: string, f: Fact) {
    exists s :: s in m && norm(s) == source && Says(m[s], f)
  }

  ghost predicate Stated(reports: seq<Report>, norm: string -> string, source: string, f: Fact) {
    exists i :: 0 <= i < |reports| && StatedBy(reports[i], norm, source, f)
  }

  lemma UnionSays(a: Record, b: Record, f: Fact)
    requires CleanLines(a.lines) && CleanLines(b.lines) && !Conflict(a.lines, b.lines)
    ensures Says(Union(a, b), f) <==> Says(a, f) || Says(b, f)
  {
    if f.Checked? && f.line in a.lines && f.line in b.lines {
      assert !Clash(a.lines[f.line].checksum, b.lines[f.line].checksum);
    }
  }

  lemma UnionReportsSay(a: Report, b: Report, source: string, f: Fact)
    requires CleanReport(a) && CleanReport(b) && !ReportConflict(a, b)
    ensures SaysOf(UnionReports(a, b), source, f) <==> SaysOf(a, source, f) || SaysOf(b, source, f)
  {
    hide Says, Union, Conflict, CleanLines;
    if source in a && source in b {
      UnionSays(a[source], b[source], f);
    }
  }

  lemma StatedWithout(m: Report, norm: string -> string, source: string, f: Fact, s: string)
    requires s in m
    ensures StatedBy(m, norm, source, f) <==> StatedBy(m - {s}, norm, source, f) || (norm(s) == source && Says(m[s], f))
  {
    hide Says;
    if StatedBy(m, norm, source, f) {
      var t :| t in m && norm(t) == source && Says(m[t], f);
      assert t != s ==> t in m - {s};
    }
  }

  /** The record that is merged in last, whichever it is. */
  lemma LastNormalized(m: Report, norm: string -> string) returns (s: string)
    requires m != map[]
    ensures s in m && |m - {s}| < |m|
    ensures Normalized(m, norm) == Plus(Normalized(m - {s}, norm), Ok(map[norm(s) := m[s]]))
    ensures CleanReport(m) ==> CleanReport(m - {s})
  {
    hide Plus, CleanLines;
    s :| s in m && Normalized(m, norm) == Plus(Normalized(m - {s}, norm), One(norm(s), m[s]));
    assert (m - {s}).Keys == m.Keys - {s};
    assert One(norm(s), m[s]).value == map[norm(s) := m[s]];
  }

  lemma NormalizedNothing(norm: string -> string)
    ensures Normalized(map[], norm) == Ok(map[])
  {
  }

  lemma {:induction false} NormalizedSays(m: Report, norm: string -> string, source: string, f: Fact)
    requires CleanReport(m) && Normalized(m, norm).Ok?
    ensures SaysOf(Normalized(m, norm).value, source, f) <==> StatedBy(m, norm, source, f)
    decreases |m|
  {
    hide Says, Plus, UnionReports, ReportConflict, Normalized, CleanLines;
    NormalizedNothing(norm);
    if m != map[] {
      var s := LastNormalized(m, norm);
      var rest, one := Normalized(m - {s}, norm), map[norm(s) := m[s]];
      PlusFacts(rest, Ok(one));
      NormalizedSays(m - {s}, norm, source, f);
      NormalizedClean(m - {s}, norm);
      UnionReportsSay(rest.value, one, source, f);
      StatedWithout(m, norm, source, f, s);
    }
  }

  lemma PlusFacts(a: Result<Report>, b: Result<Report>)
    ensures Plus(a, b).Ok? <==> a.Ok? && b.Ok? && !ReportConflict(a.value, b.value)
    ensures Plus(a, b).Ok? ==> Plus(a, b).value == UnionReports(a.value, b.value)
  {
    hide UnionReports, ReportConflict;
  }

  lemma StatedLast(reports: seq<Report>, norm: string -> string, source: string, f: Fact)
    requires reports != []
    ensures Stated(reports, norm, source, f)
       <==> Stated(reports[..|reports| - 1], norm, source, f) || StatedBy(reports[|reports| - 1], norm, source, f)
  {
    hide StatedBy;
    var prefix := reports[..|reports| - 1];
    if Stated(prefix, norm, source, f) {
      var i :| 0 <= i < |prefix| && StatedBy(prefix[i], norm, source, f);
      assert StatedBy(reports[i], norm, source, f);
    }
    if Stated(reports, norm, source, f) {
      var i :| 0 <= i < |reports| && StatedBy(reports[i], norm, source, f);
      assert i < |prefix| ==> StatedBy(prefix[i], norm, source, f);
    }
  }

  /** A merged report states of a source exactly what its inputs state of it under normalized names. */
  lemma {:induction false} MergedSays(reports: seq<Report>, norm: string -> string, source: string, f: Fact)
    requires AllClean(reports) && MergedAll(reports, norm).Ok?
    ensures SaysOf(MergedAll(reports, norm).value, source, f) <==> Stated(reports, norm, source, f)
  {
    hide Says, Plus, CleanReport, UnionReports, ReportConflict, Normalized, StatedBy;
    if reports != [] {
      var prefix, last := reports[..|reports| - 1], reports[|reports| - 1];
      PlusFacts(MergedAll(prefix, norm), Normalized(last, norm));
      MergedSays(prefix, norm, source, f);
      NormalizedSays(last, norm, source, f);
      MergedAllClean(prefix, norm);
      NormalizedClean(last, norm);
      UnionReportsSay(MergedAll(prefix, norm).value, Normalized(last, norm).value, source, f);
      StatedLast(reports, norm, source, f);
    }
  }

  // ---------------------------------------------------------------------------
  // Failure

  /** Two statements that one merged line cannot both hold. */
  ghost predicate Contradict(f: Fact, g: Fact) {
    f.Checked? && g.Checked? && f.line == g.line && f.checksum != g.checksum
  }

  /** Statements of sources, from one report or from many. */
  type Statements = (string, Fact) -> bool

  ghost function InReport(m: Report): Statements {
    (source, f) => SaysOf(m, source, f)
  }

  ghost function FromReport(m: Report, norm: string -> string): Statements {
    (source, f) => StatedBy(m, norm, source, f)
  }

  ghost function FromAll(reports: seq<Report>, norm: string -> string): Statements {
    (source, f) => Stated(reports, norm, source, f)
  }

  /** The one says of some line of a source what the other denies. */
  ghost predicate Quarrel(p: Statements, q: Statements) {
    exists source, f, g :: p(source, f) && q(source, g) && Contradict(f, g)
  }

  lemma QuarrelOfUnion(p: Statements, q: Statements, r: Statements)
    requires forall source, f :: r(source, f) <==> p(source, f) || q(source, f)
    ensures Quarrel(r, r) <==> Quarrel(p, p) || Quarrel(q, q) || Quarrel(p, q)
  {
    if Quarrel(p, q) {
      var source, f, g :| p(source, f) && q(source, g) && Contradict(f, g);
      assert r(source, f) && r(source, g);
    }
    if Quarrel(r, r) {
      var source, f, g :| r(source, f) && r(source, g) && Contradict(f, g);
      if p(source, g) && q(source, f) {
        assert Contradict(g, f);
      }
    }
  }

  lemma ConflictIff(a: Report, b: Report)
    ensures ReportConflict(a, b) <==> Quarrel(InReport(a), InReport(b))
  {
    var p, q := InReport(a), InReport(b);
    if ReportConflict(a, b) {
      var s :| s in a && s in b && Conflict(a[s].lines, b[s].lines);
      var n :| n in a[s].lines && n in b[s].lines && Clash(a[s].lines[n].checksum, b[s].lines[n].checksum);
      var f, g := Checked(n, a[s].lines[n].checksum.value), Checked(n, b[s].lines[n].checksum.value);
      assert p(s, f) && q(s, g) && Contradict(f, g);
    }
    if Quarrel(p, q) {
      var source, f, g :| p(source, f) && q(source, g) && Contradict(f, g);
      assert Clash(a[source].lines[f.line].checksum, b[source].lines[f.line].checksum);
    }
  }

  lemma NeverAgainstItself(m: Report)
    ensures !Quarrel(InReport(m), InReport(m))
  {
  }

  /** Merging two results fails exactly where their statements quarrel. */
  lemma PlusFailsIff(a: Result<Report>, b: Result<Report>, p: Statements, q: Statements, r: Statements)
    requires a.Err? <==> Quarrel(p, p)
    requires b.Err? <==> Quarrel(q, q)
    requires a.Ok? ==> forall source, f :: SaysOf(a.value, source, f) <==> p(source, f)
    requires b.Ok? ==> forall source, f :: SaysOf(b.value, source, f) <==> q(source, f)
    requires forall source, f :: r(source, f) <==> p(source, f) || q(source, f)
    ensures Plus(a, b).Err? <==> Quarrel(r, r)
  {
    hide SaysOf, Contradict, ReportConflict, UnionReports;
    PlusFacts(a, b);
    QuarrelOfUnion(p, q, r);
    if a.Ok? && b.Ok? {
      ConflictIff(a.value, b.value);
      SameStatements(InReport(a.value), p, InReport(b.value), q);
    }
  }

  lemma SameStatements(p: Statements, p': Statements, q: Statements, q': Statements)
    requires forall source, f :: p(source, f) <==> p'(source, f)
    requires forall source, f :: q(source, f) <==> q'(source, f)
    ensures Quarrel(p, q) <==> Quarrel(p', q')
  {
    if Quarrel(p, q) {
      var source, f, g :| p(source, f) && q(source, g) && Contradict(f, g);
      assert p'(source, f) && q'(source, g);
    }
    if Quarrel(p', q') {
      var source, f, g :| p'(source, f) && q'(source, g) && Contradict(f, g);
      assert p(source, f) && q(source, g);
    }
  }

  lemma {:induction false} NormalizedFailsIff(m: Report, norm: string -> string)
    requires CleanReport(m)
    ensures Normalized(m, norm).Err? <==> Quarrel(FromReport(m, norm), FromReport(m, norm))
    decreases |m|
  {
    hide Says, Plus, CleanReport, SaysOf, StatedBy, Contradict, Quarrel, Normalized;
    NormalizedNothing(norm);
    if m == map[] {
      NothingStated(norm);
    } else {
      var s := LastNormalized(m, norm);
      var rest, one := Normalized(m - {s}, norm), map[norm(s) := m[s]];
      NormalizedFailsIff(m - {s}, norm);
      NeverAgainstItself(one);
      if rest.Ok? {
        forall source, f
          ensures SaysOf(rest.value, source, f) <==> StatedBy(m - {s}, norm, source, f)
        {
          NormalizedSays(m - {s}, norm, source, f);
        }
      }
      forall source, f
        ensures StatedBy(m, norm, source, f) <==> StatedBy(m - {s}, norm, source, f) || SaysOf(one, source, f)
      {
        StatedWithout(m, norm, source, f, s);
        OneSays(norm(s), m[s], source, f);
      }
      PlusFailsIff(rest, Ok(one), FromReport(m - {s}, norm), InReport(one), FromReport(m, norm));
    }
  }

  lemma OneSays(name: string, record: Record, source: string, f: Fact)
    ensures SaysOf(map[name := record], source, f) <==> name == source && Says(record, f)
  {
  }

  lemma NothingStated(norm: string -> string)
    ensures !Quarrel(FromReport(map[], norm), FromReport(map[], norm))
    ensures !Quarrel(FromAll([], norm), FromAll([], norm))
  {
  }

  /** Merging fails exactly when two inputs, or two sources of one input that share a name, state
      different checksums for one line. */
  lemma {:induction false} MergeFailsIff(reports: seq<Report>, norm: string -> string)
    requires AllClean(reports)
    ensures MergedAll(reports, norm).Err? <==> Quarrel(FromAll(reports, norm), FromAll(reports, norm))
  {
    hide Says, Plus, CleanReport, SaysOf, StatedBy, Stated, Contradict, Quarrel, Normalized;
    if reports == [] {
      NothingStated(norm);
    } else {
      var prefix, last := reports[..|reports| - 1], reports[|reports| - 1];
      var x, y := MergedAll(prefix, norm), Normalized(last, norm);
      MergeFailsIff(prefix, norm);
      NormalizedFailsIff(last, norm);
      if x.Ok? {
        forall source, f
          ensures SaysOf(x.value, source, f) <==> Stated(prefix, norm, source, f)
        {
          MergedSays(prefix, norm, source, f);
        }
      }
      if y.Ok? {
        forall source, f
          ensures SaysOf(y.value, source, f) <==> StatedBy(last, norm, source, f)
        {
          NormalizedSays(last, norm, source, f);
        }
      }
      forall source, f
        ensures Stated(reports, norm, source, f) <==> Stated(prefix, norm, source, f) || StatedBy(last, norm, source, f)
      {
        StatedLast(reports, norm, source, f);
      }
      PlusFailsIff(x, y, FromAll(prefix, norm), FromReport(last, norm), FromAll(reports, norm));
    }
  }

  // ---------------------------------------------------------------------------
  // Counts

  datatype Counter = HitsOf(line: nat) | CallsOf(name: string) | TimesTaken(branch: Branch)

  function Count(r: Record, c: Counter): int {
    match c
    case HitsOf(line) => if line in r.lines then r.lines[line].hits else 0
    case CallsOf(name) => if name in r.functionHits then r.functionHits[name] else 0
    case TimesTaken(branch) => if branch in r.branches && r.branches[branch].Some? then r.branches[branch].value else 0
  }

  function CountOf(m: Report, source: string, c: Counter): int {
    if source in m then Count(m[source], c) else 0
  }

  /** The counts of a report's records that share the normalized name. */
  ghost function CountsUnder(m: Report, norm: string -> string, source: string, c: Counter): map<string, int> {
    map s | s in m && norm(s) == source :: Count(m[s], c)
  }

  /** Their sum, over all inputs. */
  ghost function CountedBy(reports: seq<Report>, norm: string -> string, source: string, c: Counter): int {
    if reports == [] then 0
    else
      CountedBy(reports[..|reports| - 1], norm, source, c)
      + Counts.Total(CountsUnder(reports[|reports| - 1], norm, source, c))
  }

  lemma UnionCounts(a: Report, b: Report, source: string, c: Counter)
    ensures CountOf(UnionReports(a, b), source, c) == CountOf(a, source, c) + CountOf(b, source, c)
  {
  }

  lemma CountsWithout(m: Report, norm: string -> string, source: string, c: Counter, s: string)
    requires s in m
    ensures Counts.Total(CountsUnder(m, norm, source, c))
         == Counts.Total(CountsUnder(m - {s}, norm, source, c)) + (if norm(s) == source then Count(m[s], c) else 0)
  {
    hide Count;
    var all, rest := CountsUnder(m, norm, source, c), CountsUnder(m - {s}, norm, source, c);
    if norm(s) == source {
      Counts.TotalRemove(all, s);
      assert all - {s} == rest;
    } else {
      assert all == rest;
    }
  }

  lemma {:induction false} NormalizedCounts(m: Report, norm: string -> string, source: string, c: Counter)
    requires Normalized(m, norm).Ok?
    ensures CountOf(Normalized(m, norm).value, source, c) == Counts.Total(CountsUnder(m, norm, source, c))
    decreases |m|
  {
    hide Count, Plus, UnionReports, ReportConflict, CountsUnder, Normalized;
    NormalizedNothing(norm);
    if m == map[] {
      NoCounts(norm, source, c);
    } else {
      var s := LastNormalized(m, norm);
      var rest, one := Normalized(m - {s}, norm), map[norm(s) := m[s]];
      PlusFacts(rest, Ok(one));
      NormalizedCounts(m - {s}, norm, source, c);
      UnionCounts(rest.value, one, source, c);
      CountsWithout(m, norm, source, c, s);
    }
  }

  lemma NoCounts(norm: string -> string, source: string, c: Counter)
    ensures CountsUnder(map[], norm, source, c) == map[]
  {
  }

  /** No execution is lost or counted twice: every count of a merged report is the sum of the counts of
      its inputs. */
  lemma {:induction false} CountsConserved(reports: seq<Report>, norm: string -> string, source: string, c: Counter)
    requires MergedAll(reports, norm).Ok?
    ensures CountOf(MergedAll(reports, norm).value, source, c) == CountedBy(reports, norm, source, c)
  {
    hide Count, Plus, UnionReports, ReportConflict, CountsUnder, Normalized;
    if reports != [] {
      var prefix, last := reports[..|reports| - 1], reports[|reports| - 1];
      PlusFacts(MergedAll(prefix, norm), Normalized(last, norm));
      CountsConserved(prefix, norm, source, c);
      NormalizedCounts(last, norm, source, c);
      UnionCounts(MergedAll(prefix, norm).value, Normalized(last, norm).value, source, c);
    }
  }
}
