/** What a text has to be for the reader to accept it, and what the report read from it then says, line
    by line (scripts/merge_lcov.py, parse_lcov). */
module LcovReading {
  import opened Common
  import opened Text
  import opened LcovMerge
  import opened LcovFormat
  import opened LcovContents
  import LcovRoundTrip
  import Counts

  // ---------------------------------------------------------------------------
  // How each entry is spelled

  /** The text is a number that is not negative. */
  predicate IsCount(text: string, n: nat) {
    ParseInt(text) == Some(n)
  }

  ghost predicate SpellsFunctionHits(line: string, name: string, hits: nat) {
    exists a :: NoComma(a) && IsCount(a, hits) && name != "" && line == "FNDA:" + (a + "," + name)
  }

  /** Number and hits, and then nothing, a comma, or a comma and the checksum. */
  ghost predicate SpellsLineHits(line: string, number: nat, hits: nat, checksum: Option<string>) {
    exists a, b :: LineHitsAs(line, a, b, number, hits, checksum)
  }

  predicate LineHitsAs(line: string, a: string, b: string, number: nat, hits: nat, checksum: Option<string>) {
    && NoComma(a) && NoComma(b) && IsCount(a, number) && IsCount(b, hits)
    && match checksum
       case None => line == "DA:" + (a + "," + b) || line == "DA:" + (a + "," + (b + "," + ""))
       case Some(sum) => sum != "" && line == "DA:" + (a + "," + (b + "," + sum))
  }

  ghost predicate SpellsBranchHits(line: string, key: Branch, taken: Option<nat>) {
    exists a, d :: BranchHitsAs(line, a, d, key, taken)
  }

  predicate BranchHitsAs(line: string, a: string, d: string, key: Branch, taken: Option<nat>) {
    && NoComma(a) && IsCount(a, key.line) && NoComma(key.block) && NoComma(key.branch)
    && line == "BRDA:" + (a + "," + (key.block + "," + (key.branch + "," + d)))
    && if taken.None? then d == "-" else d != "-" && IsCount(d, taken.value)
  }

  ghost predicate SpellsSummary(line: string) {
    exists tag, text, n: nat ::
      tag in {"FNF:", "FNH:", "BRF:", "BRH:", "LF:", "LH:"} && line == tag + text && IsCount(text, n)
  }

  /** The stripped line is a spelling of the entry. */
  ghost predicate Spells(line: string, e: Entry)
    requires !e.Malformed?
  {
    match e
    case Skip => line == "" || "TN:" <= line
    case Start(source) => line == "SF:" + source
    case End => line == "end_of_record"
    case Function(definition) => line == "FN:" + definition && !NoComma(definition)
    case FunctionHits(name, hits) => SpellsFunctionHits(line, name, hits)
    case LineHits(number, hits, checksum) => SpellsLineHits(line, number, hits, checksum)
    case BranchHits(key, taken) => SpellsBranchHits(line, key, taken)
    case Summary => SpellsSummary(line)
  }

  lemma FunctionHitsOut(text: string)
    ensures var e := ReadFunctionHits(text);
            e.FunctionHits? ==> SpellsFunctionHits("FNDA:" + text, e.name, e.hits)
    ensures var e := ReadFunctionHits(text); e.FunctionHits? || e.Malformed?
  {
    var parts := SplitComma(text, 1);
    JoinSplitComma(text, 1);
    if |parts| == 2 {
      assert parts[1..] == [parts[1]];
      assert text == parts[0] + "," + parts[1];
    }
  }

  lemma LineHitsOut(text: string)
    ensures var e := ReadLineHits(text);
            e.LineHits? ==> SpellsLineHits("DA:" + text, e.number, e.hits, e.checksum)
    ensures var e := ReadLineHits(text); e.LineHits? || e.Malformed?
  {
    hide SplitComma, NoComma, ParseInt, JoinComma;
    var parts, e := SplitComma(text, 2), ReadLineHits(text);
    JoinSplitComma(text, 2);
    JoinedParts(parts);
    if e.LineHits? {
      SplitPlain(text, 2);
      assert LineHitsAs("DA:" + text, parts[0], parts[1], e.number, e.hits, e.checksum);
    }
  }

  lemma BranchHitsOut(text: string)
    ensures var e := ReadBranchHits(text);
            e.BranchHits? ==> SpellsBranchHits("BRDA:" + text, e.key, e.taken)
    ensures var e := ReadBranchHits(text); e.BranchHits? || e.Malformed?
  {
    hide SplitComma, NoComma, ParseInt, JoinComma;
    var parts, e := SplitComma(text, 3), ReadBranchHits(text);
    JoinSplitComma(text, 3);
    JoinedParts(parts);
    if e.BranchHits? {
      SplitPlain(text, 3);
      assert BranchHitsAs("BRDA:" + text, parts[0], parts[3], e.key, e.taken);
    }
  }

  lemma JoinedParts(parts: seq<string>)
    requires parts != []
    ensures |parts| == 2 ==> JoinComma(parts) == parts[0] + "," + parts[1]
    ensures |parts| == 3 ==> JoinComma(parts) == parts[0] + "," + (parts[1] + "," + parts[2])
    ensures |parts| == 4 ==> JoinComma(parts) == parts[0] + "," + (parts[1] + "," + (parts[2] + "," + parts[3]))
  {
  }

  lemma SplitPlain(text: string, max: nat)
    ensures var parts := SplitComma(text, max);
            && (forall i :: 0 <= i < |parts| - 1 ==> NoComma(parts[i]))
            && (|parts| <= max ==> NoComma(parts[|parts| - 1]))
  {
    hide NoComma;
  }

  lemma FunctionHitsIn(line: string, name: string, hits: nat)
    requires SpellsFunctionHits(line, name, hits)
    ensures ReadStripped(line) == FunctionHits(name, hits)
  {
    hide ReadStripped, ParseInt;
    var a :| NoComma(a) && IsCount(a, hits) && name != "" && line == "FNDA:" + (a + "," + name);
    LcovRoundTrip.DispatchFunctionHits(a + "," + name);
    SplitFirstField(a, name, 0);
  }

  lemma LineHitsIn(line: string, number: nat, hits: nat, checksum: Option<string>)
    requires SpellsLineHits(line, number, hits, checksum)
    ensures ReadStripped(line) == LineHits(number, hits, checksum)
  {
    hide ReadStripped, ParseInt, SplitComma, NoComma, LineHitsAs;
    var a, b :| LineHitsAs(line, a, b, number, hits, checksum);
    LineHitsRead(line, a, b, number, hits, checksum);
  }

  lemma LineHitsRead(line: string, a: string, b: string, number: nat, hits: nat, checksum: Option<string>)
    requires LineHitsAs(line, a, b, number, hits, checksum)
    ensures ReadStripped(line) == LineHits(number, hits, checksum)
  {
    hide ReadStripped, ParseInt, SplitComma, NoComma;
    var sum := checksum.GetOr("");
    if line == "DA:" + (a + "," + b) && checksum.None? {
      LcovRoundTrip.DispatchLineHits(a + "," + b);
      SplitFirstField(a, b, 1);
      SplitSingle(b, 1);
    } else {
      LcovRoundTrip.DispatchLineHits(a + "," + (b + "," + sum));
      SplitFirstField(a, b + "," + sum, 1);
      SplitFirstField(b, sum, 0);
      LcovRoundTrip.SplitNone(sum);
    }
  }

  lemma BranchHitsIn(line: string, key: Branch, taken: Option<nat>)
    requires SpellsBranchHits(line, key, taken)
    ensures ReadStripped(line) == BranchHits(key, taken)
  {
    hide ReadStripped, ParseInt, SplitComma, NoComma;
    var a, d :| BranchHitsAs(line, a, d, key, taken);
    LcovRoundTrip.DispatchBranchHits(a + "," + (key.block + "," + (key.branch + "," + d)));
    LcovRoundTrip.SplitBranch(a, key.block, key.branch, d);
  }

  lemma SummaryIn(line: string)
    requires SpellsSummary(line)
    ensures ReadStripped(line) == Summary
  {
    hide ReadStripped, ParseInt;
    var tag, text, n: nat :|
      tag in {"FNF:", "FNH:", "BRF:", "BRH:", "LF:", "LH:"} && line == tag + text && IsCount(text, n);
    if tag == "LF:" || tag == "LH:" {
      LcovRoundTrip.DispatchSummary3(tag, text);
    } else {
      LcovRoundTrip.DispatchSummary4(tag, text);
    }
  }

  lemma PlainIn(line: string, e: Entry)
    requires e.Skip? || e.Start? || e.End? || e.Function?
    requires Spells(line, e)
    ensures ReadStripped(line) == e
  {
    hide ReadFunctionHits, ReadLineHits, ReadBranchHits, ReadSummary, NoComma;
    match e
    case Skip =>
    case Start(source) =>
      assert line[0] == 'S' && "TN:"[0] == 'T' && line[3..] == source;
    case End =>
      assert line[0] == 'e' && "TN:"[0] == 'T' && "SF:"[0] == 'S';
    case Function(definition) =>
      assert line[0] == 'F' && "TN:"[0] == 'T' && "SF:"[0] == 'S' && "end_of_record"[0] == 'e' && line[3..] == definition;
  }

  lemma SummaryOut(tag: string, line: string)
    requires tag in {"FNF:", "FNH:", "BRF:", "BRH:", "LF:", "LH:"} && tag <= line
    requires ReadSummary(line[|tag|..]) == Summary
    ensures SpellsSummary(line)
  {
    hide ParseInt;
    var text := line[|tag|..];
    assert line == tag + text;
    assert IsCount(text, NonNegative(text).value);
  }

  lemma Cut(tag: string, line: string)
    requires tag <= line
    ensures line == tag + line[|tag|..]
  {
  }

  lemma ReadOut(line: string)
    requires !ReadStripped(line).Malformed?
    ensures Spells(line, ReadStripped(line))
  {
    hide ReadFunctionHits, ReadLineHits, ReadBranchHits, ReadSummary, NoComma, SpellsFunctionHits, SpellsLineHits, SpellsBranchHits,
      SpellsSummary;
    if line == "" || "TN:" <= line {
    } else if "SF:" <= line {
      Cut("SF:", line);
    } else if line == "end_of_record" {
    } else if "FN:" <= line {
      Cut("FN:", line);
    } else if "FNDA:" <= line {
      Cut("FNDA:", line);
      FunctionHitsOut(line[5..]);
    } else if "DA:" <= line {
      Cut("DA:", line);
      LineHitsOut(line[3..]);
    } else if "BRDA:" <= line {
      Cut("BRDA:", line);
      BranchHitsOut(line[5..]);
    } else {
      SummaryOrNot(line);
    }
  }

  lemma SummaryOrNot(line: string)
    requires !ReadSummaryLine(line).Malformed?
    ensures ReadSummaryLine(line) == Summary && SpellsSummary(line)
  {
    hide ParseInt, SpellsSummary;
    var tag :| tag in {"FNF:", "FNH:", "BRF:", "BRH:", "LF:", "LH:"} && tag <= line
               && ReadSummaryLine(line) == ReadSummary(line[|tag|..]);
    SummaryOut(tag, line);
  }

  function ReadSummaryLine(line: string): Entry {
    if "FNF:" <= line || "FNH:" <= line || "BRF:" <= line || "BRH:" <= line then ReadSummary(line[4..])
    else if "LF:" <= line || "LH:" <= line then ReadSummary(line[3..])
    else Malformed
  }

  /** A stripped line is read as an entry exactly when it is a spelling of it. */
  lemma ReadIff(line: string, e: Entry)
    requires !e.Malformed?
    ensures ReadStripped(line) == e <==> Spells(line, e)
  {
    hide ReadStripped, SpellsFunctionHits, SpellsLineHits, SpellsBranchHits, SpellsSummary;
    if ReadStripped(line) == e {
      ReadOut(line);
    }
    if Spells(line, e) {
      match e
      case FunctionHits(name, hits) => FunctionHitsIn(line, name, hits);
      case LineHits(number, hits, checksum) => LineHitsIn(line, number, hits, checksum);
      case BranchHits(key, taken) => BranchHitsIn(line, key, taken);
      case Summary => SummaryIn(line);
      case _ => PlainIn(line, e);
    }
  }

  // ---------------------------------------------------------------------------
  // Lines in their places

  /** The source whose record is open before line i. */
  function OpenAt(es: seq<Entry>, i: nat): Option<string>
    requires i <= |es|
  {
    if i == 0 then None
    else
      match es[i - 1]
      case Start(source) => Some(source)
      case End => None
      case _ => OpenAt(es, i - 1)
  }

  /** A record is opened where none is open and under a name, closed where one is open, and every
      other line that says something stands inside a record and is well formed. */
  predicate InPlace(es: seq<Entry>, i: nat)
    requires i < |es|
  {
    match es[i]
    case Skip => true
    case Start(source) => OpenAt(es, i).None? && source != ""
    case Malformed => false
    case _ => OpenAt(es, i).Some?
  }

  ghost predicate WellPlaced(es: seq<Entry>) {
    (forall i :: 0 <= i < |es| ==> InPlace(es, i)) && OpenAt(es, |es|).None?
  }

  // ---------------------------------------------------------------------------
  // What the lines say

  /** What the entry states of the source whose record it stands in. */
  predicate EntryStates(e: Entry, f: Fact) {
    match e
    case Function(definition) => f == Present || f == Defined(definition)
    case FunctionHits(name, _) => f == Present || f == Called(name)
    case LineHits(number, _, checksum) =>
      f == Present || f == Instrumented(number) || (checksum.Some? && f == Checked(number, checksum.value))
    case BranchHits(key, taken) => f == Present || f == Branching(key) || (taken.Some? && f == Evaluated(key))
    case Summary => f == Present
    case _ => false
  }

  function EntryCount(e: Entry, c: Counter): int {
    match e
    case FunctionHits(name, hits) => if c == CallsOf(name) then hits else 0
    case LineHits(number, hits, _) => if c == HitsOf(number) then hits else 0
    case BranchHits(key, taken) => if c == TimesTaken(key) && taken.Some? then taken.value else 0
    case _ => 0
  }

  /** Line i states the fact of the source. */
  predicate LineStates(es: seq<Entry>, i: nat, source: string, f: Fact)
    requires i < |es|
  {
    if es[i].Start? then es[i].source == source && f == Present
    else OpenAt(es, i) == Some(source) && EntryStates(es[i], f)
  }

  /** What the first n lines add to a count of the source. */
  function LinesCount(es: seq<Entry>, n: nat, source: string, c: Counter): int
    requires n <= |es|
  {
    if n == 0 then 0
    else
      LinesCount(es, n - 1, source, c) + if OpenAt(es, n - 1) == Some(source) then EntryCount(es[n - 1], c) else 0
  }

  // ---------------------------------------------------------------------------
  // Reading is merging one line after the other

  /** The record of a single entry. */
  function RecordOf(e: Entry): Record {
    match e
    case Function(definition) => EMPTY_RECORD.(functions := {definition})
    case FunctionHits(name, hits) => EMPTY_RECORD.(functionHits := map[name := hits])
    case LineHits(number, hits, checksum) => EMPTY_RECORD.(lines := map[number := Line(hits, checksum)])
    case BranchHits(key, taken) => EMPTY_RECORD.(branches := map[key := taken])
    case _ => EMPTY_RECORD
  }

  /** The report that consists of line i alone. */
  function LineReport(es: seq<Entry>, i: nat): Report
    requires i < |es|
  {
    match es[i]
    case Start(source) => map[source := EMPTY_RECORD]
    case Skip => map[]
    case End => map[]
    case Malformed => map[]
    case e => if OpenAt(es, i).Some? then map[OpenAt(es, i).value := RecordOf(e)] else map[]
  }

  function LineReports(es: seq<Entry>, n: nat): (reports: seq<Report>)
    requires n <= |es|
    ensures |reports| == n && forall i :: 0 <= i < n ==> reports[i] == LineReport(es, i)
  {
    if n == 0 then [] else LineReports(es, n - 1) + [LineReport(es, n - 1)]
  }

  const SAME: string -> string := (s: string) => s

  lemma MergeNothing(r: Record)
    ensures r.functions + {} == r.functions && MergeHits(r.functionHits, map[]) == r.functionHits
    ensures MergeLines(r.lines, map[]) == r.lines && MergeBranches(r.branches, map[]) == r.branches
    ensures !Conflict(r.lines, map[])
  {
  }

  lemma MergeOneHits(m: map<string, nat>, name: string, hits: nat)
    ensures MergeHits(m, map[name := hits]) == m[name := (if name in m then m[name] else 0) + hits]
  {
  }

  lemma MergeOneBranch(m: map<Branch, Option<nat>>, key: Branch, taken: Option<nat>)
    ensures MergeBranches(m, map[key := taken]) == m[key := AddTaken(if key in m then m[key] else None, taken)]
  {
  }

  lemma MergeOneLine(m: map<nat, Line>, n: nat, line: Line)
    requires CleanLines(m) && line.checksum != Some("")
    ensures Conflict(m, map[n := line]) <==> n in m && Clash(m[n].checksum, line.checksum)
    ensures MergeLines(m, map[n := line])
         == m[n := if n in m then Line(m[n].hits + line.hits, OrElse(m[n].checksum, line.checksum)) else line]
  {
    var one := map[n := line];
    assert n in one && one[n] == line;
  }

  /** Adding an entry to a record is merging the record of that entry. */
  lemma AddEntryMerges(r: Record, e: Entry)
    requires CleanLines(r.lines) && CleanEntry(e)
    requires !e.Skip? && !e.Start? && !e.End? && !e.Malformed?
    ensures AddEntry(r, e) == Merge(r, RecordOf(e))
  {
    hide MergeHits, MergeLines, MergeBranches, Conflict, CleanLines;
    MergeNothing(r);
    match e
    case Function(definition) =>
    case FunctionHits(name, hits) => MergeOneHits(r.functionHits, name, hits);
    case LineHits(number, hits, checksum) => MergeOneLine(r.lines, number, Line(hits, checksum));
    case BranchHits(key, taken) => MergeOneBranch(r.branches, key, taken);
    case Summary =>
  }

  lemma OneNormalized(m: Report)
    requires |m| <= 1
    ensures Normalized(m, SAME) == Ok(m)
  {
    hide Plus, Normalized;
    NormalizedEmpty(SAME);
    if m != map[] {
      var s := LastNormalized(m, SAME);
      assert |m - {s}| == 0 && m - {s} == map[];
      JustOneSource(m, s);
      PlusOneAlone(s, m[s]);
    }
  }

  lemma JustOneSource(m: Report, s: string)
    requires s in m && m - {s} == map[]
    ensures m == map[s := m[s]]
  {
    assert forall t :: t in m && t != s ==> t in m - {s};
  }

  lemma PlusOneAlone(s: string, r: Record)
    ensures Plus(Ok(map[]), Ok(map[s := r])) == Ok(map[s := r])
  {
    hide Plus, Conflict, Union;
    PlusOneIsPut(map[], s, r);
    assert One(s, r).value == map[s := r];
    assert Put(map[], s, r) == map[s := r];
  }

  /** The reader's state agrees with the merge of the lines read: closed records are merged already, an
      open one would be, and a failed reader has met a conflict. */
  ghost predicate Agrees(s: State, open: Option<string>, merged: Result<Report>) {
    if s.Failed? then merged.Err?
    else if s.current.None? then open.None? && merged == Ok(s.records)
    else
      && open == Some(s.current.value.source)
      && merged == Plus(Ok(s.records), One(s.current.value.source, s.current.value.record))
  }

  lemma PlusNothing(m: Result<Report>)
    ensures Plus(m, Ok(map[])) == m
  {
    hide Plus;
    if m.Ok? {
      PlusEmpty(m.value);
    } else {
      PlusFacts(m, Ok(map[]));
    }
  }

  lemma StepData(s: State, e: Entry, source: string, merged: Result<Report>)
    requires Agrees(s, Some(source), merged) && CleanState(s) && CleanEntry(e)
    requires !e.Skip? && !e.Start? && !e.End? && !e.Malformed?
    ensures Agrees(Step(s, e), Some(source), Plus(merged, One(source, RecordOf(e))))
  {
    hide AddEntry, RecordOf, Merge, Plus, CleanLines;
    PlusFacts(merged, One(source, RecordOf(e)));
    if s.Reading? {
      var o := s.current.value;
      AddEntryMerges(o.record, e);
      RecordOfClean(e);
      OneClean(source, o.record);
      OneClean(source, RecordOf(e));
      PlusAssociative(Ok(s.records), One(source, o.record), One(source, RecordOf(e)));
      PlusSame(source, o.record, RecordOf(e));
      PlusFacts(Ok(s.records), Err);
    }
  }

  lemma RecordOfClean(e: Entry)
    requires CleanEntry(e)
    ensures CleanLines(RecordOf(e).lines)
  {
  }

  lemma PlusSame(source: string, a: Record, b: Record)
    ensures Plus(One(source, a), One(source, b)) == if Merge(a, b).Err? then Err else One(source, Merge(a, b).value)
  {
    hide Conflict, Union, Plus;
    PlusOneIsPut(map[source := a], source, b);
    var one := map[source := a];
    assert source in one && one[source] == a;
    assert One(source, a) == Ok(one);
    if Merge(a, b).Ok? {
      assert Put(one, source, b) == map[source := Union(a, b)];
    }
  }

  lemma StepAgrees(s: State, es: seq<Entry>, i: nat, merged: Result<Report>)
    requires i < |es| && InPlace(es, i) && Agrees(s, OpenAt(es, i), merged)
    requires CleanState(s) && CleanEntry(es[i])
    ensures Agrees(Step(s, es[i]), OpenAt(es, i + 1), Plus(merged, Ok(LineReport(es, i))))
  {
    hide AddEntry, RecordOf, Plus, CleanLines, Conflict, Put;
    PlusNothing(merged);
    match es[i]
    case Skip =>
    case Start(source) =>
      assert LineReport(es, i) == One(source, EMPTY_RECORD).value;
      PlusFacts(merged, Ok(LineReport(es, i)));
    case End =>
      if s.Reading? {
        var o := s.current.value;
        PlusOneIsPut(s.records, o.source, o.record);
      }
    case Malformed =>
    case e =>
      var source := OpenAt(es, i).value;
      assert LineReport(es, i) == One(source, RecordOf(e)).value;
      StepData(s, e, source, merged);
  }

  lemma FoldLast(es: seq<Entry>, n: nat)
    requires n < |es|
    ensures Fold(INITIAL, es[..n + 1]) == Step(Fold(INITIAL, es[..n]), es[n])
  {
    hide Step;
    assert es[..n + 1] == es[..n] + [es[n]];
    FoldConcat(INITIAL, es[..n], [es[n]]);
    var s := Fold(INITIAL, es[..n]);
    assert [es[n]][1..] == [];
    assert Fold(s, [es[n]]) == Fold(Step(s, es[n]), []);
  }

  lemma {:induction false} PrefixAgrees(es: seq<Entry>, n: nat)
    requires n <= |es| && (forall i :: 0 <= i < |es| ==> CleanEntry(es[i])) && forall i :: 0 <= i < n ==> InPlace(es, i)
    ensures CleanState(Fold(INITIAL, es[..n]))
    ensures Agrees(Fold(INITIAL, es[..n]), OpenAt(es, n), MergedAll(LineReports(es, n), SAME))
  {
    hide Agrees, Step, CleanState, Plus, Normalized, InPlace, CleanEntry, OpenAt;
    if n == 0 {
      InitialAgrees(es);
    } else {
      PrefixAgrees(es, n - 1);
      var s, reports := Fold(INITIAL, es[..n - 1]), LineReports(es, n);
      FoldLast(es, n - 1);
      StepClean(s, es[n - 1]);
      StepAgrees(s, es, n - 1, MergedAll(LineReports(es, n - 1), SAME));
      assert reports[..n - 1] == LineReports(es, n - 1) && reports[n - 1] == LineReport(es, n - 1);
      SmallReport(es, n - 1);
      OneNormalized(LineReport(es, n - 1));
    }
  }

  lemma InitialAgrees(es: seq<Entry>)
    ensures CleanState(Fold(INITIAL, es[..0]))
    ensures Agrees(Fold(INITIAL, es[..0]), OpenAt(es, 0), MergedAll([], SAME))
  {
  }

  lemma SmallReport(es: seq<Entry>, i: nat)
    requires i < |es|
    ensures |LineReport(es, i)| <= 1
  {
    hide RecordOf;
    var m := LineReport(es, i);
    if m != map[] {
      var s :| s in m;
      assert m.Keys == {s} && |m| == |m.Keys|;
    }
  }

  lemma MisplacedStep(s: State, es: seq<Entry>, i: nat, merged: Result<Report>)
    requires i < |es| && !InPlace(es, i) && Agrees(s, OpenAt(es, i), merged)
    ensures Step(s, es[i]) == Failed
  {
    hide AddEntry, Close, Plus;
    if es[i].Malformed? && s.Reading? && s.current.Some? {
      MalformedNever(s.current.value.record);
    }
  }

  lemma MalformedNever(r: Record)
    ensures AddEntry(r, Malformed) == Err
  {
  }

  /** A line out of place stops the reader for good. */
  lemma MisplacedFails(es: seq<Entry>, i: nat)
    requires i < |es| && (forall k :: 0 <= k < |es| ==> CleanEntry(es[k]))
    requires !InPlace(es, i) && forall k :: 0 <= k < i ==> InPlace(es, k)
    ensures Fold(INITIAL, es) == Failed
  {
    hide Fold, Step, InPlace, Agrees, MergedAll, OpenAt;
    PrefixAgrees(es, i);
    MisplacedStep(Fold(INITIAL, es[..i]), es, i, MergedAll(LineReports(es, i), SAME));
    FoldLast(es, i);
    assert es == es[..i + 1] + es[i + 1..];
    FoldConcat(INITIAL, es[..i + 1], es[i + 1..]);
    FailedStays(es[i + 1..]);
  }

  function EntriesOf(text: string): seq<Entry> {
    ReadLines(SplitLines(text))
  }

  lemma {:induction false} ReadLinesClean(lines: seq<string>)
    ensures forall i :: 0 <= i < |lines| ==> CleanEntry(ReadLines(lines)[i]) && ReadLines(lines)[i] == ReadLine(lines[i])
  {
    hide ReadLine, CleanEntry;
    if lines != [] {
      ReadLinesClean(lines[1..]);
      ReadLineClean(lines[0]);
    }
  }

  lemma FinishAgrees(s: State, open: Option<string>, merged: Result<Report>)
    requires Agrees(s, open, merged)
    ensures Finish(s) == if open.None? then merged else Err
  {
    hide Plus;
  }

  lemma FinishFailed()
    ensures Finish(Failed) == Err
  {
  }

  /** A text is read as the merge of its lines if each is in its place, and not at all otherwise. */
  lemma ParseIsMerge(text: string)
    ensures var es := EntriesOf(text);
            Parse(text) == if WellPlaced(es) then MergedAll(LineReports(es, |es|), SAME) else Err
  {
    hide MergedAll, InPlace, OpenAt, ReadLines, SplitLines, Fold, Agrees, Finish, CleanEntry, CleanState, LineReports;
    var es := EntriesOf(text);
    ReadLinesClean(SplitLines(text));
    FinishFailed();
    if forall i :: 0 <= i < |es| ==> InPlace(es, i) {
      PrefixAgrees(es, |es|);
      assert es[..|es|] == es;
      FinishAgrees(Fold(INITIAL, es), OpenAt(es, |es|), MergedAll(LineReports(es, |es|), SAME));
    } else {
      var i := FirstMisplaced(es, |es|);
      MisplacedFails(es, i);
    }
  }

  lemma {:induction false} FirstMisplaced(es: seq<Entry>, n: nat) returns (i: nat)
    requires n <= |es| && exists k :: 0 <= k < n && !InPlace(es, k)
    ensures i < n && !InPlace(es, i) && forall k :: 0 <= k < i ==> InPlace(es, k)
  {
    hide InPlace;
    if exists k :: 0 <= k < n - 1 && !InPlace(es, k) {
      i := FirstMisplaced(es, n - 1);
    } else {
      i := n - 1;
    }
  }

  // ---------------------------------------------------------------------------
  // What a report read from a text says

  lemma LineReportStates(es: seq<Entry>, i: nat, source: string, f: Fact)
    requires i < |es| && InPlace(es, i)
    ensures StatedBy(LineReport(es, i), SAME, source, f) <==> LineStates(es, i, source, f)
  {
    var m := LineReport(es, i);
    if LineStates(es, i, source, f) {
      assert source in m && SAME(source) == source && Says(m[source], f);
    }
  }

  ghost predicate TextStates(es: seq<Entry>, source: string, f: Fact) {
    exists i :: 0 <= i < |es| && LineStates(es, i, source, f)
  }

  lemma TextStatesIff(es: seq<Entry>, source: string, f: Fact)
    requires forall i :: 0 <= i < |es| ==> InPlace(es, i)
    ensures Stated(LineReports(es, |es|), SAME, source, f) <==> TextStates(es, source, f)
  {
    hide StatedBy, LineStates, InPlace;
    var reports := LineReports(es, |es|);
    forall i | 0 <= i < |es|
      ensures StatedBy(reports[i], SAME, source, f) <==> LineStates(es, i, source, f)
    {
      LineReportStates(es, i, source, f);
    }
    if TextStates(es, source, f) {
      var i :| 0 <= i < |es| && LineStates(es, i, source, f);
      assert StatedBy(reports[i], SAME, source, f);
    }
  }

  lemma LineReportsClean(es: seq<Entry>)
    requires forall i :: 0 <= i < |es| ==> CleanEntry(es[i])
    ensures AllClean(LineReports(es, |es|))
  {
    hide CleanEntry, OpenAt, CleanLines;
    forall i | 0 <= i < |es|
      ensures CleanReport(LineReport(es, i))
    {
      RecordOfClean(es[i]);
      EmptyClean();
    }
  }

  lemma EmptyClean()
    ensures CleanLines(EMPTY_RECORD.lines)
  {
  }

  /** The reader rejects a text exactly when a line is out of place or two lines of one source give one
      source line different checksums. */
  lemma ParseFailsIff(text: string)
    ensures var es := EntriesOf(text);
            Parse(text).Err? <==>
              || !WellPlaced(es)
              || exists source, f, g :: TextStates(es, source, f) && TextStates(es, source, g) && Contradict(f, g)
  {
    hide MergedAll, InPlace, OpenAt, ReadLines, SplitLines, Parse, Stated, TextStates, Contradict;
    var es := EntriesOf(text);
    ReadLinesClean(SplitLines(text));
    ParseIsMerge(text);
    if WellPlaced(es) {
      var reports := LineReports(es, |es|);
      LineReportsClean(es);
      MergeFailsIff(reports, SAME);
      forall source, f
        ensures Stated(reports, SAME, source, f) <==> TextStates(es, source, f)
      {
        TextStatesIff(es, source, f);
      }
      QuarrelIs(reports, es);
    }
  }

  lemma QuarrelIs(reports: seq<Report>, es: seq<Entry>)
    requires forall source, f :: Stated(reports, SAME, source, f) <==> TextStates(es, source, f)
    ensures Quarrel(FromAll(reports, SAME), FromAll(reports, SAME)) <==>
      exists source, f, g :: TextStates(es, source, f) && TextStates(es, source, g) && Contradict(f, g)
  {
    hide Stated, TextStates, Contradict;
    var p := FromAll(reports, SAME);
    if Quarrel(p, p) {
      var source, f, g :| p(source, f) && p(source, g) && Contradict(f, g);
      assert TextStates(es, source, f) && TextStates(es, source, g);
    }
    if exists source, f, g :: TextStates(es, source, f) && TextStates(es, source, g) && Contradict(f, g) {
      var source, f, g :| TextStates(es, source, f) && TextStates(es, source, g) && Contradict(f, g);
      assert p(source, f) && p(source, g);
    }
  }

  /** A report read from a text states of a source exactly what the lines of its records state. */
  lemma ParseSays(text: string, source: string, f: Fact)
    requires Parse(text).Ok?
    ensures SaysOf(Parse(text).value, source, f) <==> TextStates(EntriesOf(text), source, f)
  {
    hide MergedAll, InPlace, OpenAt, ReadLines, SplitLines, Parse, Stated, TextStates;
    var es := EntriesOf(text);
    ReadLinesClean(SplitLines(text));
    ParseIsMerge(text);
    LineReportsClean(es);
    MergedSays(LineReports(es, |es|), SAME, source, f);
    TextStatesIff(es, source, f);
  }

  lemma LineReportCounts(es: seq<Entry>, i: nat, source: string, c: Counter)
    requires i < |es| && InPlace(es, i)
    ensures Counts.Total(CountsUnder(LineReport(es, i), SAME, source, c))
         == if OpenAt(es, i) == Some(source) then EntryCount(es[i], c) else 0
  {
    var m := LineReport(es, i);
    var counts := CountsUnder(m, SAME, source, c);
    if source in m {
      assert counts.Keys == {source};
      Counts.TotalRemove(counts, source);
      assert counts - {source} == map[];
    } else {
      assert counts == map[];
    }
  }

  lemma NothingCounted(source: string, c: Counter)
    ensures CountedBy([], SAME, source, c) == 0
  {
  }

  lemma CountedLast(reports: seq<Report>, last: Report, source: string, c: Counter)
    ensures CountedBy(reports + [last], SAME, source, c)
         == CountedBy(reports, SAME, source, c) + Counts.Total(CountsUnder(last, SAME, source, c))
  {
    hide CountsUnder;
    assert (reports + [last])[..|reports|] == reports;
  }

  lemma {:induction false} LinesCountIs(es: seq<Entry>, n: nat, source: string, c: Counter)
    requires n <= |es| && forall i :: 0 <= i < |es| ==> InPlace(es, i)
    ensures CountedBy(LineReports(es, n), SAME, source, c) == LinesCount(es, n, source, c)
  {
    hide InPlace, OpenAt, EntryCount, CountsUnder, LineReport, CountedBy;
    NothingCounted(source, c);
    if n > 0 {
      LinesCountIs(es, n - 1, source, c);
      LineReportCounts(es, n - 1, source, c);
      CountedLast(LineReports(es, n - 1), LineReport(es, n - 1), source, c);
    }
  }

  /** And its counts are the sums over those lines. */
  lemma ParseCounts(text: string, source: string, c: Counter)
    requires Parse(text).Ok?
    ensures var es := EntriesOf(text);
            CountOf(Parse(text).value, source, c) == LinesCount(es, |es|, source, c)
  {
    hide MergedAll, InPlace, OpenAt, ReadLines, SplitLines, Parse, CountedBy, LinesCount;
    var es := EntriesOf(text);
    ParseIsMerge(text);
    CountsConserved(LineReports(es, |es|), SAME, source, c);
    LinesCountIs(es, |es|, source, c);
  }
}
