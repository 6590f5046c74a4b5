/** Reading and writing LCOV text (scripts/merge_lcov.py, parse_lcov, render_lcov): reading a
    concatenation is merging, and reading what was written gives back exactly the reports that
    can be written at all. */
module LcovFormat {
  import opened Common
  import opened Text
  import opened LcovMerge

  // ---------------------------------------------------------------------------
  // One line

  datatype Entry =
    | Skip
    | Start(source: string)
    | End
    | Function(definition: string)
    | FunctionHits(name: string, hits: nat)
    | LineHits(number: nat, hits: nat, checksum: Option<string>)
    | BranchHits(key: Branch, taken: Option<nat>)
    | Summary
    | Malformed

  /** A count; None is the source's error for an unreadable or negative one. */
  function NonNegative(s: string): Option<nat> {
    var v := ParseInt(s);
    if v.None? || v.value < 0 then None else Some(v.value)
  }

  function ReadFunction(text: string): Entry {
    if NoComma(text) then Malformed else Function(text)
  }

  function ReadFunctionHits(text: string): Entry {
    var parts := SplitComma(text, 1);
    if |parts| != 2 || parts[1] == "" then Malformed
    else
      var hits := NonNegative(parts[0]);
      if hits.None? then Malformed else FunctionHits(parts[1], hits.value)
  }

  function ReadLineHits(text: string): Entry {
    var parts := SplitComma(text, 2);
    if |parts| < 2 then Malformed
    else
      var number, hits := NonNegative(parts[0]), NonNegative(parts[1]);
      if number.None? || hits.None? then Malformed
      else LineHits(number.value, hits.value, if |parts| == 3 && parts[2] != "" then Some(parts[2]) else None)
  }

  function ReadBranchHits(text: string): Entry {
    var parts := SplitComma(text, 3);
    if |parts| != 4 then Malformed
    else
      var number := NonNegative(parts[0]);
      var taken := NonNegative(parts[3]);
      if number.None? || (parts[3] != "-" && taken.None?) then Malformed
      else BranchHits(Branch(number.value, parts[1], parts[2]), if parts[3] == "-" then None else taken)
  }

  function ReadSummary(text: string): Entry {
    if NonNegative(text).None? then Malformed else Summary
  }

  /** What a line says once stripped. */
  function ReadStripped(line: string): Entry {
    if line == "" || "TN:" <= line then Skip
    else if "SF:" <= line then Start(line[3..])
    else if line == "end_of_record" then End
    else if "FN:" <= line then ReadFunction(line[3..])
    else if "FNDA:" <= line then ReadFunctionHits(line[5..])
    else if "DA:" <= line then ReadLineHits(line[3..])
    else if "BRDA:" <= line then ReadBranchHits(line[5..])
    else if "FNF:" <= line || "FNH:" <= line || "BRF:" <= line || "BRH:" <= line then ReadSummary(line[4..])
    else if "LF:" <= line || "LH:" <= line then ReadSummary(line[3..])
    else Malformed
  }

  function ReadLine(raw: string): Entry {
    ReadStripped(Strip(raw))
  }

  function ReadLines(lines: seq<string>): (es: seq<Entry>)
    ensures |es| == |lines|
  {
    if lines == [] then [] else [ReadLine(lines[0])] + ReadLines(lines[1..])
  }

  lemma {:induction false} ReadLinesConcat(a: seq<string>, b: seq<string>)
    ensures ReadLines(a + b) == ReadLines(a) + ReadLines(b)
  {
    if a == [] {
      assert a + b == b;
    } else {
      assert (a + b)[1..] == a[1..] + b;
      ReadLinesConcat(a[1..], b);
    }
  }

  // ---------------------------------------------------------------------------
  // A whole report

  function AddEntry(r: Record, e: Entry): Result<Record> {
    match e
    case Function(definition) => Ok(r.(functions := r.functions + {definition}))
    case FunctionHits(name, hits) =>
      var previous := if name in r.functionHits then r.functionHits[name] else 0;
      Ok(r.(functionHits := r.functionHits[name := previous + hits]))
    case LineHits(number, hits, checksum) =>
      var previous := if number in r.lines then r.lines[number] else Line(0, checksum);
      if Clash(previous.checksum, checksum) then Err
      else Ok(r.(lines := r.lines[number := Line(previous.hits + hits, OrElse(previous.checksum, checksum))]))
    case BranchHits(key, taken) =>
      var previous := if key in r.branches then r.branches[key] else None;
      Ok(r.(branches := r.branches[key := AddTaken(previous, taken)]))
    case Summary => Ok(r)
    case _ => Err
  }

  datatype Open = Open(source: string, record: Record)

  datatype State = Failed | Reading(records: Report, current: Option<Open>)

  /** `end_of_record`: the record joins what the source has already contributed. */
  function Close(records: Report, o: Open): Result<Report> {
    if o.source in records && Conflict(records[o.source].lines, o.record.lines) then Err
    else Ok(Put(records, o.source, o.record))
  }

  function Step(s: State, e: Entry): State {
    if s.Failed? then Failed
    else
      match e
      case Skip => s
      case Start(source) =>
        if s.current.Some? || source == "" then Failed
        else s.(current := Some(Open(source, EMPTY_RECORD)))
      case End =>
        if s.current.None? then Failed
        else
          var closed := Close(s.records, s.current.value);
          if closed.Err? then Failed else Reading(closed.value, None)
      case _ =>
        if s.current.None? then Failed
        else
          var added := AddEntry(s.current.value.record, e);
          if added.Err? then Failed else s.(current := Some(s.current.value.(record := added.value)))
  }

  function Fold(s: State, es: seq<Entry>): State
    decreases |es|
  {
    if es == [] then s else Fold(Step(s, es[0]), es[1..])
  }

  function Finish(s: State): Result<Report> {
    if s.Failed? || s.current.Some? then Err else Ok(s.records)
  }

  const INITIAL: State := Reading(map[], None)

  function Parse(text: string): Result<Report> {
    Finish(Fold(INITIAL, ReadLines(SplitLines(text))))
  }

  lemma {:induction false} FoldConcat(s: State, a: seq<Entry>, b: seq<Entry>)
    ensures Fold(s, a + b) == Fold(Fold(s, a), b)
    decreases |a|
  {
    if a == [] {
      assert a + b == b;
    } else {
      assert (a + b)[1..] == a[1..] + b;
      FoldConcat(Step(s, a[0]), a[1..], b);
    }
  }

  // ---------------------------------------------------------------------------
  // Reading a concatenation is merging

  /** No record is left open at the end of the text. */
  predicate Complete(text: string) {
    var s := Fold(INITIAL, ReadLines(SplitLines(text)));
    Terminated(text) && (s.Failed? || s.current.None?)
  }

  ghost predicate CleanState(s: State) {
    s.Reading? ==> CleanReport(s.records) && (s.current.Some? ==> CleanLines(s.current.value.record.lines))
  }

  ghost predicate CleanEntry(e: Entry) {
    e.LineHits? ==> e.checksum != Some("")
  }

  lemma ReadLineClean(raw: string)
    ensures CleanEntry(ReadLine(raw))
  {
    hide Strip, SplitComma, NonNegative;
  }

  lemma StepClean(s: State, e: Entry)
    requires CleanState(s) && CleanEntry(e)
    ensures CleanState(Step(s, e))
  {
    if s.Reading? && s.current.Some? && e.End? && s.current.value.source in s.records {
      MergeKeepsClean(s.records[s.current.value.source], s.current.value.record);
    }
  }

  /** What the reader would hold had it started from `m`. */
  function Lift(m: Report, s: State): State {
    if s.Failed? then Failed
    else
      var r := MergeReport(m, s.records);
      if r.Err? then Failed else Reading(r.value, s.current)
  }

  lemma StepLift(m: Report, s: State, e: Entry)
    requires CleanReport(m) && CleanState(s)
    ensures Step(Lift(m, s), e) == Lift(m, Step(s, e))
  {
    hide MergeReport, Put, Conflict, AddEntry;
    if s.Reading? && s.current.Some? && e.End? {
      var o := s.current.value;
      PlusOneIsPut(s.records, o.source, o.record);
      OneClean(o.source, o.record);
      PlusAssociative(Ok(m), Ok(s.records), One(o.source, o.record));
      var r := MergeReport(m, s.records);
      if r.Ok? {
        PlusOneIsPut(r.value, o.source, o.record);
      }
    }
  }

  lemma {:induction false} FoldLift(m: Report, s: State, lines: seq<string>)
    requires CleanReport(m) && CleanState(s)
    ensures Fold(Lift(m, s), ReadLines(lines)) == Lift(m, Fold(s, ReadLines(lines)))
    ensures CleanState(Fold(s, ReadLines(lines)))
    decreases |lines|
  {
    hide Lift, Step, ReadLine, CleanState;
    if lines != [] {
      var e := ReadLine(lines[0]);
      ReadLineClean(lines[0]);
      StepLift(m, s, e);
      StepClean(s, e);
      FoldLift(m, Step(s, e), lines[1..]);
    }
  }

  lemma ParseClean(text: string)
    ensures CleanResult(Parse(text))
  {
    hide Fold, ReadLines, SplitLines;
    FoldLift(map[], INITIAL, SplitLines(text));
  }

  /** Reading two reports one after the other gives the merge of their readings: it fails when
      either cannot be read and when two checksums conflict, and succeeds with the union
      otherwise. */
  lemma ParseConcat(a: string, b: string)
    requires Complete(a)
    ensures Parse(a + b) == Plus(Parse(a), Parse(b))
  {
    hide ReadLines, SplitLines, MergeReport;
    SplitConcat(a, b);
    ReadLinesConcat(SplitLines(a), SplitLines(b));
    FoldConcat(INITIAL, ReadLines(SplitLines(a)), ReadLines(SplitLines(b)));
    var s := Fold(INITIAL, ReadLines(SplitLines(a)));
    if s.Failed? {
      FailedStays(ReadLines(SplitLines(b)));
    } else {
      FoldLift(map[], INITIAL, SplitLines(a));
      FoldLift(s.records, INITIAL, SplitLines(b));
      PlusEmpty(s.records);
    }
  }

  lemma {:induction false} FailedStays(es: seq<Entry>)
    ensures Fold(Failed, es) == Failed
  {
    if es != [] {
      FailedStays(es[1..]);
    }
  }

  /** The reader as it runs, line by line over the records read so far and the one being read. */
  method ParseLcov(text: string) returns (r: Result<Report>)
    ensures r == Parse(text)
  {
    hide ReadLine, Conflict, Put;
    var lines := SplitLines(text);
    var records: Report := map[];
    var current: Option<Open> := None;
    for i := 0 to |lines|
      invariant Fold(Reading(records, current), ReadLines(lines[i..])) == Fold(INITIAL, ReadLines(lines))
    {
      var e := ReadLine(lines[i]);
      assert lines[i..][1..] == lines[i + 1..];
      FailedStays(ReadLines(lines[i + 1..]));
      match e
      case Skip =>
      case Start(source) =>
        if current.Some? || source == "" {
          return Err;
        }
        current := Some(Open(source, EMPTY_RECORD));
      case End =>
        if current.None? {
          return Err;
        }
        var closed := Close(records, current.value);
        if closed.Err? {
          return Err;
        }
        records, current := closed.value, None;
      case _ =>
        if current.None? {
          return Err;
        }
        var added := AddEntry(current.value.record, e);
        if added.Err? {
          return Err;
        }
        current := Some(current.value.(record := added.value));
    }
    r := if current.Some? then Err else Ok(records);
  }
}
