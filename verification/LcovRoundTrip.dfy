/** Writing LCOV text and reading it back (scripts/merge_lcov.py, render_lcov against
    parse_lcov). */
module LcovRoundTrip {
  import opened Common
  import opened Text
  import opened LcovMerge
  import opened LcovFormat
  import opened Sorting

  // ---------------------------------------------------------------------------
  // Writing

  function FunctionLine(definition: string): string {
    "FN:" + definition
  }

  function FunctionHitsLine(name: string, hits: nat): string {
    "FNDA:" + (Decimal(hits) + "," + name)
  }

  function ChecksumSuffix(checksum: Option<string>): string {
    if checksum.Some? then "," + checksum.value else ""
  }

  function LineHitsLine(number: nat, line: Line): string {
    "DA:" + (Decimal(number) + "," + (Decimal(line.hits) + ChecksumSuffix(line.checksum)))
  }

  function TakenText(taken: Option<nat>): string {
    if taken.None? then "-" else Decimal(taken.value)
  }

  function BranchHitsLine(key: Branch, taken: Option<nat>): string {
    "BRDA:" + (Decimal(key.line) + "," + (key.block + "," + (key.branch + "," + TakenText(taken))))
  }

  /** One line per key, in the order given. */
  function KeyLines<K, V>(keys: seq<K>, m: map<K, V>, show: (K, V) -> string): (lines: seq<string>)
    requires forall k :: k in keys ==> k in m
    ensures |lines| == |keys|
    ensures forall i :: 0 <= i < |keys| ==> lines[i] == show(keys[i], m[keys[i]])
  {
    if keys == [] then [] else [show(keys[0], m[keys[0]])] + KeyLines(keys[1..], m, show)
  }

  function DefinitionLines(definitions: seq<string>): (lines: seq<string>)
    ensures |lines| == |definitions|
    ensures forall i :: 0 <= i < |lines| ==> lines[i] == FunctionLine(definitions[i])
  {
    if definitions == [] then [] else [FunctionLine(definitions[0])] + DefinitionLines(definitions[1..])
  }

  predicate BranchLeq(a: Branch, b: Branch) {
    if a.line != b.line then a.line < b.line
    else if a.block != b.block then StringLeq(a.block, b.block)
    else StringLeq(a.branch, b.branch)
  }

  lemma BranchOrder()
    ensures TotalOrder(BranchLeq)
  {
    StringOrder();
    forall a: Branch, b: Branch
      ensures BranchLeq(a, b) || BranchLeq(b, a)
      ensures BranchLeq(a, b) && BranchLeq(b, a) ==> a == b
    {
      assert StringLeq(a.block, b.block) || StringLeq(b.block, a.block);
      assert StringLeq(a.branch, b.branch) || StringLeq(b.branch, a.branch);
    }
    forall a: Branch, b: Branch, c: Branch | BranchLeq(a, b) && BranchLeq(b, c)
      ensures BranchLeq(a, c)
    {
    }
  }

  function SortedNames(names: set<string>): (r: seq<string>)
    ensures Enumerates(r, names)
  {
    StringOrder();
    Sort(names, StringLeq)
  }

  function SortedNumbers(numbers: set<nat>): (r: seq<nat>)
    ensures Enumerates(r, numbers)
  {
    NatOrder();
    Sort(numbers, NatLeq)
  }

  function SortedBranches(branches: set<Branch>): (r: seq<Branch>)
    ensures Enumerates(r, branches)
  {
    BranchOrder();
    Sort(branches, BranchLeq)
  }

  function AfterComma(definition: string): string {
    var n := CommaAt(definition);
    if n < |definition| then definition[n + 1..] else ""
  }

  function HitFunctions(r: Record): set<string> {
    set d | d in r.functions && AfterComma(d) in r.functionHits && r.functionHits[AfterComma(d)] > 0
  }

  function HitBranches(r: Record): set<Branch> {
    set k | k in r.branches && r.branches[k].Some? && r.branches[k].value > 0
  }

  function FunctionLines(r: Record): seq<string> {
    DefinitionLines(SortedNames(r.functions))
    + KeyLines(SortedNames(r.functionHits.Keys), r.functionHits, FunctionHitsLine)
    + ["FNF:" + Decimal(|r.functions|), "FNH:" + Decimal(|HitFunctions(r)|)]
  }

  function LineLines(r: Record): seq<string> {
    KeyLines(SortedNumbers(r.lines.Keys), r.lines, LineHitsLine)
    + ["LF:" + Decimal(|r.lines.Keys|), "LH:" + Decimal(|HitLines(r)|)]
  }

  function BranchLines(r: Record): seq<string> {
    KeyLines(SortedBranches(r.branches.Keys), r.branches, BranchHitsLine)
    + ["BRF:" + Decimal(|r.branches.Keys|), "BRH:" + Decimal(|HitBranches(r)|)]
  }

  function RecordLines(source: string, r: Record): seq<string> {
    ["SF:" + source] + FunctionLines(r) + LineLines(r) + BranchLines(r) + ["end_of_record"]
  }

  function ReportLines(sources: seq<string>, m: Report): seq<string>
    requires forall s :: s in sources ==> s in m
  {
    if sources == [] then [] else RecordLines(sources[0], m[sources[0]]) + ReportLines(sources[1..], m)
  }

  /** A function definition without a comma has no name to look up, and writing fails. */
  predicate Renderable(m: Report) {
    forall s :: s in m ==> forall d :: d in m[s].functions ==> !NoComma(d)
  }

  function Render(m: Report): Result<string> {
    if Renderable(m) then Ok(JoinLines(ReportLines(SortedNames(m.Keys), m))) else Err
  }

  // ---------------------------------------------------------------------------
  // Reports that can be written

  predicate RightTrimmed(s: string) {
    s != "" ==> !IsSpace(s[|s| - 1])
  }

  /** Text that may end a line. */
  predicate Ending(s: string) {
    NoBreak(s) && RightTrimmed(s)
  }

  predicate Field(s: string) {
    NoBreak(s) && NoComma(s)
  }

  predicate WritableRecord(r: Record) {
    && (forall d :: d in r.functions ==> Ending(d) && !NoComma(d))
    && (forall name :: name in r.functionHits ==> Ending(name) && name != "")
    && (forall n :: n in r.lines && r.lines[n].checksum.Some? ==>
          Ending(r.lines[n].checksum.value) && r.lines[n].checksum.value != "")
    && (forall k :: k in r.branches ==> Field(k.block) && Field(k.branch))
  }

  predicate Writable(m: Report) {
    forall s :: s in m ==> Ending(s) && s != "" && WritableRecord(m[s])
  }

  // ---------------------------------------------------------------------------
  // Each written line reads as its entry

  lemma EndingLine(prefix: string, s: string)
    requires prefix != "" && !IsSpace(prefix[0]) && !IsSpace(prefix[|prefix| - 1]) && NoBreak(prefix) && Ending(s)
    ensures NoBreak(prefix + s) && Strip(prefix + s) == prefix + s
  {
    StripTrimmed(prefix + s);
  }

  lemma ReadCount(n: nat)
    ensures NonNegative(Decimal(n)) == Some(n) && Ending(Decimal(n)) && Field(Decimal(n))
  {
    ParseDecimal(n);
    DecimalPlain(n);
  }

  lemma ReadSource(source: string)
    requires Ending(source)
    ensures NoBreak("SF:" + source) && ReadLine("SF:" + source) == Start(source)
  {
    EndingLine("SF:", source);
    assert ("SF:" + source)[3..] == source;
  }

  lemma ReadFunctionLine(definition: string)
    requires Ending(definition) && !NoComma(definition)
    ensures NoBreak(FunctionLine(definition))
    ensures ReadLine(FunctionLine(definition)) == Function(definition)
  {
    EndingLine("FN:", definition);
    assert FunctionLine(definition)[3..] == definition;
  }

  // Which reader a line goes to.

  lemma DispatchFunctionHits(text: string)
    ensures ReadStripped("FNDA:" + text) == ReadFunctionHits(text)
  {
    hide ReadFunctionHits;
    var line := "FNDA:" + text;
    assert "TN:"[0] != line[0] && "SF:"[0] != line[0] && "end_of_record"[0] != line[0] && "FN:"[2] != line[2];
    assert line[5..] == text;
  }

  lemma DispatchLineHits(text: string)
    ensures ReadStripped("DA:" + text) == ReadLineHits(text)
  {
    hide ReadLineHits;
    var line := "DA:" + text;
    assert "TN:"[0] != line[0] && "SF:"[0] != line[0] && "end_of_record"[0] != line[0];
    assert "FN:"[0] != line[0] && "FNDA:"[0] != line[0];
    assert line[3..] == text;
  }

  lemma DispatchBranchHits(text: string)
    ensures ReadStripped("BRDA:" + text) == ReadBranchHits(text)
  {
    hide ReadBranchHits;
    var line := "BRDA:" + text;
    assert "TN:"[0] != line[0] && "SF:"[0] != line[0] && "end_of_record"[0] != line[0];
    assert "FN:"[0] != line[0] && "FNDA:"[0] != line[0] && "DA:"[0] != line[0];
    assert line[5..] == text;
  }

  lemma DispatchSummary4(prefix: string, text: string)
    requires prefix == "FNF:" || prefix == "FNH:" || prefix == "BRF:" || prefix == "BRH:"
    ensures ReadStripped(prefix + text) == ReadSummary(text)
  {
    hide ReadSummary;
    var line := prefix + text;
    assert "TN:"[0] != line[0] && "SF:"[0] != line[0] && "end_of_record"[0] != line[0];
    assert "FN:"[2] != line[2] && "FNDA:"[2] != line[2] && "DA:"[0] != line[0] && "BRDA:"[2] != line[2];
    assert line[4..] == text;
  }

  lemma DispatchSummary3(prefix: string, text: string)
    requires prefix == "LF:" || prefix == "LH:"
    ensures ReadStripped(prefix + text) == ReadSummary(text)
  {
    hide ReadSummary;
    var line := prefix + text;
    assert "TN:"[0] != line[0] && "SF:"[0] != line[0] && "end_of_record"[0] != line[0];
    assert "FN:"[0] != line[0] && "FNDA:"[0] != line[0] && "DA:"[0] != line[0] && "BRDA:"[0] != line[0];
    assert "FNF:"[0] != line[0] && "FNH:"[0] != line[0] && "BRF:"[0] != line[0] && "BRH:"[0] != line[0];
    assert line[3..] == text;
  }

  lemma EndingAfter(field: string, s: string)
    requires NoBreak(field) && Ending(s)
    ensures Ending(field + "," + s)
  {
  }

  // What the readers make of it.

  lemma ReadFunctionHitsText(name: string, hits: nat)
    requires name != ""
    ensures ReadFunctionHits(Decimal(hits) + "," + name) == FunctionHits(name, hits)
  {
    hide Decimal, ParseInt, NonNegative;
    ReadCount(hits);
    SplitFirstField(Decimal(hits), name, 0);
  }

  lemma ReadLineHitsText(number: nat, line: Line)
    requires line.checksum != Some("")
    ensures ReadLineHits(Decimal(number) + "," + (Decimal(line.hits) + ChecksumSuffix(line.checksum)))
         == LineHits(number, line.hits, line.checksum)
  {
    hide Decimal, ParseInt, NonNegative, SplitComma, NoComma;
    ReadCount(number);
    ReadCount(line.hits);
    var rest := Decimal(line.hits) + ChecksumSuffix(line.checksum);
    SplitFirstField(Decimal(number), rest, 1);
    if line.checksum.Some? {
      assert rest == Decimal(line.hits) + "," + line.checksum.value;
      SplitFirstField(Decimal(line.hits), line.checksum.value, 0);
      SplitNone(line.checksum.value);
    } else {
      assert rest == Decimal(line.hits);
      SplitSingle(rest, 1);
    }
  }

  lemma SplitBranch(a: string, b: string, c: string, d: string)
    requires NoComma(a) && NoComma(b) && NoComma(c)
    ensures SplitComma(a + "," + (b + "," + (c + "," + d)), 3) == [a, b, c, d]
  {
    hide SplitComma, NoComma;
    SplitFirstField(a, b + "," + (c + "," + d), 2);
    SplitFirstField(b, c + "," + d, 1);
    SplitFirstField(c, d, 0);
    SplitNone(d);
  }

  lemma ReadBranchHitsText(key: Branch, taken: Option<nat>)
    requires NoComma(key.block) && NoComma(key.branch)
    ensures ReadBranchHits(Decimal(key.line) + "," + (key.block + "," + (key.branch + "," + TakenText(taken))))
         == BranchHits(key, taken)
  {
    hide Decimal, NonNegative, SplitComma, NoComma;
    CountField(key.line);
    SplitBranch(Decimal(key.line), key.block, key.branch, TakenText(taken));
    if taken.Some? {
      CountField(taken.value);
    }
  }

  lemma CountField(n: nat)
    ensures NoComma(Decimal(n)) && NonNegative(Decimal(n)) == Some(n) && Decimal(n) != "-"
  {
    ReadCount(n);
    DecimalPlain(n);
  }

  lemma SplitNone(s: string)
    ensures SplitComma(s, 0) == [s]
  {
  }

  lemma ReadFunctionHitsLine(name: string, hits: nat)
    requires Ending(name) && name != ""
    ensures NoBreak(FunctionHitsLine(name, hits))
    ensures ReadLine(FunctionHitsLine(name, hits)) == FunctionHits(name, hits)
  {
    hide Decimal, ReadStripped, ReadFunctionHits, Strip;
    ReadCount(hits);
    EndingAfter(Decimal(hits), name);
    var text := Decimal(hits) + "," + name;
    EndingLine("FNDA:", text);
    DispatchFunctionHits(text);
    ReadFunctionHitsText(name, hits);
  }

  lemma ReadLineHitsLine(number: nat, line: Line)
    requires line.checksum.Some? ==> Ending(line.checksum.value) && line.checksum.value != ""
    ensures NoBreak(LineHitsLine(number, line))
    ensures ReadLine(LineHitsLine(number, line)) == LineHits(number, line.hits, line.checksum)
  {
    hide Decimal, ReadStripped, ReadLineHits, Strip, Ending;
    ReadCount(number);
    ReadCount(line.hits);
    var rest := Decimal(line.hits) + ChecksumSuffix(line.checksum);
    EndingRest(line);
    FieldNoBreak(Decimal(number));
    EndingAfter(Decimal(number), rest);
    var text := Decimal(number) + "," + rest;
    EndingLine("DA:", text);
    DispatchLineHits(text);
    ReadLineHitsText(number, line);
  }

  lemma FieldNoBreak(s: string)
    requires Field(s)
    ensures NoBreak(s)
  {
  }

  lemma EndingRest(line: Line)
    requires line.checksum.Some? ==> Ending(line.checksum.value)
    ensures Ending(Decimal(line.hits) + ChecksumSuffix(line.checksum))
  {
    hide Decimal;
    ReadCount(line.hits);
    if line.checksum.Some? {
      EndingAfter(Decimal(line.hits), line.checksum.value);
      assert Decimal(line.hits) + ChecksumSuffix(line.checksum) == Decimal(line.hits) + "," + line.checksum.value;
    } else {
      assert Decimal(line.hits) + ChecksumSuffix(line.checksum) == Decimal(line.hits);
    }
  }

  lemma ReadBranchHitsLine(key: Branch, taken: Option<nat>)
    requires Field(key.block) && Field(key.branch)
    ensures NoBreak(BranchHitsLine(key, taken))
    ensures ReadLine(BranchHitsLine(key, taken)) == BranchHits(key, taken)
  {
    hide Decimal, ReadStripped, ReadBranchHits, Strip, RightTrimmed, IsSpace, IsBreak;
    ReadCount(key.line);
    var last := TakenText(taken);
    TakenEnding(taken);
    EndingAfter(key.branch, last);
    EndingAfter(key.block, key.branch + "," + last);
    EndingAfter(Decimal(key.line), key.block + "," + (key.branch + "," + last));
    var text := Decimal(key.line) + "," + (key.block + "," + (key.branch + "," + last));
    BranchPrefix(text);
    DispatchBranchHits(text);
    ReadBranchHitsText(key, taken);
  }

  lemma BranchPrefix(text: string)
    requires Ending(text)
    ensures NoBreak("BRDA:" + text) && Strip("BRDA:" + text) == "BRDA:" + text
  {
    EndingLine("BRDA:", text);
  }

  lemma TakenEnding(taken: Option<nat>)
    ensures Ending(TakenText(taken))
  {
    if taken.Some? {
      ReadCount(taken.value);
    }
  }

  lemma ReadSummaryLine(prefix: string, n: nat)
    requires prefix == "FNF:" || prefix == "FNH:" || prefix == "LF:" || prefix == "LH:" || prefix == "BRF:" || prefix == "BRH:"
    ensures NoBreak(prefix + Decimal(n)) && ReadLine(prefix + Decimal(n)) == Summary
  {
    hide Decimal, ParseInt, ReadStripped, Strip;
    ReadCount(n);
    EndingLine(prefix, Decimal(n));
    if prefix == "LF:" || prefix == "LH:" {
      DispatchSummary3(prefix, Decimal(n));
    } else {
      DispatchSummary4(prefix, Decimal(n));
    }
  }

  lemma ReadEndLine()
    ensures NoBreak("end_of_record") && ReadLine("end_of_record") == End
  {
    StripTrimmed("end_of_record");
  }

  // ---------------------------------------------------------------------------
  // Reading the written lines one after the other

  function Feed(s: State, lines: seq<string>): State {
    Fold(s, ReadLines(lines))
  }

  lemma FeedConcat(s: State, a: seq<string>, b: seq<string>)
    ensures Feed(s, a + b) == Feed(Feed(s, a), b)
  {
    ReadLinesConcat(a, b);
    FoldConcat(s, ReadLines(a), ReadLines(b));
  }

  lemma FeedFirst(s: State, lines: seq<string>)
    requires lines != []
    ensures Feed(s, lines) == Feed(Step(s, ReadLine(lines[0])), lines[1..])
  {
  }

  lemma FeedNone(s: State)
    ensures Feed(s, []) == s
  {
  }

  ghost predicate Plain(lines: seq<string>) {
    forall i :: 0 <= i < |lines| ==> NoBreak(lines[i])
  }

  lemma PlainFirst(lines: seq<string>)
    ensures lines == [] ==> Plain(lines)
    ensures lines != [] && NoBreak(lines[0]) && Plain(lines[1..]) ==> Plain(lines)
  {
  }

  ghost predicate Distinct<T>(keys: seq<T>) {
    forall i, j :: 0 <= i < j < |keys| ==> keys[i] != keys[j]
  }

  function Restrict<K, V>(m: map<K, V>, keys: seq<K>): map<K, V> {
    map k | k in keys && k in m :: m[k]
  }

  lemma RestrictAll<K, V>(m: map<K, V>, keys: seq<K>)
    requires forall k :: k in m ==> k in keys
    ensures Restrict(m, keys) == m && map[] + Restrict(m, keys) == m
  {
  }

  lemma RestrictFirst<K, V>(base: map<K, V>, m: map<K, V>, keys: seq<K>)
    requires keys != [] && keys[0] in m && Distinct(keys)
    ensures base[keys[0] := m[keys[0]]] + Restrict(m, keys[1..]) == base + Restrict(m, keys)
  {
    assert keys == [keys[0]] + keys[1..];
  }

  /** A state inside a record. */
  function Within(m: Report, source: string, r: Record): State {
    Reading(m, Some(Open(source, r)))
  }

  lemma StepFunction(m: Report, source: string, r: Record, definition: string)
    ensures Step(Within(m, source, r), Function(definition))
         == Within(m, source, r.(functions := r.functions + {definition}))
  {
  }

  lemma {:induction false} FeedFunctions(m: Report, source: string, r: Record, keys: seq<string>)
    requires forall d :: d in keys ==> Ending(d) && !NoComma(d)
    ensures Feed(Within(m, source, r), DefinitionLines(keys))
         == Within(m, source, r.(functions := r.functions + set d | d in keys))
    ensures Plain(DefinitionLines(keys))
    decreases |keys|
  {
    hide Feed, ReadLine, Ending, Step, NoBreak, FunctionLine, Plain, NoComma;
    var lines := DefinitionLines(keys);
    PlainFirst(lines);
    if keys == [] {
      FeedNone(Within(m, source, r));
      assert r.functions + {} == r.functions;
      assert (set d | d in keys) == {};
    } else {
      assert lines[1..] == DefinitionLines(keys[1..]);
      FeedFirst(Within(m, source, r), lines);
      ReadFunctionLine(keys[0]);
      StepFunction(m, source, r, keys[0]);
      var r' := r.(functions := r.functions + {keys[0]});
      FeedFunctions(m, source, r', keys[1..]);
      assert keys == [keys[0]] + keys[1..];
      assert r.functions + {keys[0]} + (set d | d in keys[1..]) == r.functions + set d | d in keys;
    }
  }

  lemma DistinctRest<T>(keys: seq<T>)
    requires keys != [] && Distinct(keys)
    ensures Distinct(keys[1..]) && keys[0] !in keys[1..]
    ensures forall k :: k in keys[1..] ==> k in keys
  {
  }

  lemma StepFunctionHits(m: Report, source: string, r: Record, name: string, hits: nat)
    requires name !in r.functionHits
    ensures Step(Within(m, source, r), FunctionHits(name, hits))
         == Within(m, source, r.(functionHits := r.functionHits[name := hits]))
  {
  }

  lemma StepBranchHits(m: Report, source: string, r: Record, key: Branch, taken: Option<nat>)
    requires key !in r.branches
    ensures Step(Within(m, source, r), BranchHits(key, taken))
         == Within(m, source, r.(branches := r.branches[key := taken]))
  {
  }

  lemma {:induction false} FeedFunctionHits(m: Report, source: string, r: Record, keys: seq<string>, target: map<string, nat>)
    requires Distinct(keys)
    requires forall k :: k in keys ==> k in target && k !in r.functionHits && Ending(k) && k != ""
    ensures Feed(Within(m, source, r), KeyLines(keys, target, FunctionHitsLine))
         == Within(m, source, r.(functionHits := r.functionHits + Restrict(target, keys)))
    ensures Plain(KeyLines(keys, target, FunctionHitsLine))
    decreases |keys|
  {
    hide Feed, ReadLine, Ending, Restrict, Step, NoBreak, FunctionHitsLine, Distinct, Plain;
    var lines := KeyLines(keys, target, FunctionHitsLine);
    PlainFirst(lines);
    if keys == [] {
      FeedNone(Within(m, source, r));
      RestrictNone(r.functionHits, target);
    } else {
      assert lines[1..] == KeyLines(keys[1..], target, FunctionHitsLine);
      FeedFirst(Within(m, source, r), lines);
      ReadFunctionHitsLine(keys[0], target[keys[0]]);
      StepFunctionHits(m, source, r, keys[0], target[keys[0]]);
      var r' := r.(functionHits := r.functionHits[keys[0] := target[keys[0]]]);
      DistinctRest(keys);
      FeedFunctionHits(m, source, r', keys[1..], target);
      RestrictFirst(r.functionHits, target, keys);
    }
  }

  lemma RestrictNone<K, V>(base: map<K, V>, m: map<K, V>)
    ensures base + Restrict(m, []) == base
  {
  }

  lemma StepLineHits(m: Report, source: string, r: Record, k: nat, line: Line)
    requires k !in r.lines
    ensures Step(Within(m, source, r), LineHits(k, line.hits, line.checksum))
         == Within(m, source, r.(lines := r.lines[k := line]))
  {
  }

  lemma {:induction false} FeedLineHits(m: Report, source: string, r: Record, keys: seq<nat>, target: map<nat, Line>)
    requires Distinct(keys)
    requires forall k :: k in keys ==> k in target && k !in r.lines
    requires forall k :: k in keys && target[k].checksum.Some? ==>
               Ending(target[k].checksum.value) && target[k].checksum.value != ""
    ensures Feed(Within(m, source, r), KeyLines(keys, target, LineHitsLine))
         == Within(m, source, r.(lines := r.lines + Restrict(target, keys)))
    ensures Plain(KeyLines(keys, target, LineHitsLine))
    decreases |keys|
  {
    hide Feed, ReadLine, Ending, Restrict, Step, NoBreak, LineHitsLine, Distinct, Plain;
    var lines := KeyLines(keys, target, LineHitsLine);
    PlainFirst(lines);
    if keys == [] {
      FeedNone(Within(m, source, r));
      RestrictNone(r.lines, target);
    } else {
      assert lines[1..] == KeyLines(keys[1..], target, LineHitsLine);
      FeedFirst(Within(m, source, r), lines);
      ReadLineHitsLine(keys[0], target[keys[0]]);
      StepLineHits(m, source, r, keys[0], target[keys[0]]);
      var r' := r.(lines := r.lines[keys[0] := target[keys[0]]]);
      DistinctRest(keys);
      FeedLineHits(m, source, r', keys[1..], target);
      RestrictFirst(r.lines, target, keys);
    }
  }

  lemma {:induction false} FeedBranchHits(m: Report, source: string, r: Record, keys: seq<Branch>, target: map<Branch, Option<nat>>)
    requires Distinct(keys)
    requires forall k :: k in keys ==> k in target && k !in r.branches && Field(k.block) && Field(k.branch)
    ensures Feed(Within(m, source, r), KeyLines(keys, target, BranchHitsLine))
         == Within(m, source, r.(branches := r.branches + Restrict(target, keys)))
    ensures Plain(KeyLines(keys, target, BranchHitsLine))
    decreases |keys|
  {
    hide Feed, ReadLine, Field, Restrict, Step, NoBreak, BranchHitsLine, Distinct, Plain;
    var lines := KeyLines(keys, target, BranchHitsLine);
    PlainFirst(lines);
    if keys == [] {
      FeedNone(Within(m, source, r));
      RestrictNone(r.branches, target);
    } else {
      assert lines[1..] == KeyLines(keys[1..], target, BranchHitsLine);
      FeedFirst(Within(m, source, r), lines);
      ReadBranchHitsLine(keys[0], target[keys[0]]);
      StepBranchHits(m, source, r, keys[0], target[keys[0]]);
      var r' := r.(branches := r.branches[keys[0] := target[keys[0]]]);
      DistinctRest(keys);
      FeedBranchHits(m, source, r', keys[1..], target);
      RestrictFirst(r.branches, target, keys);
    }
  }

  lemma FeedSummaries(m: Report, source: string, r: Record, p: string, a: nat, q: string, b: nat)
    requires p == "FNF:" || p == "LF:" || p == "BRF:"
    requires q == "FNH:" || q == "LH:" || q == "BRH:"
    ensures Feed(Within(m, source, r), [p + Decimal(a), q + Decimal(b)]) == Within(m, source, r)
    ensures Plain([p + Decimal(a), q + Decimal(b)])
  {
    hide Feed, ReadLine;
    ReadSummaryLine(p, a);
    ReadSummaryLine(q, b);
    var lines := [p + Decimal(a), q + Decimal(b)];
    FeedFirst(Within(m, source, r), lines);
    assert lines[1..] == [q + Decimal(b)];
    FeedFirst(Within(m, source, r), lines[1..]);
    assert lines[1..][1..] == [];
    FeedNone(Within(m, source, r));
  }

  lemma FeedFunctionLines(m: Report, source: string, r: Record, target: Record)
    requires WritableRecord(target) && r.functions == {} && r.functionHits == map[]
    ensures Feed(Within(m, source, r), FunctionLines(target))
         == Within(m, source, r.(functions := target.functions, functionHits := target.functionHits))
    ensures Plain(FunctionLines(target))
  {
    hide Feed, Ending, NoComma, KeyLines, DefinitionLines, Restrict, SortedNames, HitFunctions, Plain;
    var ds, names := SortedNames(target.functions), SortedNames(target.functionHits.Keys);
    var r1 := r.(functions := target.functions);
    var r2 := r1.(functionHits := target.functionHits);
    FeedFunctions(m, source, r, ds);
    assert r.functions + (set d | d in ds) == target.functions;
    FeedFunctionHits(m, source, r1, names, target.functionHits);
    RestrictAll(target.functionHits, names);
    FeedSummaries(m, source, r2, "FNF:", |target.functions|, "FNH:", |HitFunctions(target)|);
    var a := DefinitionLines(ds);
    var b := KeyLines(names, target.functionHits, FunctionHitsLine);
    var c := ["FNF:" + Decimal(|target.functions|), "FNH:" + Decimal(|HitFunctions(target)|)];
    FeedConcat(Within(m, source, r), a + b, c);
    FeedConcat(Within(m, source, r), a, b);
    PlainConcat(a, b);
    PlainConcat(a + b, c);
  }

  lemma PlainConcat(a: seq<string>, b: seq<string>)
    requires Plain(a) && Plain(b)
    ensures Plain(a + b)
  {
  }

  lemma FeedLineLines(m: Report, source: string, r: Record, target: Record)
    requires WritableRecord(target) && r.lines == map[]
    ensures Feed(Within(m, source, r), LineLines(target)) == Within(m, source, r.(lines := target.lines))
    ensures Plain(LineLines(target))
  {
    hide Feed, Ending, KeyLines, Restrict, SortedNumbers, HitLines, Plain;
    var numbers := SortedNumbers(target.lines.Keys);
    var r1 := r.(lines := target.lines);
    FeedLineHits(m, source, r, numbers, target.lines);
    RestrictAll(target.lines, numbers);
    FeedSummaries(m, source, r1, "LF:", |target.lines.Keys|, "LH:", |HitLines(target)|);
    var a := KeyLines(numbers, target.lines, LineHitsLine);
    var b := ["LF:" + Decimal(|target.lines.Keys|), "LH:" + Decimal(|HitLines(target)|)];
    FeedConcat(Within(m, source, r), a, b);
    PlainConcat(a, b);
  }

  lemma FeedBranchLines(m: Report, source: string, r: Record, target: Record)
    requires WritableRecord(target) && r.branches == map[]
    ensures Feed(Within(m, source, r), BranchLines(target)) == Within(m, source, r.(branches := target.branches))
    ensures Plain(BranchLines(target))
  {
    hide Feed, Field, KeyLines, Restrict, SortedBranches, HitBranches, Plain;
    var keys := SortedBranches(target.branches.Keys);
    var r1 := r.(branches := target.branches);
    FeedBranchHits(m, source, r, keys, target.branches);
    RestrictAll(target.branches, keys);
    FeedSummaries(m, source, r1, "BRF:", |target.branches.Keys|, "BRH:", |HitBranches(target)|);
    var a := KeyLines(keys, target.branches, BranchHitsLine);
    var b := ["BRF:" + Decimal(|target.branches.Keys|), "BRH:" + Decimal(|HitBranches(target)|)];
    FeedConcat(Within(m, source, r), a, b);
    PlainConcat(a, b);
  }

  lemma FeedStart(m: Report, source: string)
    requires Ending(source) && source != ""
    ensures Feed(Reading(m, None), ["SF:" + source]) == Within(m, source, EMPTY_RECORD)
    ensures Plain(["SF:" + source])
  {
    ReadSource(source);
    var lines := ["SF:" + source];
    FeedFirst(Reading(m, None), lines);
    assert lines[1..] == [];
  }

  lemma FeedEnd(m: Report, source: string, r: Record)
    requires source !in m
    ensures Feed(Within(m, source, r), ["end_of_record"]) == Reading(m[source := r], None)
    ensures Plain(["end_of_record"])
  {
    ReadEndLine();
    var lines := ["end_of_record"];
    FeedFirst(Within(m, source, r), lines);
    assert lines[1..] == [];
  }

  lemma FeedRecord(m: Report, source: string, r: Record)
    requires Ending(source) && source != "" && WritableRecord(r) && source !in m
    ensures Feed(Reading(m, None), RecordLines(source, r)) == Reading(m[source := r], None)
    ensures Plain(RecordLines(source, r))
  {
    hide Feed, Ending, WritableRecord, FunctionLines, LineLines, BranchLines, Plain;
    var a, b, c, d, e := ["SF:" + source], FunctionLines(r), LineLines(r), BranchLines(r), ["end_of_record"];
    var r1 := EMPTY_RECORD.(functions := r.functions, functionHits := r.functionHits);
    var r2 := r1.(lines := r.lines);
    FeedStart(m, source);
    FeedFunctionLines(m, source, EMPTY_RECORD, r);
    FeedLineLines(m, source, r1, r);
    FeedBranchLines(m, source, r2, r);
    FeedEnd(m, source, r);
    var s := Reading(m, None);
    FeedConcat(s, a + b + c + d, e);
    FeedConcat(s, a + b + c, d);
    FeedConcat(s, a + b, c);
    FeedConcat(s, a, b);
    PlainConcat(a, b);
    PlainConcat(a + b, c);
    PlainConcat(a + b + c, d);
    PlainConcat(a + b + c + d, e);
  }

  lemma {:induction false} FeedReport(acc: Report, sources: seq<string>, m: Report)
    requires Writable(m) && Distinct(sources) && forall s :: s in sources ==> s in m && s !in acc
    ensures Feed(Reading(acc, None), ReportLines(sources, m)) == Reading(acc + Restrict(m, sources), None)
    ensures Plain(ReportLines(sources, m))
    decreases |sources|
  {
    hide Feed, RecordLines, WritableRecord, Plain, Restrict;
    if sources == [] {
      FeedNone(Reading(acc, None));
      RestrictNone(acc, m);
      PlainNone();
    } else {
      var s := sources[0];
      FeedRecord(acc, s, m[s]);
      FeedReport(acc[s := m[s]], sources[1..], m);
      FeedConcat(Reading(acc, None), RecordLines(s, m[s]), ReportLines(sources[1..], m));
      PlainConcat(RecordLines(s, m[s]), ReportLines(sources[1..], m));
      RestrictFirst(acc, m, sources);
    }
  }

  lemma PlainNone()
    ensures Plain([])
  {
  }

  /** Every writable report is recovered from its text, checksums and unreached branches included. */
  lemma RoundTrip(m: Report)
    requires Writable(m)
    ensures Render(m).Ok? && Parse(Render(m).value) == Ok(m)
  {
    hide ReportLines, Restrict;
    var sources := SortedNames(m.Keys);
    FeedReport(map[], sources, m);
    RestrictAll(m, sources);
    SplitJoined(ReportLines(sources, m));
  }

  // ---------------------------------------------------------------------------
  // Whatever is read can be written

  predicate WritableEntry(e: Entry) {
    match e
    case Start(source) => Ending(source)
    case Function(d) => Ending(d) && !NoComma(d)
    case FunctionHits(name, _) => Ending(name) && name != ""
    case LineHits(_, _, checksum) => checksum.Some? ==> Ending(checksum.value) && checksum.value != ""
    case BranchHits(key, _) => Field(key.block) && Field(key.branch)
    case _ => true
  }

  predicate WritableState(s: State) {
    s.Reading? ==>
      && Writable(s.records)
      && (s.current.Some? ==> Ending(s.current.value.source) && s.current.value.source != ""
                              && WritableRecord(s.current.value.record))
  }

  lemma EndingSuffix(s: string, n: nat)
    requires Ending(s) && n <= |s|
    ensures Ending(s[n..])
  {
  }

  lemma {:induction false} SplitEnding(s: string, max: nat)
    requires Ending(s)
    ensures forall i :: 0 <= i < |SplitComma(s, max)| ==> NoBreak(SplitComma(s, max)[i])
    ensures Ending(SplitComma(s, max)[|SplitComma(s, max)| - 1])
    decreases max
  {
    hide SplitComma;
    SplitFirst(s, max);
    var n := CommaAt(s);
    if max > 0 && n < |s| {
      EndingSuffix(s, n + 1);
      SplitEnding(s[n + 1..], max - 1);
    }
  }

  lemma ReadStrippedWritable(line: string)
    requires Ending(line)
    ensures WritableEntry(ReadStripped(line))
  {
    hide Ending, NonNegative, SplitComma;
    if |line| >= 3 {
      EndingSuffix(line, 3);
      ReadThreeWritable(line[3..]);
    }
    if |line| >= 5 {
      EndingSuffix(line, 5);
      ReadFiveWritable(line[5..]);
    }
  }

  lemma ReadThreeWritable(text: string)
    requires Ending(text)
    ensures WritableEntry(ReadFunction(text)) && WritableEntry(ReadLineHits(text))
  {
    SplitEnding(text, 2);
  }

  lemma ReadFiveWritable(text: string)
    requires Ending(text)
    ensures WritableEntry(ReadFunctionHits(text)) && WritableEntry(ReadBranchHits(text))
  {
    SplitEnding(text, 1);
    SplitEnding(text, 3);
  }

  lemma ReadLineWritable(raw: string)
    requires NoBreak(raw)
    ensures WritableEntry(ReadLine(raw))
  {
    StripSlice(raw);
    ReadStrippedWritable(Strip(raw));
  }

  lemma UnionWritable(a: Record, b: Record)
    requires WritableRecord(a) && WritableRecord(b)
    ensures WritableRecord(Union(a, b))
  {
    hide Ending, Field, NoComma;
  }

  lemma StepWritable(s: State, e: Entry)
    requires WritableState(s) && WritableEntry(e)
    ensures WritableState(Step(s, e))
  {
    hide Ending, Field, NoComma, AddEntry, Close, WritableRecord, Writable;
    EmptyWritable();
    if s.Reading? && s.current.Some? {
      AddEntryWritable(s.current.value.record, e);
      CloseWritable(s.records, s.current.value);
    }
  }

  lemma EmptyWritable()
    ensures WritableRecord(EMPTY_RECORD)
  {
  }

  lemma AddEntryWritable(r: Record, e: Entry)
    requires WritableRecord(r) && WritableEntry(e)
    ensures AddEntry(r, e).Ok? ==> WritableRecord(AddEntry(r, e).value)
  {
    hide Ending, Field, NoComma;
  }

  lemma CloseWritable(records: Report, o: Open)
    requires Writable(records) && Ending(o.source) && o.source != "" && WritableRecord(o.record)
    ensures Close(records, o).Ok? ==> Writable(Close(records, o).value)
  {
    hide Ending, Conflict, WritableRecord, Union;
    if o.source in records {
      UnionWritable(records[o.source], o.record);
    }
  }

  lemma {:induction false} FoldWritable(s: State, lines: seq<string>)
    requires WritableState(s) && Plain(lines)
    ensures WritableState(Fold(s, ReadLines(lines)))
    decreases |lines|
  {
    hide WritableState, WritableEntry, Step, ReadLine, NoBreak;
    if lines != [] {
      ReadLineWritable(lines[0]);
      StepWritable(s, ReadLine(lines[0]));
      FoldWritable(Step(s, ReadLine(lines[0])), lines[1..]);
    }
  }

  lemma ParseWritable(text: string)
    requires Parse(text).Ok?
    ensures Writable(Parse(text).value)
  {
    FoldWritable(INITIAL, SplitLines(text));
  }

  /** A report survives being written and read back if and only if its sources, names and
      checksums are non-empty texts without line breaks or trailing space, its function
      definitions contain a comma and its branch identifiers none. */
  lemma RoundTripIff(m: Report)
    ensures Render(m).Ok? && Parse(Render(m).value) == Ok(m) <==> Writable(m)
  {
    if Writable(m) {
      RoundTrip(m);
    } else if Render(m).Ok? && Parse(Render(m).value) == Ok(m) {
      ParseWritable(Render(m).value);
    }
  }

  /** Rewriting a report that was read changes nothing but its layout. */
  lemma RenderAfterParse(text: string)
    requires Parse(text).Ok?
    ensures Render(Parse(text).value).Ok? && Parse(Render(Parse(text).value).value) == Parse(text)
  {
    ParseWritable(text);
    RoundTrip(Parse(text).value);
  }

  lemma ReportFirst(sources: seq<string>, m: Report)
    requires forall s :: s in sources ==> s in m
    ensures ReportLines(sources, m) ==
      if sources == [] then [] else RecordLines(sources[0], m[sources[0]]) + ReportLines(sources[1..], m)
  {
  }

  /** Sources in order, each with all its lines. */
  method RenderLcov(m: Report) returns (r: Result<string>)
    ensures r == Render(m)
  {
    hide RecordLines, ReportLines, SortedNames, Renderable, JoinLines;
    if !Renderable(m) {
      return Err;
    }
    var sources := SortedNames(m.Keys);
    var output: seq<string> := [];
    for i := 0 to |sources|
      invariant output + ReportLines(sources[i..], m) == ReportLines(sources, m)
    {
      var source := sources[i];
      assert sources[i..][1..] == sources[i + 1..];
      ReportFirst(sources[i..], m);
      ghost var rest := ReportLines(sources[i + 1..], m);
      assert (output + RecordLines(source, m[source])) + rest == output + (RecordLines(source, m[source]) + rest);
      output := output + RecordLines(source, m[source]);
    }
    ReportFirst([], m);
    assert sources[|sources|..] == [] && output + [] == output;
    r := Ok(JoinLines(output));
  }
}
