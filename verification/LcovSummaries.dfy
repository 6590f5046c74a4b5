/** A second reader of written LCOV text. It cuts the text into records and looks lines up by their
    tag, so that what the parser passes over can be checked: the order of the records and of the
    lines in them, and the totals after FNF, FNH, LF, LH, BRF and BRH
    (scripts/merge_lcov.py, render_lcov). */
module LcovSummaries {
  import opened Common
  import opened Text
  import opened Sorting
  import opened LcovMerge
  import opened LcovRoundTrip

  // ---------------------------------------------------------------------------
  // The reader

  /** What follows the tag on the lines that begin with it. */
  function Tagged(lines: seq<string>, tag: string): seq<string> {
    if lines == [] then []
    else (if tag <= lines[0] then [lines[0][|tag|..]] else []) + Tagged(lines[1..], tag)
  }

  /** Where the first record ends. */
  function EndAt(lines: seq<string>): (n: nat)
    ensures n <= |lines|
  {
    if lines == [] || lines[0] == "end_of_record" then 0 else 1 + EndAt(lines[1..])
  }

  /** The records of a text, each as its lines without the closing one. */
  function Blocks(lines: seq<string>): seq<seq<string>>
    decreases |lines|
  {
    var n := EndAt(lines);
    if n == |lines| then [] else [lines[..n]] + Blocks(lines[n + 1..])
  }

  /** The number on the one line with the tag. */
  function NumberAt(block: seq<string>, tag: string): Option<int> {
    var found := Tagged(block, tag);
    if |found| == 1 then ParseInt(found[0]) else None
  }

  // ---------------------------------------------------------------------------
  // Tagged lines

  /** A tag ends in its only colon. */
  predicate IsTag(tag: string) {
    tag != "" && tag[|tag| - 1] == ':' && forall i :: 0 <= i < |tag| - 1 ==> tag[i] != ':'
  }

  datatype Segment = Segment(tag: string, texts: seq<string>)

  function SegmentLines(s: Segment): seq<string> {
    seq(|s.texts|, i requires 0 <= i < |s.texts| => s.tag + s.texts[i])
  }

  function Rows(segments: seq<Segment>): seq<string> {
    if segments == [] then [] else SegmentLines(segments[0]) + Rows(segments[1..])
  }

  lemma {:induction false} TaggedConcat(a: seq<string>, b: seq<string>, tag: string)
    ensures Tagged(a + b, tag) == Tagged(a, tag) + Tagged(b, tag)
  {
    if a == [] {
      assert a + b == b;
    } else {
      assert (a + b)[1..] == a[1..] + b;
      TaggedConcat(a[1..], b, tag);
    }
  }

  lemma TagsDecide(tag: string, prefix: string, text: string)
    requires IsTag(tag) && IsTag(prefix)
    ensures tag <= prefix + text <==> tag == prefix
    ensures (prefix + text)[|prefix|..] == text
  {
    var line := prefix + text;
    if tag <= line {
      assert line[|tag| - 1] == ':' && line[|prefix| - 1] == ':';
      assert |tag| == |prefix|;
      assert tag == line[..|tag|] && prefix == line[..|prefix|];
    }
  }

  lemma {:induction false} TaggedSegment(s: Segment, tag: string)
    requires IsTag(tag) && IsTag(s.tag)
    ensures Tagged(SegmentLines(s), tag) == if tag == s.tag then s.texts else []
    decreases |s.texts|
  {
    var lines := SegmentLines(s);
    if s.texts != [] {
      var rest := Segment(s.tag, s.texts[1..]);
      assert lines[1..] == SegmentLines(rest);
      TaggedSegment(rest, tag);
      TagsDecide(tag, s.tag, s.texts[0]);
      assert s.texts == [s.texts[0]] + s.texts[1..];
    }
  }

  ghost predicate Tags(segments: seq<Segment>) {
    && (forall i :: 0 <= i < |segments| ==> IsTag(segments[i].tag))
    && (forall i, j :: 0 <= i < j < |segments| ==> segments[i].tag != segments[j].tag)
  }

  lemma {:induction false} TaggedNowhere(segments: seq<Segment>, tag: string)
    requires IsTag(tag) && forall i :: 0 <= i < |segments| ==> IsTag(segments[i].tag) && segments[i].tag != tag
    ensures Tagged(Rows(segments), tag) == []
  {
    if segments != [] {
      TaggedNowhere(segments[1..], tag);
      TaggedSegment(segments[0], tag);
      TaggedConcat(SegmentLines(segments[0]), Rows(segments[1..]), tag);
    }
  }

  /** Looking a segment's tag up gives back the segment. */
  lemma {:induction false} TaggedRows(segments: seq<Segment>, k: nat)
    requires Tags(segments) && k < |segments|
    ensures Tagged(Rows(segments), segments[k].tag) == segments[k].texts
  {
    hide SegmentLines, Tagged, IsTag;
    var first, rest, tag := segments[0], segments[1..], segments[k].tag;
    TaggedSegment(first, tag);
    TaggedConcat(SegmentLines(first), Rows(rest), tag);
    if k == 0 {
      TaggedNowhere(rest, tag);
      assert first.texts + [] == first.texts;
    } else {
      TaggedRows(rest, k - 1);
      assert [] + segments[k].texts == segments[k].texts;
    }
  }

  lemma {:induction false} RowsConcat(a: seq<Segment>, b: seq<Segment>)
    ensures Rows(a + b) == Rows(a) + Rows(b)
  {
    if a == [] {
      assert a + b == b;
    } else {
      assert (a + b)[1..] == a[1..] + b;
      RowsConcat(a[1..], b);
    }
  }

  /** No tagged line closes a record. */
  lemma {:induction false} RowsNeverEnd(segments: seq<Segment>)
    requires forall i :: 0 <= i < |segments| ==> IsTag(segments[i].tag)
    ensures forall i :: 0 <= i < |Rows(segments)| ==> Rows(segments)[i] != "end_of_record"
  {
    if segments != [] {
      RowsNeverEnd(segments[1..]);
      var s := segments[0];
      forall i | 0 <= i < |SegmentLines(s)|
        ensures SegmentLines(s)[i] != "end_of_record"
      {
        NoColonAtEnd();
        assert SegmentLines(s)[i][|s.tag| - 1] == ':';
      }
    }
  }

  lemma NoColonAtEnd()
    ensures forall i :: 0 <= i < |"end_of_record"| ==> "end_of_record"[i] != ':'
  {
  }

  lemma {:induction false} EndAfter(block: seq<string>, rest: seq<string>)
    requires forall i :: 0 <= i < |block| ==> block[i] != "end_of_record"
    ensures EndAt(block + ["end_of_record"] + rest) == |block|
  {
    var lines := block + ["end_of_record"] + rest;
    if block != [] {
      assert lines[1..] == block[1..] + ["end_of_record"] + rest;
      EndAfter(block[1..], rest);
    }
  }

  lemma FirstBlock(block: seq<string>, rest: seq<string>)
    requires forall i :: 0 <= i < |block| ==> block[i] != "end_of_record"
    ensures Blocks(block + ["end_of_record"] + rest) == [block] + Blocks(rest)
  {
    var lines := block + ["end_of_record"] + rest;
    EndAfter(block, rest);
    assert lines[..|block|] == block && lines[|block| + 1..] == rest;
  }

  // ---------------------------------------------------------------------------
  // One record

  /** The keys under which the entries of a record are written, in the order of writing. */
  datatype Order = Order(definitions: seq<string>, names: seq<string>, numbers: seq<nat>, branches: seq<Branch>)

  function OrderOf(r: Record): Order {
    Order(SortedNames(r.functions), SortedNames(r.functionHits.Keys), SortedNumbers(r.lines.Keys),
          SortedBranches(r.branches.Keys))
  }

  predicate Lists(o: Order, r: Record) {
    && (forall name :: name in o.names ==> name in r.functionHits)
    && (forall n :: n in o.numbers ==> n in r.lines)
    && (forall k :: k in o.branches ==> k in r.branches)
  }

  function FunctionHitsTexts(o: Order, r: Record): seq<string>
    requires Lists(o, r)
  {
    seq(|o.names|, i requires 0 <= i < |o.names| => Decimal(r.functionHits[o.names[i]]) + "," + o.names[i])
  }

  function LineTexts(o: Order, r: Record): seq<string>
    requires Lists(o, r)
  {
    seq(|o.numbers|, i requires 0 <= i < |o.numbers| =>
      var line := r.lines[o.numbers[i]];
      Decimal(o.numbers[i]) + "," + (Decimal(line.hits) + if line.checksum.Some? then "," + line.checksum.value else ""))
  }

  function BranchTexts(o: Order, r: Record): seq<string>
    requires Lists(o, r)
  {
    seq(|o.branches|, i requires 0 <= i < |o.branches| =>
      var k := o.branches[i];
      Decimal(k.line) + "," + (k.block + "," + (k.branch + ","
        + if r.branches[k].None? then "-" else Decimal(r.branches[k].value))))
  }

  function FunctionSegments(o: Order, r: Record): seq<Segment>
    requires Lists(o, r)
  {
    [Segment("FN:", o.definitions), Segment("FNDA:", FunctionHitsTexts(o, r)),
     Segment("FNF:", [Decimal(|r.functions|)]), Segment("FNH:", [Decimal(|HitFunctions(r)|)])]
  }

  function LineSegments(o: Order, r: Record): seq<Segment>
    requires Lists(o, r)
  {
    [Segment("DA:", LineTexts(o, r)), Segment("LF:", [Decimal(|r.lines.Keys|)]), Segment("LH:", [Decimal(|HitLines(r)|)])]
  }

  function BranchSegments(o: Order, r: Record): seq<Segment>
    requires Lists(o, r)
  {
    [Segment("BRDA:", BranchTexts(o, r)), Segment("BRF:", [Decimal(|r.branches.Keys|)]),
     Segment("BRH:", [Decimal(|HitBranches(r)|)])]
  }

  function Segments(source: string, o: Order, r: Record): seq<Segment>
    requires Lists(o, r)
  {
    [Segment("SF:", [source])] + FunctionSegments(o, r) + LineSegments(o, r) + BranchSegments(o, r)
  }

  lemma RowsOfThree(a: Segment, b: Segment, c: Segment)
    ensures Rows([a, b, c]) == SegmentLines(a) + SegmentLines(b) + SegmentLines(c)
  {
    assert [a, b, c][1..] == [b, c] && [b, c][1..] == [c] && [c][1..] == [];
    assert Rows([c]) == SegmentLines(c) + [] == SegmentLines(c);
    assert Rows([b, c]) == SegmentLines(b) + SegmentLines(c);
  }

  lemma RowsOfOne(tag: string, text: string)
    ensures SegmentLines(Segment(tag, [text])) == [tag + text]
  {
  }

  lemma DefinitionSegment(definitions: seq<string>)
    ensures SegmentLines(Segment("FN:", definitions)) == DefinitionLines(definitions)
  {
  }

  lemma FunctionHitsSegment(o: Order, r: Record)
    requires Lists(o, r)
    ensures SegmentLines(Segment("FNDA:", FunctionHitsTexts(o, r))) == KeyLines(o.names, r.functionHits, FunctionHitsLine)
  {
    hide Decimal;
  }

  lemma LineSegment(o: Order, r: Record)
    requires Lists(o, r)
    ensures SegmentLines(Segment("DA:", LineTexts(o, r))) == KeyLines(o.numbers, r.lines, LineHitsLine)
  {
    hide Decimal;
  }

  lemma BranchSegment(o: Order, r: Record)
    requires Lists(o, r)
    ensures SegmentLines(Segment("BRDA:", BranchTexts(o, r))) == KeyLines(o.branches, r.branches, BranchHitsLine)
  {
    hide Decimal;
  }

  lemma FunctionLinesAre(o: Order, r: Record)
    requires o == OrderOf(r)
    ensures Lists(o, r) && FunctionLines(r) == Rows(FunctionSegments(o, r))
  {
    hide SortedNames, SortedNumbers, SortedBranches, HitFunctions, SegmentLines, FunctionHitsTexts, DefinitionLines, KeyLines,
      Decimal;
    var segs := FunctionSegments(o, r);
    DefinitionSegment(o.definitions);
    FunctionHitsSegment(o, r);
    RowsOfOne("FNF:", Decimal(|r.functions|));
    RowsOfOne("FNH:", Decimal(|HitFunctions(r)|));
    RowsOfThree(segs[1], segs[2], segs[3]);
    assert segs[1..] == [segs[1], segs[2], segs[3]];
  }

  lemma LineLinesAre(o: Order, r: Record)
    requires o == OrderOf(r)
    ensures Lists(o, r) && LineLines(r) == Rows(LineSegments(o, r))
  {
    hide SortedNames, SortedNumbers, SortedBranches, HitLines, SegmentLines, LineTexts, KeyLines, Decimal;
    var segs := LineSegments(o, r);
    LineSegment(o, r);
    RowsOfOne("LF:", Decimal(|r.lines.Keys|));
    RowsOfOne("LH:", Decimal(|HitLines(r)|));
    RowsOfThree(segs[0], segs[1], segs[2]);
  }

  lemma BranchLinesAre(o: Order, r: Record)
    requires o == OrderOf(r)
    ensures Lists(o, r) && BranchLines(r) == Rows(BranchSegments(o, r))
  {
    hide SortedNames, SortedNumbers, SortedBranches, HitBranches, SegmentLines, BranchTexts, KeyLines, Decimal;
    var segs := BranchSegments(o, r);
    BranchSegment(o, r);
    RowsOfOne("BRF:", Decimal(|r.branches.Keys|));
    RowsOfOne("BRH:", Decimal(|HitBranches(r)|));
    RowsOfThree(segs[0], segs[1], segs[2]);
  }

  lemma RecordLinesAre(source: string, o: Order, r: Record)
    requires o == OrderOf(r)
    ensures Lists(o, r) && RecordLines(source, r) == Rows(Segments(source, o, r)) + ["end_of_record"]
  {
    hide SortedNames, SortedNumbers, SortedBranches, FunctionLines, LineLines, BranchLines, FunctionSegments, LineSegments,
      BranchSegments, Rows;
    FunctionLinesAre(o, r);
    LineLinesAre(o, r);
    BranchLinesAre(o, r);
    var first := [Segment("SF:", [source])];
    RowsConcat(first, FunctionSegments(o, r));
    RowsConcat(first + FunctionSegments(o, r), LineSegments(o, r));
    RowsConcat(first + FunctionSegments(o, r) + LineSegments(o, r), BranchSegments(o, r));
    RowsOfSource(source);
  }

  lemma RowsOfSource(source: string)
    ensures Rows([Segment("SF:", [source])]) == ["SF:" + source]
  {
    var segs := [Segment("SF:", [source])];
    assert segs[1..] == [];
    RowsOfOne("SF:", source);
  }

  const TAGS: seq<string> := ["SF:", "FN:", "FNDA:", "FNF:", "FNH:", "DA:", "LF:", "LH:", "BRDA:", "BRF:", "BRH:"]

  lemma TagsDiffer()
    ensures forall i :: 0 <= i < |TAGS| ==> IsTag(TAGS[i])
    ensures forall i, j :: 0 <= i < j < |TAGS| ==> TAGS[i] != TAGS[j]
  {
    var firsts := "SFFFFDLLBBB";
    assert forall i :: 0 <= i < |TAGS| ==> |TAGS[i]| >= 3;
    assert forall i :: 0 <= i < |TAGS| ==> TAGS[i][0] == firsts[i];
  }

  lemma SegmentTags(source: string, o: Order, r: Record)
    requires Lists(o, r)
    ensures var segs := Segments(source, o, r);
            && |segs| == |TAGS| && Tags(segs) && forall i :: 0 <= i < |segs| ==> segs[i].tag == TAGS[i]
  {
    hide FunctionHitsTexts, LineTexts, BranchTexts;
    TagsDiffer();
    var segs := Segments(source, o, r);
    assert forall i :: 0 <= i < |segs| ==> segs[i].tag == TAGS[i];
  }

  /** Code point by code point: one is a prefix of the other, or the first difference decides. */
  ghost predicate Precedes(a: string, b: string) {
    exists k :: 0 <= k <= |a| && k <= |b| && a[..k] == b[..k] && (k == |a| || (k < |b| && a[k] < b[k]))
  }

  lemma {:induction false} LeqPrecedes(a: string, b: string)
    requires StringLeq(a, b)
    ensures Precedes(a, b)
  {
    if a == "" {
      assert a[..0] == b[..0];
    } else if a[0] != b[0] {
      assert a[..0] == b[..0];
    } else {
      LeqPrecedes(a[1..], b[1..]);
      var k :| 0 <= k <= |a[1..]| && k <= |b[1..]| && a[1..][..k] == b[1..][..k]
            && (k == |a[1..]| || (k < |b[1..]| && a[1..][k] < b[1..][k]));
      assert a[..k + 1] == [a[0]] + a[1..][..k] && b[..k + 1] == [b[0]] + b[1..][..k];
    }
  }

  ghost predicate BranchPrecedes(a: Branch, b: Branch) {
    || a.line < b.line
    || (a.line == b.line && a.block != b.block && Precedes(a.block, b.block))
    || (a.line == b.line && a.block == b.block && Precedes(a.branch, b.branch))
  }

  /** Every key once, in ascending order. */
  ghost predicate InOrder(o: Order, r: Record) {
    && Enumerates(o.definitions, r.functions) && Enumerates(o.names, r.functionHits.Keys)
    && Enumerates(o.numbers, r.lines.Keys) && Enumerates(o.branches, r.branches.Keys)
    && (forall i, j :: 0 <= i < j < |o.definitions| ==> Precedes(o.definitions[i], o.definitions[j]))
    && (forall i, j :: 0 <= i < j < |o.names| ==> Precedes(o.names[i], o.names[j]))
    && (forall i, j :: 0 <= i < j < |o.numbers| ==> o.numbers[i] < o.numbers[j])
    && (forall i, j :: 0 <= i < j < |o.branches| ==> BranchPrecedes(o.branches[i], o.branches[j]))
  }

  lemma NamesInOrder(names: set<string>, i: nat, j: nat)
    requires i < j < |SortedNames(names)|
    ensures Precedes(SortedNames(names)[i], SortedNames(names)[j])
  {
    hide Precedes;
    StringOrder();
    LeqPrecedes(SortedNames(names)[i], SortedNames(names)[j]);
  }

  lemma BranchesInOrder(branches: set<Branch>, i: nat, j: nat)
    requires i < j < |SortedBranches(branches)|
    ensures BranchPrecedes(SortedBranches(branches)[i], SortedBranches(branches)[j])
  {
    hide Precedes;
    BranchOrder();
    var a, b := SortedBranches(branches)[i], SortedBranches(branches)[j];
    assert BranchLeq(a, b);
    if a.line == b.line {
      if a.block != b.block {
        LeqPrecedes(a.block, b.block);
      } else {
        LeqPrecedes(a.branch, b.branch);
      }
    }
  }

  lemma NumbersInOrder(numbers: set<nat>, i: nat, j: nat)
    requires i < j < |SortedNumbers(numbers)|
    ensures SortedNumbers(numbers)[i] < SortedNumbers(numbers)[j]
  {
    NatOrder();
    assert NatLeq(SortedNumbers(numbers)[i], SortedNumbers(numbers)[j]);
  }

  lemma OrderIsInOrder(r: Record)
    ensures InOrder(OrderOf(r), r)
  {
    hide SortedNames, SortedNumbers, SortedBranches, Precedes, BranchPrecedes;
    var o := OrderOf(r);
    forall i, j | 0 <= i < j < |o.definitions|
      ensures Precedes(o.definitions[i], o.definitions[j])
    {
      NamesInOrder(r.functions, i, j);
    }
    forall i, j | 0 <= i < j < |o.names|
      ensures Precedes(o.names[i], o.names[j])
    {
      NamesInOrder(r.functionHits.Keys, i, j);
    }
    forall i, j | 0 <= i < j < |o.numbers|
      ensures o.numbers[i] < o.numbers[j]
    {
      NumbersInOrder(r.lines.Keys, i, j);
    }
    forall i, j | 0 <= i < j < |o.branches|
      ensures BranchPrecedes(o.branches[i], o.branches[j])
    {
      BranchesInOrder(r.branches.Keys, i, j);
    }
  }

  // ---------------------------------------------------------------------------
  // What a written record says

  /** What follows the first comma of the definition is the name of a function that was hit. */
  ghost predicate DefinesHit(r: Record, definition: string) {
    exists k :: 0 <= k < |definition| && definition[k] == ',' && NoComma(definition[..k])
             && definition[k + 1..] in r.functionHits && r.functionHits[definition[k + 1..]] > 0
  }

  /** The totals of a block are those of the record. */
  ghost predicate TotalsOf(block: seq<string>, r: Record) {
    && NumberAt(block, "FNF:") == Some(|r.functions|)
    && NumberAt(block, "FNH:") == Some(|set d | d in r.functions && DefinesHit(r, d)|)
    && NumberAt(block, "LF:") == Some(|r.lines|)
    && NumberAt(block, "LH:") == Some(|set n | n in r.lines && r.lines[n].hits > 0|)
    && NumberAt(block, "BRF:") == Some(|r.branches|)
    && NumberAt(block, "BRH:") == Some(|set k | k in r.branches && r.branches[k].Some? && r.branches[k].value > 0|)
  }

  /** The entries of a block are those of the record, in order. */
  ghost predicate EntriesOf(block: seq<string>, source: string, r: Record, o: Order) {
    && InOrder(o, r) && Lists(o, r)
    && Tagged(block, "SF:") == [source]
    && Tagged(block, "FN:") == o.definitions
    && Tagged(block, "FNDA:") == FunctionHitsTexts(o, r)
    && Tagged(block, "DA:") == LineTexts(o, r)
    && Tagged(block, "BRDA:") == BranchTexts(o, r)
  }

  lemma DefinesHitIff(r: Record, definition: string)
    requires definition in r.functions && !NoComma(definition)
    ensures DefinesHit(r, definition) <==> definition in HitFunctions(r)
  {
    var n := CommaAt(definition);
    assert n < |definition| by {
      assert definition[..|definition|] == definition;
    }
    assert definition[n] == ',' && NoComma(definition[..n]);
    if DefinesHit(r, definition) {
      var k :| 0 <= k < |definition| && definition[k] == ',' && NoComma(definition[..k])
            && definition[k + 1..] in r.functionHits && r.functionHits[definition[k + 1..]] > 0;
      CommaAtUnique(definition, k);
    }
  }

  lemma HitSetsAre(r: Record)
    requires forall d :: d in r.functions ==> !NoComma(d)
    ensures HitFunctions(r) == set d | d in r.functions && DefinesHit(r, d)
    ensures HitLines(r) == set n | n in r.lines && r.lines[n].hits > 0
    ensures HitBranches(r) == set k | k in r.branches && r.branches[k].Some? && r.branches[k].value > 0
  {
    hide DefinesHit;
    forall d | d in r.functions
      ensures DefinesHit(r, d) <==> d in HitFunctions(r)
    {
      DefinesHitIff(r, d);
    }
  }

  lemma NumberOf(block: seq<string>, tag: string, n: nat)
    requires Tagged(block, tag) == [Decimal(n)]
    ensures NumberAt(block, tag) == Some(n)
  {
    ParseDecimal(n);
  }

  lemma BlockSays(source: string, r: Record)
    requires forall d :: d in r.functions ==> !NoComma(d)
    ensures Lists(OrderOf(r), r)
    ensures var block := Rows(Segments(source, OrderOf(r), r));
            TotalsOf(block, r) && EntriesOf(block, source, r, OrderOf(r))
  {
    hide SortedNames, SortedNumbers, SortedBranches, Rows, Tagged, InOrder, NumberAt, HitFunctions, HitLines, HitBranches,
      FunctionHitsTexts, LineTexts, BranchTexts, DefinesHit, Tags;
    var o := OrderOf(r);
    OrderIsInOrder(r);
    var segs := Segments(source, o, r);
    var block := Rows(segs);
    SegmentTags(source, o, r);
    forall i | 0 <= i < |segs|
      ensures Tagged(block, segs[i].tag) == segs[i].texts
    {
      TaggedRows(segs, i);
    }
    assert segs[0] == Segment("SF:", [source]) && segs[1] == Segment("FN:", o.definitions);
    assert segs[2] == Segment("FNDA:", FunctionHitsTexts(o, r)) && segs[5] == Segment("DA:", LineTexts(o, r));
    assert segs[8] == Segment("BRDA:", BranchTexts(o, r));
    HitSetsAre(r);
    assert segs[3] == Segment("FNF:", [Decimal(|r.functions|)]) && segs[4] == Segment("FNH:", [Decimal(|HitFunctions(r)|)]);
    NumberOf(block, "FNF:", |r.functions|);
    NumberOf(block, "FNH:", |HitFunctions(r)|);
    assert segs[6] == Segment("LF:", [Decimal(|r.lines.Keys|)]) && segs[7] == Segment("LH:", [Decimal(|HitLines(r)|)]);
    NumberOf(block, "LF:", |r.lines.Keys|);
    NumberOf(block, "LH:", |HitLines(r)|);
    assert segs[9] == Segment("BRF:", [Decimal(|r.branches.Keys|)]) && segs[10] == Segment("BRH:", [Decimal(|HitBranches(r)|)]);
    NumberOf(block, "BRF:", |r.branches.Keys|);
    NumberOf(block, "BRH:", |HitBranches(r)|);
    assert |r.lines| == |r.lines.Keys| && |r.branches| == |r.branches.Keys|;
  }

  // ---------------------------------------------------------------------------
  // The whole report

  lemma {:induction false} BlocksOfReport(sources: seq<string>, m: Report)
    requires forall s :: s in sources ==> s in m
    ensures var blocks := Blocks(ReportLines(sources, m));
            && |blocks| == |sources|
            && forall i :: 0 <= i < |sources| ==>
                 && Lists(OrderOf(m[sources[i]]), m[sources[i]])
                 && blocks[i] == Rows(Segments(sources[i], OrderOf(m[sources[i]]), m[sources[i]]))
  {
    hide RecordLines, Segments, OrderOf, Rows, Blocks;
    if sources == [] {
      NoBlocks();
    } else {
      var source, rest := sources[0], sources[1..];
      var r := m[source];
      var o := OrderOf(r);
      RecordLinesAre(source, o, r);
      SegmentTags(source, o, r);
      RowsNeverEnd(Segments(source, o, r));
      BlocksOfReport(rest, m);
      FirstBlock(Rows(Segments(source, o, r)), ReportLines(rest, m));
    }
  }

  lemma NoBlocks()
    ensures Blocks([]) == []
  {
  }

  /** No text of the record holds a line break. */
  predicate UnbrokenRecord(r: Record) {
    && (forall d :: d in r.functions ==> NoBreak(d))
    && (forall name :: name in r.functionHits ==> NoBreak(name))
    && (forall n :: n in r.lines && r.lines[n].checksum.Some? ==> NoBreak(r.lines[n].checksum.value))
    && (forall k :: k in r.branches ==> NoBreak(k.block) && NoBreak(k.branch))
  }

  predicate Unbroken(m: Report) {
    forall s :: s in m ==> NoBreak(s) && UnbrokenRecord(m[s])
  }

  ghost predicate AllUnbroken(lines: seq<string>) {
    forall i :: 0 <= i < |lines| ==> NoBreak(lines[i])
  }

  lemma UnbrokenTexts(o: Order, r: Record)
    requires o == OrderOf(r) && Lists(o, r) && UnbrokenRecord(r)
    ensures AllUnbroken(o.definitions) && AllUnbroken(FunctionHitsTexts(o, r))
    ensures AllUnbroken(LineTexts(o, r)) && AllUnbroken(BranchTexts(o, r))
  {
    hide SortedNames, SortedNumbers, SortedBranches, NoBreak, Decimal;
    forall i | 0 <= i < |o.definitions|
      ensures NoBreak(o.definitions[i])
    {
      assert o.definitions[i] in o.definitions;
    }
    forall i | 0 <= i < |o.names|
      ensures NoBreak(FunctionHitsTexts(o, r)[i])
    {
      var name := o.names[i];
      UnbrokenNumber(r.functionHits[name]);
      UnbrokenPair(Decimal(r.functionHits[name]), name);
    }
    forall i | 0 <= i < |o.numbers|
      ensures NoBreak(LineTexts(o, r)[i])
    {
      UnbrokenLine(o.numbers[i], r.lines[o.numbers[i]]);
    }
    forall i | 0 <= i < |o.branches|
      ensures NoBreak(BranchTexts(o, r)[i])
    {
      UnbrokenBranch(o.branches[i], r.branches[o.branches[i]]);
    }
  }

  lemma UnbrokenPair(a: string, b: string)
    requires NoBreak(a) && NoBreak(b)
    ensures NoBreak(a + "," + b) && NoBreak(a + b)
  {
  }

  lemma UnbrokenNumber(n: nat)
    ensures NoBreak(Decimal(n))
  {
    DecimalPlain(n);
  }

  lemma UnbrokenLine(number: nat, line: Line)
    requires line.checksum.Some? ==> NoBreak(line.checksum.value)
    ensures NoBreak(Decimal(number) + "," + (Decimal(line.hits) + if line.checksum.Some? then "," + line.checksum.value else ""))
  {
    hide Decimal;
    UnbrokenNumber(number);
    UnbrokenNumber(line.hits);
    if line.checksum.Some? {
      UnbrokenPair(Decimal(line.hits), line.checksum.value);
      assert Decimal(line.hits) + ("," + line.checksum.value) == Decimal(line.hits) + "," + line.checksum.value;
    }
  }

  lemma UnbrokenBranch(k: Branch, taken: Option<nat>)
    requires NoBreak(k.block) && NoBreak(k.branch)
    ensures NoBreak(Decimal(k.line) + "," + (k.block + "," + (k.branch + "," + if taken.None? then "-" else Decimal(taken.value))))
  {
    hide Decimal;
    var last := if taken.None? then "-" else Decimal(taken.value);
    UnbrokenNumber(k.line);
    if taken.Some? {
      UnbrokenNumber(taken.value);
    }
    UnbrokenPair(k.branch, last);
    UnbrokenPair(k.block, k.branch + "," + last);
    UnbrokenPair(Decimal(k.line), k.block + "," + (k.branch + "," + last));
  }

  lemma {:induction false} UnbrokenRows(segments: seq<Segment>)
    requires forall i :: 0 <= i < |segments| ==> NoBreak(segments[i].tag) && AllUnbroken(segments[i].texts)
    ensures AllUnbroken(Rows(segments))
  {
    hide NoBreak;
    if segments != [] {
      UnbrokenRows(segments[1..]);
      var s := segments[0];
      forall i | 0 <= i < |s.texts|
        ensures NoBreak(s.tag + s.texts[i])
      {
        UnbrokenPair(s.tag, s.texts[i]);
      }
    }
  }

  lemma UnbrokenTags()
    ensures forall i :: 0 <= i < |TAGS| ==> NoBreak(TAGS[i])
    ensures NoBreak("end_of_record")
  {
  }

  lemma UnbrokenRecordLines(source: string, r: Record)
    requires NoBreak(source) && UnbrokenRecord(r)
    ensures AllUnbroken(RecordLines(source, r))
  {
    hide NoBreak, UnbrokenRecord, Rows, RecordLines, FunctionHitsTexts, LineTexts, BranchTexts, Decimal, HitFunctions, HitLines,
      HitBranches, SortedNames, SortedNumbers, SortedBranches;
    var o := OrderOf(r);
    RecordLinesAre(source, o, r);
    SegmentTags(source, o, r);
    UnbrokenTexts(o, r);
    UnbrokenTags();
    UnbrokenNumber(|r.functions|);
    UnbrokenNumber(|HitFunctions(r)|);
    UnbrokenNumber(|r.lines.Keys|);
    UnbrokenNumber(|HitLines(r)|);
    UnbrokenNumber(|r.branches.Keys|);
    UnbrokenNumber(|HitBranches(r)|);
    UnbrokenRows(Segments(source, o, r));
  }

  lemma {:induction false} UnbrokenReportLines(sources: seq<string>, m: Report)
    requires Unbroken(m) && forall s :: s in sources ==> s in m
    ensures AllUnbroken(ReportLines(sources, m))
  {
    hide NoBreak, UnbrokenRecord, RecordLines;
    if sources != [] {
      UnbrokenRecordLines(sources[0], m[sources[0]]);
      UnbrokenReportLines(sources[1..], m);
    }
  }

  /** The text written for a report, read line by line: one record for each source, in ascending order,
      each with the entries of its source in ascending order and with true totals. */
  lemma WrittenTextSays(m: Report) returns (sources: seq<string>)
    requires Renderable(m) && Unbroken(m)
    ensures Render(m).Ok?
    ensures Enumerates(sources, m.Keys)
    ensures forall i, j :: 0 <= i < j < |sources| ==> Precedes(sources[i], sources[j])
    ensures var blocks := Blocks(SplitLines(Render(m).value));
            && |blocks| == |sources|
            && forall i :: 0 <= i < |sources| ==>
                 && TotalsOf(blocks[i], m[sources[i]])
                 && exists o :: EntriesOf(blocks[i], sources[i], m[sources[i]], o)
  {
    hide SortedNames, Precedes, ReportLines, TotalsOf, EntriesOf, Segments, OrderOf, Rows, Blocks, SplitLines, JoinLines;
    sources := SortedNames(m.Keys);
    forall i, j | 0 <= i < j < |sources|
      ensures Precedes(sources[i], sources[j])
    {
      NamesInOrder(m.Keys, i, j);
    }
    BlocksOfReport(sources, m);
    WrittenLines(m);
    var blocks := Blocks(ReportLines(sources, m));
    forall i | 0 <= i < |sources|
      ensures TotalsOf(blocks[i], m[sources[i]]) && exists o :: EntriesOf(blocks[i], sources[i], m[sources[i]], o)
    {
      BlockSays(sources[i], m[sources[i]]);
    }
  }

  lemma WrittenLines(m: Report)
    requires Renderable(m) && Unbroken(m)
    ensures Render(m).Ok? && SplitLines(Render(m).value) == ReportLines(SortedNames(m.Keys), m)
  {
    hide SortedNames, ReportLines, NoBreak, SplitLines, JoinLines, Unbroken;
    UnbrokenReportLines(SortedNames(m.Keys), m);
    SplitJoined(ReportLines(SortedNames(m.Keys), m));
  }
}
