/** Reconciling the audit receiver's journal with both ends of the audit chain
    (perf/tools/point_runner.py, _journal_scan and reconcile_audit_state). */
module AuditJournal {
  import opened Common
  import Counts

  const UNTYPED: string := "<missing>"
  const TOKEN_ISSUED: string := "token_issued"

  /** An event; `second` is when it occurred, if it says so readably. */
  datatype Event = Event(sequence: Option<int>, kind: Option<string>, second: Option<int>)

  /** One journal line. `Unscannable` stands for JSON of a shape the scanner stops on. */
  datatype Line =
    | Malformed
    | Unscannable
    | NotBatch
    | Batch(deployment: Option<string>, events: seq<Event>, first: Option<int>, last: Option<int>, count: Option<int>)

  /** What the scanner knows about the events seen so far. */
  datatype Tally = Tally(
    seen: set<int>, byType: map<string, int>, perSecond: map<int, int>, duplicates: nat, unnumbered: nat)

  datatype Scan = Scan(tally: Tally, batches: nat, foreign: nat, malformed: nat, gaps: nat, prevLast: Option<int>)

  function TypeOf(e: Event): string {
    if e.kind.Some? && e.kind.value != "" then e.kind.value else UNTYPED
  }

  predicate InRange(s: int, lo: int, hi: int) {
    lo < s <= hi
  }

  // ---------- Events ----------

  function AddEvent(t: Tally, e: Event, lo: int, hi: int): Tally {
    if e.sequence.None? then t.(unnumbered := t.unnumbered + 1)
    else if e.sequence.value in t.seen then t.(duplicates := t.duplicates + 1)
    else
      t.(seen := t.seen + {e.sequence.value},
         byType := if InRange(e.sequence.value, lo, hi) then Counts.Add(t.byType, TypeOf(e), 1) else t.byType,
         perSecond :=
           if InRange(e.sequence.value, lo, hi) && TimedIssue(e) then Counts.Add(t.perSecond, e.second.value, 1)
           else t.perSecond)
  }

  /** A token was issued, at a readable time. */
  predicate TimedIssue(e: Event) {
    TypeOf(e) == TOKEN_ISSUED && e.second.Some?
  }

  function TallyOf(es: seq<Event>, lo: int, hi: int): Tally {
    if es == [] then Tally({}, map[], map[], 0, 0) else AddEvent(TallyOf(es[..|es| - 1], lo, hi), es[|es| - 1], lo, hi)
  }

  /** How often a sequence number occurs. */
  function Occurrences(es: seq<Event>, s: int): nat {
    if es == [] then 0
    else Occurrences(es[..|es| - 1], s) + if es[|es| - 1].sequence == Some(s) then 1 else 0
  }

  function Unnumbered(es: seq<Event>): nat {
    if es == [] then 0
    else Unnumbered(es[..|es| - 1]) + if es[|es| - 1].sequence.None? then 1 else 0
  }

  /** The event says it is of this kind; one that says nothing is "<missing>". */
  predicate IsOfKind(e: Event, kind: string) {
    if e.kind.None? || e.kind == Some("") then kind == "<missing>" else e.kind == Some(kind)
  }

  predicate Numbered(e: Event, lo: int, hi: int) {
    e.sequence.Some? && lo < e.sequence.value && e.sequence.value <= hi
  }

  /** Events of one type inside the range. */
  function OfType(es: seq<Event>, lo: int, hi: int, kind: string): nat {
    if es == [] then 0
    else
      var e := es[|es| - 1];
      OfType(es[..|es| - 1], lo, hi, kind) + if Numbered(e, lo, hi) && IsOfKind(e, kind) then 1 else 0
  }

  /** Tokens issued inside the range in one second. */
  function IssuedIn(es: seq<Event>, lo: int, hi: int, second: int): nat {
    if es == [] then 0
    else
      var e := es[|es| - 1];
      IssuedIn(es[..|es| - 1], lo, hi, second) +
      if Numbered(e, lo, hi) && IsOfKind(e, "token_issued") && e.second == Some(second) then 1 else 0
  }

  ghost function SeenInRange(t: Tally, lo: int, hi: int): set<int> {
    set s | s in t.seen && InRange(s, lo, hi)
  }

  /** Nothing is lost: every event is unnumbered, a repetition, or the first of its number; and
      the counts per type add up to the numbers seen inside the range. */
  lemma {:induction false} TallyConserves(es: seq<Event>, lo: int, hi: int)
    ensures var t := TallyOf(es, lo, hi);
            && |es| == |t.seen| + t.duplicates + t.unnumbered
            && t.unnumbered == Unnumbered(es)
            && Counts.Total(t.byType) == |SeenInRange(t, lo, hi)|
  {
    if es != [] {
      var prefix, e := es[..|es| - 1], es[|es| - 1];
      TallyConserves(prefix, lo, hi);
      AddConserves(TallyOf(prefix, lo, hi), e, lo, hi);
    } else {
      assert SeenInRange(TallyOf(es, lo, hi), lo, hi) == {};
    }
  }

  lemma AddConserves(t: Tally, e: Event, lo: int, hi: int)
    requires Counts.Total(t.byType) == |SeenInRange(t, lo, hi)|
    ensures var t' := AddEvent(t, e, lo, hi);
            && Counts.Total(t'.byType) == |SeenInRange(t', lo, hi)|
            && |t'.seen| + t'.duplicates + t'.unnumbered == |t.seen| + t.duplicates + t.unnumbered + 1
  {
    var t' := AddEvent(t, e, lo, hi);
    if e.sequence.Some? && e.sequence.value !in t.seen {
      if InRange(e.sequence.value, lo, hi) {
        Counts.TotalAdd(t.byType, TypeOf(e), 1);
        assert SeenInRange(t', lo, hi) == SeenInRange(t, lo, hi) + {e.sequence.value};
      } else {
        assert SeenInRange(t', lo, hi) == SeenInRange(t, lo, hi);
      }
    } else {
      assert SeenInRange(t', lo, hi) == SeenInRange(t, lo, hi);
    }
  }

  lemma {:induction false} SeenIffOccurs(es: seq<Event>, lo: int, hi: int, s: int)
    ensures s in TallyOf(es, lo, hi).seen <==> Occurrences(es, s) > 0
  {
    if es != [] {
      SeenIffOccurs(es[..|es| - 1], lo, hi, s);
    }
  }

  ghost predicate NoneTwice(es: seq<Event>) {
    forall s :: Occurrences(es, s) <= 1
  }

  lemma NoneTwiceStep(es: seq<Event>)
    requires es != []
    ensures var prefix, e := es[..|es| - 1], es[|es| - 1];
            NoneTwice(es) <==>
              NoneTwice(prefix) && (e.sequence.Some? ==> Occurrences(prefix, e.sequence.value) == 0)
  {
    var prefix, e := es[..|es| - 1], es[|es| - 1];
    if NoneTwice(es) {
      assert e.sequence.Some? ==> Occurrences(es, e.sequence.value) <= 1;
      forall s: int
        ensures Occurrences(prefix, s) <= 1
      {
        assert Occurrences(es, s) <= 1;
      }
    } else if NoneTwice(prefix) {
      var s :| Occurrences(es, s) > 1;
      assert Occurrences(prefix, s) <= 1;
    }
  }

  /** Repetitions are reported exactly when some number occurs twice. */
  lemma {:induction false} DuplicatesIff(es: seq<Event>, lo: int, hi: int)
    ensures TallyOf(es, lo, hi).duplicates == 0 <==> NoneTwice(es)
  {
    if es != [] {
      var prefix, e := es[..|es| - 1], es[|es| - 1];
      DuplicatesIff(prefix, lo, hi);
      NoneTwiceStep(es);
      if e.sequence.Some? {
        SeenIffOccurs(prefix, lo, hi, e.sequence.value);
      }
    }
  }

  /** Without repetitions the counts per type are the events of that type in the range. */
  lemma {:induction false} TypeCountsExact(es: seq<Event>, lo: int, hi: int, kind: string)
    requires TallyOf(es, lo, hi).duplicates == 0
    ensures Counts.At(TallyOf(es, lo, hi).byType, kind) == OfType(es, lo, hi, kind)
  {
    if es != [] {
      TypeCountsExact(es[..|es| - 1], lo, hi, kind);
    }
  }

  /** And so are the tokens counted per second. */
  lemma {:induction false} SecondCountsExact(es: seq<Event>, lo: int, hi: int, second: int)
    requires TallyOf(es, lo, hi).duplicates == 0
    ensures Counts.At(TallyOf(es, lo, hi).perSecond, second) == IssuedIn(es, lo, hi, second)
  {
    if es != [] {
      SecondCountsExact(es[..|es| - 1], lo, hi, second);
    }
  }

  lemma {:induction false} TallyConcat(es: seq<Event>, fs: seq<Event>, lo: int, hi: int)
    ensures TallyOf(es + fs, lo, hi) == AddAll(TallyOf(es, lo, hi), fs, lo, hi)
  {
    hide AddEvent;
    if fs == [] {
      assert es + fs == es;
    } else {
      var last := |fs| - 1;
      TallyConcat(es, fs[..last], lo, hi);
      assert es + fs == es + fs[..last] + [fs[last]];
      TallyLast(es + fs[..last], fs[last], lo, hi);
    }
  }

  lemma TallyLast(es: seq<Event>, e: Event, lo: int, hi: int)
    ensures TallyOf(es + [e], lo, hi) == AddEvent(TallyOf(es, lo, hi), e, lo, hi)
  {
    hide AddEvent;
    assert (es + [e])[..|es|] == es;
  }

  function AddAll(t: Tally, es: seq<Event>, lo: int, hi: int): Tally {
    if es == [] then t else AddEvent(AddAll(t, es[..|es| - 1], lo, hi), es[|es| - 1], lo, hi)
  }

  method TallyEvents(t0: Tally, es: seq<Event>, lo: int, hi: int) returns (t: Tally)
    ensures t == AddAll(t0, es, lo, hi)
  {
    t := t0;
    for i := 0 to |es|
      invariant t == AddAll(t0, es[..i], lo, hi)
    {
      var e := es[i];
      assert es[..i + 1][..i] == es[..i];
      if e.sequence.None? {
        t := t.(unnumbered := t.unnumbered + 1);
        continue;
      }
      var s := e.sequence.value;
      if s in t.seen {
        t := t.(duplicates := t.duplicates + 1);
        continue;
      }
      t := t.(seen := t.seen + {s});
      if lo < s <= hi {
        t := t.(byType := Counts.Add(t.byType, TypeOf(e), 1));
        if TimedIssue(e) {
          t := t.(perSecond := Counts.Add(t.perSecond, e.second.value, 1));
        }
      }
    }
    assert es[..|es|] == es;
  }

  // ---------- Lines ----------

  predicate Own(line: Line, deployment: string) {
    line.Batch? && line.deployment == Some(deployment)
  }

  predicate Foreign(line: Line, deployment: string) {
    line.Batch? && line.deployment != Some(deployment)
  }

  predicate Miscounted(line: Line) {
    line.Batch? && line.count.Some? && line.count.value != |line.events|
  }

  /** The batch does not continue where the last recorded one stopped. */
  predicate Breaks(prevLast: Option<int>, line: Line) {
    line.Batch? && prevLast.Some? && line.first.Some? && line.first.value != prevLast.value + 1
  }

  function AddLine(s: Scan, line: Line, deployment: string, lo: int, hi: int): Scan {
    if line.Malformed? then s.(malformed := s.malformed + 1)
    else if Foreign(line, deployment) then s.(foreign := s.foreign + 1)
    else if !Own(line, deployment) then s
    else
      var tally := AddAll(s.tally, line.events, lo, hi);
      Scan(tally, s.batches + 1, s.foreign,
           s.malformed + (if Miscounted(line) then 1 else 0),
           s.gaps + (if Breaks(s.prevLast, line) then 1 else 0),
           if line.last.Some? then line.last else s.prevLast)
  }

  function ScanOf(lines: seq<Line>, deployment: string, lo: int, hi: int): Scan {
    if lines == [] then Scan(Tally({}, map[], map[], 0, 0), 0, 0, 0, 0, None)
    else AddLine(ScanOf(lines[..|lines| - 1], deployment, lo, hi), lines[|lines| - 1], deployment, lo, hi)
  }

  /** The report the scanner hands on; `malformed` also counts events without a number. */
  datatype Journal = Journal(
    batches: nat, byType: map<string, int>, perSecond: map<int, int>, inRange: nat, contiguous: bool,
    duplicates: nat, malformed: nat, foreign: nat, gaps: nat)

  function RangeSet(lo: int, hi: int): (r: set<int>)
    ensures forall s :: s in r <==> InRange(s, lo, hi)
    ensures lo <= hi ==> |r| == hi - lo
    decreases hi - lo
  {
    if hi <= lo then {} else RangeSet(lo, hi - 1) + {hi}
  }

  ghost function ReportOf(s: Scan, lo: int, hi: int): Journal {
    var inRange := SeenInRange(s.tally, lo, hi);
    Journal(s.batches, s.tally.byType, s.tally.perSecond, |inRange|, |inRange| == hi - lo && inRange == RangeSet(lo, hi),
            s.tally.duplicates, s.malformed + s.tally.unnumbered, s.foreign, s.gaps)
  }

  method JournalScan(lines: seq<Line>, deployment: string, lo: int, hi: int) returns (r: Result<Journal>)
    ensures r.Err? <==> Unscannable in lines
    ensures r.Ok? ==> r.value == ReportOf(ScanOf(lines, deployment, lo, hi), lo, hi)
  {
    var s := Scan(Tally({}, map[], map[], 0, 0), 0, 0, 0, 0, None);
    for i := 0 to |lines|
      invariant Unscannable !in lines[..i]
      invariant s == ScanOf(lines[..i], deployment, lo, hi)
    {
      assert lines[..i + 1][..i] == lines[..i];
      var line := lines[i];
      if line.Unscannable? {
        return Err;
      }
      if line.Malformed? {
        s := s.(malformed := s.malformed + 1);
        continue;
      }
      if line.NotBatch? {
        continue;
      }
      if line.deployment != Some(deployment) {
        s := s.(foreign := s.foreign + 1);
        continue;
      }
      var batches, gaps, malformed, prevLast := s.batches + 1, s.gaps, s.malformed, s.prevLast;
      if prevLast.Some? && line.first.Some? && line.first.value != prevLast.value + 1 {
        gaps := gaps + 1;
      }
      if line.last.Some? {
        prevLast := line.last;
      }
      if line.count.Some? && line.count.value != |line.events| {
        malformed := malformed + 1;
      }
      var tally := TallyEvents(s.tally, line.events, lo, hi);
      s := Scan(tally, batches, s.foreign, malformed, gaps, prevLast);
    }
    assert lines[..|lines|] == lines;
    var inRange := set k | k in s.tally.seen && lo < k <= hi;
    assert inRange == SeenInRange(s.tally, lo, hi);
    return Ok(Journal(s.batches, s.tally.byType, s.tally.perSecond, |inRange|,
                      |inRange| == hi - lo && inRange == RangeSet(lo, hi),
                      s.tally.duplicates, s.malformed + s.tally.unnumbered, s.foreign, s.gaps));
  }

  // ---------- What a clean scan means ----------

  /** All events of the deployment's own batches, in order. */
  function Events(lines: seq<Line>, deployment: string): seq<Event> {
    if lines == [] then []
    else
      var line := lines[|lines| - 1];
      Events(lines[..|lines| - 1], deployment) +
      if line.Batch? && line.deployment == Some(deployment) then line.events else []
  }

  /** The last sequence number recorded by the deployment's latest batch that records one. */
  function LastRecorded(lines: seq<Line>, deployment: string): Option<int> {
    if lines == [] then None
    else
      var line := lines[|lines| - 1];
      if line.Batch? && line.deployment == Some(deployment) && line.last.Some? then line.last
      else LastRecorded(lines[..|lines| - 1], deployment)
  }

  function OwnBatches(lines: seq<Line>, deployment: string): nat {
    if lines == [] then 0
    else
      var line := lines[|lines| - 1];
      OwnBatches(lines[..|lines| - 1], deployment) + if line.Batch? && line.deployment == Some(deployment) then 1 else 0
  }

  lemma {:induction false} ScanTallies(lines: seq<Line>, deployment: string, lo: int, hi: int)
    ensures ScanOf(lines, deployment, lo, hi).tally == TallyOf(Events(lines, deployment), lo, hi)
    ensures ScanOf(lines, deployment, lo, hi).batches == OwnBatches(lines, deployment)
    ensures ScanOf(lines, deployment, lo, hi).prevLast == LastRecorded(lines, deployment)
  {
    if lines != [] {
      var prefix, line := lines[..|lines| - 1], lines[|lines| - 1];
      ScanTallies(prefix, deployment, lo, hi);
      if Own(line, deployment) {
        TallyConcat(Events(prefix, deployment), line.events, lo, hi);
      } else {
        assert Events(lines, deployment) == Events(prefix, deployment);
      }
    }
  }

  function ForeignBatches(lines: seq<Line>, deployment: string): nat {
    if lines == [] then 0
    else
      var line := lines[|lines| - 1];
      ForeignBatches(lines[..|lines| - 1], deployment) + if line.Batch? && line.deployment != Some(deployment) then 1 else 0
  }

  /** Lines that do not decode, and own batches that misstate their length. */
  function SpoiledLines(lines: seq<Line>, deployment: string): nat {
    if lines == [] then 0
    else
      var line := lines[|lines| - 1];
      SpoiledLines(lines[..|lines| - 1], deployment) +
      if line == Malformed || (line.Batch? && line.deployment == Some(deployment)
                               && line.count != None && line.count != Some(|line.events|)) then 1 else 0
  }

  /** Own batches that say they begin elsewhere than the last recorded number leaves off. */
  function BrokenSteps(lines: seq<Line>, deployment: string): nat {
    if lines == [] then 0
    else
      var prefix, line := lines[..|lines| - 1], lines[|lines| - 1];
      var last := LastRecorded(prefix, deployment);
      BrokenSteps(prefix, deployment) +
      if line.Batch? && line.deployment == Some(deployment) && last.Some? && line.first.Some?
         && line.first.value - last.value != 1 then 1 else 0
  }

  lemma {:induction false} ScanCounts(lines: seq<Line>, deployment: string, lo: int, hi: int)
    ensures var s := ScanOf(lines, deployment, lo, hi);
            && s.foreign == ForeignBatches(lines, deployment) && s.malformed == SpoiledLines(lines, deployment)
            && s.gaps == BrokenSteps(lines, deployment)
  {
    if lines != [] {
      ScanCounts(lines[..|lines| - 1], deployment, lo, hi);
      ScanTallies(lines[..|lines| - 1], deployment, lo, hi);
    }
  }

  /** The line is well formed, and a batch is this deployment's and as long as it says. */
  predicate InOrder(line: Line, deployment: string) {
    && line != Malformed
    && (line.Batch? ==> line.deployment == Some(deployment) && (line.count == None || line.count == Some(|line.events|)))
  }

  /** Whatever the batch says its first number is follows the last recorded one. */
  predicate Continues(last: Option<int>, line: Line) {
    line.Batch? && last.Some? && line.first.Some? ==> line.first.value == last.value + 1
  }

  /** A journal of well-formed lines, all batches this deployment's, each as long as it says and
      continuing where the previous one stopped. */
  ghost predicate WellKept(lines: seq<Line>, deployment: string) {
    && (forall line :: line in lines ==> InOrder(line, deployment))
    && (forall i :: 0 <= i < |lines| ==> Continues(LastRecorded(lines[..i], deployment), lines[i]))
  }

  lemma {:induction false} CleanIffWellKept(lines: seq<Line>, deployment: string, lo: int, hi: int)
    ensures var s := ScanOf(lines, deployment, lo, hi);
            s.malformed == 0 && s.foreign == 0 && s.gaps == 0 <==> WellKept(lines, deployment)
  {
    if lines != [] {
      var n := |lines| - 1;
      var prefix, line := lines[..n], lines[n];
      CleanIffWellKept(prefix, deployment, lo, hi);
      ScanTallies(prefix, deployment, lo, hi);
      assert forall l :: l in lines <==> l in prefix || l == line;
      assert forall i :: 0 <= i < n ==> lines[..i] == prefix[..i];
      WellKeptStep(lines, deployment);
    }
  }

  lemma WellKeptStep(lines: seq<Line>, deployment: string)
    requires lines != []
    ensures var n := |lines| - 1;
            WellKept(lines, deployment) <==>
              && WellKept(lines[..n], deployment)
              && InOrder(lines[n], deployment) && Continues(LastRecorded(lines[..n], deployment), lines[n])
  {
    hide Continues, LastRecorded, InOrder;
    var n := |lines| - 1;
    var prefix := lines[..n];
    assert forall l :: l in lines <==> l in prefix || l == lines[n];
    assert forall i :: 0 <= i < n ==> lines[..i] == prefix[..i];
    if WellKept(lines, deployment) {
      assert Continues(LastRecorded(lines[..n], deployment), lines[n]);
      forall i | 0 <= i < |prefix|
        ensures Continues(LastRecorded(prefix[..i], deployment), prefix[i])
      {
        assert lines[..i] == prefix[..i];
      }
    } else if WellKept(prefix, deployment) {
      forall i | 0 <= i < n
        ensures Continues(LastRecorded(lines[..i], deployment), lines[i])
      {
        assert Continues(LastRecorded(prefix[..i], deployment), prefix[i]);
      }
    }
  }

  /** Every number in (lo, hi] occurs once, none occurs twice, and every event has one. */
  ghost predicate EachOnce(es: seq<Event>, lo: int, hi: int) {
    && lo <= hi
    && Unnumbered(es) == 0
    && NoneTwice(es)
    && OnceEach(es, lo, hi)
  }

  ghost predicate OnceEach(es: seq<Event>, lo: int, hi: int) {
    forall s :: lo < s && s <= hi ==> Occurrences(es, s) == 1
  }

  lemma EventsOnceIff(es: seq<Event>, lo: int, hi: int)
    ensures var t := TallyOf(es, lo, hi);
            EachOnce(es, lo, hi) <==>
              && t.duplicates == 0 && t.unnumbered == 0
              && |SeenInRange(t, lo, hi)| == hi - lo && SeenInRange(t, lo, hi) == RangeSet(lo, hi)
  {
    hide TallyOf, Occurrences, Unnumbered;
    DuplicatesIff(es, lo, hi);
    TallyConserves(es, lo, hi);
    if NoneTwice(es) {
      RangeSeenIff(es, lo, hi);
    }
  }

  lemma RangeSeenIff(es: seq<Event>, lo: int, hi: int)
    requires NoneTwice(es)
    ensures SeenInRange(TallyOf(es, lo, hi), lo, hi) == RangeSet(lo, hi) <==> OnceEach(es, lo, hi)
  {
    hide TallyOf, Occurrences;
    var seen, range := SeenInRange(TallyOf(es, lo, hi), lo, hi), RangeSet(lo, hi);
    forall s: int
      ensures s in seen <==> lo < s && s <= hi && Occurrences(es, s) == 1
      ensures s in range <==> lo < s && s <= hi
    {
      SeenIffOccurs(es, lo, hi, s);
    }
    if OnceEach(es, lo, hi) {
      assert forall s :: s in seen <==> s in range;
    } else {
      var s :| lo < s && s <= hi && Occurrences(es, s) != 1;
      assert s in range && s !in seen;
    }
  }

  // ---------- Reconciliation ----------

  /** The database's end of the chain; hashes are the decoded 32 bytes, absent when undecodable. */
  datatype Chain = Chain(
    collected: bool, pending: nat, lastSequence: int, lastHash: Option<string>,
    anchorSequence: Option<int>, anchorHash: Option<string>, anchorDeployment: Option<string>)

  /** The receiver's checkpoint. */
  datatype Checkpoint = Checkpoint(
    collected: bool, sequence: Option<int>, hash: Option<string>, deployment: Option<string>, accepted: Option<int>)

  datatype After = After(db: Chain, receiverCollected: bool, faultNone: bool, checkpoint: Checkpoint)

  datatype Check =
    | Collected | FaultNone | PendingZero | HeadAtAnchor | HeadHashAtAnchor | ReceiverAtAnchor
    | ReceiverHashAtAnchor | DeploymentMatch | Progress | AcceptedDelta
    | JournalCollected | JournalClean | JournalRange | TokensIssued

  predicate Advanced(pre: Checkpoint, post: Checkpoint) {
    pre.sequence.Some? && post.sequence.Some? && post.sequence.value > pre.sequence.value
  }

  predicate StoodStill(pre: Checkpoint, post: Checkpoint) {
    && pre.sequence.Some? && post.sequence == pre.sequence
    && pre.hash.Some? && pre.hash == post.hash
  }

  function Delta(pre: Checkpoint, post: Checkpoint): Option<int> {
    if pre.sequence.Some? && post.sequence.Some? then Some(post.sequence.value - pre.sequence.value) else None
  }

  /** The checks on the state after the load that did not hold. */
  method CheckEnds(post: After, deployment: string) returns (failed: seq<Check>)
    ensures failed == [] <==> EndsMeet(post, deployment)
  {
    var db, ckpt := post.db, post.checkpoint;
    failed := [];
    if !post.faultNone {
      failed := failed + [FaultNone];
    }
    if db.pending != 0 {
      failed := failed + [PendingZero];
    }
    if Some(db.lastSequence) != db.anchorSequence {
      failed := failed + [HeadAtAnchor];
    }
    if db.lastHash.None? || db.lastHash != db.anchorHash {
      failed := failed + [HeadHashAtAnchor];
    }
    if ckpt.sequence.None? || ckpt.sequence != db.anchorSequence {
      failed := failed + [ReceiverAtAnchor];
    }
    if ckpt.hash.None? || ckpt.hash != db.anchorHash {
      failed := failed + [ReceiverHashAtAnchor];
    }
    if ckpt.deployment != Some(deployment) || !(db.anchorDeployment.None? || db.anchorDeployment == Some(deployment)) {
      failed := failed + [DeploymentMatch];
    }
  }

  method CheckProgress(pre: Checkpoint, ckpt: Checkpoint, allowEmpty: bool) returns (failed: seq<Check>)
    ensures failed == [] <==> Progressed(pre, ckpt, allowEmpty)
  {
    failed := [];
    if !(Advanced(pre, ckpt) || (allowEmpty && StoodStill(pre, ckpt))) {
      failed := failed + [Progress];
    }
    if !(pre.accepted.Some? && ckpt.accepted.Some?
         && Delta(pre, ckpt) == Some(ckpt.accepted.value - pre.accepted.value))
    {
      failed := failed + [AcceptedDelta];
    }
  }

  method CheckJournal(delta: Option<int>, expected: Option<int>, journal: Option<Journal>) returns (failed: seq<Check>)
    ensures failed == [] <==>
      && journal.Some? && Clean(journal.value) && delta == Some(journal.value.inRange)
      && (expected.Some? ==> Counts.At(journal.value.byType, TOKEN_ISSUED) == expected.value)
  {
    failed := [];
    if journal.None? {
      failed := failed + [JournalCollected];
    } else {
      var j := journal.value;
      if !(j.malformed == 0 && j.foreign == 0 && j.duplicates == 0 && j.gaps == 0) {
        failed := failed + [JournalClean];
      }
      if !(j.contiguous && delta == Some(j.inRange)) {
        failed := failed + [JournalRange];
      }
    }
    if expected.Some? {
      if journal.None? || Counts.At(journal.value.byType, TOKEN_ISSUED) != expected.value {
        failed := failed + [TokensIssued];
      }
    }
  }

  /** The checks that did not hold; without collected state no other check is made. */
  method Reconcile(pre: Checkpoint, post: After, deployment: string, expected: Option<int>,
                   journal: Option<Journal>, allowEmpty: bool) returns (failed: seq<Check>)
    ensures !AllCollected(post) ==> failed == [Collected]
    ensures failed == [] <==>
      && AllCollected(post) && EndsMeet(post, deployment)
      && Progressed(pre, post.checkpoint, allowEmpty)
      && journal.Some? && Clean(journal.value)
      && Delta(pre, post.checkpoint) == Some(journal.value.inRange)
      && (expected.Some? ==> Counts.At(journal.value.byType, TOKEN_ISSUED) == expected.value)
  {
    if !AllCollected(post) {
      return [Collected];
    }
    var ends := CheckEnds(post, deployment);
    var progress := CheckProgress(pre, post.checkpoint, allowEmpty);
    var scanned := CheckJournal(Delta(pre, post.checkpoint), expected, journal);
    failed := ends + progress + scanned;
  }

  predicate Clean(j: Journal) {
    j.malformed == 0 && j.foreign == 0 && j.duplicates == 0 && j.gaps == 0 && j.contiguous
  }

  /** The receiver moved on, or stood still where that is allowed, and accepted as many events. */
  ghost predicate Progressed(pre: Checkpoint, ckpt: Checkpoint, allowEmpty: bool) {
    && pre.sequence.Some? && ckpt.sequence.Some? && pre.sequence.value <= ckpt.sequence.value
    && (pre.sequence == ckpt.sequence ==> allowEmpty && pre.hash.Some? && ckpt.hash == pre.hash)
    && pre.accepted.Some? && ckpt.accepted.Some?
    && ckpt.accepted.value - pre.accepted.value == ckpt.sequence.value - pre.sequence.value
  }

  predicate AllCollected(post: After) {
    post.db.collected && post.receiverCollected && post.checkpoint.collected
  }

  /** Database head, database anchor and receiver are at one point of this deployment's chain,
      with nothing pending and no fault. */
  ghost predicate EndsMeet(post: After, deployment: string) {
    var db, ckpt := post.db, post.checkpoint;
    && post.faultNone && db.pending == 0
    && ckpt.sequence == db.anchorSequence == Some(db.lastSequence)
    && ckpt.hash == db.anchorHash == db.lastHash && db.lastHash.Some?
    && ckpt.deployment == Some(deployment)
    && (db.anchorDeployment.None? || db.anchorDeployment == Some(deployment))
  }

  /** The load's whole audit trail was delivered: the receiver moved from `lo` to `hi` and every
      event of that stretch is in its journal once, and was accepted once. */
  ghost predicate Delivered(pre: Checkpoint, post: After, lines: seq<Line>, deployment: string, allowEmpty: bool) {
    && post.db.collected && post.receiverCollected && post.checkpoint.collected
    && post.faultNone && post.db.pending == 0
    && post.checkpoint.sequence == Some(post.db.lastSequence) && post.db.anchorSequence == Some(post.db.lastSequence)
    && post.db.lastHash.Some? && post.checkpoint.hash == post.db.lastHash && post.db.anchorHash == post.db.lastHash
    && post.checkpoint.deployment == Some(deployment) && post.db.anchorDeployment in {None, Some(deployment)}
    && pre.sequence.Some?
    && (post.checkpoint.sequence.value == pre.sequence.value ==>
          allowEmpty && pre.hash == post.checkpoint.hash)
    && WellKept(lines, deployment)
    && EachOnce(Events(lines, deployment), pre.sequence.value, post.checkpoint.sequence.value)
    && pre.accepted.Some? && post.checkpoint.accepted.Some?
    && post.checkpoint.accepted.value - pre.accepted.value == post.checkpoint.sequence.value - pre.sequence.value
  }

  /** One point's audit: scan the journal over the receiver's progress, then reconcile. It passes
      exactly when the whole trail was delivered and, where a number is expected, that many tokens
      were issued in it. An unreadable journal never passes. */
  method AuditPoint(pre: Checkpoint, post: After, lines: Option<seq<Line>>, deployment: string,
                    expected: Option<int>, allowEmpty: bool) returns (pass: bool, byType: map<string, int>)
    ensures pass <==>
      && lines.Some? && Unscannable !in lines.value
      && Delivered(pre, post, lines.value, deployment, allowEmpty)
      && (expected.Some? ==>
            OfType(Events(lines.value, deployment), pre.sequence.value, post.checkpoint.sequence.value, "token_issued")
            == expected.value)
    ensures pass ==>
      && Counts.Total(byType) == post.checkpoint.sequence.value - pre.sequence.value
      && forall kind :: Counts.At(byType, kind)
           == OfType(Events(lines.value, deployment), pre.sequence.value, post.checkpoint.sequence.value, kind)
  {
    hide OfType, IssuedIn, WellKept, EachOnce, Events, ReportOf, ScanOf;
    var journal: Option<Journal> := None;
    byType := map[];
    if pre.sequence.Some? && post.checkpoint.sequence.Some? && lines.Some? {
      var lo, hi := pre.sequence.value, post.checkpoint.sequence.value;
      var scanned := JournalScan(lines.value, deployment, lo, hi);
      if scanned.Ok? {
        journal := Some(scanned.value);
        byType := scanned.value.byType;
        CleanReportIff(lines.value, deployment, lo, hi);
      }
    }
    var failed := Reconcile(pre, post, deployment, expected, journal, allowEmpty);
    pass := failed == [];
  }

  /** A clean, contiguous report is one on a well-kept journal that holds the range once over;
      its counts per type are then exact and add up to the range. */
  lemma CleanReportIff(lines: seq<Line>, deployment: string, lo: int, hi: int)
    ensures var j := ReportOf(ScanOf(lines, deployment, lo, hi), lo, hi);
            && (Clean(j) <==>
                  WellKept(lines, deployment) && EachOnce(Events(lines, deployment), lo, hi))
            && (j.contiguous ==> j.inRange == hi - lo && Counts.Total(j.byType) == hi - lo)
            && (j.duplicates == 0 ==> forall kind :: Counts.At(j.byType, kind) == OfType(Events(lines, deployment), lo, hi, kind))
            && (j.duplicates == 0 ==> forall sec :: Counts.At(j.perSecond, sec) == IssuedIn(Events(lines, deployment), lo, hi, sec))
            && j.batches == OwnBatches(lines, deployment)
  {
    hide OfType, IssuedIn, WellKept, EachOnce, Events, ScanOf, TallyOf, RangeSet, OwnBatches;
    var es := Events(lines, deployment);
    ScanTallies(lines, deployment, lo, hi);
    CleanIffWellKept(lines, deployment, lo, hi);
    EventsOnceIff(es, lo, hi);
    TallyConserves(es, lo, hi);
    if TallyOf(es, lo, hi).duplicates == 0 {
      forall kind
        ensures Counts.At(TallyOf(es, lo, hi).byType, kind) == OfType(es, lo, hi, kind)
      {
        TypeCountsExact(es, lo, hi, kind);
      }
      forall second
        ensures Counts.At(TallyOf(es, lo, hi).perSecond, second) == IssuedIn(es, lo, hi, second)
      {
        SecondCountsExact(es, lo, hi, second);
      }
    }
  }
}
