/** The capacity bracket kept by the rate search (perf/tools/current_capacity.py, bounds,
    combined_verdict and the bisection of search). */
module CapacityBounds {
  import opened Common

  datatype Verdict = Pass | Fail | Inconclusive(reason: string)

  datatype Record = Record(rate: int, verdict: Verdict, window: real)

  predicate Final(v: Verdict) {
    v.Pass? || v.Fail?
  }

  /** A final verdict outranks any other; among equals the longer window counts. */
  predicate Below(a: Record, b: Record) {
    if Final(a.verdict) == Final(b.verdict) then a.window < b.window else Final(b.verdict)
  }

  /** The one record settles its rate and the other does not; or both or neither do, and the one
      measured for longer. */
  predicate Outranks(a: Record, b: Record) {
    || (a.verdict in {Pass, Fail} && b.verdict !in {Pass, Fail})
    || ((a.verdict in {Pass, Fail} <==> b.verdict in {Pass, Fail}) && a.window > b.window)
  }

  lemma OutranksIff(a: Record, b: Record)
    ensures Outranks(a, b) <==> Below(b, a)
  {
  }

  /** The record that speaks for its rate: none at the rate outranks it, and of equals it is the
      last. */
  predicate ChosenAt(h: seq<Record>, i: nat)
    requires i < |h|
  {
    && (forall j :: 0 <= j < i && h[j].rate == h[i].rate ==> !Outranks(h[j], h[i]))
    && (forall j :: i < j < |h| && h[j].rate == h[i].rate ==> Outranks(h[i], h[j]))
  }

  ghost predicate VerdictAt(h: seq<Record>, rate: int, v: Verdict) {
    exists i :: 0 <= i < |h| && h[i].rate == rate && h[i].verdict == v && ChosenAt(h, i)
  }

  ghost predicate IsLower(h: seq<Record>, lower: int) {
    if exists rate :: VerdictAt(h, rate, Pass) then
      VerdictAt(h, lower, Pass) && forall rate :: VerdictAt(h, rate, Pass) ==> rate <= lower
    else
      lower == 0
  }

  ghost predicate IsUpper(h: seq<Record>, lower: int, upper: Option<int>) {
    match upper
    case Some(u) => VerdictAt(h, u, Fail) && u > lower && forall rate :: VerdictAt(h, rate, Fail) && rate > lower ==> u <= rate
    case None => forall rate :: VerdictAt(h, rate, Fail) ==> rate <= lower
  }

  /** The highest passing rate and the lowest failing rate above it. */
  ghost predicate Brackets(h: seq<Record>, lower: int, upper: Option<int>) {
    IsLower(h, lower) && IsUpper(h, lower, upper)
  }

  // ---------- Computing the bracket ----------

  /** The dictionary built so far holds the record that speaks for each rate. */
  ghost predicate Holds(chosen: map<int, Record>, h: seq<Record>) {
    && (forall i :: 0 <= i < |h| ==> h[i].rate in chosen)
    && (forall rate :: rate in chosen ==>
          exists i :: 0 <= i < |h| && h[i].rate == rate && h[i] == chosen[rate] && ChosenAt(h, i))
  }

  lemma OneChosen(h: seq<Record>, i: nat, j: nat)
    requires i < |h| && j < |h| && h[i].rate == h[j].rate && ChosenAt(h, i) && ChosenAt(h, j)
    ensures i == j
  {
  }

  lemma OutranksTransitive(a: Record, b: Record, c: Record)
    requires !Outranks(a, b) && !Outranks(b, c)
    ensures !Outranks(a, c)
  {
  }

  /** Another record leaves the speakers of other rates alone. */
  lemma ChosenElsewhere(h: seq<Record>, r: Record, i: nat)
    requires i < |h|
    ensures h[i].rate != r.rate ==> (ChosenAt(h + [r], i) <==> ChosenAt(h, i))
    ensures h[i].rate == r.rate ==> (ChosenAt(h + [r], i) <==> ChosenAt(h, i) && Outranks(h[i], r))
  {
    var after := h + [r];
    assert forall j :: 0 <= j < |h| ==> after[j] == h[j];
    assert after[|h|] == r;
    if ChosenAt(h, i) && (h[i].rate != r.rate || Outranks(h[i], r)) {
      assert ChosenAt(after, i);
    }
    if ChosenAt(after, i) {
      forall j | i < j < |h| && h[j].rate == h[i].rate
        ensures Outranks(h[i], h[j])
      {
        assert after[j] == h[j];
      }
      forall j | 0 <= j < i && h[j].rate == h[i].rate
        ensures !Outranks(h[j], h[i])
      {
        assert after[j] == h[j];
      }
    }
  }

  lemma HoldsStep(chosen: map<int, Record>, h: seq<Record>, r: Record)
    requires Holds(chosen, h)
    ensures Holds(if r.rate in chosen && Outranks(chosen[r.rate], r) then chosen else chosen[r.rate := r], h + [r])
  {
    var after := h + [r];
    var n := |h|;
    var kept := r.rate in chosen && Outranks(chosen[r.rate], r);
    var chosen' := if kept then chosen else chosen[r.rate := r];
    assert forall j :: 0 <= j < n ==> after[j] == h[j];
    assert after[n] == r;
    forall rate | rate in chosen'
      ensures exists i :: 0 <= i < |after| && after[i].rate == rate && after[i] == chosen'[rate] && ChosenAt(after, i)
    {
      if rate != r.rate || kept {
        var i :| 0 <= i < n && h[i].rate == rate && h[i] == chosen[rate] && ChosenAt(h, i);
        ChosenElsewhere(h, r, i);
        assert after[i] == chosen'[rate];
      } else {
        NewestChosen(chosen, h, r);
      }
    }
  }

  lemma NewestChosen(chosen: map<int, Record>, h: seq<Record>, r: Record)
    requires Holds(chosen, h) && (r.rate in chosen ==> !Outranks(chosen[r.rate], r))
    ensures ChosenAt(h + [r], |h|)
  {
    var after := h + [r];
    forall j | 0 <= j < |h| && after[j].rate == after[|h|].rate
      ensures !Outranks(after[j], after[|h|])
    {
      assert after[j] == h[j];
      var i :| 0 <= i < |h| && h[i].rate == r.rate && h[i] == chosen[r.rate] && ChosenAt(h, i);
      if j != i {
        SpeakerOutranks(h, i, j);
      }
      OutranksTransitive(h[j], h[i], r);
    }
  }

  lemma SpeakerOutranks(h: seq<Record>, i: nat, j: nat)
    requires i < |h| && j < |h| && i != j && h[i].rate == h[j].rate && ChosenAt(h, i)
    ensures !Outranks(h[j], h[i])
  {
    if j > i {
      assert Outranks(h[i], h[j]);
    }
  }

  lemma HoldsVerdict(chosen: map<int, Record>, h: seq<Record>, rate: int, v: Verdict)
    requires Holds(chosen, h)
    ensures VerdictAt(h, rate, v) <==> rate in chosen && chosen[rate].verdict == v
  {
    if rate in chosen {
      var i :| 0 <= i < |h| && h[i].rate == rate && h[i] == chosen[rate] && ChosenAt(h, i);
      if VerdictAt(h, rate, v) {
        var j :| 0 <= j < |h| && h[j].rate == rate && h[j].verdict == v && ChosenAt(h, j);
        OneChosen(h, i, j);
      }
    }
  }

  method Choose(h: seq<Record>) returns (chosen: map<int, Record>)
    ensures Holds(chosen, h)
  {
    chosen := map[];
    for n := 0 to |h|
      invariant Holds(chosen, h[..n])
    {
      var r := h[n];
      HoldsStep(chosen, h[..n], r);
      assert h[..n] + [r] == h[..n + 1];
      if r.rate in chosen {
        OutranksIff(chosen[r.rate], r);
      }
      if r.rate !in chosen || !Below(r, chosen[r.rate]) {
        chosen := chosen[r.rate := r];
      }
    }
    assert h[..|h|] == h;
  }

  /** The highest rate with a passing record, 0 if there is none. */
  method HighestPass(chosen: map<int, Record>) returns (found: bool, lower: int)
    ensures found <==> exists rate :: rate in chosen && chosen[rate].verdict.Pass?
    ensures found ==> lower in chosen && chosen[lower].verdict.Pass?
    ensures found ==> forall rate :: rate in chosen && chosen[rate].verdict.Pass? ==> rate <= lower
    ensures !found ==> lower == 0
  {
    found, lower := false, 0;
    var todo := chosen.Keys;
    while todo != {}
      invariant todo <= chosen.Keys
      invariant found ==> lower in chosen && chosen[lower].verdict.Pass?
      invariant forall rate :: rate in chosen && rate !in todo && chosen[rate].verdict.Pass? ==> found && rate <= lower
      invariant !found ==> lower == 0
      decreases |todo|
    {
      ghost var member := SomeMember(todo);
      var rate :| rate in todo;
      todo := todo - {rate};
      if chosen[rate].verdict.Pass? && (!found || rate > lower) {
        found, lower := true, rate;
      }
    }
  }

  method LowestFail(chosen: map<int, Record>, lower: int) returns (upper: Option<int>)
    ensures upper.None? ==> forall rate :: rate in chosen && chosen[rate].verdict.Fail? ==> rate <= lower
    ensures upper.Some? ==>
      && upper.value in chosen && chosen[upper.value].verdict.Fail? && upper.value > lower
      && forall rate :: rate in chosen && chosen[rate].verdict.Fail? && rate > lower ==> upper.value <= rate
  {
    upper := None;
    var todo := chosen.Keys;
    while todo != {}
      invariant todo <= chosen.Keys
      invariant upper.Some? ==> upper.value in chosen && chosen[upper.value].verdict.Fail? && upper.value > lower
      invariant forall rate :: rate in chosen && rate !in todo && chosen[rate].verdict.Fail? && rate > lower ==>
          upper.Some? && upper.value <= rate
      decreases |todo|
    {
      ghost var member := SomeMember(todo);
      var rate :| rate in todo;
      todo := todo - {rate};
      if chosen[rate].verdict.Fail? && rate > lower && (upper.None? || rate < upper.value) {
        upper := Some(rate);
      }
    }
  }

  method Bounds(h: seq<Record>) returns (lower: int, upper: Option<int>)
    ensures Brackets(h, lower, upper)
    ensures upper.Some? ==> lower < upper.value
  {
    var chosen := Choose(h);
    forall rate: int, v: Verdict
      ensures VerdictAt(h, rate, v) <==> rate in chosen && chosen[rate].verdict == v
    {
      HoldsVerdict(chosen, h, rate, v);
    }
    hide VerdictAt, Holds;
    var found;
    found, lower := HighestPass(chosen);
    upper := LowestFail(chosen, lower);
    if found {
      assert VerdictAt(h, lower, Pass);
    }
    if rate :| VerdictAt(h, rate, Pass) {
      assert chosen[rate].verdict.Pass?;
    }
  }

  lemma BracketUnique(h: seq<Record>, l: int, u: Option<int>, l': int, u': Option<int>)
    requires Brackets(h, l, u) && Brackets(h, l', u')
    ensures l == l' && u == u'
  {
    hide VerdictAt;
    assert l == l';
    if u.Some? && u'.Some? {
      assert u.value <= u'.value && u'.value <= u.value;
    }
  }

  // ---------- Bisection ----------

  lemma {:induction false} Chosen(h: seq<Record>) returns (chosen: map<int, Record>)
    ensures Holds(chosen, h)
    decreases |h|
  {
    if h == [] {
      chosen := map[];
    } else {
      var n := |h| - 1;
      chosen := Chosen(h[..n]);
      HoldsStep(chosen, h[..n], h[n]);
      assert h[..n] + [h[n]] == h;
      chosen := if h[n].rate in chosen && Outranks(chosen[h[n].rate], h[n]) then chosen else chosen[h[n].rate := h[n]];
    }
  }

  /** A rate that ever had a final verdict still has one. */
  lemma FinalStays(h: seq<Record>, j: nat)
    requires j < |h| && Final(h[j].verdict)
    ensures VerdictAt(h, h[j].rate, Pass) || VerdictAt(h, h[j].rate, Fail)
  {
    var chosen := Chosen(h);
    var i :| 0 <= i < |h| && h[i].rate == h[j].rate && h[i] == chosen[h[j].rate] && ChosenAt(h, i);
    if i != j {
      SpeakerOutranks(h, i, j);
    }
    assert VerdictAt(h, h[j].rate, h[i].verdict);
  }

  /** Inside the bracket no rate has a final verdict. */
  lemma NothingFinalInside(h: seq<Record>, lower: int, upper: int, j: nat)
    requires Brackets(h, lower, Some(upper)) && j < |h| && lower < h[j].rate < upper
    ensures !Final(h[j].verdict)
  {
    if Final(h[j].verdict) {
      FinalStays(h, j);
    }
  }

  /** A final verdict at a rate inside the bracket speaks for it, however short its window. */
  lemma InsideSpeaks(h: seq<Record>, lower: int, upper: int, r: Record)
    requires Brackets(h, lower, Some(upper)) && lower < r.rate < upper && Final(r.verdict)
    ensures VerdictAt(h + [r], r.rate, r.verdict)
    ensures forall v :: Final(v) && VerdictAt(h + [r], r.rate, v) ==> v == r.verdict
    ensures forall rate, v :: rate != r.rate ==> (VerdictAt(h + [r], rate, v) <==> VerdictAt(h, rate, v))
  {
    var after, n := h + [r], |h|;
    forall j | 0 <= j < n && after[j].rate == r.rate
      ensures !Outranks(after[j], r)
    {
      assert after[j] == h[j];
      NothingFinalInside(h, lower, upper, j);
    }
    assert after[n] == r;
    assert ChosenAt(after, n);
    forall v | Final(v) && VerdictAt(after, r.rate, v)
      ensures v == r.verdict
    {
      var i :| 0 <= i < |after| && after[i].rate == r.rate && after[i].verdict == v && ChosenAt(after, i);
      OneChosen(after, i, n);
    }
    forall rate, v | rate != r.rate
      ensures VerdictAt(after, rate, v) <==> VerdictAt(h, rate, v)
    {
      VerdictElsewhere(h, r, rate, v);
    }
  }

  lemma VerdictElsewhere(h: seq<Record>, r: Record, rate: int, v: Verdict)
    requires rate != r.rate
    ensures VerdictAt(h + [r], rate, v) <==> VerdictAt(h, rate, v)
  {
    var after := h + [r];
    if VerdictAt(h, rate, v) {
      var i :| 0 <= i < |h| && h[i].rate == rate && h[i].verdict == v && ChosenAt(h, i);
      ChosenElsewhere(h, r, i);
      assert after[i] == h[i];
    }
    if VerdictAt(after, rate, v) {
      var i :| 0 <= i < |after| && after[i].rate == rate && after[i].verdict == v && ChosenAt(after, i);
      assert after[|h|] == r;
      assert after[i] == h[i];
      ChosenElsewhere(h, r, i);
    }
  }

  /** Recording a pass inside the bracket moves its lower end there, recording a failure its upper
      end; the other end stays. */
  lemma InsideVerdictMovesBracket(h: seq<Record>, lower: int, upper: int, r: Record)
    requires Brackets(h, lower, Some(upper)) && lower < r.rate < upper && Final(r.verdict)
    ensures r.verdict.Pass? ==> Brackets(h + [r], r.rate, Some(upper))
    ensures r.verdict.Fail? ==> Brackets(h + [r], lower, Some(r.rate))
  {
    hide VerdictAt;
    InsideSpeaks(h, lower, upper, r);
    var after := h + [r];
    if r.verdict.Pass? {
      assert IsLower(after, r.rate);
      assert IsUpper(after, r.rate, Some(upper));
    } else {
      assert !VerdictAt(after, r.rate, Pass);
      PassesElsewhere(h, after, r.rate, lower);
      assert IsUpper(after, lower, Some(r.rate));
    }
  }

  lemma PassesElsewhere(h: seq<Record>, after: seq<Record>, at: int, lower: int)
    requires IsLower(h, lower) && lower < at
    requires !VerdictAt(after, at, Pass)
    requires forall rate, v :: rate != at ==> (VerdictAt(after, rate, v) <==> VerdictAt(h, rate, v))
    ensures IsLower(after, lower)
  {
    hide VerdictAt;
    assert forall rate :: VerdictAt(h, rate, Pass) ==> rate != at;
    assert forall rate :: VerdictAt(after, rate, Pass) <==> VerdictAt(h, rate, Pass);
  }

  function Middle(lower: int, upper: int): int {
    (lower + upper) / 2
  }

  /** The bisection rate is strictly inside exactly when the ends are two or more apart. */
  lemma MiddleInsideIff(lower: int, upper: int)
    requires lower < upper
    ensures lower < Middle(lower, upper) < upper <==> upper - lower >= 2
    ensures upper - lower == 1 ==> Middle(lower, upper) == lower
  {
  }

  /** One bisection with a final verdict leaves at most half of the bracket, rounded up. */
  lemma BisectionHalves(h: seq<Record>, lower: int, upper: int, r: Record, lower': int, upper': Option<int>)
    requires Brackets(h, lower, Some(upper)) && upper - lower >= 2
    requires r.rate == Middle(lower, upper) && Final(r.verdict)
    requires Brackets(h + [r], lower', upper')
    ensures upper'.Some? && lower <= lower' < upper'.value <= upper
    ensures 2 * (upper'.value - lower') <= upper - lower + 1 && upper'.value - lower' < upper - lower
  {
    hide Brackets;
    MiddleInsideIff(lower, upper);
    InsideVerdictMovesBracket(h, lower, upper, r);
    if r.verdict.Pass? {
      BracketUnique(h + [r], lower', upper', r.rate, Some(upper));
    } else {
      BracketUnique(h + [r], lower', upper', lower, Some(r.rate));
    }
  }

  /** With the ends one apart the search repeats the lower rate, and a failure there takes its pass
      back: the bracket opens again. */
  lemma AdjacentEndsReopen()
    ensures var h := [Record(1, Pass, 60.0), Record(2, Fail, 60.0)];
            && Brackets(h, 1, Some(2)) && Middle(1, 2) == 1
            && Brackets(h + [Record(1, Fail, 60.0)], 0, Some(1))
  {
    var h := [Record(1, Pass, 60.0), Record(2, Fail, 60.0)];
    assert ChosenAt(h, 0) && ChosenAt(h, 1);
    assert VerdictAt(h, 1, Pass) && VerdictAt(h, 2, Fail);
    FailureReopens(h, Record(1, Fail, 60.0));
  }

  lemma FailureReopens(h: seq<Record>, r: Record)
    requires h == [Record(1, Pass, 60.0), Record(2, Fail, 60.0)] && r == Record(1, Fail, 60.0)
    ensures Brackets(h + [r], 0, Some(1))
  {
    var after := h + [r];
    assert after[0] == h[0] && after[1] == h[1] && after[2] == r;
    ChosenElsewhere(h, r, 0);
    assert ChosenAt(after, 2);
    assert VerdictAt(after, 1, Fail);
    assert forall rate :: !VerdictAt(after, rate, Pass);
  }

  /** The verdicts agree with a service that sustains exactly the rates up to `capacity`. */
  ghost predicate ConsistentWith(h: seq<Record>, capacity: int) {
    forall i :: 0 <= i < |h| && Final(h[i].verdict) ==> (h[i].verdict.Pass? <==> h[i].rate <= capacity)
  }

  /** The bracket never loses the capacity of such a service, whatever was tried and in which order. */
  lemma BracketHoldsCapacity(h: seq<Record>, capacity: int, lower: int, upper: Option<int>)
    requires ConsistentWith(h, capacity) && capacity >= 0 && Brackets(h, lower, upper)
    ensures lower <= capacity && (upper.Some? ==> capacity < upper.value)
  {
    if VerdictAt(h, lower, Pass) {
      var i :| 0 <= i < |h| && h[i].rate == lower && h[i].verdict == Pass;
    }
    if upper.Some? {
      var i :| 0 <= i < |h| && h[i].rate == upper.value && h[i].verdict == Fail;
    }
  }

  // ---------- The search loop ----------

  /** The next rate to try; none when the bracket is tight, the last point was inconclusive or
      halving no longer changes the rate. */
  function NextRate(h: seq<Record>, lower: int, upper: Option<int>, first: int): (rate: Option<int>)
    ensures rate.Some? && h != [] ==> Final(h[|h| - 1].verdict)
  {
    if lower != 0 && upper.Some? && upper.value != 0 && Tight(lower, upper.value) then None
    else if h != [] && !Final(h[|h| - 1].verdict) then None
    else if lower != 0 && upper.Some? && upper.value != 0 then Some(Middle(lower, upper.value))
    else if lower != 0 then Some(lower * 2)
    else if h != [] then
      var half := Max(1, h[|h| - 1].rate / 2);
      if half == h[|h| - 1].rate then None else Some(half)
    else Some(first)
  }

  /** With the ends one apart, a search that has not just failed to conclude stops from a lower end of
      four on, and repeats a lower end below that. */
  lemma AdjacentEndsRepeatIff(h: seq<Record>, lower: int, first: int)
    requires lower > 0 && (h != [] ==> Final(h[|h| - 1].verdict))
    ensures NextRate(h, lower, Some(lower + 1), first) == if lower <= 3 then Some(lower) else None
  {
  }

  /** upper / lower <= 1.25 */
  predicate Tight(lower: int, upper: int)
    requires lower != 0
  {
    if lower > 0 then 4 * upper <= 5 * lower else 4 * upper >= 5 * lower
  }

  /** Up to `extra` further points; `answers` are the verdicts the points will give, and run out when
      the time does. Every point is at the rate called for by the bracket of the points before it, and
      none follows an inconclusive one. */
  method Search(h0: seq<Record>, first: int, answers: seq<Verdict>, extra: nat) returns (h: seq<Record>)
    ensures h0 <= h && |h| - |h0| <= extra && |h| - |h0| <= |answers|
    ensures forall i :: |h0| <= i < |h| ==> h[i].window == 60.0 && h[i].verdict == answers[i - |h0|]
    ensures forall i :: 0 <= i && |h0| <= i + 1 < |h| ==> Final(h[i].verdict)
    ensures forall i :: |h0| <= i < |h| ==> FollowsBracket(h[..i], first, h[i].rate)
    ensures |h| - |h0| == extra || |h| - |h0| == |answers| || NothingLeftToTry(h, first)
  {
    hide Brackets, NextRate, FollowsBracket, NothingLeftToTry;
    h := h0;
    var n := 0;
    while n < extra && n < |answers|
      invariant 0 <= n <= extra && n <= |answers| && |h| == |h0| + n && h0 <= h
      invariant forall i :: |h0| <= i < |h| ==> h[i].window == 60.0 && h[i].verdict == answers[i - |h0|]
      invariant forall i :: 0 <= i && |h0| <= i + 1 < |h| ==> Final(h[i].verdict)
      invariant forall i :: |h0| <= i < |h| ==> FollowsBracket(h[..i], first, h[i].rate)
    {
      var lower, upper := Bounds(h);
      var rate := NextRate(h, lower, upper, first);
      if rate.None? {
        Exhausted(h, first, lower, upper);
        return;
      }
      ghost var before := h;
      Follows(before, first, lower, upper, rate.value);
      h := h + [Record(rate.value, answers[n], 60.0)];
      assert forall i :: |h0| <= i < |before| ==> h[..i] == before[..i];
      assert h[..|before|] == before;
      n := n + 1;
    }
  }

  ghost predicate Conclusive(h: seq<Record>) {
    h == [] || h[|h| - 1].verdict in {Pass, Fail}
  }

  function Over(upper: int, lower: int): real
    requires lower != 0
  {
    upper as real / lower as real
  }

  /** What the bracket calls for next: its middle while the upper end is more than a quarter above the
      lower one; twice the lower end where no failure lies above it; half the last rate where nothing
      passed; the first rate at the outset. */
  ghost predicate CallsFor(h: seq<Record>, lower: int, upper: Option<int>, first: int, rate: int) {
    if lower != 0 && upper.Some? && upper.value != 0 then
      Over(upper.value, lower) > 1.25 && 2 * rate <= lower + upper.value < 2 * rate + 2
    else if lower != 0 then rate == lower + lower
    else if h != [] then
      var last := h[|h| - 1].rate;
      rate != last && if last < 2 then rate == 1 else 2 * rate <= last < 2 * rate + 2
    else rate == first
  }

  /** The rate is the one called for by the bracket of what was known before. */
  ghost predicate FollowsBracket(h: seq<Record>, first: int, rate: int) {
    Conclusive(h) && exists lower, upper :: Brackets(h, lower, upper) && CallsFor(h, lower, upper, first, rate)
  }

  /** The last point was inconclusive, or the bracket calls for no rate. */
  ghost predicate NothingLeftToTry(h: seq<Record>, first: int) {
    Conclusive(h) ==> forall rate :: !FollowsBracket(h, first, rate)
  }

  lemma NextRateIff(h: seq<Record>, lower: int, upper: Option<int>, first: int, rate: int)
    ensures NextRate(h, lower, upper, first) == Some(rate)
       <==> Conclusive(h) && CallsFor(h, lower, upper, first, rate)
  {
    if lower != 0 && upper.Some? && upper.value != 0 {
      TightIff(lower, upper.value);
    }
  }

  lemma TightIff(lower: int, upper: int)
    requires lower != 0
    ensures Tight(lower, upper) <==> Over(upper, lower) <= 1.25
  {
    hide Over, Product;
    var l, q := lower as real, Over(upper, lower);
    OverBack(upper, lower);
    ProductOfLimit(l);
    ProductNegated(q, l);
    ProductNegated(1.25, l);
    ProductOrdered(q, 1.25, if lower > 0 then l else -l);
  }

  lemma OverBack(upper: int, lower: int)
    requires lower != 0
    ensures Product(Over(upper, lower), lower as real) == upper as real
  {
  }

  function Product(a: real, b: real): real {
    a * b
  }

  lemma ProductOrdered(a: real, b: real, d: real)
    requires d > 0.0
    ensures a <= b <==> Product(a, d) <= Product(b, d)
  {
  }

  lemma ProductNegated(a: real, d: real)
    ensures Product(a, -d) == -Product(a, d)
  {
  }

  lemma ProductOfLimit(d: real)
    ensures Product(1.25, d) == 1.25 * d
  {
  }

  lemma Follows(h: seq<Record>, first: int, lower: int, upper: Option<int>, rate: int)
    requires Brackets(h, lower, upper) && NextRate(h, lower, upper, first) == Some(rate)
    ensures FollowsBracket(h, first, rate)
  {
    hide Brackets, NextRate, CallsFor;
    NextRateIff(h, lower, upper, first, rate);
  }

  lemma Exhausted(h: seq<Record>, first: int, lower: int, upper: Option<int>)
    requires Brackets(h, lower, upper) && NextRate(h, lower, upper, first) == None
    ensures NothingLeftToTry(h, first)
  {
    hide Brackets, NextRate, CallsFor;
    forall rate, l, u | Brackets(h, l, u)
      ensures !(Conclusive(h) && CallsFor(h, l, u, first, rate))
    {
      BracketUnique(h, l, u, lower, upper);
      NextRateIff(h, lower, upper, first, rate);
    }
  }

  /** A conclusive point of the search between two positive ends at least two apart halves the
      bracket. */
  lemma SearchHalves(h: seq<Record>, first: int, lower: int, upper: int, r: Record, lower': int, upper': Option<int>)
    requires Brackets(h, lower, Some(upper)) && lower > 0 && upper - lower >= 2
    requires FollowsBracket(h, first, r.rate) && Final(r.verdict) && Brackets(h + [r], lower', upper')
    ensures Over(upper, lower) > 1.25
    ensures upper'.Some? && lower <= lower' < upper'.value <= upper
    ensures 2 * (upper'.value - lower') <= upper - lower + 1
  {
    hide Brackets;
    var l, u :| Brackets(h, l, u) && CallsFor(h, l, u, first, r.rate);
    BracketUnique(h, l, u, lower, Some(upper));
    BisectionHalves(h, lower, upper, r, lower', upper');
  }

  // ---------- Confirmation over three minutes ----------

  const CONFIRMATION: real := 180.0

  /** The rate passed over a window of at least three minutes. */
  predicate PassedLong(h: seq<Record>, rate: int) {
    exists i :: 0 <= i < |h| && h[i].rate == rate && h[i].verdict.Pass? && h[i].window >= 180.0
  }

  /** Some pass at the rate was measured for 180 seconds or more. */
  ghost predicate Established(h: seq<Record>, rate: int) {
    exists r :: r in h && r.rate == rate && r.verdict == Pass && r.window >= 180.0
  }

  lemma EstablishedIff(h: seq<Record>, rate: int)
    ensures PassedLong(h, rate) <==> Established(h, rate)
  {
    if Established(h, rate) {
      var r :| r in h && r.rate == rate && r.verdict == Pass && r.window >= 180.0;
      var i :| 0 <= i < |h| && h[i] == r;
    }
    if PassedLong(h, rate) {
      var i :| 0 <= i < |h| && h[i].rate == rate && h[i].verdict.Pass? && h[i].window >= 180.0;
      assert h[i] in h;
    }
  }

  /** There is nothing to confirm, or the lower end passed over three minutes. */
  ghost predicate Confirmed(h: seq<Record>) {
    forall lower, upper :: Brackets(h, lower, upper) ==> lower == 0 || Established(h, lower)
  }

  /** A three-minute verdict at a lower end that only ever passed shorter windows speaks for it. */
  lemma LongVerdictSpeaks(h: seq<Record>, lower: int, upper: Option<int>, r: Record)
    requires Brackets(h, lower, upper) && lower != 0 && !Established(h, lower)
    requires r.rate == lower && Final(r.verdict) && r.window >= CONFIRMATION
    ensures VerdictAt(h + [r], lower, r.verdict)
    ensures forall v :: VerdictAt(h + [r], lower, v) ==> v == r.verdict
    ensures forall rate, v :: rate != lower ==> (VerdictAt(h + [r], rate, v) <==> VerdictAt(h, rate, v))
  {
    var after, n := h + [r], |h|;
    var chosen := Chosen(h);
    assert VerdictAt(h, lower, Pass);
    HoldsVerdict(chosen, h, lower, Pass);
    var i :| 0 <= i < |h| && h[i].rate == lower && h[i] == chosen[lower] && ChosenAt(h, i);
    assert !Outranks(chosen[lower], r);
    NewestChosen(chosen, h, r);
    assert after[n] == r;
    forall v | VerdictAt(after, lower, v)
      ensures v == r.verdict
    {
      var j :| 0 <= j < |after| && after[j].rate == lower && after[j].verdict == v && ChosenAt(after, j);
      OneChosen(after, j, n);
    }
    forall rate, v | rate != lower
      ensures VerdictAt(after, rate, v) <==> VerdictAt(h, rate, v)
    {
      VerdictElsewhere(h, r, rate, v);
    }
  }

  /** A failed confirmation always takes the bracket down: the new lower end is below the old one,
      and the new upper end at most there. */
  lemma FailedConfirmationLowers(h: seq<Record>, lower: int, upper: Option<int>, r: Record, lower': int, upper': Option<int>)
    requires Brackets(h, lower, upper) && lower > 0 && !Established(h, lower)
    requires r.rate == lower && r.verdict.Fail? && r.window >= CONFIRMATION
    requires Brackets(h + [r], lower', upper')
    ensures lower' < lower && upper'.Some? && upper'.value <= lower
  {
    hide VerdictAt;
    LongVerdictSpeaks(h, lower, upper, r);
    assert !VerdictAt(h + [r], lower, Pass);
    if VerdictAt(h + [r], lower', Pass) {
      assert VerdictAt(h, lower', Pass);
    }
  }

  /** A passed confirmation leaves the lower end where it is, now confirmed. */
  lemma PassedConfirmationStays(h: seq<Record>, lower: int, upper: Option<int>, r: Record)
    requires Brackets(h, lower, upper) && lower != 0 && !Established(h, lower)
    requires r.rate == lower && r.verdict.Pass? && r.window >= CONFIRMATION
    ensures Confirmed(h + [r]) && IsLower(h + [r], lower)
  {
    hide VerdictAt;
    LongVerdictSpeaks(h, lower, upper, r);
    var after := h + [r];
    assert VerdictAt(after, lower, Pass);
    assert IsLower(after, lower);
    assert after[|h|] == r;
    assert Established(after, lower);
    forall l, u | Brackets(after, l, u)
      ensures l == 0 || Established(after, l)
    {
      assert l == lower;
    }
  }

  /** Up to three attempts to confirm the lower end; after a failure that leaves none, one point at
      three quarters of the upper end. Fewer than three failures mean that the lower end is
      confirmed, the last point was inconclusive, or time ran out. */
  method Confirm(h0: seq<Record>, answers: seq<Verdict>) returns (h: seq<Record>, failures: nat)
    ensures h0 <= h && |h| - |h0| <= |answers| && failures <= 3
    ensures forall i :: |h0| <= i < |h| ==> h[i].window == CONFIRMATION && h[i].verdict == answers[i - |h0|]
    ensures forall i :: |h0| <= i < |h| ==> CallsForConfirmation(h[..i], h[i].rate)
    ensures failures < 3 ==>
      Confirmed(h) || |h| - |h0| == |answers| || (h != [] && !Final(h[|h| - 1].verdict))
  {
    hide Brackets, Confirmed, CallsForConfirmation, PassedLong, Established;
    h, failures := h0, 0;
    while failures < 3
      invariant h0 <= h && |h| - |h0| <= |answers| && failures <= 3
      invariant forall i :: |h0| <= i < |h| ==> CallsForConfirmation(h[..i], h[i].rate)
      invariant forall i :: |h0| <= i < |h| ==> h[i].window == CONFIRMATION && h[i].verdict == answers[i - |h0|]
      decreases 3 - failures
    {
      var lower, upper := Bounds(h);
      EstablishedIff(h, lower);
      if lower == 0 || PassedLong(h, lower) {
        SettledIsConfirmed(h, lower, upper);
        return;
      }
      if |h| - |h0| == |answers| {
        return;
      }
      var r := Record(lower, answers[|h| - |h0|], CONFIRMATION);
      if r.verdict.Pass? {
        PassedConfirmationStays(h, lower, upper, r);
      }
      CalledFor(h, lower, upper, r.rate);
      RatesSoFar(|h0|, h, r);
      h := h + [r];
      if !r.verdict.Fail? {
        return;
      }
      failures := failures + 1;
      lower, upper := Bounds(h);
      if upper.Some? && upper.value != 0 && lower == 0 {
        if |h| - |h0| == |answers| {
          return;
        }
        r := Record(Max(1, upper.value * 3 / 4), answers[|h| - |h0|], CONFIRMATION);
        CalledFor(h, lower, upper, r.rate);
        RatesSoFar(|h0|, h, r);
        h := h + [r];
      }
    }
  }

  /** The lower end, while it has not passed over three minutes; without one, three quarters of the
      upper end, and at least one. */
  ghost predicate CallsForConfirmation(h: seq<Record>, rate: int) {
    exists lower, upper ::
      && Brackets(h, lower, upper)
      && if lower != 0 then rate == lower && !Established(h, lower)
         else upper.Some? && (if upper.value < 2 then rate == 1 else 4 * rate <= 3 * upper.value < 4 * rate + 4)
  }

  lemma CalledFor(h: seq<Record>, lower: int, upper: Option<int>, rate: int)
    requires Brackets(h, lower, upper)
    requires if lower != 0 then rate == lower && !Established(h, lower)
             else upper.Some? && rate == Max(1, upper.value * 3 / 4)
    ensures CallsForConfirmation(h, rate)
  {
    hide Brackets, Established;
  }

  lemma RatesSoFar(from: nat, h: seq<Record>, r: Record)
    requires from <= |h| && forall i :: from <= i < |h| ==> CallsForConfirmation(h[..i], h[i].rate)
    requires CallsForConfirmation(h, r.rate)
    ensures forall i :: from <= i < |h| + 1 ==> CallsForConfirmation((h + [r])[..i], (h + [r])[i].rate)
  {
    hide CallsForConfirmation;
    var after := h + [r];
    forall i | from <= i < |after|
      ensures CallsForConfirmation(after[..i], after[i].rate)
    {
      if i < |h| {
        assert after[..i] == h[..i];
      } else {
        assert after[..i] == h;
      }
    }
  }

  lemma SettledIsConfirmed(h: seq<Record>, lower: int, upper: Option<int>)
    requires Brackets(h, lower, upper) && (lower == 0 || Established(h, lower))
    ensures Confirmed(h)
  {
    forall l, u | Brackets(h, l, u)
      ensures l == 0 || Established(h, l)
    {
      BracketUnique(h, l, u, lower, upper);
    }
  }

  // ---------- Combining verdicts ----------

  /** A pass needs every part to pass; a failure is established only when every part is final. */
  method CombinedVerdict(vs: seq<Verdict>) returns (r: Verdict)
    ensures r.Pass? <==> forall i :: 0 <= i < |vs| ==> vs[i].Pass?
    ensures r.Fail? <==> (forall i :: 0 <= i < |vs| ==> !vs[i].Inconclusive?) && Fail in vs
    ensures r.Inconclusive? ==> exists i :: 0 <= i < |vs| && vs[i] == r && forall j :: 0 <= j < i ==> !vs[j].Inconclusive?
  {
    for i := 0 to |vs|
      invariant forall j :: 0 <= j < i ==> Final(vs[j])
    {
      if !Final(vs[i]) {
        return vs[i];
      }
    }
    if Fail in vs {
      return Fail;
    }
    return Pass;
  }
}
