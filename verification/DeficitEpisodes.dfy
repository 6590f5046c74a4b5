/** Throughput-deficit episodes over a set of one-second bins and the recovery of each
    (perf/tools/checkpoint_analyze.py, deficit_episodes). */
module DeficitEpisodes {
  import opened Common

  const RECOVERY_RUN: nat := 5

  /** The selected seconds with their completed operations; a missing second has none. */
  datatype Series = Series(bins: seq<int>, completed: seq<Option<int>>, target: real, fraction: real) {
    ghost predicate Valid() {
      |bins| == |completed|
    }

    function Threshold(): real {
      target * fraction
    }

    predicate Below(i: nat)
      requires i < |completed|
    {
      completed[i].Some? && (completed[i].value as real) < Threshold()
    }

    predicate AtLeast(i: nat)
      requires i < |completed|
    {
      completed[i].Some? && completed[i].value as real >= Threshold()
    }

    /** The second directly follows the one selected before it. */
    predicate Adjacent(i: nat)
      requires 0 < i < |bins|
    {
      bins[i] == bins[i - 1] + 1
    }

    /** Covered, and short of the given fraction of the target. */
    ghost predicate InDeficit(i: nat)
      requires i < |completed|
    {
      completed[i] != None && (completed[i].value as real) < target * fraction
    }

    /** One second after the one selected before it. */
    ghost predicate Follows(i: nat)
      requires 0 < i < |bins|
    {
      bins[i] - bins[i - 1] == 1
    }

    /** Adjacent seconds in deficit that cannot be extended either way. */
    ghost predicate MaximalRun(a: nat, b: nat)
      requires Valid()
    {
      && a < b <= |bins|
      && (forall i :: a <= i < b ==> InDeficit(i))
      && (forall i :: a < i < b ==> Follows(i))
      && (a > 0 ==> !(InDeficit(a - 1) && Follows(a)))
      && (b < |bins| ==> !(InDeficit(b) && Follows(b)))
    }

    /** Five adjacent covered seconds from index k, none of them in deficit. */
    ghost predicate Recovers(k: nat)
      requires Valid()
    {
      && k + 5 <= |bins|
      && (forall i :: k <= i < k + 5 ==> completed[i].Some? && !InDeficit(i))
      && (forall i :: k < i < k + 5 ==> Follows(i))
    }

    /** The earliest recovery at or after j, if any. */
    ghost predicate FirstRecovery(j: nat, k: Option<nat>)
      requires Valid()
    {
      if k.Some? then
        j <= k.value && Recovers(k.value) && forall p :: j <= p < k.value ==> !Recovers(p)
      else
        forall p :: j <= p ==> !Recovers(p)
    }

    function Count(i: nat): int
      requires i < |completed|
    {
      completed[i].GetOr(0)
    }

    /** Operations missing from the target over the indices [a, b). */
    function Hole(a: nat, b: nat): real
      requires a <= b <= |completed|
    {
      if a == b then 0.0
      else Hole(a, b - 1) + MaxReal(0.0, target - Count(b - 1) as real)
    }

    /** The seconds of [a, b) that completed exactly `v` operations, in order. */
    function SecondsWith(a: nat, b: nat, v: int): seq<int>
      requires Valid() && a <= b <= |bins|
    {
      if a == b then []
      else SecondsWith(a, b - 1, v) + (if completed[b - 1] == Some(v) then [bins[b - 1]] else [])
    }
  }

  datatype Recovery = Recovery(runStart: int, seconds: int)

  datatype Episode = Episode(start: int, end: int, duration: nat, minCompleted: int, minAt: seq<int>,
                             hole: real, recovery: Option<Recovery>)

  /** What is reported about the run of indices [a, b). */
  ghost predicate Describes(s: Series, e: Episode, a: nat, b: nat)
    requires s.Valid() && s.MaximalRun(a, b)
  {
    && e.start == s.bins[a] && e.end == s.bins[b - 1] + 1 && e.duration == b - a
    && (exists i :: a <= i < b && s.completed[i] == Some(e.minCompleted))
    && (forall i :: a <= i < b ==> e.minCompleted <= s.Count(i))
    && e.minAt == s.SecondsWith(a, b, e.minCompleted)
    && (forall sec :: sec in e.minAt <==> exists i :: a <= i < b && s.bins[i] == sec && s.completed[i] == Some(e.minCompleted))
    && e.hole == s.Hole(a, b)
    && exists k :: s.FirstRecovery(b, k) && e.recovery == RecoveryAt(s, a, b, k)
  }

  ghost function RecoveryAt(s: Series, a: nat, b: nat, k: Option<nat>): Option<Recovery>
    requires s.Valid() && s.FirstRecovery(b, k) && a < |s.bins|
  {
    if k.Some?
    then Some(Recovery(s.bins[k.value], s.bins[k.value + 4] + 1 - s.bins[a]))
    else None
  }

  datatype Run = Run(a: nat, b: nat)

  /** All maximal runs inside [0, upto), from left to right. */
  ghost predicate RunsUpTo(s: Series, runs: seq<Run>, upto: nat)
    requires s.Valid() && upto <= |s.bins|
  {
    && (forall e :: 0 <= e < |runs| ==> s.MaximalRun(runs[e].a, runs[e].b) && runs[e].b <= upto)
    && (forall e, f :: 0 <= e < f < |runs| ==> runs[e].b <= runs[f].a)
    && (forall i :: 0 <= i < upto && s.InDeficit(i) ==> exists e :: 0 <= e < |runs| && runs[e].a <= i < runs[e].b)
  }

  /** The episodes reported, one for each maximal run up to here. */
  ghost predicate Episodes(s: Series, eps: seq<Episode>, runs: seq<Run>, upto: nat)
    requires s.Valid() && upto <= |s.bins|
  {
    && |runs| == |eps| && RunsUpTo(s, runs, upto)
    && forall e :: 0 <= e < |eps| ==> s.MaximalRun(runs[e].a, runs[e].b) && Describes(s, eps[e], runs[e].a, runs[e].b)
  }

  /** First index of the first five adjacent good seconds at or after j. */
  method FindRecovery(s: Series, j: nat) returns (found: Option<nat>)
    requires s.Valid() && j <= |s.bins|
    ensures s.FirstRecovery(j, found)
  {
    var k, n := j, |s.bins|;
    while k < n
      invariant j <= k <= n
      invariant forall p :: j <= p < k ==> !s.Recovers(p)
    {
      var m := k;
      while m < n && s.AtLeast(m) && (m == k || s.Adjacent(m))
        invariant k <= m <= n
        invariant forall i :: k <= i < m ==> s.completed[i].Some? && !s.InDeficit(i)
        invariant forall i :: k < i < m ==> s.Follows(i)
      {
        m := m + 1;
      }
      if m - k >= RECOVERY_RUN {
        return Some(k);
      }
      forall p | k <= p < Max(m, k + 1)
        ensures !s.Recovers(p)
      {
        NotRecovered(s, k, m, p);
      }
      k := if m == k then k + 1 else m;
    }
    return None;
  }

  /** A run of good seconds that is too short and ends at m holds no recovery. */
  lemma NotRecovered(s: Series, k: nat, m: nat, p: nat)
    requires s.Valid() && k <= m <= |s.bins| && m - k < RECOVERY_RUN && k <= p < Max(m, k + 1)
    requires m == |s.bins| || s.completed[m].None? || s.InDeficit(m) || (m > k && !s.Follows(m))
    ensures !s.Recovers(p)
  {
  }

  /** Smallest completion count in a run. */
  method Minimum(s: Series, a: nat, b: nat) returns (v: int)
    requires s.Valid() && a < b <= |s.bins| && forall i :: a <= i < b ==> s.InDeficit(i)
    ensures exists i :: a <= i < b && s.completed[i] == Some(v)
    ensures forall i :: a <= i < b ==> v <= s.Count(i)
  {
    assert s.InDeficit(a);
    v := s.Count(a);
    for i := a + 1 to b
      invariant exists k :: a <= k < i && s.completed[k] == Some(v)
      invariant forall k :: a <= k < i ==> v <= s.Count(k)
    {
      assert s.InDeficit(i);
      if s.Count(i) < v {
        v := s.Count(i);
      }
    }
  }

  /** The episodes are exactly the maximal runs, in order, each described as `Describes` says; every
      second below the threshold lies in exactly one of them. */
  method FindEpisodes(s: Series) returns (eps: seq<Episode>)
    requires s.Valid()
    ensures exists runs :: Episodes(s, eps, runs, |s.bins|)
  {
    hide Describes, RunsUpTo;
    var i, n := 0, |s.bins|;
    eps := [];
    ghost var runs: seq<Run> := [];
    NoEpisodes(s);
    while i < n
      invariant 0 <= i <= n
      invariant Episodes(s, eps, runs, i)
      invariant 0 < i < n ==> !(s.InDeficit(i - 1) && s.InDeficit(i) && s.Follows(i))
    {
      if !s.Below(i) {
        SkipSecond(s, runs, i);
        i := i + 1;
        continue;
      }
      var j := i;
      while j < n && s.Below(j) && (j == i || s.Adjacent(j))
        invariant i <= j <= n
        invariant forall p :: i <= p < j ==> s.InDeficit(p)
        invariant forall p :: i < p < j ==> s.Follows(p)
      {
        j := j + 1;
      }
      assert s.MaximalRun(i, j);
      var low := Minimum(s, i, j);
      var k := FindRecovery(s, j);
      var recovery := if k.Some? then Some(Recovery(s.bins[k.value], s.bins[k.value + 4] + 1 - s.bins[i])) else None;
      assert recovery == RecoveryAt(s, i, j, k);
      var e := Episode(s.bins[i], s.bins[j - 1] + 1, j - i, low, s.SecondsWith(i, j, low), s.Hole(i, j), recovery);
      DescribesEpisode(s, e, i, j, low, k);
      ExtendRuns(s, runs, i, j);
      eps, runs := eps + [e], runs + [Run(i, j)];
      i := j;
    }
  }

  lemma NoEpisodes(s: Series)
    requires s.Valid()
    ensures Episodes(s, [], [], 0)
  {
  }

  lemma SkipSecond(s: Series, runs: seq<Run>, i: nat)
    requires s.Valid() && i < |s.bins| && RunsUpTo(s, runs, i) && !s.InDeficit(i)
    ensures RunsUpTo(s, runs, i + 1)
  {
  }

  lemma DescribesEpisode(s: Series, e: Episode, a: nat, b: nat, low: int, k: Option<nat>)
    requires s.Valid() && s.MaximalRun(a, b) && s.FirstRecovery(b, k)
    requires exists i :: a <= i < b && s.completed[i] == Some(low)
    requires forall i :: a <= i < b ==> low <= s.Count(i)
    requires e == Episode(s.bins[a], s.bins[b - 1] + 1, b - a, low, s.SecondsWith(a, b, low), s.Hole(a, b),
                          RecoveryAt(s, a, b, k))
    ensures Describes(s, e, a, b)
  {
    SecondsWithMembers(s, a, b, low);
  }

  lemma {:induction false} SecondsWithMembers(s: Series, a: nat, b: nat, v: int)
    requires s.Valid() && a <= b <= |s.bins|
    ensures forall sec :: sec in s.SecondsWith(a, b, v) <==> exists i :: a <= i < b && s.bins[i] == sec && s.completed[i] == Some(v)
  {
    if a < b {
      SecondsWithMembers(s, a, b - 1, v);
    }
  }

  /** Operations completed over the indices [a, b). */
  function CompletedIn(s: Series, a: nat, b: nat): int
    requires a <= b <= |s.completed|
  {
    if a == b then 0 else CompletedIn(s, a, b - 1) + s.completed[b - 1].GetOr(0)
  }

  function Times(n: int, x: real): real {
    n as real * x
  }

  lemma TimesNext(n: int, x: real)
    ensures Times(n + 1, x) == Times(n, x) + x
    ensures Times(0, x) == 0.0
  {
    assert (n + 1) as real * x == n as real * x + x;
  }

  /** Where no second exceeds the target the hole is the target over the run less what was completed;
      it is never less than that. */
  lemma {:induction false} HoleIsShortfall(s: Series, a: nat, b: nat)
    requires a <= b <= |s.completed|
    ensures s.Hole(a, b) >= 0.0 && s.Hole(a, b) >= Times(b - a, s.target) - CompletedIn(s, a, b) as real
    ensures (forall i :: a <= i < b ==> s.completed[i].GetOr(0) as real <= s.target) ==>
              s.Hole(a, b) == Times(b - a, s.target) - CompletedIn(s, a, b) as real
  {
    hide Times;
    TimesNext(b - 1 - a, s.target);
    TimesNext(0, s.target);
    if a < b {
      HoleIsShortfall(s, a, b - 1);
    }
  }

  lemma ExtendRuns(s: Series, runs: seq<Run>, i: nat, j: nat)
    requires s.Valid() && i < j <= |s.bins| && RunsUpTo(s, runs, i) && s.MaximalRun(i, j)
    ensures RunsUpTo(s, runs + [Run(i, j)], j)
  {
    var more := runs + [Run(i, j)];
    forall p | 0 <= p < j && s.InDeficit(p)
      ensures exists e :: 0 <= e < |more| && more[e].a <= p < more[e].b
    {
      if p < i {
        var e :| 0 <= e < |runs| && runs[e].a <= p < runs[e].b;
        assert more[e] == runs[e];
      } else {
        assert more[|runs|] == Run(i, j);
      }
    }
  }

  /** Two maximal runs that share a second are the same run. */
  lemma MaximalRunsMeet(s: Series, a: nat, b: nat, c: nat, d: nat, i: nat)
    requires s.Valid() && s.MaximalRun(a, b) && s.MaximalRun(c, d) && a <= i < b && c <= i < d
    ensures a == c && b == d
  {
  }

  /** The list holds every maximal run and nothing else, so it is determined by the series. */
  lemma RunsAreAllMaximalRuns(s: Series, runs: seq<Run>, a: nat, b: nat)
    requires s.Valid() && RunsUpTo(s, runs, |s.bins|)
    ensures s.MaximalRun(a, b) <==> Run(a, b) in runs
  {
    if s.MaximalRun(a, b) {
      assert s.InDeficit(a);
      var e :| 0 <= e < |runs| && runs[e].a <= a < runs[e].b;
      MaximalRunsMeet(s, a, b, runs[e].a, runs[e].b, a);
      assert runs[e] == Run(a, b);
    }
  }
}
