/** Chasing import aliases to the path they stand for (scripts/verify_static_contracts.py,
    resolved_rust_path). A path is its segments; an alias replaces the first one. */
module RustPath {
  type Path = p: seq<string> | p != [] witness [""]

  type Aliases = map<string, Path>

  /** The first segment is an alias for something other than itself. */
  predicate Moves(aliases: Aliases, p: Path) {
    p[0] in aliases && aliases[p[0]] != [p[0]]
  }

  function Step(aliases: Aliases, p: Path): Path {
    if Moves(aliases, p) then aliases[p[0]] + p[1..] else p
  }

  function Iterate(aliases: Aliases, p: Path, n: nat): Path {
    if n == 0 then p else Step(aliases, Iterate(aliases, p, n - 1))
  }

  function Root(aliases: Aliases, p: Path, n: nat): string {
    Iterate(aliases, p, n)[0]
  }

  /** The path the aliases lead to, if they lead anywhere. */
  ghost predicate LeadsTo(aliases: Aliases, p: Path, r: Path) {
    !Moves(aliases, r) && exists n: nat :: Iterate(aliases, p, n) == r
  }

  /** Only the first segment is ever replaced: what follows it stays at the end of the path, and what it
      becomes does not depend on what follows. */
  lemma {:induction false} SuffixStays(aliases: Aliases, p: Path, n: nat)
    ensures Iterate(aliases, p, n) == Iterate(aliases, [p[0]], n) + p[1..]
  {
    if n == 0 {
      assert p == [p[0]] + p[1..];
    } else {
      SuffixStays(aliases, p, n - 1);
      var stage := Iterate(aliases, [p[0]], n - 1);
      assert (stage + p[1..])[0] == stage[0] && (stage + p[1..])[1..] == stage[1..] + p[1..];
      if Moves(aliases, stage) {
        assert aliases[stage[0]] + (stage[1..] + p[1..]) == (aliases[stage[0]] + stage[1..]) + p[1..];
      }
    }
  }

  /** Each stage of a chase is the one before it with its first segment looked up. */
  lemma StageAfter(aliases: Aliases, p: Path, n: nat)
    ensures var stage, next := Iterate(aliases, p, n), Iterate(aliases, p, n + 1);
            next == if stage[0] in aliases then aliases[stage[0]] + stage[1..] else stage
  {
    var stage := Iterate(aliases, p, n);
    if stage[0] in aliases && aliases[stage[0]] == [stage[0]] {
      assert [stage[0]] + stage[1..] == stage;
    }
  }

  /** Whether and whereto a path moves next depends on its first segment alone. */
  lemma {:induction false} SameRootStays(aliases: Aliases, p: Path, i: nat, j: nat, k: nat)
    requires Root(aliases, p, i) == Root(aliases, p, j)
    ensures Root(aliases, p, i + k) == Root(aliases, p, j + k)
    decreases k
  {
    if k > 0 {
      SameRootStays(aliases, p, i, j, k - 1);
    }
  }

  /** A repeated first segment means the aliases run in a circle: the path never comes to rest. */
  lemma {:induction false} CircleNeverRests(aliases: Aliases, p: Path, j: nat, i: nat, m: nat)
    requires j < i && Root(aliases, p, i) == Root(aliases, p, j)
    requires forall k :: 0 <= k < i ==> Moves(aliases, Iterate(aliases, p, k))
    ensures Moves(aliases, Iterate(aliases, p, m))
    decreases m
  {
    if m >= i {
      SameRootStays(aliases, p, j, i, m - i);
      CircleNeverRests(aliases, p, j, i, m - (i - j));
    }
  }

  lemma {:induction false} RestStays(aliases: Aliases, p: Path, n: nat, m: nat)
    requires !Moves(aliases, Iterate(aliases, p, n)) && n <= m
    ensures Iterate(aliases, p, m) == Iterate(aliases, p, n)
    decreases m
  {
    if n < m {
      RestStays(aliases, p, n, m - 1);
    }
  }

  /** A path leads to at most one place. */
  lemma LeadsToOne(aliases: Aliases, p: Path, r: Path, r': Path)
    requires LeadsTo(aliases, p, r) && LeadsTo(aliases, p, r')
    ensures r == r'
  {
    var n: nat :| Iterate(aliases, p, n) == r;
    var m: nat :| Iterate(aliases, p, m) == r';
    if n <= m {
      RestStays(aliases, p, n, m);
    } else {
      RestStays(aliases, p, m, n);
    }
  }

  /** Chases aliases until the path rests or a first segment comes back. The answer is the path the
      aliases lead to whenever they lead anywhere; otherwise it is still a stage of the circle. It
      takes no more steps than there are aliases. */
  method Resolve(aliases: Aliases, p: Path) returns (r: Path, steps: nat)
    ensures r == Iterate(aliases, p, steps) && steps <= |aliases|
    ensures !Moves(aliases, r) ==> LeadsTo(aliases, p, r)
    ensures forall q :: LeadsTo(aliases, p, q) ==> r == q
    ensures Moves(aliases, r) <==> forall m: nat :: Moves(aliases, Iterate(aliases, p, m))
  {
    hide Iterate, LeadsTo;
    var seen: set<string> := {};
    ghost var visited: seq<string> := [];
    r, steps := p, 0;
    FirstStage(aliases, p);
    while true
      invariant r == Iterate(aliases, p, steps)
      invariant forall k :: 0 <= k < steps ==> Moves(aliases, Iterate(aliases, p, k))
      invariant |visited| == steps && forall k :: 0 <= k < steps ==> Root(aliases, p, k) == visited[k]
      invariant forall s :: s in seen <==> s in visited
      invariant seen <= aliases.Keys && |seen| == steps
      decreases |aliases| - |seen|
    {
      SubsetSmaller(seen, aliases.Keys);
      var root := r[0];
      if root in seen {
        ghost var j :| 0 <= j < steps && visited[j] == root;
        forall m: nat
          ensures Moves(aliases, Iterate(aliases, p, m))
        {
          CircleNeverRests(aliases, p, j, steps, m);
        }
        NeverLeads(aliases, p);
        return;
      }
      if root !in aliases || aliases[root] == [root] {
        RestsHere(aliases, p, steps);
        forall q | LeadsTo(aliases, p, q)
          ensures r == q
        {
          LeadsToOne(aliases, p, r, q);
        }
        return;
      }
      seen := seen + {root};
      SubsetSmaller(seen, aliases.Keys);
      visited := visited + [root];
      NextStage(aliases, p, steps);
      r, steps := aliases[root] + r[1..], steps + 1;
    }
  }

  lemma NeverLeads(aliases: Aliases, p: Path)
    requires forall m: nat :: Moves(aliases, Iterate(aliases, p, m))
    ensures forall q :: !LeadsTo(aliases, p, q)
  {
  }

  lemma FirstStage(aliases: Aliases, p: Path)
    ensures Iterate(aliases, p, 0) == p
  {
  }

  lemma NextStage(aliases: Aliases, p: Path, n: nat)
    ensures Iterate(aliases, p, n + 1) == Step(aliases, Iterate(aliases, p, n))
  {
  }

  lemma RestsHere(aliases: Aliases, p: Path, n: nat)
    requires !Moves(aliases, Iterate(aliases, p, n))
    ensures LeadsTo(aliases, p, Iterate(aliases, p, n))
  {
  }

  lemma SubsetSmaller(a: set<string>, b: set<string>)
    requires a <= b
    ensures |a| <= |b|
  {
    assert b == a + (b - a);
  }
}
