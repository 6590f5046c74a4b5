/** Values and small operators shared by every component of the model. */
module Common {

  datatype Option<+T> = None | Some(value: T) {
    function GetOr(default: T): T {
      if Some? then value else default
    }
  }

  datatype Result<+T> = Ok(value: T) | Err

  /** The source language's `int(x)`: truncation toward zero. */
  function Trunc(x: real): int {
    if x >= 0.0 then x.Floor else -((-x).Floor)
  }

  /** Least integer not below `x`. */
  function Ceil(x: real): int {
    -((-x).Floor)
  }

  lemma CeilLeast(x: real, k: int)
    ensures k as real >= x <==> k >= Ceil(x)
  {
  }

  function Max(a: int, b: int): int {
    if a >= b then a else b
  }

  function Min(a: int, b: int): int {
    if a <= b then a else b
  }

  function MaxReal(a: real, b: real): real {
    if a >= b then a else b
  }

  function MinReal(a: real, b: real): real {
    if a <= b then a else b
  }

  function Abs(a: int): int {
    if a >= 0 then a else -a
  }

  /** A member of a set that is not empty. */
  lemma SomeMember<T>(s: set<T>) returns (x: T)
    requires s != {}
    ensures x in s
  {
    x :| x in s;
  }

  /** A permutation holds the last element of the other list somewhere, and stays a permutation
      of the rest without it. */
  lemma FindLast<T>(s: seq<T>, t: seq<T>) returns (i: nat)
    requires s != [] && multiset(s) == multiset(t)
    ensures i < |t| && t[i] == s[|s| - 1]
    ensures multiset(s[..|s| - 1]) == multiset(t[..i] + t[i + 1..])
  {
    var last := |s| - 1;
    assert s == s[..last] + [s[last]];
    assert s[last] in multiset(t);
    i :| 0 <= i < |t| && t[i] == s[last];
    assert t == t[..i] + [t[i]] + t[i + 1..];
    assert multiset(s[..last]) == multiset(s) - multiset{s[last]};
    assert multiset(t[..i] + t[i + 1..]) == multiset(t) - multiset{t[i]};
  }
}
