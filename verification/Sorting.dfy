/** The source language's `sorted` on sets of distinct keys, and the orders it uses. */
module Sorting {

  ghost predicate TotalOrder<T(!new)>(leq: (T, T) -> bool) {
    && (forall x, y :: leq(x, y) || leq(y, x))
    && (forall x, y :: leq(x, y) && leq(y, x) ==> x == y)
    && (forall x, y, z :: leq(x, y) && leq(y, z) ==> leq(x, z))
  }

  /** Every member once. */
  ghost predicate Enumerates<T(!new)>(r: seq<T>, s: set<T>) {
    && (forall x :: x in r <==> x in s)
    && (forall i, j :: 0 <= i < j < |r| ==> r[i] != r[j])
  }

  lemma Lesser<T(!new)>(leq: (T, T) -> bool, a: T, b: T) returns (m: T)
    requires TotalOrder(leq)
    ensures (m == a || m == b) && leq(m, a) && leq(m, b) && leq(a, a)
    ensures forall x :: leq(b, x) ==> leq(m, x)
  {
    m := if leq(a, b) then a else b;
  }

  lemma {:induction false} LeastExists<T(!new)>(s: set<T>, leq: (T, T) -> bool)
    requires TotalOrder(leq) && s != {}
    ensures exists m :: m in s && forall x :: x in s ==> leq(m, x)
  {
    hide TotalOrder;
    var a :| a in s;
    var rest := s - {a};
    if rest == {} {
      var m := Lesser(leq, a, a);
      forall x | x in s
        ensures leq(a, x)
      {
        assert x !in rest;
      }
    } else {
      LeastExists(rest, leq);
      var b :| b in rest && forall x :: x in rest ==> leq(b, x);
      var m := Lesser(leq, a, b);
      assert m in s;
      forall x | x in s
        ensures leq(m, x)
      {
        assert x == a || x in rest;
      }
    }
  }

  function Sort<T(==, !new)>(s: set<T>, leq: (T, T) -> bool): (r: seq<T>)
    requires TotalOrder(leq)
    ensures Enumerates(r, s)
    ensures forall i, j :: 0 <= i < j < |r| ==> leq(r[i], r[j])
  {
    if s == {} then []
    else
      LeastExists(s, leq);
      var m :| m in s && forall x :: x in s ==> leq(m, x);
      [m] + Sort(s - {m}, leq)
  }

  // ---------------------------------------------------------------------------
  // Orders

  predicate NatLeq(a: nat, b: nat) {
    a <= b
  }

  /** Code point by code point. */
  predicate StringLeq(a: string, b: string) {
    if a == "" then true
    else if b == "" then false
    else if a[0] != b[0] then a[0] < b[0]
    else StringLeq(a[1..], b[1..])
  }

  lemma {:induction false} StringTotal(a: string, b: string)
    ensures StringLeq(a, b) || StringLeq(b, a)
    ensures StringLeq(a, b) && StringLeq(b, a) ==> a == b
  {
    if a != "" && b != "" && a[0] == b[0] {
      StringTotal(a[1..], b[1..]);
      assert a == [a[0]] + a[1..] && b == [b[0]] + b[1..];
    }
  }

  lemma {:induction false} StringTransitive(a: string, b: string, c: string)
    requires StringLeq(a, b) && StringLeq(b, c)
    ensures StringLeq(a, c)
  {
    if a != "" && b != "" && c != "" && a[0] == b[0] == c[0] {
      StringTransitive(a[1..], b[1..], c[1..]);
    }
  }

  lemma StringOrder()
    ensures TotalOrder(StringLeq)
  {
    forall a: string, b: string
      ensures StringLeq(a, b) || StringLeq(b, a)
      ensures StringLeq(a, b) && StringLeq(b, a) ==> a == b
    {
      StringTotal(a, b);
    }
    forall a: string, b: string, c: string | StringLeq(a, b) && StringLeq(b, c)
      ensures StringLeq(a, c)
    {
      StringTransitive(a, b, c);
    }
  }

  lemma NatOrder()
    ensures TotalOrder(NatLeq)
  {
  }
}
