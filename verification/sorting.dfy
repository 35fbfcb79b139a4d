/** sorted() over a set of strings: the order in which the source walks names. */
module Sorting {
  /** Lexicographic order by character code, a prefix first. */
  predicate Before(a: string, b: string) {
    a == [] || (b != [] && (a[0] < b[0] || (a[0] == b[0] && Before(a[1..], b[1..]))))
  }

  lemma {:induction false} BeforeTotal(a: string, b: string)
    ensures Before(a, b) || Before(b, a)
    ensures Before(a, b) && Before(b, a) ==> a == b
  {
    if a != [] && b != [] && a[0] == b[0] {
      BeforeTotal(a[1..], b[1..]);
      assert a == [a[0]] + a[1..] && b == [b[0]] + b[1..];
    }
  }

  lemma {:induction false} BeforeTransitive(a: string, b: string, c: string)
    requires Before(a, b) && Before(b, c)
    ensures Before(a, c)
  {
    if a != [] && a[0] == b[0] && b[0] == c[0] {
      BeforeTransitive(a[1..], b[1..], c[1..]);
    }
  }

  predicate IsLeast(x: string, s: set<string>) {
    x in s && forall y :: y in s ==> Before(x, y)
  }

  lemma {:induction false} LeastExists(s: set<string>)
    requires s != {}
    ensures exists x :: IsLeast(x, s)
    decreases |s|
  {
    var y :| y in s;
    var rest := s - {y};
    BeforeTotal(y, y);
    if rest == {} {
      assert s == {y};
      assert IsLeast(y, s);
    } else {
      LeastExists(rest);
      var x :| IsLeast(x, rest);
      BeforeTotal(x, y);
      if Before(x, y) {
        assert IsLeast(x, s);
      } else {
        forall z | z in rest ensures Before(y, z) {
          BeforeTransitive(y, x, z);
        }
        assert IsLeast(y, s);
      }
    }
  }

  lemma LeastUnique(s: set<string>)
    ensures forall x, y :: IsLeast(x, s) && IsLeast(y, s) ==> x == y
  {
    forall x, y | IsLeast(x, s) && IsLeast(y, s)
      ensures x == y
    {
      BeforeTotal(x, y);
    }
  }

  /** The first name in the order. */
  function Least(s: set<string>): (x: string)
    requires s != {}
    ensures IsLeast(x, s)
  {
    LeastExists(s);
    LeastUnique(s);
    var x :| x in s && IsLeast(x, s);
    x
  }

  /** q lists s in order, without repetition. */
  ghost predicate Lists(q: seq<string>, s: set<string>) {
    && (forall x :: x in q <==> x in s)
    && (forall i, j :: 0 <= i < j < |q| ==> q[i] != q[j] && Before(q[i], q[j]))
  }

  lemma ListsCons(x: string, rest: seq<string>, s: set<string>)
    requires IsLeast(x, s) && Lists(rest, s - {x})
    ensures Lists([x] + rest, s)
  {
    var q := [x] + rest;
    forall i, j | 0 <= i < j < |q|
      ensures q[i] != q[j] && Before(q[i], q[j])
    {
      assert q[j] in rest;
      if i > 0 {
        assert q[i] == rest[i - 1] && q[j] == rest[j - 1];
      }
    }
    forall y
      ensures y in q <==> y in s
    {
      assert y in q <==> y == x || y in rest;
    }
  }

  /** sorted(s) */
  function Sorted(s: set<string>): (q: seq<string>)
    ensures Lists(q, s)
    decreases |s|
  {
    if s == {} then []
    else
      var x := Least(s);
      var rest := Sorted(s - {x});
      ListsCons(x, rest, s);
      [x] + rest
  }
}
