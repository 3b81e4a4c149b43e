/** Python's sorted() on a set of strings: ascending by code point. */
module Ordering {
  import opened Wrappers

  predicate Le(a: string, b: string) {
    a == "" || (b != "" && (a[0] < b[0] || (a[0] == b[0] && Le(a[1..], b[1..]))))
  }

  lemma {:induction false} Total(a: string, b: string)
    ensures Le(a, b) || Le(b, a)
  {
    if a != "" && b != "" { Total(a[1..], b[1..]); }
  }

  lemma {:induction false} Antisymmetric(a: string, b: string)
    requires Le(a, b) && Le(b, a)
    ensures a == b
  {
    if a != "" && b != "" {
      Antisymmetric(a[1..], b[1..]);
      assert a == [a[0]] + a[1..] && b == [b[0]] + b[1..];
    }
  }

  lemma {:induction false} Transitive(a: string, b: string, c: string)
    requires Le(a, b) && Le(b, c)
    ensures Le(a, c)
  {
    if a != "" && a[0] == b[0] == c[0] { Transitive(a[1..], b[1..], c[1..]); }
  }

  predicate IsLeast(s: set<string>, m: string) { m in s && forall x <- s :: Le(m, x) }

  lemma LeastOfMore(s: set<string>, a: string, m: string, x: string)
    requires IsLeast(s - {a}, m) && a in s && x in s
    ensures Le(if Le(a, m) then a else m, x)
  {
    Total(a, m);
    if x == a {
      Total(a, a);
    } else if Le(a, m) {
      Transitive(a, m, x);
    }
  }

  lemma {:induction false} LeastExists(s: set<string>)
    requires s != {}
    ensures exists m :: IsLeast(s, m)
  {
    var a :| a in s;
    if s == {a} {
      Total(a, a);
      assert IsLeast(s, a);
    } else {
      LeastExists(s - {a});
      var m :| IsLeast(s - {a}, m);
      forall x <- s ensures Le(if Le(a, m) then a else m, x) { LeastOfMore(s, a, m, x); }
      assert IsLeast(s, if Le(a, m) then a else m);
    }
  }

  function Least(s: set<string>): (m: string)
    requires s != {}
    ensures IsLeast(s, m)
  {
    LeastExists(s);
    assert forall m, n | IsLeast(s, m) && IsLeast(s, n) :: m == n by {
      forall m, n | IsLeast(s, m) && IsLeast(s, n) ensures m == n { Antisymmetric(m, n); }
    }
    var m :| m in s && IsLeast(s, m);
    m
  }

  /** The elements of a set, each once, in ascending order. */
  function Sorted(s: set<string>): (r: seq<string>)
    ensures |r| == |s| && forall x :: x in r <==> x in s
    ensures forall i, j | 0 <= i < j < |r| :: r[i] != r[j]
    decreases |s|
  {
    if s == {} then [] else [Least(s)] + Sorted(s - {Least(s)})
  }

  lemma OneElement<T>(s: set<T>, x: T, y: T)
    requires |s| == 1 && x in s && y in s
    ensures x == y
  {
    var rest := s - {x};
    assert |rest| == 0;
  }

  /** The element of a one-element set. */
  function Only<T(==)>(s: set<T>): (r: Option<T>)
    ensures r.Some? <==> |s| == 1
    ensures r.Some? ==> s == {r.value}
  {
    if |s| != 1 then None
    else
      assert forall x, y | x in s && y in s :: x == y by {
        forall x, y | x in s && y in s ensures x == y { OneElement(s, x, y); }
      }
      var x :| x in s;
      Some(x)
  }

  function Elements(xs: seq<string>): set<string> { set x | x in xs }

  /** sorted(), for loops to walk over: what they need of the order, without the order itself. */
  method SortedList(s: set<string>) returns (r: seq<string>)
    ensures (forall x :: x in r <==> x in s) && forall i, j | 0 <= i < j < |r| :: r[i] != r[j]
  {
    r := Sorted(s);
  }
}
