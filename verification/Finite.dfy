/** Sizes of finite sets: counting arguments used across the project. */
module Finite {
  lemma {:induction false} SameSize(xs: seq<string>, s: set<string>)
    requires (forall x :: x in xs <==> x in s) && forall i, j | 0 <= i < j < |xs| :: xs[i] != xs[j]
    ensures |xs| == |s|
  {
    if xs == [] {
      assert s == {};
    } else {
      var n := |xs| - 1;
      assert xs == xs[..n] + [xs[n]];
      SameSize(xs[..n], s - {xs[n]});
    }
  }

  lemma {:induction false} SubsetSize(a: set<string>, b: set<string>)
    requires a <= b
    ensures |a| <= |b|
    decreases |a|
  {
    if a != {} {
      var x :| x in a;
      SubsetSize(a - {x}, b - {x});
    }
  }

  lemma SameSizeSubset(a: set<string>, b: set<string>)
    requires a <= b && |a| == |b|
    ensures a == b
  {
    if a != b {
      var x :| x in b && x !in a;
      SubsetSize(a, b - {x});
    }
  }

  ghost predicate OneToOne(m: map<string, string>) {
    forall u, v | u in m && v in m && u != v :: m[u] != m[v]
  }

  lemma ValuesWithout(m: map<string, string>, u: string)
    requires u in m
    ensures m.Values == (m - {u}).Values + {m[u]}
  {
    var rest := m - {u};
    forall x | x in m.Values ensures x in rest.Values + {m[u]} {
      var v :| v in m && m[v] == x;
      assert v == u || (v in rest && rest[v] == x);
    }
    forall x | x in rest.Values + {m[u]} ensures x in m.Values {
      if x in rest.Values {
        var v :| v in rest && rest[v] == x;
        assert v in m && m[v] == x;
      }
    }
  }

  /** A map with as many values as keys sends no two keys to one value. */
  lemma {:induction false} Pigeonhole(m: map<string, string>)
    ensures |m.Values| <= |m.Keys|
    ensures |m.Values| == |m.Keys| ==> OneToOne(m)
    decreases |m.Keys|
  {
    if m.Keys == {} {
      assert m.Values == {};
    } else {
      var u :| u in m;
      var rest := m - {u};
      assert rest.Keys == m.Keys - {u};
      Pigeonhole(rest);
      ValuesWithout(m, u);
      if |m.Values| == |m.Keys| {
        assert m[u] !in rest.Values;
        forall v, w | v in m && w in m && v != w ensures m[v] != m[w] {
          if v != u { assert v in rest && rest[v] in rest.Values; }
          if w != u { assert w in rest && rest[w] in rest.Values; }
        }
      }
    }
  }
}
