/** Counting the values of a table, as the counts of the conversion report do. */
module Tally {
  function Having<V(==)>(names: seq<string>, table: map<string, V>, v: V): set<string> {
    set f | f in names && f in table && table[f] == v
  }

  lemma HavingNext<V>(names: seq<string>, table: map<string, V>, v: V, i: nat)
    requires i < |names| && names[i] !in names[..i] && names[i] in table
    ensures Having(names[..i + 1], table, v) ==
      Having(names[..i], table, v) + (if table[names[i]] == v then {names[i]} else {})
  {
    assert names[..i + 1] == names[..i] + [names[i]];
  }

  /** sum(value == v for value in table.values()). */
  method Count<V(==)>(names: seq<string>, table: map<string, V>, v: V) returns (n: nat)
    requires (forall f <- names :: f in table) && forall i, j | 0 <= i < j < |names| :: names[i] != names[j]
    ensures n == |Having(names, table, v)|
  {
    n := 0;
    for i := 0 to |names|
      invariant n == |Having(names[..i], table, v)|
    {
      HavingNext(names, table, v, i);
      assert names[i] !in Having(names[..i], table, v);
      if table[names[i]] == v { n := n + 1; }
    }
    assert names[..|names|] == names;
  }

  /** Counts over a partition of the names add up. */
  lemma {:induction false} CountsAddUp<V>(names: seq<string>, table: map<string, V>, a: V, b: V, c: V)
    requires (forall f <- names :: f in table) && forall i, j | 0 <= i < j < |names| :: names[i] != names[j]
    requires a != b && a != c && b != c && forall f <- names :: table[f] == a || table[f] == b || table[f] == c
    ensures |Having(names, table, a)| + |Having(names, table, b)| + |Having(names, table, c)| == |names|
  {
    if names != [] {
      var n := |names| - 1;
      CountsAddUp(names[..n], table, a, b, c);
      assert names[..n + 1] == names;
      HavingNext(names, table, a, n);
      HavingNext(names, table, b, n);
      HavingNext(names, table, c, n);
    }
  }
}
