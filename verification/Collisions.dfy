/** _collision_sets: the fixtures whose route assignments cannot all be written to one tree. */
module Collisions {
  import opened Ordering
  import opened Evidence
  import opened Verdicts

  /** Some other fixture has the same key. */
  ghost predicate Shares(keyOf: map<string, string>, f: string) {
    f in keyOf && exists g <- keyOf :: g != f && keyOf[g] == keyOf[f]
  }

  ghost predicate GroupedBy(keyOf: map<string, string>, seen: set<string>, groups: map<string, seq<string>>) {
    && (forall k <- groups, f :: f in groups[k] <==> f in seen && f in keyOf && keyOf[f] == k)
    && (forall k <- groups, i, j | 0 <= i < j < |groups[k]| :: groups[k][i] != groups[k][j])
    && (forall f <- seen :: f in keyOf && keyOf[f] in groups)
  }

  lemma GroupOneMore(keyOf: map<string, string>, seen: set<string>, groups: map<string, seq<string>>, f: string)
    requires GroupedBy(keyOf, seen, groups) && f !in seen && f in keyOf
    ensures var group := if keyOf[f] in groups then groups[keyOf[f]] else [];
      GroupedBy(keyOf, seen + {f}, groups[keyOf[f] := group + [f]])
  {
  }

  /** defaultdict(list) filled in iteration order. */
  method GroupBy(keyOf: map<string, string>) returns (groups: map<string, seq<string>>)
    ensures GroupedBy(keyOf, keyOf.Keys, groups)
  {
    groups := map[];
    var names := SortedList(keyOf.Keys);
    for i := 0 to |names|
      invariant GroupedBy(keyOf, Elements(names[..i]), groups)
    {
      assert names[..i + 1] == names[..i] + [names[i]];
      assert Elements(names[..i + 1]) == Elements(names[..i]) + {names[i]};
      GroupOneMore(keyOf, Elements(names[..i]), groups, names[i]);
      var k := keyOf[names[i]];
      groups := groups[k := (if k in groups then groups[k] else []) + [names[i]]];
    }
    assert names[..|names|] == names;
    assert Elements(names) == keyOf.Keys;
  }

  /** A group is crowded exactly when its members share their key. */
  lemma CrowdedShares(keyOf: map<string, string>, groups: map<string, seq<string>>, k: string, f: string)
    requires GroupedBy(keyOf, keyOf.Keys, groups) && k in groups && f in groups[k]
    ensures |groups[k]| > 1 <==> Shares(keyOf, f)
  {
    var i :| 0 <= i < |groups[k]| && groups[k][i] == f;
    if |groups[k]| > 1 {
      var g := if i == 0 then groups[k][1] else groups[k][0];
      assert g in groups[k] && g != f;
      assert g in keyOf && keyOf[g] == keyOf[f];
    }
    if Shares(keyOf, f) {
      var g :| g in keyOf && g != f && keyOf[g] == keyOf[f];
      assert g in groups[k];
    }
  }

  predicate Mentions(conflicts: seq<Conflict>, f: string) {
    exists c <- conflicts :: Named(c, f)
  }

  /** Every conflict is one of the three kinds and names someone. */
  predicate Populated(conflicts: seq<Conflict>) {
    forall c <- conflicts :: (c.DuplicateRoute? || c.FoldedDestination? || c.FileDirectory?) && c.fixtures != []
  }

  predicate Named(c: Conflict, f: string) {
    (c.DuplicateRoute? || c.FoldedDestination? || c.FileDirectory?) && f in c.fixtures
  }

  lemma MentionsConcat(a: seq<Conflict>, b: seq<Conflict>, f: string)
    ensures Mentions(a + b, f) <==> Mentions(a, f) || Mentions(b, f)
  {
    if Mentions(a, f) { var c :| c in a && Named(c, f); assert c in a + b; }
    if Mentions(b, f) { var c :| c in b && Named(c, f); assert c in a + b; }
    if Mentions(a + b, f) { var c :| c in a + b && Named(c, f); assert c in a || c in b; }
  }

  /** One conflict for each crowded group. */
  method CrowdedGroups(keyOf: map<string, string>, byRoute: bool) returns (conflicts: seq<Conflict>)
    ensures forall f: string :: Mentions(conflicts, f) <==> Shares(keyOf, f)
    ensures Populated(conflicts)
  {
    conflicts := [];
    var groups := GroupBy(keyOf);
    var keys := SortedList(groups.Keys);
    for i := 0 to |keys|
      invariant forall f: string :: Mentions(conflicts, f) <==> Shares(keyOf, f) && keyOf[f] in keys[..i]
      invariant Populated(conflicts)
    {
      var k := keys[i];
      var members := SortedList(Elements(groups[k]));
      var before := conflicts;
      assert keys[..i + 1] == keys[..i] + [k];
      var c := if byRoute then DuplicateRoute(k, members) else FoldedDestination(k, members);
      if |groups[k]| > 1 {
        assert groups[k][0] in members;
        conflicts := conflicts + [c];
      }
      forall f: string ensures Mentions(conflicts, f) <==> Shares(keyOf, f) && keyOf[f] in keys[..i + 1] {
        GroupMentions(keyOf, groups, k, before, conflicts, c, f);
      }
    }
    assert keys[..|keys|] == keys;
    forall f: string | Shares(keyOf, f) ensures keyOf[f] in keys { assert keyOf[f] in groups; }
  }

  lemma GroupMentions(keyOf: map<string, string>, groups: map<string, seq<string>>, k: string,
                      before: seq<Conflict>, after: seq<Conflict>, c: Conflict, f: string)
    requires GroupedBy(keyOf, keyOf.Keys, groups) && k in groups
    requires (c.DuplicateRoute? || c.FoldedDestination?) && (forall x :: x in c.fixtures <==> x in groups[k])
    requires after == if |groups[k]| > 1 then before + [c] else before
    ensures Mentions(after, f) <==> Mentions(before, f) || (Shares(keyOf, f) && keyOf[f] == k)
  {
    if |groups[k]| > 1 { MentionsConcat(before, [c], f); }
    assert Mentions([c], f) <==> Named(c, f) by { assert [c][0] == c; }
    if f in keyOf && keyOf[f] == k {
      assert f in groups[k];
      CrowdedShares(keyOf, groups, k, f);
    }
    assert Named(c, f) <==> f in groups[k];
  }

  // ------------------------------------------------------------ files against directories

  /** f's destination lies on the way to g's, or g's on the way to f's. */
  predicate Nested(dest: map<string, string>, f: string, g: string)
    requires f in dest && g in dest
  {
    PathParts(dest[f]) < PathParts(dest[g]) || PathParts(dest[g]) < PathParts(dest[f])
  }

  /** The inner loop for one file against all others. */
  method FileAgainstAll(dest: map<string, string>, all: seq<string>, f: string) returns (conflicts: seq<Conflict>)
    requires f in dest && forall g :: g in all <==> g in dest
    ensures forall x: string :: Mentions(conflicts, x) <==>
      exists g <- dest :: g != f && PathParts(dest[f]) < PathParts(dest[g]) && (x == f || x == g)
    ensures Populated(conflicts)
  {
    conflicts := [];
    for i := 0 to |all|
      invariant forall x: string :: Mentions(conflicts, x) <==>
        exists g <- all[..i] :: g != f && PathParts(dest[f]) < PathParts(dest[g]) && (x == f || x == g)
      invariant Populated(conflicts)
    {
      var g := all[i];
      var before := conflicts;
      assert all[..i + 1] == all[..i] + [g];
      if g != f && PathParts(dest[f]) < PathParts(dest[g]) {
        var pair := SortedList({f, g});
        assert f in pair;
        var c := FileDirectory(dest[f], pair);
        conflicts := conflicts + [c];
        forall x: string ensures Mentions(conflicts, x) <==> Mentions(before, x) || x == f || x == g {
          MentionsConcat(before, [c], x);
          assert Mentions([c], x) <==> Named(c, x) by { assert [c][0] == c; }
        }
      }
    }
    assert all[..|all|] == all;
  }

  method FileDirectoryConflicts(dest: map<string, string>) returns (conflicts: seq<Conflict>)
    ensures forall f: string :: Mentions(conflicts, f) <==> NestedWithSome(dest, f)
    ensures Populated(conflicts)
  {
    conflicts := [];
    var all := SortedList(dest.Keys);
    for i := 0 to |all|
      invariant forall x: string :: Mentions(conflicts, x) <==>
        exists f <- all[..i], g <- dest :: g != f && PathParts(dest[f]) < PathParts(dest[g]) && (x == f || x == g)
      invariant Populated(conflicts)
    {
      assert all[..i + 1] == all[..i] + [all[i]];
      var more := FileAgainstAll(dest, all, all[i]);
      forall x: string ensures Mentions(conflicts + more, x) <==> Mentions(conflicts, x) || Mentions(more, x) {
        MentionsConcat(conflicts, more, x);
      }
      conflicts := conflicts + more;
    }
    assert all[..|all|] == all;
  }

  // ------------------------------------------------------------ all three kinds together

  ghost predicate ClashesInTable(w: World, routes: map<string, string>, f: string) {
    f in routes && exists g <- routes :: g != f && Clash(w, f, routes[f], g, routes[g])
  }

  function Destinations(routes: map<string, string>): map<string, string> {
    map f | f in routes :: DestinationOf(f, routes[f])
  }

  function Folded(w: World, routes: map<string, string>): map<string, string> {
    map f | f in routes :: w.fold(DestinationOf(f, routes[f]))
  }

  ghost predicate NestedWithSome(dest: map<string, string>, f: string) {
    f in dest && exists g <- dest :: g != f && Nested(dest, f, g)
  }

  /** A clash is a shared route, a shared folded destination, or one destination inside another. */
  lemma ClashKinds(w: World, routes: map<string, string>, f: string)
    ensures ClashesInTable(w, routes, f) <==>
      Shares(routes, f) || Shares(Folded(w, routes), f) || NestedWithSome(Destinations(routes), f)
  {
    if ClashesInTable(w, routes, f) {
      var g :| g in routes && g != f && Clash(w, f, routes[f], g, routes[g]);
      if w.fold(DestinationOf(f, routes[f])) == w.fold(DestinationOf(g, routes[g])) {
        assert g in Folded(w, routes) && Folded(w, routes)[g] == Folded(w, routes)[f];
      } else if routes[f] != routes[g] {
        assert g in Destinations(routes) && Nested(Destinations(routes), f, g);
      }
    }
    if Shares(routes, f) {
      var g :| g in routes && g != f && routes[g] == routes[f];
      assert Clash(w, f, routes[f], g, routes[g]);
    }
    if Shares(Folded(w, routes), f) {
      var g :| g in Folded(w, routes) && g != f && Folded(w, routes)[g] == Folded(w, routes)[f];
      assert Clash(w, f, routes[f], g, routes[g]);
    }
    if NestedWithSome(Destinations(routes), f) {
      var g :| g in Destinations(routes) && g != f && Nested(Destinations(routes), f, g);
      assert Clash(w, f, routes[f], g, routes[g]);
    }
  }

  /** A fixture is in some conflict exactly when its assignment clashes with another one. */
  method CollisionSets(w: World, routes: map<string, string>) returns (conflicts: seq<Conflict>)
    ensures forall f: string :: Mentions(conflicts, f) <==> ClashesInTable(w, routes, f)
    ensures Populated(conflicts)
  {
    var a := CrowdedGroups(routes, true);
    var b := CrowdedGroups(Folded(w, routes), false);
    var c := FileDirectoryConflicts(Destinations(routes));
    conflicts := a + b + c;
    forall f: string ensures Mentions(conflicts, f) <==> ClashesInTable(w, routes, f) {
      MentionsConcat(a + b, c, f);
      MentionsConcat(a, b, f);
      ClashKinds(w, routes, f);
    }
  }
}
