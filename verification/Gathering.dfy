/** build_conversion up to the end of the link walk: all the evidence about which route each fixture has. */
module Gathering {
  import opened Wrappers
  import opened JsonModel
  import opened Ordering
  import opened Routes
  import opened RouteFacts
  import opened Evidence
  import opened Discovery
  import opened Determinism
  import opened Verdicts
  import opened Collisions
  import opened Settling

  // ------------------------------------------------------------ folded fixture names

  ghost predicate NamesApart(w: World, names: seq<string>) {
    forall f, g | f in names && g in names && f != g :: w.fold(f) != w.fold(g)
  }

  method FoldedNameConflicts(w: World, names: seq<string>) returns (conflicts: seq<Conflict>)
    ensures conflicts == [] <==> NamesApart(w, names)
  {
    var keyOf := map f | f in names :: w.fold(f);
    var groups := GroupBy(keyOf);
    var keys := SortedList(groups.Keys);
    conflicts := [];
    for i := 0 to |keys|
      invariant conflicts == [] <==> forall j | 0 <= j < i :: |groups[keys[j]]| <= 1
    {
      assert keys[i] in groups;
      if |groups[keys[i]]| > 1 {
        var members := SortedList(Elements(groups[keys[i]]));
        conflicts := conflicts + [FoldedNames(members)];
      }
    }
    AllGroupsSmall(keyOf, groups);
    ApartIsUnshared(w, names, keyOf);
    assert forall k <- groups :: k in keys;
    assert conflicts == [] <==> forall k <- groups :: |groups[k]| <= 1;
  }

  lemma ApartIsUnshared(w: World, names: seq<string>, keyOf: map<string, string>)
    requires (forall f :: f in keyOf <==> f in names) && forall f <- keyOf :: keyOf[f] == w.fold(f)
    ensures NamesApart(w, names) <==> forall f <- keyOf :: !Shares(keyOf, f)
  {
    if !NamesApart(w, names) {
      var f, g :| f in names && g in names && f != g && w.fold(f) == w.fold(g);
      assert f in keyOf && g in keyOf && Shares(keyOf, f);
    }
  }

  lemma AllGroupsSmall(keyOf: map<string, string>, groups: map<string, seq<string>>)
    requires GroupedBy(keyOf, keyOf.Keys, groups)
    ensures (forall k <- groups :: |groups[k]| <= 1) <==> forall f <- keyOf :: !Shares(keyOf, f)
  {
    forall f <- keyOf ensures keyOf[f] in groups && (|groups[keyOf[f]]| > 1 <==> Shares(keyOf, f)) {
      assert f in groups[keyOf[f]];
      CrowdedShares(keyOf, groups, keyOf[f], f);
    }
    forall k <- groups ensures |groups[k]| > 1 ==> exists f :: f in keyOf && Shares(keyOf, f) {
      if |groups[k]| > 1 {
        assert groups[k][0] in groups[k];
        CrowdedShares(keyOf, groups, k, groups[k][0]);
      }
    }
  }

  // ------------------------------------------------------------ collecting the evidence

  /** The first pass, the route map, the ServiceRoot anchor and the walk, in that order. */
  ghost predicate Gathered(w: World, files: map<string, Bytes>, names: seq<string>,
                           t1: Tables, t2: Tables, t3: Tables, t4: Tables, l: Ledger)
  {
    && (forall f <- names :: f in files && FirstPassOf(w, files, t1, l.status, l.reasons, f))
    && (forall f: string | f !in names :: Untouched(t1, l.status, l.reasons, f))
    && Grew(t1, t2, {RouteMap}) && Grew(t2, t3, {RootAnchor}) && Grew(t3, t4, {Discovered})
    && RoutesWellFormed(t4)
  }

  lemma GatheredCollects(w: World, files: map<string, Bytes>, names: seq<string>,
                         t1: Tables, t2: Tables, t3: Tables, t4: Tables, l: Ledger)
    requires Sound(w) && Gathered(w, files, names, t1, t2, t3, t4, l)
    requires forall i, j | 0 <= i < j < |names| :: names[i] != names[j]
    ensures Collected(Case(w, files, names, t4))
  {
    forall f: string ensures TopLevelFrom(w, t4, f) {
      if f !in names { assert Untouched(t1, l.status, l.reasons, f); }
      FirstPassFacts(w, files, t1, l.status, l.reasons, f);
      GrowthKeepsTopLevel(w, t1, t2, {RouteMap}, f);
      GrowthKeepsTopLevel(w, t2, t3, {RootAnchor}, f);
      GrowthKeepsTopLevel(w, t3, t4, {Discovered}, f);
    }
    forall f <- t4.parsed
      ensures f in names && Preclassified(w, f, files[f]).None? && f != METADATA_FIXTURE
      ensures w.parse(files[f]) == Some(t4.parsed[f])
    {
      assert !Untouched(t1, l.status, l.reasons, f);
      assert FirstPassOf(w, files, t1, l.status, l.reasons, f);
    }
  }

  /** After the first pass the ledger holds the first-stage verdicts and nothing else. */
  lemma FirstPassSettles(cx: Case, t1: Tables, l: Ledger)
    requires forall f <- cx.names :: f in cx.files && FirstPassOf(cx.w, cx.files, t1, l.status, l.reasons, f)
    requires forall f: string | f !in cx.names :: Untouched(t1, l.status, l.reasons, f)
    ensures Settled(cx, 2, {}, l)
  {
    forall f: string ensures Entry(cx, l, f, f in cx.names && (Stage(cx, f) < 2 || (Stage(cx, f) == 2 && f in {}))) {
      StageBound(cx, f);
      if f in cx.names {
        assert FirstPassOf(cx.w, cx.files, t1, l.status, l.reasons, f);
      } else {
        assert Untouched(t1, l.status, l.reasons, f);
      }
    }
  }

  /** Every discovered claim comes from a link in a payload that links lead to from the ServiceRoot fixture. */
  ghost predicate DiscoveredFromRoot(w: World, names: seq<string>, t: Tables, roots: seq<string>) {
    forall f: string, v: Verdict | Claimed(t, f, Discovered, v) ::
      exists u: string, linked: string ::
        Reached(w, names, t.parsed, roots, u) && Explains(w, names, t.parsed, u, linked, f, v)
  }

  lemma GrowthTraces(w: World, names: seq<string>, t: Tables, t': Tables, sources: set<Source>, rows: seq<Row>)
    requires FromRows(w, names, t, rows) && Grew(t, t', sources) && RouteMap !in sources
    ensures FromRows(w, names, t', rows)
  {
    forall f: string, v: Verdict | Claimed(t', f, RouteMap, v)
      ensures exists row <- rows :: RowSays(w, names, row, f, v)
    {
      ClaimedEarlier(t, t', sources, f, RouteMap, v);
    }
  }

  lemma WalkTraces(w: World, names: seq<string>, t0: Tables, roots: seq<string>, t: Tables, visited: set<string>,
                   expanded: seq<string>)
    requires Walk(w, names, t0, roots, t, visited, [], expanded)
    ensures DiscoveredFromRoot(w, names, t, roots)
  {
    forall f: string, v: Verdict | Claimed(t, f, Discovered, v)
      ensures exists u: string, linked: string ::
        Reached(w, names, t.parsed, roots, u) && Explains(w, names, t.parsed, u, linked, f, v)
    {
      var u: string, linked: string :| u in Elements(expanded) && Explains(w, names, t.parsed, u, linked, f, v);
      assert Reached(w, names, t.parsed, roots, u);
    }
  }

  lemma FirstPassClaims(w: World, files: map<string, Bytes>, t: Tables, l: Ledger, f: string, v: Verdict)
    requires f in files && FirstPassOf(w, files, t, l.status, l.reasons, f)
    ensures !Claimed(t, f, RouteMap, v) && !Claimed(t, f, Discovered, v)
  {
  }

  lemma FirstPassSources(w: World, files: map<string, Bytes>, names: seq<string>, t: Tables, l: Ledger)
    requires Sound(w)
    requires forall f <- names :: f in files && FirstPassOf(w, files, t, l.status, l.reasons, f)
    requires forall f: string | f !in names :: Untouched(t, l.status, l.reasons, f)
    ensures RoutesWellFormed(t) && NoneFrom(t, RouteMap) && NoneFrom(t, Discovered)
  {
    forall f: string, c | c in ClaimsOf(t, f).candidates ensures WellFormed(c.route) {
      assert !Untouched(t, l.status, l.reasons, f);
      FirstPassFacts(w, files, t, l.status, l.reasons, f);
    }
    forall f: string, v: Verdict ensures !Claimed(t, f, RouteMap, v) && !Claimed(t, f, Discovered, v) {
      if f in names { FirstPassClaims(w, files, t, l, f, v); } else { assert Untouched(t, l.status, l.reasons, f); }
    }
  }

  lemma GrowthSources(t: Tables, t': Tables, sources: set<Source>, source: Source)
    requires NoneFrom(t, source) && Grew(t, t', sources) && source !in sources
    ensures NoneFrom(t', source)
  {
    forall f: string, v: Verdict ensures !Claimed(t', f, source, v) {
      if Claimed(t', f, source, v) { ClaimedEarlier(t, t', sources, f, source, v); }
    }
  }

  lemma RootIsWellFormed()
    ensures WellFormed(SERVICE_ROOT)
  {
  }

  /** The service-root-anchor candidate. */
  method AnchorRoot(w: World, t: Tables, roots: seq<string>) returns (t': Tables)
    requires Sound(w) && RoutesWellFormed(t)
    ensures Grew(t, t', {RootAnchor}) && RoutesWellFormed(t')
    ensures Some(t') == if |roots| == 1 then AddCandidate(w, t, roots[0], RootAnchor, SERVICE_ROOT) else Some(t)
  {
    if |roots| == 1 {
      RootIsWellFormed();
      t' := AddCandidate(w, t, roots[0], RootAnchor, SERVICE_ROOT).value;
      AddGrows(w, t, roots[0], RootAnchor, SERVICE_ROOT);
    } else {
      GrewNot(t, {RootAnchor});
      t' := t;
    }
  }

  /** The tables after each step, and the visits of the walk. */
  datatype Trail = Trail(first: Tables, mapped: Tables, anchored: Tables, log: seq<Visit>)

  /** What the first pass claims: for each fixture it does not settle, what its own payload names, and nothing else. */
  ghost predicate FirstClaimsOf(w: World, files: map<string, Bytes>, names: seq<string>, t: Tables) {
    && t.parsed == ParsedFrom(w, files, names)
    && forall f: string :: if f in names && f in files && Preclassified(w, f, files[f]).None?
                           then FirstClaims(w, f, files[f]) == Some(ClaimsOf(t, f)) else ClaimsOf(t, f) == NO_CLAIMS
  }

  /** What each step before the walk adds, and the walk's visits. */
  ghost predicate Tracked(w: World, files: map<string, Bytes>, names: seq<string>, rows: seq<Row>, trail: Trail) {
    var roots := Matches(w, names, ROOT_FIXTURE);
    && FirstClaimsOf(w, files, names, trail.first)
    && Grew(trail.first, trail.mapped, {RouteMap}) && FromRows(w, names, trail.mapped, rows)
    && (forall row <- rows :: RowApplied(w, names, trail.mapped, row))
    && Grew(trail.mapped, trail.anchored, {RootAnchor})
    && Some(trail.anchored) == Anchored(w, trail.mapped, roots)
    && History(w, names, trail.anchored, roots, trail.log)
    && Stops(w, names, trail.anchored.parsed, roots, trail.log)
  }

  function Anchored(w: World, t: Tables, roots: seq<string>): Option<Tables> {
    if |roots| == 1 then AddCandidate(w, t, roots[0], RootAnchor, SERVICE_ROOT) else Some(t)
  }

  /** The evidence is all of it: no claim is missing and none is made up. */
  ghost predicate Evidenced(cx: Case, rows: seq<Row>, trail: Trail) {
    var roots := Matches(cx.w, cx.names, ROOT_FIXTURE);
    && Tracked(cx.w, cx.files, cx.names, rows, trail)
    && Walk(cx.w, cx.names, trail.anchored, roots, cx.t, Visited(trail.log), [], Expanded(trail.log))
    && (forall v <- trail.log :: Grew(v.at, cx.t, {Discovered}))
    && FromRows(cx.w, cx.names, cx.t, rows) && DiscoveredFromRoot(cx.w, cx.names, cx.t, roots)
  }

  /** A top-level @odata.id, or the route of a row with one fixture, makes urlsplit raise. */
  ghost predicate RaisesEarly(w: World, files: map<string, Bytes>, names: seq<string>, rows: seq<Row>) {
    || (exists f <- names :: f in files && Preclassified(w, f, files[f]).None? && FirstClaims(w, f, files[f]).None?)
    || (exists row <- rows :: RowTarget(w, names, row).Some? && w.canon(row.route).Crash?)
  }

  /** A link of a fixture that the walk is to expand makes urlsplit raise. */
  ghost predicate WalkJams(w: World, files: map<string, Bytes>, names: seq<string>, rows: seq<Row>) {
    exists trail :: Tracked(w, files, names, rows, trail) && Jammed(w, ParsedFrom(w, files, names), trail.log)
  }

  /** urlsplit raises before the walk or in it. */
  ghost predicate Derails(w: World, files: map<string, Bytes>, names: seq<string>, rows: seq<Row>) {
    RaisesEarly(w, files, names, rows) || WalkJams(w, files, names, rows)
  }

  /** The fixtures that parse to an object or an array. */
  function ParsedFrom(w: World, files: map<string, Bytes>, names: seq<string>): map<string, Json> {
    map f | f in names && f in files && f != METADATA_FIXTURE && Preclassified(w, f, files[f]).None?
            && w.parse(files[f]).Some?
      :: w.parse(files[f]).value
  }

  lemma ParsedIs(w: World, files: map<string, Bytes>, names: seq<string>, t: Tables, l: Ledger)
    requires forall f <- names :: f in files && FirstPassOf(w, files, t, l.status, l.reasons, f)
    requires forall f: string | f !in names :: Untouched(t, l.status, l.reasons, f)
    ensures t.parsed == ParsedFrom(w, files, names)
  {
    forall f: string ensures f in t.parsed <==> f in ParsedFrom(w, files, names) {
      if f !in names { assert Untouched(t, l.status, l.reasons, f); }
      else { assert FirstPassOf(w, files, t, l.status, l.reasons, f); }
    }
    forall f <- t.parsed ensures t.parsed[f] == ParsedFrom(w, files, names)[f] {
      assert FirstPassOf(w, files, t, l.status, l.reasons, f);
    }
  }

  lemma FirstClaimsAre(w: World, files: map<string, Bytes>, names: seq<string>, t: Tables, l: Ledger)
    requires forall f <- names :: f in files && FirstPassOf(w, files, t, l.status, l.reasons, f)
    requires forall f: string | f !in names :: Untouched(t, l.status, l.reasons, f)
    ensures FirstClaimsOf(w, files, names, t)
  {
    ParsedIs(w, files, names, t, l);
    forall f: string
      ensures if f in names && f in files && Preclassified(w, f, files[f]).None?
              then FirstClaims(w, f, files[f]) == Some(ClaimsOf(t, f)) else ClaimsOf(t, f) == NO_CLAIMS
    {
      assert f in names ==> FirstPassOf(w, files, t, l.status, l.reasons, f);
      assert f !in names ==> Untouched(t, l.status, l.reasons, f);
    }
  }

  lemma EvidenceComplete(cx: Case, rows: seq<Row>, trail: Trail, l: Ledger)
    requires Sound(cx.w) && forall i, j | 0 <= i < j < |cx.names| :: cx.names[i] != cx.names[j]
    requires forall f <- cx.names :: f in cx.files && FirstPassOf(cx.w, cx.files, trail.first, l.status, l.reasons, f)
    requires forall f: string | f !in cx.names :: Untouched(trail.first, l.status, l.reasons, f)
    requires Tracked(cx.w, cx.files, cx.names, rows, trail) && (forall v <- trail.log :: Grew(v.at, cx.t, {Discovered}))
    requires var roots := Matches(cx.w, cx.names, ROOT_FIXTURE);
      Walk(cx.w, cx.names, trail.anchored, roots, cx.t, Visited(trail.log), [], Expanded(trail.log))
    ensures Collected(cx) && Settled(cx, 2, {}, l) && Evidenced(cx, rows, trail)
  {
    var roots := Matches(cx.w, cx.names, ROOT_FIXTURE);
    GatheredCollects(cx.w, cx.files, cx.names, trail.first, trail.mapped, trail.anchored, cx.t, l);
    FirstPassSettles(cx, trail.first, l);
    GrowthTraces(cx.w, cx.names, trail.mapped, trail.anchored, {RootAnchor}, rows);
    GrowthTraces(cx.w, cx.names, trail.anchored, cx.t, {Discovered}, rows);
    WalkTraces(cx.w, cx.names, trail.anchored, roots, cx.t, Visited(trail.log), Expanded(trail.log));
  }

  // ------------------------------------------------------------ the archive determines the evidence

  lemma FirstSame(w: World, files: map<string, Bytes>, names: seq<string>, a: Tables, b: Tables)
    requires FirstClaimsOf(w, files, names, a) && FirstClaimsOf(w, files, names, b)
    ensures SameClaims(a, b)
  {
    forall f: string, s: Source, v: Verdict ensures Claimed(a, f, s, v) <==> Claimed(b, f, s, v) {
      assert ClaimsOf(a, f) == ClaimsOf(b, f);
    }
  }

  lemma RowClaimKept(w: World, names: seq<string>, a: Tables, b: Tables, rows: seq<Row>, f: string, v: Verdict)
    requires FromRows(w, names, a, rows) && Claimed(a, f, RouteMap, v)
    requires forall row <- rows :: RowApplied(w, names, b, row)
    ensures Claimed(b, f, RouteMap, v)
  {
    var row :| row in rows && RowSays(w, names, row, f, v);
    assert RowApplied(w, names, b, row);
  }

  lemma MappedSame(w: World, names: seq<string>, rows: seq<Row>, a: Tables, b: Tables, a': Tables, b': Tables)
    requires SameClaims(a, b) && Grew(a, a', {RouteMap}) && Grew(b, b', {RouteMap})
    requires FromRows(w, names, a', rows) && FromRows(w, names, b', rows)
    requires forall row <- rows :: RowApplied(w, names, a', row) && RowApplied(w, names, b', row)
    ensures SameClaims(a', b')
  {
    forall f: string, s: Source, v: Verdict | s in {RouteMap} ensures Claimed(a', f, s, v) <==> Claimed(b', f, s, v) {
      if Claimed(a', f, s, v) { RowClaimKept(w, names, a', b', rows, f, v); }
      if Claimed(b', f, s, v) { RowClaimKept(w, names, b', a', rows, f, v); }
    }
    SameGrowth(a, b, a', b', {RouteMap});
  }

  lemma AnchorKept(w: World, a: Tables, b: Tables, a': Tables, b': Tables, root: string, f: string, v: Verdict)
    requires SameClaims(a, b) && Grew(b, b', {RootAnchor}) && Claimed(a', f, RootAnchor, v)
    requires AddCandidate(w, a, root, RootAnchor, SERVICE_ROOT) == Some(a')
    requires AddCandidate(w, b, root, RootAnchor, SERVICE_ROOT) == Some(b')
    ensures Claimed(b', f, RootAnchor, v)
  {
    ClaimedBefore(w, a, a', root, RootAnchor, SERVICE_ROOT, f, RootAnchor, v);
    if Claimed(a, f, RootAnchor, v) { ClaimedLater(b, b', {RootAnchor}, f, RootAnchor, v); }
  }

  lemma AnchoredSame(w: World, roots: seq<string>, a: Tables, b: Tables, a': Tables, b': Tables)
    requires SameClaims(a, b) && Grew(a, a', {RootAnchor}) && Grew(b, b', {RootAnchor})
    requires Anchored(w, a, roots) == Some(a') && Anchored(w, b, roots) == Some(b')
    ensures SameClaims(a', b')
  {
    if |roots| == 1 {
      forall f: string, s: Source, v: Verdict | s in {RootAnchor}
        ensures Claimed(a', f, s, v) <==> Claimed(b', f, s, v)
      {
        if Claimed(a', f, s, v) { AnchorKept(w, a, b, a', b', roots[0], f, v); }
        if Claimed(b', f, s, v) { AnchorKept(w, b, a, b', a', roots[0], f, v); }
      }
      SameGrowth(a, b, a', b', {RootAnchor});
    }
  }

  /** Any two trails of an archive agree on the claims before the walk, on the visits, and on whether the walk jams. */
  lemma TrailIsDetermined(w: World, files: map<string, Bytes>, names: seq<string>, rows: seq<Row>, a: Trail, b: Trail)
    requires Tracked(w, files, names, rows, a) && Tracked(w, files, names, rows, b)
    ensures SameClaims(a.anchored, b.anchored) && SameVisits(a.log, b.log) && Expanded(a.log) == Expanded(b.log)
    ensures a.anchored.parsed == ParsedFrom(w, files, names) == b.anchored.parsed
    ensures Jammed(w, a.anchored.parsed, a.log) <==> Jammed(w, b.anchored.parsed, b.log)
  {
    var roots := Matches(w, names, ROOT_FIXTURE);
    FirstSame(w, files, names, a.first, b.first);
    MappedSame(w, names, rows, a.first, b.first, a.mapped, b.mapped);
    AnchoredSame(w, roots, a.mapped, b.mapped, a.anchored, b.anchored);
    WalkIsDetermined(w, names, a.anchored, b.anchored, roots, a.log, b.log);
  }

  lemma JamIsDetermined(w: World, files: map<string, Bytes>, names: seq<string>, rows: seq<Row>, trail: Trail)
    requires Tracked(w, files, names, rows, trail)
    ensures WalkJams(w, files, names, rows) <==> Jammed(w, ParsedFrom(w, files, names), trail.log)
  {
    if WalkJams(w, files, names, rows) {
      var other :| Tracked(w, files, names, rows, other) && Jammed(w, ParsedFrom(w, files, names), other.log);
      TrailIsDetermined(w, files, names, rows, other, trail);
    }
  }

  lemma WalkApplied(w: World, names: seq<string>, t0: Tables, roots: seq<string>, t: Tables, visited: set<string>,
                    expanded: seq<string>)
    requires Walk(w, names, t0, roots, t, visited, [], expanded)
    ensures forall u <- expanded :: AllApplied(w, names, t, u)
  {
    forall u <- expanded ensures AllApplied(w, names, t, u) {
      assert Followed(w, names, t, u, visited, []);
    }
  }

  /** Any two bodies of evidence for an archive make the same claims. */
  lemma EvidenceIsDetermined(a: Case, b: Case, rows: seq<Row>, ta: Trail, tb: Trail)
    requires a.w == b.w && a.files == b.files && a.names == b.names && Evidenced(a, rows, ta) && Evidenced(b, rows, tb)
    ensures SameClaims(a.t, b.t)
  {
    var roots := Matches(a.w, a.names, ROOT_FIXTURE);
    TrailIsDetermined(a.w, a.files, a.names, rows, ta, tb);
    WalkApplied(a.w, a.names, ta.anchored, roots, a.t, Visited(ta.log), Expanded(ta.log));
    WalkApplied(b.w, b.names, tb.anchored, roots, b.t, Visited(tb.log), Expanded(tb.log));
    SameAfterLinks(a.w, a.names, ta.anchored, tb.anchored, a.t, b.t, Expanded(ta.log));
  }

  const NO_TABLES := Tables(map[], map[])

  /** What holds before the walk. */
  ghost predicate Prepared(w: World, files: map<string, Bytes>, names: seq<string>, rows: seq<Row>, t1: Tables,
                           t2: Tables, t3: Tables, l: Ledger)
  {
    var roots := Matches(w, names, ROOT_FIXTURE);
    && (forall f <- names :: f in files && FirstPassOf(w, files, t1, l.status, l.reasons, f))
    && (forall f: string | f !in names :: Untouched(t1, l.status, l.reasons, f))
    && FirstClaimsOf(w, files, names, t1)
    && Grew(t1, t2, {RouteMap}) && FromRows(w, names, t2, rows) && (forall row <- rows :: RowApplied(w, names, t2, row))
    && Grew(t2, t3, {RootAnchor}) && Some(t3) == Anchored(w, t2, roots)
    && RoutesWellFormed(t3) && NoneFrom(t3, Discovered)
  }

  /** The first pass, the route map and the anchor; None when urlsplit raises. */
  method Prepare(w: World, files: map<string, Bytes>, names: seq<string>, rows: seq<Row>)
    returns (r: Option<(Tables, Tables, Tables, Ledger)>, conflicts: seq<Conflict>)
    requires Sound(w) && forall f <- names :: f in files
    requires forall i, j | 0 <= i < j < |names| :: names[i] != names[j]
    ensures r.None? <==> RaisesEarly(w, files, names, rows)
    ensures r.Some? ==> Prepared(w, files, names, rows, r.value.0, r.value.1, r.value.2, r.value.3)
    ensures r.Some? ==>
      (conflicts == [] <==> NamesApart(w, names) && forall row <- rows :: RowTarget(w, names, row).Some?)
  {
    conflicts := FoldedNameConflicts(w, names);
    var first := FirstPass(w, files, names);
    if first.None? { return None, conflicts; }
    var t1, l := first.value.0, Ledger(first.value.1, first.value.2);
    FirstPassSources(w, files, names, t1, l);
    FirstClaimsAre(w, files, names, t1, l);
    var mapped, more := ApplyRouteMap(w, names, t1, rows);
    conflicts := conflicts + more;
    if mapped.None? { return None, conflicts; }
    var t2 := mapped.value;
    var t3 := AnchorRoot(w, t2, Matches(w, names, ROOT_FIXTURE));
    GrowthSources(t1, t2, {RouteMap}, Discovered);
    GrowthSources(t2, t3, {RootAnchor}, Discovered);
    r := Some((t1, t2, t3, l));
  }

  /** Everything up to the end of the walk; None when urlsplit raises. */
  method Collect(w: World, files: map<string, Bytes>, names: seq<string>, rows: seq<Row>)
    returns (r: Option<(Tables, Ledger)>, conflicts: seq<Conflict>, trail: Trail)
    requires Sound(w) && forall f <- names :: f in files
    requires forall i, j | 0 <= i < j < |names| :: names[i] != names[j]
    ensures r.None? <==> Derails(w, files, names, rows)
    ensures !RaisesEarly(w, files, names, rows) ==> Tracked(w, files, names, rows, trail)
    ensures r.Some? ==> var cx := Case(w, files, names, r.value.0);
      Collected(cx) && Settled(cx, 2, {}, r.value.1) && Evidenced(cx, rows, trail)
    ensures r.Some? ==>
      (conflicts == [] <==> NamesApart(w, names) && forall row <- rows :: RowTarget(w, names, row).Some?)
  {
    trail := Trail(NO_TABLES, NO_TABLES, NO_TABLES, []);
    var ready;
    ready, conflicts := Prepare(w, files, names, rows);
    if ready.None? { r := None; return; }
    var (t1, t2, t3, l) := ready.value;
    var walked, visited, log := Discover(w, names, t3, Matches(w, names, ROOT_FIXTURE));
    trail := Trail(t1, t2, t3, log);
    assert Tracked(w, files, names, rows, trail);
    JamIsDetermined(w, files, names, rows, trail);
    if walked.None? { r := None; return; }
    EvidenceComplete(Case(w, files, names, walked.value), rows, trail, l);
    r := Some((walked.value, l));
  }
}
