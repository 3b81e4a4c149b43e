/**
  The evidence is determined by the archive: the same claims lead to the same walk, and to the same claims after it.
 */
module Determinism {
  import opened JsonModel
  import opened Ordering
  import opened Routes
  import opened Evidence
  import opened Discovery

  /** The same claims, in whatever order they were made. */
  ghost predicate SameClaims(a: Tables, b: Tables) {
    a.parsed == b.parsed && forall f: string, s: Source, v: Verdict :: Claimed(a, f, s, v) <==> Claimed(b, f, s, v)
  }

  lemma SameRoutes(a: Tables, b: Tables, f: string)
    requires SameClaims(a, b)
    ensures RoutesOf(a, f) == RoutesOf(b, f)
  {
    forall r | r in RoutesOf(a, f) ensures r in RoutesOf(b, f) { RouteKept(a, b, f, r); }
    forall r | r in RoutesOf(b, f) ensures r in RoutesOf(a, f) { RouteKept(b, a, f, r); }
  }

  lemma RouteKept(a: Tables, b: Tables, f: string, route: string)
    requires SameClaims(a, b) && route in RoutesOf(a, f)
    ensures route in RoutesOf(b, f)
  {
    var c :| c in ClaimsOf(a, f).candidates && c.route == route;
    assert c == Candidate(route, c.source);
    assert Claimed(a, f, c.source, Accepted(route));
  }

  /** Growth from the same claims by the same claims of some sources ends with the same claims. */
  lemma SameGrowth(a: Tables, b: Tables, a': Tables, b': Tables, sources: set<Source>)
    requires SameClaims(a, b) && Grew(a, a', sources) && Grew(b, b', sources)
    requires forall f: string, s: Source, v: Verdict | s in sources :: Claimed(a', f, s, v) <==> Claimed(b', f, s, v)
    ensures SameClaims(a', b')
  {
    forall f: string, s: Source, v: Verdict ensures Claimed(a', f, s, v) <==> Claimed(b', f, s, v) {
      if s !in sources {
        if Claimed(a', f, s, v) { ClaimedEarlier(a, a', sources, f, s, v); ClaimedLater(b, b', sources, f, s, v); }
        if Claimed(b', f, s, v) { ClaimedEarlier(b, b', sources, f, s, v); ClaimedLater(a, a', sources, f, s, v); }
      }
    }
  }

  // ------------------------------------------------------------ the walk

  lemma LinkClaimKept(w: World, names: seq<string>, a: Tables, b: Tables, expanded: seq<string>, f: string, v: Verdict)
    requires a.parsed == b.parsed && FromLinks(w, names, a, Elements(expanded)) && Claimed(a, f, Discovered, v)
    requires forall u <- expanded :: AllApplied(w, names, b, u)
    ensures Claimed(b, f, Discovered, v)
  {
    var u: string, linked: string :| u in Elements(expanded) && Explains(w, names, a.parsed, u, linked, f, v);
    assert AllApplied(w, names, b, u);
    assert LinkApplied(w, names, b, linked);
  }

  /** The same claims before the walk and the same fixtures expanded: the same claims. */
  lemma SameAfterLinks(w: World, names: seq<string>, a: Tables, b: Tables, a': Tables, b': Tables,
                       expanded: seq<string>)
    requires SameClaims(a, b) && Grew(a, a', {Discovered}) && Grew(b, b', {Discovered})
    requires FromLinks(w, names, a', Elements(expanded)) && FromLinks(w, names, b', Elements(expanded))
    requires forall u <- expanded :: AllApplied(w, names, a', u) && AllApplied(w, names, b', u)
    ensures SameClaims(a', b')
  {
    forall f: string, s: Source, v: Verdict | s in {Discovered}
      ensures Claimed(a', f, s, v) <==> Claimed(b', f, s, v)
    {
      if Claimed(a', f, s, v) { LinkClaimKept(w, names, a', b', expanded, f, v); }
      if Claimed(b', f, s, v) { LinkClaimKept(w, names, b', a', expanded, f, v); }
    }
    SameGrowth(a, b, a', b', {Discovered});
  }

  predicate SameVisits(a: seq<Visit>, b: seq<Visit>) {
    |a| == |b| && forall i | 0 <= i < |a| :: a[i].fixture == b[i].fixture && Agreed(a[i]) == Agreed(b[i])
  }

  lemma VisitKept(a: seq<Visit>, b: seq<Visit>, f: string)
    requires SameVisits(a, b) && f in Visited(a)
    ensures f in Visited(b)
  {
    var i :| 0 <= i < |a| && a[i].fixture == f;
    assert b[i] in b;
  }

  lemma SameVisited(a: seq<Visit>, b: seq<Visit>)
    requires SameVisits(a, b)
    ensures Visited(a) == Visited(b)
  {
    forall f | f in Visited(a) ensures f in Visited(b) { VisitKept(a, b, f); }
    forall f | f in Visited(b) ensures f in Visited(a) { VisitKept(b, a, f); }
  }

  lemma {:induction false} SameExpanded(a: seq<Visit>, b: seq<Visit>)
    requires SameVisits(a, b)
    ensures Expanded(a) == Expanded(b)
  {
    if a != [] { SameExpanded(a[..|a| - 1], b[..|b| - 1]); }
  }

  lemma {:induction false} SameStream(w: World, names: seq<string>, parsed: map<string, Json>, roots: seq<string>,
                                      a: seq<Visit>, b: seq<Visit>)
    requires SameVisits(a, b)
    ensures Stream(w, names, parsed, roots, a) == Stream(w, names, parsed, roots, b)
  {
    if a != [] {
      SameStream(w, names, parsed, roots, a[..|a| - 1], b[..|b| - 1]);
      SameVisited(a, b);
    }
  }

  lemma SameLogs(w: World, names: seq<string>, parsed: map<string, Json>, roots: seq<string>, a: seq<Visit>,
                 b: seq<Visit>)
    requires SameVisits(a, b)
    ensures Visited(a) == Visited(b) && Expanded(a) == Expanded(b)
    ensures Stream(w, names, parsed, roots, a) == Stream(w, names, parsed, roots, b)
  {
    SameVisited(a, b);
    SameExpanded(a, b);
    SameStream(w, names, parsed, roots, a, b);
  }

  lemma SameJam(w: World, parsed: map<string, Json>, a: seq<Visit>, b: seq<Visit>)
    requires SameVisits(a, b) && Jammed(w, parsed, a)
    ensures Jammed(w, parsed, b)
  {
    var v :| v in a && Agreed(v) && Jams(w, parsed, v.fixture);
    var i :| 0 <= i < |a| && a[i] == v;
    assert b[i] in b;
  }

  /** Two walks from the same claims go the same way for as long as both go on. */
  lemma {:induction false} WalksAgree(w: World, names: seq<string>, ta: Tables, tb: Tables, roots: seq<string>,
                                      a: seq<Visit>, b: seq<Visit>, n: nat)
    requires SameClaims(ta, tb) && History(w, names, ta, roots, a) && History(w, names, tb, roots, b)
    requires n <= |a| && n <= |b|
    ensures SameVisits(a[..n], b[..n])
  {
    if n > 0 {
      var m := n - 1;
      WalksAgree(w, names, ta, tb, roots, a, b, m);
      SameLogs(w, names, ta.parsed, roots, a[..m], b[..m]);
      assert VisitOk(w, names, ta, roots, a, m) && VisitOk(w, names, tb, roots, b, m);
      assert a[m].fixture == b[m].fixture;
      SameAfterLinks(w, names, ta, tb, a[m].at, b[m].at, Expanded(a[..m]));
      SameRoutes(a[m].at, b[m].at, a[m].fixture);
      assert a[..n] == a[..m] + [a[m]] && b[..n] == b[..m] + [b[m]];
    }
  }

  /** A walk that has stopped is not shorter than another that has. */
  lemma NoneStopsEarly(w: World, names: seq<string>, ta: Tables, tb: Tables, roots: seq<string>, a: seq<Visit>,
                       b: seq<Visit>)
    requires SameClaims(ta, tb) && History(w, names, ta, roots, a) && History(w, names, tb, roots, b)
    requires Stops(w, names, ta.parsed, roots, a) && Stops(w, names, tb.parsed, roots, b)
    ensures |a| >= |b|
  {
    if |a| < |b| {
      var n := |a|;
      WalksAgree(w, names, ta, tb, roots, a, b, n);
      assert a[..n] == a;
      SameLogs(w, names, ta.parsed, roots, a, b[..n]);
      assert VisitOk(w, names, tb, roots, b, n);
      SameJam(w, ta.parsed, a, b[..n]);
      JamStays(w, ta.parsed, b, n);
      assert false;
    }
  }

  lemma JamStays(w: World, parsed: map<string, Json>, log: seq<Visit>, n: nat)
    requires n < |log| && Jammed(w, parsed, log[..n])
    ensures Jammed(w, parsed, Front(log))
  {
    var v :| v in log[..n] && Agreed(v) && Jams(w, parsed, v.fixture);
    assert v in Front(log);
  }

  lemma WalksSame(w: World, names: seq<string>, ta: Tables, tb: Tables, roots: seq<string>, a: seq<Visit>,
                  b: seq<Visit>)
    requires SameClaims(ta, tb) && History(w, names, ta, roots, a) && History(w, names, tb, roots, b)
    requires Stops(w, names, ta.parsed, roots, a) && Stops(w, names, tb.parsed, roots, b)
    ensures SameVisits(a, b)
  {
    NoneStopsEarly(w, names, ta, tb, roots, a, b);
    NoneStopsEarly(w, names, tb, ta, roots, b, a);
    WalksAgree(w, names, ta, tb, roots, a, b, |a|);
    assert a[..|a|] == a && b[..|b|] == b;
  }

  lemma BothJam(w: World, parsed: map<string, Json>, a: seq<Visit>, b: seq<Visit>)
    requires SameVisits(a, b)
    ensures Jammed(w, parsed, a) <==> Jammed(w, parsed, b)
  {
    if Jammed(w, parsed, a) { SameJam(w, parsed, a, b); }
    if Jammed(w, parsed, b) { SameJam(w, parsed, b, a); }
  }

  /**
    The walk is determined: the same fixtures are visited and expanded in the same order, and it jams or it does not.
   */
  lemma WalkIsDetermined(w: World, names: seq<string>, ta: Tables, tb: Tables, roots: seq<string>, a: seq<Visit>,
                         b: seq<Visit>)
    requires SameClaims(ta, tb) && History(w, names, ta, roots, a) && History(w, names, tb, roots, b)
    requires Stops(w, names, ta.parsed, roots, a) && Stops(w, names, tb.parsed, roots, b)
    ensures SameVisits(a, b) && Expanded(a) == Expanded(b) && (Jammed(w, ta.parsed, a) <==> Jammed(w, tb.parsed, b))
  {
    WalksSame(w, names, ta, tb, roots, a, b);
    SameExpanded(a, b);
    BothJam(w, ta.parsed, a, b);
  }
}
