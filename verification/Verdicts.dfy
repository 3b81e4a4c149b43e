/**
  What build_conversion decides about each fixture once the evidence is in, said declaratively:
  every fixture is settled at one stage, for one reason, with one status.  The loops that compute
  this are in Settling; the guarantees of the conversion are proved here, about the verdicts.
 */
module Verdicts {
  import opened Wrappers
  import opened Text
  import opened JsonModel
  import opened Ordering
  import opened Routes
  import opened RouteFacts
  import opened Evidence

  datatype Case = Case(w: World, files: map<string, Bytes>, names: seq<string>, t: Tables)

  ghost predicate Collected(cx: Case) {
    && (forall f <- cx.names :: f in cx.files)
    && (forall i, j | 0 <= i < j < |cx.names| :: cx.names[i] != cx.names[j])
    && RoutesWellFormed(cx.t)
    && (forall f: string :: TopLevelFrom(cx.w, cx.t, f))
    && (forall f <- cx.t.parsed :: f in cx.names && Pre(cx, f).None? && f != METADATA_FIXTURE
          && f in cx.files && cx.w.parse(cx.files[f]) == Some(cx.t.parsed[f]))
  }

  function Pre(cx: Case, f: string): Option<(Status, Reason)> {
    if f in cx.files then Preclassified(cx.w, f, cx.files[f]) else None
  }

  // ------------------------------------------------------------ _canonical_alias_exclusion

  /** Other routes than the canonical one that requested this very fixture. */
  function AliasRoutes(cx: Case, f: string, canonical: string): set<string> {
    set c | c in ClaimsOf(cx.t, f).candidates && (c.source == Discovered || c.source == RouteMap)
      && c.route != canonical && cx.w.fold(ForwardFilename(c.route)) == cx.w.fold(f) :: c.route
  }

  function AliasOf(cx: Case, f: string): Option<Alias> {
    var top := Only(TopRoutes(cx.t, f));
    if top.None? || f !in cx.t.parsed || f !in cx.files then None
    else
      var canonical := top.value;
      var aliases := AliasRoutes(cx, f, canonical);
      var g := Lookup(cx.w, cx.names, cx.w.fold(ForwardFilename(canonical)));
      if aliases == {} || g.None? || g.value == f || g.value !in cx.t.parsed || g.value !in cx.files then None
      else if canonical !in RoutesOf(cx.t, g.value) then None
      else if !PyEq(cx.t.parsed[f], cx.t.parsed[g.value]) then None
      else Some(Alias(Sorted(aliases), canonical, g.value, cx.files[f] == cx.files[g.value]))
  }

  // ------------------------------------------------------------ claims, assignment, collisions

  function TheRoute(cx: Case, f: string): Option<string> {
    Only(RoutesOf(cx.t, f))
  }

  /** Neither settled by the first pass nor an alias. */
  predicate Open(cx: Case, f: string) {
    f in cx.names && Pre(cx, f).None? && AliasOf(cx, f).None?
  }

  /** The one route an open fixture without bad candidates claims. */
  function ClaimedRoute(cx: Case, f: string): Option<string> {
    if Open(cx, f) && ClaimsOf(cx.t, f).issues == [] then TheRoute(cx, f) else None
  }

  function Claimants(cx: Case, route: string): set<string> {
    set f | f in cx.names && ClaimedRoute(cx, f) == Some(route)
  }

  predicate Contested(cx: Case, f: string) {
    ClaimedRoute(cx, f).Some? && |Claimants(cx, ClaimedRoute(cx, f).value)| >= 2
  }

  function ExpectedName(f: string, route: string): string {
    ForwardFilename(route, if f == METADATA_FIXTURE then ".xml" else ".json")
  }

  /** f gets a route: it alone claims it, and its name is the route's flat name up to case. */
  predicate Assigned(cx: Case, f: string) {
    && ClaimedRoute(cx, f).Some? && !Contested(cx, f)
    && cx.w.fold(ExpectedName(f, ClaimedRoute(cx, f).value)) == cx.w.fold(f)
  }

  function DestinationOf(f: string, route: string): string {
    if StartsWith(route, SERVICE_ROOT) then Destination(route, f == METADATA_FIXTURE) else ""
  }

  function PathParts(destination: string): seq<string> { Split(destination, '/') }

  /** Two route assignments that cannot both be written to the tree. */
  predicate Clash(w: World, f: string, r: string, g: string, s: string) {
    var d, e := DestinationOf(f, r), DestinationOf(g, s);
    r == s || w.fold(d) == w.fold(e) || PathParts(d) < PathParts(e) || PathParts(e) < PathParts(d)
  }

  predicate ClashesWith(cx: Case, f: string, g: string) {
    && g in cx.names && g != f && Assigned(cx, f) && Assigned(cx, g)
    && Clash(cx.w, f, ClaimedRoute(cx, f).value, g, ClaimedRoute(cx, g).value)
  }

  predicate Collides(cx: Case, f: string) {
    exists g <- cx.names :: ClashesWith(cx, f, g)
  }

  predicate OnlyExcludedIssues(cx: Case, f: string) {
    RoutesOf(cx.t, f) == {} && forall i <- ClaimsOf(cx.t, f).issues :: i.disposition == Excluded
  }

  // ------------------------------------------------------------ the verdict

  /**
    The stage at which f is settled: 1 first pass, 2 aliases, 3 duplicates, 4 route checks, 5 collisions, 6 emission.
   */
  function Stage(cx: Case, f: string): nat {
    if Pre(cx, f).Some? then 1
    else if AliasOf(cx, f).Some? then 2
    else if Contested(cx, f) then 3
    else if !Assigned(cx, f) then 4
    else if Collides(cx, f) then 5
    else 6
  }

  function Final(cx: Case, f: string): Status {
    match Stage(cx, f)
    case 1 => Pre(cx, f).value.0
    case 2 => Dropped
    case 4 => if ClaimsOf(cx.t, f).issues != [] && OnlyExcludedIssues(cx, f) then Dropped else Unsettled
    case 6 => Emitted
    case _ => Unsettled
  }

  /** The reasons the report gives for f. */
  function Why(cx: Case, f: string): seq<Reason> {
    var claims := ClaimsOf(cx.t, f);
    match Stage(cx, f)
    case 1 => [Pre(cx, f).value.1]
    case 2 => [CanonicalAlias(AliasOf(cx, f).value)]
    case 3 => var r := ClaimedRoute(cx, f).value; [DuplicateClaim(r, Sorted(Claimants(cx, r)))]
    case 4 =>
      if claims.issues != [] then BadCandidates(claims.issues)
      else if RoutesOf(cx.t, f) == {} then [NoRoute]
      else if TheRoute(cx, f).None? then [Disagreement(Sorted(RoutesOf(cx.t, f)))]
      else [NameMismatch(TheRoute(cx, f).value, ExpectedName(f, TheRoute(cx, f).value))]
    case 5 => [DestinationCollision]
    case _ => []
  }

  function BadCandidates(issues: seq<Issue>): (r: seq<Reason>)
    ensures |r| == |issues|
  {
    seq(|issues|, i requires 0 <= i < |issues| => BadCandidate(issues[i]))
  }

  lemma FirstPassReason(w: World, f: string, payload: Bytes)
    ensures Preclassified(w, f, payload).Some? ==> !Preclassified(w, f, payload).value.1.CanonicalAlias?
  {
  }

  lemma RouteReasons(cx: Case, f: string)
    requires Stage(cx, f) == 4
    ensures forall x <- Why(cx, f) :: !x.CanonicalAlias?
  {
    assert forall x <- BadCandidates(ClaimsOf(cx.t, f).issues) :: x.BadCandidate?;
  }

  /** Only an alias is given as an alias. */
  lemma AliasReason(cx: Case, f: string, a: Alias)
    requires CanonicalAlias(a) in Why(cx, f)
    ensures AliasOf(cx, f) == Some(a)
  {
    if Stage(cx, f) == 1 {
      FirstPassReason(cx.w, f, cx.files[f]);
    } else if Stage(cx, f) == 4 {
      RouteReasons(cx, f);
    }
  }

  // ------------------------------------------------------------ alias exclusion loses nothing

  lemma PyEqTopLevel(a: Json, b: Json)
    requires PyEq(a, b)
    ensures TopLevelId(a) == TopLevelId(b)
  {
  }

  lemma AliasFacts(cx: Case, f: string)
    requires AliasOf(cx, f).Some?
    ensures var a := AliasOf(cx, f).value; var g := a.canonicalFixture;
      && f in cx.t.parsed && g in cx.t.parsed && g != f && PyEq(cx.t.parsed[f], cx.t.parsed[g])
      && f in cx.files && g in cx.files && a.identical == (cx.files[f] == cx.files[g])
      && TopRoutes(cx.t, f) == {a.canonicalRoute} && a.canonicalRoute in RoutesOf(cx.t, g)
      && Lookup(cx.w, cx.names, cx.w.fold(ForwardFilename(a.canonicalRoute))) == Some(g)
      && a.aliasRoutes != [] && (forall r <- a.aliasRoutes :: r in AliasRoutes(cx, f, a.canonicalRoute))
  {
  }

  lemma OwnNameIsNoAlias(cx: Case, g: string, route: string)
    requires TopRoutes(cx.t, g) == {route}
    requires Lookup(cx.w, cx.names, cx.w.fold(ForwardFilename(route))) == Some(g)
    ensures AliasOf(cx, g).None?
  {
  }

  /**
    The fixture an alias is dropped in favour of is equal to it, claims the canonical route, and is no alias itself.
   */
  lemma AliasHasWitness(cx: Case, f: string)
    requires Collected(cx) && AliasOf(cx, f).Some?
    ensures var a := AliasOf(cx, f).value; var g := a.canonicalFixture;
      && f in cx.t.parsed && g in cx.t.parsed && g != f && PyEq(cx.t.parsed[f], cx.t.parsed[g])
      && g in cx.names && Pre(cx, g).None? && AliasOf(cx, g).None?
      && a.canonicalRoute in RoutesOf(cx.t, g)
      && a.aliasRoutes != [] && a.canonicalRoute !in a.aliasRoutes
      && f in cx.files && g in cx.files && a.identical == (cx.files[f] == cx.files[g])
  {
    AliasFacts(cx, f);
    var a := AliasOf(cx, f).value;
    var g := a.canonicalFixture;
    TopLevelShared(cx, f, g);
    OwnNameIsNoAlias(cx, g, a.canonicalRoute);
  }

  lemma TopLevelShared(cx: Case, f: string, g: string)
    requires TopLevelFrom(cx.w, cx.t, f) && TopLevelFrom(cx.w, cx.t, g)
    requires f in cx.t.parsed && g in cx.t.parsed && PyEq(cx.t.parsed[f], cx.t.parsed[g])
    ensures TopRoutes(cx.t, g) == TopRoutes(cx.t, f)
  {
    PyEqTopLevel(cx.t.parsed[f], cx.t.parsed[g]);
  }

  /** When nothing is left unresolved, that witness is emitted, and at the canonical route. */
  lemma AliasWitnessEmitted(cx: Case, f: string)
    requires Collected(cx) && AliasOf(cx, f).Some?
    requires forall g <- cx.names :: Final(cx, g) != Unsettled
    ensures var a := AliasOf(cx, f).value;
      Final(cx, a.canonicalFixture) == Emitted && ClaimedRoute(cx, a.canonicalFixture) == Some(a.canonicalRoute)
  {
    AliasHasWitness(cx, f);
    var a := AliasOf(cx, f).value;
    var g := a.canonicalFixture;
    RoutedIsEmitted(cx, g, a.canonicalRoute);
  }

  lemma RoutedIsEmitted(cx: Case, g: string, route: string)
    requires Open(cx, g) && route in RoutesOf(cx.t, g) && Final(cx, g) != Unsettled
    ensures Final(cx, g) == Emitted && ClaimedRoute(cx, g) == Some(route)
  {
    assert Stage(cx, g) == 6;
  }

  // ------------------------------------------------------------ the emitted tree

  lemma EmittedStage(cx: Case, f: string)
    requires Final(cx, f) == Emitted
    ensures Stage(cx, f) == 6 && Assigned(cx, f) && !Collides(cx, f)
  {
  }

  lemma EmittedFacts(cx: Case, f: string)
    requires Collected(cx) && Final(cx, f) == Emitted
    ensures Assigned(cx, f) && !Collides(cx, f) && WellFormed(ClaimedRoute(cx, f).value)
    ensures RoutesOf(cx.t, f) == {ClaimedRoute(cx, f).value}
  {
    EmittedStage(cx, f);
    ClaimedFacts(cx, f);
  }

  lemma ClaimedFacts(cx: Case, f: string)
    requires RoutesWellFormed(cx.t) && ClaimedRoute(cx, f).Some?
    ensures RoutesOf(cx.t, f) == {ClaimedRoute(cx, f).value} && WellFormed(ClaimedRoute(cx, f).value)
  {
    var r := ClaimedRoute(cx, f).value;
    assert r in RoutesOf(cx.t, f);
    var c :| c in ClaimsOf(cx.t, f).candidates && c.route == r;
  }

  /** Emitted fixtures have distinct routes and destinations distinct under folding, none a path prefix of another. */
  lemma EmittedApart(cx: Case, f: string, g: string)
    requires Collected(cx) && f in cx.names && g in cx.names && f != g
    requires Final(cx, f) == Emitted && Final(cx, g) == Emitted
    ensures ClaimedRoute(cx, f).Some? && ClaimedRoute(cx, g).Some?
    ensures var r, s := ClaimedRoute(cx, f).value, ClaimedRoute(cx, g).value;
      var d, e := DestinationOf(f, r), DestinationOf(g, s);
      && r != s && d != e && cx.w.fold(d) != cx.w.fold(e)
      && !(PathParts(d) <= PathParts(e)) && !(PathParts(e) <= PathParts(d))
  {
    EmittedFacts(cx, f);
    EmittedFacts(cx, g);
    var r, s := ClaimedRoute(cx, f).value, ClaimedRoute(cx, g).value;
    assert !ClashesWith(cx, f, g);
    if PathParts(DestinationOf(f, r)) == PathParts(DestinationOf(g, s)) {
      JoinSplit(DestinationOf(f, r), '/');
      JoinSplit(DestinationOf(g, s), '/');
    }
  }
}
