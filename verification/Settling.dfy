/** build_conversion's loops over status and reasons, stage by stage, proved to compute the verdicts. */
module Settling {
  import opened Wrappers
  import opened Ordering
  import opened Finite
  import opened Evidence
  import opened Verdicts
  import opened Collisions

  /** The status and reasons tables. */
  datatype Ledger = Ledger(status: map<string, Status>, reasons: map<string, seq<Reason>>)

  function StatusOf(l: Ledger, f: string): Option<Status> {
    if f in l.status then Some(l.status[f]) else None
  }

  function ReasonsOf(l: Ledger, f: string): seq<Reason> {
    if f in l.reasons then l.reasons[f] else []
  }

  /** What the ledger says of f: its verdict if it is in scope, nothing otherwise. */
  ghost predicate Entry(cx: Case, l: Ledger, f: string, settled: bool) {
    && StatusOf(l, f) == (if settled then Some(Final(cx, f)) else None)
    && ReasonsOf(l, f) == if settled then Why(cx, f) else []
  }

  /** Stages before k are settled, and of stage k the fixtures in done. */
  ghost predicate Settled(cx: Case, k: nat, done: set<string>, l: Ledger) {
    forall f: string :: Entry(cx, l, f, f in cx.names && (Stage(cx, f) < k || (Stage(cx, f) == k && f in done)))
  }

  function Settle(l: Ledger, f: string, st: Status, why: seq<Reason>): Ledger {
    Ledger(l.status[f := st], l.reasons[f := ReasonsOf(l, f) + why])
  }

  lemma SettleOne(cx: Case, k: nat, done: set<string>, l: Ledger, f: string)
    requires Settled(cx, k, done, l) && f in cx.names && Stage(cx, f) == k && f !in done
    ensures Settled(cx, k, done + {f}, Settle(l, f, Final(cx, f), Why(cx, f)))
  {
    var l' := Settle(l, f, Final(cx, f), Why(cx, f));
    forall g: string
      ensures Entry(cx, l', g, g in cx.names && (Stage(cx, g) < k || (Stage(cx, g) == k && g in done + {f})))
    {
      assert Entry(cx, l, g, g in cx.names && (Stage(cx, g) < k || (Stage(cx, g) == k && g in done)));
    }
  }

  lemma SkipOne(cx: Case, k: nat, done: set<string>, l: Ledger, f: string)
    requires Settled(cx, k, done, l) && (f in cx.names ==> Stage(cx, f) != k)
    ensures Settled(cx, k, done + {f}, l)
  {
    forall g: string
      ensures Entry(cx, l, g, g in cx.names && (Stage(cx, g) < k || (Stage(cx, g) == k && g in done + {f})))
    {
      assert Entry(cx, l, g, g in cx.names && (Stage(cx, g) < k || (Stage(cx, g) == k && g in done)));
    }
  }

  lemma NextStage(cx: Case, k: nat, done: set<string>, l: Ledger)
    requires Settled(cx, k, done, l) && forall f <- cx.names :: Stage(cx, f) == k ==> f in done
    ensures Settled(cx, k + 1, {}, l)
  {
    forall g: string
      ensures Entry(cx, l, g, g in cx.names && (Stage(cx, g) < k + 1 || (Stage(cx, g) == k + 1 && g in {})))
    {
      assert Entry(cx, l, g, g in cx.names && (Stage(cx, g) < k || (Stage(cx, g) == k && g in done)));
    }
  }

  /** Before f is reached, it has a status exactly if an earlier stage settled it. */
  lemma StatusSoFar(cx: Case, k: nat, done: set<string>, l: Ledger, f: string)
    requires Settled(cx, k, done, l) && f in cx.names && f !in done
    ensures f in l.status <==> Stage(cx, f) < k
  {
    assert Entry(cx, l, f, f in cx.names && (Stage(cx, f) < k || (Stage(cx, f) == k && f in done)));
  }

  function Names(cx: Case, i: nat): set<string>
    requires i <= |cx.names|
  {
    set f | f in cx.names[..i]
  }

  lemma NextName(cx: Case, i: nat)
    requires i < |cx.names| && forall a, b | 0 <= a < b < |cx.names| :: cx.names[a] != cx.names[b]
    ensures Names(cx, i + 1) == Names(cx, i) + {cx.names[i]} && cx.names[i] !in Names(cx, i)
  {
    assert cx.names[..i + 1] == cx.names[..i] + [cx.names[i]];
  }

  lemma AllNames(cx: Case)
    ensures forall f: string :: f in Names(cx, |cx.names|) <==> f in cx.names
  {
    assert cx.names[..|cx.names|] == cx.names;
  }

  // ------------------------------------------------------------ stage 2: aliases

  lemma AliasVerdict(cx: Case, f: string)
    requires Pre(cx, f).None?
    ensures Stage(cx, f) > 1 && (Stage(cx, f) == 2 <==> AliasOf(cx, f).Some?)
    ensures AliasOf(cx, f).Some? ==> Final(cx, f) == Dropped && Why(cx, f) == [CanonicalAlias(AliasOf(cx, f).value)]
  {
  }

  method ExcludeAliases(cx: Case, l0: Ledger) returns (l: Ledger)
    requires Collected(cx) && Settled(cx, 2, {}, l0)
    ensures Settled(cx, 3, {}, l)
  {
    l := l0;
    for i := 0 to |cx.names|
      invariant Settled(cx, 2, Names(cx, i), l)
    {
      var f := cx.names[i];
      NextName(cx, i);
      StatusSoFar(cx, 2, Names(cx, i), l, f);
      var alias := AliasOf(cx, f);
      if f !in l.status { AliasVerdict(cx, f); }
      if f !in l.status && alias.Some? {
        SettleOne(cx, 2, Names(cx, i), l, f);
        l := Settle(l, f, Dropped, [CanonicalAlias(alias.value)]);
      } else {
        SkipOne(cx, 2, Names(cx, i), l, f);
      }
    }
    AllNames(cx);
    NextStage(cx, 2, Names(cx, |cx.names|), l);
  }

  // ------------------------------------------------------------ stage 3: duplicate claims

  lemma OpenVerdict(cx: Case, f: string)
    requires f in cx.names
    ensures Open(cx, f) <==> Stage(cx, f) >= 3
  {
  }

  /** A group holds, each once, the claimants of its route among the names seen. */
  ghost predicate Grouped(cx: Case, seen: set<string>, groups: map<string, seq<string>>) {
    && (forall r <- groups :: groups[r] != [])
    && (forall r <- groups, f :: f in groups[r] <==> f in seen && ClaimedRoute(cx, f) == Some(r))
    && (forall r <- groups, i, j | 0 <= i < j < |groups[r]| :: groups[r][i] != groups[r][j])
    && (forall f <- seen :: ClaimedRoute(cx, f).Some? ==> ClaimedRoute(cx, f).value in groups)
  }

  function Append(groups: map<string, seq<string>>, r: string, f: string): map<string, seq<string>> {
    groups[r := (if r in groups then groups[r] else []) + [f]]
  }

  lemma GroupOne(cx: Case, seen: set<string>, groups: map<string, seq<string>>, f: string)
    requires Grouped(cx, seen, groups) && f !in seen && ClaimedRoute(cx, f).Some?
    ensures Grouped(cx, seen + {f}, Append(groups, ClaimedRoute(cx, f).value, f))
  {
  }

  lemma OpenSoFar(cx: Case, l: Ledger)
    requires Settled(cx, 3, {}, l)
    ensures forall f <- cx.names :: f in l.status <==> !Open(cx, f)
  {
    forall f <- cx.names ensures f in l.status <==> !Open(cx, f) {
      StatusSoFar(cx, 3, {}, l, f);
      OpenVerdict(cx, f);
    }
  }

  /** fixtures_by_claimed_route. */
  method GroupClaims(cx: Case, status: map<string, Status>) returns (groups: map<string, seq<string>>)
    requires forall a, b | 0 <= a < b < |cx.names| :: cx.names[a] != cx.names[b]
    requires forall f <- cx.names :: f in status <==> !Open(cx, f)
    ensures Grouped(cx, Names(cx, |cx.names|), groups)
  {
    groups := map[];
    for i := 0 to |cx.names|
      invariant Grouped(cx, Names(cx, i), groups)
    {
      var f := cx.names[i];
      NextName(cx, i);
      var route := if f !in status && ClaimsOf(cx.t, f).issues == [] then TheRoute(cx, f) else None;
      assert route == ClaimedRoute(cx, f);
      GroupNext(cx, Names(cx, i), groups, f);
      if route.Some? {
        groups := Append(groups, route.value, f);
      }
    }
  }

  lemma GroupNext(cx: Case, seen: set<string>, groups: map<string, seq<string>>, f: string)
    requires Grouped(cx, seen, groups) && f !in seen
    ensures var route := ClaimedRoute(cx, f);
      Grouped(cx, seen + {f}, if route.Some? then Append(groups, route.value, f) else groups)
  {
    if ClaimedRoute(cx, f).Some? { GroupOne(cx, seen, groups, f); }
  }

  lemma GroupIsClaimants(cx: Case, groups: map<string, seq<string>>, r: string)
    requires Grouped(cx, Names(cx, |cx.names|), groups) && r in groups
    ensures |groups[r]| == |Claimants(cx, r)| && forall f :: f in groups[r] <==> f in Claimants(cx, r)
  {
    AllNames(cx);
    forall f ensures f in groups[r] <==> f in Claimants(cx, r) {
      assert f in groups[r] <==> f in Names(cx, |cx.names|) && ClaimedRoute(cx, f) == Some(r);
    }
    SameSize(groups[r], Claimants(cx, r));
  }

  lemma ContestedVerdict(cx: Case, f: string, r: string)
    requires f in Claimants(cx, r) && |Claimants(cx, r)| >= 2
    ensures Stage(cx, f) == 3 && Final(cx, f) == Unsettled
    ensures Why(cx, f) == [DuplicateClaim(r, Sorted(Claimants(cx, r)))]
  {
  }

  lemma UncontestedVerdict(cx: Case, f: string)
    requires Stage(cx, f) == 3
    ensures ClaimedRoute(cx, f).Some? && |Claimants(cx, ClaimedRoute(cx, f).value)| >= 2
  {
  }

  lemma ElementsNext(xs: seq<string>, i: nat)
    requires i < |xs|
    ensures Elements(xs[..i + 1]) == Elements(xs[..i]) + {xs[i]}
  {
    assert xs[..i + 1] == xs[..i] + [xs[i]];
  }

  predicate HasVerdict(cx: Case, f: string, k: nat, st: Status, why: seq<Reason>) {
    f in cx.names && Stage(cx, f) == k && Final(cx, f) == st && Why(cx, f) == why
  }

  lemma SettleNext(cx: Case, k: nat, done: set<string>, l: Ledger, f: string, st: Status, why: seq<Reason>)
    requires Settled(cx, k, done, l) && f !in done && HasVerdict(cx, f, k, st, why)
    ensures Settled(cx, k, done + {f}, Settle(l, f, st, why))
  {
    SettleOne(cx, k, done, l, f);
  }

  /** A loop that gives every fixture of a list one status for one reason. */
  method SettleAll(cx: Case, k: nat, order: seq<string>, st: Status, why: seq<Reason>, l0: Ledger,
                   ghost done: set<string>)
    returns (l: Ledger)
    requires Settled(cx, k, done, l0) && forall f <- order :: f !in done && HasVerdict(cx, f, k, st, why)
    requires forall i, j | 0 <= i < j < |order| :: order[i] != order[j]
    ensures Settled(cx, k, done + Elements(order), l)
  {
    l := l0;
    assert done + Elements(order[..0]) == done;
    for i := 0 to |order|
      invariant Settled(cx, k, done + Elements(order[..i]), l)
    {
      ElementsNext(order, i);
      assert done + Elements(order[..i + 1]) == done + Elements(order[..i]) + {order[i]};
      SettleNext(cx, k, done + Elements(order[..i]), l, order[i], st, why);
      l := Settle(l, order[i], st, why);
    }
    assert order[..|order|] == order;
  }

  /** Claimants of the contested routes handled so far. */
  ghost function Blocked(cx: Case, routes: seq<string>): set<string> {
    set f | f in cx.names && Contested(cx, f) && ClaimedRoute(cx, f).value in routes
  }

  lemma BlockedNext(cx: Case, routes: seq<string>, r: string)
    ensures |Claimants(cx, r)| >= 2 ==> Blocked(cx, routes + [r]) == Blocked(cx, routes) + Claimants(cx, r)
    ensures |Claimants(cx, r)| >= 2 && r !in routes ==> Claimants(cx, r) !! Blocked(cx, routes)
    ensures |Claimants(cx, r)| < 2 ==> Blocked(cx, routes + [r]) == Blocked(cx, routes)
  {
  }

  lemma BlockReady(cx: Case, groups: map<string, seq<string>>, routes: seq<string>, r: string)
    requires Grouped(cx, Names(cx, |cx.names|), groups) && r in groups && |groups[r]| >= 2 && r !in routes
    ensures var order := Sorted(Elements(groups[r]));
      && (forall f <- order :: f !in Blocked(cx, routes) && HasVerdict(cx, f, 3, Unsettled, [DuplicateClaim(r, order)]))
      && Blocked(cx, routes + [r]) == Blocked(cx, routes) + Elements(order)
      && order != []
  {
    GroupIsClaimants(cx, groups, r);
    assert Elements(groups[r]) == Claimants(cx, r);
    var order := Sorted(Claimants(cx, r));
    assert Elements(order) == Claimants(cx, r);
    BlockedNext(cx, routes, r);
    forall f <- order
      ensures HasVerdict(cx, f, 3, Unsettled, [DuplicateClaim(r, order)])
    {
      ContestedVerdict(cx, f, r);
    }
  }

  lemma NothingToBlock(cx: Case, groups: map<string, seq<string>>, routes: seq<string>, r: string)
    requires Grouped(cx, Names(cx, |cx.names|), groups) && r in groups && |groups[r]| < 2
    ensures Blocked(cx, routes + [r]) == Blocked(cx, routes)
  {
    GroupIsClaimants(cx, groups, r);
    BlockedNext(cx, routes, r);
  }

  lemma AllBlocked(cx: Case, groups: map<string, seq<string>>, routes: seq<string>, f: string)
    requires Grouped(cx, Names(cx, |cx.names|), groups) && (forall r :: r in routes <==> r in groups)
    requires f in cx.names && Stage(cx, f) == 3
    ensures f in Blocked(cx, routes)
  {
    UncontestedVerdict(cx, f);
    AllNames(cx);
  }

  /** One route of fixtures_by_claimed_route. */
  method BlockRoute(cx: Case, groups: map<string, seq<string>>, ghost earlier: seq<string>, r: string, l0: Ledger)
    returns (l: Ledger, conflicts: seq<Conflict>)
    requires Grouped(cx, Names(cx, |cx.names|), groups) && r in groups && r !in earlier
    requires Settled(cx, 3, Blocked(cx, earlier), l0)
    ensures Settled(cx, 3, Blocked(cx, earlier + [r]), l)
    ensures conflicts != [] ==> SomeUnsettled(cx)
  {
    l, conflicts := l0, [];
    if |groups[r]| >= 2 {
      var order := Sorted(Elements(groups[r]));
      BlockReady(cx, groups, earlier, r);
      Noticed(cx, order[0], 3, [DuplicateClaim(r, order)]);
      conflicts := [DuplicateRoute(r, order)];
      l := SettleAll(cx, 3, order, Unsettled, [DuplicateClaim(r, order)], l, Blocked(cx, earlier));
    } else {
      NothingToBlock(cx, groups, earlier, r);
    }
  }

  method BlockRoutes(cx: Case, groups: map<string, seq<string>>, routes: seq<string>, l0: Ledger)
    returns (l: Ledger, conflicts: seq<Conflict>)
    requires Grouped(cx, Names(cx, |cx.names|), groups) && forall r :: r in routes ==> r in groups
    requires forall i, j | 0 <= i < j < |routes| :: routes[i] != routes[j]
    requires Settled(cx, 3, Blocked(cx, []), l0)
    ensures Settled(cx, 3, Blocked(cx, routes), l)
    ensures conflicts != [] ==> SomeUnsettled(cx)
  {
    l, conflicts := l0, [];
    assert routes[..0] == [];
    for i := 0 to |routes|
      invariant Settled(cx, 3, Blocked(cx, routes[..i]), l)
      invariant conflicts != [] ==> SomeUnsettled(cx)
    {
      var more;
      assert routes[i] in routes;
      l, more := BlockRoute(cx, groups, routes[..i], routes[i], l);
      conflicts := conflicts + more;
      assert routes[..i + 1] == routes[..i] + [routes[i]];
    }
    assert routes[..|routes|] == routes;
  }

  method BlockDuplicates(cx: Case, l0: Ledger) returns (l: Ledger, conflicts: seq<Conflict>)
    requires Collected(cx) && Settled(cx, 3, {}, l0)
    ensures Settled(cx, 4, {}, l)
    ensures conflicts != [] ==> SomeUnsettled(cx)
  {
    OpenSoFar(cx, l0);
    var groups := GroupClaims(cx, l0.status);
    var routes := Sorted(groups.Keys);
    assert Blocked(cx, []) == {};
    l, conflicts := BlockRoutes(cx, groups, routes, l0);
    forall f | f in cx.names && Stage(cx, f) == 3
      ensures f in Blocked(cx, routes)
    {
      AllBlocked(cx, groups, routes, f);
    }
    NextStage(cx, 3, Blocked(cx, routes), l);
  }

  ghost predicate SomeUnsettled(cx: Case) { exists f <- cx.names :: Final(cx, f) == Unsettled }

  lemma Noticed(cx: Case, f: string, k: nat, why: seq<Reason>)
    requires HasVerdict(cx, f, k, Unsettled, why)
    ensures SomeUnsettled(cx)
  {
  }

  // ------------------------------------------------------------ stage 4: route checks

  lemma BadCandidatesVerdict(cx: Case, f: string)
    requires f in cx.names && Stage(cx, f) >= 4 && ClaimsOf(cx.t, f).issues != []
    ensures var status := if OnlyExcludedIssues(cx, f) then Dropped else Unsettled;
      HasVerdict(cx, f, 4, status, BadCandidates(ClaimsOf(cx.t, f).issues))
  {
  }

  lemma NoRouteVerdict(cx: Case, f: string)
    requires f in cx.names && Stage(cx, f) >= 4 && ClaimsOf(cx.t, f).issues == [] && TheRoute(cx, f).None?
    ensures HasVerdict(cx, f, 4, Unsettled,
      if RoutesOf(cx.t, f) == {} then [NoRoute] else [Disagreement(Sorted(RoutesOf(cx.t, f)))])
  {
  }

  lemma RoutedVerdict(cx: Case, f: string)
    requires f in cx.names && Stage(cx, f) >= 4 && ClaimsOf(cx.t, f).issues == [] && TheRoute(cx, f).Some?
    ensures ClaimedRoute(cx, f) == TheRoute(cx, f)
    ensures var r := TheRoute(cx, f).value; var expected := ExpectedName(f, r);
      if cx.w.fold(expected) != cx.w.fold(f)
      then HasVerdict(cx, f, 4, Unsettled, [NameMismatch(r, expected)]) && !Assigned(cx, f)
      else Assigned(cx, f) && Stage(cx, f) != 4
  {
  }

  lemma UnassignedStage(cx: Case, f: string)
    requires f in cx.names
    ensures Stage(cx, f) >= 5 <==> Assigned(cx, f)
  {
  }

  /** The body of the loop that gives fixtures their route; route is Some when f keeps one. */
  method AssignRoute(cx: Case, f: string, ghost done: set<string>, l0: Ledger)
    returns (l: Ledger, route: Option<string>, conflicts: seq<Conflict>)
    requires Settled(cx, 4, done, l0) && f in cx.names && f !in done
    ensures Settled(cx, 4, done + {f}, l)
    ensures route.Some? <==> Assigned(cx, f)
    ensures route.Some? ==> route == ClaimedRoute(cx, f)
    ensures conflicts != [] ==> SomeUnsettled(cx)
  {
    l, route, conflicts := l0, None, [];
    StatusSoFar(cx, 4, done, l, f);
    UnassignedStage(cx, f);
    if f in l.status {
      SkipOne(cx, 4, done, l, f);
      return;
    }
    var issues := ClaimsOf(cx.t, f).issues;
    var only := TheRoute(cx, f);
    if issues != [] {
      var st := if OnlyExcludedIssues(cx, f) then Dropped else Unsettled;
      BadCandidatesVerdict(cx, f);
      l := SettleFixture(cx, 4, f, st, BadCandidates(issues), l, done);
      if st == Unsettled {
        Noticed(cx, f, 4, BadCandidates(issues));
        conflicts := [InvalidCandidates(f, issues)];
      }
    } else if only.None? {
      var routes := Sorted(RoutesOf(cx.t, f));
      var why := if RoutesOf(cx.t, f) == {} then [NoRoute] else [Disagreement(routes)];
      NoRouteVerdict(cx, f);
      l := SettleFixture(cx, 4, f, Unsettled, why, l, done);
      Noticed(cx, f, 4, why);
      if RoutesOf(cx.t, f) != {} { conflicts := [ManyRoutes(f, routes)]; }
    } else {
      RoutedVerdict(cx, f);
      var expected := ExpectedName(f, only.value);
      if cx.w.fold(expected) != cx.w.fold(f) {
        l := SettleFixture(cx, 4, f, Unsettled, [NameMismatch(only.value, expected)], l, done);
        Noticed(cx, f, 4, [NameMismatch(only.value, expected)]);
        conflicts := [MisnamedFixture(f, only.value, expected)];
      } else {
        SkipOne(cx, 4, done, l, f);
        route := only;
      }
    }
  }

  method SettleFixture(cx: Case, k: nat, f: string, st: Status, why: seq<Reason>, l0: Ledger, ghost done: set<string>)
    returns (l: Ledger)
    requires Settled(cx, k, done, l0) && f !in done && HasVerdict(cx, f, k, st, why)
    ensures Settled(cx, k, done + {f}, l)
  {
    SettleNext(cx, k, done, l0, f, st, why);
    l := Settle(l0, f, st, why);
  }

  /** route_by_fixture holds the assigned fixtures among those seen. */
  ghost predicate RouteTable(cx: Case, seen: set<string>, routes: map<string, string>) {
    forall f: string ::
      && (f in routes <==> f in seen && Assigned(cx, f))
      && (f in routes ==> Some(routes[f]) == ClaimedRoute(cx, f))
  }

  method AssignRoutes(cx: Case, l0: Ledger) returns (l: Ledger, routes: map<string, string>, conflicts: seq<Conflict>)
    requires Collected(cx) && Settled(cx, 4, {}, l0)
    ensures Settled(cx, 5, {}, l) && RouteTable(cx, Names(cx, |cx.names|), routes)
    ensures conflicts != [] ==> SomeUnsettled(cx)
  {
    l, routes, conflicts := l0, map[], [];
    for i := 0 to |cx.names|
      invariant Settled(cx, 4, Names(cx, i), l) && RouteTable(cx, Names(cx, i), routes)
      invariant conflicts != [] ==> SomeUnsettled(cx)
    {
      NextName(cx, i);
      var route, more;
      l, route, more := AssignRoute(cx, cx.names[i], Names(cx, i), l);
      conflicts := conflicts + more;
      if route.Some? { routes := routes[cx.names[i] := route.value]; }
    }
    AllNames(cx);
    NextStage(cx, 4, Names(cx, |cx.names|), l);
  }

  // ------------------------------------------------------------ stage 5: collisions

  lemma TableClash(cx: Case, routes: map<string, string>, f: string)
    requires RouteTable(cx, Names(cx, |cx.names|), routes)
    ensures ClashesInTable(cx.w, routes, f) <==> f in cx.names && Collides(cx, f)
  {
    AllNames(cx);
    if ClashesInTable(cx.w, routes, f) {
      var g :| g in routes && g != f && Clash(cx.w, f, routes[f], g, routes[g]);
      assert ClashesWith(cx, f, g);
    }
    if f in cx.names && Collides(cx, f) {
      var g :| g in cx.names && ClashesWith(cx, f, g);
      assert g in routes && Clash(cx.w, f, routes[f], g, routes[g]);
    }
  }

  lemma CollisionVerdict(cx: Case, f: string)
    requires f in cx.names
    ensures Stage(cx, f) == 5 <==> Collides(cx, f)
    ensures Collides(cx, f) ==> HasVerdict(cx, f, 5, Unsettled, [DestinationCollision])
  {
    if Collides(cx, f) {
      var g :| g in cx.names && ClashesWith(cx, f, g);
      UnassignedStage(cx, f);
    }
  }

  /** collision_fixtures: every fixture some conflict names. */
  function Members(conflicts: seq<Conflict>): (s: set<string>)
    ensures forall f :: f in s <==> Mentions(conflicts, f)
  {
    if conflicts == [] then {}
    else
      var n := |conflicts| - 1;
      MembersStep(conflicts);
      Members(conflicts[..n]) + set f | f in FixturesOf(conflicts[n])
  }

  function FixturesOf(c: Conflict): seq<string> {
    if c.DuplicateRoute? || c.FoldedDestination? || c.FileDirectory? then c.fixtures else []
  }

  lemma MembersStep(conflicts: seq<Conflict>)
    requires conflicts != []
    ensures forall f :: Mentions(conflicts, f) <==>
      Mentions(conflicts[..|conflicts| - 1], f) || f in FixturesOf(conflicts[|conflicts| - 1])
  {
    var n := |conflicts| - 1;
    forall f ensures Mentions(conflicts, f) <==> Mentions(conflicts[..n], f) || f in FixturesOf(conflicts[n]) {
      assert conflicts == conflicts[..n] + [conflicts[n]];
      MentionsConcat(conflicts[..n], [conflicts[n]], f);
      assert Named(conflicts[n], f) <==> f in FixturesOf(conflicts[n]);
      assert Mentions([conflicts[n]], f) <==> Named(conflicts[n], f) by { assert [conflicts[n]][0] == conflicts[n]; }
    }
  }

  /** Colliding assignments are withdrawn; what is left is exactly the emitted fixtures. */
  method RemoveCollisions(cx: Case, l0: Ledger, routes0: map<string, string>)
    returns (l: Ledger, routes: map<string, string>, conflicts: seq<Conflict>)
    requires Collected(cx) && Settled(cx, 5, {}, l0) && RouteTable(cx, Names(cx, |cx.names|), routes0)
    ensures Settled(cx, 6, {}, l)
    ensures forall f: string :: f in routes <==> f in cx.names && Stage(cx, f) == 6
    ensures forall f <- routes :: Some(routes[f]) == ClaimedRoute(cx, f)
    ensures conflicts != [] ==> SomeUnsettled(cx)
  {
    conflicts := CollisionSets(cx.w, routes0);
    var order := SortedList(Members(conflicts));
    forall f: string ensures f in order <==> f in cx.names && Stage(cx, f) == 5 {
      TableClash(cx, routes0, f);
      if f in cx.names { CollisionVerdict(cx, f); }
    }
    forall f <- order ensures HasVerdict(cx, f, 5, Unsettled, [DestinationCollision]) { CollisionVerdict(cx, f); }
    l := SettleAll(cx, 5, order, Unsettled, [DestinationCollision], l0, {});
    assert {} + Elements(order) == Elements(order);
    NextStage(cx, 5, Elements(order), l);
    routes := routes0 - Elements(order);
    LeftOver(cx, routes0, order, routes);
    if conflicts != [] {
      assert Named(conflicts[0], conflicts[0].fixtures[0]);
      assert Mentions(conflicts, conflicts[0].fixtures[0]);
      Noticed(cx, conflicts[0].fixtures[0], 5, [DestinationCollision]);
    }
  }

  lemma LeftOver(cx: Case, routes0: map<string, string>, order: seq<string>, routes: map<string, string>)
    requires RouteTable(cx, Names(cx, |cx.names|), routes0) && routes == routes0 - Elements(order)
    requires forall f: string :: f in order <==> f in cx.names && Stage(cx, f) == 5
    ensures forall f: string :: f in routes <==> f in cx.names && Stage(cx, f) == 6
    ensures forall f <- routes :: Some(routes[f]) == ClaimedRoute(cx, f)
  {
    AllNames(cx);
    forall f: string ensures f in routes <==> f in cx.names && Stage(cx, f) == 6 {
      if f in cx.names { UnassignedStage(cx, f); StageBound(cx, f); }
    }
  }

  lemma StageBound(cx: Case, f: string)
    ensures 1 <= Stage(cx, f) <= 6
  {
  }
}
