/** build_conversion's emission of the tree: one file and one row for each fixture that is left. */
module Emission {
  import opened Wrappers
  import opened Ordering
  import opened Finite
  import opened Evidence
  import opened Verdicts
  import opened Collisions
  import opened Settling

  datatype Mapping = Mapping(route: string, fixture: string, destination: string)

  /** The routes left after collision removal are all different, and so are their destinations. */
  lemma SurvivorsApart(cx: Case, routes: map<string, string>)
    requires Collected(cx) && SurvivorTable(cx, routes)
    requires forall f <- routes :: Some(routes[f]) == ClaimedRoute(cx, f)
    ensures OneToOne(routes) && OneToOne(Destinations(routes))
  {
    forall f, g | f in routes && g in routes && f != g
      ensures routes[f] != routes[g] && DestinationOf(f, routes[f]) != DestinationOf(g, routes[g])
    {
      EmittedAtSix(cx, f);
      EmittedAtSix(cx, g);
      EmittedApart(cx, f, g);
    }
  }

  lemma EmittedAtSix(cx: Case, f: string)
    ensures Final(cx, f) == Emitted <==> Stage(cx, f) == 6
  {
    if Final(cx, f) == Emitted { EmittedStage(cx, f); }
  }

  lemma EmittedVerdict(cx: Case, f: string)
    requires f in cx.names && Stage(cx, f) == 6
    ensures HasVerdict(cx, f, 6, Emitted, [])
  {
  }

  // ------------------------------------------------------------ emission

  /** emitted_route_to_fixture. */
  method InvertRoutes(routes: map<string, string>) returns (byRoute: map<string, string>)
    requires OneToOne(routes)
    ensures Inverse(routes, byRoute)
  {
    byRoute := map[];
    var order := SortedList(routes.Keys);
    for i := 0 to |order|
      invariant forall r <- byRoute :: byRoute[r] in order[..i] && byRoute[r] in routes && routes[byRoute[r]] == r
      invariant forall f <- order[..i] :: f in routes && routes[f] in byRoute && byRoute[routes[f]] == f
    {
      assert order[..i + 1] == order[..i] + [order[i]];
      assert order[i] in routes;
      byRoute := byRoute[routes[order[i]] := order[i]];
    }
    assert order[..|order|] == order;
  }

  function Image(m: map<string, string>, fs: set<string>): set<string> {
    set f | f in fs && f in m :: m[f]
  }

  lemma {:induction false} ImageSize(m: map<string, string>, fs: set<string>)
    requires OneToOne(m) && fs <= m.Keys
    ensures |Image(m, fs)| == |fs|
  {
    if fs != {} {
      var f :| f in fs;
      ImageSize(m, fs - {f});
      assert m[f] !in Image(m, fs - {f});
      assert Image(m, fs) == Image(m, fs - {f}) + {m[f]};
    }
  }

  /** The rows of the fixtures in done, one each. */
  ghost predicate RowsFor(routes: map<string, string>, dest: map<string, string>, done: set<string>,
                          mappings: seq<Mapping>)
  {
    && done <= routes.Keys && routes.Keys == dest.Keys && |mappings| == |done|
    && (forall m <- mappings :: m.fixture in done && m.route == routes[m.fixture] && m.destination == dest[m.fixture])
    && (forall f <- done :: Mapping(routes[f], f, dest[f]) in mappings)
  }

  /** The files of the fixtures in done: each destination holds its own fixture's bytes. */
  ghost predicate FilesFor(files: map<string, Bytes>, dest: map<string, string>, done: set<string>,
                           payloads: map<string, Bytes>)
  {
    && done <= dest.Keys && dest.Keys <= files.Keys && payloads.Keys == Image(dest, done)
    && (forall f <- done :: dest[f] in payloads && payloads[dest[f]] == files[f])
  }

  /** The rows and files emitted so far. */
  ghost predicate EmittedSoFar(files: map<string, Bytes>, routes: map<string, string>, dest: map<string, string>,
                               done: set<string>, payloads: map<string, Bytes>, mappings: seq<Mapping>)
  {
    RowsFor(routes, dest, done, mappings) && FilesFor(files, dest, done, payloads)
  }

  lemma AddRow(routes: map<string, string>, dest: map<string, string>, done: set<string>, mappings: seq<Mapping>,
               f: string)
    requires RowsFor(routes, dest, done, mappings) && f in routes && f !in done
    ensures RowsFor(routes, dest, done + {f}, mappings + [Mapping(routes[f], f, dest[f])])
  {
  }

  lemma AddFile(files: map<string, Bytes>, dest: map<string, string>, done: set<string>,
                payloads: map<string, Bytes>, f: string)
    requires OneToOne(dest) && FilesFor(files, dest, done, payloads) && f in dest && f !in done
    ensures FilesFor(files, dest, done + {f}, payloads[dest[f] := files[f]])
  {
    assert Image(dest, done + {f}) == Image(dest, done) + {dest[f]};
  }

  ghost predicate Inverse(routes: map<string, string>, byRoute: map<string, string>) {
    && (forall r <- byRoute :: byRoute[r] in routes && routes[byRoute[r]] == r)
    && (forall f <- routes :: routes[f] in byRoute && byRoute[routes[f]] == f)
  }

  /** One file: its bytes, its row, its status. */
  method EmitFixture(cx: Case, routes: map<string, string>, ghost dest: map<string, string>, f: string, l0: Ledger,
                     ghost done: set<string>,
                     payloads0: map<string, Bytes>, mappings0: seq<Mapping>)
    returns (l: Ledger, payloads: map<string, Bytes>, mappings: seq<Mapping>)
    requires f in routes && f !in done && f in cx.names && Stage(cx, f) == 6 && Settled(cx, 6, done, l0)
    requires dest == Destinations(routes) && OneToOne(dest)
    requires EmittedSoFar(cx.files, routes, dest, done, payloads0, mappings0)
    ensures Settled(cx, 6, done + {f}, l)
    ensures EmittedSoFar(cx.files, routes, dest, done + {f}, payloads, mappings)
  {
    var destination := DestinationOf(f, routes[f]);
    assert destination == dest[f];
    EmittedVerdict(cx, f);
    AddRow(routes, dest, done, mappings0, f);
    AddFile(cx.files, dest, done, payloads0, f);
    l := SettleFixture(cx, 6, f, Emitted, [], l0, done);
    payloads := payloads0[destination := cx.files[f]];
    mappings := mappings0 + [Mapping(routes[f], f, destination)];
  }

  method Emit(cx: Case, l0: Ledger, routes: map<string, string>)
    returns (l: Ledger, payloads: map<string, Bytes>, mappings: seq<Mapping>, byRoute: map<string, string>)
    requires Settled(cx, 6, {}, l0) && SurvivorTable(cx, routes)
    requires routes.Keys <= cx.files.Keys && OneToOne(routes) && OneToOne(Destinations(routes))
    ensures Settled(cx, 7, {}, l)
    ensures EmittedSoFar(cx.files, routes, Destinations(routes), routes.Keys, payloads, mappings)
    ensures Inverse(routes, byRoute)
  {
    byRoute := InvertRoutes(routes);
    var order := OrderByRoute(routes, byRoute);
    assert Elements(order) == routes.Keys;
    l, payloads, mappings := EmitAll(cx, l0, routes, Destinations(routes), order);
    LastStage(cx, routes, l);
  }

  ghost predicate SurvivorTable(cx: Case, routes: map<string, string>) {
    forall f: string :: f in routes <==> f in cx.names && Stage(cx, f) == 6
  }

  lemma LastStage(cx: Case, routes: map<string, string>, l: Ledger)
    requires SurvivorTable(cx, routes) && Settled(cx, 6, routes.Keys, l)
    ensures Settled(cx, 7, {}, l)
  {
    NextStage(cx, 6, routes.Keys, l);
  }

  /** The fixtures in the order of their routes. */
  method OrderByRoute(routes: map<string, string>, byRoute: map<string, string>) returns (order: seq<string>)
    requires Inverse(routes, byRoute)
    ensures (forall f :: f in order <==> f in routes) && forall i, j | 0 <= i < j < |order| :: order[i] != order[j]
  {
    var sorted := SortedList(byRoute.Keys);
    order := seq(|sorted|, i requires 0 <= i < |sorted| => assert sorted[i] in sorted; byRoute[sorted[i]]);
    forall f <- routes ensures f in order {
      var i :| 0 <= i < |sorted| && sorted[i] == routes[f];
      assert order[i] == f;
    }
    forall i | 0 <= i < |order|
      ensures order[i] in routes && routes[order[i]] == sorted[i]
    {
      assert sorted[i] in sorted;
    }
  }

  method EmitAll(cx: Case, l0: Ledger, routes: map<string, string>, ghost dest: map<string, string>, order: seq<string>)
    returns (l: Ledger, payloads: map<string, Bytes>, mappings: seq<Mapping>)
    requires Settled(cx, 6, {}, l0)
    requires forall f <- order :: f in routes && f in cx.names && Stage(cx, f) == 6
    requires forall i, j | 0 <= i < j < |order| :: order[i] != order[j]
    requires routes.Keys <= cx.files.Keys && dest == Destinations(routes) && OneToOne(dest)
    ensures Settled(cx, 6, Elements(order), l)
    ensures EmittedSoFar(cx.files, routes, dest, Elements(order), payloads, mappings)
  {
    l, payloads, mappings := l0, map[], [];
    assert Elements(order[..0]) == {};
    for i := 0 to |order|
      invariant Settled(cx, 6, Elements(order[..i]), l)
      invariant EmittedSoFar(cx.files, routes, dest, Elements(order[..i]), payloads, mappings)
    {
      ElementsNext(order, i);
      l, payloads, mappings := EmitFixture(cx, routes, dest, order[i], l, Elements(order[..i]), payloads, mappings);
    }
    assert order[..|order|] == order;
  }
}
