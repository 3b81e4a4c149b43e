/** build_conversion as a whole, and what its report guarantees. */
module Conversion {
  import opened Wrappers
  import opened JsonModel
  import opened Ordering
  import opened Finite
  import opened Tally
  import opened Routes
  import opened Evidence
  import opened Verdicts
  import opened Collisions
  import opened Settling
  import opened Emission
  import opened LinkClosure
  import opened Gathering

  // ------------------------------------------------------------ rows and counts of the report

  lemma EntryAtEnd(cx: Case, l: Ledger, f: string)
    requires Settled(cx, 7, {}, l) && f in cx.names
    ensures f in l.status && l.status[f] == Final(cx, f) && ReasonsOf(l, f) == Why(cx, f)
  {
    StageBound(cx, f);
    assert Entry(cx, l, f, f in cx.names && (Stage(cx, f) < 7 || (Stage(cx, f) == 7 && f in {})));
  }

  /** Nothing is left for the "internal-unclassified-source" fallback: every fixture has a status. */
  lemma NothingUnclassified(cx: Case, l: Ledger)
    requires Settled(cx, 7, {}, l)
    ensures forall f: string :: f in l.status <==> f in cx.names
    ensures forall f <- cx.names :: l.status[f] == Final(cx, f) && ReasonsOf(l, f) == Why(cx, f)
    ensures forall f <- cx.names :: Unclassified !in ReasonsOf(l, f)
  {
    forall f: string ensures f in l.status <==> f in cx.names {
      assert Entry(cx, l, f, f in cx.names && (Stage(cx, f) < 7 || (Stage(cx, f) == 7 && f in {})));
      if f in cx.names { EntryAtEnd(cx, l, f); }
    }
    forall f <- cx.names
      ensures l.status[f] == Final(cx, f) && ReasonsOf(l, f) == Why(cx, f) && Unclassified !in ReasonsOf(l, f)
    {
      EntryAtEnd(cx, l, f);
      NeverUnclassified(cx, f);
    }
  }

  lemma NeverUnclassified(cx: Case, f: string)
    ensures Unclassified !in Why(cx, f)
    ensures Final(cx, f) != Emitted ==> Why(cx, f) != []
  {
    if Stage(cx, f) == 6 { EmittedAtSix(cx, f); }
  }

  datatype Finding = Finding(fixture: string, reason: Reason)

  /** The rows of the fixtures with one status. */
  method ReportRows(names: seq<string>, l: Ledger, st: Status) returns (rows: seq<Finding>)
    requires forall f <- names :: f in l.status
    ensures forall f: string, why :: Finding(f, why) in rows <==>
      f in names && l.status[f] == st && why in ReasonsOf(l, f)
  {
    rows := [];
    for i := 0 to |names|
      invariant forall f: string, why :: Finding(f, why) in rows <==>
        f in names[..i] && l.status[f] == st && why in ReasonsOf(l, f)
    {
      assert names[..i + 1] == names[..i] + [names[i]];
      if l.status[names[i]] == st {
        var more := RowsOf(names[i], ReasonsOf(l, names[i]));
        rows := rows + more;
      }
    }
    assert names[..|names|] == names;
  }

  function RowsOf(f: string, reasons: seq<Reason>): (rows: seq<Finding>)
    ensures forall g: string, why :: Finding(g, why) in rows <==> g == f && why in reasons
  {
    if reasons == [] then []
    else RowsOf(f, reasons[..|reasons| - 1]) + [Finding(f, reasons[|reasons| - 1])]
  }

  /** The last loop over the fixtures, for those without a status: there are none. */
  method Fallback(cx: Case, l0: Ledger) returns (l: Ledger)
    requires forall f <- cx.names :: f in l0.status
    ensures l == l0
  {
    l := l0;
    for i := 0 to |cx.names|
      invariant l == l0
    {
      var f := cx.names[i];
      if f !in l.status {
        l := Settle(l, f, Unsettled, [Unclassified]);
      }
    }
  }

  datatype Counts = Counts(inputs: nat, emitted: nat, excluded: nat, unresolved: nat, sidecars: nat)

  ghost function WithStatus(cx: Case, st: Status): set<string> {
    set f | f in cx.names && Final(cx, f) == st
  }

  /** The report's lists and counts say what the verdicts are. */
  ghost predicate Tallied(cx: Case, counts: Counts, excluded: seq<Finding>, unresolved: seq<Finding>) {
    && (forall f: string, why ::
         Finding(f, why) in excluded <==> f in cx.names && Final(cx, f) == Dropped && why in Why(cx, f))
    && (forall f: string, why ::
         Finding(f, why) in unresolved <==> f in cx.names && Final(cx, f) == Unsettled && why in Why(cx, f))
    && counts.emitted == |WithStatus(cx, Emitted)| && counts.excluded == |WithStatus(cx, Dropped)|
    && counts.unresolved == |WithStatus(cx, Unsettled)| && counts.inputs == |cx.files|
    && counts.sidecars == |cx.files| - |cx.names|
    && counts.emitted + counts.excluded + counts.unresolved == |cx.names|
  }

  lemma StatusSets(cx: Case, status: map<string, Status>, st: Status)
    requires forall f <- cx.names :: f in status && status[f] == Final(cx, f)
    ensures Having(cx.names, status, st) == WithStatus(cx, st)
  {
  }

  /** The counts of a complete ledger. */
  method CountAll(cx: Case, l: Ledger, sidecars: nat) returns (counts: Counts)
    requires forall f <- cx.names :: f in l.status && l.status[f] == Final(cx, f)
    requires forall i, j | 0 <= i < j < |cx.names| :: cx.names[i] != cx.names[j]
    ensures counts.emitted == |WithStatus(cx, Emitted)| && counts.excluded == |WithStatus(cx, Dropped)|
    ensures counts.unresolved == |WithStatus(cx, Unsettled)| && counts.inputs == |cx.files|
    ensures counts.sidecars == sidecars
    ensures counts.emitted + counts.excluded + counts.unresolved == |cx.names|
  {
    var e := Count(cx.names, l.status, Emitted);
    var d := Count(cx.names, l.status, Dropped);
    var u := Count(cx.names, l.status, Unsettled);
    StatusSets(cx, l.status, Emitted);
    StatusSets(cx, l.status, Dropped);
    StatusSets(cx, l.status, Unsettled);
    CountsAddUp(cx.names, l.status, Emitted, Dropped, Unsettled);
    counts := Counts(|cx.files|, e, d, u, sidecars);
  }

  method Summarize(cx: Case, l0: Ledger, sidecars: nat)
    returns (counts: Counts, excluded: seq<Finding>, unresolved: seq<Finding>)
    requires Collected(cx) && Settled(cx, 7, {}, l0) && sidecars == |cx.files| - |cx.names|
    ensures Tallied(cx, counts, excluded, unresolved)
  {
    NothingUnclassified(cx, l0);
    var l := Fallback(cx, l0);
    excluded := ReportRows(cx.names, l, Dropped);
    unresolved := ReportRows(cx.names, l, Unsettled);
    counts := CountAll(cx, l, sidecars);
  }

  // ------------------------------------------------------------ the stages together

  /** The emitted tree and its rows, in terms of the verdicts. */
  ghost predicate Tree(cx: Case, payloads: map<string, Bytes>, mappings: seq<Mapping>, byRoute: map<string, string>) {
    && |payloads| == |WithStatus(cx, Emitted)| && |mappings| == |WithStatus(cx, Emitted)|
    && (forall f <- WithStatus(cx, Emitted) :: InTree(cx, payloads, mappings, byRoute, f))
    && (forall m <- mappings :: m.fixture in WithStatus(cx, Emitted) && ClaimedRoute(cx, m.fixture) == Some(m.route)
                                && m.destination == DestinationOf(m.fixture, m.route))
    && (forall d <- payloads :: exists f <- WithStatus(cx, Emitted) ::
         ClaimedRoute(cx, f).Some? && d == DestinationOf(f, ClaimedRoute(cx, f).value))
    && (forall route <- byRoute ::
         byRoute[route] in WithStatus(cx, Emitted) && ClaimedRoute(cx, byRoute[route]) == Some(route))
  }

  ghost predicate InTree(cx: Case, payloads: map<string, Bytes>, mappings: seq<Mapping>,
                         byRoute: map<string, string>, f: string)
  {
    && ClaimedRoute(cx, f).Some? && f in cx.files
    && var route := ClaimedRoute(cx, f).value; var destination := DestinationOf(f, route);
    && destination in payloads && payloads[destination] == cx.files[f]
    && Mapping(route, f, destination) in mappings
    && route in byRoute && byRoute[route] == f
  }

  lemma TreeFromTables(cx: Case, routes: map<string, string>, payloads: map<string, Bytes>, mappings: seq<Mapping>,
                       byRoute: map<string, string>)
    requires SurvivorTable(cx, routes) && (forall f <- routes :: Some(routes[f]) == ClaimedRoute(cx, f))
    requires OneToOne(Destinations(routes)) && Inverse(routes, byRoute)
    requires EmittedSoFar(cx.files, routes, Destinations(routes), routes.Keys, payloads, mappings)
    ensures Tree(cx, payloads, mappings, byRoute)
  {
    var dest := Destinations(routes);
    forall f: string ensures f in routes <==> f in WithStatus(cx, Emitted) { EmittedAtSix(cx, f); }
    assert WithStatus(cx, Emitted) == routes.Keys;
    ImageSize(dest, routes.Keys);
    assert |payloads| == |payloads.Keys|;
    forall f <- routes ensures InTree(cx, payloads, mappings, byRoute, f) {
      assert dest[f] == DestinationOf(f, routes[f]);
    }
  }

  /** Aliases, duplicates, route checks, collisions, emission. */
  method SettleStages(cx: Case, l0: Ledger)
    returns (l: Ledger, payloads: map<string, Bytes>, mappings: seq<Mapping>, byRoute: map<string, string>,
             conflicts: seq<Conflict>)
    requires Collected(cx) && Settled(cx, 2, {}, l0)
    ensures Settled(cx, 7, {}, l) && Tree(cx, payloads, mappings, byRoute)
    ensures conflicts != [] ==> SomeUnsettled(cx)
  {
    var l1 := ExcludeAliases(cx, l0);
    var l2, duplicates := BlockDuplicates(cx, l1);
    var l3, agreed, mismatches := AssignRoutes(cx, l2);
    var l4, routes, collisions := RemoveCollisions(cx, l3, agreed);
    SurvivorsApart(cx, routes);
    l, payloads, mappings, byRoute := Emit(cx, l4, routes);
    TreeFromTables(cx, routes, payloads, mappings, byRoute);
    conflicts := duplicates + mismatches + collisions;
  }

  // ------------------------------------------------------------ the conversion

  datatype Report = Report(counts: Counts, mappings: seq<Mapping>, excluded: seq<Finding>, unresolved: seq<Finding>,
                           missing: seq<Missing>, conflicts: seq<Conflict>,
                           rootPresent: bool, accountable: bool, closed: bool, pass: bool)
  datatype Plan = Plan(report: Report, payloads: map<string, Bytes>)

  /** No two fixture names differ only by case, and every route-map row names one fixture. */
  ghost predicate Unambiguous(cx: Case, rows: seq<Row>) {
    NamesApart(cx.w, cx.names) && forall row <- rows :: RowTarget(cx.w, cx.names, row).Some?
  }

  ghost predicate RootEmitted(cx: Case) {
    exists f <- WithStatus(cx, Emitted) :: ClaimedRoute(cx, f) == Some(SERVICE_ROOT)
  }

  /** An emitted payload has a link that is rejected and not merely excluded. */
  ghost predicate EmittedBlocks(cx: Case) {
    exists f <- WithStatus(cx, Emitted) :: PayloadBlocks(cx, f)
  }

  predicate PayloadBlocks(cx: Case, f: string) {
    f in cx.t.parsed && exists raw <- OdataIds(cx.t.parsed[f]) :: Blocking(cx.w, raw)
  }

  /** What has to be so of the archive for the conversion to pass. */
  ghost predicate Passes(cx: Case, rows: seq<Row>) {
    Unambiguous(cx, rows) && !SomeUnsettled(cx) && RootEmitted(cx) && !EmittedBlocks(cx)
  }

  /** A finished plan, told from the evidence: tree, rows, counts, link rows, and the verdict. */
  ghost predicate Converts(cx: Case, rows: seq<Row>, plan: Plan, byRoute: map<string, string>) {
    && Collected(cx) && (forall f :: f in cx.names <==> f in cx.files && IsFixture(f))
    && Tree(cx, plan.payloads, plan.report.mappings, byRoute)
    && Tallied(cx, plan.report.counts, plan.report.excluded, plan.report.unresolved)
    && LinksChecked(cx, byRoute, plan.report.missing, !plan.report.closed)
    && plan.report.accountable
    && (plan.report.pass <==> Passes(cx, rows))
  }

  lemma RootPresent(cx: Case, payloads: map<string, Bytes>, mappings: seq<Mapping>, byRoute: map<string, string>)
    requires Tree(cx, payloads, mappings, byRoute)
    ensures SERVICE_ROOT in byRoute <==> RootEmitted(cx)
  {
    if f :| f in WithStatus(cx, Emitted) && ClaimedRoute(cx, f) == Some(SERVICE_ROOT) {
      assert InTree(cx, payloads, mappings, byRoute, f);
    }
  }

  lemma NothingBlocks(cx: Case, payloads: map<string, Bytes>, mappings: seq<Mapping>, byRoute: map<string, string>)
    requires Tree(cx, payloads, mappings, byRoute)
    ensures (exists source <- byRoute :: SourceBlocks(cx, byRoute, source)) <==> EmittedBlocks(cx)
  {
    if f :| f in WithStatus(cx, Emitted) && PayloadBlocks(cx, f) {
      assert InTree(cx, payloads, mappings, byRoute, f);
      var raw :| raw in OdataIds(cx.t.parsed[f]) && Blocking(cx.w, raw);
      assert HasLink(cx, byRoute, ClaimedRoute(cx, f).value, raw);
    }
    if source :| source in byRoute && SourceBlocks(cx, byRoute, source) {
      var raw :| HasLink(cx, byRoute, source, raw) && Blocking(cx.w, raw);
      assert PayloadBlocks(cx, byRoute[source]);
    }
  }

  lemma CountZero(cx: Case)
    ensures |WithStatus(cx, Unsettled)| == 0 <==> !SomeUnsettled(cx)
  {
    if f :| f in cx.names && Final(cx, f) == Unsettled { assert f in WithStatus(cx, Unsettled); }
  }

  /** A link of an emitted payload makes urlsplit raise. */
  ghost predicate EmittedDerails(cx: Case) {
    exists f <- WithStatus(cx, Emitted) :: PayloadCrashes(cx, f)
  }

  predicate PayloadCrashes(cx: Case, f: string) {
    f in cx.t.parsed && exists raw <- OdataIds(cx.t.parsed[f]) :: cx.w.canon(raw).Crash?
  }

  lemma EmittedCrash(cx: Case, payloads: map<string, Bytes>, mappings: seq<Mapping>, byRoute: map<string, string>)
    requires Tree(cx, payloads, mappings, byRoute)
    ensures (exists source <- byRoute :: SourceCrashes(cx, byRoute, source)) <==> EmittedDerails(cx)
  {
    if source :| source in byRoute && SourceCrashes(cx, byRoute, source) {
      var raw :| HasLink(cx, byRoute, source, raw) && cx.w.canon(raw).Crash?;
      assert PayloadCrashes(cx, byRoute[source]);
    }
    if f :| f in WithStatus(cx, Emitted) && PayloadCrashes(cx, f) {
      assert InTree(cx, payloads, mappings, byRoute, f);
      var raw :| raw in OdataIds(cx.t.parsed[f]) && cx.w.canon(raw).Crash?;
      assert HasLink(cx, byRoute, ClaimedRoute(cx, f).value, raw);
    }
  }

  /** names, sidecars. */
  /** The archive's fixtures, sorted by name. */
  function FixtureNames(files: map<string, Bytes>): (names: seq<string>)
    ensures forall f :: f in names <==> f in files && IsFixture(f)
  {
    Sorted(set f | f in files && IsFixture(f))
  }

  method SplitNames(files: map<string, Bytes>) returns (names: seq<string>, sidecars: seq<string>)
    ensures names == FixtureNames(files) && forall f :: f in names <==> f in files && IsFixture(f)
    ensures forall i, j | 0 <= i < j < |names| :: names[i] != names[j]
    ensures |sidecars| == |files| - |names|
  {
    var fixtures := set f | f in files && IsFixture(f);
    names := Sorted(fixtures);
    sidecars := SortedList(files.Keys - fixtures);
    SameSize(names, fixtures);
    SameSize(sidecars, files.Keys - fixtures);
    assert fixtures <= files.Keys;
  }

  /** counts, checks and result. */
  method Compose(cx: Case, l: Ledger, payloads: map<string, Bytes>, mappings: seq<Mapping>, rootPresent: bool,
                 missing: seq<Missing>, blocking: bool, conflicts: seq<Conflict>, sidecars: nat)
    returns (plan: Plan)
    requires Collected(cx) && Settled(cx, 7, {}, l) && sidecars == |cx.files| - |cx.names|
    ensures plan.payloads == payloads && plan.report.mappings == mappings && plan.report.conflicts == conflicts
    ensures Tallied(cx, plan.report.counts, plan.report.excluded, plan.report.unresolved)
    ensures plan.report.missing == missing && plan.report.closed == !blocking && plan.report.accountable
    ensures plan.report.pass <==> conflicts == [] && |WithStatus(cx, Unsettled)| == 0 && rootPresent && !blocking
  {
    var counts, excluded, unresolved := Summarize(cx, l, sidecars);
    var accountable := counts.inputs == counts.emitted + counts.excluded + counts.unresolved + counts.sidecars;
    var pass := conflicts == [] && counts.unresolved == 0 && rootPresent && accountable && !blocking;
    plan := Plan(Report(counts, mappings, excluded, unresolved, missing, conflicts,
                        rootPresent, accountable, !blocking, pass), payloads);
  }

  lemma PassIff(cx: Case, rows: seq<Row>, conflicts: seq<Conflict>, rootPresent: bool, blocking: bool)
    requires (conflicts == [] ==> Unambiguous(cx, rows))
    requires (Unambiguous(cx, rows) && conflicts != [] ==> SomeUnsettled(cx))
    requires (rootPresent <==> RootEmitted(cx)) && (blocking <==> EmittedBlocks(cx))
    ensures Passes(cx, rows) <==> conflicts == [] && |WithStatus(cx, Unsettled)| == 0 && rootPresent && !blocking
  {
    CountZero(cx);
  }

  /** The link check of an emitted tree, told by the verdicts. */
  method CheckTree(cx: Case, ghost payloads: map<string, Bytes>, ghost mappings: seq<Mapping>,
                   byRoute: map<string, string>)
    returns (r: Option<(seq<Missing>, bool)>)
    requires Tree(cx, payloads, mappings, byRoute)
    ensures r.None? <==> EmittedDerails(cx)
    ensures r.Some? ==> LinksChecked(cx, byRoute, r.value.0, r.value.1) && (r.value.1 <==> EmittedBlocks(cx))
    ensures SERVICE_ROOT in byRoute <==> RootEmitted(cx)
  {
    r := CheckLinks(cx, byRoute);
    RootPresent(cx, payloads, mappings, byRoute);
    EmittedCrash(cx, payloads, mappings, byRoute);
    NothingBlocks(cx, payloads, mappings, byRoute);
  }

  /** From the evidence to the report. */
  method Finish(cx: Case, ghost rows: seq<Row>, l0: Ledger, conflicts0: seq<Conflict>, sidecars: nat)
    returns (r: Option<Plan>, ghost byRoute: map<string, string>)
    requires Collected(cx) && Settled(cx, 2, {}, l0) && (forall f :: f in cx.names <==> f in cx.files && IsFixture(f))
    requires (conflicts0 == [] <==> Unambiguous(cx, rows)) && sidecars == |cx.files| - |cx.names|
    ensures r.Some? ==> Converts(cx, rows, r.value, byRoute)
    ensures r.None? <==> EmittedDerails(cx)
  {
    var l, payloads, mappings, routeMap, more := SettleStages(cx, l0);
    byRoute := routeMap;
    var checked := CheckTree(cx, payloads, mappings, routeMap);
    if checked.None? { return None, byRoute; }
    assert conflicts0 + more == [] <==> conflicts0 == [] && more == [];
    PassIff(cx, rows, conflicts0 + more, SERVICE_ROOT in routeMap, checked.value.1);
    var plan := Compose(cx, l, payloads, mappings, SERVICE_ROOT in routeMap, checked.value.0, checked.value.1,
                        conflicts0 + more, sidecars);
    r := Some(plan);
  }
}
