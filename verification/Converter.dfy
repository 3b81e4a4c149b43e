/** build_conversion from end to end. */
module Converter {
  import opened Wrappers
  import opened Routes
  import opened RouteCrashes
  import opened JsonModel
  import opened Evidence
  import opened Verdicts
  import opened Emission
  import opened Gathering
  import opened Conversion
  import opened Guarantees
  import opened Uniqueness

  ghost predicate Apart(w: World, m: Mapping, n: Mapping) {
    && m.fixture != n.fixture && m.route != n.route && w.fold(m.destination) != w.fold(n.destination)
    && !(PathParts(m.destination) <= PathParts(n.destination))
    && !(PathParts(n.destination) <= PathParts(m.destination))
  }

  ghost predicate ListedOnce(plan: Plan, f: string) {
    (if IsEmitted(plan, f) then 1 else 0) + (if IsExcluded(plan, f) then 1 else 0)
    + (if IsUnresolved(plan, f) then 1 else 0) == 1
  }

  /** A row is backed by its own file, which holds its fixture's bytes. */
  ghost predicate Backed(files: map<string, Bytes>, plan: Plan, m: Mapping) {
    m.fixture in files && m.destination in plan.payloads && plan.payloads[m.destination] == files[m.fixture]
  }

  ghost predicate AddsUp(files: map<string, Bytes>, plan: Plan) {
    var c := plan.report.counts;
    && |files| == c.emitted + c.excluded + c.unresolved + c.sidecars && plan.report.accountable
    && (forall f | f in files && IsFixture(f) :: ListedOnce(plan, f))
    && (forall x | x in plan.report.excluded || x in plan.report.unresolved :: x.reason != Unclassified)
  }

  ghost predicate AllBacked(files: map<string, Bytes>, plan: Plan) {
    && |plan.payloads| == |plan.report.mappings| == plan.report.counts.emitted
    && forall m <- plan.report.mappings :: Backed(files, plan, m)
  }

  ghost predicate AllApart(w: World, plan: Plan) {
    forall m <- plan.report.mappings, n <- plan.report.mappings :: m != n ==> Apart(w, m, n)
  }

  /** What any plan delivers for an archive, without reference to how it came about. */
  ghost predicate Delivers(w: World, files: map<string, Bytes>, plan: Plan) {
    AddsUp(files, plan) && AllBacked(files, plan) && AllApart(w, plan)
  }

  lemma ConvertsAddsUp(cx: Case, rows: seq<Row>, plan: Plan, byRoute: map<string, string>)
    requires Converts(cx, rows, plan, byRoute)
    ensures AddsUp(cx.files, plan)
  {
    Accountability(cx, rows, plan, byRoute);
  }

  lemma ConvertsBacks(cx: Case, rows: seq<Row>, plan: Plan, byRoute: map<string, string>)
    requires Converts(cx, rows, plan, byRoute)
    ensures AllBacked(cx.files, plan)
  {
    TreeIsExact(cx, rows, plan, byRoute);
  }

  lemma ConvertsApart(cx: Case, rows: seq<Row>, plan: Plan, byRoute: map<string, string>)
    requires Converts(cx, rows, plan, byRoute)
    ensures AllApart(cx.w, plan)
  {
    forall m <- plan.report.mappings, n <- plan.report.mappings | m != n ensures Apart(cx.w, m, n) {
      TreeHasNoClash(cx, rows, plan, byRoute, m, n);
    }
  }

  lemma ConvertsDelivers(cx: Case, rows: seq<Row>, plan: Plan, byRoute: map<string, string>)
    requires Converts(cx, rows, plan, byRoute)
    ensures Delivers(cx.w, cx.files, plan)
  {
    ConvertsAddsUp(cx, rows, plan, byRoute);
    ConvertsBacks(cx, rows, plan, byRoute);
    ConvertsApart(cx, rows, plan, byRoute);
  }

  /**
    urlsplit raises: on a candidate, on a link of a fixture the walk is to expand, or on a link of an emitted payload.
   */
  ghost predicate NoPlan(w: World, files: map<string, Bytes>, rows: seq<Row>) {
    Derails(w, files, FixtureNames(files), rows) || EmissionDerails(w, files, FixtureNames(files), rows)
  }

  /** cx is the evidence the plan was made from, trail how it was gathered. */
  method BuildConversion(w: World, files: map<string, Bytes>, rows: seq<Row>)
    returns (r: Option<Plan>, cx: Case, trail: Trail, ghost byRoute: map<string, string>)
    requires Sound(w)
    ensures cx.w == w && cx.files == files && cx.names == FixtureNames(files)
    ensures r.None? <==> NoPlan(w, files, rows)
    ensures !RaisesEarly(w, files, cx.names, rows) ==> Tracked(w, files, cx.names, rows, trail)
    ensures !Derails(w, files, cx.names, rows) ==> Collected(cx) && Evidenced(cx, rows, trail)
    ensures r.Some? ==> Converts(cx, rows, r.value, byRoute) && Delivers(w, files, r.value)
    ensures r.Some? ==> (r.value.report.pass <==> Passes(cx, rows))
  {
    var names, sidecars := SplitNames(files);
    var collected, conflicts;
    collected, conflicts, trail := Collect(w, files, names, rows);
    cx, byRoute := Case(w, files, names, NO_TABLES), map[];
    if collected.None? { return None, cx, trail, byRoute; }
    cx := Case(w, files, names, collected.value.0);
    EmissionIsDetermined(cx, rows, trail);
    r, byRoute := Finish(cx, rows, collected.value.1, conflicts, |sidecars|);
    if r.Some? { ConvertsDelivers(cx, rows, r.value, byRoute); }
  }

  lemma BadLinkDerails(lib: Library, w: World, files: map<string, Bytes>, names: seq<string>, rows: seq<Row>,
                       f: string, n: string)
    requires w.canon("//" + n) == Canonicalize(lib, "//" + n)
    requires !lib.validNetloc(n) && forall c <- n :: InAuthority(c) && c !in CONTROLS
    requires f in names && f in files && Preclassified(w, f, files[f]).None? && f != METADATA_FIXTURE
    requires TopLevelId(w.parse(files[f]).value) == Some("//" + n)
    ensures RaisesEarly(w, files, names, rows)
  {
    BareAuthorityCrashes(lib, n);
    assert FirstClaims(w, f, files[f]).None?;
  }

  lemma RootFixtureIsRead(w: World, payload: Bytes)
    requires w.parse(payload).Some? && w.parse(payload).value.Obj?
    ensures IsFixture(ROOT_FIXTURE) && ROOT_FIXTURE != METADATA_FIXTURE && Preclassified(w, ROOT_FIXTURE, payload).None?
  {
    assert ROOT_FIXTURE[|ROOT_FIXTURE| - 6] == '1' && ".error.json"[5] == 'r';
    assert |METADATA_FIXTURE| != |ROOT_FIXTURE|;
    forall s <- SIDECARS ensures s != ROOT_FIXTURE { assert s[0] != ROOT_FIXTURE[0]; }
  }

  /**
    An archive without a plan: the ServiceRoot fixture alone, naming itself "//n" for an authority n urlsplit does not
    accept.
   */
  lemma LoneRootDerails(lib: Library, w: World, payload: Bytes, rows: seq<Row>, n: string)
    requires w == Real(lib, w.fold, w.parse, w.xmlOk)
    requires !lib.validNetloc(n) && forall c <- n :: InAuthority(c) && c !in CONTROLS
    requires w.parse(payload) == Some(Obj(map["@odata.id" := Str("//" + n)]))
    ensures NoPlan(w, map[ROOT_FIXTURE := payload], rows)
  {
    var files := map[ROOT_FIXTURE := payload];
    RootFixtureIsRead(w, payload);
    BadLinkDerails(lib, w, files, FixtureNames(files), rows, ROOT_FIXTURE, n);
  }
}
