/** build_conversion, first half: reading fixtures and collecting the routes that claim them. */
module Evidence {
  import opened Wrappers
  import opened Text
  import opened JsonModel
  import opened Routes
  import opened RouteFacts
  import opened RouteCrashes

  type Bytes = seq<Byte>

  /** What the conversion calls: canonicalize_route, case folding, JSON and XML parsing. */
  datatype World = World(canon: string -> Verdict, fold: string -> string, parse: Bytes -> Option<Json>,
                         xmlOk: Bytes -> bool)

  /**
    All the conversion needs to know of canonicalize_route: what it accepts is well-formed and can be given to it
    again.
   */
  ghost predicate Sound(w: World) {
    && (forall raw: string :: w.canon(raw).Accepted? ==> WellFormed(w.canon(raw).route))
    && (forall route: string | WellFormed(route) :: !w.canon(route).Crash?)
  }

  /** The world with the real canonicalize_route in it. */
  function Real(lib: Library, fold: string -> string, parse: Bytes -> Option<Json>, xmlOk: Bytes -> bool): World {
    World(raw => Canonicalize(lib, raw), fold, parse, xmlOk)
  }

  lemma RealIsSound(lib: Library, fold: string -> string, parse: Bytes -> Option<Json>, xmlOk: Bytes -> bool)
    ensures Sound(Real(lib, fold, parse, xmlOk))
  {
    forall raw: string | Canonicalize(lib, raw).Accepted? ensures WellFormed(Canonicalize(lib, raw).route) {
      AcceptedIsWellFormed(lib, raw);
    }
    forall route: string | WellFormed(route) ensures !Canonicalize(lib, route).Crash? {
      WellFormedNeverCrashes(lib, route);
    }
  }

  const METADATA_FIXTURE := "_redfish_v1_$metadata.xml"
  const ROOT_FIXTURE := "_redfish_v1.json"
  const SIDECARS := {"corpus_manifest.json", "corpus_routes.json", "rest_api_map.status.json", "rest_api_map.npy"}

  predicate IsFixture(name: string) {
    && (name == METADATA_FIXTURE || (StartsWith(name, "_redfish_v1") && EndsWith(name, ".json")))
    && name !in SIDECARS
  }

  datatype Source = TopLevel | RouteMap | RootAnchor | Discovered | MetadataAnchor
  datatype Candidate = Candidate(route: string, source: Source)
  datatype Issue = Issue(source: Source, raw: string, reason: string, disposition: Disposition)

  /** Candidate routes and rejected candidates of one fixture. */
  datatype Claims = Claims(candidates: seq<Candidate>, issues: seq<Issue>)

  const NO_CLAIMS := Claims([], [])

  /** The parsed payloads, and what claims each fixture. */
  datatype Tables = Tables(parsed: map<string, Json>, claims: map<string, Claims>)

  function ClaimsOf(t: Tables, f: string): Claims {
    if f in t.claims then t.claims[f] else NO_CLAIMS
  }

  function RoutesOf(t: Tables, f: string): set<string> {
    set c | c in ClaimsOf(t, f).candidates :: c.route
  }

  /** A source has claimed f with a candidate that came to this verdict: a candidate route, or a recorded issue. */
  predicate Claimed(t: Tables, f: string, source: Source, v: Verdict) {
    match v
    case Accepted(route) => Candidate(route, source) in ClaimsOf(t, f).candidates
    case Rejected(reason, d) =>
      exists i <- ClaimsOf(t, f).issues :: i.source == source && i.reason == reason && i.disposition == d
    case Crash => false
  }

  /** Nothing has been claimed from this source. */
  ghost predicate NoneFrom(t: Tables, source: Source) {
    forall f: string, v: Verdict :: !Claimed(t, f, source, v)
  }

  /** Every candidate route went through canonicalize_route. */
  ghost predicate RoutesWellFormed(t: Tables) {
    forall f: string, c | c in ClaimsOf(t, f).candidates :: WellFormed(c.route)
  }

  // ------------------------------------------------------------ _add_candidate

  /** One claim added to a fixture's claims; None when urlsplit raises. */
  function Claim(w: World, old_: Claims, source: Source, raw: string): Option<Claims> {
    match w.canon(raw)
    case Crash => None
    case Rejected(reason, disposition) => Some(old_.(issues := old_.issues + [Issue(source, raw, reason, disposition)]))
    case Accepted(route) =>
      var c := Candidate(route, source);
      Some(if c in old_.candidates then old_ else old_.(candidates := old_.candidates + [c]))
  }

  function AddCandidate(w: World, t: Tables, f: string, source: Source, raw: string): Option<Tables> {
    match Claim(w, ClaimsOf(t, f), source, raw)
    case None => None
    case Some(c) => Some(t.(claims := t.claims[f := c]))
  }

  /** Claims only accumulate. */
  predicate Extends(a: Claims, b: Claims) {
    a.candidates <= b.candidates && a.issues <= b.issues
  }

  /** What was added, if anything, has this source. */
  predicate AddedFrom(a: Claims, b: Claims, sources: set<Source>) {
    && Extends(a, b)
    && (forall c <- b.candidates :: c in a.candidates || c.source in sources)
    && (forall i <- b.issues :: i in a.issues || i.source in sources)
  }

  ghost predicate Grew(t: Tables, t': Tables, sources: set<Source>) {
    && t'.parsed == t.parsed
    && forall f: string {:trigger ClaimsOf(t', f)} :: AddedFrom(ClaimsOf(t, f), ClaimsOf(t', f), sources)
  }

  lemma GrewTrans(a: Tables, b: Tables, c: Tables, sources: set<Source>)
    requires Grew(a, b, sources) && Grew(b, c, sources)
    ensures Grew(a, c, sources)
  {
    forall f: string ensures AddedFrom(ClaimsOf(a, f), ClaimsOf(c, f), sources) {
      assert AddedFrom(ClaimsOf(a, f), ClaimsOf(b, f), sources) && AddedFrom(ClaimsOf(b, f), ClaimsOf(c, f), sources);
    }
  }

  lemma GrewNot(t: Tables, sources: set<Source>)
    ensures Grew(t, t, sources)
  {
  }

  lemma AddGrows(w: World, t: Tables, f: string, source: Source, raw: string)
    requires Sound(w) && AddCandidate(w, t, f, source, raw).Some? && RoutesWellFormed(t)
    ensures var t' := AddCandidate(w, t, f, source, raw).value;
      Grew(t, t', {source}) && RoutesWellFormed(t') && forall g: string | g != f :: ClaimsOf(t', g) == ClaimsOf(t, g)
  {
    var t' := AddCandidate(w, t, f, source, raw).value;
    forall g: string, c | c in ClaimsOf(t', g).candidates ensures WellFormed(c.route) {
      assert g != f ==> c in ClaimsOf(t, g).candidates;
      assert g == f ==> c in ClaimsOf(t, f).candidates || c.route == w.canon(raw).route;
    }
  }

  /** A claim that is there after adding one was there before, or is the one added. */
  lemma ClaimedBefore(w: World, t: Tables, t': Tables, f: string, source: Source, raw: string, g: string, s: Source,
                      v: Verdict)
    requires AddCandidate(w, t, f, source, raw) == Some(t') && Claimed(t', g, s, v)
    ensures Claimed(t, g, s, v) || (g == f && s == source && w.canon(raw) == v)
  {
    if v.Rejected? {
      var i :| i in ClaimsOf(t', g).issues && i.source == s && i.reason == v.reason && i.disposition == v.disposition;
    }
  }

  lemma ClaimedEarlier(t: Tables, t': Tables, sources: set<Source>, f: string, s: Source, v: Verdict)
    requires Grew(t, t', sources) && s !in sources && Claimed(t', f, s, v)
    ensures Claimed(t, f, s, v)
  {
    assert AddedFrom(ClaimsOf(t, f), ClaimsOf(t', f), sources);
  }

  lemma ClaimedLater(t: Tables, t': Tables, sources: set<Source>, f: string, s: Source, v: Verdict)
    requires Grew(t, t', sources) && Claimed(t, f, s, v)
    ensures Claimed(t', f, s, v)
  {
    assert AddedFrom(ClaimsOf(t, f), ClaimsOf(t', f), sources);
  }

  // ------------------------------------------------------------ the first pass over the fixtures

  datatype Status = Emitted | Dropped | Unsettled

  datatype Alias = Alias(aliasRoutes: seq<string>, canonicalRoute: string, canonicalFixture: string, identical: bool)

  datatype Reason =
    | ErrorCapture | FragmentCapture | InvalidXml | InvalidJson | NotContainer
    | CanonicalAlias(alias: Alias)
    | DuplicateClaim(route: string, fixtures: seq<string>)
    | BadCandidate(issue: Issue)
    | NoRoute
    | Disagreement(routes: seq<string>)
    | NameMismatch(route: string, expected: string)
    | DestinationCollision
    | Unclassified

  /** The verdict a fixture gets from its name and payload alone. */
  function Preclassified(w: World, f: string, payload: Bytes): Option<(Status, Reason)> {
    if EndsWith(f, ".error.json") then Some((Dropped, ErrorCapture))
    else if '#' in f then Some((Dropped, FragmentCapture))
    else if f == METADATA_FIXTURE then
      if w.xmlOk(payload) then None else Some((Unsettled, InvalidXml))
    else match w.parse(payload)
      case None => Some((Unsettled, InvalidJson))
      case Some(j) => if j.Obj? || j.Arr? then None else Some((Unsettled, NotContainer))
  }

  function TopLevelId(j: Json): Option<string> {
    if j.Obj? && "@odata.id" in j.fields && j.fields["@odata.id"].Str? then Some(j.fields["@odata.id"].s) else None
  }

  /** What the first pass claims for a fixture that is not preclassified. */
  function FirstClaims(w: World, f: string, payload: Bytes): Option<Claims>
    requires Preclassified(w, f, payload).None?
  {
    if f == METADATA_FIXTURE then Claim(w, NO_CLAIMS, MetadataAnchor, SERVICE_ROOT + "/$metadata")
    else
      match TopLevelId(w.parse(payload).value)
      case None => Some(NO_CLAIMS)
      case Some(raw) => Claim(w, NO_CLAIMS, TopLevel, raw)
  }

  /** Where the first pass leaves one fixture. */
  ghost predicate FirstPassOf(w: World, files: map<string, Bytes>, t: Tables, status: map<string, Status>,
                              reasons: map<string, seq<Reason>>, f: string)
    requires f in files
  {
    var pre := Preclassified(w, f, files[f]);
    match pre
    case Some((st, why)) =>
      && f in status && status[f] == st && f in reasons && reasons[f] == [why] && f !in t.parsed
      && ClaimsOf(t, f) == NO_CLAIMS
    case None =>
      && f !in status && f !in reasons
      && FirstClaims(w, f, files[f]) == Some(ClaimsOf(t, f))
      && (f == METADATA_FIXTURE ==> f !in t.parsed)
      && (f != METADATA_FIXTURE ==> f in t.parsed && Some(t.parsed[f]) == w.parse(files[f]))
  }

  ghost predicate Untouched(t: Tables, status: map<string, Status>, reasons: map<string, seq<Reason>>, f: string) {
    f !in status && f !in reasons && f !in t.parsed && ClaimsOf(t, f) == NO_CLAIMS
  }

  /** The first pass says the same about g before and after. */
  ghost predicate Alike(t: Tables, status: map<string, Status>, reasons: map<string, seq<Reason>>,
                        t': Tables, status': map<string, Status>, reasons': map<string, seq<Reason>>, g: string)
  {
    && (g in status <==> g in status') && (g in status ==> status[g] == status'[g])
    && (g in reasons <==> g in reasons') && (g in reasons ==> reasons[g] == reasons'[g])
    && (g in t.parsed <==> g in t'.parsed) && (g in t.parsed ==> t.parsed[g] == t'.parsed[g])
    && ClaimsOf(t, g) == ClaimsOf(t', g)
  }

  /** The first pass over one fixture; None when its top-level @odata.id makes urlsplit raise. */
  method ReadFixture(w: World, files: map<string, Bytes>, t: Tables, status: map<string, Status>,
                     reasons: map<string, seq<Reason>>, f: string)
    returns (r: Option<(Tables, map<string, Status>, map<string, seq<Reason>>)>)
    requires f in files && Untouched(t, status, reasons, f)
    ensures r.None? <==> Preclassified(w, f, files[f]).None? && FirstClaims(w, f, files[f]).None?
    ensures r.Some? ==> FirstPassOf(w, files, r.value.0, r.value.1, r.value.2, f)
    ensures r.Some? ==>
      forall g: string | g != f :: Alike(t, status, reasons, r.value.0, r.value.1, r.value.2, g)
  {
    var payload := files[f];
    var pre := Preclassified(w, f, payload);
    if pre.Some? { return Some((t, status[f := pre.value.0], reasons[f := [pre.value.1]])); }
    var parsed := if f == METADATA_FIXTURE then t.parsed else t.parsed[f := w.parse(payload).value];
    var claims := FirstClaims(w, f, payload);
    if claims.None? { return None; }
    r := Some((Tables(parsed, t.claims[f := claims.value]), status, reasons));
  }

  /** None when a top-level @odata.id makes urlsplit raise. */
  method FirstPass(w: World, files: map<string, Bytes>, names: seq<string>)
    returns (r: Option<(Tables, map<string, Status>, map<string, seq<Reason>>)>)
    requires forall f <- names :: f in files
    requires forall i, j | 0 <= i < j < |names| :: names[i] != names[j]
    ensures r.Some? ==> forall f <- names :: FirstPassOf(w, files, r.value.0, r.value.1, r.value.2, f)
    ensures r.Some? ==> forall f: string | f !in names :: Untouched(r.value.0, r.value.1, r.value.2, f)
    ensures r.None? <==> exists f <- names :: Preclassified(w, f, files[f]).None? && FirstClaims(w, f, files[f]).None?
  {
    var t: Tables := Tables(map[], map[]);
    var status: map<string, Status> := map[];
    var reasons: map<string, seq<Reason>> := map[];
    for i := 0 to |names|
      invariant forall j | 0 <= j < i :: FirstPassOf(w, files, t, status, reasons, names[j])
      invariant forall f: string | f !in names[..i] :: Untouched(t, status, reasons, f)
    {
      var f := names[i];
      assert f !in names[..i];
      assert names[..i + 1] == names[..i] + [f];
      var next := ReadFixture(w, files, t, status, reasons, f);
      if next.None? { return None; }
      forall j | 0 <= j < i ensures FirstPassOf(w, files, next.value.0, next.value.1, next.value.2, names[j]) {
        assert Alike(t, status, reasons, next.value.0, next.value.1, next.value.2, names[j]);
      }
      forall g: string | g !in names[..i + 1] ensures Untouched(next.value.0, next.value.1, next.value.2, g) {
        assert Alike(t, status, reasons, next.value.0, next.value.1, next.value.2, g);
      }
      t, status, reasons := next.value.0, next.value.1, next.value.2;
    }
    r := Some((t, status, reasons));
  }

  /** The routes a top-level @odata.id claims for f. */
  function TopRoutes(t: Tables, f: string): set<string> {
    set c | c in ClaimsOf(t, f).candidates && c.source == TopLevel :: c.route
  }

  /** A parsed fixture has exactly the top-level route its own payload names, and other fixtures have none. */
  ghost predicate TopLevelFrom(w: World, t: Tables, f: string) {
    TopRoutes(t, f) ==
      if f in t.parsed && TopLevelId(t.parsed[f]).Some? && w.canon(TopLevelId(t.parsed[f]).value).Accepted?
      then {w.canon(TopLevelId(t.parsed[f]).value).route} else {}
  }

  lemma FirstPassFacts(w: World, files: map<string, Bytes>, t: Tables, status: map<string, Status>,
                       reasons: map<string, seq<Reason>>, f: string)
    requires Sound(w)
    requires (f in files && FirstPassOf(w, files, t, status, reasons, f)) || Untouched(t, status, reasons, f)
    ensures TopLevelFrom(w, t, f)
    ensures forall c <- ClaimsOf(t, f).candidates :: WellFormed(c.route)
  {
  }

  lemma GrowthKeepsTopLevel(w: World, t: Tables, t': Tables, sources: set<Source>, f: string)
    requires Grew(t, t', sources) && TopLevel !in sources && TopLevelFrom(w, t, f)
    ensures TopLevelFrom(w, t', f)
  {
    assert AddedFrom(ClaimsOf(t, f), ClaimsOf(t', f), sources);
    assert TopRoutes(t', f) == TopRoutes(t, f);
  }

  // ------------------------------------------------------------ fixture_lookup

  /** fixture_lookup.get(folded, []): the fixtures whose name folds to this. */
  function Matches(w: World, names: seq<string>, folded: string): (m: seq<string>)
    ensures forall f :: f in m <==> f in names && w.fold(f) == folded
    ensures |m| <= |names|
  {
    if names == [] then []
    else
      var rest := Matches(w, names[..|names| - 1], folded);
      if w.fold(names[|names| - 1]) == folded then rest + [names[|names| - 1]] else rest
  }

  /** The one fixture whose name folds to this, if there is exactly one. */
  function Lookup(w: World, names: seq<string>, folded: string): Option<string> {
    var m := Matches(w, names, folded);
    if |m| == 1 then Some(m[0]) else None
  }

  // ------------------------------------------------------------ the explicit route map and the anchor

  datatype Row = Row(route: string, fixture: string)

  datatype Conflict =
    | FoldedNames(fixtures: seq<string>)
    | MissingSource(row: Row)
    | DuplicateRoute(route: string, fixtures: seq<string>)
    | InvalidCandidates(fixture: string, issues: seq<Issue>)
    | ManyRoutes(fixture: string, routes: seq<string>)
    | MisnamedFixture(fixture: string, route: string, expected: string)
    | FoldedDestination(destination: string, fixtures: seq<string>)
    | FileDirectory(destination: string, fixtures: seq<string>)

  function RowTarget(w: World, names: seq<string>, row: Row): Option<string> {
    Lookup(w, names, w.fold(row.fixture))
  }

  /** A row has taken effect: its route is a candidate of its fixture, or a recorded issue. */
  ghost predicate RowApplied(w: World, names: seq<string>, t: Tables, row: Row) {
    var target := RowTarget(w, names, row);
    target.Some? ==> match w.canon(row.route)
      case Accepted(route) => Candidate(route, RouteMap) in ClaimsOf(t, target.value).candidates
      case Rejected(reason, d) => Issue(RouteMap, row.route, reason, d) in ClaimsOf(t, target.value).issues
      case Crash => false
  }

  predicate RowSays(w: World, names: seq<string>, row: Row, f: string, v: Verdict) {
    RowTarget(w, names, row) == Some(f) && w.canon(row.route) == v
  }

  /** A route-map claim goes back to a row. */
  ghost predicate FromRows(w: World, names: seq<string>, t: Tables, rows: seq<Row>) {
    forall f: string, v: Verdict | Claimed(t, f, RouteMap, v) :: exists row <- rows :: RowSays(w, names, row, f, v)
  }

  /** The loop over the sorted route map. */
  method ApplyRouteMap(w: World, names: seq<string>, t0: Tables, rows: seq<Row>)
    returns (r: Option<Tables>, conflicts: seq<Conflict>)
    requires Sound(w) && RoutesWellFormed(t0)
    requires NoneFrom(t0, RouteMap)
    ensures r.Some? ==> Grew(t0, r.value, {RouteMap}) && RoutesWellFormed(r.value)
    ensures r.Some? ==> FromRows(w, names, r.value, rows) && forall row <- rows :: RowApplied(w, names, r.value, row)
    ensures r.Some? ==> (conflicts == [] <==> forall row <- rows :: RowTarget(w, names, row).Some?)
    ensures r.None? <==> exists row <- rows :: RowTarget(w, names, row).Some? && w.canon(row.route).Crash?
  {
    var t := t0;
    conflicts := [];
    for i := 0 to |rows|
      invariant Grew(t0, t, {RouteMap}) && RoutesWellFormed(t)
      invariant FromRows(w, names, t, rows[..i])
      invariant forall row <- rows[..i] :: RowApplied(w, names, t, row)
      invariant conflicts == [] <==> forall row <- rows[..i] :: RowTarget(w, names, row).Some?
    {
      assert rows[..i + 1] == rows[..i] + [rows[i]];
      var target := RowTarget(w, names, rows[i]);
      if target.None? {
        conflicts := conflicts + [MissingSource(rows[i])];
      } else {
        var next := AddCandidate(w, t, target.value, RouteMap, rows[i].route);
        if next.None? { return None, conflicts; }
        AddGrows(w, t, target.value, RouteMap, rows[i].route);
        GrewTrans(t0, t, next.value, {RouteMap});
        RowKeeps(w, names, t, next.value, rows[..i], rows[i]);
        t := next.value;
      }
    }
    assert rows[..|rows|] == rows;
    r := Some(t);
  }

  lemma RowKeeps(w: World, names: seq<string>, t: Tables, t': Tables, rows: seq<Row>, row: Row)
    requires RowTarget(w, names, row).Some?
    requires AddCandidate(w, t, RowTarget(w, names, row).value, RouteMap, row.route) == Some(t')
    requires Grew(t, t', {RouteMap}) && FromRows(w, names, t, rows)
    requires forall x <- rows :: RowApplied(w, names, t, x)
    ensures FromRows(w, names, t', rows + [row])
    ensures forall x <- rows + [row] :: RowApplied(w, names, t', x)
  {
    var f := RowTarget(w, names, row).value;
    forall g: string, v: Verdict | Claimed(t', g, RouteMap, v)
      ensures exists x <- rows + [row] :: RowSays(w, names, x, g, v)
    {
      ClaimedBefore(w, t, t', f, RouteMap, row.route, g, RouteMap, v);
      if Claimed(t, g, RouteMap, v) {
        var x :| x in rows && RowSays(w, names, x, g, v);
        assert x in rows + [row];
      } else {
        assert row in rows + [row] && RowSays(w, names, row, g, v);
      }
    }
    forall x <- rows + [row] ensures RowApplied(w, names, t', x) {
      if x in rows && RowTarget(w, names, x).Some? {
        assert RowApplied(w, names, t, x);
        var target := RowTarget(w, names, x).value;
        assert AddedFrom(ClaimsOf(t, target), ClaimsOf(t', target), {RouteMap});
      }
    }
  }
}
