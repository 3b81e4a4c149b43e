/** What a finished conversion plan guarantees, for every archive. */
module Guarantees {
  import opened Wrappers
  import opened JsonModel
  import opened Evidence
  import opened Verdicts
  import opened Emission
  import opened Conversion

  predicate IsEmitted(plan: Plan, f: string) { exists m <- plan.report.mappings :: m.fixture == f }
  predicate IsExcluded(plan: Plan, f: string) { exists x <- plan.report.excluded :: x.fixture == f }
  predicate IsUnresolved(plan: Plan, f: string) { exists x <- plan.report.unresolved :: x.fixture == f }

  lemma ListedBy(cx: Case, rows: seq<Row>, plan: Plan, byRoute: map<string, string>, f: string)
    requires Converts(cx, rows, plan, byRoute) && f in cx.names
    ensures IsEmitted(plan, f) <==> Final(cx, f) == Emitted
    ensures IsExcluded(plan, f) <==> Final(cx, f) == Dropped
    ensures IsUnresolved(plan, f) <==> Final(cx, f) == Unsettled
  {
    NeverUnclassified(cx, f);
    if Final(cx, f) == Emitted {
      assert f in WithStatus(cx, Emitted);
      assert InTree(cx, plan.payloads, plan.report.mappings, byRoute, f);
    } else {
      var why := Why(cx, f)[0];
      assert why in Why(cx, f);
      assert Final(cx, f) == Dropped ==> Finding(f, why) in plan.report.excluded;
      assert Final(cx, f) == Unsettled ==> Finding(f, why) in plan.report.unresolved;
    }
    if x :| x in plan.report.excluded && x.fixture == f { assert Finding(f, x.reason) in plan.report.excluded; }
    if x :| x in plan.report.unresolved && x.fixture == f { assert Finding(f, x.reason) in plan.report.unresolved; }
  }

  /**
    Every fixture of the archive, of a passing or a failing one, is listed exactly once, never as unclassified; the
    files add up.
   */
  lemma Accountability(cx: Case, rows: seq<Row>, plan: Plan, byRoute: map<string, string>)
    requires Converts(cx, rows, plan, byRoute)
    ensures forall f | f in cx.files && IsFixture(f) ::
      (if IsEmitted(plan, f) then 1 else 0) + (if IsExcluded(plan, f) then 1 else 0)
      + (if IsUnresolved(plan, f) then 1 else 0) == 1
    ensures forall x | x in plan.report.excluded || x in plan.report.unresolved ::
      x.reason != Unclassified && x.fixture in cx.files
    ensures var c := plan.report.counts; |cx.files| == c.emitted + c.excluded + c.unresolved + c.sidecars
  {
    forall f | f in cx.files && IsFixture(f)
      ensures (if IsEmitted(plan, f) then 1 else 0) + (if IsExcluded(plan, f) then 1 else 0)
              + (if IsUnresolved(plan, f) then 1 else 0) == 1
    {
      ListedBy(cx, rows, plan, byRoute, f);
    }
    forall x | x in plan.report.excluded || x in plan.report.unresolved
      ensures x.reason != Unclassified && x.fixture in cx.files
    {
      assert x == Finding(x.fixture, x.reason);
      NeverUnclassified(cx, x.fixture);
    }
  }

  lemma RowIsInTree(cx: Case, rows: seq<Row>, plan: Plan, byRoute: map<string, string>, m: Mapping)
    requires Converts(cx, rows, plan, byRoute) && m in plan.report.mappings
    ensures m.fixture in cx.names && Final(cx, m.fixture) == Emitted && ClaimedRoute(cx, m.fixture) == Some(m.route)
    ensures m.destination == DestinationOf(m.fixture, m.route)
    ensures m.fixture in cx.files && m.destination in plan.payloads
    ensures plan.payloads[m.destination] == cx.files[m.fixture]
  {
    assert InTree(cx, plan.payloads, plan.report.mappings, byRoute, m.fixture);
  }

  /** One file per row, with the bytes of the row's fixture, and no other files. */
  lemma TreeIsExact(cx: Case, rows: seq<Row>, plan: Plan, byRoute: map<string, string>)
    requires Converts(cx, rows, plan, byRoute)
    ensures |plan.payloads| == |plan.report.mappings| == plan.report.counts.emitted
    ensures forall m <- plan.report.mappings ::
      m.fixture in cx.files && m.destination in plan.payloads && plan.payloads[m.destination] == cx.files[m.fixture]
    ensures forall d <- plan.payloads :: exists m <- plan.report.mappings :: m.destination == d
  {
    forall m <- plan.report.mappings
      ensures m.fixture in cx.files && m.destination in plan.payloads
      ensures plan.payloads[m.destination] == cx.files[m.fixture]
    {
      RowIsInTree(cx, rows, plan, byRoute, m);
    }
    forall d <- plan.payloads ensures exists m <- plan.report.mappings :: m.destination == d {
      var f :| f in WithStatus(cx, Emitted) && ClaimedRoute(cx, f).Some?
          && d == DestinationOf(f, ClaimedRoute(cx, f).value);
      assert InTree(cx, plan.payloads, plan.report.mappings, byRoute, f);
    }
  }

  /**
    Two rows with different fixtures have different routes, destinations that differ even when folded, and no file
    where the other needs a directory.
   */
  lemma TreeHasNoClash(cx: Case, rows: seq<Row>, plan: Plan, byRoute: map<string, string>, m: Mapping, n: Mapping)
    requires Converts(cx, rows, plan, byRoute) && m in plan.report.mappings && n in plan.report.mappings && m != n
    ensures m.fixture != n.fixture && m.route != n.route && cx.w.fold(m.destination) != cx.w.fold(n.destination)
    ensures !(PathParts(m.destination) <= PathParts(n.destination))
    ensures !(PathParts(n.destination) <= PathParts(m.destination))
  {
    RowIsInTree(cx, rows, plan, byRoute, m);
    RowIsInTree(cx, rows, plan, byRoute, n);
    EmittedApart(cx, m.fixture, n.fixture);
  }

  /** The evidence for an alias row is the alias verdict of its fixture. */
  lemma AliasRow(cx: Case, rows: seq<Row>, plan: Plan, byRoute: map<string, string>, f: string, a: Alias)
    requires Converts(cx, rows, plan, byRoute) && Finding(f, CanonicalAlias(a)) in plan.report.excluded
    ensures f in cx.names && AliasOf(cx, f) == Some(a)
  {
    AliasReason(cx, f, a);
  }

  /**
    In a passing conversion an alias is excluded only in favour of an emitted file: at the canonical
    route, with a payload that compares equal, and equal byte for byte when the row says so.
   */
  lemma AliasLosesNothing(cx: Case, rows: seq<Row>, plan: Plan, byRoute: map<string, string>, f: string, a: Alias)
    requires Converts(cx, rows, plan, byRoute) && plan.report.pass
    requires Finding(f, CanonicalAlias(a)) in plan.report.excluded
    ensures var g := a.canonicalFixture; var d := DestinationOf(g, a.canonicalRoute);
      && Mapping(a.canonicalRoute, g, d) in plan.report.mappings && d in plan.payloads && g != f && !IsExcluded(plan, g)
      && f in cx.files && cx.w.parse(cx.files[f]).Some? && cx.w.parse(plan.payloads[d]).Some?
      && PyEq(cx.w.parse(cx.files[f]).value, cx.w.parse(plan.payloads[d]).value)
      && a.identical == (cx.files[f] == plan.payloads[d])
  {
    AliasRow(cx, rows, plan, byRoute, f, a);
    AliasWitnessInTree(cx, rows, plan, byRoute, f, a);
    AliasHasWitness(cx, f);
    WitnessListed(cx, rows, plan, byRoute, a.canonicalFixture);
  }

  lemma WitnessListed(cx: Case, rows: seq<Row>, plan: Plan, byRoute: map<string, string>, g: string)
    requires Converts(cx, rows, plan, byRoute) && g in cx.names && Final(cx, g) == Emitted
    ensures !IsExcluded(plan, g)
  {
    ListedBy(cx, rows, plan, byRoute, g);
  }

  lemma AliasWitnessInTree(cx: Case, rows: seq<Row>, plan: Plan, byRoute: map<string, string>, f: string, a: Alias)
    requires Converts(cx, rows, plan, byRoute) && plan.report.pass && AliasOf(cx, f) == Some(a)
    ensures var g := a.canonicalFixture;
      && g in cx.names && Final(cx, g) == Emitted && ClaimedRoute(cx, g) == Some(a.canonicalRoute)
      && InTree(cx, plan.payloads, plan.report.mappings, byRoute, g)
  {
    PassSettlesAll(cx, rows, plan, byRoute);
    WitnessEmitted(cx, f, a);
    EmittedInTree(cx, rows, plan, byRoute, a.canonicalFixture);
  }

  lemma PassSettlesAll(cx: Case, rows: seq<Row>, plan: Plan, byRoute: map<string, string>)
    requires Converts(cx, rows, plan, byRoute) && plan.report.pass
    ensures Collected(cx) && forall x <- cx.names :: Final(cx, x) != Unsettled
  {
  }

  lemma WitnessEmitted(cx: Case, f: string, a: Alias)
    requires Collected(cx) && AliasOf(cx, f) == Some(a) && forall x <- cx.names :: Final(cx, x) != Unsettled
    ensures var g := a.canonicalFixture;
      g in cx.names && Final(cx, g) == Emitted && ClaimedRoute(cx, g) == Some(a.canonicalRoute)
  {
    AliasHasWitness(cx, f);
    AliasWitnessEmitted(cx, f);
  }

  lemma EmittedInTree(cx: Case, rows: seq<Row>, plan: Plan, byRoute: map<string, string>, g: string)
    requires Converts(cx, rows, plan, byRoute) && g in cx.names && Final(cx, g) == Emitted
    ensures InTree(cx, plan.payloads, plan.report.mappings, byRoute, g)
  {
    assert g in WithStatus(cx, Emitted);
  }
}
