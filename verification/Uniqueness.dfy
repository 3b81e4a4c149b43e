/** The conversion is a function of the archive and the route map: claims in another order change no verdict. */
module Uniqueness {
  import opened Wrappers
  import opened Ordering
  import opened Routes
  import opened Evidence
  import opened Determinism
  import opened Verdicts
  import opened Settling
  import opened Emission
  import opened Gathering
  import opened Conversion

  /** The same archive with the same claims. */
  ghost predicate SameCase(a: Case, b: Case) {
    a.w == b.w && a.files == b.files && a.names == b.names && SameClaims(a.t, b.t)
  }

  // ------------------------------------------------------------ what is read off the claims

  lemma CandidateKept(a: Tables, b: Tables, f: string, c: Candidate)
    requires SameClaims(a, b) && c in ClaimsOf(a, f).candidates
    ensures c in ClaimsOf(b, f).candidates
  {
    assert c == Candidate(c.route, c.source);
    assert Claimed(a, f, c.source, Accepted(c.route));
  }

  lemma SameCandidates(a: Tables, b: Tables, f: string)
    requires SameClaims(a, b)
    ensures forall c :: c in ClaimsOf(a, f).candidates <==> c in ClaimsOf(b, f).candidates
  {
    forall c ensures c in ClaimsOf(a, f).candidates <==> c in ClaimsOf(b, f).candidates {
      if c in ClaimsOf(a, f).candidates { CandidateKept(a, b, f, c); }
      if c in ClaimsOf(b, f).candidates { CandidateKept(b, a, f, c); }
    }
  }

  lemma IssueKept(a: Tables, b: Tables, f: string, i: Issue) returns (j: Issue)
    requires SameClaims(a, b) && i in ClaimsOf(a, f).issues
    ensures j in ClaimsOf(b, f).issues && j.disposition == i.disposition
  {
    assert Claimed(a, f, i.source, Rejected(i.reason, i.disposition));
    assert Claimed(b, f, i.source, Rejected(i.reason, i.disposition));
    j :| j in ClaimsOf(b, f).issues && j.source == i.source && j.reason == i.reason && j.disposition == i.disposition;
  }

  predicate NoIssues(t: Tables, f: string) { ClaimsOf(t, f).issues == [] }

  predicate MildIssues(t: Tables, f: string) { forall i <- ClaimsOf(t, f).issues :: i.disposition == Excluded }

  lemma IssuesFollow(a: Tables, b: Tables, f: string)
    requires SameClaims(a, b)
    ensures (NoIssues(b, f) ==> NoIssues(a, f)) && (MildIssues(b, f) ==> MildIssues(a, f))
  {
    if !NoIssues(a, f) {
      var j := IssueKept(a, b, f, ClaimsOf(a, f).issues[0]);
    }
    if !MildIssues(a, f) {
      var i :| i in ClaimsOf(a, f).issues && i.disposition != Excluded;
      var j := IssueKept(a, b, f, i);
    }
  }

  lemma SameIssues(a: Tables, b: Tables, f: string)
    requires SameClaims(a, b)
    ensures (NoIssues(a, f) <==> NoIssues(b, f)) && (MildIssues(a, f) <==> MildIssues(b, f))
  {
    IssuesFollow(a, b, f);
    IssuesFollow(b, a, f);
  }

  // ------------------------------------------------------------ the verdicts

  lemma SameAlias(a: Case, b: Case, f: string)
    requires SameCase(a, b)
    ensures AliasOf(a, f) == AliasOf(b, f)
  {
    SameCandidates(a.t, b.t, f);
    assert TopRoutes(a.t, f) == TopRoutes(b.t, f);
    var top := Only(TopRoutes(a.t, f));
    if top.Some? {
      assert AliasRoutes(a, f, top.value) == AliasRoutes(b, f, top.value);
      var g := Lookup(a.w, a.names, a.w.fold(ForwardFilename(top.value)));
      if g.Some? { SameRoutes(a.t, b.t, g.value); }
    }
  }

  lemma SameClaim(a: Case, b: Case, f: string)
    requires SameCase(a, b)
    ensures ClaimedRoute(a, f) == ClaimedRoute(b, f) && TheRoute(a, f) == TheRoute(b, f)
  {
    SameAlias(a, b, f);
    SameRoutes(a.t, b.t, f);
    SameIssues(a.t, b.t, f);
    assert NoIssues(a.t, f) <==> NoIssues(b.t, f);
  }

  lemma SameAssignment(a: Case, b: Case, f: string)
    requires SameCase(a, b)
    ensures (Contested(a, f) <==> Contested(b, f)) && (Assigned(a, f) <==> Assigned(b, f))
  {
    forall g: string ensures ClaimedRoute(a, g) == ClaimedRoute(b, g) { SameClaim(a, b, g); }
    if ClaimedRoute(a, f).Some? {
      var route := ClaimedRoute(a, f).value;
      assert Claimants(a, route) == Claimants(b, route);
    }
  }

  lemma SameClashes(a: Case, b: Case, f: string, g: string)
    requires SameCase(a, b)
    ensures ClashesWith(a, f, g) <==> ClashesWith(b, f, g)
  {
    SameClaim(a, b, f);
    SameClaim(a, b, g);
    SameAssignment(a, b, f);
    SameAssignment(a, b, g);
  }

  lemma SameStage(a: Case, b: Case, f: string)
    requires SameCase(a, b)
    ensures Stage(a, f) == Stage(b, f)
  {
    SameAlias(a, b, f);
    SameAssignment(a, b, f);
    forall g: string ensures ClashesWith(a, f, g) <==> ClashesWith(b, f, g) { SameClashes(a, b, f, g); }
    assert Collides(a, f) <==> Collides(b, f);
  }

  /** The verdict on a fixture, and the route it is emitted at, do not depend on the order of the claims. */
  lemma SameVerdict(a: Case, b: Case, f: string)
    requires SameCase(a, b)
    ensures Final(a, f) == Final(b, f) && ClaimedRoute(a, f) == ClaimedRoute(b, f)
  {
    SameStage(a, b, f);
    SameClaim(a, b, f);
    SameRoutes(a.t, b.t, f);
    SameIssues(a.t, b.t, f);
    assert OnlyExcludedIssues(a, f) <==> RoutesOf(a.t, f) == {} && MildIssues(a.t, f);
    assert OnlyExcludedIssues(b, f) <==> RoutesOf(b.t, f) == {} && MildIssues(b.t, f);
    assert NoIssues(a.t, f) <==> NoIssues(b.t, f);
  }

  lemma SameStatuses(a: Case, b: Case, st: Status)
    requires SameCase(a, b)
    ensures WithStatus(a, st) == WithStatus(b, st)
  {
    forall f <- a.names ensures Final(a, f) == Final(b, f) { SameVerdict(a, b, f); }
  }

  // ------------------------------------------------------------ the conversion

  /** Any two bodies of evidence for an archive give every fixture the same status and the same route. */
  lemma VerdictsAreDetermined(a: Case, b: Case, rows: seq<Row>, ta: Trail, tb: Trail, f: string)
    requires a.w == b.w && a.files == b.files && a.names == b.names && Evidenced(a, rows, ta) && Evidenced(b, rows, tb)
    ensures Final(a, f) == Final(b, f) && ClaimedRoute(a, f) == ClaimedRoute(b, f)
  {
    EvidenceIsDetermined(a, b, rows, ta, tb);
    SameVerdict(a, b, f);
  }

  /** A link of a payload that the evidence lets through makes urlsplit raise. */
  ghost predicate EmissionDerails(w: World, files: map<string, Bytes>, names: seq<string>, rows: seq<Row>) {
    exists t: Tables, trail: Trail ::
      Evidenced(Case(w, files, names, t), rows, trail) && EmittedDerails(Case(w, files, names, t))
  }

  lemma EmissionIsDetermined(cx: Case, rows: seq<Row>, trail: Trail)
    requires Evidenced(cx, rows, trail)
    ensures EmissionDerails(cx.w, cx.files, cx.names, rows) <==> EmittedDerails(cx)
  {
    assert cx == Case(cx.w, cx.files, cx.names, cx.t);
    if EmissionDerails(cx.w, cx.files, cx.names, rows) {
      var t: Tables, other: Trail :| Evidenced(Case(cx.w, cx.files, cx.names, t), rows, other)
        && EmittedDerails(Case(cx.w, cx.files, cx.names, t));
      EvidenceIsDetermined(Case(cx.w, cx.files, cx.names, t), cx, rows, other, trail);
      SameStatuses(Case(cx.w, cx.files, cx.names, t), cx, Emitted);
    }
  }

  // ------------------------------------------------------------ the plan

  lemma SameRoot(a: Case, b: Case)
    requires SameCase(a, b) && RootEmitted(a)
    ensures RootEmitted(b)
  {
    var f :| f in WithStatus(a, Emitted) && ClaimedRoute(a, f) == Some(SERVICE_ROOT);
    SameVerdict(a, b, f);
    assert f in WithStatus(b, Emitted);
  }

  lemma SameBlocks(a: Case, b: Case)
    requires SameCase(a, b)
    ensures EmittedBlocks(a) <==> EmittedBlocks(b)
  {
    SameStatuses(a, b, Emitted);
    forall f: string ensures PayloadBlocks(a, f) <==> PayloadBlocks(b, f) {}
  }

  lemma SameUnsettled(a: Case, b: Case)
    requires SameCase(a, b) && SomeUnsettled(a)
    ensures SomeUnsettled(b)
  {
    var f :| f in a.names && Final(a, f) == Unsettled;
    SameVerdict(a, b, f);
  }

  lemma SamePass(a: Case, b: Case, rows: seq<Row>)
    requires SameCase(a, b) && Passes(a, rows)
    ensures Passes(b, rows)
  {
    SameRoot(a, b);
    SameBlocks(a, b);
    assert !SomeUnsettled(b) by {
      if SomeUnsettled(b) { SameUnsettled(b, a); }
    }
    assert Unambiguous(b, rows);
  }

  /** The tree and the rows of a plan. */
  datatype Written = Written(payloads: map<string, Bytes>, mappings: seq<Mapping>, byRoute: map<string, string>)

  ghost predicate Writes(cx: Case, t: Written) { Tree(cx, t.payloads, t.mappings, t.byRoute) }

  lemma RowKept(a: Case, b: Case, p: Written, q: Written, m: Mapping)
    requires SameCase(a, b) && Writes(a, p) && Writes(b, q) && m in p.mappings
    ensures m in q.mappings
  {
    SameVerdict(a, b, m.fixture);
    assert m.fixture in WithStatus(b, Emitted);
    assert InTree(b, q.payloads, q.mappings, q.byRoute, m.fixture);
    assert m == Mapping(m.route, m.fixture, m.destination);
  }

  lemma FileKept(a: Case, b: Case, p: Written, q: Written, d: string)
    requires SameCase(a, b) && Writes(a, p) && Writes(b, q) && d in p.payloads
    ensures d in q.payloads && q.payloads[d] == p.payloads[d]
  {
    var f :| f in WithStatus(a, Emitted) && ClaimedRoute(a, f).Some? && d == DestinationOf(f, ClaimedRoute(a, f).value);
    assert InTree(a, p.payloads, p.mappings, p.byRoute, f);
    SameVerdict(a, b, f);
    assert f in WithStatus(b, Emitted);
    assert InTree(b, q.payloads, q.mappings, q.byRoute, f);
  }

  predicate Within(x: map<string, Bytes>, y: map<string, Bytes>) { forall d <- x :: d in y && y[d] == x[d] }

  predicate Among(xs: seq<Mapping>, ys: seq<Mapping>) { forall m <- xs :: m in ys }

  lemma FilesKept(a: Case, b: Case, p: Written, q: Written)
    requires SameCase(a, b) && Writes(a, p) && Writes(b, q)
    ensures Within(p.payloads, q.payloads) && Among(p.mappings, q.mappings)
  {
    forall d <- p.payloads ensures d in q.payloads && q.payloads[d] == p.payloads[d] { FileKept(a, b, p, q, d); }
    forall m <- p.mappings ensures m in q.mappings { RowKept(a, b, p, q, m); }
  }

  lemma Mutual(p: Written, q: Written)
    requires Within(p.payloads, q.payloads) && Within(q.payloads, p.payloads)
    requires Among(p.mappings, q.mappings) && Among(q.mappings, p.mappings)
    ensures p.payloads == q.payloads && forall m :: m in p.mappings <==> m in q.mappings
  {
  }

  lemma SameWritten(a: Case, b: Case, p: Written, q: Written)
    requires SameCase(a, b) && Writes(a, p) && Writes(b, q)
    ensures p.payloads == q.payloads && forall m :: m in p.mappings <==> m in q.mappings
  {
    FilesKept(a, b, p, q);
    FilesKept(b, a, q, p);
    Mutual(p, q);
  }

  lemma SameCounts(a: Case, b: Case, p: Report, q: Report)
    requires SameCase(a, b)
    requires Tallied(a, p.counts, p.excluded, p.unresolved) && Tallied(b, q.counts, q.excluded, q.unresolved)
    ensures p.counts == q.counts
  {
    SameStatuses(a, b, Emitted);
    SameStatuses(a, b, Dropped);
    SameStatuses(a, b, Unsettled);
  }

  lemma SameVerdictOfAll(a: Case, b: Case, rows: seq<Row>, p: Report, q: Report)
    requires SameCase(a, b) && (p.pass <==> Passes(a, rows)) && (q.pass <==> Passes(b, rows))
    ensures p.pass <==> q.pass
  {
    if p.pass { SamePass(a, b, rows); }
    if q.pass { SamePass(b, a, rows); }
  }

  /** Any two plans for an archive and a route map have the same tree, the same rows, the same counts and verdict. */
  lemma PlanIsDetermined(a: Case, b: Case, rows: seq<Row>, ta: Trail, tb: Trail, p: Plan, q: Plan,
                         byA: map<string, string>, byB: map<string, string>)
    requires a.w == b.w && a.files == b.files && a.names == b.names && Evidenced(a, rows, ta) && Evidenced(b, rows, tb)
    requires Converts(a, rows, p, byA) && Converts(b, rows, q, byB)
    ensures p.payloads == q.payloads && p.report.counts == q.report.counts && (p.report.pass <==> q.report.pass)
    ensures forall m :: m in p.report.mappings <==> m in q.report.mappings
  {
    EvidenceIsDetermined(a, b, rows, ta, tb);
    SameWritten(a, b, Written(p.payloads, p.report.mappings, byA), Written(q.payloads, q.report.mappings, byB));
    SameCounts(a, b, p.report, q.report);
    SameVerdictOfAll(a, b, rows, p.report, q.report);
  }
}
