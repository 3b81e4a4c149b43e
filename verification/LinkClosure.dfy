/** build_conversion's check that every link of the emitted tree is accounted for. */
module LinkClosure {
  import opened Wrappers
  import opened JsonModel
  import opened Ordering
  import opened Routes
  import opened Evidence
  import opened Verdicts

  datatype Missing =
    | BadLink(source: string, raw: string, reason: string, disposition: Disposition)
    | MissingLink(source: string, route: string, captured: bool)

  /** The row a link of an emitted payload gets, unless its route is emitted. */
  function LinkRow(w: World, names: seq<string>, emitted: set<string>, source: string, raw: string): Option<Missing> {
    match w.canon(raw)
    case Rejected(reason, d) => Some(BadLink(source, raw, reason, d))
    case Accepted(route) =>
      if route in emitted then None
      else Some(MissingLink(source, route, Matches(w, names, w.fold(ForwardFilename(route))) != []))
    case Crash => None
  }

  predicate Blocking(w: World, raw: string) {
    w.canon(raw).Rejected? && w.canon(raw).disposition != Excluded
  }

  /** The rows of these links, in their order. */
  function LinkRows(w: World, names: seq<string>, emitted: set<string>, source: string,
                    links: seq<string>): seq<Missing>
  {
    if links == [] then []
    else
      var row := LinkRow(w, names, emitted, source, links[|links| - 1]);
      LinkRows(w, names, emitted, source, links[..|links| - 1]) + if row.Some? then [row.value] else []
  }

  lemma {:induction false} LinkRowsAre(w: World, names: seq<string>, emitted: set<string>, source: string,
                                       links: seq<string>, m: Missing)
    ensures m in LinkRows(w, names, emitted, source, links) <==>
      exists raw <- links :: LinkRow(w, names, emitted, source, raw) == Some(m)
  {
    if links != [] {
      var n := |links| - 1;
      assert links == links[..n] + [links[n]];
      LinkRowsAre(w, names, emitted, source, links[..n], m);
    }
  }

  /** The links of one payload. */
  method CheckPayload(w: World, names: seq<string>, emitted: set<string>, source: string, links: set<string>)
    returns (r: Option<(seq<Missing>, bool)>)
    ensures r.Some? <==> forall raw <- links :: !w.canon(raw).Crash?
    ensures r.Some? ==> (r.value.1 <==> exists raw <- links :: Blocking(w, raw))
    ensures r.Some? ==> forall m: Missing :: m in r.value.0 <==>
      exists raw <- links :: LinkRow(w, names, emitted, source, raw) == Some(m)
  {
    var missing: seq<Missing>, blocking := [], false;
    var order := SortedList(links);
    for i := 0 to |order|
      invariant forall j | 0 <= j < i :: !w.canon(order[j]).Crash?
      invariant blocking <==> exists j :: 0 <= j < i && Blocking(w, order[j])
      invariant missing == LinkRows(w, names, emitted, source, order[..i])
    {
      if w.canon(order[i]).Crash? {
        assert order[i] in links;
        return None;
      }
      assert order[..i + 1][..i] == order[..i];
      var row := LinkRow(w, names, emitted, source, order[i]);
      if row.Some? { missing := missing + [row.value]; }
      if Blocking(w, order[i]) { blocking := true; }
    }
    assert order[..|order|] == order;
    forall m: Missing { LinkRowsAre(w, names, emitted, source, order, m); }
    r := Some((missing, blocking));
  }

  predicate HasLink(cx: Case, byRoute: map<string, string>, source: string, raw: string) {
    source in byRoute && byRoute[source] in cx.t.parsed && raw in OdataIds(cx.t.parsed[byRoute[source]])
  }

  predicate Accounted(cx: Case, byRoute: map<string, string>, missing: seq<Missing>, source: string, raw: string) {
    var row := LinkRow(cx.w, cx.names, byRoute.Keys, source, raw);
    !cx.w.canon(raw).Crash? && (row.Some? ==> row.value in missing)
  }

  ghost predicate SourceAccounted(cx: Case, byRoute: map<string, string>, missing: seq<Missing>, source: string) {
    forall raw: string | HasLink(cx, byRoute, source, raw) :: Accounted(cx, byRoute, missing, source, raw)
  }

  ghost predicate SourceBlocks(cx: Case, byRoute: map<string, string>, source: string) {
    exists raw: string :: HasLink(cx, byRoute, source, raw) && Blocking(cx.w, raw)
  }

  ghost predicate FromSource(cx: Case, byRoute: map<string, string>, m: Missing, source: string) {
    exists raw: string ::
      HasLink(cx, byRoute, source, raw) && LinkRow(cx.w, cx.names, byRoute.Keys, source, raw) == Some(m)
  }

  ghost predicate SourceCrashes(cx: Case, byRoute: map<string, string>, source: string) {
    exists raw: string :: HasLink(cx, byRoute, source, raw) && cx.w.canon(raw).Crash?
  }

  /** The links of the payload emitted at one route. */
  method CheckSource(cx: Case, byRoute: map<string, string>, source: string) returns (r: Option<(seq<Missing>, bool)>)
    requires source in byRoute
    ensures r.None? <==> SourceCrashes(cx, byRoute, source)
    ensures r.Some? ==>
      SourceAccounted(cx, byRoute, r.value.0, source) && (r.value.1 <==> SourceBlocks(cx, byRoute, source))
    ensures r.Some? ==> forall m <- r.value.0 :: FromSource(cx, byRoute, m, source)
  {
    var f := byRoute[source];
    if f !in cx.t.parsed { return Some(([], false)); }
    var links := OdataIds(cx.t.parsed[f]);
    assert forall raw: string :: HasLink(cx, byRoute, source, raw) <==> raw in links;
    r := CheckPayload(cx.w, cx.names, byRoute.Keys, source, links);
  }

  lemma MoreMissing(cx: Case, byRoute: map<string, string>, missing: seq<Missing>, more: seq<Missing>, source: string)
    requires SourceAccounted(cx, byRoute, missing, source) || SourceAccounted(cx, byRoute, more, source)
    ensures SourceAccounted(cx, byRoute, missing + more, source)
  {
    forall raw: string | HasLink(cx, byRoute, source, raw) ensures Accounted(cx, byRoute, missing + more, source, raw) {
      assert Accounted(cx, byRoute, missing, source, raw) || Accounted(cx, byRoute, more, source, raw);
    }
  }

  /** Every link of every emitted payload is accounted for; blocking says whether one of them fails the conversion. */
  ghost predicate LinksChecked(cx: Case, byRoute: map<string, string>, missing: seq<Missing>, blocking: bool) {
    && (forall source <- byRoute :: SourceAccounted(cx, byRoute, missing, source))
    && (forall m <- missing :: exists source <- byRoute :: FromSource(cx, byRoute, m, source))
    && (blocking <==> exists source <- byRoute :: SourceBlocks(cx, byRoute, source))
  }

  method CheckLinks(cx: Case, byRoute: map<string, string>) returns (r: Option<(seq<Missing>, bool)>)
    ensures r.Some? ==> LinksChecked(cx, byRoute, r.value.0, r.value.1)
    ensures r.None? <==> exists source <- byRoute :: SourceCrashes(cx, byRoute, source)
  {
    var missing: seq<Missing>, blocking := [], false;
    var order := SortedList(byRoute.Keys);
    for i := 0 to |order|
      invariant forall j | 0 <= j < i ::
        SourceAccounted(cx, byRoute, missing, order[j]) && !SourceCrashes(cx, byRoute, order[j])
      invariant forall m <- missing :: exists source <- byRoute :: FromSource(cx, byRoute, m, source)
      invariant blocking <==> exists j :: 0 <= j < i && SourceBlocks(cx, byRoute, order[j])
    {
      assert order[i] in byRoute;
      var part := CheckSource(cx, byRoute, order[i]);
      if part.None? { return None; }
      forall j | 0 <= j <= i ensures SourceAccounted(cx, byRoute, missing + part.value.0, order[j]) {
        MoreMissing(cx, byRoute, missing, part.value.0, order[j]);
      }
      missing := missing + part.value.0;
      blocking := blocking || part.value.1;
    }
    r := Some((missing, blocking));
  }
}
