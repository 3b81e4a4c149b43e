/** corpus_diff: planning a comparison from the corpus, and comparing a live service with it. */
module CorpusDiff {
  import opened Wrappers
  import opened Text
  import opened JsonModel
  import opened Ordering

  const ROOT := "/redfish/v1"

  type Resource = map<string, Json>
  type Fetcher = string -> Option<Resource>

  /** A stable field: its key path, and whether only the key set of what is there counts. */
  datatype Field = Field(path: seq<string>, keysOnly: bool)
  datatype Key = Systems | Managers

  /** The stable fields of each kind of resource. */
  datatype Stable = Stable(root: seq<Field>, system: seq<Field>, manager: seq<Field>, bios: seq<Field>)

  const STABLE := Stable(
    [Field(["Vendor"], false), Field(["Product"], false), Field(["RedfishVersion"], false)],
    [Field(["Manufacturer"], false), Field(["Model"], false), Field(["BiosVersion"], false),
     Field(["Boot", "BootSourceOverrideTarget@Redfish.AllowableValues"], false)],
    [Field(["Manufacturer"], false), Field(["Model"], false), Field(["FirmwareVersion"], false),
     Field(["ManagerType"], false)],
    [Field(["Attributes"], true)])

  datatype Status = Match | Drift | LiveGap | CorpusGap | NotPresent | Paginated
  datatype About = Whole | Of(field: Field) | NextLink | MemberIds
  datatype Row = Row(path: string, about: About, status: Status)

  // ------------------------------------------------------------ reading resources

  /** _dig: None is the absence sentinel. */
  function Dig(j: Json, path: seq<string>): Option<Json>
    decreases |path|
  {
    if path == [] then Some(j)
    else if j.Obj? && path[0] in j.fields then Dig(j.fields[path[0]], path[1..])
    else None
  }

  function IdOf(j: Json): Option<string> {
    if j.Obj? && "@odata.id" in j.fields && j.fields["@odata.id"].Str?
    then Some(RightStrip(j.fields["@odata.id"].s, '/')) else None
  }

  function Ids(items: seq<Json>): seq<string> {
    if items == [] then []
    else Ids(items[..|items| - 1]) + (var id := IdOf(items[|items| - 1]); if id.Some? then [id.value] else [])
  }

  /** _members, in document order; None when "Members" cannot be iterated over. */
  function Members(resource: Option<Resource>): Option<seq<string>> {
    if resource.None? || "Members" !in resource.value then Some([])
    else match resource.value["Members"]
      case Arr(items) => Some(Ids(items))
      case Str(_) => Some([])
      case Obj(_) => Some([])
      case _ => None
  }

  /** _link; an empty link is no link to its callers. */
  function LinkTo(resource: Option<Resource>, key: string): Option<string> {
    if resource.None? || key !in resource.value then None
    else
      var id := IdOf(resource.value[key]);
      if id == Some("") then None else id
  }

  function KeyName(key: Key): string { if key == Systems then "Systems" else "Managers" }

  function CollectionPath(root: Option<Resource>, key: Key): string {
    var link := LinkTo(root, KeyName(key));
    if link.Some? then link.value else ROOT + "/" + KeyName(key)
  }

  function BiosOf(corpus: Fetcher, member: string): Option<string> { LinkTo(corpus(member), "Bios") }

  // ------------------------------------------------------------ plan

  predicate MemberOf(corpus: Fetcher, key: Key, m: string) {
    var members := Members(corpus(CollectionPath(corpus(ROOT), key)));
    members.Some? && m in members.value
  }

  ghost predicate PlannedUnder(corpus: Fetcher, key: Key, p: string) {
    || p == CollectionPath(corpus(ROOT), key)
    || MemberOf(corpus, key, p)
    || (key == Systems && exists m: string :: MemberOf(corpus, Systems, m) && BiosOf(corpus, m) == Some(p))
  }

  ghost predicate Planned(corpus: Fetcher, p: string) {
    corpus(ROOT).Some? && (p == ROOT || PlannedUnder(corpus, Systems, p) || PlannedUnder(corpus, Managers, p))
  }

  ghost predicate FromMembers(corpus: Fetcher, key: Key, members: seq<string>, p: string) {
    p in members || (key == Systems && exists m <- members :: BiosOf(corpus, m) == Some(p))
  }

  method PlanMembers(corpus: Fetcher, key: Key, members: seq<string>) returns (paths: seq<string>)
    ensures forall p :: p in paths <==> FromMembers(corpus, key, members, p)
  {
    paths := [];
    for i := 0 to |members|
      invariant forall p :: p in paths <==> FromMembers(corpus, key, members[..i], p)
    {
      assert members[..i + 1] == members[..i] + [members[i]];
      paths := paths + [members[i]];
      var bios := BiosOf(corpus, members[i]);
      if key == Systems && bios.Some? { paths := paths + [bios.value]; }
    }
    assert members[..|members|] == members;
  }

  /** The paths of one collection; None when its "Members" cannot be iterated over. */
  method PlanCollection(corpus: Fetcher, key: Key) returns (r: Option<seq<string>>)
    ensures r.None? <==> Members(corpus(CollectionPath(corpus(ROOT), key))).None?
    ensures r.Some? ==> forall p :: p in r.value <==> PlannedUnder(corpus, key, p)
  {
    var coll := CollectionPath(corpus(ROOT), key);
    var members := Members(corpus(coll));
    if members.None? { return None; }
    var paths := PlanMembers(corpus, key, members.value);
    forall p ensures FromMembers(corpus, key, members.value, p) || p == coll <==> PlannedUnder(corpus, key, p) {
      if m :| m in members.value && BiosOf(corpus, m) == Some(p) { assert MemberOf(corpus, key, m); }
    }
    r := Some([coll] + paths);
  }

  /** The ServiceRoot is captured, and "Members" of a captured collection cannot be iterated over. */
  predicate PlanRaises(corpus: Fetcher) {
    && corpus(ROOT).Some?
    && (Members(corpus(CollectionPath(corpus(ROOT), Systems))).None?
        || Members(corpus(CollectionPath(corpus(ROOT), Managers))).None?)
  }

  method Plan(corpus: Fetcher) returns (r: Option<seq<string>>)
    ensures r.Some? ==> forall p :: p in r.value <==> Planned(corpus, p)
    ensures r.None? <==> PlanRaises(corpus)
  {
    if corpus(ROOT).None? { return Some([]); }
    var systems := PlanCollection(corpus, Systems);
    var managers := PlanCollection(corpus, Managers);
    if systems.None? || managers.None? { return None; }
    r := Some([ROOT] + systems.value + managers.value);
  }

  // ------------------------------------------------------------ compare

  function KeysAt(j: Json, path: seq<string>): set<string> {
    var v := Dig(j, path);
    if v.Some? && v.value.Obj? then v.value.fields.Keys else {}
  }

  /** Both sides show the same for a stable field: the same key set, or equal values, or none. */
  predicate FieldAgrees(field: Field, live: Resource, corpus: Resource) {
    if field.keysOnly then KeysAt(Obj(live), field.path) == KeysAt(Obj(corpus), field.path)
    else
      var l, c := Dig(Obj(live), field.path), Dig(Obj(corpus), field.path);
      l.Some? == c.Some? && (l.Some? ==> PyEq(l.value, c.value))
  }

  function CompareField(path: string, field: Field, live: Resource, corpus: Resource): (r: Row)
    ensures r.status == Drift <==> !FieldAgrees(field, live, corpus)
    ensures r.status == Drift || r.status == Match || r.status == NotPresent
  {
    if field.keysOnly then
      Row(path, Of(field), if KeysAt(Obj(live), field.path) == KeysAt(Obj(corpus), field.path) then Match else Drift)
    else
      var l, c := Dig(Obj(live), field.path), Dig(Obj(corpus), field.path);
      if l.None? && c.None? then Row(path, Of(field), NotPresent)
      else Row(path, Of(field), if l.Some? && c.Some? && PyEq(l.value, c.value) then Match else Drift)
  }

  /** Nothing to complain about: no drift, no gap, no pagination. */
  predicate Clean(rows: seq<Row>) { forall r <- rows :: r.status == Match || r.status == NotPresent }

  /** Nothing that blames the live side. */
  predicate Calm(rows: seq<Row>) { forall r <- rows :: r.status != Drift && r.status != LiveGap }

  ghost predicate ResourceAgrees(live: Fetcher, corpus: Fetcher, path: string, fields: seq<Field>) {
    corpus(path).Some? && live(path).Some? && forall f <- fields :: FieldAgrees(f, live(path).value, corpus(path).value)
  }

  lemma AgreesWithItself(field: Field, resource: Resource)
    ensures FieldAgrees(field, resource, resource)
  {
    var v := Dig(Obj(resource), field.path);
    if v.Some? { PyEqReflexive(v.value); }
  }

  method CompareFields(path: string, fields: seq<Field>, live: Resource, corpus: Resource, rows0: seq<Row>)
    returns (rows: seq<Row>)
    ensures Clean(rows) <==> Clean(rows0) && forall f <- fields :: FieldAgrees(f, live, corpus)
    ensures Calm(rows0) && live == corpus ==> Calm(rows)
  {
    rows := rows0;
    for i := 0 to |fields|
      invariant Clean(rows) <==> Clean(rows0) && forall j | 0 <= j < i :: FieldAgrees(fields[j], live, corpus)
      invariant Calm(rows0) && live == corpus ==> Calm(rows)
    {
      if live == corpus { AgreesWithItself(fields[i], live); }
      rows := rows + [CompareField(path, fields[i], live, corpus)];
    }
  }

  /** _compare_resource; fetched collects the live fetches. */
  method CompareResource(path: string, fields: seq<Field>, live: Fetcher, corpus: Fetcher, rows0: seq<Row>,
                         fetched0: set<string>)
    returns (rows: seq<Row>, fetched: set<string>)
    ensures Clean(rows) <==> Clean(rows0) && ResourceAgrees(live, corpus, path, fields)
    ensures Calm(rows0) && live(path) == corpus(path) ==> Calm(rows)
    ensures fetched == fetched0 + if corpus(path).Some? then {path} else {}
  {
    var c := corpus(path);
    if c.None? {
      assert Row(path, Whole, CorpusGap) in rows0 + [Row(path, Whole, CorpusGap)];
      return rows0 + [Row(path, Whole, CorpusGap)], fetched0;
    }
    fetched := fetched0 + {path};
    var l := live(path);
    if l.None? {
      assert Row(path, Whole, LiveGap) in rows0 + [Row(path, Whole, LiveGap)];
      return rows0 + [Row(path, Whole, LiveGap)], fetched;
    }
    rows := CompareFields(path, fields, l.value, c.value, rows0);
  }

  /** A member and, of a system, its Bios resource. */
  ghost predicate MemberAgrees(live: Fetcher, corpus: Fetcher, key: Key, stable: Stable, m: string) {
    && ResourceAgrees(live, corpus, m, if key == Systems then stable.system else stable.manager)
    && (key == Systems && BiosOf(corpus, m).Some? ==>
         ResourceAgrees(live, corpus, BiosOf(corpus, m).value, stable.bios))
  }

  ghost predicate SameSides(live: Fetcher, corpus: Fetcher) { forall p: string :: live(p) == corpus(p) }

  /** What comparing a member fetches: the member and the Bios of a system, as far as they are captured. */
  predicate FetchedFor(corpus: Fetcher, key: Key, m: string, p: string) {
    corpus(p).Some? && (p == m || (key == Systems && BiosOf(corpus, m) == Some(p)))
  }

  method CompareMember(live: Fetcher, corpus: Fetcher, key: Key, stable: Stable, m: string, rows0: seq<Row>,
                       fetched0: set<string>)
    returns (rows: seq<Row>, fetched: set<string>)
    ensures Clean(rows) <==> Clean(rows0) && MemberAgrees(live, corpus, key, stable, m)
    ensures Calm(rows0) && SameSides(live, corpus) ==> Calm(rows)
    ensures forall p :: p in fetched <==> p in fetched0 || FetchedFor(corpus, key, m, p)
  {
    var fields := if key == Systems then stable.system else stable.manager;
    rows, fetched := CompareResource(m, fields, live, corpus, rows0, fetched0);
    var bios := BiosOf(corpus, m);
    if key == Systems && bios.Some? {
      rows, fetched := CompareResource(bios.value, stable.bios, live, corpus, rows, fetched);
    }
  }

  predicate Paged(coll: Resource) { "Members@odata.nextLink" in coll }

  /** The member ids a collection shows. */
  function IdSet(coll: Option<Resource>): set<string> {
    var members := Members(coll);
    if members.None? then {} else Elements(members.value)
  }

  ghost predicate CollectionAgrees(live: Fetcher, corpus: Fetcher, key: Key, stable: Stable) {
    var p := CollectionPath(corpus(ROOT), key);
    && corpus(p).Some? && live(p).Some? && !Paged(corpus(p).value) && !Paged(live(p).value)
    && IdSet(live(p)) == IdSet(corpus(p))
    && forall m <- IdSet(corpus(p)) :: MemberAgrees(live, corpus, key, stable, m)
  }

  /** The loop over the members both sides have. */
  method CompareMembers(live: Fetcher, corpus: Fetcher, key: Key, stable: Stable, both: set<string>, rows0: seq<Row>,
                        fetched0: set<string>)
    returns (rows: seq<Row>, fetched: set<string>)
    ensures Clean(rows) <==> Clean(rows0) && forall m <- both :: MemberAgrees(live, corpus, key, stable, m)
    ensures Calm(rows0) && SameSides(live, corpus) ==> Calm(rows)
    ensures forall p :: p in fetched <==> p in fetched0 || exists m <- both :: FetchedFor(corpus, key, m, p)
  {
    rows, fetched := rows0, fetched0;
    var order := SortedList(both);
    for i := 0 to |order|
      invariant Clean(rows) <==>
        Clean(rows0) && forall j | 0 <= j < i :: MemberAgrees(live, corpus, key, stable, order[j])
      invariant Calm(rows0) && SameSides(live, corpus) ==> Calm(rows)
      invariant forall p :: p in fetched <==>
        p in fetched0 || exists j :: 0 <= j < i && FetchedFor(corpus, key, order[j], p)
    {
      assert order[i] in both;
      rows, fetched := CompareMember(live, corpus, key, stable, order[i], rows, fetched);
    }
  }

  /** The rows about a collection itself, before its members. */
  function CollectionRows(path: string, live: Resource, corpus: Resource, sameIds: bool): (rows: seq<Row>)
    ensures Clean(rows) <==> !Paged(live) && !Paged(corpus) && sameIds
    ensures Calm(rows) <==> sameIds
  {
    var ids := Row(path, MemberIds, if sameIds then Match else Drift);
    var paged := Row(path, NextLink, Paginated);
    var rows := (if Paged(live) then [paged] else []) + (if Paged(corpus) then [paged] else []) + [ids];
    assert ids in rows && (Paged(live) || Paged(corpus) ==> paged in rows);
    rows
  }

  lemma CleanSum(a: seq<Row>, b: seq<Row>)
    ensures Clean(a + b) <==> Clean(a) && Clean(b)
    ensures Calm(a + b) <==> Calm(a) && Calm(b)
  {
    assert forall r :: r in a + b <==> r in a || r in b;
  }

  /** What comparing the members that both sides have fetches. */
  ghost predicate FetchedFromMembers(live: Fetcher, corpus: Fetcher, key: Key, p: string) {
    var coll := CollectionPath(corpus(ROOT), key);
    exists m <- IdSet(corpus(coll)) * IdSet(live(coll)) :: FetchedFor(corpus, key, m, p)
  }

  /** A collection that both sides have. */
  method CompareCaptured(live: Fetcher, corpus: Fetcher, key: Key, stable: Stable, path: string, rows0: seq<Row>,
                         fetched0: set<string>)
    returns (rows: seq<Row>, fetched: set<string>)
    requires path == CollectionPath(corpus(ROOT), key) && live(path).Some? && corpus(path).Some?
    requires Members(live(path)).Some? && Members(corpus(path)).Some?
    ensures Clean(rows) <==> Clean(rows0) && CollectionAgrees(live, corpus, key, stable)
    ensures Calm(rows0) && SameSides(live, corpus) ==> Calm(rows)
    ensures forall p :: p in fetched <==> p in fetched0 || FetchedFromMembers(live, corpus, key, p)
  {
    var liveIds, corpusIds := IdSet(live(path)), IdSet(corpus(path));
    var head := CollectionRows(path, live(path).value, corpus(path).value, liveIds == corpusIds);
    CleanSum(rows0, head);
    rows, fetched := CompareMembers(live, corpus, key, stable, corpusIds * liveIds, rows0 + head, fetched0);
    assert liveIds == corpusIds ==> corpusIds * liveIds == corpusIds;
  }

  /** Both sides have the collection, and "Members" of one of them cannot be iterated over. */
  predicate Raises(live: Fetcher, corpus: Fetcher, key: Key) {
    var p := CollectionPath(corpus(ROOT), key);
    corpus(p).Some? && live(p).Some? && (Members(live(p)).None? || Members(corpus(p)).None?)
  }

  /** What comparing a collection fetches: a captured collection, and its members if both sides have it. */
  ghost predicate FetchedUnder(live: Fetcher, corpus: Fetcher, key: Key, p: string) {
    var coll := CollectionPath(corpus(ROOT), key);
    && corpus(coll).Some?
    && (p == coll || (live(coll).Some? && !Raises(live, corpus, key) && FetchedFromMembers(live, corpus, key, p)))
  }

  /** One collection; None when either side's "Members" cannot be iterated over. */
  method CompareCollection(live: Fetcher, corpus: Fetcher, key: Key, stable: Stable, rows0: seq<Row>,
                           fetched0: set<string>)
    returns (r: Option<seq<Row>>, fetched: set<string>)
    ensures r.Some? ==> (Clean(r.value) <==> Clean(rows0) && CollectionAgrees(live, corpus, key, stable))
    ensures r.Some? && Calm(rows0) && SameSides(live, corpus) ==> Calm(r.value)
    ensures forall p :: p in fetched <==> p in fetched0 || FetchedUnder(live, corpus, key, p)
    ensures r.None? <==> Raises(live, corpus, key)
  {
    var path := CollectionPath(corpus(ROOT), key);
    fetched := fetched0;
    var c := corpus(path);
    if c.None? {
      CleanSum(rows0, [Row(path, Whole, CorpusGap)]);
      return Some(rows0 + [Row(path, Whole, CorpusGap)]), fetched;
    }
    fetched := fetched + {path};
    var l := live(path);
    if l.None? {
      CleanSum(rows0, [Row(path, Whole, LiveGap)]);
      return Some(rows0 + [Row(path, Whole, LiveGap)]), fetched;
    }
    if Members(l).None? || Members(c).None? { return None, fetched; }
    var rows;
    rows, fetched := CompareCaptured(live, corpus, key, stable, path, rows0, fetched);
    r := Some(rows);
  }

  /** Both sides show the same, as far as the stable fields of everything planned go. */
  ghost predicate Agrees(live: Fetcher, corpus: Fetcher, stable: Stable) {
    && ResourceAgrees(live, corpus, ROOT, stable.root)
    && CollectionAgrees(live, corpus, Systems, stable) && CollectionAgrees(live, corpus, Managers, stable)
  }

  /** The live fetches of a comparison, whether it returns or raises. */
  ghost predicate Fetches(live: Fetcher, corpus: Fetcher, p: string) {
    || (p == ROOT && corpus(ROOT).Some?)
    || FetchedUnder(live, corpus, Systems, p)
    || (!Raises(live, corpus, Systems) && FetchedUnder(live, corpus, Managers, p))
  }

  /**
    fetched are the live fetches.  The report is clean exactly when both sides agree; with the ServiceRoot in the
    corpus only planned paths are fetched; a corpus compared with itself shows no drift and no live gap.
   */
  method Compare(live: Fetcher, corpus: Fetcher, stable: Stable := STABLE)
    returns (r: Option<seq<Row>>, fetched: set<string>)
    ensures r.None? <==> Raises(live, corpus, Systems) || Raises(live, corpus, Managers)
    ensures r.Some? ==> (Clean(r.value) <==> Agrees(live, corpus, stable))
    ensures forall p :: p in fetched <==> Fetches(live, corpus, p)
    ensures corpus(ROOT).Some? ==> forall p <- fetched :: Planned(corpus, p)
    ensures corpus(ROOT).None? ==>
      (fetched == {} <==> corpus(CollectionPath(None, Systems)).None? && corpus(CollectionPath(None, Managers)).None?)
    ensures r.Some? && SameSides(live, corpus) ==> Calm(r.value)
  {
    var rows;
    rows, fetched := CompareResource(ROOT, stable.root, live, corpus, [], {});
    var systems;
    systems, fetched := CompareCollection(live, corpus, Systems, stable, rows, fetched);
    if systems.None? {
      r := None;
    } else {
      r, fetched := CompareCollection(live, corpus, Managers, stable, systems.value, fetched);
    }
    assert forall p :: p in fetched <==> Fetches(live, corpus, p);
    if corpus(ROOT).Some? {
      forall p <- fetched ensures Planned(corpus, p) { RootedStaysInPlan(live, corpus, p); }
    } else {
      UnrootedFetches(live, corpus);
    }
  }

  lemma FetchedIsPlanned(live: Fetcher, corpus: Fetcher, key: Key, p: string)
    requires FetchedUnder(live, corpus, key, p)
    ensures PlannedUnder(corpus, key, p)
  {
    var coll := CollectionPath(corpus(ROOT), key);
    if p != coll {
      var m :| m in IdSet(corpus(coll)) * IdSet(live(coll)) && FetchedFor(corpus, key, m, p);
      assert MemberOf(corpus, key, m);
    }
  }

  lemma RootedStaysInPlan(live: Fetcher, corpus: Fetcher, p: string)
    requires corpus(ROOT).Some? && Fetches(live, corpus, p)
    ensures Planned(corpus, p)
  {
    if FetchedUnder(live, corpus, Systems, p) { FetchedIsPlanned(live, corpus, Systems, p); }
    if FetchedUnder(live, corpus, Managers, p) { FetchedIsPlanned(live, corpus, Managers, p); }
  }

  lemma UnrootedFetches(live: Fetcher, corpus: Fetcher)
    requires corpus(ROOT).None?
    ensures (exists p: string :: Fetches(live, corpus, p)) <==>
      corpus(CollectionPath(None, Systems)).Some? || corpus(CollectionPath(None, Managers)).Some?
  {
    if corpus(CollectionPath(None, Systems)).Some? {
      assert Fetches(live, corpus, CollectionPath(None, Systems));
    } else if corpus(CollectionPath(None, Managers)).Some? {
      assert Fetches(live, corpus, CollectionPath(None, Managers));
    }
  }

  /**
    A path outside the plan is fetched iff the ServiceRoot is not captured and a collection is, at its default path.
   */
  lemma FetchOutsidePlanIff(live: Fetcher, corpus: Fetcher)
    ensures (exists p: string :: Fetches(live, corpus, p) && !Planned(corpus, p)) <==>
      && corpus(ROOT).None?
      && (corpus(CollectionPath(None, Systems)).Some? || corpus(CollectionPath(None, Managers)).Some?)
  {
    if corpus(ROOT).Some? {
      forall p: string | Fetches(live, corpus, p) ensures Planned(corpus, p) { RootedStaysInPlan(live, corpus, p); }
    } else {
      UnrootedFetches(live, corpus);
      if p: string :| Fetches(live, corpus, p) { assert !Planned(corpus, p); }
    }
  }

  /** A corpus without the ServiceRoot that holds an empty collection of systems: it is fetched, and not planned. */
  lemma UnplannedFetch(live: Fetcher, corpus: Fetcher)
    requires corpus == ((p: string) => if p == "/redfish/v1/Systems" then Some(map[]) else None)
    ensures Fetches(live, corpus, "/redfish/v1/Systems") && !Planned(corpus, "/redfish/v1/Systems")
  {
    assert |ROOT| != |"/redfish/v1/Systems"|;
    assert CollectionPath(None, Systems) == "/redfish/v1/Systems";
  }

  /** A collection whose "Members" is null makes planning raise, and comparing the corpus with itself. */
  lemma NullMembersRaise(corpus: Fetcher)
    requires corpus == ((p: string) => if p == ROOT then Some(map[])
                                       else if p == "/redfish/v1/Systems" then Some(map["Members" := Null]) else None)
    ensures PlanRaises(corpus) && Raises(corpus, corpus, Systems)
  {
    assert |ROOT| != |"/redfish/v1/Systems"|;
    assert CollectionPath(corpus(ROOT), Systems) == "/redfish/v1/Systems";
  }

  /** Agreement path by path: every planned path is on both sides, and member sets and stable fields are the same. */
  lemma AgreementCoversThePlan(live: Fetcher, corpus: Fetcher, stable: Stable, p: string)
    requires Agrees(live, corpus, stable) && Planned(corpus, p)
    ensures corpus(p).Some? && live(p).Some?
    ensures p == ROOT ==> forall f <- stable.root :: FieldAgrees(f, live(p).value, corpus(p).value)
    ensures MemberOf(corpus, Systems, p) ==> forall f <- stable.system :: FieldAgrees(f, live(p).value, corpus(p).value)
    ensures MemberOf(corpus, Managers, p) ==>
      forall f <- stable.manager :: FieldAgrees(f, live(p).value, corpus(p).value)
    ensures forall m: string | MemberOf(corpus, Systems, m) && BiosOf(corpus, m) == Some(p) ::
      forall f <- stable.bios :: FieldAgrees(f, live(p).value, corpus(p).value)
    ensures forall key: Key | p == CollectionPath(corpus(ROOT), key) :: IdSet(live(p)) == IdSet(corpus(p))
  {
    forall key: Key, m: string | MemberOf(corpus, key, m) ensures MemberAgrees(live, corpus, key, stable, m) {
      assert CollectionAgrees(live, corpus, key, stable);
      assert m in IdSet(corpus(CollectionPath(corpus(ROOT), key)));
    }
    assert CollectionAgrees(live, corpus, Systems, stable) && CollectionAgrees(live, corpus, Managers, stable);
  }
}
