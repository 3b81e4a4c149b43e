/** invoke_action: which POST, if any, an action request leads to. */
module InvokeAction {
  import opened Wrappers
  import opened JsonModel
  import opened ActionListing

  datatype Level = ReadOnly | Reversible | Destructive | Irreversible

  /** "Actions" is there, says something, and is no dict: then no target is collected. */
  predicate NotDict(resource: Object) {
    "Actions" in resource && Truthy(resource["Actions"]) && !resource["Actions"].Obj?
  }

  lemma LastTargetNext(es: seq<Found>, i: nat, full: string)
    requires i < |es|
    ensures LastTarget(es[..i + 1], full) ==
      if es[i].full == full && TargetOf(es[i].entry).Some? then TargetOf(es[i].entry) else LastTarget(es[..i], full)
  {
    assert es[..i + 1][..i] == es[..i];
  }

  method CollectTargets(es: seq<Found>) returns (out: Object)
    ensures forall full :: Get(out, full) == LastTarget(es, full)
  {
    out := map[];
    for i := 0 to |es|
      invariant forall full :: Get(out, full) == LastTarget(es[..i], full)
    {
      ghost var before := out;
      var target := TargetOf(es[i].entry);
      if target.Some? { out := out[es[i].full := target.value]; }
      forall full: string ensures Get(out, full) == LastTarget(es[..i + 1], full) {
        LastTargetNext(es, i, full);
        assert Get(before, full) == LastTarget(es[..i], full);
      }
    }
    assert es[..|es|] == es;
  }

  /** _flatten_action_targets: for each full type the target of its last entry that has one. */
  method FlattenTargets(resource: Object, order: Order) returns (out: Object)
    requires Lists(order)
    ensures NotDict(resource) ==> out == map[]
    ensures !NotDict(resource) ==> forall full :: Get(out, full) == LastTarget(FullListing(resource, order), full)
  {
    if NotDict(resource) { return map[]; }
    out := CollectTargets(FullListing(resource, order));
  }

  predicate Unwalkable(resource: Object) {
    && "Actions" in resource && !resource["Actions"].Obj? && resource["Actions"] != Arr([])
    && resource["Actions"] != Str("")
  }

  function Entry(found: map<string, Found>, short: string): Option<Found> {
    if short in found then Some(found[short]) else None
  }

  lemma LastNamedNext(es: seq<Found>, i: nat, short: string)
    requires i < |es|
    ensures LastNamed(es[..i + 1], short) ==
      if ShortName(es[i].full) == Some(short) then Some(es[i]) else LastNamed(es[..i], short)
  {
    assert es[..i + 1][..i] == es[..i];
  }

  method CollectNames(es: seq<Found>) returns (found: map<string, Found>)
    ensures forall short :: Entry(found, short) == LastNamed(es, short)
  {
    found := map[];
    for i := 0 to |es|
      invariant forall short :: Entry(found, short) == LastNamed(es[..i], short)
    {
      forall short: string { LastNamedNext(es, i, short); }
      var short := ShortName(es[i].full);
      if short.Some? { found := found[short.value := es[i]]; }
    }
    assert es[..|es|] == es;
  }

  /** _get_actions: each short name stands for its last entry; None when "Actions" cannot be walked like a dict. */
  method GetActions(resource: Object, order: Order) returns (r: Option<map<string, Found>>)
    requires Lists(order)
    ensures r.None? <==> Unwalkable(resource)
    ensures r.Some? ==> forall short :: Entry(r.value, short) == LastNamed(Listing(resource, order), short)
    ensures r.Some? ==> forall full: string, e: Json | Listed(resource, full, e) && ShortName(full).Some? ::
      ShortName(full).value in r.value
  {
    if Unwalkable(resource) { return None; }
    var found := CollectNames(Listing(resource, order));
    forall full: string, e: Json | Listed(resource, full, e) && ShortName(full).Some?
      ensures ShortName(full).value in found
    {
      ListingHas(resource, order, full, e);
      LastNamedFrom(Listing(resource, order), ShortName(full).value);
      assert Entry(found, ShortName(full).value).Some?;
    }
    r := Some(found);
  }

  datatype Action = Action(full: string, target: Json)

  /** The action of an entry: a dict with a target. */
  function ActionOf(f: Option<Found>): Option<Action> {
    if f.Some? && f.value.entry.Obj? && "target" in f.value.entry.fields
    then Some(Action(f.value.full, f.value.entry.fields["target"])) else None
  }

  function Known(actions: map<string, Action>, short: string): Option<Action> {
    if short in actions then Some(actions[short]) else None
  }

  /** The entry a short name stands for cannot be searched for a target. */
  predicate Unsearchable(f: Option<Found>) { f.Some? && (f.value.entry.Null? || Numeric(f.value.entry)) }

  /** discover_redfish_actions raises. */
  ghost predicate Raises(resource: Object, order: Order)
    requires Lists(order)
  {
    Unwalkable(resource) || exists short: string :: Unsearchable(LastNamed(Listing(resource, order), short))
  }

  /** discover_redfish_actions; None when it raises. */
  method DiscoverActions(resource: Object, order: Order) returns (r: Option<map<string, Action>>)
    requires Lists(order)
    ensures r.None? <==> Raises(resource, order)
    ensures r.Some? ==> forall short :: Known(r.value, short) == ActionOf(LastNamed(Listing(resource, order), short))
  {
    var got := GetActions(resource, order);
    if got.None? { return None; }
    var found := got.value;
    forall short: string ensures Entry(found, short) == LastNamed(Listing(resource, order), short) {}
    if exists short <- found :: Unsearchable(Some(found[short])) {
      ghost var short :| short in found && Unsearchable(Some(found[short]));
      assert Unsearchable(LastNamed(Listing(resource, order), short));
      return None;
    }
    forall short: string ensures !Unsearchable(LastNamed(Listing(resource, order), short)) {
      assert Entry(found, short) == LastNamed(Listing(resource, order), short);
    }
    r := Some(map short | short in found && ActionOf(Some(found[short])).Some? :: ActionOf(Some(found[short])).value);
    forall short: string ensures Known(r.value, short) == ActionOf(LastNamed(Listing(resource, order), short)) {
      assert Entry(found, short) == LastNamed(Listing(resource, order), short);
    }
  }

  // ------------------------------------------------------------ the request

  datatype Request = Request(name: string, fullType: Option<string>, dryRun: bool, confirm: bool,
                             confirmIrreversible: bool)

  /** The service as the request meets it: the policy, and which bodies its actions take. */
  datatype Policy = Policy(classify: string -> Level, takes: string -> bool)

  datatype Outcome =
    | ReadFailed | Raised | NotFound
    | Invalid(full: string)
    | DryRun(full: string, target: Json, blocked: bool)
    | Posted(full: string, target: Json)

  predicate Permitted(level: Level, q: Request) {
    match level
    case Irreversible => q.confirm && q.confirmIrreversible
    case Destructive => q.confirm
    case _ => true
  }

  datatype Post = Post(full: string, target: Json)

  /** full_action_type, unless it is empty. */
  function Wanted(q: Request): Option<string> { if q.fullType == Some("") then None else q.fullType }

  /** No entry of the wanted full type has a target, nor has the entry the short name stands for. */
  ghost predicate Unresolvable(resource: Object, order: Order, q: Request)
    requires Lists(order)
  {
    && (Wanted(q).Some? ==> forall t :: !Advertised(resource, Wanted(q).value, t))
    && ByShortName(resource, order, q.name).None?
  }

  /** The action a short name resolves to. */
  function ByShortName(resource: Object, order: Order, name: string): Option<Action>
    requires Lists(order)
  {
    var a := ActionOf(LastNamed(Listing(resource, order), name));
    if a.Some? && Truthy(a.value.target) then a else None
  }

  lemma ShortNameAdvertised(resource: Object, order: Order, name: string)
    requires Lists(order) && ByShortName(resource, order, name).Some?
    ensures var a := ByShortName(resource, order, name).value;
      Advertised(resource, a.full, a.target) && ShortName(a.full) == Some(name)
  {
    var es := Listing(resource, order);
    LastNamedFrom(es, name);
    var f := LastNamed(es, name).value;
    ListingAdvertised(resource, order, f, ByShortName(resource, order, name).value.target);
  }

  /**
    The entry a request names: the last of the wanted full type with a target if there is one, else that of the short
    name.
   */
  ghost predicate Names(resource: Object, order: Order, q: Request, full: string, target: Json)
    requires Lists(order)
  {
    if Wanted(q).Some? && LastTarget(FullListing(resource, order), Wanted(q).value).Some?
    then full == Wanted(q).value && LastTarget(FullListing(resource, order), full) == Some(target)
    else ByShortName(resource, order, q.name) == Some(Action(full, target))
  }

  /** It is an entry the resource advertises, of the wanted full type or with the short name. */
  lemma NamedIsAdvertised(resource: Object, order: Order, q: Request, full: string, target: Json)
    requires Lists(order) && Names(resource, order, q, full, target)
    ensures Advertised(resource, full, target) && (Some(full) == Wanted(q) || ShortName(full) == Some(q.name))
  {
    if Wanted(q).Some? && LastTarget(FullListing(resource, order), Wanted(q).value).Some? {
      LastTargetIff(resource, order, full);
    } else {
      ShortNameAdvertised(resource, order, q.name);
    }
  }

  /** The entry the request resolves to: one of the wanted full type if there is one, else that of the short name. */
  method Resolve(resource: Object, order: Order, actions: map<string, Action>, q: Request) returns (r: Option<Action>)
    requires Lists(order) && !NotDict(resource)
    requires forall short :: Known(actions, short) == ActionOf(LastNamed(Listing(resource, order), short))
    ensures r.None? <==> Unresolvable(resource, order, q)
    ensures r.Some? ==> Names(resource, order, q, r.value.full, r.value.target)
  {
    if Wanted(q).Some? {
      var targets := FlattenTargets(resource, order);
      LastTargetIff(resource, order, Wanted(q).value);
      assert Get(targets, Wanted(q).value) == LastTarget(FullListing(resource, order), Wanted(q).value);
      if Wanted(q).value in targets { return Some(Action(Wanted(q).value, targets[Wanted(q).value])); }
      assert LastTarget(FullListing(resource, order), Wanted(q).value).None?;
    }
    assert Known(actions, q.name) == ActionOf(LastNamed(Listing(resource, order), q.name));
    if q.name in actions && Truthy(actions[q.name].target) { return Some(actions[q.name]); }
    r := None;
  }

  /** What a resolved action is answered with. */
  function Answer(full: string, target: Json, q: Request, policy: Policy): Outcome {
    if !policy.takes(full) then Invalid(full)
    else if q.dryRun || !Permitted(policy.classify(full), q) then
      DryRun(full, target, !Permitted(policy.classify(full), q))
    else Posted(full, target)
  }

  /** The checks on a resolved action, and the POST. */
  method Gate(full: string, target: Json, q: Request, policy: Policy) returns (r: Outcome, posts: seq<Post>)
    ensures r == Answer(full, target, q, policy)
    ensures posts == if r.Posted? then [Post(full, target)] else []
  {
    posts := [];
    var level := policy.classify(full);
    if !policy.takes(full) { return Invalid(full), posts; }
    var dry, blocked := q.dryRun, false;
    if level == Irreversible && !(q.confirm && q.confirmIrreversible) {
      dry, blocked := true, true;
    } else if level == Destructive && !q.confirm {
      dry, blocked := true, true;
    }
    if dry { return DryRun(full, target, blocked), posts; }
    posts := posts + [Post(full, target)];
    r := Posted(full, target);
  }

  /**
    posts are the POSTs made.  There is at most one; it goes to the target of an entry the resource advertises,
    under the entry's own full type, which is the type that was classified and that the flags permit.
   */
  method Invoke(resource: Option<Object>, order: Order, q: Request, policy: Policy)
    returns (r: Outcome, posts: seq<Post>)
    requires Lists(order)
    ensures posts == if r.Posted? then [Post(r.full, r.target)] else []
    ensures forall p <- posts :: resource.Some? && Advertised(resource.value, p.full, p.target)
    ensures forall p <- posts :: Permitted(policy.classify(p.full), q) && !q.dryRun && policy.takes(p.full)
    ensures r.ReadFailed? <==> resource.None?
    ensures resource.Some? ==> (r.Raised? <==> Raises(resource.value, order))
    ensures resource.Some? && !r.Raised? ==> (r.NotFound? <==> Unresolvable(resource.value, order, q))
    ensures resource.Some? && !r.Raised? && !r.NotFound? ==>
      exists full: string, t: Json :: Names(resource.value, order, q, full, t) && r == Answer(full, t, q, policy)
  {
    posts := [];
    if resource.None? { return ReadFailed, posts; }
    var actions := DiscoverActions(resource.value, order);
    if actions.None? { return Raised, posts; }
    var action := Resolve(resource.value, order, actions.value, q);
    if action.None? { return NotFound, posts; }
    var full, target := action.value.full, action.value.target;
    NamedIsAdvertised(resource.value, order, q, full, target);
    r, posts := Gate(full, target, q, policy);
  }
}
