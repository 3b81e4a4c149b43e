/** Command registries: the merged table of get_registry against the search of _resolve_command. */
module Registry {
  import opened Wrappers

  /** One class's own _registry: request type, then sub-command name, to command class. */
  type Commands<A(==), N(==), C> = map<A, map<N, C>>

  /** registry.get(call), then name in bucket. */
  function Find<A, N, C>(registry: Commands<A, N, C>, call: A, name: N): Option<C> {
    if call in registry && name in registry[call] then Some(registry[call][name]) else None
  }

  predicate Has<A(==), N(==), C>(mro: seq<Option<Commands<A, N, C>>>, k: nat, call: A, name: N)
    requires k < |mro|
  {
    mro[k].Some? && Find(mro[k].value, call, name).Some?
  }

  /** mro[k] has the command and no earlier class does. */
  ghost predicate Decides<A(!new), N(!new), C>(mro: seq<Option<Commands<A, N, C>>>, k: nat, call: A, name: N)
    requires k < |mro|
  {
    Has(mro, k, call, name) && forall j | 0 <= j < k :: !Has(mro, j, call, name)
  }

  /** The answer of the most derived class that has one. */
  ghost predicate MostDerived<A(!new), N(!new), C>(mro: seq<Option<Commands<A, N, C>>>, call: A, name: N, r: Option<C>)
  {
    if r.None? then forall k | 0 <= k < |mro| :: !Has(mro, k, call, name)
    else exists k | 0 <= k < |mro| :: Decides(mro, k, call, name) && Find(mro[k].value, call, name) == r
  }

  /** Search from the most derived class; None is UnsupportedAction. */
  method ResolveCommand<A(==, !new), N(==, !new), C>(mro: seq<Option<Commands<A, N, C>>>, call: A, name: N)
    returns (r: Option<C>)
    ensures MostDerived(mro, call, name, r)
  {
    for k := 0 to |mro|
      invariant forall j | 0 <= j < k :: !Has(mro, j, call, name)
    {
      if mro[k].Some? && call in mro[k].value && name in mro[k].value[call] {
        return Some(mro[k].value[call][name]);
      }
    }
    r := None;
  }

  /** A table answers as if top's buckets of these calls were laid over base's. */
  ghost predicate Overlaid<A(!new), N(!new), C>(base: Commands<A, N, C>, top: Commands<A, N, C>, calls: set<A>,
                             merged: Commands<A, N, C>)
  {
    forall call: A, name: N :: Find(merged, call, name) ==
      if call in calls && Find(top, call, name).Some? then Find(top, call, name) else Find(base, call, name)
  }

  /** One class's buckets, each updating the bucket of the same request type. */
  method Overlay<A(==, !new), N(==, !new), C>(base: Commands<A, N, C>, top: Commands<A, N, C>)
    returns (merged: Commands<A, N, C>)
    ensures Overlaid(base, top, top.Keys, merged)
  {
    merged := base;
    var left := top.Keys;
    while left != {}
      invariant left <= top.Keys
      invariant Overlaid(base, top, top.Keys - left, merged)
    {
      var call :| call in left;
      left := left - {call};
      merged := merged[call := (if call in merged then merged[call] else map[]) + top[call]];
    }
  }

  /** The answer of the most derived class among mro[k..]. */
  ghost function Resolved<A(!new), N(!new), C>(mro: seq<Option<Commands<A, N, C>>>, k: nat, call: A, name: N): Option<C>
    requires k <= |mro|
    decreases |mro| - k
  {
    if k == |mro| then None
    else if Has(mro, k, call, name) then Find(mro[k].value, call, name)
    else Resolved(mro, k + 1, call, name)
  }

  lemma {:induction false} ResolvedIsMostDerived<A(!new), N(!new), C>(mro: seq<Option<Commands<A, N, C>>>, k: nat,
                                                   call: A, name: N)
    requires k <= |mro| && forall j | 0 <= j < k :: !Has(mro, j, call, name)
    ensures MostDerived(mro, call, name, Resolved(mro, k, call, name))
    decreases |mro| - k
  {
    if k < |mro| && !Has(mro, k, call, name) { ResolvedIsMostDerived(mro, k + 1, call, name); }
  }

  /** Merge from the base class up: every lookup gives what the search gives. */
  method GetRegistry<A(==, !new), N(==, !new), C>(mro: seq<Option<Commands<A, N, C>>>)
    returns (merged: Commands<A, N, C>)
    ensures forall call: A, name: N :: MostDerived(mro, call, name, Find(merged, call, name))
  {
    merged := map[];
    var k := |mro|;
    while k > 0
      invariant 0 <= k <= |mro|
      invariant forall call: A, name: N :: Find(merged, call, name) == Resolved(mro, k, call, name)
    {
      k := k - 1;
      if mro[k].Some? && mro[k].value != map[] {
        merged := Overlay(merged, mro[k].value);
      }
    }
    forall call: A, name: N ensures MostDerived(mro, call, name, Find(merged, call, name)) {
      ResolvedIsMostDerived(mro, 0, call, name);
    }
  }

  /** There is one most derived answer, so get_registry and _resolve_command agree on every request. */
  lemma MostDerivedIsUnique<A(!new), N(!new), C>(mro: seq<Option<Commands<A, N, C>>>, call: A, name: N, r: Option<C>,
                              s: Option<C>)
    requires MostDerived(mro, call, name, r) && MostDerived(mro, call, name, s)
    ensures r == s
  {
    if r.Some? && s.Some? {
      var k :| 0 <= k < |mro| && Decides(mro, k, call, name) && Find(mro[k].value, call, name) == r;
      var l :| 0 <= l < |mro| && Decides(mro, l, call, name) && Find(mro[l].value, call, name) == s;
      assert !(k < l) && !(l < k);
    }
  }
}
