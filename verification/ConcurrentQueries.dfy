/**
  base_query calls that share a cache, from any number of threads: each returns what it would return without one.
  The requests are those that go through the cache.
 */
module ConcurrentQueries {
  import opened Wrappers
  import opened SingleFlight
  import opened SingleFlightRuns
  import opened CacheTransparency
  import opened BaseQuery

  /** The loader of a key, as the server the cache stands in front of. */
  function Serving(wire: Wire): Server { (k: Key) => Load(wire, k) }

  function Keys(reqs: seq<Request>): seq<Key> {
    seq(|reqs|, i requires 0 <= i < |reqs| => KeyOf(reqs[i]))
  }

  /** No deep copy raises in the run. */
  predicate CopiesSucceed(acts: seq<Action>) { forall a <- acts :: !a.CopyInFails? && !a.CopyOutFails? }

  ghost predicate NoCopyRaised(s: State) {
    forall t | 0 <= t < |s.pcs| :: NoCopyFault(s.pcs[t])
  }

  predicate NoCopyFault(pc: Pc) { pc.Finished? ==> !pc.outcome.CopyOutRaised? && !pc.outcome.CopyInRaised? }

  lemma AdvanceRaisesNoCopy(s: State, t: nat)
    requires Shaped(s) && Enabled(s, Advance(t))
    ensures NoCopyFault(ApplyAdvance(s, t).pcs[t])
  {
  }

  lemma MoverRaisesNoCopy(s: State, a: Action)
    requires Shaped(s) && Enabled(s, a) && !a.CopyInFails? && !a.CopyOutFails? && !a.Mutate?
    ensures NoCopyFault(Apply(s, a).pcs[a.t])
  {
    if a.Advance? { AdvanceRaisesNoCopy(s, a.t); }
  }

  lemma StepRaisesNoCopy(s: State, a: Action)
    requires Shaped(s) && Enabled(s, a) && NoCopyRaised(s) && !a.CopyInFails? && !a.CopyOutFails?
    ensures NoCopyRaised(Apply(s, a))
  {
    if !a.Mutate? {
      StepMoves(s, a);
      MoverRaisesNoCopy(s, a);
    }
  }

  lemma {:induction false} NoCopyRaises(calls: seq<Key>, acts: seq<Action>)
    requires After(calls, acts).Some? && CopiesSucceed(acts)
    ensures NoCopyRaised(After(calls, acts).value)
  {
    if acts != [] {
      var n := |acts| - 1;
      assert forall a <- acts[..n] :: a in acts;
      NoCopyRaises(calls, acts[..n]);
      StepRaisesNoCopy(After(calls, acts[..n]).value, acts[n]);
    }
  }

  /** What base_query makes of how its get_or_load ended. */
  function Ended(outcome: Outcome, req: Request): Option<Answer> {
    match outcome
    case Returned(content) => Some(Select(Ok(content), req.key))
    case LoaderRaised(e) => Some(Err(e))
    case _ => None
  }

  /** In every interleaving, a call that ends without a failing copy ends as the direct request would. */
  lemma EachIsDirect(wire: Wire, reqs: seq<Request>, acts: seq<Action>, t: nat)
    requires After(Keys(reqs), acts).Some? && t < |reqs| && forall a <- acts :: Honest(Serving(wire), Keys(reqs), a)
    ensures var s := After(Keys(reqs), acts).value;
      && |s.pcs| == |reqs|
      && (s.pcs[t].Finished? && Ended(s.pcs[t].outcome, reqs[t]).Some? ==>
           Ended(s.pcs[t].outcome, reqs[t]) == Some(Direct(wire, reqs[t])))
  {
    Transparent(Serving(wire), Keys(reqs), acts, t);
  }

  /** When no copy raises, a run that can go no further has answered every request as the direct one would. */
  lemma AllAnswered(wire: Wire, reqs: seq<Request>, acts: seq<Action>)
    requires After(Keys(reqs), acts).Some? && CopiesSucceed(acts)
    requires forall a <- acts :: Honest(Serving(wire), Keys(reqs), a)
    requires Shaped(After(Keys(reqs), acts).value) && Stuck(After(Keys(reqs), acts).value)
    ensures var s := After(Keys(reqs), acts).value;
      && |s.pcs| == |reqs|
      && forall t | 0 <= t < |reqs| ::
           s.pcs[t].Finished? && Ended(s.pcs[t].outcome, reqs[t]) == Some(Direct(wire, reqs[t]))
  {
    var s := After(Keys(reqs), acts).value;
    Reachable(Keys(reqs), acts);
    StopsOnlyWhenDone(Keys(reqs), acts);
    NoCopyRaises(Keys(reqs), acts);
    forall t | 0 <= t < |reqs|
      ensures s.pcs[t].Finished? && Ended(s.pcs[t].outcome, reqs[t]) == Some(Direct(wire, reqs[t]))
    {
      EachIsDirect(wire, reqs, acts, t);
    }
  }
}
