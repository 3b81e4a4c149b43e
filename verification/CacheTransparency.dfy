/** The cache is invisible: against a server that is a function of the request, calls see what the server says. */
module CacheTransparency {
  import opened Wrappers
  import opened SingleFlight
  import opened SingleFlightRuns

  type Server = Key -> Result<Payload, string>

  /** The loader of a call asks the server for the call's own key and hands over a payload nobody else holds. */
  predicate Honest(serve: Server, calls: seq<Key>, a: Action) {
    match a
    case LoaderReturns(t, v, retained) => t < |calls| ==> serve(calls[t]) == Ok(v) && !retained
    case LoaderRaises(t, e) => t < |calls| ==> serve(calls[t]) == Err(e)
    case _ => true
  }

  /** Everything call t carries came from the server, and no outside write can reach it. */
  ghost predicate CallServed(serve: Server, s: State, t: nat)
    requires Shaped(s) && t < |s.pcs|
  {
    var pc, k := s.pcs[t], s.calls[t];
    && (RefOf(pc).Some? ==> RefOf(pc).value !in s.shared && serve(k) == Ok(s.heap[RefOf(pc).value]))
    && (pc.LoadFailed? || pc.Aborting? || pc.Aborted? ==> serve(k) == Err(pc.error))
    && (pc.Finished? && pc.outcome.Returned? ==> serve(k) == Ok(pc.outcome.content))
    && (pc.Finished? && pc.outcome.LoaderRaised? ==> serve(k) == Err(pc.outcome.error))
  }

  ghost predicate Served(serve: Server, s: State)
    requires Shaped(s)
  {
    && (forall t | 0 <= t < |s.pcs| :: CallServed(serve, s, t))
    && (forall k <- s.values :: serve(k) == Ok(s.heap[s.values[k]]))
  }

  lemma AdvanceServesOwn(serve: Server, s: State, t: nat)
    requires Inv(s) && Enabled(s, Advance(t)) && Served(serve, s) && Shaped(ApplyAdvance(s, t))
    ensures CallServed(serve, ApplyAdvance(s, t), t)
  {
    assert CallOk(s, t) && CallServed(serve, s, t);
  }

  /** A step in the lock leaves the other calls and every existing cell as they are; only a new cell is shared. */
  lemma AdvanceFrame(s: State, t: nat, u: nat)
    requires Shaped(s) && Enabled(s, Advance(t)) && u < |s.pcs| && u != t
    ensures var s' := ApplyAdvance(s, t);
      && |s'.pcs| == |s.pcs| && s'.pcs[u] == s.pcs[u] && s'.calls == s.calls && s.heap <= s'.heap
      && s'.shared <= s.shared + {|s.heap|}
  {
  }

  lemma FrameServes(serve: Server, s: State, s': State, u: nat)
    requires Shaped(s) && Shaped(s') && u < |s.pcs| == |s'.pcs| && CallServed(serve, s, u)
    requires s'.pcs[u] == s.pcs[u] && s'.calls == s.calls && s.heap <= s'.heap && s'.shared <= s.shared + {|s.heap|}
    ensures CallServed(serve, s', u)
  {
  }

  lemma AdvanceServesCall(serve: Server, s: State, t: nat, u: nat)
    requires Inv(s) && Enabled(s, Advance(t)) && Served(serve, s) && Shaped(ApplyAdvance(s, t)) && u < |s.pcs|
    ensures |ApplyAdvance(s, t).pcs| == |s.pcs| && CallServed(serve, ApplyAdvance(s, t), u)
  {
    if u == t {
      AdvanceServesOwn(serve, s, t);
    } else {
      AdvanceFrame(s, t, u);
      FrameServes(serve, s, ApplyAdvance(s, t), u);
    }
  }

  lemma AdvanceServesValues(serve: Server, s: State, t: nat)
    requires Inv(s) && Enabled(s, Advance(t)) && Served(serve, s) && Shaped(ApplyAdvance(s, t))
    ensures var s' := ApplyAdvance(s, t); forall k <- s'.values :: serve(k) == Ok(s'.heap[s'.values[k]])
  {
    assert CallOk(s, t) && CallServed(serve, s, t);
  }

  lemma AdvanceServes(serve: Server, s: State, t: nat)
    requires Inv(s) && Enabled(s, Advance(t)) && Served(serve, s) && Shaped(ApplyAdvance(s, t))
    ensures Served(serve, ApplyAdvance(s, t))
  {
    AdvanceServesCall(serve, s, t, t);
    forall u | 0 <= u < |s.pcs| ensures CallServed(serve, ApplyAdvance(s, t), u) { AdvanceServesCall(serve, s, t, u); }
    AdvanceServesValues(serve, s, t);
  }

  lemma StepServes(serve: Server, s: State, a: Action)
    requires Inv(s) && Enabled(s, a) && Served(serve, s) && Honest(serve, s.calls, a)
    ensures Inv(Apply(s, a)) && Served(serve, Apply(s, a))
  {
    StepKeeps(s, a);
    if a.Advance? {
      AdvanceServes(serve, s, a.t);
    } else {
      var s' := Apply(s, a);
      if !a.Mutate? { assert CallOk(s, a.t) && CallServed(serve, s, a.t); }
      forall u | 0 <= u < |s'.pcs| ensures CallServed(serve, s', u) { assert CallServed(serve, s, u); }
    }
  }

  lemma {:induction false} RunServes(serve: Server, calls: seq<Key>, acts: seq<Action>)
    requires After(calls, acts).Some? && forall a <- acts :: Honest(serve, calls, a)
    ensures var s := After(calls, acts).value; Inv(s) && s.calls == calls && Served(serve, s)
  {
    Reachable(calls, acts);
    if acts != [] {
      var n := |acts| - 1;
      RunServes(serve, calls, acts[..n]);
      StepServes(serve, After(calls, acts[..n]).value, acts[n]);
    }
  }

  /**
    Transparency in every interleaving, with callers free to write to what they were given:
    a call that ends, ends as the same request without a cache would, unless a deep copy raised,
    and an error is never cached.
   */
  lemma Transparent(serve: Server, calls: seq<Key>, acts: seq<Action>, t: nat)
    requires After(calls, acts).Some? && forall a <- acts :: Honest(serve, calls, a)
    requires t < |calls|
    ensures var s := After(calls, acts).value;
      && |s.pcs| == |calls|
      && (s.pcs[t].Finished? && s.pcs[t].outcome.Returned? ==> serve(calls[t]) == Ok(s.pcs[t].outcome.content))
      && (s.pcs[t].Finished? && s.pcs[t].outcome.LoaderRaised? ==> serve(calls[t]) == Err(s.pcs[t].outcome.error))
      && (forall k <- s.values :: serve(k).Ok?)
  {
    RunServes(serve, calls, acts);
    assert CallServed(serve, After(calls, acts).value, t);
  }
}
