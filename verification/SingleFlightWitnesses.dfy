/** Runs that reach the corners: a key leaked under a sleeping caller, and a key both in flight and cached. */
module SingleFlightWitnesses {
  import opened Wrappers
  import opened SingleFlight
  import opened SingleFlightRuns

  lemma Extend(calls: seq<Key>, acts: seq<Action>, a: Action, s: State, s': State)
    requires After(calls, acts) == Some(s) && Step(s, a) == Some(s')
    ensures After(calls, acts + [a]) == Some(s')
  {
    assert (acts + [a])[..|acts|] == acts;
  }

  lemma FirstCallMisses(k: Key)
    ensures After([k, k], [Acquire(0)] + [Advance(0)]) == Some(Init([k, k]).(pcs := [LoopTest, Start], lock := Some(0)))
  {
    var s0 := Init([k, k]);
    var s1 := s0.(pcs := [FirstCheck, Start], lock := Some(0));
    var s2 := s1.(pcs := [LoopTest, Start]);
    assert s0.pcs[0 := FirstCheck] == s1.pcs && s1.pcs[0 := LoopTest] == s2.pcs;
    Extend([k, k], [], Acquire(0), s0, s1);
    assert [] + [Acquire(0)] == [Acquire(0)];
    Extend([k, k], [Acquire(0)], Advance(0), s1, s2);
  }

  /** Call 0 of two calls for k runs the loader. */
  function Loading0(v: Payload): seq<Action> {
    [Acquire(0)] + [Advance(0)] + [Advance(0)] + [LoaderReturns(0, v, false)]
  }

  function Loaded0(k: Key, v: Payload): State {
    State([k, k], [Loaded(0), Start], None, map[], {k}, {}, [v], {}, [k], map[k := 0])
  }

  lemma FirstCallLoads(k: Key, v: Payload)
    ensures After([k, k], Loading0(v)) == Some(Loaded0(k, v))
  {
    FirstCallMisses(k);
    var acts := [Acquire(0)] + [Advance(0)];
    var s2 := Init([k, k]).(pcs := [LoopTest, Start], lock := Some(0));
    var s3 := Loaded0(k, v).(pcs := [Loading, Start], heap := []);
    assert s2.pcs[0 := Loading] == s3.pcs && s3.pcs[0 := Loaded(0)] == Loaded0(k, v).pcs;
    assert map[][k := 0] == map[k := 0] && {} + {k} == {k} && [] + [k] == [k] && [] + [v] == [v];
    Extend([k, k], acts, Advance(0), s2, s3);
    Extend([k, k], acts + [Advance(0)], LoaderReturns(0, v, false), s3, Loaded0(k, v));
  }

  function LeakedState(k: Key, v: Payload, pc: Pc): State {
    Loaded0(k, v).(pcs := [Finished(CopyInRaised, true), pc])
  }

  lemma FirstCallLeaks(k: Key, v: Payload)
    ensures After([k, k], Loading0(v) + [CopyInFails(0)]) == Some(LeakedState(k, v, Start))
  {
    FirstCallLoads(k, v);
    assert Loaded0(k, v).pcs[0 := Finished(CopyInRaised, true)] == LeakedState(k, v, Start).pcs;
    Extend([k, k], Loading0(v), CopyInFails(0), Loaded0(k, v), LeakedState(k, v, Start));
  }

  lemma SecondCallSleeps(k: Key, v: Payload, acts: seq<Action>)
    requires After([k, k], acts) == Some(LeakedState(k, v, Start))
    ensures After([k, k], acts + [Acquire(1)] + [Advance(1)] + [Advance(1)]) ==
      Some(LeakedState(k, v, Waiting).(waiters := {1}))
  {
    var s5 := LeakedState(k, v, Start);
    var s6 := LeakedState(k, v, FirstCheck).(lock := Some(1));
    var s7 := LeakedState(k, v, LoopTest).(lock := Some(1));
    var s8 := LeakedState(k, v, Waiting).(waiters := {1});
    assert s5.pcs[1 := FirstCheck] == s6.pcs && s6.pcs[1 := LoopTest] == s7.pcs && s7.pcs[1 := Waiting] == s8.pcs;
    assert {} + {1} == {1};
    Extend([k, k], acts, Acquire(1), s5, s6);
    Extend([k, k], acts + [Acquire(1)], Advance(1), s6, s7);
    Extend([k, k], acts + [Acquire(1)] + [Advance(1)], Advance(1), s7, s8);
  }

  /** A reachable state in which a caller sleeps on a leaked key: it is stranded, and by AfterLeak stays so. */
  lemma LeakIsReachable(k: Key, v: Payload)
    ensures var acts := Loading0(v) + [CopyInFails(0)] + [Acquire(1)] + [Advance(1)] + [Advance(1)];
      && After([k, k], acts).Some?
      && var s := After([k, k], acts).value;
      Shaped(s) && |s.pcs| == 2 && Leaked(s.pcs[0]) && Stranded(s, 1) && Strands(s, 0, 1)
  {
    FirstCallLeaks(k, v);
    SecondCallSleeps(k, v, Loading0(v) + [CopyInFails(0)]);
    var s := LeakedState(k, v, Waiting).(waiters := {1});
    assert IsOwner(s, 0, s.calls[1]);
  }

  function PublishedState(k: Key, v: Payload): State {
    State([k, k], [Published(1), Start], Some(0), map[k := 1], {k}, {}, [v, v], {}, [k], map[k := 0])
  }

  function CopiedState(k: Key, v: Payload): State {
    Loaded0(k, v).(pcs := [Copied(1), Start], heap := [v, v])
  }

  lemma FirstCallCopies(k: Key, v: Payload, acts: seq<Action>)
    requires After([k, k], acts) == Some(Loaded0(k, v))
    ensures After([k, k], acts + [CopyIn(0)]) == Some(CopiedState(k, v))
  {
    assert Loaded0(k, v).pcs[0 := Copied(1)] == CopiedState(k, v).pcs && [v] + [v] == [v, v];
    Extend([k, k], acts, CopyIn(0), Loaded0(k, v), CopiedState(k, v));
  }

  lemma FirstCallPublishes(k: Key, v: Payload, acts: seq<Action>)
    requires After([k, k], acts) == Some(CopiedState(k, v))
    ensures After([k, k], acts + [Acquire(0)] + [Advance(0)]) == Some(PublishedState(k, v))
  {
    var s5, s7 := CopiedState(k, v), PublishedState(k, v);
    var s6 := s5.(pcs := [Publishing(1), Start], lock := Some(0));
    assert s5.pcs[0 := Publishing(1)] == s6.pcs && s6.pcs[0 := Published(1)] == s7.pcs && map[][k := 1] == map[k := 1];
    Extend([k, k], acts, Acquire(0), s5, s6);
    Extend([k, k], acts + [Acquire(0)], Advance(0), s6, s7);
  }

  /** A reachable state in which a key is in flight and cached at once. */
  lemma OverlapIsReachable(k: Key, v: Payload)
    ensures var s := After([k, k], Loading0(v) + [CopyIn(0)] + [Acquire(0)] + [Advance(0)]);
      s.Some? && k in s.value.inflight && k in s.value.values && s.value.lock == Some(0)
  {
    FirstCallLoads(k, v);
    FirstCallCopies(k, v, Loading0(v));
    FirstCallPublishes(k, v, Loading0(v) + [CopyIn(0)]);
  }
}
