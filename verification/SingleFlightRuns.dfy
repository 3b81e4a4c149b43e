/** What SingleFlight's invariant says about every run of get_or_load calls. */
module SingleFlightRuns {
  import opened Wrappers
  import opened SingleFlight

  ghost function Step(s: State, a: Action): Option<State> {
    if Shaped(s) && Enabled(s, a) then Some(Apply(s, a)) else None
  }

  /** The state after a run of actions from the empty cache, if each was enabled in turn. */
  ghost function After(calls: seq<Key>, acts: seq<Action>): Option<State> {
    if acts == [] then Some(Init(calls))
    else
      var before := After(calls, acts[..|acts| - 1]);
      if before.None? then None else Step(before.value, acts[|acts| - 1])
  }

  // ------------------------------------------------------------ loader accounting

  ghost function RaisedCalls(s: State, k: Key): set<nat>
    requires Shaped(s)
  {
    set t | 0 <= t < |s.pcs| && Raised(s.pcs[t]) && s.calls[t] == k
  }

  predicate Started(pc: Pc) {
    || pc.Loading? || pc.Loaded? || pc.Copied? || pc.Publishing? || pc.Published?
    || pc.Discarded? || pc.Notified? || pc.LoadFailed? || pc.Aborting? || pc.Aborted?
    || (pc.Finished? && pc.ran)
  }

  ghost function StartedCalls(s: State): set<nat> {
    set t | 0 <= t < |s.pcs| && Started(s.pcs[t])
  }

  /** A run of k's loader is under way, or has succeeded. */
  predicate Spoken(s: State, k: Key)
    requires Shaped(s)
  {
    || k in s.values
    || k in s.inflight
    || (s.lock.Some? && s.pcs[s.lock.value].Aborted? && s.calls[s.lock.value] == k)
  }

  ghost predicate Counted(s: State, k: Key)
    requires Shaped(s)
  {
    multiset(s.loads)[k] == |RaisedCalls(s, k)| + if Spoken(s, k) then 1 else 0
  }

  predicate Claims(s: State, a: Action)
    requires Shaped(s) && Enabled(s, a)
  {
    a.Advance? && s.pcs[a.t].LoopTest? && s.calls[a.t] !in s.inflight
  }

  predicate Reraises(s: State, a: Action)
    requires Shaped(s) && Enabled(s, a)
  {
    a.Advance? && s.pcs[a.t].Aborted?
  }

  predicate Raised(pc: Pc) { pc.Finished? && pc.outcome.LoaderRaised? }

  /** How a step of call t changes the calls: at most t moves, and only as claimed and reraised say. */
  predicate Moved(s: State, s': State, t: nat, claimed: bool, reraised: bool) {
    && t < |s.pcs| == |s.calls|
    && s'.calls == s.calls && |s'.pcs| == |s.pcs| && s'.pcs == s.pcs[t := s'.pcs[t]]
    && !Raised(s.pcs[t]) && Raised(s'.pcs[t]) == reraised
    && Started(s'.pcs[t]) == (Started(s.pcs[t]) || claimed)
    && (claimed ==> !Started(s.pcs[t]) && !reraised)
    && s'.loads == if claimed then s.loads + [s.calls[t]] else s.loads
  }

  lemma AdvanceMoves(s: State, t: nat)
    requires Shaped(s) && Enabled(s, Advance(t))
    ensures Moved(s, ApplyAdvance(s, t), t, Claims(s, Advance(t)), Reraises(s, Advance(t)))
  {
  }

  /** A step moves at most one call; only a claim starts a loader, only a re-raise ends one in error. */
  lemma StepMoves(s: State, a: Action)
    requires Shaped(s) && Enabled(s, a) && !a.Mutate?
    ensures Moved(s, Apply(s, a), a.t, Claims(s, a), Reraises(s, a))
  {
    if a.Advance? { AdvanceMoves(s, a.t); }
  }

  lemma AdvanceSpoken(s: State, t: nat, k: Key)
    requires Inv(s) && Enabled(s, Advance(t)) && Shaped(ApplyAdvance(s, t))
    ensures var claimed, reraised := Claims(s, Advance(t)) && s.calls[t] ==
      k, Reraises(s, Advance(t)) && s.calls[t] == k;
      SpokenChange(s, ApplyAdvance(s, t), k, claimed, reraised)
  {
    assert CallOk(s, t);
  }

  predicate SpokenChange(s: State, s': State, k: Key, claimed: bool, reraised: bool)
    requires Shaped(s) && Shaped(s')
  {
    && (claimed ==> !Spoken(s, k) && Spoken(s', k))
    && (reraised ==> Spoken(s, k) && !Spoken(s', k))
    && (!claimed && !reraised ==> Spoken(s', k) == Spoken(s, k))
  }

  lemma CountMove(s: State, s': State, t: nat, k: Key, claimed: bool, reraised: bool)
    requires Shaped(s) && Shaped(s') && Moved(s, s', t, claimed, reraised)
    requires SpokenChange(s, s', k, claimed && s.calls[t] == k, reraised && s.calls[t] == k)
    requires Counted(s, k) && |s.loads| == |StartedCalls(s)|
    ensures Counted(s', k) && |s'.loads| == |StartedCalls(s')|
  {
    RaisedMove(s, s', t, k, claimed, reraised);
    StartedMove(s, s', t, claimed, reraised);
  }

  lemma RaisedMove(s: State, s': State, t: nat, k: Key, claimed: bool, reraised: bool)
    requires Shaped(s) && Shaped(s') && Moved(s, s', t, claimed, reraised)
    ensures |RaisedCalls(s', k)| == |RaisedCalls(s, k)| + if reraised && s.calls[t] == k then 1 else 0
  {
    assert forall u | 0 <= u < |s.pcs| && u != t :: s'.pcs[u] == s.pcs[u];
    if reraised && s.calls[t] == k {
      assert RaisedCalls(s', k) == RaisedCalls(s, k) + {t};
    } else {
      assert RaisedCalls(s', k) == RaisedCalls(s, k);
    }
  }

  lemma StartedMove(s: State, s': State, t: nat, claimed: bool, reraised: bool)
    requires Moved(s, s', t, claimed, reraised)
    ensures |StartedCalls(s')| == |StartedCalls(s)| + if claimed then 1 else 0
  {
    assert forall u | 0 <= u < |s.pcs| && u != t :: s'.pcs[u] == s.pcs[u];
    if claimed {
      assert StartedCalls(s') == StartedCalls(s) + {t};
    } else {
      assert StartedCalls(s') == StartedCalls(s);
    }
  }

  lemma StepCounts(s: State, a: Action, k: Key)
    requires Inv(s) && Enabled(s, a) && Counted(s, k) && |s.loads| == |StartedCalls(s)|
    ensures Inv(Apply(s, a)) && Counted(Apply(s, a), k)
    ensures |Apply(s, a).loads| == |StartedCalls(Apply(s, a))|
  {
    StepKeeps(s, a);
    var s' := Apply(s, a);
    match a
    case Mutate(_, _) =>
      assert RaisedCalls(s', k) == RaisedCalls(s, k);
      assert StartedCalls(s') == StartedCalls(s);
    case Advance(t) =>
      StepMoves(s, a);
      AdvanceSpoken(s, t, k);
      CountMove(s, s', t, k, Claims(s, a), Reraises(s, a));
    case _ =>
      StepMoves(s, a);
      assert CallOk(s, a.t);
      CountMove(s, s', a.t, k, false, false);
  }

  /** Every reachable state satisfies the invariant and the loader accounting. */
  lemma {:induction false} Reachable(calls: seq<Key>, acts: seq<Action>)
    requires After(calls, acts).Some?
    ensures var s := After(calls, acts).value;
      Inv(s) && s.calls == calls && |s.loads| == |StartedCalls(s)| && forall k :: Counted(s, k)
  {
    if acts == [] {
      var s := Init(calls);
      InitInv(calls);
      assert StartedCalls(s) == {};
      forall k ensures Counted(s, k) { assert RaisedCalls(s, k) == {}; }
    } else {
      var n := |acts| - 1;
      Reachable(calls, acts[..n]);
      var s := After(calls, acts[..n]).value;
      forall k ensures Inv(Apply(s, acts[n])) && Counted(Apply(s, acts[n]), k)
        && |Apply(s, acts[n]).loads| == |StartedCalls(Apply(s, acts[n]))|
      {
        StepCounts(s, acts[n], k);
      }
      StepCounts(s, acts[n], Key("", ""));
      if !acts[n].Mutate? { StepMoves(s, acts[n]); }
    }
  }

  // ------------------------------------------------------------ safety

  predicate IsOwner(s: State, t: nat, k: Key) {
    t < |s.pcs| == |s.calls| && Owns(s.pcs[t]) && s.calls[t] == k
  }

  predicate AllFinished(s: State) {
    forall t | 0 <= t < |s.pcs| :: s.pcs[t].Finished?
  }

  predicate NoLeak(s: State) {
    forall t | 0 <= t < |s.pcs| :: !Leaked(s.pcs[t])
  }

  /** In every interleaving a key is in _inflight iff exactly one call owns its load. */
  lemma OneOwnerPerKey(calls: seq<Key>, acts: seq<Action>, k: Key)
    requires After(calls, acts).Some?
    ensures var s := After(calls, acts).value;
      && (k in s.inflight <==> exists t :: IsOwner(s, t, k))
      && (forall t, u | IsOwner(s, t, k) && IsOwner(s, u, k) :: t == u)
      && (s.lock.None? ==> s.inflight !! s.values.Keys)
  {
    Reachable(calls, acts);
    var s := After(calls, acts).value;
    if k in s.inflight {
      assert CallOk(s, s.claims[k]);
      assert IsOwner(s, s.claims[k], k);
    }
    forall t, u | IsOwner(s, t, k) && IsOwner(s, u, k) ensures t == u {
      assert CallOk(s, t) && CallOk(s, u);
    }
    forall t | IsOwner(s, t, k) ensures k in s.inflight { assert CallOk(s, t); }
    forall q | q in s.inflight && q in s.values ensures s.lock.Some? { assert CallOk(s, s.claims[q]); }
  }

  /**
    A key is in flight and cached at once exactly while its loader, inside the lock, has published and not yet
    discarded it.
   */
  lemma OverlapIff(calls: seq<Key>, acts: seq<Action>, k: Key)
    requires After(calls, acts).Some?
    ensures var s := After(calls, acts).value;
      && |s.pcs| == |s.calls|
      && (k in s.inflight && k in s.values <==>
           exists t :: 0 <= t < |s.pcs| && s.calls[t] == k && s.pcs[t].Published?)
  {
    Reachable(calls, acts);
    var s := After(calls, acts).value;
    if k in s.inflight && k in s.values { assert CallOk(s, s.claims[k]); }
    forall t | 0 <= t < |s.pcs| && s.calls[t] == k && s.pcs[t].Published? ensures k in s.inflight && k in s.values {
      assert CallOk(s, t);
    }
  }

  /** Loader runs per key: one for each call that raised its error, plus one once a run holds or fills the slot. */
  lemma LoaderRuns(calls: seq<Key>, acts: seq<Action>, k: Key)
    requires After(calls, acts).Some?
    ensures var s := After(calls, acts).value;
      && Shaped(s)
      && multiset(s.loads)[k] == |RaisedCalls(s, k)| + (if Spoken(s, k) then 1 else 0)
      && (AllFinished(s) && NoLeak(s) ==>
           multiset(s.loads)[k] == |RaisedCalls(s, k)| + if k in s.values then 1 else 0)
      && |s.loads| <= |calls|
  {
    Reachable(calls, acts);
    var s := After(calls, acts).value;
    assert Counted(s, k);
    SubsetOfRange(StartedCalls(s), |calls|);
    if AllFinished(s) && NoLeak(s) {
      if k in s.inflight { assert CallOk(s, s.claims[k]); }
      if s.lock.Some? { assert CallOk(s, s.lock.value); }
    }
  }

  lemma {:induction false} SubsetOfRange(xs: set<nat>, n: nat)
    requires forall x <- xs :: x < n
    ensures |xs| <= n
  {
    if n == 0 {
      assert xs == {};
    } else {
      SubsetOfRange(xs - {n - 1}, n - 1);
      assert n - 1 in xs ==> |xs - {n - 1}| == |xs| - 1;
      assert n - 1 !in xs ==> xs - {n - 1} == xs;
    }
  }

  lemma StepKeepsValues(s: State, a: Action, k: Key)
    requires Inv(s) && Enabled(s, a) && k in s.values
    ensures Inv(Apply(s, a)) && k in Apply(s, a).values
    ensures Apply(s, a).values[k] == s.values[k]
    ensures Apply(s, a).heap[s.values[k]] == s.heap[s.values[k]]
  {
    StepKeeps(s, a);
    if !a.Mutate? { assert CallOk(s, a.t); }
  }

  /** A published value never changes again, whatever callers write to the payloads they were given. */
  lemma {:induction false} PublishedForever(calls: seq<Key>, acts: seq<Action>, n: nat, k: Key)
    requires n <= |acts| && After(calls, acts).Some?
    ensures After(calls, acts[..n]).Some?
    ensures var s, s' := After(calls, acts[..n]).value, After(calls, acts).value;
      Inv(s) && Inv(s') && (k in s.values ==> k in s'.values && s'.heap[s'.values[k]] == s.heap[s.values[k]])
  {
    Reachable(calls, acts);
    if n == |acts| {
      assert acts[..n] == acts;
    } else {
      var m := |acts| - 1;
      PublishedForever(calls, acts[..m], n, k);
      assert acts[..m][..n] == acts[..n];
      var s, s1 := After(calls, acts[..n]).value, After(calls, acts[..m]).value;
      if k in s.values { StepKeepsValues(s1, acts[m], k); }
    }
  }

  /** Any two calls for a key that return, return equal payloads, however they interleave. */
  lemma CallersAgree(calls: seq<Key>, acts: seq<Action>, t: nat, u: nat)
    requires After(calls, acts).Some? && t < |calls| && u < |calls| && calls[t] == calls[u]
    ensures var s := After(calls, acts).value;
      |s.pcs| == |calls| &&
      (s.pcs[t].Finished? && s.pcs[t].outcome.Returned? && s.pcs[u].Finished? && s.pcs[u].outcome.Returned? ==>
        s.pcs[t].outcome == s.pcs[u].outcome)
  {
    Reachable(calls, acts);
    var s := After(calls, acts).value;
    assert CallOk(s, t) && CallOk(s, u);
  }

  // ------------------------------------------------------------ progress

  /** No call can take a step. */
  ghost predicate Stuck(s: State)
    requires Shaped(s)
  {
    forall a: Action | !a.Mutate? :: !Enabled(s, a)
  }

  /** Call t sleeps on a key whose owner died between its loader and its second critical section. */
  ghost predicate Stranded(s: State, t: nat)
    requires Shaped(s) && t < |s.pcs|
  {
    t in s.waiters && s.pcs[t].Waiting? && exists u: nat :: IsOwner(s, u, s.calls[t]) && Leaked(s.pcs[u])
  }

  lemma HolderCanMove(s: State)
    requires Inv(s) && s.lock.Some?
    ensures Enabled(s, Advance(s.lock.value))
  {
    assert CallOk(s, s.lock.value);
  }

  /** The only way a reachable state stops is: every call is over or stranded behind a leaked key. */
  lemma StuckIffStranded(calls: seq<Key>, acts: seq<Action>)
    requires After(calls, acts).Some?
    ensures var s := After(calls, acts).value;
      && Shaped(s)
      && (Stuck(s) <==> forall t | 0 <= t < |s.pcs| :: s.pcs[t].Finished? || Stranded(s, t))
  {
    Reachable(calls, acts);
    var s := After(calls, acts).value;
    if Stuck(s) {
      if s.lock.Some? { HolderCanMove(s); assert false; }
      forall t | 0 <= t < |s.pcs| ensures s.pcs[t].Finished? || Stranded(s, t) { StuckCall(s, t); }
    }
    if forall t | 0 <= t < |s.pcs| :: s.pcs[t].Finished? || Stranded(s, t) {
      forall a: Action | !a.Mutate? ensures !Enabled(s, a) {
        if a.t < |s.pcs| { assert CallOk(s, a.t); }
      }
    }
  }

  lemma StuckCall(s: State, t: nat)
    requires Inv(s) && Stuck(s) && s.lock.None? && t < |s.pcs|
    ensures s.pcs[t].Finished? || Stranded(s, t)
  {
    assert CallOk(s, t);
    CannotMove(s, t);
    if !s.pcs[t].Finished? {
      var u := s.claims[s.calls[t]];
      assert CallOk(s, u);
      CannotMove(s, u);
      assert IsOwner(s, u, s.calls[t]);
    }
  }

  lemma CannotMove(s: State, t: nat)
    requires Inv(s) && Stuck(s) && s.lock.None? && t < |s.pcs|
    ensures s.pcs[t].Finished? || t in s.waiters
  {
    assert CallOk(s, t);
    assert !Enabled(s, Acquire(t));
    assert !Enabled(s, LoaderRaises(t, ""));
    assert !Enabled(s, CopyIn(t));
  }

  /** With total copying a run stops only when every call is over: no deadlock, no lost wakeup. */
  lemma StopsOnlyWhenDone(calls: seq<Key>, acts: seq<Action>)
    requires After(calls, acts).Some?
    requires forall a <- acts :: !a.CopyInFails?
    ensures var s := After(calls, acts).value;
      Shaped(s) && NoLeak(s) && (Stuck(s) <==> AllFinished(s))
  {
    StuckIffStranded(calls, acts);
    LeakNeedsFailedCopy(calls, acts);
    var s := After(calls, acts).value;
    assert forall t | 0 <= t < |s.pcs| :: !Stranded(s, t);
  }

  lemma {:induction false} LeakNeedsFailedCopy(calls: seq<Key>, acts: seq<Action>)
    requires After(calls, acts).Some?
    requires forall a <- acts :: !a.CopyInFails?
    ensures NoLeak(After(calls, acts).value)
  {
    if acts != [] {
      var n := |acts| - 1;
      LeakNeedsFailedCopy(calls, acts[..n]);
      Reachable(calls, acts[..n]);
      NoNewLeak(After(calls, acts[..n]).value, acts[n]);
    }
  }

  lemma AdvanceLeaksNot(s: State, t: nat)
    requires Shaped(s) && Enabled(s, Advance(t))
    ensures !Leaked(ApplyAdvance(s, t).pcs[t])
  {
  }

  lemma MoverLeaksNot(s: State, a: Action)
    requires Shaped(s) && Enabled(s, a) && !a.CopyInFails? && !a.Mutate?
    ensures !Leaked(Apply(s, a).pcs[a.t])
  {
    if a.Advance? { AdvanceLeaksNot(s, a.t); }
  }

  lemma NoNewLeak(s: State, a: Action)
    requires Shaped(s) && Enabled(s, a) && !a.CopyInFails? && NoLeak(s)
    ensures NoLeak(Apply(s, a))
  {
    if !a.Mutate? {
      StepMoves(s, a);
      MoverLeaksNot(s, a);
    }
  }

  /** Call u leaked its key, and call t wants that key and has not finished. */
  predicate Strands(s: State, u: nat, t: nat) {
    && t < |s.pcs| == |s.calls| && u < |s.pcs| && t != u && Leaked(s.pcs[u]) && s.calls[t] == s.calls[u]
    && !s.pcs[t].Finished?
  }

  /** A leaked key is never served again: no other call for it finishes at any step. */
  lemma LeakStrandsForever(s: State, a: Action, u: nat, t: nat)
    requires Inv(s) && Enabled(s, a) && Strands(s, u, t)
    ensures Strands(Apply(s, a), u, t)
  {
    StepKeeps(s, a);
    assert CallOk(s, u) && CallOk(s, t);
    if !a.Mutate? { StepMoves(s, a); }
  }

  lemma LastStep(calls: seq<Key>, acts: seq<Action>, mid: State, s: State)
    requires acts != [] && After(calls, acts) == Some(s) && After(calls, acts[..|acts| - 1]) == Some(mid)
    ensures Inv(mid) && Enabled(mid, acts[|acts| - 1]) && s == Apply(mid, acts[|acts| - 1])
  {
    Reachable(calls, acts[..|acts| - 1]);
  }

  /** Nor at the end of any run that goes on from there. */
  lemma {:induction false} AfterLeak(calls: seq<Key>, acts: seq<Action>, n: nat, u: nat, t: nat, s0: State, s: State)
    requires n <= |acts| && After(calls, acts[..n]) == Some(s0) && After(calls, acts) == Some(s) && Strands(s0, u, t)
    ensures Strands(s, u, t)
  {
    if n == |acts| {
      assert acts[..n] == acts;
    } else {
      var m := |acts| - 1;
      assert acts[..m][..n] == acts[..n];
      var mid := After(calls, acts[..m]).value;
      AfterLeak(calls, acts[..m], n, u, t, s0, mid);
      LastStep(calls, acts, mid, s);
      LeakStrandsForever(mid, acts[m], u, t);
    }
  }
}
