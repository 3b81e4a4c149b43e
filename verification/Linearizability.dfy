/** Every run of the double-checked caches is linearizable to an atomic get-or-build register with reset. */
module Linearizability {
  import opened Wrappers
  import opened DoubleChecked

  ghost function After(calls: seq<Call>, acts: seq<Action>): Option<State> {
    if acts == [] then Some(Init(calls))
    else
      var before, a := After(calls, acts[..|acts| - 1]), acts[|acts| - 1];
      if before.Some? && Shaped(before.value) && Enabled(before.value, a) then Some(Apply(before.value, a)) else None
  }

  /** An effect in the history is one its call can have. */
  ghost predicate Attributed(calls: seq<Call>, hist: seq<Event>) {
    forall e <- hist :: e.Effective? ==>
      e.t < |calls| && e.f.slot == SlotOf(calls[e.t]) && (e.f.Clear? <==> calls[e.t].ResetClientCache?)
  }

  lemma {:induction false} Reachable(calls: seq<Call>, acts: seq<Action>)
    requires After(calls, acts).Some?
    ensures var s := After(calls, acts).value; Inv(s) && s.calls == calls && Attributed(calls, s.hist)
  {
    if acts == [] {
      InitInv(calls);
    } else {
      var n := |acts| - 1;
      Reachable(calls, acts[..n]);
      var s := After(calls, acts[..n]).value;
      StepKeeps(s, acts[n]);
      StepProgresses(s, acts[n]);
      assert CallOk(s, acts[n].t);
    }
  }

  /**
    Linearizability.  The effects, in the order they happened, are a legal run of the atomic
    register that ends in the slots as they are; every call that is over responded with its one
    effect's result, and the effect lies between its invocation and its response.
   */
  lemma Linearizable(calls: seq<Call>, acts: seq<Action>, t: nat)
    requires After(calls, acts).Some? && t < |calls|
    ensures var s := After(calls, acts).value;
      && Replay(s.hist).Some? && Replay(s.hist).value.slots == s.slots && WellOrdered(s.hist)
      && |s.pcs| == |calls|
      && (s.pcs[t].Done? ==> s.pcs[t].got == GotFrom(s.pcs[t].f)
                             && Effective(t, s.pcs[t].f) in s.hist
                             && s.pcs[t].f.slot == SlotOf(calls[t]))
  {
    Reachable(calls, acts);
    var s := After(calls, acts).value;
    assert CallOk(s, t) && Recorded(s.hist, s.pcs[t], t);
  }

  /** Real-time order: a call that responded before another was invoked took effect before it. */
  lemma RealTimeOrder(hist: seq<Event>, a: nat, b: nat, i: nat, j: nat, m: nat, n: nat)
    requires WellOrdered(hist) && i < j < |hist| && m < |hist| && n < |hist|
    requires hist[i].Respond? && hist[i].t == a && hist[j] == Invoke(b)
    requires hist[m].Effective? && hist[m].t == a && hist[n].Effective? && hist[n].t == b
    ensures m < i < j < n
  {
    var p :| 0 <= p < i && hist[p] == Effective(a, hist[i].f);
    assert p == m;
    var q :| 0 <= q < n && hist[q] == Invoke(b);
    assert q == j;
  }

  // ------------------------------------------------------------ consequences of legality

  lemma {:induction false} PrefixLegal(hist: seq<Event>, i: nat)
    requires Replay(hist).Some? && i <= |hist|
    ensures Replay(hist[..i]).Some?
  {
    if i == |hist| {
      assert hist[..i] == hist;
    } else {
      PrefixLegal(hist[..|hist| - 1], i);
      assert hist[..|hist| - 1][..i] == hist[..i];
    }
  }

  lemma NextReplay(hist: seq<Event>, i: nat)
    requires i < |hist|
    ensures Replay(hist[..i + 1]) ==
      if Replay(hist[..i]).None? || !hist[i].Effective?
      then Replay(hist[..i]) else Act(Replay(hist[..i]).value, hist[i].f)
  {
    assert hist[..i + 1] == hist[..i] + [hist[i]];
    AppendReplay(hist[..i], hist[i]);
  }

  predicate Fills(e: Event, slot: Slot, h: nat) {
    e.Effective? && (e.f == Hit(slot, h) || e.f == Create(slot, h))
  }

  predicate Clears(e: Event, slot: Slot) {
    e.Effective? && e.f == Clear(slot)
  }

  /** A slot that held h at step i still holds it at j unless some step between cleared it. */
  lemma {:induction false} SlotStable(hist: seq<Event>, i: nat, j: nat, slot: Slot, h: nat)
    requires Replay(hist).Some? && i < j <= |hist| && Fills(hist[i], slot, h)
    requires forall m | i < m < j :: !Clears(hist[m], slot)
    ensures Replay(hist[..j]).Some?
    ensures slot in Replay(hist[..j]).value.slots && Replay(hist[..j]).value.slots[slot] == h
    decreases j
  {
    PrefixLegal(hist, j);
    PrefixLegal(hist, j - 1);
    NextReplay(hist, j - 1);
    if i < j - 1 { SlotStable(hist, i, j - 1, slot, h); }
  }

  lemma BuildsAreApart(hist: seq<Event>, i: nat, j: nat, slot: Slot, h: nat, h': nat)
    requires Replay(hist).Some? && i < j < |hist|
    requires hist[i].Effective? && hist[i].f == Create(slot, h) && hist[j].Effective? && hist[j].f == Create(slot, h')
    ensures exists m :: i < m < j && Clears(hist[m], slot)
  {
    if forall m | i < m < j :: !Clears(hist[m], slot) {
      SlotStable(hist, i, j, slot, h);
      PrefixLegal(hist, j + 1);
      NextReplay(hist, j);
      assert false;
    }
  }

  /** At most one successful build of a slot between consecutive resets of it. */
  lemma OneBuildBetweenResets(calls: seq<Call>, acts: seq<Action>, i: nat, j: nat, slot: Slot, h: nat, h': nat)
    requires After(calls, acts).Some?
    requires var hist := After(calls, acts).value.hist;
      && i < j < |hist| && hist[i].Effective? && hist[i].f == Create(slot, h) && hist[j].Effective?
      && hist[j].f == Create(slot, h')
    ensures exists m :: i < m < j && Clears(After(calls, acts).value.hist[m], slot)
  {
    Reachable(calls, acts);
    BuildsAreApart(After(calls, acts).value.hist, i, j, slot, h, h');
  }

  /** Two calls served by one slot with no reset between them get the same object. */
  lemma SameObjectBetweenResets(hist: seq<Event>, i: nat, j: nat, slot: Slot, h: nat, h': nat)
    requires Replay(hist).Some? && i < j < |hist| && Fills(hist[i], slot, h) && Fills(hist[j], slot, h')
    requires forall m | i < m < j :: !Clears(hist[m], slot)
    ensures h == h' && hist[j].f == Hit(slot, h)
  {
    SlotStable(hist, i, j, slot, h);
    PrefixLegal(hist, j + 1);
    NextReplay(hist, j);
  }

  /**
    Singleton: calls with equal connection keys that return an object return the same one, built by
    a call with that key; so the object of one BMC connection never answers for another.
   */
  lemma OneInstancePerKey(calls: seq<Call>, acts: seq<Action>, t: nat, u: nat)
    requires After(calls, acts).Some? && t < |calls| && u < |calls|
    requires calls[t].Construct? && calls[u].Construct?
    ensures var s := After(calls, acts).value;
      && |s.pcs| == |calls|
      && (s.pcs[t].Done? && s.pcs[t].got.Handle? ==> MadeFor(s, Instance(calls[t].key), s.pcs[t].got.h))
      && (s.pcs[t].Done? && s.pcs[t].got.Handle? && s.pcs[u].Done? && s.pcs[u].got.Handle? ==>
           (s.pcs[t].got == s.pcs[u].got <==> calls[t].key == calls[u].key))
  {
    Reachable(calls, acts);
    var s := After(calls, acts).value;
    assert CallOk(s, t) && Recorded(s.hist, s.pcs[t], t) && CallOk(s, u) && Recorded(s.hist, s.pcs[u], u);
    if s.pcs[t].Done? && s.pcs[t].got.Handle? { InstanceKept(calls, acts, t); }
    if s.pcs[u].Done? && s.pcs[u].got.Handle? { InstanceKept(calls, acts, u); }
  }

  /** An instance, once handed out, stays in its slot: nothing clears an instance slot. */
  lemma InstanceKept(calls: seq<Call>, acts: seq<Action>, t: nat)
    requires After(calls, acts).Some? && t < |calls| && calls[t].Construct?
    requires |After(calls, acts).value.pcs| == |calls|
    requires After(calls, acts).value.pcs[t].Done? && After(calls, acts).value.pcs[t].got.Handle?
    ensures var s, slot := After(calls, acts).value, Instance(calls[t].key);
      slot in s.slots && s.slots[slot] == s.pcs[t].got.h && MadeFor(s, slot, s.pcs[t].got.h)
  {
    Reachable(calls, acts);
    var s, slot := After(calls, acts).value, Instance(calls[t].key);
    assert CallOk(s, t) && Recorded(s.hist, s.pcs[t], t);
    var i :| 0 <= i < |s.hist| && s.hist[i] == Effective(t, s.pcs[t].f);
    SlotStable(s.hist, i, |s.hist|, slot, s.pcs[t].got.h);
    assert s.hist[..|s.hist|] == s.hist;
  }

  // ------------------------------------------------------------ progress

  ghost predicate Stuck(s: State)
    requires Shaped(s)
  {
    forall a: Action :: !Enabled(s, a)
  }

  lemma StuckMeansUnlocked(s: State, l: LockId)
    requires Core(s) && Stuck(s)
    ensures l !in s.locks
  {
    if l in s.locks {
      assert CallOk(s, s.locks[l]);
      assert Enabled(s, Inside(s.locks[l]));
    }
  }

  lemma StuckMeansDone(s: State, t: nat)
    requires Core(s) && Stuck(s) && t < |s.pcs|
    ensures s.pcs[t].Done?
  {
    StuckMeansUnlocked(s, LockOf(s.calls[t]));
    assert CallOk(s, t);
    assert !Enabled(s, Begin(t)) && !Enabled(s, Read(t)) && !Enabled(s, Acquire(t)) && !Enabled(s, Return(t));
  }

  /** No deadlock: a run stops only when every call is over. */
  lemma StopsOnlyWhenDone(calls: seq<Call>, acts: seq<Action>)
    requires After(calls, acts).Some?
    ensures var s := After(calls, acts).value;
      Shaped(s) && (Stuck(s) <==> forall t | 0 <= t < |s.pcs| :: s.pcs[t].Done?)
  {
    Reachable(calls, acts);
    var s := After(calls, acts).value;
    if Stuck(s) {
      forall t | 0 <= t < |s.pcs| ensures s.pcs[t].Done? { StuckMeansDone(s, t); }
    }
  }
}
