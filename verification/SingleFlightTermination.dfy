/** Every run of n get_or_load calls takes at most 3n^2 + 11n steps, in every interleaving. */
module SingleFlightTermination {
  import opened Wrappers
  import opened SingleFlight
  import opened SingleFlightRuns

  /** Steps a call can still take if nobody notifies it again. */
  function Weight(pc: Pc, asleep: bool): nat {
    match pc
    case Start => 10
    case FirstCheck => 9
    case LoopTest => 8
    case Waiting => if asleep then 7 else 10
    case Recheck => 9
    case Loading => 7
    case Loaded(_) => 6
    case Copied(_) => 5
    case Publishing(_) => 4
    case Published(_) => 3
    case Discarded(_) => 2
    case Notified(_) => 1
    case LoadFailed(_) => 5
    case Aborting(_) => 4
    case Aborted(_) => 3
    case Finished(_, _) => 0
  }

  function Weights(s: State): seq<nat> {
    seq(|s.pcs|, i requires 0 <= i < |s.pcs| => Weight(s.pcs[i], i in s.waiters))
  }

  function Sum(ws: seq<nat>): nat {
    if ws == [] then 0 else Sum(ws[..|ws| - 1]) + ws[|ws| - 1]
  }

  /** Calls that may still wake the others. */
  ghost function Notifiers(s: State): set<nat> {
    set t | 0 <= t < |s.pcs| && !s.pcs[t].Notified? && !s.pcs[t].Finished?
  }

  ghost function Variant(s: State): nat {
    Sum(Weights(s)) + (3 * |s.pcs| + 1) * |Notifiers(s)|
  }

  lemma {:induction false} SumUpdate(ws: seq<nat>, i: nat, w: nat)
    requires i < |ws|
    ensures Sum(ws[i := w]) == Sum(ws) - ws[i] + w
  {
    var n := |ws| - 1;
    if i < n {
      SumUpdate(ws[..n], i, w);
      assert ws[i := w][..n] == ws[..n][i := w];
    } else {
      assert ws[i := w][..n] == ws[..n];
    }
  }

  lemma {:induction false} SumRise(ws: seq<nat>, ws': seq<nat>)
    requires |ws| == |ws'| && forall i | 0 <= i < |ws| :: ws'[i] <= ws[i] + 3
    ensures Sum(ws') <= Sum(ws) + 3 * |ws|
  {
    if ws != [] { SumRise(ws[..|ws| - 1], ws'[..|ws| - 1]); }
  }

  lemma {:induction false} SumOfTens(ws: seq<nat>)
    requires forall i | 0 <= i < |ws| :: ws[i] == 10
    ensures Sum(ws) == 10 * |ws|
  {
    if ws != [] { SumOfTens(ws[..|ws| - 1]); }
  }

  /** A step that wakes nobody lowers the weight of the call that takes it. */
  predicate Quiet(s: State, s': State, t: nat) {
    && t < |s.pcs| == |s'.pcs| && s'.pcs == s.pcs[t := s'.pcs[t]]
    && (forall u | 0 <= u < |s.pcs| && u != t :: u in s'.waiters <==> u in s.waiters)
    && Weight(s'.pcs[t], t in s'.waiters) < Weight(s.pcs[t], t in s.waiters)
    && (s.pcs[t].Notified? || s.pcs[t].Finished? ==> s'.pcs[t].Notified? || s'.pcs[t].Finished?)
  }

  /** A step that wakes the sleepers ends its own call's turn as a notifier. */
  predicate Loud(s: State, s': State, t: nat) {
    && t < |s.pcs| == |s'.pcs| && s'.pcs == s.pcs[t := s'.pcs[t]]
    && AboutToNotify(s.pcs[t]) && (s'.pcs[t].Notified? || s'.pcs[t].Finished?)
    && s'.waiters == {}
  }

  lemma StepKind(s: State, a: Action)
    requires Inv(s) && Enabled(s, a) && !a.Mutate?
    ensures Quiet(s, Apply(s, a), a.t) || Loud(s, Apply(s, a), a.t)
  {
    assert CallOk(s, a.t);
    if a.Advance? && !AboutToNotify(s.pcs[a.t]) { AdvanceQuiet(s, a.t); }
  }

  lemma AdvanceQuiet(s: State, t: nat)
    requires Shaped(s) && Enabled(s, Advance(t)) && t !in s.waiters && !AboutToNotify(s.pcs[t])
    ensures Quiet(s, ApplyAdvance(s, t), t)
  {
  }

  lemma FewerNotifiers(s: State, s': State, t: nat)
    requires t < |s.pcs| == |s'.pcs| && s'.pcs == s.pcs[t := s'.pcs[t]]
    requires s.pcs[t].Notified? || s.pcs[t].Finished? ==> s'.pcs[t].Notified? || s'.pcs[t].Finished?
    ensures |Notifiers(s')| <= |Notifiers(s)|
    ensures t in Notifiers(s) && t !in Notifiers(s') ==> |Notifiers(s')| == |Notifiers(s)| - 1
  {
    assert forall u | 0 <= u < |s.pcs| && u != t :: s'.pcs[u] == s.pcs[u];
    if t in Notifiers(s) && t !in Notifiers(s') {
      assert Notifiers(s') == Notifiers(s) - {t};
    } else {
      assert Notifiers(s') == Notifiers(s);
    }
  }

  lemma QuietWeighsLess(s: State, s': State, t: nat)
    requires Quiet(s, s', t)
    ensures Sum(Weights(s')) < Sum(Weights(s))
  {
    assert Weights(s') == Weights(s)[t := Weight(s'.pcs[t], t in s'.waiters)];
    SumUpdate(Weights(s), t, Weight(s'.pcs[t], t in s'.waiters));
  }

  lemma QuietFalls(s: State, s': State, t: nat)
    requires Quiet(s, s', t)
    ensures Variant(s') < Variant(s)
  {
    QuietWeighsLess(s, s', t);
    FewerNotifiers(s, s', t);
    Monotone(3 * |s.pcs| + 1, |Notifiers(s')|, |Notifiers(s)|);
  }

  lemma Monotone(c: nat, x: nat, y: nat)
    requires x <= y
    ensures c * x <= c * y
  {
  }

  lemma LoudWeighsLittleMore(s: State, s': State, t: nat)
    requires Loud(s, s', t)
    ensures Sum(Weights(s')) <= Sum(Weights(s)) + 3 * |s.pcs|
  {
    forall i | 0 <= i < |s.pcs| ensures Weights(s')[i] <= Weights(s)[i] + 3 {
      assert i != t ==> s'.pcs[i] == s.pcs[i];
    }
    SumRise(Weights(s), Weights(s'));
  }

  lemma LoudIsDone(s: State, s': State, t: nat)
    requires Loud(s, s', t)
    ensures |Notifiers(s')| + 1 == |Notifiers(s)|
  {
    FewerNotifiers(s, s', t);
  }

  lemma OneFewer(c: nat, x: nat, y: nat)
    requires x + 1 == y
    ensures c * x + c == c * y
  {
  }

  lemma LoudFalls(s: State, s': State, t: nat)
    requires Loud(s, s', t)
    ensures Variant(s') < Variant(s)
  {
    LoudWeighsLittleMore(s, s', t);
    LoudIsDone(s, s', t);
    OneFewer(3 * |s.pcs| + 1, |Notifiers(s')|, |Notifiers(s)|);
  }

  /** Each step of a call lowers the variant; writes by outside code leave it alone. */
  lemma StepFalls(s: State, a: Action)
    requires Inv(s) && Enabled(s, a)
    ensures if a.Mutate? then Variant(Apply(s, a)) == Variant(s) else Variant(Apply(s, a)) < Variant(s)
  {
    if a.Mutate? {
      assert Weights(Apply(s, a)) == Weights(s);
      assert Notifiers(Apply(s, a)) == Notifiers(s);
    } else {
      StepKind(s, a);
      if Quiet(s, Apply(s, a), a.t) { QuietFalls(s, Apply(s, a), a.t); } else { LoudFalls(s, Apply(s, a), a.t); }
    }
  }

  /** The steps of a run that calls take, leaving out writes by outside code. */
  function Moves(acts: seq<Action>): nat {
    if acts == [] then 0
    else Moves(acts[..|acts| - 1]) + if acts[|acts| - 1].Mutate? then 0 else 1
  }

  lemma {:induction false} MovesBounded(calls: seq<Key>, acts: seq<Action>)
    requires After(calls, acts).Some?
    ensures Moves(acts) + Variant(After(calls, acts).value) <= Variant(Init(calls))
  {
    if acts != [] {
      var n := |acts| - 1;
      MovesBounded(calls, acts[..n]);
      Reachable(calls, acts[..n]);
      StepFalls(After(calls, acts[..n]).value, acts[n]);
    }
  }

  /** No livelock: n calls take at most 3n^2 + 11n steps between them, however they interleave. */
  lemma RunsAreShort(calls: seq<Key>, acts: seq<Action>)
    requires After(calls, acts).Some?
    ensures Moves(acts) <= 3 * |calls| * |calls| + 11 * |calls|
  {
    MovesBounded(calls, acts);
    StartingVariant(calls);
  }

  lemma StartingVariant(calls: seq<Key>)
    ensures Variant(Init(calls)) <= 3 * |calls| * |calls| + 11 * |calls|
  {
    var s := Init(calls);
    SumOfTens(Weights(s));
    SubsetOfRange(Notifiers(s), |calls|);
    Monotone(3 * |calls| + 1, |Notifiers(s)|, |calls|);
    Expand(|calls|);
  }

  lemma Expand(n: nat)
    ensures (3 * n + 1) * n + 10 * n == 3 * n * n + 11 * n
  {
  }
}
