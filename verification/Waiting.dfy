/** wait_for over every predicate and every clock. */
module Waiting {
  import opened Wrappers
  import opened Ceilings

  /** One evaluation of the predicate (false when it raises) and the clock reading after it. */
  datatype Probe = Probe(up: bool, at: real)

  /** precondition is None without invert_first; split and count are the probes of the first phase and of both. */
  datatype Waited = Waited(precondition: Option<bool>, satisfied: bool, split: nat, count: nat, exhausted: bool)

  function AtLeastZero(x: real): real { if x > 0.0 then x else 0.0 }

  /** Probes [from, to) do not have the value waited for, and come before the deadline. */
  ghost predicate Waits(probes: seq<Probe>, want: bool, deadline: real, from: nat, to: nat)
    requires to <= |probes|
  {
    forall k | from <= k < to :: probes[k].up != want && probes[k].at < deadline
  }

  /** A phase that started at probe from and took probes up to to: it met want, or ran out of time. */
  ghost predicate Phase(probes: seq<Probe>, want: bool, deadline: real, from: nat, to: nat, met: bool) {
    && from < to <= |probes| && Waits(probes, want, deadline, from, to - 1)
    && (met <==> probes[to - 1].up == want) && (!met ==> probes[to - 1].at >= deadline)
  }

  /** One of the two while loops of wait_for. */
  method Poll(probes: seq<Probe>, want: bool, deadline: real, from: nat) returns (met: bool, to: nat, exhausted: bool)
    requires from <= |probes|
    ensures !exhausted ==> Phase(probes, want, deadline, from, to, met)
    ensures exhausted ==> to == |probes| && Waits(probes, want, deadline, from, to)
  {
    met, to, exhausted := false, from, false;
    while to < |probes|
      invariant from <= to <= |probes| && Waits(probes, want, deadline, from, to) && !exhausted
    {
      var p := probes[to];
      to := to + 1;
      if p.up == want { return true, to, false; }
      if p.at >= deadline { return false, to, false; }
    }
    exhausted := true;
  }

  /** A run of both phases, or of the second alone. */
  ghost predicate Run(probes: seq<Probe>, deadline: real, invertFirst: bool, r: Waited) {
    && r.precondition.Some? == invertFirst
    && (!invertFirst ==> r.split == 0)
    && (invertFirst && !r.exhausted ==> Phase(probes, false, deadline, 0, r.split, r.precondition.value))
    && (!r.exhausted ==> Phase(probes, true, deadline, r.split, r.count, r.satisfied))
  }

  method WaitFor(probes: seq<Probe>, timeout: real, start: real, invertFirst: bool) returns (r: Waited)
    ensures Run(probes, start + AtLeastZero(timeout), invertFirst, r)
    ensures r.exhausted ==> Unfinished(probes, start + AtLeastZero(timeout), r)
  {
    var deadline := start + AtLeastZero(timeout);
    var precondition, split := None, 0;
    if invertFirst {
      var down, n, out := Poll(probes, false, deadline, 0);
      precondition, split := Some(down), n;
      if out { return Waited(precondition, false, split, split, true); }
    }
    var satisfied, count, out := Poll(probes, true, deadline, split);
    r := Waited(precondition, satisfied, split, count, out);
  }

  /** Every probe there is has been used, and none but the one that ended the first phase ended anything. */
  ghost predicate Unfinished(probes: seq<Probe>, deadline: real, r: Waited) {
    && r.count == |probes| && r.split <= r.count
    && forall k | 0 <= k < r.count && k != r.split - 1 :: probes[k].at < deadline
  }

  /** With invert_first: trues, then at most one false that ends the phase, then falses, then at most one true. */
  lemma TraceShape(probes: seq<Probe>, deadline: real, r: Waited)
    requires Run(probes, deadline, true, r) && !r.exhausted
    ensures 1 <= r.split < r.count <= |probes|
    ensures forall k | 0 <= k < r.split - 1 :: probes[k].up
    ensures forall k | r.split <= k < r.count - 1 :: !probes[k].up
    ensures r.precondition == Some(!probes[r.split - 1].up) && r.satisfied == probes[r.count - 1].up
  {
  }

  /** Down, then up: a reported cycle is a false probe before a later true one. */
  lemma CycleObserved(probes: seq<Probe>, deadline: real, r: Waited)
    requires Run(probes, deadline, true, r) && !r.exhausted
    ensures r.precondition == Some(true) && r.satisfied ==>
      exists i, j :: 0 <= i < j < r.count && !probes[i].up && probes[j].up
  {
    if r.precondition == Some(true) && r.satisfied {
      var i, j := r.split - 1, r.count - 1;
      assert i < j && !probes[i].up && probes[j].up;
    }
  }

  // ------------------------------------------------------------ how often the predicate is evaluated

  /** A monotonic clock that advances by the interval whenever wait_for sleeps, that is except between the phases. */
  ghost predicate Clock(probes: seq<Probe>, start: real, interval: real, split: nat) {
    && (|probes| > 0 ==> probes[0].at >= start)
    && forall k | 0 < k < |probes| :: probes[k].at >= probes[k - 1].at + (if k == split then 0.0 else interval)
  }

  /** Sleeps before probe k. */
  function Sleeps(split: nat, k: nat): nat { if 0 < split <= k then k - 1 else k }

  lemma {:induction false} Elapsed(probes: seq<Probe>, start: real, interval: real, split: nat, k: nat)
    requires Clock(probes, start, interval, split) && k < |probes|
    ensures probes[k].at - start >= Sleeps(split, k) as real * interval
  {
    if k > 0 {
      Elapsed(probes, start, interval, split, k - 1);
      var s := Sleeps(split, k - 1);
      assert Sleeps(split, k) == if k == split then s else s + 1;
      assert (s + 1) as real * interval == s as real * interval + interval;
    }
  }

  /** Probe number k with enough sleeps before it is past the deadline. */
  lemma PastDeadline(probes: seq<Probe>, start: real, timeout: real, interval: real, split: nat, k: nat)
    requires Clock(probes, start, interval, split) && interval > 0.0 && k < |probes|
    requires Sleeps(split, k) >= Ceil(AtLeastZero(timeout) / interval)
    ensures probes[k].at >= start + AtLeastZero(timeout)
  {
    Elapsed(probes, start, interval, split, k);
    CeilCovers(AtLeastZero(timeout), interval, Sleeps(split, k));
  }

  /** At least one probe, and with an interval d > 0 at most ceil(t / d) + 2 of them, one fewer without invert_first. */
  lemma ProbesBounded(probes: seq<Probe>, start: real, timeout: real, interval: real, invertFirst: bool, r: Waited)
    requires Run(probes, start + AtLeastZero(timeout), invertFirst, r)
    requires r.exhausted ==> Unfinished(probes, start + AtLeastZero(timeout), r)
    requires Clock(probes, start, interval, r.split) && interval > 0.0
    ensures !r.exhausted ==> 1 <= r.count <= Ceil(AtLeastZero(timeout) / interval) + if invertFirst then 2 else 1
    ensures r.exhausted ==> r.count <= Ceil(AtLeastZero(timeout) / interval) + 1
  {
    var n := Ceil(AtLeastZero(timeout) / interval);
    assert n >= 0 by { assert AtLeastZero(timeout) / interval >= 0.0; }
    var deadline := start + AtLeastZero(timeout);
    if r.exhausted {
      if r.count >= n + 2 {
        var k := if r.split == n + 2 then n else n + 1;
        PastDeadline(probes, start, timeout, interval, r.split, k);
      }
    } else if invertFirst {
      if r.split >= n + 2 {
        PastDeadline(probes, start, timeout, interval, r.split, n);
      } else if r.count >= n + 3 {
        PastDeadline(probes, start, timeout, interval, r.split, n + 1);
      }
    } else if r.count >= n + 2 {
      PastDeadline(probes, start, timeout, interval, r.split, n);
    }
  }
}
