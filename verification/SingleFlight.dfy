/**
  RedfishResponseCache.get_or_load as a step system.

  Every call of get_or_load is one process; any number of calls may be in progress,
  for any keys.  A step is one access to shared state: taking the condition's lock,
  one statement of a critical section, one outcome of the loader, one deep copy.
  Payloads are cells of a heap, a deep copy is a fresh cell with the same content,
  and `shared` holds the cells that code outside the cache can still write to.
 */
module SingleFlight {
  import opened Wrappers
  import opened JsonModel

  datatype Key = Key(url: string, dataType: string)
  datatype Payload = Payload(data: Json, allow: Option<string>)
  type Ref = nat

  datatype Outcome =
    | Returned(content: Payload)
    | LoaderRaised(error: string)
    | CopyInRaised   // the copy between the loader and the second critical section
    | CopyOutRaised  // a copy made for the caller under the lock

  datatype Pc =
    | Start                               // about to take the lock
    | FirstCheck                          // holds the lock, tests _values
    | LoopTest                            // holds the lock, tests _inflight
    | Waiting                             // inside wait(): asleep iff in waiters
    | Recheck                             // holds the lock again after wait()
    | Loading                             // the loader runs, lock not held
    | Loaded(value: Ref)                  // loader returned, about to deep-copy
    | Copied(stored: Ref)                 // about to retake the lock
    | Publishing(stored: Ref)             // holds the lock, writes _values
    | Published(stored: Ref)              // holds the lock, discards from _inflight
    | Discarded(stored: Ref)              // holds the lock, notifies
    | Notified(stored: Ref)               // holds the lock, copies for the caller
    | LoadFailed(error: string)           // loader raised, about to retake the lock
    | Aborting(error: string)             // holds the lock, discards from _inflight
    | Aborted(error: string)              // holds the lock, notifies and re-raises
    | Finished(outcome: Outcome, ran: bool)  // ran: this call started the loader

  datatype State = State(
    calls: seq<Key>,          // the key each call asks for
    pcs: seq<Pc>,
    lock: Option<nat>,
    values: map<Key, Ref>,
    inflight: set<Key>,
    waiters: set<nat>,
    heap: seq<Payload>,
    shared: set<Ref>,
    loads: seq<Key>,          // the key of every loader run, in order
    claims: map<Key, nat>)    // auxiliary: the call that put each key in _inflight

  datatype Action =
    | Acquire(t: nat)
    | Advance(t: nat)
    | CopyOutFails(t: nat)
    | LoaderReturns(t: nat, value: Payload, retained: bool)
    | LoaderRaises(t: nat, e: string)
    | CopyIn(t: nat)
    | CopyInFails(t: nat)
    | Mutate(r: Ref, content: Payload)  // outside code writes to a cell it holds

  function Init(calls: seq<Key>): State {
    State(calls, seq(|calls|, _ => Start), None, map[], {}, {}, [], {}, [], map[])
  }

  predicate Shaped(s: State) {
    && |s.pcs| == |s.calls|
    && (s.lock.Some? ==> s.lock.value < |s.pcs|)
    && (forall k <- s.values :: s.values[k] < |s.heap|)
    && (forall t | 0 <= t < |s.pcs| :: RefOf(s.pcs[t]).Some? ==> RefOf(s.pcs[t]).value < |s.heap|)
  }

  function RefOf(pc: Pc): Option<Ref> {
    match pc
    case Loaded(r) => Some(r)
    case Copied(r) => Some(r)
    case Publishing(r) => Some(r)
    case Published(r) => Some(r)
    case Discarded(r) => Some(r)
    case Notified(r) => Some(r)
    case _ => None
  }

  /** The statements that run with the condition's lock held. */
  predicate Holds(pc: Pc) {
    pc.FirstCheck? || pc.LoopTest? || pc.Recheck? || pc.Publishing? || pc.Published?
    || pc.Discarded? || pc.Notified? || pc.Aborting? || pc.Aborted?
  }

  /** Does this step copy a payload for the caller? */
  predicate CopiesOut(s: State, t: nat)
    requires Shaped(s) && t < |s.pcs|
  {
    || s.pcs[t].Notified?
    || ((s.pcs[t].FirstCheck? || s.pcs[t].Recheck?) && s.calls[t] in s.values)
  }

  predicate Enabled(s: State, a: Action)
    requires Shaped(s)
  {
    match a
    case Acquire(t) =>
      t < |s.pcs| && s.lock.None? &&
      (s.pcs[t].Start? || (s.pcs[t].Waiting? && t !in s.waiters) || s.pcs[t].Copied? || s.pcs[t].LoadFailed?)
    case Advance(t) => t < |s.pcs| && s.lock == Some(t) && Holds(s.pcs[t])
    case CopyOutFails(t) => t < |s.pcs| && s.lock == Some(t) && CopiesOut(s, t)
    case LoaderReturns(t, _, _) => t < |s.pcs| && s.pcs[t].Loading?
    case LoaderRaises(t, _) => t < |s.pcs| && s.pcs[t].Loading?
    case CopyIn(t) => t < |s.pcs| && s.pcs[t].Loaded?
    case CopyInFails(t) => t < |s.pcs| && s.pcs[t].Loaded?
    case Mutate(r, _) => r in s.shared && r < |s.heap|
  }

  function Goto(s: State, t: nat, pc: Pc): State
    requires t < |s.pcs|
  {
    s.(pcs := s.pcs[t := pc])
  }

  /** Copy cell r for the caller and leave the critical section. */
  function ReturnCopy(s: State, t: nat, r: Ref, ran: bool): State
    requires t < |s.pcs| && r < |s.heap|
  {
    Goto(s, t, Finished(Returned(s.heap[r]), ran)).(
      lock := None, heap := s.heap + [s.heap[r]], shared := s.shared + {|s.heap|})
  }

  function ApplyAcquire(s: State, t: nat): State
    requires Shaped(s) && Enabled(s, Acquire(t))
  {
    var pc := match s.pcs[t]
      case Start => FirstCheck
      case Waiting => Recheck
      case Copied(r) => Publishing(r)
      case LoadFailed(e) => Aborting(e);
    Goto(s, t, pc).(lock := Some(t))
  }

  function ApplyAdvance(s: State, t: nat): State
    requires Shaped(s) && Enabled(s, Advance(t))
  {
    var k := s.calls[t];
    match s.pcs[t]
    case FirstCheck => if k in s.values then ReturnCopy(s, t, s.values[k], false) else Goto(s, t, LoopTest)
    case Recheck => if k in s.values then ReturnCopy(s, t, s.values[k], false) else Goto(s, t, LoopTest)
    case LoopTest =>
      if k in s.inflight then
        Goto(s, t, Waiting).(lock := None, waiters := s.waiters + {t})
      else
        Goto(s, t, Loading).(lock := None, inflight := s.inflight + {k}, loads := s.loads + [k],
          claims := s.claims[k := t])
    case Publishing(r) => Goto(s, t, Published(r)).(values := s.values[k := r])
    case Published(r) => Goto(s, t, Discarded(r)).(inflight := s.inflight - {k}, claims := s.claims - {k})
    case Discarded(r) => Goto(s, t, Notified(r)).(waiters := {})
    case Notified(r) => ReturnCopy(s, t, r, true)
    case Aborting(e) => Goto(s, t, Aborted(e)).(inflight := s.inflight - {k}, claims := s.claims - {k})
    case Aborted(e) => Goto(s, t, Finished(LoaderRaised(e), true)).(lock := None, waiters := {})
  }

  function Apply(s: State, a: Action): State
    requires Shaped(s) && Enabled(s, a)
  {
    match a
    case Acquire(t) => ApplyAcquire(s, t)
    case Advance(t) => ApplyAdvance(s, t)
    case CopyOutFails(t) => Goto(s, t, Finished(CopyOutRaised, s.pcs[t].Notified?)).(lock := None)
    case LoaderReturns(t, v, retained) =>
      Goto(s, t, Loaded(|s.heap|)).(
        heap := s.heap + [v],
        shared := if retained then s.shared + {|s.heap|} else s.shared)
    case LoaderRaises(t, e) => Goto(s, t, LoadFailed(e))
    case CopyIn(t) => Goto(s, t, Copied(|s.heap|)).(heap := s.heap + [s.heap[s.pcs[t].value]])
    case CopyInFails(t) => Goto(s, t, Finished(CopyInRaised, true))
    case Mutate(r, v) => s.(heap := s.heap[r := v])
  }

  // ---------------------------------------------------------------- invariant

  /** The call has claimed its key in _inflight and not discarded it. */
  predicate Owns(pc: Pc) {
    pc.Loading? || pc.Loaded? || pc.Copied? || pc.Publishing? || pc.Published?
    || pc.LoadFailed? || pc.Aborting? || Leaked(pc)
  }

  /** The call died between the loader and the second critical section, claim in place. */
  predicate Leaked(pc: Pc) {
    pc.Finished? && pc.outcome.CopyInRaised?
  }

  predicate AboutToNotify(pc: Pc) { pc.Discarded? || pc.Aborted? }

  /** What holds of one call, whatever the others do. */
  ghost predicate CallOk(s: State, t: nat)
    requires Shaped(s) && t < |s.pcs|
  {
    var pc, k := s.pcs[t], s.calls[t];
    && (Holds(pc) <==> s.lock == Some(t))
    // no lost wakeup: a sleeper's key is in flight, or the lock holder is about to notify
    && (t in s.waiters ==> pc.Waiting?)
    && (t in s.waiters ==> k in s.inflight || (s.lock.Some? && AboutToNotify(s.pcs[s.lock.value])))
    && (Owns(pc) <==> k in s.claims && s.claims[k] == t)
    && (pc.LoopTest? || pc.Aborted? || (Owns(pc) && !pc.Published?) ==> k !in s.values)
    && (AboutToNotify(pc) ==> k !in s.inflight)
    && (pc.Published? || pc.Discarded? || pc.Notified? ==> k in s.values && s.values[k] == RefOf(pc).value)
    // isolation: no cell the cache holds, or will hold, can be written from outside
    && (RefOf(pc).Some? && !pc.Loaded? ==> RefOf(pc).value !in s.shared)
    && (pc.Finished? && pc.outcome.Returned? ==>
         k in s.values && s.heap[s.values[k]] == pc.outcome.content)
  }

  ghost predicate SharedOk(s: State)
    requires Shaped(s)
  {
    && s.inflight == s.claims.Keys
    && (forall k <- s.claims :: s.claims[k] < |s.pcs| && s.calls[s.claims[k]] == k)
    && (forall t <- s.waiters :: t < |s.pcs|)
    && (forall r <- s.shared :: r < |s.heap|)
    && (forall k <- s.values :: s.values[k] !in s.shared)
  }

  ghost predicate Inv(s: State) {
    && Shaped(s) && SharedOk(s)
    && (forall t | 0 <= t < |s.pcs| :: CallOk(s, t))
  }

  lemma InitInv(calls: seq<Key>)
    ensures Inv(Init(calls))
  {
  }

  lemma AcquireKeeps(s: State, t: nat)
    requires Inv(s) && Enabled(s, Acquire(t))
    ensures Inv(Apply(s, Acquire(t)))
  {
    var s' := Apply(s, Acquire(t));
    assert CallOk(s, t);
    forall u | 0 <= u < |s'.pcs| ensures CallOk(s', u) { assert CallOk(s, u); }
  }

  lemma HitKeeps(s: State, t: nat)
    requires Inv(s) && Enabled(s, Advance(t)) && !s.pcs[t].Notified? && CopiesOut(s, t)
    ensures Inv(Apply(s, Advance(t)))
  {
    var s' := Apply(s, Advance(t));
    assert CallOk(s, t);
    forall u | 0 <= u < |s'.pcs| ensures CallOk(s', u) { assert CallOk(s, u); }
  }

  lemma MissKeeps(s: State, t: nat)
    requires Inv(s) && Enabled(s, Advance(t)) && (s.pcs[t].FirstCheck? || s.pcs[t].Recheck?) && !CopiesOut(s, t)
    ensures Inv(Apply(s, Advance(t)))
  {
    var s' := Apply(s, Advance(t));
    assert CallOk(s, t);
    forall u | 0 <= u < |s'.pcs| ensures CallOk(s', u) { assert CallOk(s, u); }
  }

  lemma SleepKeeps(s: State, t: nat)
    requires Inv(s) && Enabled(s, Advance(t)) && s.pcs[t].LoopTest? && s.calls[t] in s.inflight
    ensures Inv(Apply(s, Advance(t)))
  {
    var s' := Apply(s, Advance(t));
    assert CallOk(s, t);
    forall u | 0 <= u < |s'.pcs| ensures CallOk(s', u) { assert CallOk(s, u); }
  }

  lemma ClaimKeeps(s: State, t: nat)
    requires Inv(s) && Enabled(s, Advance(t)) && s.pcs[t].LoopTest? && s.calls[t] !in s.inflight
    ensures Inv(Apply(s, Advance(t)))
  {
    var s' := Apply(s, Advance(t));
    assert CallOk(s, t);
    forall u | 0 <= u < |s'.pcs| ensures CallOk(s', u) { assert CallOk(s, u); }
  }

  lemma PublishKeeps(s: State, t: nat)
    requires Inv(s) && Enabled(s, Advance(t)) && s.pcs[t].Publishing?
    ensures Inv(Apply(s, Advance(t)))
  {
    var s' := Apply(s, Advance(t));
    assert CallOk(s, t);
    forall u | 0 <= u < |s'.pcs| ensures CallOk(s', u) { assert CallOk(s, u); }
  }

  lemma DiscardKeeps(s: State, t: nat)
    requires Inv(s) && Enabled(s, Advance(t)) && s.pcs[t].Published?
    ensures Inv(Apply(s, Advance(t)))
  {
    var s' := Apply(s, Advance(t));
    assert CallOk(s, t);
    forall u | 0 <= u < |s'.pcs| ensures CallOk(s', u) { assert CallOk(s, u); }
  }

  lemma NotifyKeeps(s: State, t: nat)
    requires Inv(s) && Enabled(s, Advance(t)) && s.pcs[t].Discarded?
    ensures Inv(Apply(s, Advance(t)))
  {
    var s' := Apply(s, Advance(t));
    assert CallOk(s, t);
    forall u | 0 <= u < |s'.pcs| ensures CallOk(s', u) { assert CallOk(s, u); }
  }

  lemma ReturnKeeps(s: State, t: nat)
    requires Inv(s) && Enabled(s, Advance(t)) && s.pcs[t].Notified?
    ensures Inv(Apply(s, Advance(t)))
  {
    var s' := Apply(s, Advance(t));
    assert CallOk(s, t);
    forall u | 0 <= u < |s'.pcs| ensures CallOk(s', u) { assert CallOk(s, u); }
  }

  lemma AbortKeeps(s: State, t: nat)
    requires Inv(s) && Enabled(s, Advance(t)) && s.pcs[t].Aborting?
    ensures Inv(Apply(s, Advance(t)))
  {
    var s' := Apply(s, Advance(t));
    assert CallOk(s, t);
    forall u | 0 <= u < |s'.pcs| ensures CallOk(s', u) { assert CallOk(s, u); }
  }

  lemma ReraiseKeeps(s: State, t: nat)
    requires Inv(s) && Enabled(s, Advance(t)) && s.pcs[t].Aborted?
    ensures Inv(Apply(s, Advance(t)))
  {
    var s' := Apply(s, Advance(t));
    assert CallOk(s, t);
    forall u | 0 <= u < |s'.pcs| ensures CallOk(s', u) { assert CallOk(s, u); }
  }

  lemma CopyOutFailsKeeps(s: State, a: Action)
    requires Inv(s) && Enabled(s, a) && a.CopyOutFails?
    ensures Inv(Apply(s, a))
  {
    var s' := Apply(s, a);
    assert CallOk(s, a.t);
    forall u | 0 <= u < |s'.pcs| ensures CallOk(s', u) { assert CallOk(s, u); }
  }

  lemma LoaderReturnsKeeps(s: State, a: Action)
    requires Inv(s) && Enabled(s, a) && a.LoaderReturns?
    ensures Inv(Apply(s, a))
  {
    var s' := Apply(s, a);
    assert CallOk(s, a.t);
    forall u | 0 <= u < |s'.pcs| ensures CallOk(s', u) { assert CallOk(s, u); }
  }

  lemma LoaderRaisesKeeps(s: State, a: Action)
    requires Inv(s) && Enabled(s, a) && a.LoaderRaises?
    ensures Inv(Apply(s, a))
  {
    var s' := Apply(s, a);
    assert CallOk(s, a.t);
    forall u | 0 <= u < |s'.pcs| ensures CallOk(s', u) { assert CallOk(s, u); }
  }

  lemma CopyInKeeps(s: State, a: Action)
    requires Inv(s) && Enabled(s, a) && a.CopyIn?
    ensures Inv(Apply(s, a))
  {
    var s' := Apply(s, a);
    assert CallOk(s, a.t);
    forall u | 0 <= u < |s'.pcs| ensures CallOk(s', u) { assert CallOk(s, u); }
  }

  lemma CopyInFailsKeeps(s: State, a: Action)
    requires Inv(s) && Enabled(s, a) && a.CopyInFails?
    ensures Inv(Apply(s, a))
  {
    var s' := Apply(s, a);
    assert CallOk(s, a.t);
    forall u | 0 <= u < |s'.pcs| ensures CallOk(s', u) { assert CallOk(s, u); }
  }

  lemma MutateKeeps(s: State, a: Action)
    requires Inv(s) && Enabled(s, a) && a.Mutate?
    ensures Inv(Apply(s, a))
  {
    var s' := Apply(s, a);
    forall u | 0 <= u < |s'.pcs| ensures CallOk(s', u) { assert CallOk(s, u); }
  }

  /** Every step keeps the invariant. */
  lemma StepKeeps(s: State, a: Action)
    requires Inv(s) && Enabled(s, a)
    ensures Inv(Apply(s, a))
  {
    match a
    case Acquire(t) => AcquireKeeps(s, t);
    case Advance(t) =>
      match s.pcs[t] {
        case FirstCheck => if CopiesOut(s, t) { HitKeeps(s, t); } else { MissKeeps(s, t); }
        case Recheck => if CopiesOut(s, t) { HitKeeps(s, t); } else { MissKeeps(s, t); }
        case LoopTest => if s.calls[t] in s.inflight { SleepKeeps(s, t); } else { ClaimKeeps(s, t); }
        case Publishing(_) => PublishKeeps(s, t);
        case Published(_) => DiscardKeeps(s, t);
        case Discarded(_) => NotifyKeeps(s, t);
        case Notified(_) => ReturnKeeps(s, t);
        case Aborting(_) => AbortKeeps(s, t);
        case Aborted(_) => ReraiseKeeps(s, t);
      }
    case CopyOutFails(_) => CopyOutFailsKeeps(s, a);
    case LoaderReturns(_, _, _) => LoaderReturnsKeeps(s, a);
    case LoaderRaises(_, _) => LoaderRaisesKeeps(s, a);
    case CopyIn(_) => CopyInKeeps(s, a);
    case CopyInFails(_) => CopyInFailsKeeps(s, a);
    case Mutate(_, _) => MutateKeeps(s, a);
  }
}
