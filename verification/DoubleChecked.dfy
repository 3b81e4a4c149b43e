/**
  The two double-checked caches of the process as one step system: get_core_v1_api with
  reset_client_cache (one slot, its own lock) and Singleton.__call__ (one slot per connection
  key, one lock for all of them).  Any number of calls of the three operations interleave; a
  step is one access to shared state.  The history records when a call is invoked, takes
  effect on its slot, and responds.
 */
module DoubleChecked {
  import opened Wrappers

  /** What _connection_key builds, with the password already digested. */
  datatype ConnectionKey = ConnectionKey(cls: string, args: seq<string>, host: string, username: string,
    digest: string, port: int, isHttp: bool, insecure: bool, xAuth: string)

  datatype Call = GetCoreV1Api | ResetClientCache | Construct(key: ConnectionKey)
  datatype Slot = Client | Instance(key: ConnectionKey)
  datatype LockId = ClientLock | SingletonLock

  function SlotOf(c: Call): Slot { if c.Construct? then Instance(c.key) else Client }
  function LockOf(c: Call): LockId { if c.Construct? then SingletonLock else ClientLock }

  /** How a call acts on its slot, all at once. */
  datatype Effect =
    | Hit(slot: Slot, h: nat)
    | Create(slot: Slot, h: nat)
    | Fail(slot: Slot, e: string)
    | Clear(slot: Slot)

  /** What a call gives its caller. */
  datatype Got = Handle(h: nat) | Nothing | Error(e: string)

  function GotFrom(f: Effect): Got {
    match f
    case Hit(_, h) => Handle(h)
    case Create(_, h) => Handle(h)
    case Fail(_, e) => Error(e)
    case Clear(_) => Nothing
  }

  datatype Pc =
    | Idle
    | Entered                         // about to read the slot unlocked; a reset: about to lock
    | Missed                          // the unlocked read saw nothing, about to lock
    | Locked                          // holds the lock: second check, or the reset's write
    | Preparing                       // holds the lock: _load_kube_config
    | Building                        // holds the lock: builds the object
    | Built(h: nat)                   // holds the lock, about to store it
    | Settled(f: Effect)              // holds the lock, the slot is full
    | Leaving(f: Effect, got: Got)    // holds the lock, the result is decided
    | Returning(f: Effect, got: Got)
    | Done(f: Effect, got: Got)

  datatype Event = Invoke(t: nat) | Effective(t: nat, f: Effect) | Respond(t: nat, f: Effect, got: Got)

  datatype State = State(
    calls: seq<Call>,
    pcs: seq<Pc>,
    locks: map<LockId, nat>,
    slots: map<Slot, nat>,
    makers: seq<nat>,        // handle h is the object built by call makers[h]
    hist: seq<Event>)

  datatype Action =
    | Begin(t: nat)
    | Read(t: nat)
    | Acquire(t: nat)
    | Inside(t: nat)
    | Raise(t: nat, e: string)   // _load_kube_config or the constructor raises
    | Return(t: nat)

  function Init(calls: seq<Call>): State {
    State(calls, seq(|calls|, _ => Idle), map[], map[], [], [])
  }

  predicate Shaped(s: State) { |s.pcs| == |s.calls| }

  predicate Holds(pc: Pc) {
    pc.Locked? || pc.Preparing? || pc.Building? || pc.Built? || pc.Settled? || pc.Leaving?
  }

  predicate Enabled(s: State, a: Action)
    requires Shaped(s)
  {
    && a.t < |s.pcs|
    && var pc, c := s.pcs[a.t], s.calls[a.t];
      match a
      case Begin(t) => pc.Idle?
      case Read(t) => pc.Entered? && !c.ResetClientCache?
      case Acquire(t) => (pc.Missed? || (pc.Entered? && c.ResetClientCache?)) && LockOf(c) !in s.locks
      case Inside(t) => Holds(pc)
      case Raise(t, _) => pc.Preparing? || pc.Building?
      case Return(t) => pc.Returning?
  }

  function Goto(s: State, t: nat, pc: Pc): State
    requires t < |s.pcs|
  {
    s.(pcs := s.pcs[t := pc])
  }

  function Mark(s: State, e: Event): State { s.(hist := s.hist + [e]) }

  function Enter(s: State, t: nat): State
    requires Shaped(s) && Enabled(s, Inside(t))
  {
    var c, slot := s.calls[t], SlotOf(s.calls[t]);
    match s.pcs[t]
    case Locked =>
      if c.ResetClientCache? then
        Mark(Goto(s, t, Leaving(Clear(slot), Nothing)), Effective(t, Clear(slot))).(slots := s.slots - {slot})
      else if slot in s.slots then
        var f := Hit(slot, s.slots[slot]);
        Mark(Goto(s, t, Settled(f)), Effective(t, f))
      else Goto(s, t, if c.GetCoreV1Api? then Preparing else Building)
    case Preparing => Goto(s, t, Building)
    case Building => Goto(s, t, Built(|s.makers|)).(makers := s.makers + [t])
    case Built(h) =>
      Mark(Goto(s, t, Settled(Create(slot, h))), Effective(t, Create(slot, h))).(slots := s.slots[slot := h])
    case Settled(f) =>
      // get_core_v1_api reads the global again; Singleton returns the object it holds
      var got := if c.GetCoreV1Api? then (if slot in s.slots then Handle(s.slots[slot]) else Nothing) else GotFrom(f);
      Goto(s, t, Leaving(f, got))
    case Leaving(f, got) => Goto(s, t, Returning(f, got)).(locks := s.locks - {LockOf(c)})
  }

  function Apply(s: State, a: Action): State
    requires Shaped(s) && Enabled(s, a)
  {
    var c, slot := s.calls[a.t], SlotOf(s.calls[a.t]);
    match a
    case Begin(t) => Mark(Goto(s, t, Entered), Invoke(t))
    case Read(t) =>
      if slot in s.slots then
        var f := Hit(slot, s.slots[slot]);
        Mark(Goto(s, t, Returning(f, GotFrom(f))), Effective(t, f))
      else Goto(s, t, Missed)
    case Acquire(t) => Goto(s, t, Locked).(locks := s.locks[LockOf(c) := t])
    case Inside(t) => Enter(s, t)
    case Raise(t, e) =>
      var f := Fail(slot, e);
      Mark(Goto(s, t, Leaving(f, Error(e))), Effective(t, f))
    case Return(t) =>
      var pc := s.pcs[t];
      Mark(Goto(s, t, Done(pc.f, pc.got)), Respond(t, pc.f, pc.got))
  }

  // ------------------------------------------------------------ the atomic specification

  /** An atomic get-or-build register per slot, with reset; handles are never reused. */
  datatype Register = Register(slots: map<Slot, nat>, used: set<nat>)

  function Act(r: Register, f: Effect): Option<Register> {
    match f
    case Hit(slot, h) => if slot in r.slots && r.slots[slot] == h then Some(r) else None
    case Create(slot, h) =>
      if slot !in r.slots && h !in r.used then Some(Register(r.slots[slot := h], r.used + {h})) else None
    case Fail(slot, _) => if slot !in r.slots then Some(r) else None
    case Clear(slot) => Some(r.(slots := r.slots - {slot}))
  }

  /** The register after the effects of a history, if each was legal when it came. */
  function Replay(hist: seq<Event>): Option<Register> {
    if hist == [] then Some(Register(map[], {}))
    else
      var before, e := Replay(hist[..|hist| - 1]), hist[|hist| - 1];
      if before.None? || !e.Effective? then before else Act(before.value, e.f)
  }

  /**
    Each call is invoked, takes effect and responds at most once and in that order, and responds with its effect's
    result.
   */
  ghost predicate WellOrdered(hist: seq<Event>) {
    && (forall i | 0 <= i < |hist| && hist[i].Effective? :: Invoke(hist[i].t) in hist[..i])
    && (forall i | 0 <= i < |hist| && hist[i].Respond? ::
         Effective(hist[i].t, hist[i].f) in hist[..i] && hist[i].got == GotFrom(hist[i].f))
    && (forall i, j | 0 <= i < j < |hist| && hist[i].t == hist[j].t ::
         !(hist[i].Invoke? && hist[j].Invoke?) && !(hist[i].Effective? && hist[j].Effective?)
         && !(hist[i].Respond? && hist[j].Respond?))
  }

  // ------------------------------------------------------------ invariant

  predicate HasEffect(pc: Pc) { pc.Settled? || pc.Leaving? || pc.Returning? || pc.Done? }

  /** What the history says of call t, given how far t has got. */
  ghost predicate Recorded(hist: seq<Event>, pc: Pc, t: nat) {
    && (pc.Idle? <==> Invoke(t) !in hist)
    && (if HasEffect(pc) then Effective(t, pc.f) in hist else forall e <- hist :: e.Effective? ==> e.t != t)
    && (!pc.Done? ==> forall e <- hist :: e.Respond? ==> e.t != t)
  }

  ghost predicate CallOk(s: State, t: nat)
    requires Shaped(s) && t < |s.pcs|
  {
    var pc, c := s.pcs[t], s.calls[t];
    && (Holds(pc) <==> LockOf(c) in s.locks && s.locks[LockOf(c)] == t)
    && (HasEffect(pc) ==> pc.f.slot == SlotOf(c))
    && (pc.Preparing? || pc.Building? || pc.Built? ==> SlotOf(c) !in s.slots && !c.ResetClientCache?)
    && (pc.Built? ==>
         pc.h < |s.makers| && s.makers[pc.h] == t && (Replay(s.hist).Some? ==> pc.h !in Replay(s.hist).value.used))
    && (pc.Settled? ==> (pc.f.Hit? || pc.f.Create?) && SlotOf(c) in s.slots && s.slots[SlotOf(c)] == pc.f.h)
    && (pc.Leaving? || pc.Returning? || pc.Done? ==> pc.got == GotFrom(pc.f))
  }

  ghost predicate SharedOk(s: State)
    requires Shaped(s)
  {
    && (forall l <- s.locks :: s.locks[l] < |s.pcs| && LockOf(s.calls[s.locks[l]]) == l)
    && Replay(s.hist).Some? && Replay(s.hist).value.slots == s.slots
    && (forall h <- Replay(s.hist).value.used :: h < |s.makers|)
    && (forall slot <- s.slots :: MadeFor(s, slot, s.slots[slot]))
  }

  /** Handle h was built by a call on this very slot. */
  predicate MadeFor(s: State, slot: Slot, h: nat) {
    h < |s.makers| && s.makers[h] < |s.calls| && SlotOf(s.calls[s.makers[h]]) == slot
  }

  ghost predicate HistoryOk(s: State) {
    WellOrdered(s.hist) && forall t | 0 <= t < |s.pcs| :: Recorded(s.hist, s.pcs[t], t)
  }

  ghost predicate Core(s: State) {
    Shaped(s) && SharedOk(s) && forall t | 0 <= t < |s.pcs| :: CallOk(s, t)
  }

  ghost predicate Inv(s: State) {
    Core(s) && HistoryOk(s)
  }

  lemma InitInv(calls: seq<Call>)
    ensures Inv(Init(calls))
  {
  }

  lemma AppendReplay(hist: seq<Event>, e: Event)
    ensures Replay(hist + [e]) ==
      if Replay(hist).None? || !e.Effective? then Replay(hist) else Act(Replay(hist).value, e.f)
  {
    assert (hist + [e])[..|hist|] == hist;
  }

  lemma AppendOrdered(hist: seq<Event>, e: Event, pc: Pc)
    requires WellOrdered(hist) && Recorded(hist, pc, e.t)
    requires match e
      case Invoke(_) => pc.Idle?
      case Effective(_, _) => !pc.Idle? && !HasEffect(pc)
      case Respond(_, f, got) => HasEffect(pc) && !pc.Done? && pc.f == f && got == GotFrom(f)
    ensures WellOrdered(hist + [e])
  {
    var h' := hist + [e];
    forall i | 0 <= i < |h'| ensures h'[..i] == if i < |hist| then hist[..i] else hist {}
  }

  /** The event a step records. */
  function Recording(s: State, a: Action): Option<Event>
    requires Shaped(s) && Enabled(s, a)
  {
    var t, c, slot := a.t, s.calls[a.t], SlotOf(s.calls[a.t]);
    match a
    case Begin(_) => Some(Invoke(t))
    case Read(_) => if slot in s.slots then Some(Effective(t, Hit(slot, s.slots[slot]))) else None
    case Acquire(_) => None
    case Raise(_, e) => Some(Effective(t, Fail(slot, e)))
    case Return(_) => Some(Respond(t, s.pcs[t].f, s.pcs[t].got))
    case Inside(_) =>
      match s.pcs[t] {
        case Locked =>
          if c.ResetClientCache? then Some(Effective(t, Clear(slot)))
          else if slot in s.slots then Some(Effective(t, Hit(slot, s.slots[slot])))
          else None
        case Built(h) => Some(Effective(t, Create(slot, h)))
        case _ => None
      }
  }

  /** How a step moves its call: the history records what it should, in the order it should. */
  predicate Progresses(pc: Pc, pc': Pc, e: Option<Event>) {
    match e
    case None => (pc.Idle? <==> pc'.Idle?) && (HasEffect(pc) <==> HasEffect(pc')) && (HasEffect(pc) ==> pc'.f == pc.f)
      && !pc.Done? && !pc'.Done?
    case Some(Invoke(_)) => pc.Idle? && !pc'.Idle? && !HasEffect(pc')
    case Some(Effective(_, f)) => !pc.Idle? && !HasEffect(pc) && HasEffect(pc') && pc'.f == f && !pc'.Done?
    case Some(Respond(_, f, got)) =>
      HasEffect(pc) && !pc.Done? && pc'.Done? && pc'.f == pc.f == f && got == GotFrom(f)
  }

  lemma StepProgresses(s: State, a: Action)
    requires Core(s) && Enabled(s, a)
    ensures var s' := Apply(s, a);
      && s'.calls == s.calls && |s'.pcs| == |s.pcs| && s'.pcs == s.pcs[a.t := s'.pcs[a.t]]
      && s'.hist == (if Recording(s, a).Some? then s.hist + [Recording(s, a).value] else s.hist)
      && (Recording(s, a).Some? ==> Recording(s, a).value.t == a.t)
      && Progresses(s.pcs[a.t], s'.pcs[a.t], Recording(s, a))
  {
    assert CallOk(s, a.t);
  }

  lemma HistoryKept(s: State, s': State, t: nat, e: Option<Event>)
    requires HistoryOk(s) && t < |s.pcs| && |s'.pcs| == |s.pcs| && s'.pcs == s.pcs[t := s'.pcs[t]]
    requires s'.hist == if e.Some? then s.hist + [e.value] else s.hist
    requires e.Some? ==> e.value.t == t
    requires Progresses(s.pcs[t], s'.pcs[t], e)
    ensures HistoryOk(s')
  {
    assert Recorded(s.hist, s.pcs[t], t);
    if e.Some? { AppendOrdered(s.hist, e.value, s.pcs[t]); }
    forall u | 0 <= u < |s'.pcs| ensures Recorded(s'.hist, s'.pcs[u], u) {
      assert Recorded(s.hist, s.pcs[u], u);
    }
  }

  lemma ReadKeepsCore(s: State, a: Action)
    requires Core(s) && Enabled(s, a) && a.Read?
    ensures Core(Apply(s, a))
  {
    var s' := Apply(s, a);
    assert CallOk(s, a.t);
    if Recording(s, a).Some? { AppendReplay(s.hist, Recording(s, a).value); }
    forall u | 0 <= u < |s'.pcs| ensures CallOk(s', u) { assert CallOk(s, u); }
  }

  lemma OutsideKeepsCore(s: State, a: Action)
    requires Core(s) && Enabled(s, a) && !a.Inside? && !a.Read?
    ensures Core(Apply(s, a))
  {
    var s' := Apply(s, a);
    assert CallOk(s, a.t);
    if Recording(s, a).Some? { AppendReplay(s.hist, Recording(s, a).value); }
    forall u | 0 <= u < |s'.pcs| ensures CallOk(s', u) { assert CallOk(s, u); }
  }

  lemma ClearKeepsCore(s: State, t: nat)
    requires Core(s) && Enabled(s, Inside(t)) && s.pcs[t].Locked? && s.calls[t].ResetClientCache?
    ensures Core(Apply(s, Inside(t)))
  {
    var s' := Apply(s, Inside(t));
    assert CallOk(s, t);
    AppendReplay(s.hist, Recording(s, Inside(t)).value);
    forall u | 0 <= u < |s'.pcs| ensures CallOk(s', u) { assert CallOk(s, u); }
  }

  lemma SecondLookKeepsCore(s: State, t: nat)
    requires Core(s) && Enabled(s, Inside(t)) && s.pcs[t].Locked? && !s.calls[t].ResetClientCache?
    ensures Core(Apply(s, Inside(t)))
  {
    var s' := Apply(s, Inside(t));
    assert CallOk(s, t);
    if Recording(s, Inside(t)).Some? { AppendReplay(s.hist, Recording(s, Inside(t)).value); }
    forall u | 0 <= u < |s'.pcs| ensures CallOk(s', u) { assert CallOk(s, u); }
  }

  lemma CheckKeepsCore(s: State, a: Action)
    requires Core(s) && Enabled(s, a) && a.Inside? && s.pcs[a.t].Locked?
    ensures Core(Apply(s, a))
  {
    if s.calls[a.t].ResetClientCache? { ClearKeepsCore(s, a.t); } else { SecondLookKeepsCore(s, a.t); }
  }

  lemma StoreReplays(s: State, t: nat)
    requires Core(s) && t < |s.pcs| && s.pcs[t].Built?
    ensures var slot, h := SlotOf(s.calls[t]), s.pcs[t].h;
      Replay(s.hist + [Effective(t, Create(slot, h))])
        == Some(Register(s.slots[slot := h], Replay(s.hist).value.used + {h}))
  {
    var f := Create(SlotOf(s.calls[t]), s.pcs[t].h);
    assert CallOk(s, t);
    AppendReplay(s.hist, Effective(t, f));
    assert Act(Replay(s.hist).value, f) == Some(Register(s.slots[f.slot := f.h], Replay(s.hist).value.used + {f.h}));
  }

  lemma StoreKeepsCore(s: State, a: Action)
    requires Core(s) && Enabled(s, a) && a.Inside? && s.pcs[a.t].Built?
    ensures Core(Apply(s, a))
  {
    var t, s' := a.t, Apply(s, a);
    StoreReplays(s, t);
    StoreKeepsShared(s, s', t);
    forall u | 0 <= u < |s'.pcs| ensures CallOk(s', u) { StoreKeepsCall(s, s', t, u); }
  }

  lemma StoreKeepsShared(s: State, s': State, t: nat)
    requires Core(s) && t < |s.pcs| && s.pcs[t].Built?
    requires var slot, h := SlotOf(s.calls[t]), s.pcs[t].h;
      && |s'.pcs| == |s.pcs| && s'.slots == s.slots[slot := h]
      && s'.calls == s.calls && s'.locks == s.locks && s'.makers == s.makers
      && Replay(s'.hist) == Some(Register(s'.slots, Replay(s.hist).value.used + {h}))
    ensures Shaped(s') && SharedOk(s')
  {
    assert CallOk(s, t);
    forall slot <- s'.slots ensures MadeFor(s', slot, s'.slots[slot]) {
      if slot != SlotOf(s.calls[t]) { assert MadeFor(s, slot, s.slots[slot]); }
    }
  }

  lemma StoreKeepsCall(s: State, s': State, t: nat, u: nat)
    requires Core(s) && t < |s.pcs| && u < |s.pcs| && s.pcs[t].Built?
    requires var slot, h := SlotOf(s.calls[t]), s.pcs[t].h;
      && s'.pcs == s.pcs[t := Settled(Create(slot, h))] && s'.slots == s.slots[slot := h]
      && s'.calls == s.calls && s'.locks == s.locks && s'.makers == s.makers
      && Replay(s'.hist) == Some(Register(s'.slots, Replay(s.hist).value.used + {h}))
    ensures CallOk(s', u)
  {
    assert CallOk(s, t) && CallOk(s, u);
  }

  lemma InsideKeepsCore(s: State, a: Action)
    requires Core(s) && Enabled(s, a) && a.Inside? && !s.pcs[a.t].Locked? && !s.pcs[a.t].Built?
    ensures Core(Apply(s, a))
  {
    var s' := Apply(s, a);
    assert CallOk(s, a.t);
    forall u | 0 <= u < |s'.pcs| ensures CallOk(s', u) { assert CallOk(s, u); }
  }

  /** Every step keeps the invariant. */
  lemma StepKeeps(s: State, a: Action)
    requires Inv(s) && Enabled(s, a)
    ensures Inv(Apply(s, a))
  {
    if a.Read? { ReadKeepsCore(s, a); }
    else if !a.Inside? { OutsideKeepsCore(s, a); }
    else if s.pcs[a.t].Locked? { CheckKeepsCore(s, a); }
    else if s.pcs[a.t].Built? { StoreKeepsCore(s, a); }
    else { InsideKeepsCore(s, a); }
    StepProgresses(s, a);
    HistoryKept(s, Apply(s, a), a.t, Recording(s, a));
  }
}
