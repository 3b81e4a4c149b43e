/** reconcile over every invoker: what it asks for, in which order, and what it never does. */
module Reconcile {
  import opened Wrappers
  import opened JsonModel

  /** The desired state; an absent or empty part is None (no servers: []). */
  datatype Desired = Desired(biosProfile: Option<string>, ntpServers: seq<string>, ntpManager: Option<string>,
                             bootDevice: Option<string>, bootMode: Option<string>, uefiTarget: Option<string>,
                             resetType: Option<string>)

  /** The invocations reconcile can make. */
  datatype Call =
    | BiosDiff | BiosApply
    | NetworkRead | NtpSet(confirm: bool)
    | BootRead | BootOneShot
    | Reboot(dryRun: bool, wait: bool)

  predicate Mutates(c: Call) {
    c == BiosApply || c == NtpSet(true) || c == BootOneShot || (c.Reboot? && !c.dryRun)
  }

  datatype Reply = Reply(failed: bool, data: Json)

  /** The service answers each invocation knowing all that came before. */
  type Invoker = seq<Call> -> Reply

  /**
    One row of manager-network: its manager, ProtocolEnabled (None when null), its servers, and whether it lists any.
   */
  datatype NtpRow = NtpRow(manager: Option<string>, enabled: Option<Json>, servers: seq<string>, lists: bool)

  // ------------------------------------------------------------ is the state there already

  predicate Relevant(row: NtpRow, d: Desired) { d.ntpManager.None? || row.manager == d.ntpManager }

  predicate Capable(row: NtpRow) { row.enabled.Some? || row.lists }

  predicate Right(row: NtpRow, d: Desired) { row.enabled == Some(Bool(true)) && row.servers == d.ntpServers }

  /** Some relevant row can do NTP, each that can is right, and a named manager has none that cannot. */
  ghost predicate NtpMatches(rows: seq<NtpRow>, d: Desired) {
    && (exists row <- rows :: Relevant(row, d) && Capable(row))
    && (forall row <- rows :: Relevant(row, d) && Capable(row) ==> Right(row, d))
    && (d.ntpManager.Some? ==> forall row <- rows :: Relevant(row, d) ==> Capable(row))
  }

  /** _ntp_already_matches. */
  method NtpAlreadyMatches(rows: seq<NtpRow>, d: Desired) returns (ok: bool)
    ensures ok <==> NtpMatches(rows, d)
  {
    var comparable := false;
    for i := 0 to |rows|
      invariant comparable <==> exists j :: 0 <= j < i && Relevant(rows[j], d) && Capable(rows[j])
      invariant forall j | 0 <= j < i && Relevant(rows[j], d) ::
        if Capable(rows[j]) then Right(rows[j], d) else d.ntpManager.None?
    {
      var row := rows[i];
      if d.ntpManager.Some? && row.manager != d.ntpManager { continue; }
      if !Capable(row) {
        if d.ntpManager.Some? {
          assert row in rows;
          return false;
        }
        continue;
      }
      comparable := true;
      if row.enabled != Some(Bool(true)) || row.servers != d.ntpServers {
        assert row in rows;
        return false;
      }
    }
    ok := comparable;
  }

  function Field(data: Json, key: string): Json {
    if data.Obj? && key in data.fields then data.fields[key] else Null
  }

  /** _boot_already_matches. */
  predicate BootMatches(data: Json, d: Desired)
    requires d.bootDevice.Some?
  {
    && Field(data, "BootSourceOverrideEnabled") == Str(if d.bootDevice.value == "None" then "Disabled" else "Once")
    && Field(data, "BootSourceOverrideTarget") == Str(d.bootDevice.value)
    && (d.bootMode.Some? ==> Field(data, "BootSourceOverrideMode") == Str(d.bootMode.value))
    && (d.uefiTarget.Some? ==> Field(data, "UefiTargetBootSourceOverride") == Str(d.uefiTarget.value))
  }

  predicate BiosMatches(data: Json) { Truthy(Field(data, "matches")) }

  // ------------------------------------------------------------ traces

  /** Everything a run depends on; rows reads the answer of manager-network. */
  datatype Task = Task(invoker: Invoker, rows: Json -> seq<NtpRow>, desired: Desired, confirm: bool, wait: bool)

  /** The answer to invocation i. */
  function Answer(t: Task, trace: seq<Call>, i: nat): Reply
    requires i < |trace|
  {
    t.invoker(trace[..i + 1])
  }

  /** What may come after a read only because of its answer. */
  ghost predicate Calls(t: Task, read: Call, answer: Json, next: Call) {
    match next
    case BiosApply => read == BiosDiff && t.confirm && !BiosMatches(answer)
    case NtpSet(confirm) => read == NetworkRead && confirm == t.confirm && !NtpMatches(t.rows(answer), t.desired)
    case BootOneShot => read == BootRead && t.confirm && t.desired.bootDevice.Some? && !BootMatches(answer, t.desired)
    case _ => false
  }

  /** An invocation with a reason: a read of a desired part, a change its read calls for, or the reset asked for. */
  ghost predicate Warranted(t: Task, trace: seq<Call>, i: nat)
    requires i < |trace|
  {
    match trace[i]
    case BiosDiff => t.desired.biosProfile.Some?
    case NetworkRead => t.desired.ntpServers != []
    case BootRead => t.desired.bootDevice.Some?
    case Reboot(dryRun, wait) => t.desired.resetType.Some? && dryRun == !t.confirm && wait == (t.wait && t.confirm)
    case change => i > 0 && Calls(t, trace[i - 1], Answer(t, trace, i - 1).data, change)
  }

  /** A change that the answer to a read calls for is the next invocation. */
  ghost predicate Followed(t: Task, trace: seq<Call>, i: nat)
    requires i < |trace|
  {
    forall next: Call :: Calls(t, trace[i], Answer(t, trace, i).data, next) ==> i + 1 < |trace| && trace[i + 1] == next
  }

  function Phase(c: Call): nat {
    match c
    case BiosDiff => 0 case BiosApply => 1
    case NetworkRead => 2 case NtpSet(_) => 3
    case BootRead => 4 case BootOneShot => 5
    case Reboot(_, _) => 6
  }

  /** The invocations made so far, all answered without error: each has a reason, and they come in order, none twice. */
  ghost predicate Lawful(t: Task, trace: seq<Call>) {
    && (forall i | 0 <= i < |trace| :: Warranted(t, trace, i) && !Answer(t, trace, i).failed)
    && (forall i, j | 0 <= i < j < |trace| :: Phase(trace[i]) < Phase(trace[j]))
  }

  /** Same, with an error at the last invocation. */
  ghost predicate Broken(t: Task, trace: seq<Call>) {
    && trace != [] && Lawful(t, trace[..|trace| - 1]) && Warranted(t, trace, |trace| - 1) && t.invoker(trace).failed
    && forall i | 0 <= i < |trace| - 1 :: Phase(trace[i]) < Phase(trace[|trace| - 1])
  }

  lemma PrefixAnswers(t: Task, trace: seq<Call>, more: seq<Call>, i: nat)
    requires i < |trace|
    ensures Answer(t, trace + more, i) == Answer(t, trace, i)
  {
    assert (trace + more)[..i + 1] == trace[..i + 1];
  }

  /** One more invocation, for a reason and in order. */
  method Ask(t: Task, trace0: seq<Call>, call: Call) returns (ok: bool, trace: seq<Call>, data: Json)
    requires Lawful(t, trace0) && Warranted(t, trace0 + [call], |trace0|)
    requires forall i | 0 <= i < |trace0| :: Phase(trace0[i]) < Phase(call)
    ensures trace == trace0 + [call] && data == Answer(t, trace, |trace0|).data
    ensures ok == !Answer(t, trace, |trace0|).failed
    ensures if ok then Lawful(t, trace) else Broken(t, trace)
  {
    trace := trace0 + [call];
    var reply := t.invoker(trace);
    assert trace[..|trace0| + 1] == trace && trace[..|trace| - 1] == trace0;
    ok, data := !reply.failed, reply.data;
    if ok {
      forall i | 0 <= i < |trace| ensures Warranted(t, trace, i) && !Answer(t, trace, i).failed {
        if i < |trace0| {
          PrefixAnswers(t, trace0, [call], i);
          if i > 0 { PrefixAnswers(t, trace0, [call], i - 1); }
          assert Warranted(t, trace0, i);
        }
      }
    }
  }

  /** A change right after the read that calls for it. */
  method Change(t: Task, trace0: seq<Call>, change: Call) returns (ok: bool, trace: seq<Call>, data: Json)
    requires Lawful(t, trace0) && trace0 != []
    requires Calls(t, trace0[|trace0| - 1], Answer(t, trace0, |trace0| - 1).data, change)
    ensures trace == trace0 + [change] && data == Answer(t, trace, |trace0|).data
    ensures ok == !Answer(t, trace, |trace0|).failed
    ensures if ok then Lawful(t, trace) else Broken(t, trace)
  {
    PrefixAnswers(t, trace0, [change], |trace0| - 1);
    forall i | 0 <= i < |trace0| ensures Phase(trace0[i]) < Phase(change) {
      assert i < |trace0| - 1 ==> Phase(trace0[i]) < Phase(trace0[|trace0| - 1]);
    }
    ok, trace, data := Ask(t, trace0, change);
  }

  /** The read that can call for a change. */
  predicate Reads(t: Task, read: Call, change: Call) {
    || (read == BiosDiff && change == BiosApply)
    || (read == NetworkRead && change == NtpSet(t.confirm))
    || (read == BootRead && change == BootOneShot)
  }

  /** The one change a read can call for. */
  lemma OneChange(t: Task, read: Call, answer: Json, change: Call)
    requires Reads(t, read, change)
    ensures forall next: Call :: Calls(t, read, answer, next) ==> next == change
  {
  }

  datatype Kind = Bios | Ntp | Boot | Reset
  datatype Step = Step(kind: Kind, required: bool)
  datatype Applied = Applied(kind: Kind, changed: bool)
  datatype Progress = Progress(trace: seq<Call>, steps: seq<Step>, applied: seq<Applied>)

  /** Progress so far: invocations up to a phase, changes applied only with consent. */
  ghost predicate Sound(t: Task, p: Progress, phase: nat) {
    && Lawful(t, p.trace) && (forall c <- p.trace :: Phase(c) < phase)
    && (!t.confirm ==> p.applied == [])
    && forall i | 0 <= i < |p.trace| :: Followed(t, p.trace, i)
  }

  lemma StillFollowed(t: Task, trace: seq<Call>, more: seq<Call>)
    requires forall i | 0 <= i < |trace| :: Followed(t, trace, i)
    ensures forall i | 0 <= i < |trace| :: Followed(t, trace + more, i)
  {
    forall i | 0 <= i < |trace| ensures Followed(t, trace + more, i) {
      assert Followed(t, trace, i);
      PrefixAnswers(t, trace, more, i);
    }
  }

  /** A read whose answer calls for nothing ends its part. */
  lemma ReadOnlyPart(t: Task, p: Progress, read: Call, p': Progress)
    requires (forall i | 0 <= i < |p.trace| :: Followed(t, p.trace, i)) && p'.trace == p.trace + [read]
    requires forall next: Call :: !Calls(t, read, Answer(t, p'.trace, |p.trace|).data, next)
    ensures forall i | 0 <= i < |p'.trace| :: Followed(t, p'.trace, i)
  {
    StillFollowed(t, p.trace, [read]);
  }

  /** A read and the change it calls for end their part. */
  lemma ChangePart(t: Task, p: Progress, read: Call, change: Call, p': Progress)
    requires (forall i | 0 <= i < |p.trace| :: Followed(t, p.trace, i)) && p'.trace == p.trace + [read] + [change]
    requires Reads(t, read, change)
    ensures forall i | 0 <= i < |p'.trace| :: Followed(t, p'.trace, i)
  {
    var n := |p.trace|;
    assert p'.trace == p.trace + [read, change];
    StillFollowed(t, p.trace, [read, change]);
    OneChange(t, read, Answer(t, p'.trace, n).data, change);
    assert Followed(t, p'.trace, n);
    assert Followed(t, p'.trace, n + 1);
  }

  /** The change that the read just made calls for. */
  method ChangeAfter(t: Task, ghost p0: Progress, p1: Progress, ghost read: Call, change: Call)
    returns (ok: bool, p: Progress, data: Json)
    requires Lawful(t, p1.trace) && p1.trace == p0.trace + [read] && Reads(t, read, change)
    requires Calls(t, read, Answer(t, p1.trace, |p0.trace|).data, change)
    requires forall i | 0 <= i < |p0.trace| :: Followed(t, p0.trace, i)
    ensures p == p1.(trace := p1.trace + [change])
    ensures if ok then Lawful(t, p.trace) && forall i | 0 <= i < |p.trace| ::
      Followed(t, p.trace, i) else Broken(t, p.trace)
  {
    var trace;
    ok, trace, data := Change(t, p1.trace, change);
    p := p1.(trace := trace);
    if ok { ChangePart(t, p0, read, change, p); }
  }

  /** _reconcile_bios_profile. */
  method ReconcileBios(t: Task, p0: Progress) returns (ok: bool, p: Progress)
    requires Sound(t, p0, 0) && t.desired.biosProfile.Some?
    ensures if ok then Sound(t, p, 2) && BiosDiff in p.trace else Broken(t, p.trace)
  {
    var asked, trace, diff := Ask(t, p0.trace, BiosDiff);
    p := p0.(trace := trace);
    if !asked { return false, p; }
    var required := !BiosMatches(diff);
    p := p.(steps := p.steps + [Step(Bios, required)]);
    if t.confirm && required {
      var result;
      ok, p, result := ChangeAfter(t, p0, p, BiosDiff, BiosApply);
      if ok { p := p.(applied := p.applied + [Applied(Bios, true)]); }
    } else {
      ReadOnlyPart(t, p0, BiosDiff, p);
      ok := true;
    }
  }

  /** _reconcile_ntp. */
  method ReconcileNtp(t: Task, p0: Progress) returns (ok: bool, p: Progress)
    requires Sound(t, p0, 2) && t.desired.ntpServers != []
    ensures if ok then Sound(t, p, 4) && NetworkRead in p.trace && p0.trace <= p.trace else Broken(t, p.trace)
  {
    var asked, trace, current := Ask(t, p0.trace, NetworkRead);
    p := p0.(trace := trace);
    if !asked { return false, p; }
    var matches := NtpAlreadyMatches(t.rows(current), t.desired);
    if matches {
      p := p.(steps := p.steps + [Step(Ntp, false)]);
      ReadOnlyPart(t, p0, NetworkRead, p);
      return true, p;
    }
    var result;
    ok, p, result := ChangeAfter(t, p0, p, NetworkRead, NtpSet(t.confirm));
    if !ok { return; }
    p := p.(steps := p.steps + [Step(Ntp, Truthy(Field(result, "plan")) || Truthy(Field(result, "applied")))]);
    if t.confirm { p := p.(applied := p.applied + [Applied(Ntp, Truthy(Field(result, "applied")))]); }
  }

  /** _reconcile_boot. */
  method ReconcileBoot(t: Task, p0: Progress) returns (ok: bool, p: Progress)
    requires Sound(t, p0, 4) && t.desired.bootDevice.Some?
    ensures if ok then Sound(t, p, 6) && BootRead in p.trace && p0.trace <= p.trace else Broken(t, p.trace)
  {
    var asked, trace, current := Ask(t, p0.trace, BootRead);
    p := p0.(trace := trace);
    if !asked { return false, p; }
    var required := !BootMatches(current, t.desired);
    p := p.(steps := p.steps + [Step(Boot, required)]);
    if t.confirm && required {
      var result;
      ok, p, result := ChangeAfter(t, p0, p, BootRead, BootOneShot);
      if ok { p := p.(applied := p.applied + [Applied(Boot, true)]); }
    } else {
      ReadOnlyPart(t, p0, BootRead, p);
      ok := true;
    }
  }

  /** _reconcile_reboot. */
  method ReconcileReboot(t: Task, p0: Progress) returns (ok: bool, p: Progress)
    requires Sound(t, p0, 6) && t.desired.resetType.Some?
    ensures if ok
            then Sound(t, p, 7) && Reboot(!t.confirm, t.wait && t.confirm) in p.trace && p0.trace <= p.trace
            else Broken(t, p.trace)
  {
    var asked, trace, result := Ask(t, p0.trace, Reboot(!t.confirm, t.wait && t.confirm));
    p := p0.(trace := trace, steps := p0.steps + [Step(Reset, true)]);
    if !asked { return false, p; }
    if t.confirm { p := p.(applied := p.applied + [Applied(Reset, true)]); }
    ReadOnlyPart(t, p0, Reboot(!t.confirm, t.wait && t.confirm), p);
    ok := true;
  }

  /** Every part that is desired has been looked at. */
  ghost predicate Complete(t: Task, trace: seq<Call>) {
    && (t.desired.biosProfile.Some? ==> BiosDiff in trace) && (t.desired.ntpServers != [] ==> NetworkRead in trace)
    && (t.desired.bootDevice.Some? ==> BootRead in trace)
    && (t.desired.resetType.Some? ==> Reboot(!t.confirm, t.wait && t.confirm) in trace)
    && forall i | 0 <= i < |trace| :: Followed(t, trace, i)
  }

  lemma LaterPhase(t: Task, p: Progress, phase: nat, later: nat)
    requires Sound(t, p, phase) && phase <= later
    ensures Sound(t, p, later)
  {
  }

  /** trace is everything that was invoked; None is the RedfishApiError of its last invocation. */
  method Run(t: Task) returns (r: Option<Progress>, trace: seq<Call>)
    ensures r.Some? ==>
      trace == r.value.trace && Lawful(t, trace) && Complete(t, trace) && (!t.confirm ==> r.value.applied == [])
    ensures r.None? ==> Broken(t, trace)
  {
    var p := Progress([], [], []);
    var ok := true;
    if t.desired.biosProfile.Some? {
      ok, p := ReconcileBios(t, p);
      if !ok { return None, p.trace; }
    }
    LaterPhase(t, p, if t.desired.biosProfile.Some? then 2 else 0, 2);
    if t.desired.ntpServers != [] {
      ok, p := ReconcileNtp(t, p);
      if !ok { return None, p.trace; }
    }
    LaterPhase(t, p, if t.desired.ntpServers != [] then 4 else 2, 4);
    if t.desired.bootDevice.Some? {
      ok, p := ReconcileBoot(t, p);
      if !ok { return None, p.trace; }
    }
    LaterPhase(t, p, if t.desired.bootDevice.Some? then 6 else 4, 6);
    if t.desired.resetType.Some? {
      ok, p := ReconcileReboot(t, p);
      if !ok { return None, p.trace; }
    }
    return Some(p), p.trace;
  }

  // ------------------------------------------------------------ what that rules out

  /** Without consent nothing is changed, whether the run succeeds or fails. */
  lemma UnconfirmedChangesNothing(t: Task, trace: seq<Call>)
    requires !t.confirm && (Lawful(t, trace) || Broken(t, trace))
    ensures forall c <- trace :: !Mutates(c)
  {
    forall i | 0 <= i < |trace| ensures !Mutates(trace[i]) { AllWarranted(t, trace, i); }
  }

  /** A reset comes last, and only after every other invocation was answered without error. */
  lemma ResetComesLast(t: Task, trace: seq<Call>, i: nat)
    requires (Lawful(t, trace) || Broken(t, trace)) && i < |trace| && trace[i].Reboot?
    ensures i == |trace| - 1 && forall j | 0 <= j < i :: !Answer(t, trace, j).failed
  {
    assert Phase(trace[i]) <= Phase(trace[|trace| - 1]);
    forall j | 0 <= j < i ensures !Answer(t, trace, j).failed { EarlierSucceeded(t, trace, j); }
  }

  /** Only the last invocation can have failed. */
  lemma EarlierSucceeded(t: Task, trace: seq<Call>, j: nat)
    requires (Lawful(t, trace) || Broken(t, trace)) && j < |trace| - 1
    ensures !Answer(t, trace, j).failed
  {
    if Broken(t, trace) {
      assert trace == trace[..|trace| - 1] + [trace[|trace| - 1]];
      PrefixAnswers(t, trace[..|trace| - 1], [trace[|trace| - 1]], j);
    }
  }

  /** What a read answered is the desired state. */
  ghost predicate AlreadyThere(t: Task, read: Call, answer: Json) {
    match read
    case BiosDiff => BiosMatches(answer)
    case NetworkRead => NtpMatches(t.rows(answer), t.desired)
    case BootRead => t.desired.bootDevice.Some? && BootMatches(answer, t.desired)
    case _ => true
  }

  /** Every invocation has a reason, whether the run succeeds or fails. */
  lemma AllWarranted(t: Task, trace: seq<Call>, i: nat)
    requires (Lawful(t, trace) || Broken(t, trace)) && i < |trace|
    ensures Warranted(t, trace, i)
  {
    var n := |trace| - 1;
    if !Lawful(t, trace) && i < n {
      var front := trace[..n];
      assert trace == front + [trace[n]];
      assert Warranted(t, front, i);
      if i > 0 { PrefixAnswers(t, front, [trace[n]], i - 1); }
    }
  }

  /**
    A state that is there already is left alone: if every read that was answered without error answered it, only a
    reset that was asked for changes anything, whether the run succeeds or fails.
   */
  lemma MatchingStateIsKept(t: Task, trace: seq<Call>)
    requires Lawful(t, trace) || Broken(t, trace)
    requires forall i | 0 <= i < |trace| ::
      !Answer(t, trace, i).failed ==> AlreadyThere(t, trace[i], Answer(t, trace, i).data)
    ensures forall c <- trace :: Mutates(c) ==> c.Reboot?
  {
    forall i | 0 <= i < |trace| ensures Mutates(trace[i]) ==> trace[i].Reboot? {
      AllWarranted(t, trace, i);
      if i > 0 {
        EarlierSucceeded(t, trace, i - 1);
        assert AlreadyThere(t, trace[i - 1], Answer(t, trace, i - 1).data);
      }
    }
  }
}
