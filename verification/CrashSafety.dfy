/** materialize dies anywhere and is run again: nothing is lost, nothing is half done. */
module CrashSafety {
  import opened Wrappers
  import opened Evidence
  import opened Materialize
  import V = Verdicts

  /** What materialize accepts to start from. */
  predicate Recoverable(s: Snapshot, goal: Goal) {
    && goal.pass && (s.output == Absent || s.output == Folder)
    && (s.profile.None? || s.profile == Some(Exact(goal.payloads)))
    && (s.report.None? || s.report == Some(Regular(goal.report)))
  }

  /** No file of the plan stands where another needs a directory. */
  predicate NoFileInTheWay(payloads: map<string, Bytes>) {
    forall p <- payloads, q <- payloads :: !(V.PathParts(p) < V.PathParts(q))
  }

  lemma {:induction false} ExecConcat(s: Snapshot, a: seq<Op>, b: seq<Op>)
    ensures Exec(s, a + b) == match Exec(s, a) { case None => None case Some(t) => Exec(t, b) }
    decreases |b|
  {
    if b == [] {
      assert a + b == a;
    } else {
      var n := |b| - 1;
      ExecConcat(s, a, b[..n]);
      assert (a + b)[..|a + b| - 1] == a + b[..n];
    }
  }

  function Restrict(payloads: map<string, Bytes>, order: seq<string>): map<string, Bytes> {
    map p | p in order && p in payloads :: payloads[p]
  }

  lemma OneWrite(start: Snapshot, files: map<string, Bytes>, tmp: string, path: string, bytes: Bytes)
    ensures Perform(start.(temps := start.temps[tmp := files]), WriteFile(tmp, path, bytes)) ==
      if Fits(files, path) then Some(start.(temps := start.temps[tmp := files[path := bytes]])) else None
  {
    assert start.temps[tmp := files][tmp := files[path := bytes]] == start.temps[tmp := files[path := bytes]];
  }

  lemma RestrictNext(payloads: map<string, Bytes>, order: seq<string>)
    requires order != [] && NoFileInTheWay(payloads) && forall p <- order :: p in payloads
    ensures var n := |order| - 1; var before := Restrict(payloads, order[..n]);
      Restrict(payloads, order) == before[order[n] := payloads[order[n]]] && Fits(before, order[n])
  {
    assert order == order[..|order| - 1] + [order[|order| - 1]];
  }

  lemma {:induction false} AfterWrites(s: Snapshot, payloads: map<string, Bytes>, tmp: string, order: seq<string>)
    requires tmp in s.temps && s.temps[tmp] == map[] && NoFileInTheWay(payloads) && forall p <- order :: p in payloads
    ensures Exec(s, Writes(payloads, tmp, order)) == Some(s.(temps := s.temps[tmp := Restrict(payloads, order)]))
    decreases |order|
  {
    if order == [] {
      assert Restrict(payloads, order) == map[];
      assert s.temps[tmp := map[]] == s.temps;
    } else {
      var n := |order| - 1;
      var ops := Writes(payloads, tmp, order);
      AfterWrites(s, payloads, tmp, order[..n]);
      assert ops[..n] == Writes(payloads, tmp, order[..n]);
      RestrictNext(payloads, order);
      OneWrite(s, Restrict(payloads, order[..n]), tmp, order[n], payloads[order[n]]);
    }
  }

  /** The temporary tree after some of its files are written. */
  lemma TempFilled(s: Snapshot, payloads: map<string, Bytes>, tmp: string, order: seq<string>)
    requires tmp !in s.temps && NoFileInTheWay(payloads) && forall p <- order :: p in payloads
    ensures Exec(s, [MakeTemp(tmp)] + Writes(payloads, tmp, order)) ==
      Some(s.(temps := s.temps[tmp := Restrict(payloads, order)]))
  {
    var s1 := s.(temps := s.temps[tmp := map[]]);
    OneOp(s, MakeTemp(tmp));
    AfterWrites(s1, payloads, tmp, order);
    ExecConcat(s, [MakeTemp(tmp)], Writes(payloads, tmp, order));
    assert s1.temps[tmp := Restrict(payloads, order)] == s.temps[tmp := Restrict(payloads, order)];
  }

  lemma TempReplaced(s: Snapshot, payloads: map<string, Bytes>, tmp: string, order: seq<string>)
    requires tmp !in s.temps && NoFileInTheWay(payloads) && s.profile.None? && forall p :: p in order <==> p in payloads
    ensures Exec(s, [MakeTemp(tmp)] + Writes(payloads, tmp, order) + [ReplaceProfile(tmp)]) ==
      Some(s.(profile := Some(Exact(payloads))))
  {
    TempFilled(s, payloads, tmp, order);
    var s2 := s.(temps := s.temps[tmp := Restrict(payloads, order)]);
    assert Restrict(payloads, order) == payloads;
    ExecConcat(s, [MakeTemp(tmp)] + Writes(payloads, tmp, order), [ReplaceProfile(tmp)]);
    OneOp(s2, ReplaceProfile(tmp));
    assert s2.temps - {tmp} == s.temps;
  }

  lemma ProfilePrefix(s: Snapshot, goal: Goal, order: seq<string>, tmp: string, n: nat)
    requires Ordered(goal, order) && s.profile.None? && 0 < n <= |order| + 1
    ensures ProfileScript(s, goal, order, tmp)[..n] == [MakeTemp(tmp)] + Writes(goal.payloads, tmp, order[..n - 1])
  {
  }

  /** Every part of the profile script leaves the profile alone, the whole of it puts the planned tree there. */
  lemma ProfilePart(s: Snapshot, goal: Goal, order: seq<string>, tmp: string, n: nat)
    requires Ordered(goal, order)
    requires s.profile.None? || s.profile == Some(Exact(goal.payloads))
    requires NoFileInTheWay(goal.payloads) && tmp !in s.temps && n <= |ProfileScript(s, goal, order, tmp)|
    ensures var r := Exec(s, ProfileScript(s, goal, order, tmp)[..n]);
      && r.Some? && r.value.output == s.output && r.value.report == s.report && r.value.drafts == s.drafts
      && r.value.profile ==
         (if n == |ProfileScript(s, goal, order, tmp)| then Some(Exact(goal.payloads)) else s.profile)
  {
    var script := ProfileScript(s, goal, order, tmp);
    if s.profile.Some? || n == 0 {
      assert script[..n] == [];
    } else if n <= |order| + 1 {
      ProfilePrefix(s, goal, order, tmp, n);
      TempFilled(s, goal.payloads, tmp, order[..n - 1]);
    } else {
      TempReplaced(s, goal.payloads, tmp, order);
      assert script[..n] == script;
    }
  }

  lemma OneOp(s: Snapshot, op: Op)
    ensures Exec(s, [op]) == Perform(s, op)
  {
    assert [op][..0] == [];
  }

  lemma ReportPart(s: Snapshot, goal: Goal, draft: string, n: nat)
    requires (s.report.None? || s.report == Some(Regular(goal.report))) && n <= |ReportScript(s, goal, draft)|
    ensures var r := Exec(s, ReportScript(s, goal, draft)[..n]);
      && r.Some? && r.value.output == s.output && r.value.profile == s.profile && r.value.temps == s.temps
      && r.value.report == (if n == |ReportScript(s, goal, draft)| then Some(Regular(goal.report)) else s.report)
  {
    var script := ReportScript(s, goal, draft);
    if script != [] {
      OneOp(s, WriteDraft(draft, goal.report));
      assert script[..1] == [WriteDraft(draft, goal.report)];
      if n == 2 { assert script[..2][..1] == script[..1]; }
      assert script[..0] == [];
    }
  }

  lemma FirstSteps(op: Op, p: seq<Op>, q: seq<Op>, i: nat, j: nat)
    requires i <= |p| && j <= |q| && (j > 0 ==> i == |p|)
    ensures ([op] + p + q)[..1 + i + j] == [op] + p[..i] + q[..j]
  {
  }

  /** Where a run stands after a part of its script. */
  lemma RunInParts(s: Snapshot, goal: Goal, order: seq<string>, tmp: string, draft: string, i: nat, j: nat)
    requires Ordered(goal, order)
    requires Recoverable(s, goal) && NoFileInTheWay(goal.payloads) && tmp !in s.temps
    requires i <= |ProfileScript(s, goal, order, tmp)| && j <= |ReportScript(s, goal, draft)|
    ensures var p, q := ProfileScript(s, goal, order, tmp), ReportScript(s, goal, draft);
      var r := Exec(s, [MakeOutput] + p[..i] + q[..j]);
      r.Some? && Recoverable(r.value, goal) && r.value.output == Folder
      && (i == |p| && j == |q| ==> Verified(r.value, goal))
  {
    var p, q := ProfileScript(s, goal, order, tmp), ReportScript(s, goal, draft);
    var s1 := s.(output := Folder);
    OneOp(s, MakeOutput);
    ProfilePart(s1, goal, order, tmp, i);
    ExecConcat(s, [MakeOutput], p[..i]);
    ReportPart(Exec(s, [MakeOutput] + p[..i]).value, goal, draft, j);
    ExecConcat(s, [MakeOutput] + p[..i], q[..j]);
  }

  /** Where a run stands after its first n steps. */
  lemma PartialRun(s: Snapshot, goal: Goal, order: seq<string>, tmp: string, draft: string, n: nat)
    requires Ordered(goal, order)
    requires Recoverable(s, goal) && NoFileInTheWay(goal.payloads) && tmp !in s.temps
    requires n <= |Script(s, goal, order, tmp, draft)|
    ensures Exec(s, Script(s, goal, order, tmp, draft)[..n]).Some?
    ensures var r := Exec(s, Script(s, goal, order, tmp, draft)[..n]).value;
      Recoverable(r, goal) && (n == |Script(s, goal, order, tmp, draft)| ==> Verified(r, goal) && r.output == Folder)
  {
    var p, q := ProfileScript(s, goal, order, tmp), ReportScript(s, goal, draft);
    var script := Script(s, goal, order, tmp, draft);
    if n == 0 {
      assert script[..n] == [];
      return;
    }
    var i := if n - 1 <= |p| then n - 1 else |p|;
    var j := n - 1 - i;
    RunInParts(s, goal, order, tmp, draft, i, j);
    FirstSteps(MakeOutput, p, q, i, j);
  }

  /** A run that is killed between any two steps leaves an output that materialize still accepts. */
  lemma CrashIsRecoverable(s: Snapshot, goal: Goal, order: seq<string>, tmp: string, draft: string, n: nat)
    requires Ordered(goal, order)
    requires Recoverable(s, goal) && NoFileInTheWay(goal.payloads) && tmp !in s.temps
    requires n <= |Script(s, goal, order, tmp, draft)|
    ensures var r := Exec(s, Script(s, goal, order, tmp, draft)[..n]); r.Some? && Recoverable(r.value, goal)
  {
    PartialRun(s, goal, order, tmp, draft, n);
  }

  /** A run that gets to its end leaves an output that verify passes, and running again does nothing. */
  lemma CompleteRun(s: Snapshot, goal: Goal, order: seq<string>, tmp: string, draft: string)
    requires Ordered(goal, order)
    requires Recoverable(s, goal) && NoFileInTheWay(goal.payloads) && tmp !in s.temps
    ensures var r := Exec(s, Script(s, goal, order, tmp, draft));
      && r.Some? && Verified(r.value, goal) && Recoverable(r.value, goal)
      && forall tmp': string, draft': string :: Exec(r.value, Script(r.value, goal, order, tmp', draft')) == r
  {
    var script := Script(s, goal, order, tmp, draft);
    assert script[..|script|] == script;
    PartialRun(s, goal, order, tmp, draft, |script|);
    var r := Exec(s, script).value;
    forall tmp': string, draft': string ensures Exec(r, Script(r, goal, order, tmp', draft')) == Some(r) {
      assert Script(r, goal, order, tmp', draft') == [MakeOutput];
      OneOp(r, MakeOutput);
    }
  }

  // ------------------------------------------------------------ any number of crashes

  /** A run that is killed after n steps. */
  datatype Attempt = Attempt(tmp: string, draft: string, steps: nat)

  function Killed(s: Snapshot, goal: Goal, order: seq<string>, a: Attempt): Option<Snapshot>
    requires Ordered(goal, order)
  {
    var script := Script(s, goal, order, a.tmp, a.draft);
    Exec(s, script[..if a.steps <= |script| then a.steps else |script|])
  }

  /** Runs killed one after the other; mkdtemp gives each a name that is not there yet. */
  ghost predicate Crashes(s: Snapshot, goal: Goal, order: seq<string>, attempts: seq<Attempt>, end: Snapshot)
    requires Ordered(goal, order)
    decreases |attempts|
  {
    if attempts == [] then end == s
    else
      && attempts[0].tmp !in s.temps
      && Killed(s, goal, order, attempts[0]).Some?
      && Crashes(Killed(s, goal, order, attempts[0]).value, goal, order, attempts[1..], end)
  }

  /** However many runs died and wherever they died, the next complete run ends in an output that verify passes. */
  lemma {:induction false} AnyCrashesThenComplete(s: Snapshot, goal: Goal, order: seq<string>,
                                                  attempts: seq<Attempt>, end: Snapshot, tmp: string, draft: string)
    requires Ordered(goal, order)
    requires Recoverable(s, goal) && NoFileInTheWay(goal.payloads) && Crashes(s, goal, order, attempts, end)
    requires tmp !in end.temps
    ensures Recoverable(end, goal)
    ensures var r := Exec(end, Script(end, goal, order, tmp, draft)); r.Some? && Verified(r.value, goal)
    decreases |attempts|
  {
    if attempts == [] {
      CompleteRun(s, goal, order, tmp, draft);
    } else {
      var a := attempts[0];
      var script := Script(s, goal, order, a.tmp, a.draft);
      PartialRun(s, goal, order, a.tmp, a.draft, if a.steps <= |script| then a.steps else |script|);
      AnyCrashesThenComplete(Killed(s, goal, order, a).value, goal, order, attempts[1..], end, tmp, draft);
    }
  }
}
