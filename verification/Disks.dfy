/** materialize as it runs: checks first, then the steps of the script, one at a time. */
module Disks {
  import opened Wrappers
  import opened Ordering
  import opened Evidence
  import opened Materialize
  import opened CrashSafety

  datatype Outcome = Done | Refused | Failed

  /** A file that fits stands in no one's way. */
  lemma OneMore(files: map<string, Bytes>, path: string, bytes: Bytes)
    requires NoFileInTheWay(files) && Fits(files, path)
    ensures NoFileInTheWay(files[path := bytes])
  {
  }

  lemma InTheWay(payloads: map<string, Bytes>, files: map<string, Bytes>, path: string)
    requires files.Keys <= payloads.Keys && path in payloads && !Fits(files, path)
    ensures !NoFileInTheWay(payloads)
  {
  }

  lemma SameNames(files: map<string, Bytes>, payloads: map<string, Bytes>)
    requires files.Keys == payloads.Keys
    ensures NoFileInTheWay(files) <==> NoFileInTheWay(payloads)
  {
    assert forall p :: p in files <==> p in payloads;
  }

  lemma ExecNext(start: Snapshot, ops: seq<Op>, i: nat, at: Snapshot)
    requires i < |ops| && Exec(start, ops[..i]) == Some(at)
    ensures Exec(start, ops[..i + 1]) == Perform(at, ops[i])
  {
    assert ops[..i + 1][..i] == ops[..i];
  }

  class Disk {
    var output: Place
    var profile: Option<Node>
    var report: Option<Node>
    var temps: map<string, map<string, Bytes>>
    var drafts: map<string, Bytes>

    function State(): Snapshot
      reads this
    {
      Snapshot(output, profile, report, temps, drafts)
    }

    constructor (s: Snapshot)
      ensures State() == s
    {
      output, profile, report, temps, drafts := s.output, s.profile, s.report, s.temps, s.drafts;
    }

    /** One operating-system call; a refused one changes nothing. */
    method Do(op: Op) returns (ok: bool)
      modifies this
      ensures ok <==> Perform(old(State()), op).Some?
      ensures State() == if ok then Perform(old(State()), op).value else old(State())
    {
      var next := Perform(State(), op);
      ok := next.Some?;
      if ok {
        var s := next.value;
        output, profile, report, temps, drafts := s.output, s.profile, s.report, s.temps, s.drafts;
      }
    }

    /** The checks before anything is written. */
    method Acceptable(goal: Goal) returns (ok: bool)
      ensures ok <==> Recoverable(State(), goal)
    {
      if !goal.pass || output == LinkedPlace || profile == Some(Link) || report == Some(Link) { return false; }
      if profile.Some? {
        var findings := ExistingFindings(profile, goal.payloads);
        if findings != [] { return false; }
      }
      if report.Some? {
        if !report.value.Regular? || report.value.bytes != goal.report { return false; }
      }
      ok := output != NotFolder;
    }

    /** shutil.rmtree. */
    method Remove(tmp: string)
      modifies this`temps
      ensures temps == old(temps) - {tmp}
    {
      temps := temps - {tmp};
    }

    /** The payloads into a temporary directory; false when a file is in the way. */
    method Fill(goal: Goal, order: seq<string>, tmp: string) returns (ok: bool)
      requires Ordered(goal, order) && tmp in temps && temps[tmp] == map[]
      modifies this
      ensures ok <==> NoFileInTheWay(goal.payloads)
      ensures ok ==> Exec(old(State()), Writes(goal.payloads, tmp, order)) == Some(State())
      ensures tmp in temps && State() == old(State()).(temps := old(temps)[tmp := temps[tmp]])
    {
      ghost var ops := Writes(goal.payloads, tmp, order);
      ghost var start := State();
      assert ops[..0] == [];
      assert start.temps[tmp := start.temps[tmp]] == start.temps;
      for i := 0 to |order|
        invariant tmp in temps && State() == start.(temps := start.temps[tmp := temps[tmp]])
        invariant Exec(start, ops[..i]) == Some(State())
        invariant temps[tmp].Keys == Elements(order[..i]) && NoFileInTheWay(temps[tmp])
      {
        assert order[..i + 1] == order[..i] + [order[i]] && order[i] in order;
        ghost var before := temps[tmp];
        OneWrite(start, before, tmp, order[i], goal.payloads[order[i]]);
        ExecNext(start, ops, i, State());
        ok := Do(WriteFile(tmp, order[i], goal.payloads[order[i]]));
        if !ok {
          InTheWay(goal.payloads, before, order[i]);
          return;
        }
        OneMore(before, order[i], goal.payloads[order[i]]);
      }
      assert order[..|order|] == order && ops[..|order|] == ops;
      SameNames(temps[tmp], goal.payloads);
      ok := true;
    }

    /** The profile, by way of a temporary directory that is removed when a write fails. */
    method PlaceProfile(goal: Goal, order: seq<string>, tmp: string) returns (ok: bool)
      requires Ordered(goal, order) && tmp !in temps
      modifies this
      ensures ok <==> profile.Some?
      ensures ok <==> old(profile).Some? || NoFileInTheWay(goal.payloads)
      ensures State() == old(State()).(profile := profile)
      ensures ok ==> Exec(old(State()), ProfileScript(old(State()), goal, order, tmp)) == Some(State())
    {
      if profile.Some? { return true; }
      ghost var start := State();
      var made := Do(MakeTemp(tmp));
      ghost var s1 := State();
      OneOp(start, MakeTemp(tmp));
      ok := Fill(goal, order, tmp);
      if !ok {
        Remove(tmp);
        assert temps == start.temps;
        return;
      }
      ghost var writes := Writes(goal.payloads, tmp, order);
      ExecConcat(start, [MakeTemp(tmp)], writes);
      TempReplaced(start, goal.payloads, tmp, order);
      ghost var s2 := State();
      ok := Do(ReplaceProfile(tmp));
      ExecConcat(start, [MakeTemp(tmp)] + writes, [ReplaceProfile(tmp)]);
      OneOp(s2, ReplaceProfile(tmp));
    }

    /** The report, by way of a draft next to it. */
    method PlaceReport(goal: Goal, draft: string)
      modifies this
      ensures Exec(old(State()), ReportScript(old(State()), goal, draft)) == Some(State())
    {
      if report.Some? { return; }
      ghost var start := State();
      var written := Do(WriteDraft(draft, goal.report));
      OneOp(start, WriteDraft(draft, goal.report));
      ghost var s1 := State();
      var replaced := Do(ReplaceReport(draft));
      ghost var script := ReportScript(start, goal, draft);
      assert script[..1] == [WriteDraft(draft, goal.report)];
    }

    /**
      tmp is the name mkdtemp makes up.  An output that is neither absent nor a correct part of the goal is
      refused with nothing changed; otherwise the run is its script, and can fail only on a plan that has
      a file where another needs a directory, leaving no more than the output directory.
     */
    method Materialize(goal: Goal, tmp: string, draft: string) returns (r: Outcome, ghost order: seq<string>)
      requires tmp !in temps
      modifies this
      ensures Ordered(goal, order)
      ensures r == Refused <==> !Recoverable(old(State()), goal)
      ensures r == Refused ==> State() == old(State())
      ensures r == Failed <==> Recoverable(old(State()), goal) && old(profile).None? && !NoFileInTheWay(goal.payloads)
      ensures r == Failed ==> State() == old(State()).(output := Folder)
      ensures r == Done ==> Exec(old(State()), Script(old(State()), goal, order, tmp, draft)) == Some(State())
      ensures r == Done && NoFileInTheWay(goal.payloads) ==> Verified(State(), goal)
    {
      var sorted := SortedList(goal.payloads.Keys);
      order := sorted;
      var fine := Acceptable(goal);
      if !fine { return Refused, order; }
      ghost var start := State();
      var made := Do(MakeOutput);
      ghost var s1 := State();
      OneOp(start, MakeOutput);
      var ok := PlaceProfile(goal, sorted, tmp);
      if !ok { return Failed, order; }
      ghost var s2 := State();
      PlaceReport(goal, draft);
      ExecConcat(start, [MakeOutput], ProfileScript(start, goal, order, tmp));
      ExecConcat(start, [MakeOutput] + ProfileScript(start, goal, order, tmp), ReportScript(start, goal, draft));
      if NoFileInTheWay(goal.payloads) { CompleteRun(start, goal, order, tmp, draft); }
      r := Done;
    }
  }
}
