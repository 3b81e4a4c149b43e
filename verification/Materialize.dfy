/** materialize and verify: writing a conversion to disk so that a run that dies can simply be repeated. */
module Materialize {
  import opened Wrappers
  import opened Ordering
  import opened Evidence
  import V = Verdicts

  /** What is under a path; directories and special files inside a tree play no part in the checks. */
  datatype Entry = Plain(bytes: Bytes) | Symlink
  datatype Node = Directory(entries: map<string, Entry>) | Regular(bytes: Bytes) | Link
  datatype Place = Absent | Folder | NotFolder | LinkedPlace

  /** The output directory, the profile root and report in it, and whatever temporaries lie around. */
  datatype Snapshot = Snapshot(output: Place, profile: Option<Node>, report: Option<Node>,
                               temps: map<string, map<string, Bytes>>, drafts: map<string, Bytes>)

  /** What is to be on disk in the end. */
  datatype Goal = Goal(payloads: map<string, Bytes>, report: Bytes, pass: bool)

  function Exact(payloads: map<string, Bytes>): Node {
    Directory(map p | p in payloads :: Plain(payloads[p]))
  }

  // ------------------------------------------------------------ _existing_tree_findings, verify

  datatype Finding =
    | RootSymlink | RootMissing | RootNotDirectory
    | SymlinkInside(path: string) | MissingFile(path: string) | UnexpectedFile(path: string)
    | ContentMismatch(path: string)
    | ReportSymlink | ReportMissing | ReportMismatch | PlanFails

  predicate HasFile(entries: map<string, Entry>, p: string) { p in entries && entries[p].Plain? }

  /** When a tree deserves a finding. */
  predicate Deserves(entries: map<string, Entry>, payloads: map<string, Bytes>, x: Finding) {
    match x
    case SymlinkInside(p) => p in entries && entries[p].Symlink?
    case MissingFile(p) => p in payloads && !HasFile(entries, p)
    case UnexpectedFile(p) => p !in payloads && HasFile(entries, p)
    case ContentMismatch(p) => p in payloads && HasFile(entries, p) && entries[p].bytes != payloads[p]
    case _ => false
  }

  /** The findings about one path. */
  function PathFindings(entries: map<string, Entry>, payloads: map<string, Bytes>, p: string): (r: seq<Finding>)
    ensures forall x :: x in r <==> Deserves(entries, payloads, x) && x.path == p
  {
    if p in entries && entries[p].Symlink? then
      [SymlinkInside(p)] + if p in payloads then [MissingFile(p)] else []
    else if p in entries then
      if p !in payloads then [UnexpectedFile(p)]
      else if entries[p].bytes != payloads[p] then [ContentMismatch(p)]
      else []
    else if p in payloads then [MissingFile(p)] else []
  }

  method TreeFindings(entries: map<string, Entry>, payloads: map<string, Bytes>) returns (findings: seq<Finding>)
    ensures forall x :: x in findings <==> Deserves(entries, payloads, x)
  {
    var order := SortedList(entries.Keys + payloads.Keys);
    findings := [];
    for i := 0 to |order|
      invariant forall x :: x in findings <==> Deserves(entries, payloads, x) && x.path in order[..i]
    {
      assert order[..i + 1] == order[..i] + [order[i]];
      findings := findings + PathFindings(entries, payloads, order[i]);
    }
    assert order[..|order|] == order;
    assert forall x | Deserves(entries, payloads, x) :: x.path in entries.Keys + payloads.Keys;
  }

  /** A tree without findings is exactly the planned one. */
  lemma NoFindingsMeansExact(entries: map<string, Entry>, payloads: map<string, Bytes>)
    ensures (forall x :: !Deserves(entries, payloads, x)) <==> Directory(entries) == Exact(payloads)
  {
    if forall x :: !Deserves(entries, payloads, x) {
      forall p: string ensures p in entries <==> p in payloads {
        assert !Deserves(entries, payloads, SymlinkInside(p)) && !Deserves(entries, payloads, MissingFile(p));
        assert !Deserves(entries, payloads, UnexpectedFile(p));
      }
      forall p <- entries ensures p in payloads && entries[p] == Plain(payloads[p]) {
        assert !Deserves(entries, payloads, SymlinkInside(p)) && !Deserves(entries, payloads, ContentMismatch(p));
      }
      assert entries == Exact(payloads).entries;
    }
  }

  method ExistingFindings(profile: Option<Node>, payloads: map<string, Bytes>) returns (findings: seq<Finding>)
    ensures findings == [] <==> profile == Some(Exact(payloads))
    ensures profile.Some? && profile.value.Directory? ==> forall x :: x in findings <==>
      Deserves(profile.value.entries, payloads, x)
  {
    if profile == Some(Link) {
      findings := [RootSymlink];
    } else if profile.None? {
      findings := [RootMissing];
    } else if !profile.value.Directory? {
      findings := [RootNotDirectory];
    } else {
      findings := TreeFindings(profile.value.entries, payloads);
      NoFindingsMeansExact(profile.value.entries, payloads);
      assert findings == [] <==> forall x :: x !in findings by {
        if findings != [] { assert findings[0] in findings; }
      }
    }
  }

  predicate Verified(s: Snapshot, goal: Goal) {
    s.profile == Some(Exact(goal.payloads)) && s.report == Some(Regular(goal.report)) && goal.pass
  }

  /** verify passes exactly when tree and report are the planned ones and the plan passes. */
  method Verify(s: Snapshot, goal: Goal) returns (findings: seq<Finding>)
    ensures findings == [] <==> Verified(s, goal)
  {
    findings := ExistingFindings(s.profile, goal.payloads);
    if s.report == Some(Link) {
      findings := findings + [ReportSymlink];
    } else if s.report.None? || !s.report.value.Regular? {
      findings := findings + [ReportMissing];
    } else if s.report.value.bytes != goal.report {
      findings := findings + [ReportMismatch];
    }
    if !goal.pass { findings := findings + [PlanFails]; }
  }

  // ------------------------------------------------------------ the steps of a run

  datatype Op =
    | MakeOutput
    | MakeTemp(tmp: string)
    | WriteFile(tmp: string, path: string, bytes: Bytes)
    | ReplaceProfile(tmp: string)
    | WriteDraft(draft: string, bytes: Bytes)
    | ReplaceReport(draft: string)

  /** A path can be written when no file is in the way of its directories and it is no directory itself. */
  predicate Fits(files: map<string, Bytes>, path: string) {
    forall q <- files :: !(V.PathParts(q) < V.PathParts(path)) && !(V.PathParts(path) < V.PathParts(q))
  }

  /** One step; None when the operating system refuses it. */
  function Perform(s: Snapshot, op: Op): Option<Snapshot> {
    match op
    case MakeOutput =>
      if s.output == NotFolder then None else Some(if s.output == Absent then s.(output := Folder) else s)
    case MakeTemp(tmp) => if tmp in s.temps then None else Some(s.(temps := s.temps[tmp := map[]]))
    case WriteFile(tmp, path, bytes) =>
      if tmp in s.temps && Fits(s.temps[tmp], path)
      then Some(s.(temps := s.temps[tmp := s.temps[tmp][path := bytes]])) else None
    case ReplaceProfile(tmp) =>
      if tmp in s.temps && s.profile.None?
      then Some(s.(profile := Some(Exact(s.temps[tmp])), temps := s.temps - {tmp})) else None
    case WriteDraft(draft, bytes) => Some(s.(drafts := s.drafts[draft := bytes]))
    case ReplaceReport(draft) =>
      if draft in s.drafts && s.report.None?
      then Some(s.(report := Some(Regular(s.drafts[draft])), drafts := s.drafts - {draft})) else None
  }

  function Exec(s: Snapshot, ops: seq<Op>): Option<Snapshot> {
    if ops == [] then Some(s)
    else
      var before := Exec(s, ops[..|ops| - 1]);
      if before.None? then None else Perform(before.value, ops[|ops| - 1])
  }

  function Writes(payloads: map<string, Bytes>, tmp: string, order: seq<string>): seq<Op>
    requires forall p <- order :: p in payloads
  {
    seq(|order|, i requires 0 <= i < |order| => assert order[i] in order; WriteFile(tmp, order[i], payloads[order[i]]))
  }

  /** The order the payloads are written in: each of them once. */
  ghost predicate Ordered(goal: Goal, order: seq<string>) {
    forall p :: p in order <==> p in goal.payloads
  }

  function ProfileScript(s: Snapshot, goal: Goal, order: seq<string>, tmp: string): seq<Op>
    requires Ordered(goal, order)
  {
    if s.profile.Some? then []
    else [MakeTemp(tmp)] + Writes(goal.payloads, tmp, order) + [ReplaceProfile(tmp)]
  }

  function ReportScript(s: Snapshot, goal: Goal, draft: string): seq<Op> {
    if s.report.Some? then [] else [WriteDraft(draft, goal.report), ReplaceReport(draft)]
  }

  /** What a run that is not refused does, in order. */
  function Script(s: Snapshot, goal: Goal, order: seq<string>, tmp: string, draft: string): seq<Op>
    requires Ordered(goal, order)
  {
    [MakeOutput] + ProfileScript(s, goal, order, tmp) + ReportScript(s, goal, draft)
  }
}
