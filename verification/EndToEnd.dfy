/** A plan that build_conversion made can be written by materialize. */
module EndToEnd {
  import opened Wrappers
  import opened Evidence
  import opened Verdicts
  import opened Conversion
  import opened Guarantees
  import opened Materialize
  import opened CrashSafety

  /** The tree of a plan has no file where another file needs a directory, so no write of materialize is refused. */
  lemma PlanFits(cx: Case, rows: seq<Row>, plan: Plan, byRoute: map<string, string>)
    requires Converts(cx, rows, plan, byRoute)
    ensures NoFileInTheWay(plan.payloads)
  {
    TreeIsExact(cx, rows, plan, byRoute);
    forall p <- plan.payloads, q <- plan.payloads ensures !(PathParts(p) < PathParts(q)) {
      if p != q {
        var m :| m in plan.report.mappings && m.destination == p;
        var n :| n in plan.report.mappings && n.destination == q;
        TreeHasNoClash(cx, rows, plan, byRoute, m, n);
      }
    }
  }

  /**
    A passing plan, an output without the profile, any number of killed runs: the next complete run is one that verify
    passes.
   */
  lemma PlanReachesDisk(cx: Case, rows: seq<Row>, plan: Plan, byRoute: map<string, string>, report: Bytes,
                        order: seq<string>,
                        s: Snapshot, attempts: seq<Attempt>, end: Snapshot, tmp: string, draft: string)
    requires Converts(cx, rows, plan, byRoute) && plan.report.pass
    requires (s.output == Absent || s.output == Folder) && s.profile.None? && s.report.None?
    requires var goal := Goal(plan.payloads, report, plan.report.pass);
      Ordered(goal, order) && Crashes(s, goal, order, attempts, end) && tmp !in end.temps
    ensures var goal := Goal(plan.payloads, report, plan.report.pass);
      var r := Exec(end, Script(end, goal, order, tmp, draft)); r.Some? && Verified(r.value, goal)
  {
    PlanFits(cx, rows, plan, byRoute);
    AnyCrashesThenComplete(s, Goal(plan.payloads, report, plan.report.pass), order, attempts, end, tmp, draft);
  }
}
