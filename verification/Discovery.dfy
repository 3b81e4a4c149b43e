/** build_conversion's breadth-first walk over @odata.id links from the ServiceRoot fixture. */
module Discovery {
  import opened Wrappers
  import opened JsonModel
  import opened Ordering
  import opened Routes
  import opened Evidence

  /** The canonical routes a payload links to; None when urlsplit raises on one of its links. */
  function LinkedRoutes(w: World, j: Json): Option<set<string>> {
    if exists raw <- OdataIds(j) :: w.canon(raw).Crash? then None
    else Some(set raw | raw in OdataIds(j) && w.canon(raw).Accepted? :: w.canon(raw).route)
  }

  /** The fixture a linked route would have been captured under. */
  function LinkTarget(w: World, names: seq<string>, linked: string): Option<string> {
    Lookup(w, names, w.fold(ForwardFilename(linked)))
  }

  predicate Links(w: World, parsed: map<string, Json>, u: string, linked: string) {
    u in parsed && LinkedRoutes(w, parsed[u]).Some? && linked in LinkedRoutes(w, parsed[u]).value
  }

  ghost predicate Edge(w: World, names: seq<string>, parsed: map<string, Json>, u: string, v: string) {
    exists linked: string :: Links(w, parsed, u, linked) && LinkTarget(w, names, linked) == Some(v)
  }

  ghost predicate LinkPath(w: World, names: seq<string>, parsed: map<string, Json>, roots: seq<string>,
                           path: seq<string>)
  {
    && path != [] && path[0] in roots
    && forall i | 0 <= i < |path| - 1 :: Edge(w, names, parsed, path[i], path[i + 1])
  }

  /** Some chain of links leads from a root fixture to v. */
  ghost predicate Reached(w: World, names: seq<string>, parsed: map<string, Json>, roots: seq<string>, v: string) {
    exists path: seq<string> :: LinkPath(w, names, parsed, roots, path) && path[|path| - 1] == v
  }

  lemma RootReached(w: World, names: seq<string>, parsed: map<string, Json>, roots: seq<string>, v: string)
    requires v in roots
    ensures Reached(w, names, parsed, roots, v)
  {
    assert LinkPath(w, names, parsed, roots, [v]);
  }

  lemma LinkReached(w: World, names: seq<string>, parsed: map<string, Json>, roots: seq<string>, u: string,
                    linked: string, v: string)
    requires Reached(w, names, parsed, roots, u) && Links(w, parsed, u, linked)
    requires LinkTarget(w, names, linked) == Some(v)
    ensures Reached(w, names, parsed, roots, v)
  {
    var path :| LinkPath(w, names, parsed, roots, path) && path[|path| - 1] == u;
    var longer := path + [v];
    assert Edge(w, names, parsed, u, v);
    forall i | 0 <= i < |longer| - 1 ensures Edge(w, names, parsed, longer[i], longer[i + 1]) {
      if i < |path| - 1 { assert Edge(w, names, parsed, path[i], path[i + 1]); }
    }
    assert LinkPath(w, names, parsed, roots, longer) && longer[|longer| - 1] == v;
  }

  /** A link of u has taken effect: the linked route, canonicalized once more, claims the target. */
  predicate LinkApplied(w: World, names: seq<string>, t: Tables, linked: string) {
    var target := LinkTarget(w, names, linked);
    target.Some? ==> match w.canon(linked)
      case Accepted(route) => Candidate(route, Discovered) in ClaimsOf(t, target.value).candidates
      case Rejected(reason, d) => Issue(Discovered, linked, reason, d) in ClaimsOf(t, target.value).issues
      case Crash => false
  }

  /** Some link of u makes urlsplit raise. */
  predicate Jams(w: World, parsed: map<string, Json>, u: string) {
    u in parsed && LinkedRoutes(w, parsed[u]).None?
  }

  lemma LinkedNeverCrash(w: World, parsed: map<string, Json>, u: string, linked: string)
    requires Sound(w) && Links(w, parsed, u, linked)
    ensures !w.canon(linked).Crash?
  {
  }

  predicate Explains(w: World, names: seq<string>, parsed: map<string, Json>, u: string, linked: string, f: string,
                     v: Verdict)
  {
    Links(w, parsed, u, linked) && LinkTarget(w, names, linked) == Some(f) && w.canon(linked) == v
  }

  /** Every discovered claim goes back to a link of an expanded fixture. */
  ghost predicate FromLinks(w: World, names: seq<string>, t: Tables, expanded: set<string>) {
    forall f: string, v: Verdict | Claimed(t, f, Discovered, v) ::
      exists u: string, linked: string :: u in expanded && Explains(w, names, t.parsed, u, linked, f, v)
  }

  lemma StillApplied(w: World, names: seq<string>, t: Tables, t': Tables, linked: string)
    requires Grew(t, t', {Discovered}) && LinkApplied(w, names, t, linked)
    ensures LinkApplied(w, names, t', linked)
  {
    var target := LinkTarget(w, names, linked);
    if target.Some? { assert AddedFrom(ClaimsOf(t, target.value), ClaimsOf(t', target.value), {Discovered}); }
  }

  lemma AddFromLink(w: World, names: seq<string>, t: Tables, t': Tables, expanded: set<string>, u: string,
                    linked: string)
    requires LinkTarget(w, names, linked).Some? && Links(w, t.parsed, u, linked) && u in expanded
    requires AddCandidate(w, t, LinkTarget(w, names, linked).value, Discovered, linked) == Some(t')
    requires FromLinks(w, names, t, expanded)
    ensures FromLinks(w, names, t', expanded) && LinkApplied(w, names, t', linked)
  {
    var f := LinkTarget(w, names, linked).value;
    forall g: string, v: Verdict | Claimed(t', g, Discovered, v)
      ensures exists x: string, l: string :: x in expanded && Explains(w, names, t'.parsed, x, l, g, v)
    {
      ClaimedBefore(w, t, t', f, Discovered, linked, g, Discovered, v);
      if Claimed(t, g, Discovered, v) {
        var x: string, l: string :| x in expanded && Explains(w, names, t.parsed, x, l, g, v);
        assert Explains(w, names, t'.parsed, x, l, g, v);
      } else {
        assert Explains(w, names, t'.parsed, u, linked, g, v);
      }
    }
  }

  /** One link: its route, canonicalized once more, claims the fixture it would have been captured under. */
  method ApplyLink(w: World, names: seq<string>, t: Tables, u: string, linked: string, ghost expanded: set<string>)
    returns (t': Tables)
    requires Sound(w) && RoutesWellFormed(t) && u in expanded && Links(w, t.parsed, u, linked)
    requires FromLinks(w, names, t, expanded)
    ensures Grew(t, t', {Discovered}) && RoutesWellFormed(t') && FromLinks(w, names, t', expanded)
    ensures LinkApplied(w, names, t', linked)
  {
    var target := LinkTarget(w, names, linked);
    LinkedNeverCrash(w, t.parsed, u, linked);
    if target.None? {
      GrewNot(t, {Discovered});
      return t;
    }
    t' := AddCandidate(w, t, target.value, Discovered, linked).value;
    AddGrows(w, t, target.value, Discovered, linked);
    AddFromLink(w, names, t, t', expanded, u, linked);
  }

  /** The target of a link, if there is one, is visited or queued. */
  predicate Awaited(w: World, names: seq<string>, linked: string, visited: set<string>, queue: seq<string>) {
    var target := LinkTarget(w, names, linked);
    target.Some? ==> target.value in visited || target.value in queue
  }

  ghost predicate Targeted(w: World, names: seq<string>, linked: seq<string>, v: string) {
    exists l <- linked :: LinkTarget(w, names, l) == Some(v)
  }

  /** The queue after a link. */
  function Enqueue(w: World, names: seq<string>, linked: string, visited: set<string>,
                   queue: seq<string>): (r: seq<string>)
    ensures queue <= r && Awaited(w, names, linked, visited, r)
    ensures forall v <- r :: v in queue || LinkTarget(w, names, linked) == Some(v)
  {
    var target := LinkTarget(w, names, linked);
    if target.Some? && target.value !in visited then queue + [target.value] else queue
  }

  /** What following these links appends to the queue. */
  function Targets(w: World, names: seq<string>, linked: seq<string>, visited: set<string>): seq<string> {
    if linked == [] then []
    else Enqueue(w, names, linked[|linked| - 1], visited, Targets(w, names, linked[..|linked| - 1], visited))
  }

  lemma TargetsNext(w: World, names: seq<string>, linked: seq<string>, i: nat, visited: set<string>,
                    queue0: seq<string>)
    requires i < |linked|
    ensures queue0 + Targets(w, names, linked[..i + 1], visited) ==
      Enqueue(w, names, linked[i], visited, queue0 + Targets(w, names, linked[..i], visited))
  {
    assert linked[..i + 1][..i] == linked[..i];
  }

  lemma {:induction false} TargetsFacts(w: World, names: seq<string>, linked: seq<string>, visited: set<string>)
    ensures forall l <- linked :: Awaited(w, names, l, visited, Targets(w, names, linked, visited))
    ensures forall v <- Targets(w, names, linked, visited) :: Targeted(w, names, linked, v)
  {
    if linked != [] {
      var n := |linked| - 1;
      assert linked == linked[..n] + [linked[n]];
      TargetsFacts(w, names, linked[..n], visited);
      forall v <- Targets(w, names, linked, visited) ensures Targeted(w, names, linked, v) {
        if v in Targets(w, names, linked[..n], visited) {
          var l :| l in linked[..n] && LinkTarget(w, names, l) == Some(v);
          assert l in linked;
        } else {
          assert linked[n] in linked;
        }
      }
    }
  }

  /** The first n links have been applied to t0. */
  ghost predicate Following(w: World, names: seq<string>, t0: Tables, t: Tables, linked: seq<string>, n: nat,
                            expanded: set<string>)
    requires n <= |linked|
  {
    && Grew(t0, t, {Discovered}) && RoutesWellFormed(t) && FromLinks(w, names, t, expanded)
    && forall j | 0 <= j < n :: LinkApplied(w, names, t, linked[j])
  }

  method NextLink(w: World, names: seq<string>, ghost t0: Tables, t: Tables, u: string, linked: seq<string>, i: nat,
                  ghost expanded: set<string>)
    returns (t': Tables)
    requires Sound(w) && i < |linked| && Following(w, names, t0, t, linked, i, expanded)
    requires u in expanded && Links(w, t0.parsed, u, linked[i])
    ensures Following(w, names, t0, t', linked, i + 1, expanded)
  {
    t' := ApplyLink(w, names, t, u, linked[i], expanded);
    GrewTrans(t0, t, t', {Discovered});
    forall j | 0 <= j < i ensures LinkApplied(w, names, t', linked[j]) {
      StillApplied(w, names, t, t', linked[j]);
    }
  }

  /** The inner loop: follow the sorted links of one fixture. */
  method FollowLinks(w: World, names: seq<string>, t0: Tables, u: string, linked: seq<string>, visited: set<string>,
                     queue0: seq<string>, ghost expanded: set<string>)
    returns (t: Tables, queue: seq<string>)
    requires Sound(w) && RoutesWellFormed(t0) && u in expanded
    requires forall l <- linked :: Links(w, t0.parsed, u, l)
    requires FromLinks(w, names, t0, expanded)
    ensures Grew(t0, t, {Discovered}) && RoutesWellFormed(t) && FromLinks(w, names, t, expanded)
    ensures forall l <- linked :: LinkApplied(w, names, t, l)
    ensures queue == queue0 + Targets(w, names, linked, visited)
  {
    t := t0;
    queue := queue0;
    GrewNot(t0, {Discovered});
    for i := 0 to |linked|
      invariant Following(w, names, t0, t, linked, i, expanded)
      invariant queue == queue0 + Targets(w, names, linked[..i], visited)
    {
      t := NextLink(w, names, t0, t, u, linked, i, expanded);
      TargetsNext(w, names, linked, i, visited, queue0);
      queue := Enqueue(w, names, linked[i], visited, queue);
    }
    assert linked[..|linked|] == linked;
  }

  /** What expanding f appends to the queue. */
  function Pushed(w: World, names: seq<string>, parsed: map<string, Json>, f: string,
                  visited: set<string>): seq<string>
  {
    if f in parsed && LinkedRoutes(w, parsed[f]).Some?
    then Targets(w, names, Sorted(LinkedRoutes(w, parsed[f]).value), visited) else []
  }

  /** A fixture's links are all applied, and their targets are visited, unparsed or still queued. */
  ghost predicate Followed(w: World, names: seq<string>, t: Tables, u: string, visited: set<string>,
                           queue: seq<string>)
  {
    && u in t.parsed && LinkedRoutes(w, t.parsed[u]).Some?
    && forall linked <- LinkedRoutes(w, t.parsed[u]).value ::
         && LinkApplied(w, names, t, linked)
         && (LinkTarget(w, names, linked).Some? ==>
               LinkTarget(w, names, linked).value in visited + (set q | q in queue)
               || LinkTarget(w, names, linked).value !in t.parsed)
  }

  lemma StillFollowed(w: World, names: seq<string>, t: Tables, t': Tables, u: string, visited: set<string>,
                      queue: seq<string>,
                      visited': set<string>, queue': seq<string>)
    requires Grew(t, t', {Discovered}) && Followed(w, names, t, u, visited, queue)
    requires forall v | v in visited || v in queue :: v in visited' || v in queue' || v !in t.parsed
    ensures Followed(w, names, t', u, visited', queue')
  {
    forall linked <- LinkedRoutes(w, t.parsed[u]).value ensures LinkApplied(w, names, t', linked) {
      StillApplied(w, names, t, t', linked);
    }
  }

  /** Where the walk stands between turns. */
  ghost predicate Walk(w: World, names: seq<string>, t0: Tables, roots: seq<string>,
                       t: Tables, visited: set<string>, queue: seq<string>, expanded: seq<string>)
  {
    && Grew(t0, t, {Discovered}) && RoutesWellFormed(t)
    && visited <= t0.parsed.Keys
    && (forall v | v in visited || v in queue :: Reached(w, names, t0.parsed, roots, v))
    && (forall u <- expanded :: u in visited)
    && (forall i, j | 0 <= i < j < |expanded| :: expanded[i] != expanded[j])
    && FromLinks(w, names, t, Elements(expanded))
    && (forall u <- expanded :: Followed(w, names, t, u, visited, queue))
    && (forall v <- roots :: v in visited || v in queue || v !in t0.parsed)
  }

  // ------------------------------------------------------------ the log of the walk

  /** A fixture the walk visited, and the claims at that moment. */
  datatype Visit = Visit(fixture: string, at: Tables)

  predicate Agreed(v: Visit) { |RoutesOf(v.at, v.fixture)| == 1 }

  function Visited(log: seq<Visit>): set<string> { set v | v in log :: v.fixture }

  /** The visited fixtures that had exactly one candidate route at their visit, in order. */
  function Expanded(log: seq<Visit>): seq<string> {
    if log == [] then []
    else Expanded(log[..|log| - 1]) + if Agreed(log[|log| - 1]) then [log[|log| - 1].fixture] else []
  }

  /** All links of u have taken effect. */
  ghost predicate AllApplied(w: World, names: seq<string>, t: Tables, u: string) {
    && u in t.parsed && LinkedRoutes(w, t.parsed[u]).Some?
    && forall linked <- LinkedRoutes(w, t.parsed[u]).value :: LinkApplied(w, names, t, linked)
  }

  /** f is a root, or one of these fixtures links to it. */
  ghost predicate Summoned(w: World, names: seq<string>, parsed: map<string, Json>, roots: seq<string>,
                           from: seq<string>, f: string)
  {
    f in roots || exists u <- from :: Edge(w, names, parsed, u, f)
  }

  /** Everything that was ever queued, in order: the roots, then what each expansion appends. */
  function Stream(w: World, names: seq<string>, parsed: map<string, Json>, roots: seq<string>,
                  log: seq<Visit>): seq<string>
  {
    if log == [] then roots
    else
      var v := log[|log| - 1];
      Stream(w, names, parsed, roots, log[..|log| - 1])
      + if Agreed(v) then Pushed(w, names, parsed, v.fixture, Visited(log)) else []
  }

  /** The first fixture queued that is parsed and not visited. */
  function NextUp(s: seq<string>, parsed: map<string, Json>, visited: set<string>): Option<string> {
    if s == [] then None
    else if s[0] in parsed && s[0] !in visited then Some(s[0])
    else NextUp(s[1..], parsed, visited)
  }

  /**
    Visit i: the first parsed fixture queued that was not visited before, breadth first; it is called for by a root
    or by a link of a fixture expanded before it;
    the claims at that moment are the initial ones and exactly what the links of those fixtures add.
   */
  ghost predicate VisitOk(w: World, names: seq<string>, t0: Tables, roots: seq<string>, log: seq<Visit>, i: nat)
    requires i < |log|
  {
    var before := Expanded(log[..i]);
    && log[i].fixture in t0.parsed && log[i].fixture !in Visited(log[..i])
    && Grew(t0, log[i].at, {Discovered}) && FromLinks(w, names, log[i].at, Elements(before))
    && (forall u <- before :: AllApplied(w, names, log[i].at, u))
    && Summoned(w, names, t0.parsed, roots, before, log[i].fixture)
    && NextUp(Stream(w, names, t0.parsed, roots, log[..i]), t0.parsed, Visited(log[..i])) == Some(log[i].fixture)
  }

  ghost predicate History(w: World, names: seq<string>, t0: Tables, roots: seq<string>, log: seq<Visit>) {
    forall i | 0 <= i < |log| :: VisitOk(w, names, t0, roots, log, i)
  }

  /** The log so far, with what is queued called for in the same way. */
  ghost predicate Logged(w: World, names: seq<string>, t0: Tables, roots: seq<string>,
                         t: Tables, visited: set<string>, queue: seq<string>, expanded: seq<string>, log: seq<Visit>)
  {
    && History(w, names, t0, roots, log) && visited == Visited(log) && expanded == Expanded(log)
    && (forall v <- log :: Grew(v.at, t, {Discovered}))
    && forall q <- queue :: Summoned(w, names, t0.parsed, roots, expanded, q)
  }

  // ------------------------------------------------------------ breadth first

  /** The queue is what is left of the stream, and what was taken off it is visited or not parsed. */
  ghost predicate Queued(w: World, names: seq<string>, parsed: map<string, Json>, roots: seq<string>, log: seq<Visit>,
                         taken: nat, queue: seq<string>)
  {
    var stream := Stream(w, names, parsed, roots, log);
    && taken <= |stream| && queue == stream[taken..]
    && forall i | 0 <= i < taken :: stream[i] in Visited(log) || stream[i] !in parsed
  }

  lemma {:induction false} NextUpAfter(s: seq<string>, parsed: map<string, Json>, visited: set<string>, n: nat)
    requires n <= |s| && forall i | 0 <= i < n :: s[i] in visited || s[i] !in parsed
    ensures NextUp(s, parsed, visited) == NextUp(s[n..], parsed, visited)
  {
    if n > 0 {
      NextUpAfter(s[1..], parsed, visited, n - 1);
      assert s[1..][n - 1..] == s[n..];
    }
  }

  lemma QueueSkips(w: World, names: seq<string>, parsed: map<string, Json>, roots: seq<string>, log: seq<Visit>,
                   taken: nat, queue: seq<string>)
    requires Queued(w, names, parsed, roots, log, taken, queue) && queue != []
    requires queue[0] in Visited(log) || queue[0] !in parsed
    ensures Queued(w, names, parsed, roots, log, taken + 1, queue[1..])
  {
  }

  /** The head of the queue, if it is new, is the next fixture to visit. */
  lemma QueueHead(w: World, names: seq<string>, parsed: map<string, Json>, roots: seq<string>, log: seq<Visit>,
                  taken: nat, queue: seq<string>)
    requires Queued(w, names, parsed, roots, log, taken, queue)
    ensures queue == [] ==> NextUp(Stream(w, names, parsed, roots, log), parsed, Visited(log)) == None
    ensures queue != [] && queue[0] in parsed && queue[0] !in Visited(log) ==>
      NextUp(Stream(w, names, parsed, roots, log), parsed, Visited(log)) == Some(queue[0])
  {
    NextUpAfter(Stream(w, names, parsed, roots, log), parsed, Visited(log), taken);
  }

  lemma StreamNext(w: World, names: seq<string>, parsed: map<string, Json>, roots: seq<string>, log: seq<Visit>,
                   v: Visit)
    ensures Stream(w, names, parsed, roots, log + [v]) == Stream(w, names, parsed, roots, log)
      + (if Agreed(v) then Pushed(w, names, parsed, v.fixture, Visited(log + [v])) else [])
  {
    assert (log + [v])[..|log|] == log;
  }

  lemma QueueVisits(w: World, names: seq<string>, parsed: map<string, Json>, roots: seq<string>, log: seq<Visit>,
                    taken: nat, queue: seq<string>, v: Visit, pushed: seq<string>)
    requires Queued(w, names, parsed, roots, log, taken, queue) && queue != [] && v.fixture == queue[0]
    requires pushed == if Agreed(v) then Pushed(w, names, parsed, v.fixture, Visited(log) + {v.fixture}) else []
    ensures Queued(w, names, parsed, roots, log + [v], taken + 1, queue[1..] + pushed)
  {
    var stream := Stream(w, names, parsed, roots, log);
    ExpandedNext(log, v);
    StreamNext(w, names, parsed, roots, log, v);
    Appended(stream, pushed, taken + 1);
    assert stream[taken..][1..] == stream[taken + 1..];
  }

  lemma Appended(s: seq<string>, more: seq<string>, n: nat)
    requires n <= |s|
    ensures (s + more)[..n] == s[..n] && (s + more)[n..] == s[n..] + more
  {
  }

  /** A fixture that was to be expanded has a link that makes urlsplit raise. */
  predicate Jammed(w: World, parsed: map<string, Json>, log: seq<Visit>) {
    exists v <- log :: Agreed(v) && Jams(w, parsed, v.fixture)
  }

  lemma ExpandedNext(log: seq<Visit>, v: Visit)
    ensures Expanded(log + [v]) == Expanded(log) + if Agreed(v) then [v.fixture] else []
    ensures Visited(log + [v]) == Visited(log) + {v.fixture}
  {
    assert (log + [v])[..|log|] == log;
  }

  lemma {:induction false} ExpandedHas(log: seq<Visit>, v: Visit)
    requires v in log && Agreed(v)
    ensures v.fixture in Expanded(log)
  {
    var n := |log| - 1;
    if log[n] != v {
      assert log == log[..n] + [log[n]];
      ExpandedHas(log[..n], v);
    }
  }

  /** Writing the next visit into the log. */
  lemma LogVisit(w: World, names: seq<string>, t0: Tables, roots: seq<string>, log: seq<Visit>, v: Visit)
    requires History(w, names, t0, roots, log) && v.fixture in t0.parsed && v.fixture !in Visited(log)
    requires Grew(t0, v.at, {Discovered}) && FromLinks(w, names, v.at, Elements(Expanded(log)))
    requires forall u <- Expanded(log) :: AllApplied(w, names, v.at, u)
    requires Summoned(w, names, t0.parsed, roots, Expanded(log), v.fixture)
    requires NextUp(Stream(w, names, t0.parsed, roots, log), t0.parsed, Visited(log)) == Some(v.fixture)
    ensures History(w, names, t0, roots, log + [v])
  {
    var more := log + [v];
    forall i | 0 <= i < |more| ensures VisitOk(w, names, t0, roots, more, i) {
      if i < |log| {
        assert more[..i] == log[..i];
        assert VisitOk(w, names, t0, roots, log, i);
      } else {
        assert more[..i] == log;
      }
    }
  }

  lemma WalkStarts(w: World, names: seq<string>, t0: Tables, roots: seq<string>)
    requires RoutesWellFormed(t0) && NoneFrom(t0, Discovered)
    ensures Walk(w, names, t0, roots, t0, {}, roots, [])
  {
    forall v <- roots ensures Reached(w, names, t0.parsed, roots, v) { RootReached(w, names, t0.parsed, roots, v); }
  }

  /** Taking the head off the queue, visited if it is a new parsed fixture. */
  lemma WalkTakes(w: World, names: seq<string>, t0: Tables, roots: seq<string>,
                  t: Tables, visited: set<string>, queue: seq<string>, expanded: seq<string>, visited': set<string>)
    requires Walk(w, names, t0, roots, t, visited, queue, expanded) && queue != []
    requires visited' == if queue[0] in t.parsed then visited + {queue[0]} else visited
    ensures Walk(w, names, t0, roots, t, visited', queue[1..], expanded)
  {
    assert queue == [queue[0]] + queue[1..];
    forall u <- expanded ensures Followed(w, names, t, u, visited', queue[1..]) {
      StillFollowed(w, names, t, t, u, visited, queue, visited', queue[1..]);
    }
  }

  lemma WalkSkips(w: World, names: seq<string>, t0: Tables, roots: seq<string>,
                  t: Tables, visited: set<string>, queue: seq<string>, expanded: seq<string>)
    requires Walk(w, names, t0, roots, t, visited, queue, expanded) && queue != []
    requires (queue[0] in visited || queue[0] !in t.parsed)
    ensures Walk(w, names, t0, roots, t, visited, queue[1..], expanded)
  {
    assert queue[0] in visited ==> visited + {queue[0]} == visited;
    WalkTakes(w, names, t0, roots, t, visited, queue, expanded, visited);
  }

  lemma WalkVisits(w: World, names: seq<string>, t0: Tables, roots: seq<string>,
                   t: Tables, visited: set<string>, queue: seq<string>, expanded: seq<string>)
    requires Walk(w, names, t0, roots, t, visited, queue, expanded) && queue != [] && queue[0] !in visited
    requires queue[0] in t.parsed
    ensures Walk(w, names, t0, roots, t, visited + {queue[0]}, queue[1..], expanded)
    ensures queue[0] !in expanded && queue[0] in t0.parsed.Keys
  {
    WalkTakes(w, names, t0, roots, t, visited, queue, expanded, visited + {queue[0]});
  }

  lemma WalkExpands(w: World, names: seq<string>, t0: Tables, roots: seq<string>,
                    t: Tables, visited: set<string>, queue: seq<string>, expanded: seq<string>,
                    f: string, t': Tables, queue': seq<string>)
    requires Walk(w, names, t0, roots, t, visited, queue, expanded) && f in visited && f !in expanded
    requires Grew(t, t', {Discovered}) && RoutesWellFormed(t') && queue <= queue'
    requires FromLinks(w, names, t', Elements(expanded + [f]))
    requires Followed(w, names, t', f, visited, queue')
    requires forall v <- queue' :: v in queue || Edge(w, names, t.parsed, f, v)
    ensures Walk(w, names, t0, roots, t', visited, queue', expanded + [f])
  {
    GrewTrans(t0, t, t', {Discovered});
    forall v <- queue' ensures Reached(w, names, t0.parsed, roots, v) {
      if v !in queue {
        var l: string :| Links(w, t0.parsed, f, l) && LinkTarget(w, names, l) == Some(v);
        LinkReached(w, names, t0.parsed, roots, f, l, v);
      }
    }
    forall u <- expanded ensures Followed(w, names, t', u, visited, queue') {
      StillFollowed(w, names, t, t', u, visited, queue, visited, queue');
    }
  }

  lemma FollowedNow(w: World, names: seq<string>, t: Tables, f: string, order: seq<string>, visited: set<string>,
                    queue: seq<string>, queue': seq<string>)
    requires f in t.parsed && LinkedRoutes(w, t.parsed[f]).Some?
    requires forall l :: l in order <==> l in LinkedRoutes(w, t.parsed[f]).value
    requires forall l <- order :: LinkApplied(w, names, t, l)
    requires queue' == queue + Targets(w, names, order, visited)
    ensures Followed(w, names, t, f, visited, queue')
  {
    TargetsFacts(w, names, order, visited);
    forall linked <- LinkedRoutes(w, t.parsed[f]).value
      ensures LinkApplied(w, names, t, linked) && Awaited(w, names, linked, visited, queue')
    {
      assert Awaited(w, names, linked, visited, Targets(w, names, order, visited));
    }
  }

  /** Expanding one visited fixture; None when one of its links makes urlsplit raise. */
  method Expand(w: World, names: seq<string>, ghost t0: Tables, ghost roots: seq<string>,
                t: Tables, visited: set<string>, queue: seq<string>, ghost expanded: seq<string>, f: string)
    returns (r: Option<Tables>, queue': seq<string>)
    requires Sound(w) && Walk(w, names, t0, roots, t, visited, queue, expanded)
    requires f in visited && f !in expanded && f in t.parsed
    ensures r.None? <==> Jams(w, t0.parsed, f)
    ensures r.Some? ==>
      Walk(w, names, t0, roots, r.value, visited, queue', expanded + [f]) && Grew(t, r.value, {Discovered})
    ensures forall v <- queue' :: v in queue || Edge(w, names, t0.parsed, f, v)
    ensures queue' == queue + Pushed(w, names, t0.parsed, f, visited)
  {
    queue' := queue;
    var linked := LinkedRoutes(w, t.parsed[f]);
    if linked.None? { return None, queue'; }
    ExpandedMore(w, names, t, Elements(expanded), Elements(expanded + [f]));
    var t';
    var order := Sorted(linked.value);
    t', queue' := FollowLinks(w, names, t, f, order, visited, queue, Elements(expanded + [f]));
    TargetsFacts(w, names, order, visited);
    forall v | v in queue' && v !in queue ensures Edge(w, names, t.parsed, f, v) {
      var l :| l in order && LinkTarget(w, names, l) == Some(v);
      assert Links(w, t.parsed, f, l);
    }
    FollowedNow(w, names, t', f, order, visited, queue, queue');
    WalkExpands(w, names, t0, roots, t, visited, queue, expanded, f, t', queue');
    r := Some(t');
  }

  lemma VisitShrinks(keys: set<string>, visited: set<string>, f: string)
    requires f in keys && f !in visited
    ensures |keys - (visited + {f})| < |keys - visited|
  {
    assert keys - (visited + {f}) == (keys - visited) - {f};
  }

  /** What the walk knows when it visits f is what the log asks for. */
  lemma LogTaken(w: World, names: seq<string>, t0: Tables, roots: seq<string>,
                 t: Tables, visited: set<string>, queue: seq<string>, expanded: seq<string>, log: seq<Visit>, f: string)
    requires Walk(w, names, t0, roots, t, visited + {f}, queue, expanded)
    requires Logged(w, names, t0, roots, t, visited, queue, expanded, log)
    requires f in t0.parsed && f !in visited && Summoned(w, names, t0.parsed, roots, expanded, f)
    requires NextUp(Stream(w, names, t0.parsed, roots, log), t0.parsed, visited) == Some(f)
    ensures History(w, names, t0, roots, log + [Visit(f, t)])
  {
    forall u <- expanded ensures AllApplied(w, names, t, u) {
      assert Followed(w, names, t, u, visited + {f}, queue);
    }
    LogVisit(w, names, t0, roots, log, Visit(f, t));
  }

  lemma SummonedMore(w: World, names: seq<string>, parsed: map<string, Json>, roots: seq<string>, from: seq<string>,
                     more: seq<string>, f: string)
    requires Summoned(w, names, parsed, roots, from, f)
    ensures Summoned(w, names, parsed, roots, from + more, f)
  {
    if f !in roots {
      var u :| u in from && Edge(w, names, parsed, u, f);
      assert u in from + more;
    }
  }

  /** The log after the visit of f. */
  lemma LogGoesOn(w: World, names: seq<string>, t0: Tables, roots: seq<string>, t: Tables, visited: set<string>,
                  queue: seq<string>,
                  expanded: seq<string>, log: seq<Visit>, f: string, t': Tables, queue': seq<string>,
                  expanded': seq<string>)
    requires Logged(w, names, t0, roots, t, visited, queue, expanded, log)
    requires History(w, names, t0, roots, log + [Visit(f, t)])
    requires Grew(t, t', {Discovered}) && expanded' == Expanded(log + [Visit(f, t)])
    requires forall v <- queue' :: v in queue || (f in expanded' && Edge(w, names, t0.parsed, f, v))
    ensures Logged(w, names, t0, roots, t', visited + {f}, queue', expanded', log + [Visit(f, t)])
  {
    ExpandedNext(log, Visit(f, t));
    forall v <- log + [Visit(f, t)] ensures Grew(v.at, t', {Discovered}) {
      if v in log { GrewTrans(v.at, t, t', {Discovered}); }
    }
    forall q <- queue' ensures Summoned(w, names, t0.parsed, roots, expanded', q) {
      if q in queue {
        SummonedMore(w, names, t0.parsed, roots, expanded, if Agreed(Visit(f, t)) then [f] else [], q);
        assert expanded' == expanded + if Agreed(Visit(f, t)) then [f] else [];
      }
    }
  }

  /** Visiting a new parsed fixture: it is expanded if its candidates agree on one route. */
  method VisitNew(w: World, names: seq<string>, ghost t0: Tables, ghost roots: seq<string>,
                  t: Tables, visited: set<string>, queue: seq<string>, ghost expanded: seq<string>,
                  log: seq<Visit>, f: string)
    returns (r: Option<Tables>, queue': seq<string>, ghost expanded': seq<string>, log': seq<Visit>)
    requires Sound(w) && Walk(w, names, t0, roots, t, visited + {f}, queue, expanded)
    requires Logged(w, names, t0, roots, t, visited, queue, expanded, log)
    requires f in t.parsed && f in t0.parsed && f !in visited && f !in expanded
    requires Summoned(w, names, t0.parsed, roots, expanded, f)
    requires NextUp(Stream(w, names, t0.parsed, roots, log), t0.parsed, visited) == Some(f)
    ensures log' == log + [Visit(f, t)] && History(w, names, t0, roots, log')
    ensures queue' == queue + if Agreed(Visit(f, t)) then Pushed(w, names, t0.parsed, f, visited + {f}) else []
    ensures r.None? ==> Jammed(w, t0.parsed, log')
    ensures r.Some? ==> Walk(w, names, t0, roots, r.value, visited + {f}, queue', expanded')
    ensures r.Some? ==> Logged(w, names, t0, roots, r.value, visited + {f}, queue', expanded', log')
  {
    r, queue', expanded', log' := Some(t), queue, expanded, log + [Visit(f, t)];
    LogTaken(w, names, t0, roots, t, visited, queue, expanded, log, f);
    ExpandedNext(log, Visit(f, t));
    if |RoutesOf(t, f)| == 1 {
      r, queue' := Expand(w, names, t0, roots, t, visited + {f}, queue, expanded, f);
      expanded' := expanded + [f];
    } else {
      GrewNot(t, {Discovered});
    }
    if r.Some? {
      LogGoesOn(w, names, t0, roots, t, visited, queue, expanded, log, f, r.value, queue', expanded');
    } else {
      assert Visit(f, t) in log';
    }
  }

  /** One turn of the walk: take the head of the queue; visit it if new. */
  method Turn(w: World, names: seq<string>, ghost t0: Tables, ghost roots: seq<string>, t: Tables,
              visited: set<string>, queue: seq<string>, ghost expanded: seq<string>, log: seq<Visit>, ghost taken: nat)
    returns (r: Option<Tables>, visited': set<string>, queue': seq<string>, ghost expanded': seq<string>,
             log': seq<Visit>)
    requires Sound(w) && Walk(w, names, t0, roots, t, visited, queue, expanded) && queue != []
    requires Logged(w, names, t0, roots, t, visited, queue, expanded, log)
    requires Queued(w, names, t0.parsed, roots, log, taken, queue)
    ensures History(w, names, t0, roots, log') && (r.None? ==> Jammed(w, t0.parsed, log'))
    ensures log' == log || (log' != [] && Front(log') == log)
    ensures Queued(w, names, t0.parsed, roots, log', taken + 1, queue')
    ensures r.Some? ==> Walk(w, names, t0, roots, r.value, visited', queue', expanded')
    ensures r.Some? ==> Logged(w, names, t0, roots, r.value, visited', queue', expanded', log')
    ensures |t0.parsed.Keys - visited'| < |t0.parsed.Keys - visited| || (visited' == visited && |queue'| < |queue|)
  {
    var f := queue[0];
    assert queue == [f] + queue[1..];
    if f in visited || f !in t.parsed {
      WalkSkips(w, names, t0, roots, t, visited, queue, expanded);
      QueueSkips(w, names, t0.parsed, roots, log, taken, queue);
      r, visited', queue', expanded', log' := Some(t), visited, queue[1..], expanded, log;
    } else {
      WalkVisits(w, names, t0, roots, t, visited, queue, expanded);
      VisitShrinks(t0.parsed.Keys, visited, f);
      QueueHead(w, names, t0.parsed, roots, log, taken, queue);
      visited' := visited + {f};
      r, queue', expanded', log' := VisitNew(w, names, t0, roots, t, visited, queue[1..], expanded, log, f);
      QueueVisits(w, names, t0.parsed, roots, log, taken, queue, Visit(f, t), queue'[|queue| - 1..]);
    }
  }

  lemma NotJammed(w: World, names: seq<string>, t0: Tables, roots: seq<string>, t: Tables, visited: set<string>,
                  queue: seq<string>, log: seq<Visit>)
    requires Walk(w, names, t0, roots, t, visited, queue, Expanded(log))
    ensures !Jammed(w, t0.parsed, log)
  {
    forall v <- log | Agreed(v) ensures !Jams(w, t0.parsed, v.fixture) {
      ExpandedHas(log, v);
      assert Followed(w, names, t, v.fixture, visited, queue);
    }
  }

  function Front(log: seq<Visit>): seq<Visit> { if log == [] then [] else log[..|log| - 1] }

  /** The walk stops at the first fixture to be expanded that jams, or when nothing is left to visit. */
  ghost predicate Stops(w: World, names: seq<string>, parsed: map<string, Json>, roots: seq<string>, log: seq<Visit>) {
    && !Jammed(w, parsed, Front(log))
    && (Jammed(w, parsed, log) || NextUp(Stream(w, names, parsed, roots, log), parsed, Visited(log)) == None)
  }

  /**
    The walk, and log its visits.  It ends because each turn either visits a new parsed fixture or shortens the queue.
    It visits no fixture twice, in breadth-first order, each called for by a root or by a link of an expanded fixture;
    expands exactly those with one candidate route at their visit; claims only what links of expanded fixtures say,
    and all of that.  It raises iff a fixture to be expanded has a link on which urlsplit raises.
   */
  method Discover(w: World, names: seq<string>, t0: Tables, roots: seq<string>)
    returns (r: Option<Tables>, visited: set<string>, log: seq<Visit>)
    requires Sound(w) && RoutesWellFormed(t0) && NoneFrom(t0, Discovered)
    ensures History(w, names, t0, roots, log) && Stops(w, names, t0.parsed, roots, log)
    ensures r.None? <==> Jammed(w, t0.parsed, log)
    ensures r.Some? ==> visited == Visited(log) && Walk(w, names, t0, roots, r.value, visited, [], Expanded(log))
    ensures r.Some? ==> forall v <- log :: Grew(v.at, r.value, {Discovered})
  {
    var queue := roots;
    ghost var expanded: seq<string>, taken: nat := [], 0;
    r, visited, log := Some(t0), {}, [];
    WalkStarts(w, names, t0, roots);
    LogStarts(w, names, t0, roots);
    while r.Some? && queue != []
      invariant History(w, names, t0, roots, log) && !Jammed(w, t0.parsed, Front(log))
      invariant r.None? ==> Jammed(w, t0.parsed, log)
      invariant Queued(w, names, t0.parsed, roots, log, taken, queue)
      invariant r.Some? ==> Walk(w, names, t0, roots, r.value, visited, queue, expanded)
      invariant r.Some? ==> Logged(w, names, t0, roots, r.value, visited, queue, expanded, log)
      decreases |t0.parsed.Keys - visited|, |queue|
    {
      NotJammed(w, names, t0, roots, r.value, visited, queue, log);
      ghost var before := log;
      r, visited, queue, expanded, log := Turn(w, names, t0, roots, r.value, visited, queue, expanded, log, taken);
      FrontNotJammed(w, t0.parsed, before, log);
      taken := taken + 1;
    }
    if r.Some? {
      NotJammed(w, names, t0, roots, r.value, visited, queue, log);
      QueueHead(w, names, t0.parsed, roots, log, taken, queue);
    }
  }

  lemma FrontNotJammed(w: World, parsed: map<string, Json>, log: seq<Visit>, log': seq<Visit>)
    requires !Jammed(w, parsed, log) && (log' == log || (log' != [] && Front(log') == log))
    ensures !Jammed(w, parsed, Front(log'))
  {
  }

  lemma LogStarts(w: World, names: seq<string>, t0: Tables, roots: seq<string>)
    ensures History(w, names, t0, roots, []) && Logged(w, names, t0, roots, t0, {}, roots, [], [])
    ensures Queued(w, names, t0.parsed, roots, [], 0, roots)
  {
    assert roots[0..] == roots;
  }

  lemma ExpandedMore(w: World, names: seq<string>, t: Tables, a: set<string>, b: set<string>)
    requires FromLinks(w, names, t, a) && a <= b
    ensures FromLinks(w, names, t, b)
  {
    forall f: string, v: Verdict | Claimed(t, f, Discovered, v)
      ensures exists u: string, linked: string :: u in b && Explains(w, names, t.parsed, u, linked, f, v)
    {
      var u: string, linked: string :| u in a && Explains(w, names, t.parsed, u, linked, f, v);
      assert u in b && Explains(w, names, t.parsed, u, linked, f, v);
    }
  }
}
