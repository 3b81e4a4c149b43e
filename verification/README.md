# redfish_ctl: what its stateful core guarantees

redfish_ctl talks to BMCs over Redfish and comes with tools that turn captured BMC responses into
test corpora. This project models the parts of it where state, concurrency or a multi-phase
transformation decides what comes out, and proves what they guarantee for every input, every
interleaving and every run. `dafny verify dfyconfig.toml` checks all of it.

- **The single-flight response cache** (`SingleFlight`, `SingleFlightRuns`, `SingleFlightWitnesses`,
  `SingleFlightTermination`, `CacheTransparency`, `BaseQuery`, `ConcurrentQueries`): `RedfishResponseCache.get_or_load`
  as a step system of any number of threads (lock, condition variable, wait set, loaders outside the lock, payloads as
  heap cells that callers may write to), and `base_query` on top of it, as classes and from any number of threads.
- **The corpus-to-tree converter**: routes (`Text`, `Routes`, `RouteFacts`, `RouteCrashes`), the evidence about fixtures
  (`Evidence`, `Discovery`, `Determinism`, `Gathering`), the verdicts told declaratively (`Verdicts`) and the loops that
  compute them (`Collisions`, `Settling`, `Emission`, `LinkClosure`), the report (`Tally`, `Conversion`), what it
  guarantees (`Guarantees`), that the archive determines all of it (`Uniqueness`) and the whole (`Converter`), then
  writing it to disk with crashes anywhere (`Materialize`, `CrashSafety`, `Disks`, `EndToEnd`).
- **Double-checked locking** (`DoubleChecked`, `Linearizability`): the kube client with its reset, and the
  per-connection `Singleton`, in one step system with a history of invocations, effects and responses.
- **Pollers** (`TaskPoller`, `Waiting`) over every response stream and clock.
- **Checkers and lookups**: `Registry`, `CorpusPack`, `CorpusDiff`, `ExceptionGate`.
- **Guarded effects** as traces: `ActionListing` and `InvokeAction`, `Reconcile`.

`JsonModel` is parsed JSON with Python's `==`; `Ordering`, `Finite`, `Ceilings` and `Wrappers` are shared.

## Where the code does not do what is expected of it

- A deep copy that raises at `redfish_ctl/redfish_manager.py:125`, outside the `try`, leaves the key in
  `_inflight` for good. `StuckIffStranded` shows that a run can stop short exactly when that happened,
  `AfterLeak` that no other caller of the key is ever served, and `LeakIsReachable` gives the run.
- `_inflight` and `_values` overlap for one moment, between two statements of the publishing critical
  section: `OverlapIff` says exactly when, `OverlapIsReachable` gives the run, and `OneOwnerPerKey` has them disjoint
  whenever the lock is free.
- `canonicalize_route` is idempotent exactly on routes without `%`, `?`, `#`, tab, newline and carriage return
  (`StableIffPlain`). `UnstableLink` is a link that the walk, which canonicalizes twice, turns into a claim on the
  parent. The converter is modelled with both applications.
- `urlsplit` raises `ValueError` on an authority it does not accept, which `canonicalize_route` lets through and no
  caller catches. `CrashIff` says exactly on which candidates, `BareAuthorityCrashes` gives a family, and
  `WellFormedNeverCrashes` shows that the second canonicalization of a link is never one of them. `build_conversion`
  then ends without a report: `BuildConversion` says exactly for which archives, and `LoneRootDerails` gives one.
- Alias payloads are compared with Python's `==`, for which `true` equals `1`; `PyEqIsEqualUpToBooleans` says
  exactly when that is equality of JSON and `PyEqConfusesTrueAndOne` shows a pair for which it is not.
- `validate` exempts a file named `rest_api_map.npy` from being mapped; `ValidMeansBijection` has the exact
  condition and `UnmappedFilePasses` an accepted corpus that is no bijection. Only a direct call of `validate` can
  meet it: `pack` hands over `*.json` files, for which `JsonFilesBijection` has no exception.
- `compare` fetches live paths outside `plan` exactly when the ServiceRoot is not captured and a collection is, at its
  default path (`FetchOutsidePlanIff`); `UnplannedFetch` gives a corpus and the path.
- `_members` raises `TypeError` when `Members` is null, a number or a boolean, although it is documented to
  return an empty list for a malformed collection; `Plan` and `Compare` say exactly when they raise, and
  `NullMembersRaise` gives a corpus for which both do.

## Model

| member | source | states |
|---|---|---|
| SingleFlight.InitInv | redfish_ctl/redfish_manager.py:79-83 | the empty cache with any calls about to start satisfies the invariant |
| SingleFlight.StepKeeps | redfish_ctl/redfish_manager.py:94-130 | every step of every thread, including raising loaders, failing copies and writes by callers, keeps the invariant: one owner per key in flight, no lost wakeup, published cells out of callers' reach |
| SingleFlightRuns.Reachable | redfish_ctl/redfish_manager.py:94-130 | every reachable state satisfies the invariant, and loads are accounted for per key |
| SingleFlightRuns.OneOwnerPerKey | redfish_ctl/redfish_manager.py:108-130 | a key is in flight iff exactly one call owns its load; in-flight and cached keys are disjoint whenever the lock is free |
| SingleFlightRuns.OverlapIff | redfish_ctl/redfish_manager.py:126-128 | a key is in flight and cached at once iff its loader, in the lock, has published and not yet discarded it |
| SingleFlightRuns.LoaderRuns | redfish_ctl/redfish_manager.py:108-130 | loader runs for a key are the calls that raised its error plus one if it is cached; n calls run at most n loaders |
| SingleFlightRuns.PublishedForever | redfish_ctl/redfish_manager.py:125-130 | a published value never changes, whatever callers do to their copies |
| SingleFlightRuns.CallersAgree | redfish_ctl/redfish_manager.py:108-130 | any two calls for one key that return, return equal payloads |
| SingleFlightRuns.StuckIffStranded | redfish_ctl/redfish_manager.py:108-130 | no step is possible iff every call is over or stranded behind a leaked key |
| SingleFlightRuns.StopsOnlyWhenDone | redfish_ctl/redfish_manager.py:108-130 | without a failing copy-in a run stops only when every call is over: no deadlock and no lost wakeup |
| SingleFlightRuns.LeakNeedsFailedCopy | redfish_ctl/redfish_manager.py:117-130 | a key leaks only through a copy that raises outside the try |
| SingleFlightRuns.LeakStrandsForever | redfish_ctl/redfish_manager.py:112-125 | once a key is leaked, no step finishes another call for it |
| SingleFlightRuns.AfterLeak | redfish_ctl/redfish_manager.py:112-125 | nor does any continuation of the run |
| SingleFlightWitnesses.LeakIsReachable | redfish_ctl/redfish_manager.py:108-125 | a concrete run that leaks a key and ends with another caller asleep on it, stranded |
| SingleFlightWitnesses.OverlapIsReachable | redfish_ctl/redfish_manager.py:108-128 | a concrete run to a state in which a key is in flight and cached |
| SingleFlightTermination.StepFalls | redfish_ctl/redfish_manager.py:108-130 | a variant falls with every step of a call |
| SingleFlightTermination.RunsAreShort | redfish_ctl/redfish_manager.py:108-130 | n calls take at most 3n^2 + 11n steps in any interleaving |
| CacheTransparency.RunServes | redfish_ctl/redfish_manager.py:85-130 | in every run all cells the cache holds or will hold are what the server says |
| CacheTransparency.Transparent | redfish_ctl/redfish_manager.py:85-130 | a call that ends, ends as the uncached request would, in every interleaving and with callers mutating what they were given; errors are never cached |
| BaseQuery.ResponseCache.constructor | redfish_ctl/redfish_manager.py:79-83 | an empty cache |
| BaseQuery.ResponseCache.GetOrLoad | redfish_ctl/redfish_manager.py:94-130 | a hit returns the cached value without loading; a miss loads, stores a success and never an error |
| BaseQuery.Manager.constructor | redfish_ctl/redfish_manager.py:285 | the request counter starts at zero |
| BaseQuery.Manager.CountGet | redfish_ctl/redfish_manager.py:1483-1488 | the counter moves exactly when the transport answered |
| BaseQuery.Manager.BaseQuery | redfish_ctl/redfish_manager.py:1463-1511 | with or without a cache, with any key selector, the result is that of the direct request; the cache stays faithful to the server |
| ConcurrentQueries.EachIsDirect | redfish_ctl/redfish_manager.py:1463-1511 | in every interleaving of base_query calls that go through one cache, a call whose copies do not raise ends as the direct request would, selection included |
| ConcurrentQueries.AllAnswered | redfish_ctl/redfish_manager.py:1463-1511 | when no copy raises, a run that can go no further has answered every request as the direct one would |
| BaseQuery.GetsCounted | redfish_ctl/redfish_manager.py:1479-1498 | the answered GETs of a sequence of requests are those no cache can save plus one per distinct cacheable key |
| DoubleChecked.StepKeeps | redfish_ctl/kube_client.py:54-85 | every step of callers, builders and resets keeps the locking and history invariant |
| Linearizability.Linearizable | redfish_ctl/kube_client.py:54-85 | every run's history replays legally on an atomic get-or-build register with reset, ends in the slots as they are, and each finished call returned its own effect's result |
| Linearizability.RealTimeOrder | redfish_ctl/kube_client.py:67-75 | a call that responded before another was invoked took effect before it |
| Linearizability.OneBuildBetweenResets | redfish_ctl/kube_client.py:71-85 | two successful builds of the client have a reset between them |
| Linearizability.SameObjectBetweenResets | redfish_ctl/kube_client.py:67-85 | two calls with no reset between them get the same object |
| Linearizability.OneInstancePerKey | redfish_ctl/redfish_api_common.py:390-405 | two constructor calls that return, return the same instance iff their connection keys are equal |
| Linearizability.InstanceKept | redfish_ctl/redfish_api_common.py:395-405 | an instance handed out stays in its slot |
| Linearizability.StopsOnlyWhenDone | redfish_ctl/kube_client.py:67-85 | no deadlock: a run stops iff every call is over |
| JsonModel.PyEqIsEqualUpToBooleans | tools/corpus_tree.py:479-480 | two payloads are equal iff Python's comparison says so and booleans sit in the same places |
| JsonModel.PyEqConfusesTrueAndOne | tools/corpus_tree.py:479-480 | two different payloads that compare equal |
| RouteFacts.AcceptedIsWellFormed | tools/corpus_tree.py:234-275 | an accepted route is the service root followed by non-empty segments, none "." or "..", without backslash or NUL |
| RouteFacts.DecodeCommutesWithSplit | tools/corpus_tree.py:246-275 | percent-decoding commutes with splitting on "/" |
| RouteFacts.AcceptedSegments | tools/corpus_tree.py:246-275 | the segments of an accepted route are the decoded segments of the candidate's path |
| RouteFacts.StableIffPlain | tools/corpus_tree.py:234-275 | canonicalizing an accepted route again leaves it alone iff it holds none of six characters |
| RouteFacts.UnstableLink | tools/corpus_tree.py:234-275 | a family of links for which the second canonicalization names the parent |
| RouteCrashes.CrashIff | tools/corpus_tree.py:237-241 | canonicalize_route lets a ValueError out iff the cleaned candidate has an authority that urlsplit does not accept |
| RouteCrashes.BareAuthorityCrashes | tools/corpus_tree.py:237-241 | every candidate "//n" does, for an authority n that urlsplit does not accept |
| RouteCrashes.WellFormedNeverCrashes | tools/corpus_tree.py:234-275 | no accepted route does when it is canonicalized again |
| RouteFacts.DestinationParts | tools/corpus_tree.py:282-285 | a destination's path components are the route's segments and then the terminal file name |
| RouteFacts.DestinationInjective | tools/corpus_tree.py:282-285 | different routes of one kind have different destinations |
| Evidence.RealIsSound | tools/corpus_tree.py:234-275 | the real canonicalize_route meets the two assumptions the converter makes of it: accepted routes are well-formed and can be canonicalized again without raising |
| Evidence.AddGrows | tools/corpus_tree.py:409-423 | adding a candidate only adds, to one fixture, from one source, and a well-formed route |
| Evidence.FirstPass | tools/corpus_tree.py:603-651 | what the first pass concludes for each fixture, and exactly when it raises |
| Evidence.ReadFixture | tools/corpus_tree.py:607-651 | what it concludes for one fixture, with nothing else touched |
| Evidence.Matches | tools/corpus_tree.py:582-584 | the fixtures whose names fold to a key |
| Evidence.ApplyRouteMap | tools/corpus_tree.py:653-670 | every row with one target takes effect, no other route-map claim exists, a conflict iff some row has no single target, and exactly when it raises |
| Discovery.FollowLinks | tools/corpus_tree.py:701-715 | every link of a fixture is applied, and the queue grows by exactly the targets not yet visited, in the order of the sorted links |
| Discovery.Turn | tools/corpus_tree.py:687-715 | a turn visits a new parsed fixture or shortens the queue, and keeps the walk's invariant |
| Discovery.Discover | tools/corpus_tree.py:685-715 | the walk ends and leaves a log of its visits: each is the first parsed fixture, not yet visited, of the roots and then the links of the fixtures expanded before it, with the claims at that moment exactly those of the links expanded before it; it goes on until there is no such fixture or one to be expanded has a link on which urlsplit raises; the fixtures expanded are exactly those with one candidate route at their visit; at the end every link of theirs is applied and nothing else is claimed; it raises iff a fixture to be expanded has a link on which urlsplit raises |
| Determinism.WalkIsDetermined | tools/corpus_tree.py:685-715 | two walks over one archive that start from the same claims, made in any order, visit and expand the same fixtures in the same order, and both raise or neither does |
| Gathering.FoldedNameConflicts | tools/corpus_tree.py:593-601 | a conflict iff two fixture names fold to the same |
| Gathering.AnchorRoot | tools/corpus_tree.py:672-680 | the anchor is added iff exactly one fixture folds to the name of the root, and adding it never raises |
| Gathering.Collect | tools/corpus_tree.py:582-715 | the evidence is complete and traceable: nothing claimed is missing, every route-map claim goes back to a row and every discovered one to a link reachable from the ServiceRoot fixture; there is none iff, for this archive, urlsplit raises on a top-level id, on the route of a row with one fixture, or on a link of a fixture the walk is to expand |
| Gathering.EvidenceIsDetermined | tools/corpus_tree.py:582-715 | any two bodies of evidence for one archive and route map make the same claims |
| Verdicts.AliasHasWitness | tools/corpus_tree.py:431-492 | an alias is excluded only in favour of another fixture whose payload compares equal, that claims the canonical route and is no alias itself |
| Verdicts.AliasWitnessEmitted | tools/corpus_tree.py:721-865 | when nothing is unresolved that fixture is emitted at the canonical route |
| Verdicts.EmittedApart | tools/corpus_tree.py:834-865 | emitted fixtures have different routes, destinations that differ under folding, and none a path prefix of another |
| Verdicts.AliasReason | tools/corpus_tree.py:721-733 | a fixture is reported as an alias only if the alias check says so |
| Collisions.CollisionSets | tools/corpus_tree.py:505-553 | the collision sets name exactly the fixtures that clash with another assignment, none of them alone |
| Settling.ExcludeAliases | tools/corpus_tree.py:721-733 | the alias loop gives exactly the alias verdicts |
| Settling.BlockDuplicates | tools/corpus_tree.py:738-764 | all claimants of a contested route are blocked and no one else |
| Settling.AssignRoute | tools/corpus_tree.py:766-832 | one fixture's verdict from its issues, candidates and name |
| Settling.AssignRoutes | tools/corpus_tree.py:766-832 | the route table holds exactly the assigned fixtures with their claimed routes |
| Settling.RemoveCollisions | tools/corpus_tree.py:834-844 | the routes left are exactly those of fixtures that clash with none |
| Emission.SurvivorsApart | tools/corpus_tree.py:834-865 | the routes left are one to one, and so are their destinations |
| Emission.Emit | tools/corpus_tree.py:846-865 | one file and one row per survivor, with its own bytes; the route index is the inverse of the table |
| LinkClosure.CheckLinks | tools/corpus_tree.py:867-903 | every link of every emitted payload leads to an emitted route or has a row, every row comes from such a link, and the check blocks iff some link is rejected and not excluded |
| Conversion.NothingUnclassified | tools/corpus_tree.py:905-908 | every fixture has a status before the fallback loop, and no reason is the fallback's |
| Conversion.Fallback | tools/corpus_tree.py:905-908 | the fallback loop changes nothing |
| Conversion.ReportRows | tools/corpus_tree.py:910-921 | the report lists exactly the reasons of the fixtures with a status |
| Tally.Count | tools/corpus_tree.py:931-938 | a count is the number of fixtures with the status |
| Conversion.Summarize | tools/corpus_tree.py:905-945 | lists and counts of the report are those of the verdicts, and the counts add up |
| Conversion.SettleStages | tools/corpus_tree.py:721-865 | all stages together settle every fixture by its verdict and emit exactly the emitted ones |
| Conversion.CheckTree | tools/corpus_tree.py:867-903 | told by the verdicts: the link check raises iff a link of an emitted payload does, and blocks iff one is rejected and not excluded |
| Conversion.SplitNames | tools/corpus_tree.py:572-581 | fixtures, in the order of their names, and sidecars partition the archive |
| Guarantees.Accountability | tools/corpus_tree.py:905-945 | for every archive each fixture is listed as exactly one of emitted, excluded, unresolved, none as unclassified, and the accountability equation holds |
| Guarantees.TreeIsExact | tools/corpus_tree.py:846-865 | payloads has exactly emittedFiles entries, each row's file holds its fixture's bytes, and there are no other files |
| Guarantees.TreeHasNoClash | tools/corpus_tree.py:834-865 | two rows have different fixtures, routes and folded destinations, and neither path is a prefix of the other |
| Guarantees.AliasLosesNothing | tools/corpus_tree.py:431-492 | in a passing plan every excluded alias has an equal payload in the tree at its canonical route, byte-identical iff the row says so |
| Uniqueness.VerdictsAreDetermined | tools/corpus_tree.py:582-865 | any two bodies of evidence for one archive and route map, whatever the order of the claims, give every fixture the same status and the same route |
| Uniqueness.EmissionIsDetermined | tools/corpus_tree.py:867-903 | whether a link of an emitted payload makes urlsplit raise depends on archive and route map alone |
| Uniqueness.PlanIsDetermined | tools/corpus_tree.py:556-991 | any two plans for one archive and route map have the same tree, rows, counts and verdict |
| Converter.BuildConversion | tools/corpus_tree.py:556-991 | for every archive that yields a plan: files add up, each fixture is listed once, one file per row with its fixture's bytes, rows apart in route and folded destination with no path a prefix of another; the plan is told by the evidence and passes iff names are unambiguous, nothing is unresolved, the service root is emitted and no link blocks; there is no plan iff, for this archive and route map, urlsplit raises on a candidate, on a link of a fixture the walk is to expand, or on a link of an emitted payload |
| Converter.ConvertsDelivers | tools/corpus_tree.py:834-945 | what holds of every plan, told from plan and archive alone |
| Converter.LoneRootDerails | tools/corpus_tree.py:643-651 | an archive without a plan: the ServiceRoot fixture alone with a top-level id "//n" |
| Materialize.TreeFindings | tools/corpus_tree.py:1010-1026 | exactly the findings the tree deserves |
| Materialize.NoFindingsMeansExact | tools/corpus_tree.py:1002-1026 | no findings iff the tree is the planned one |
| Materialize.Verify | tools/corpus_tree.py:1081-1104 | verify passes iff tree and report are the planned ones and the plan passes |
| CrashSafety.PartialRun | tools/corpus_tree.py:1046-1065 | where a run stands after any number of its steps |
| CrashSafety.CrashIsRecoverable | tools/corpus_tree.py:1046-1065 | a run killed between any two steps leaves an output that materialize accepts |
| CrashSafety.CompleteRun | tools/corpus_tree.py:1029-1066 | a complete run ends in an output that verify passes, and a further run changes nothing |
| CrashSafety.AnyCrashesThenComplete | tools/corpus_tree.py:1029-1066 | after any number of killed runs the next complete one ends verified |
| Disks.Disk.Acceptable | tools/corpus_tree.py:1032-1044 | the checks pass iff profile and report are absent or exact and no path is a link |
| Disks.Disk.Fill | tools/corpus_tree.py:1050-1053 | all payloads are written iff no file stands where another needs a directory |
| Disks.Disk.PlaceProfile | tools/corpus_tree.py:1047-1057 | the profile appears whole or not at all, and a failed write leaves no temporary |
| Disks.Disk.PlaceReport | tools/corpus_tree.py:1058-1065 | the report appears by one replace |
| Disks.Disk.Materialize | tools/corpus_tree.py:1029-1066 | a mismatched output is refused with nothing changed; otherwise the run is its script and ends verified |
| EndToEnd.PlanFits | tools/corpus_tree.py:1050-1053 | the tree of any plan can be written |
| EndToEnd.PlanReachesDisk | tools/corpus_tree.py:1029-1104 | a passing plan, any number of killed runs and one complete run end in an output that verify passes |
| TaskPoller.SeenIsLast | redfish_ctl/redfish_manager.py:2275-2277 | the tracked state is the last recognised one |
| TaskPoller.FetchTask | redfish_ctl/redfish_manager.py:2251-2300 | the poller stops at the first response that settles it, with that response's outcome, for every stream |
| TaskPoller.ReturnsLastState | redfish_ctl/redfish_manager.py:2260-2300 | what is returned is the last recognised state, and no GET follows a terminal or awaited state, a reaped monitor, a server error or a 401 |
| TaskPoller.GetsBounded | redfish_ctl/redfish_manager.py:2283-2294 | with a sleep d >= 1 and a budget t > 0 there are at most ceil(t/d) + 1 GETs |
| Waiting.Poll | redfish_ctl/cmd_wait.py:84-100 | a phase ends at the first probe with the wanted value or past the deadline |
| Waiting.WaitFor | redfish_ctl/cmd_wait.py:67-104 | both phases, for every predicate and clock |
| Waiting.TraceShape | redfish_ctl/cmd_wait.py:82-100 | with invert_first the probes are trues, at most one phase-ending false, falses, at most one true |
| Waiting.CycleObserved | redfish_ctl/cmd_wait.py:82-102 | precondition met and satisfied means a false probe before a later true one |
| Waiting.ProbesBounded | redfish_ctl/cmd_wait.py:77-100 | at least one probe, and with an interval d > 0 at most ceil(t/d) + 2, one fewer without invert_first |
| Registry.ResolveCommand | redfish_ctl/redfish_manager.py:347-368 | the answer of the most derived class that registers the command, or none |
| Registry.GetRegistry | redfish_ctl/redfish_manager.py:321-344 | every lookup in the merged registry is the most derived class's answer |
| Registry.MostDerivedIsUnique | redfish_ctl/redfish_manager.py:321-368 | so the two forms agree on every request and every MRO |
| CorpusPack.Resources | tools/pack_full_corpus.py:103-105 | the listed files that are not pack metadata |
| CorpusPack.Validate | tools/pack_full_corpus.py:209-265 | no problems iff every one of the checked conditions holds |
| CorpusPack.ValidMeansBijection | tools/pack_full_corpus.py:209-265 | without problems and with distinct names the URLs and resource files are in bijection iff no unmapped rest_api_map.npy is listed |
| CorpusPack.UnmappedFilePasses | tools/pack_full_corpus.py:249-254 | handed an unmapped rest_api_map.npy that holds JSON, validate finds no problem in a corpus that is no bijection |
| CorpusPack.JsonFilesBijection | tools/pack_full_corpus.py:95-105 | of *.json files with distinct names, no problems means a bijection |
| CorpusPack.FullMethods | tools/pack_full_corpus.py:241-258 | a methods map of the full size has exactly the mapped URLs as keys |
| ExceptionGate.ExceptionClassNames | tools/exception_interface_gate.py:79-99 | the names found are exactly those with a chain of definitions to a suffixed base: closed under the rule and contained in every closed set |
| ExceptionGate.Violations | tools/exception_interface_gate.py:102-113 | exactly the definitions of exception types outside the interface |
| CorpusDiff.Plan | tools/corpus_diff.py:241-265 | exactly the planned paths, and exactly when it raises |
| CorpusDiff.CompareField | tools/corpus_diff.py:156-181 | drift iff the sides disagree on the field |
| CorpusDiff.CompareResource | tools/corpus_diff.py:214-238 | clean iff both sides have the resource and agree on its stable fields; a live fetch iff the corpus has it |
| CorpusDiff.CompareCollection | tools/corpus_diff.py:285-321 | clean iff both sides have the collection, whole, with the same members that agree |
| CorpusDiff.Compare | tools/corpus_diff.py:268-333 | clean iff both sides agree on everything planned; exactly which paths are fetched, whether it raises or not, and only planned ones when the ServiceRoot is captured; a corpus compared with itself shows no drift and no live gap |
| CorpusDiff.FetchOutsidePlanIff | tools/corpus_diff.py:241-333 | compare fetches a path outside the plan iff the ServiceRoot is not captured and a collection is, at its default path |
| CorpusDiff.UnplannedFetch | tools/corpus_diff.py:285-300 | a corpus without the ServiceRoot for which an unplanned path is fetched |
| CorpusDiff.NullMembersRaise | tools/corpus_diff.py:184-196 | a corpus whose null "Members" makes plan and compare raise |
| CorpusDiff.AgreementCoversThePlan | tools/corpus_diff.py:241-333 | a clean comparison means agreement on every planned path |
| ActionListing.LastTargetIff | redfish_ctl/redfish_manager.py:1687-1719 | a full type has a target iff the resource advertises one for it, and the one that counts is advertised |
| ActionListing.ListingHas | redfish_ctl/redfish_manager.py:1787-1805 | every entry of the Actions block and of the Oem block inside it is listed |
| InvokeAction.FlattenTargets | redfish_ctl/redfish_manager.py:1687-1719 | for each full type the target of its last entry, in document order, that has one |
| InvokeAction.GetActions | redfish_ctl/redfish_manager.py:1774-1807 | each short name stands for its last entry, in document order, and every short name that is listed is there; exactly when it raises |
| InvokeAction.DiscoverActions | redfish_ctl/redfish_manager.py:1832-1859 | exactly the actions of those entries that are dicts with a target, and exactly when it raises |
| InvokeAction.Resolve | redfish_ctl/redfish_manager.py:1913-1936 | the last entry of the wanted full type with a target if there is one, else that of the short name, and exactly when neither is found |
| InvokeAction.NamedIsAdvertised | redfish_ctl/redfish_manager.py:1913-1936 | what a request resolves to is advertised, under the wanted full type or one with the short name |
| InvokeAction.Gate | redfish_ctl/redfish_manager.py:1938-1988 | one POST iff the body is valid, the run is not dry and the flags permit the level of the full type |
| InvokeAction.Invoke | redfish_ctl/redfish_manager.py:1861-2004 | at most one POST, to an advertised entry whose own full type was classified and is permitted by the flags; nothing on a dry run; exactly when the read fails, discovery raises or no action is found |
| Reconcile.NtpAlreadyMatches | redfish_ctl/reconcile.py:452-478 | true iff some relevant row can do NTP, all that can are right, and a named manager has none that cannot |
| Reconcile.Ask | redfish_ctl/reconcile.py:369-386 | an invocation that returns an error is the last one |
| Reconcile.ReconcileBios | redfish_ctl/reconcile.py:132-180 | read, then the change iff consented to and called for by the answer |
| Reconcile.ReconcileNtp | redfish_ctl/reconcile.py:183-242 | the same for NTP servers |
| Reconcile.ReconcileBoot | redfish_ctl/reconcile.py:245-292 | the same for the one-time boot override |
| Reconcile.ReconcileReboot | redfish_ctl/reconcile.py:295-334 | the reset as asked for, dry without consent |
| Reconcile.Run | redfish_ctl/reconcile.py:83-129 | every invocation has a reason, they come in order and none twice, each change called for is the next invocation, and only the last can have failed |
| Reconcile.UnconfirmedChangesNothing | redfish_ctl/reconcile.py:83-334 | without consent no invocation mutates, whether the run succeeds or fails |
| Reconcile.ResetComesLast | redfish_ctl/reconcile.py:107-334 | a reset is the last invocation, after all others returned without error |
| Reconcile.MatchingStateIsKept | redfish_ctl/reconcile.py:132-334 | when every read that is answered answers the desired state, nothing is changed but for a reset asked for, whether the run succeeds or fails |

## Left out

- HTTP, TLS, sessions, retries, asyncio executors and tracing spans: a GET or POST is an arbitrary environment step.
- URL composition and `RedfishQuery`: `base_query` starts from the composed URL; validating and joining query parameters would only add easy members.
- Converter.BuildConversion: takes the parsers, digests and the serialisation of the report not to raise; in the source an XML declaration with an unknown encoding, JSON nested too deeply and a lone surrogate in a string can, and also end the run without a report.
- Linearizability.StopsOnlyWhenDone: takes constructors and client builders not to construct a `Singleton` or ask for the client themselves; both locks are not reentrant, so one that does waits for itself.
- Spurious wakeups of the condition variable, and loaders that re-enter the cache for the same key.
- `IDracManager.fetch_task`, the CLI, printers and the dataclass mapping.
- Tar reading, the manifest, SHA-256 digests, JSON and XML parsing, Unicode case folding and the UTF-8 decoding of high bytes: parameters, of which only the stated facts are assumed.
- The internals of `urlsplit` beyond scheme, authority, path, query and fragment; which authorities it rejects is a parameter.
- The NFKC and bracket checks of `urlsplit`: part of that parameter.
- De-duplication and sorting of the conflict and missing-link rows, `conflictFiles`, and reading the route map (`_load_route_map`): rows are taken in the order given.
- NaN in captured JSON, for which Python's comparison is not reflexive.
- Materialize.Perform: a file is written in one step, so a torn write of a temporary is not modelled; nothing reads temporaries. Another process writing to the output at the same time is not modelled.
- Waiting.WaitFor: does not model the rounding of `waited_s`, which is output only.
- BaseQuery.ResponseCache.GetOrLoad: one thread at a time, so it does not show the wait loop and the deep copies; those are in the step system of `SingleFlight`.
- BaseQuery.Manager.BaseQuery: the synchronous path; the asynchronous branch does not use the cache, and saving the result to a file is output only.
- TaskPoller.FetchTask: Retry-After comes as a number already; polling stops with `Exhausted` when the given stream of responses does.
- CorpusDiff.Plan: lists members in document order, so the order of the plan is not modelled.
- InvokeAction.Invoke: payload validation and classification are parameters; a resource that is not a JSON object is not modelled.
- Reconcile.NtpAlreadyMatches: takes rows whose strings and server lists are already coerced.
- `classify`, the individual commands, `_default_service_instance_id`, the AST and grep gates besides `_exception_class_names`, redaction, CI evidence: independent of the above, or single checks.
