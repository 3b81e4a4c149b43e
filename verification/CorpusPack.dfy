/** pack_full_corpus.validate: what an empty list of problems says about the maps and the files. */
module CorpusPack {
  import opened Text
  import opened Ordering
  import opened Finite

  const PACK_METADATA := {"corpus_manifest.json", "rest_api_map.status.json"}

  /** The maps of rest_api_map.npy; Path(f).name of each mapped file is already taken. */
  datatype ApiMap = ApiMap(urls: map<string, string>, errors: map<string, string>, methods: set<string>,
                           statuses: map<string, int>)

  datatype Problem =
    | Sidecar(index: nat) | RootFileMissing | RootUrlMissing | Unparseable(file: string) | InBoth(urls: set<string>)
    | FileCount | MethodCount | MappedFileMissing(url: string) | Unmapped(file: string) | StrayMethod(url: string)
    | StrayStatus(url: string)

  /** _resource_json_paths. */
  function Resources(files: seq<string>): (r: seq<string>)
    ensures forall f :: f in r <==> f in files && f !in PACK_METADATA
  {
    if files == [] then []
    else
      var rest := Resources(files[..|files| - 1]);
      if files[|files| - 1] in PACK_METADATA then rest else rest + [files[|files| - 1]]
  }

  function Mapped(m: ApiMap): set<string> { m.urls.Values + m.errors.Values }

  /** Left out of the check that every resource file is mapped. */
  predicate Exempt(f: string) { f == "rest_api_map.npy" || f == "corpus_manifest.json" }

  ghost predicate CountsMatch(m: ApiMap, resources: seq<string>) {
    && "_redfish_v1.json" in resources
    && ("/redfish/v1/" in m.urls || "/redfish/v1" in m.urls)
    && m.urls.Keys !! m.errors.Keys
    && |resources| == |m.urls| + |m.errors|
    && (|m.methods| == |m.urls| || |m.methods| == |m.urls| + |m.errors|)
  }

  ghost predicate FilesMatch(m: ApiMap, resources: seq<string>) {
    && (forall u <- m.urls :: m.urls[u] in resources) && (forall u <- m.errors :: m.errors[u] in resources)
    && (forall f <- resources :: Exempt(f) || f in Mapped(m))
  }

  ghost predicate UrlsMatch(m: ApiMap) {
    && (forall u <- m.methods :: u in m.urls || u in m.errors)
    && (forall u <- m.statuses :: m.statuses[u] == 0 || u in m.urls || u in m.errors)
  }

  /** Everything validate looks at, except what is in the files. */
  ghost predicate Valid(m: ApiMap, resources: seq<string>) {
    CountsMatch(m, resources) && FilesMatch(m, resources) && UrlsMatch(m)
  }

  /** One problem for each of these strings that fails a test, in their order. */
  method Each(order: seq<string>, ok: string -> bool, problem: string -> Problem) returns (problems: seq<Problem>)
    ensures problems == [] <==> forall x <- order :: ok(x)
  {
    problems := [];
    for i := 0 to |order|
      invariant problems == [] <==> forall j | 0 <= j < i :: ok(order[j])
    {
      if !ok(order[i]) { problems := problems + [problem(order[i])]; }
    }
  }

  method CheckCounts(m: ApiMap, resources: seq<string>) returns (problems: seq<Problem>)
    ensures problems == [] <==> CountsMatch(m, resources)
  {
    problems := [];
    if "_redfish_v1.json" !in resources { problems := problems + [RootFileMissing]; }
    if "/redfish/v1/" !in m.urls && "/redfish/v1" !in m.urls { problems := problems + [RootUrlMissing]; }
    var overlap := m.urls.Keys * m.errors.Keys;
    if overlap != {} { problems := problems + [InBoth(overlap)]; }
    if |resources| != |m.urls| + |m.errors| { problems := problems + [FileCount]; }
    if |m.methods| != |m.urls| && |m.methods| != |m.urls| + |m.errors| { problems := problems + [MethodCount]; }
  }

  method CheckFiles(m: ApiMap, resources: seq<string>) returns (problems: seq<Problem>)
    ensures problems == [] <==> FilesMatch(m, resources)
  {
    var urls := SortedList(m.urls.Keys);
    var errors := SortedList(m.errors.Keys);
    var first := Each(urls, u => u in m.urls ==> m.urls[u] in resources, u => MappedFileMissing(u));
    var second := Each(errors, u => u in m.errors ==> m.errors[u] in resources, u => MappedFileMissing(u));
    var mapped := Mapped(m);
    var unmapped := Each(resources, f => Exempt(f) || f in mapped, f => Unmapped(f));
    problems := first + second + unmapped;
  }

  method CheckUrls(m: ApiMap) returns (problems: seq<Problem>)
    ensures problems == [] <==> UrlsMatch(m)
  {
    var methods := SortedList(m.methods);
    var statuses := SortedList(m.statuses.Keys);
    var first := Each(methods, u => u in m.urls || u in m.errors, u => StrayMethod(u));
    var second := Each(statuses, u => u in m.statuses ==> m.statuses[u] == 0 || u in m.urls || u in m.errors,
                       u => StrayStatus(u));
    problems := first + second;
  }

  /** Everything validate looks at. */
  ghost predicate NoProblems(m: ApiMap, files: seq<string>, sidecar: seq<Problem>, parses: string -> bool) {
    sidecar == [] && (forall f <- Resources(files) :: parses(f)) && Valid(m, Resources(files))
  }

  /** sidecar holds the problems of the status sidecar; parses says which files hold JSON. */
  method Validate(m: ApiMap, files: seq<string>, sidecar: seq<Problem>, parses: string -> bool)
    returns (problems: seq<Problem>)
    ensures problems == [] <==> NoProblems(m, files, sidecar, parses)
  {
    var resources := Resources(files);
    var counts := CheckCounts(m, resources);
    var unparsed := Each(resources, parses, f => Unparseable(f));
    var mapping := CheckFiles(m, resources);
    var stray := CheckUrls(m);
    problems := sidecar + counts + unparsed + mapping + stray;
  }

  // ------------------------------------------------------------ what an empty list means

  /** All URLs with a saved body. */
  function Combined(m: ApiMap): map<string, string> { m.urls + m.errors }

  ghost predicate Bijection(m: map<string, string>, files: set<string>) {
    m.Values == files && OneToOne(m)
  }

  lemma CombinedSize(m: ApiMap)
    requires m.urls.Keys !! m.errors.Keys
    ensures |Combined(m).Keys| == |m.urls| + |m.errors| && Combined(m).Values == Mapped(m)
  {
    assert Combined(m).Keys == m.urls.Keys + m.errors.Keys;
    assert |m.urls.Keys + m.errors.Keys| == |m.urls.Keys| + |m.errors.Keys|;
    forall f | f in Mapped(m) ensures f in Combined(m).Values {
      if f in m.urls.Values {
        var u :| u in m.urls && m.urls[u] == f;
        assert u in Combined(m) && Combined(m)[u] == f;
      } else {
        var u :| u in m.errors && m.errors[u] == f;
        assert u in Combined(m) && Combined(m)[u] == f;
      }
    }
  }

  lemma MappedAreResources(m: ApiMap, resources: seq<string>)
    requires FilesMatch(m, resources) && "corpus_manifest.json" !in resources
    ensures Mapped(m) == Elements(resources) <==> "rest_api_map.npy" !in resources || "rest_api_map.npy" in Mapped(m)
  {
    forall f | f in Mapped(m) ensures f in resources {
      if f in m.urls.Values {
        var u :| u in m.urls && m.urls[u] == f;
      } else {
        var u :| u in m.errors && m.errors[u] == f;
      }
    }
    if "rest_api_map.npy" in resources && "rest_api_map.npy" !in Mapped(m) {
      assert "rest_api_map.npy" in Elements(resources);
    } else {
      forall f | f in resources ensures f in Mapped(m) { assert Exempt(f) || f in Mapped(m); }
    }
  }

  lemma BijectionIff(m: ApiMap, resources: seq<string>)
    requires Valid(m, resources) && forall i, j | 0 <= i < j < |resources| :: resources[i] != resources[j]
    requires "corpus_manifest.json" !in resources
    ensures Bijection(Combined(m), Elements(resources)) <==>
      "rest_api_map.npy" !in resources || "rest_api_map.npy" in Mapped(m)
  {
    CombinedSize(m);
    SameSize(resources, Elements(resources));
    MappedAreResources(m, resources);
    if Mapped(m) == Elements(resources) { Pigeonhole(Combined(m)); }
  }

  /**
    When nothing is wrong and no two resource files share a name, the URLs and the files correspond one to one,
    provided no file called rest_api_map.npy is among them unmapped: validate does not ask for that one to be mapped.
   */
  lemma ValidMeansBijection(m: ApiMap, files: seq<string>, resources: seq<string>)
    requires resources == Resources(files) && Valid(m, resources)
    requires forall i, j | 0 <= i < j < |resources| :: resources[i] != resources[j]
    ensures Bijection(Combined(m), Elements(resources)) <==>
      "rest_api_map.npy" !in resources || "rest_api_map.npy" in Mapped(m)
  {
    BijectionIff(m, resources);
  }

  /** pack hands over *.json files only, and of those the correspondence is one to one without further ado. */
  lemma JsonFilesBijection(m: ApiMap, files: seq<string>, resources: seq<string>)
    requires resources == Resources(files) && Valid(m, resources)
    requires forall i, j | 0 <= i < j < |resources| :: resources[i] != resources[j]
    requires forall f <- files :: EndsWith(f, ".json")
    ensures Bijection(Combined(m), Elements(resources))
  {
    var npy := "rest_api_map.npy";
    assert !EndsWith(npy, ".json") by { assert npy[|npy| - 1] != ".json"[4]; }
    assert npy !in resources;
    BijectionIff(m, resources);
  }

  lemma TwoResources(f: string, g: string)
    requires f !in PACK_METADATA && g !in PACK_METADATA
    ensures Resources([f, g]) == [f, g]
  {
    assert [f, g][..1] == [f] && [f][..0] == [];
    assert Resources([f]) == [f];
  }

  lemma SharedFile(m: ApiMap, a: string, b: string, f: string, g: string)
    requires a != b && f != g && m == ApiMap(map[a := f, b := f], map[], {a, b}, map[])
    ensures |m.urls| == 2 && Mapped(m) == {f} && !Bijection(Combined(m), Elements([f, g]))
  {
    assert m.urls.Keys == {a, b};
    assert m.urls[a] == f && f in m.urls.Values;
    assert a in Combined(m) && b in Combined(m) && Combined(m)[a] == Combined(m)[b];
  }

  /** Handed an unmapped rest_api_map.npy that holds JSON, validate finds no problem while two URLs share a file. */
  lemma UnmappedFilePasses(m: ApiMap, files: seq<string>, parses: string -> bool)
    requires m == ApiMap(map["/redfish/v1/" := "_redfish_v1.json", "/redfish/v1" := "_redfish_v1.json"], map[],
                         {"/redfish/v1/", "/redfish/v1"}, map[])
    requires files == ["_redfish_v1.json", "rest_api_map.npy"] && parses("_redfish_v1.json")
    requires parses("rest_api_map.npy")
    ensures NoProblems(m, files, [], parses) && !Bijection(Combined(m), Elements(Resources(files)))
  {
    var a, b, f, g := "/redfish/v1/", "/redfish/v1", "_redfish_v1.json", "rest_api_map.npy";
    assert |a| != |b| && f[0] != g[0];
    forall x <- PACK_METADATA ensures x != f && x != g { assert x[0] != f[0] && (x[0] != g[0] || |x| != |g|); }
    TwoResources(f, g);
    SharedFile(m, a, b, f, g);
  }

  /** A methods map of the full size covers exactly the URLs with a saved body. */
  lemma FullMethods(m: ApiMap, resources: seq<string>)
    requires Valid(m, resources) && |m.methods| == |m.urls| + |m.errors|
    ensures m.methods == Combined(m).Keys
  {
    CombinedSize(m);
    SameSizeSubset(m.methods, Combined(m).Keys);
  }
}
