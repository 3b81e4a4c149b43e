/** When urlsplit raises inside canonicalize_route: exactly on an authority the library does not accept. */
module RouteCrashes {
  import opened Wrappers
  import opened Text
  import opened Routes
  import opened RouteFacts

  /** A scheme and its colon, as urlsplit recognises them. */
  predicate IsScheme(s: string) {
    |s| >= 2 && s[|s| - 1] == ':' && AsciiAlpha(s[0]) && forall j | 0 <= j < |s| - 1 :: SchemeChar(s[j])
  }

  predicate InAuthority(c: char) { c != '/' && c != '?' && c != '#' }

  /** url is an optional scheme, two slashes, the authority, and something that ends it or nothing. */
  ghost predicate HasAuthority(url: string, scheme: string, authority: string, tail: string) {
    && url == scheme + ("//" + authority + tail) && (scheme == "" || IsScheme(scheme))
    && (forall c <- authority :: InAuthority(c)) && (tail == "" || !InAuthority(tail[0]))
  }

  lemma FindFirst(s: string, cs: set<char>, n: nat)
    requires n <= |s| && (forall j | 0 <= j < n :: s[j] !in cs) && (n < |s| ==> s[n] in cs)
    ensures Find(s, cs) == n
  {
  }

  /** The authority ends at the first character that ends one. */
  lemma NetlocOf(authority: string, tail: string)
    requires (forall c <- authority :: InAuthority(c)) && (tail == "" || !InAuthority(tail[0]))
    ensures Netloc("//" + authority + tail) == Some(authority)
  {
    var rest, s, n := "//" + authority + tail, authority + tail, |authority|;
    assert rest[..2] == "//" && rest[2..] == s;
    forall j | 0 <= j < n ensures s[j] !in ENDS_AUTHORITY { assert s[j] == authority[j] && authority[j] in authority; }
    assert n < |s| ==> s[n] == tail[0];
    FindFirst(s, ENDS_AUTHORITY, n);
    assert rest[2..2 + n] == authority;
  }

  lemma SchemeOf(scheme: string, rest: string)
    requires IsScheme(scheme)
    ensures SchemeLength(scheme + rest) == |scheme| - 1 && AfterScheme(scheme + rest) == rest
  {
    var url, n := scheme + rest, |scheme| - 1;
    assert forall j | 0 <= j <= n :: url[j] == scheme[j];
    FindFirst(url, {':'}, n);
    assert url[n + 1..] == rest;
  }

  lemma NoSchemeOf(url: string)
    requires url != "" && !AsciiAlpha(url[0])
    ensures SchemeLength(url) == 0 && AfterScheme(url) == url
  {
  }

  lemma SplitFails(lib: Library, url: string)
    ensures SplitClean(lib, url).None? <==>
      Netloc(AfterScheme(url)).Some? && !lib.validNetloc(Netloc(AfterScheme(url)).value)
  {
  }

  /** The authority of a URL that has one decides. */
  lemma AuthorityDecides(lib: Library, url: string, scheme: string, authority: string, tail: string)
    requires HasAuthority(url, scheme, authority, tail)
    ensures SplitClean(lib, url).None? <==> !lib.validNetloc(authority)
  {
    var rest := "//" + authority + tail;
    assert url == scheme + rest;
    if scheme == "" {
      assert url == rest;
      NoSchemeOf(url);
    } else {
      SchemeOf(scheme, rest);
    }
    NetlocOf(authority, tail);
    SplitFails(lib, url);
  }

  lemma SchemeTaken(url: string) returns (scheme: string)
    ensures url == scheme + AfterScheme(url) && (scheme == "" || IsScheme(scheme))
  {
    var n := SchemeLength(url);
    scheme := if n == 0 then "" else url[..n + 1];
  }

  lemma NetlocTaken(rest: string)
    requires Netloc(rest).Some?
    ensures var a := Netloc(rest).value; var tail := rest[2 + |a|..];
      && rest == "//" + a + tail && (forall c <- a :: InAuthority(c)) && (tail == "" || !InAuthority(tail[0]))
  {
    var a := Netloc(rest).value;
    var tail := rest[2 + |a|..];
    assert rest == "//" + a + tail;
    forall c <- a ensures InAuthority(c) {
      var j :| 0 <= j < |a| && a[j] == c;
      assert rest[2..][j] == c;
    }
    assert tail == "" || rest[2..][|a|] == tail[0];
  }

  /** A URL that makes urlsplit raise has an authority. */
  lemma RaisesOnAuthority(lib: Library, url: string) returns (scheme: string, authority: string, tail: string)
    requires SplitClean(lib, url).None?
    ensures HasAuthority(url, scheme, authority, tail) && !lib.validNetloc(authority)
  {
    SplitFails(lib, url);
    scheme := SchemeTaken(url);
    var rest := AfterScheme(url);
    NetlocTaken(rest);
    authority := Netloc(rest).value;
    tail := rest[2 + |authority|..];
  }

  lemma CheckNeverCrashes(lib: Library, parsed: Parts)
    ensures !CheckParts(lib, parsed).Crash?
  {
  }

  lemma CrashIsFailedSplit(lib: Library, candidate: string, url: string)
    requires url == Clean(candidate)
    ensures Canonicalize(lib, candidate).Crash? <==> SplitClean(lib, url).None?
  {
    if candidate == "" {
      assert url == "";
      SplitFails(lib, url);
    } else if SplitClean(lib, url).Some? {
      CheckNeverCrashes(lib, SplitClean(lib, url).value);
    }
  }

  /** url has an authority that urlsplit does not accept. */
  ghost predicate BadAuthority(lib: Library, url: string) {
    exists scheme, authority, tail :: HasAuthority(url, scheme, authority, tail) && !lib.validNetloc(authority)
  }

  lemma FailedSplitIff(lib: Library, url: string)
    ensures SplitClean(lib, url).None? <==> BadAuthority(lib, url)
  {
    if SplitClean(lib, url).None? {
      var scheme, authority, tail := RaisesOnAuthority(lib, url);
    }
    if scheme, authority, tail :| HasAuthority(url, scheme, authority, tail) && !lib.validNetloc(authority) {
      AuthorityDecides(lib, url, scheme, authority, tail);
    }
  }

  /**
    canonicalize_route lets a ValueError out iff the cleaned candidate has an authority that urlsplit does not accept.
   */
  lemma CrashIff(lib: Library, candidate: string)
    ensures Canonicalize(lib, candidate).Crash? <==> BadAuthority(lib, Clean(candidate))
  {
    CrashIsFailedSplit(lib, candidate, Clean(candidate));
    FailedSplitIff(lib, Clean(candidate));
  }

  /** The candidates "//n" raise, for every authority n that urlsplit does not accept. */
  lemma BareAuthorityCrashes(lib: Library, n: string)
    requires !lib.validNetloc(n) && forall c <- n :: InAuthority(c) && c !in CONTROLS
    ensures Canonicalize(lib, "//" + n) == Crash
  {
    var raw := "//" + n;
    assert Clean(raw) == raw;
    assert raw == "" + ("//" + n + "");
    assert HasAuthority(Clean(raw), "", n, "");
    AuthorityDecides(lib, raw, "", n, "");
    CrashIsFailedSplit(lib, raw, raw);
  }

  lemma WithoutKeeps(c: char, s: string, cs: set<char>)
    requires c !in cs
    ensures Without([c] + s, cs) == [c] + Without(s, cs)
  {
    assert ([c] + s)[1..] == s;
  }

  lemma CleanKeepsFront(rest: string)
    ensures Clean(['/'] + (['r'] + rest)) == ['/'] + (['r'] + Without(rest, CONTROLS))
  {
    WithoutKeeps('/', ['r'] + rest, CONTROLS);
    WithoutKeeps('r', rest, CONTROLS);
  }

  lemma AfterRoot(r: string) returns (rest: string)
    requires WellFormed(r)
    ensures r == ['/'] + (['r'] + rest)
  {
    assert r[0] == SERVICE_ROOT[0] && r[1] == SERVICE_ROOT[1];
    rest := r[2..];
  }

  /** A well-formed route has no authority, so canonicalizing it again never raises. */
  lemma WellFormedNeverCrashes(lib: Library, r: string)
    requires WellFormed(r)
    ensures !Canonicalize(lib, r).Crash?
  {
    var rest := AfterRoot(r);
    CleanKeepsFront(rest);
    var url := ['/'] + (['r'] + Without(rest, CONTROLS));
    RootedNeverCrashes(lib, url);
    CrashIsFailedSplit(lib, r, url);
  }

  lemma RootedNeverCrashes(lib: Library, url: string)
    requires |url| >= 2 && url[0] == '/' && url[1] != '/'
    ensures SplitClean(lib, url).Some?
  {
    NoSchemeOf(url);
    assert url[..2] != "//" by { assert url[..2][1] != "//"[1]; }
    SplitFails(lib, url);
  }
}
