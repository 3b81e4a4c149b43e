/** What every route that canonicalize_route accepts looks like, and when accepting is stable. */
module RouteFacts {
  import opened Wrappers
  import opened Text
  import opened Routes

  // ------------------------------------------------------------ shape of accepted routes

  /** The segments after the service root. */
  function Segments(route: string): seq<string>
    requires StartsWith(route, SERVICE_ROOT)
  {
    if route == SERVICE_ROOT then [] else Split(route[|SERVICE_ROOT| + 1..], '/')
  }

  predicate GoodSegment(seg: string) {
    seg != "" && seg != "." && seg != ".." && '/' !in seg && '\\' !in seg && '\0' !in seg
  }

  /** The service root followed by good segments. */
  predicate WellFormed(route: string) {
    && StartsWith(route, SERVICE_ROOT)
    && (route == SERVICE_ROOT || route[|SERVICE_ROOT|] == '/')
    && forall seg <- Segments(route) :: GoodSegment(seg)
  }

  lemma {:induction false} SplitChars(s: string, c: char, x: char)
    requires x !in s
    ensures forall p <- Split(s, c) :: x !in p
  {
    if s != "" { SplitChars(s[1..], c, x); }
  }

  lemma CheckedPath(decoded: string)
    ensures CheckPath(decoded).Accepted? ==>
      WellFormed(CheckPath(decoded).route) && CheckPath(decoded).route == DropSlash(decoded)
  {
    if CheckPath(decoded).Accepted? {
      var path := DropSlash(decoded);
      assert '\\' !in path && '\0' !in path;
      if path != SERVICE_ROOT {
        var tail := path[|SERVICE_ROOT| + 1..];
        SplitChars(tail, '/', '\\');
        SplitChars(tail, '/', '\0');
        JoinSplit(tail, '/');
        assert path[|SERVICE_ROOT|] == (SERVICE_ROOT + "/")[|SERVICE_ROOT|];
      }
    }
  }

  lemma CheckedParts(lib: Library, parsed: Parts)
    requires CheckParts(lib, parsed).Accepted?
    ensures WellFormed(CheckParts(lib, parsed).route)
  {
    CheckedPath(Decode(lib, parsed.path));
  }

  /** Any accepted route is the service root followed by good segments. */
  lemma AcceptedIsWellFormed(lib: Library, candidate: string)
    requires Canonicalize(lib, candidate).Accepted?
    ensures WellFormed(Canonicalize(lib, candidate).route)
  {
    CheckedParts(lib, UrlSplit(lib, candidate).value);
  }

  // ------------------------------------------------------------ decoding keeps the segment structure

  function DecodeAll(lib: Library, parts: seq<string>): seq<string> {
    seq(|parts|, i requires 0 <= i < |parts| => Decode(lib, parts[i]))
  }

  lemma DecodeAllCons(lib: Library, a: string, parts: seq<string>)
    ensures DecodeAll(lib, [a] + parts) == [Decode(lib, a)] + DecodeAll(lib, parts)
  {
  }

  lemma TailEscaped(p: string, n: nat)
    requires WellEscaped(p) && n <= |p|
    ensures WellEscaped(p[n..])
  {
    forall i | 0 <= i < |p[n..]| && p[n..][i] == '%' ensures Escape(p[n..][i..]) {
      assert p[n..][i..] == p[n + i..];
    }
  }

  lemma TailUnseparated(p: string, n: nat)
    requires !HasEncodedSeparator(p) && n <= |p|
    ensures !HasEncodedSeparator(p[n..])
  {
    forall i | 0 <= i < |p[n..]| ensures !EncodedSeparatorAt(p[n..], i) {
      assert p[n..][i..] == p[n + i..];
      assert !EncodedSeparatorAt(p, n + i);
    }
  }

  lemma EscapePrefix(a: string, b: string)
    requires WellEscaped(a) && a != ""
    ensures Escape(a + b) == Escape(a)
    ensures Escape(a) ==> EscapeByte(a + b) == EscapeByte(a)
  {
    assert a[0..] == a;
  }

  lemma {:induction false} HighRunPrefix(a: string, b: string)
    requires WellEscaped(a) && HighRun(b) == []
    ensures HighRun(a + b) == HighRun(a)
  {
    if a == "" {
      assert a + b == b;
    } else {
      EscapePrefix(a, b);
      if Escape(a) {
        TailEscaped(a, 3);
        assert (a + b)[3..] == a[3..] + b;
        HighRunPrefix(a[3..], b);
      }
    }
  }

  lemma TokenPrefix(lib: Library, a: string, b: string)
    requires WellEscaped(a) && HighRun(b) == [] && a != ""
    ensures Token(lib, a + b) == Token(lib, a) && TokenLength(a + b) == TokenLength(a)
  {
    EscapePrefix(a, b);
    HighRunPrefix(a, b);
  }

  /** Decoding takes one token off the front. */
  lemma DecodeToken(lib: Library, p: string, token: string, rest: string)
    requires p != "" && token == Token(lib, p) && rest == p[TokenLength(p)..]
    ensures Decode(lib, p) == token + Decode(lib, rest)
  {
  }

  lemma Associate(x: string, y: string, z: string)
    ensures x + (y + z) == x + y + z
  {
  }

  /** Decoding a concatenation is concatenating the decodings, when no run of high escapes crosses the cut. */
  lemma {:induction false} DecodeConcat(lib: Library, a: string, b: string)
    requires WellEscaped(a) && HighRun(b) == []
    ensures Decode(lib, a + b) == Decode(lib, a) + Decode(lib, b)
    decreases |a|
  {
    if a == "" {
      assert a + b == b;
      assert Decode(lib, a) == "";
    } else {
      var n := TokenLength(a);
      var token, rest := Token(lib, a), a[n..];
      TailEscaped(a, n);
      DecodeConcat(lib, rest, b);
      DecodeFront(lib, a, b, token, rest);
      Associate(token, Decode(lib, rest), Decode(lib, b));
    }
  }

  lemma DecodeFront(lib: Library, a: string, b: string, token: string, rest: string)
    requires WellEscaped(a) && HighRun(b) == [] && a != "" && token == Token(lib, a) && rest == a[TokenLength(a)..]
    ensures Decode(lib, a + b) == token + Decode(lib, rest + b) && Decode(lib, a) == token + Decode(lib, rest)
  {
    TokenPrefix(lib, a, b);
    assert (a + b)[TokenLength(a)..] == rest + b;
    DecodeToken(lib, a, token, rest);
    DecodeToken(lib, a + b, token, rest + b);
  }

  /** One decoding step never makes a slash, and never makes nothing. */
  lemma TokenFacts(lib: Library, p: string)
    requires Lawful(lib) && WellEscaped(p) && !HasEncodedSeparator(p) && p != ""
    ensures Token(lib, p) != "" && |Token(lib, p)| <= TokenLength(p)
    ensures p[0] != '/' ==> '/' !in Token(lib, p)
    ensures p[0] == '/' ==> TokenLength(p) == 1
    ensures WellEscaped(p[TokenLength(p)..]) && !HasEncodedSeparator(p[TokenLength(p)..])
  {
    assert p[0..] == p;
    assert !EncodedSeparatorAt(p, 0);
    TailEscaped(p, TokenLength(p));
    TailUnseparated(p, TokenLength(p));
  }

  /** A path without an encoded separator decodes to a path without a new slash. */
  lemma {:induction false} DecodeKeepsSlashFree(lib: Library, p: string)
    requires Lawful(lib) && WellEscaped(p) && !HasEncodedSeparator(p) && '/' !in p
    ensures '/' !in Decode(lib, p)
    decreases |p|
  {
    if p != "" {
      TokenFacts(lib, p);
      DecodeKeepsSlashFree(lib, p[TokenLength(p)..]);
    }
  }

  lemma FrontEscaped(a: string, b: string)
    requires WellEscaped(a + "/" + b) && !HasEncodedSeparator(a + "/" + b)
    ensures WellEscaped(a) && !HasEncodedSeparator(a)
  {
    var p := a + "/" + b;
    forall i | 0 <= i < |a| && a[i] == '%' ensures Escape(a[i..]) {
      assert Escape(p[i..]);
      assert p[i..] == a[i..] + "/" + b;
    }
    forall i | 0 <= i < |a| ensures !EncodedSeparatorAt(a, i) {
      assert !EncodedSeparatorAt(p, i);
      assert p[i..] == a[i..] + "/" + b;
    }
  }

  lemma DecodeSlash(lib: Library, b: string)
    ensures HighRun("/" + b) == [] && Decode(lib, "/" + b) == "/" + Decode(lib, b)
  {
    assert ("/" + b)[1..] == b;
    DecodeToken(lib, "/" + b, "/", b);
  }

  lemma BackEscaped(a: string, b: string)
    requires WellEscaped(a + "/" + b) && !HasEncodedSeparator(a + "/" + b)
    ensures WellEscaped(b) && !HasEncodedSeparator(b)
  {
    var p := a + "/" + b;
    TailEscaped(p, |a| + 1);
    TailUnseparated(p, |a| + 1);
    assert p[|a| + 1..] == b;
  }

  lemma DecodeAcrossSlash(lib: Library, a: string, b: string)
    requires Lawful(lib) && WellEscaped(a + "/" + b) && !HasEncodedSeparator(a + "/" + b) && '/' !in a
    ensures Decode(lib, a + "/" + b) == Decode(lib, a) + "/" + Decode(lib, b)
    ensures '/' !in Decode(lib, a) && WellEscaped(b) && !HasEncodedSeparator(b)
  {
    FrontEscaped(a, b);
    BackEscaped(a, b);
    DecodeSlash(lib, b);
    DecodeConcat(lib, a, "/" + b);
    Associate(a, "/", b);
    Associate(Decode(lib, a), "/", Decode(lib, b));
    DecodeKeepsSlashFree(lib, a);
  }

  /** Decoding commutes with splitting on the slash, so it never changes the segment structure. */
  lemma {:induction false} DecodeCommutesWithSplit(lib: Library, p: string)
    requires Lawful(lib) && WellEscaped(p) && !HasEncodedSeparator(p)
    ensures Split(Decode(lib, p), '/') == DecodeAll(lib, Split(p, '/'))
    decreases |p|
  {
    var i := Find(p, {'/'});
    if i == |p| {
      DecodeKeepsSlashFree(lib, p);
      SplitWhole(p, '/');
      SplitWhole(Decode(lib, p), '/');
    } else {
      var a, b := p[..i], p[i + 1..];
      assert p == a + "/" + b;
      DecodeAcrossSlash(lib, a, b);
      DecodeCommutesWithSplit(lib, b);
      SplitPart(a, b, '/');
      DecodeAllCons(lib, a, Split(b, '/'));
      SplitPart(Decode(lib, a), Decode(lib, b), '/');
    }
  }

  /** Decoding neither makes nor hides a final slash. */
  lemma {:induction false} DecodeKeepsEnd(lib: Library, p: string)
    requires Lawful(lib) && WellEscaped(p) && !HasEncodedSeparator(p) && p != "" && p[|p| - 1] != '/'
    ensures Decode(lib, p) != "" && Decode(lib, p)[|Decode(lib, p)| - 1] != '/'
    decreases |p|
  {
    TokenFacts(lib, p);
    var n := TokenLength(p);
    if n == |p| {
      assert Decode(lib, p[n..]) == "";
      assert p[0] == '/' ==> |p| == 1;
    } else {
      DecodeKeepsEnd(lib, p[n..]);
    }
  }

  lemma DecodeDropSlash(lib: Library, p: string)
    requires Lawful(lib) && WellEscaped(p) && !HasEncodedSeparator(p)
    ensures WellEscaped(DropSlash(p)) && !HasEncodedSeparator(DropSlash(p))
    ensures DropSlash(Decode(lib, p)) == Decode(lib, DropSlash(p))
  {
    if p != "" && p[|p| - 1] == '/' {
      var a := p[..|p| - 1];
      assert p == a + "/" + "" && p == a + "/";
      FrontEscaped(a, "");
      DecodeConcat(lib, a, "/");
      assert "/"[1..] == "";
      assert Decode(lib, "/") == "/" + Decode(lib, "");
    } else if p != "" {
      DecodeKeepsEnd(lib, p);
    }
  }

  /** The segments of an accepted route are the decoded segments of the path it was written with. */
  lemma AcceptedSegments(lib: Library, candidate: string)
    requires Lawful(lib) && Canonicalize(lib, candidate).Accepted?
    ensures UrlSplit(lib, candidate).Some?
    ensures Split(Canonicalize(lib, candidate).route, '/')
      == DecodeAll(lib, Split(DropSlash(UrlSplit(lib, candidate).value.path), '/'))
  {
    var p := UrlSplit(lib, candidate).value.path;
    CheckedPath(Decode(lib, p));
    DecodeDropSlash(lib, p);
    DecodeCommutesWithSplit(lib, DropSlash(p));
  }

  // ------------------------------------------------------------ when canonicalizing again changes nothing

  predicate Plain(s: string) {
    '%' !in s && '?' !in s && '#' !in s && '\t' !in s && '\n' !in s && '\r' !in s
  }

  lemma {:induction false} DecodePlain(lib: Library, p: string)
    requires '%' !in p
    ensures Decode(lib, p) == p
  {
    if p != "" { DecodePlain(lib, p[1..]); }
  }

  lemma {:induction false} DecodeShrinks(lib: Library, p: string)
    requires Lawful(lib) && WellEscaped(p)
    ensures |Decode(lib, p)| <= |p|
    ensures '%' in p ==> |Decode(lib, p)| < |p|
    decreases |p|
  {
    if p != "" {
      assert p[0..] == p;
      var n := TokenLength(p);
      TailEscaped(p, n);
      DecodeShrinks(lib, p[n..]);
      assert p == p[..n] + p[n..];
    }
  }

  lemma WellFormedEnd(route: string)
    requires WellFormed(route)
    ensures |route| >= |SERVICE_ROOT| && route[|route| - 1] != '/'
    ensures route != SERVICE_ROOT ==> StartsWith(route, SERVICE_ROOT + "/")
  {
    if route != SERVICE_ROOT {
      var tail, segs := route[|SERVICE_ROOT| + 1..], Segments(route);
      assert route == SERVICE_ROOT + "/" + tail;
      assert segs == Split(tail, '/') && !GoodSegment("");
      SplitTrailing(tail);
    }
  }

  lemma SplitTrailing(s: string)
    ensures s == "" || s[|s| - 1] == '/' ==> "" in Split(s, '/')
  {
    if s != "" && s[|s| - 1] == '/' {
      var a := s[..|s| - 1];
      assert s == a + ['/'] + "";
      SplitConcat(a, "", '/');
      assert Split(s, '/')[|Split(a, '/')|] == "";
    }
  }

  lemma PlainSplit(lib: Library, r: string)
    requires '?' !in r && '#' !in r && '\t' !in r && '\n' !in r && '\r' !in r
    requires |r| >= 2 && r[0] == '/' && r[1] != '/'
    ensures UrlSplit(lib, r) == Some(Parts(false, "", r, "", ""))
  {
    assert Clean(r) == r;
    assert SchemeLength(r) == 0;
    assert r[..|r|] == r && r[0..] == r;
  }

  /** Without scheme, authority, query and fragment the decoded path decides. */
  lemma PathDecides(lib: Library, path: string, decoded: string, verdict: Verdict)
    requires WellEscaped(path) && !HasEncodedSeparator(path) && decoded == Decode(lib, path)
    requires verdict == CheckPath(decoded)
    ensures CheckParts(lib, Parts(false, "", path, "", "")) == verdict
  {
  }

  lemma PartsDecide(lib: Library, raw: string, parts: Parts, verdict: Verdict)
    requires raw != "" && UrlSplit(lib, raw) == Some(parts) && CheckParts(lib, parts) == verdict
    ensures Canonicalize(lib, raw) == verdict
  {
  }

  lemma NothingEscaped(r: string)
    requires '%' !in r
    ensures WellEscaped(r) && !HasEncodedSeparator(r)
  {
    forall i | 0 <= i < |r| ensures !EncodedSeparatorAt(r, i) {}
  }

  lemma PlainParts(lib: Library, r: string)
    requires WellFormed(r) && '%' !in r
    ensures CheckParts(lib, Parts(false, "", r, "", "")) == Accepted(r)
  {
    DecodePlain(lib, r);
    NothingEscaped(r);
    CheckWellFormed(r);
    PathDecides(lib, r, r, Accepted(r));
  }

  /** A plain well-formed route is its own canonical form. */
  lemma PlainIsStable(lib: Library, r: string)
    requires WellFormed(r) && Plain(r)
    ensures Canonicalize(lib, r) == Accepted(r)
  {
    assert r[..2] == SERVICE_ROOT[..2];
    PlainSplit(lib, r);
    PlainParts(lib, r);
  }

  lemma NoBadChar(r: string, x: char)
    requires WellFormed(r) && (x == '\\' || x == '\0')
    ensures x !in r
  {
    if r != SERVICE_ROOT {
      var tail := r[|SERVICE_ROOT| + 1..];
      assert forall seg <- Split(tail, '/') :: GoodSegment(seg) by { assert Segments(r) == Split(tail, '/'); }
      NotInWhole(tail, '/', x);
      assert r == SERVICE_ROOT + "/" + tail;
    }
  }

  lemma CheckWellFormed(r: string)
    requires WellFormed(r)
    ensures CheckPath(r) == Accepted(r)
  {
    WellFormedEnd(r);
    assert DropSlash(r) == r;
    NoBadChar(r, '\\');
    NoBadChar(r, '\0');
    assert !GoodSegment("") && !GoodSegment(".") && !GoodSegment("..");
    assert StartsWith(r, "/") by { assert r[..1] == SERVICE_ROOT[..1]; }
  }

  lemma {:induction false} NotInWhole(s: string, c: char, x: char)
    requires x != c && forall p <- Split(s, c) :: x !in p
    ensures x !in s
  {
    if s != "" {
      var parts, rest := Split(s, c), Split(s[1..], c);
      forall p <- rest ensures x !in p {
        var i :| 0 <= i < |rest| && rest[i] == p;
        if s[0] == c { assert parts[i + 1] == p; }
        else { assert parts[i] == if i == 0 then [s[0]] + p else p; assert parts[i] in parts; }
      }
      NotInWhole(s[1..], c, x);
      assert parts[0] in parts;
    }
  }

  lemma CleanShrinks(r: string)
    ensures |Clean(r)| <= |r| && (Clean(r) == r || |Clean(r)| < |r|)
    ensures '\t' !in Clean(r) && '\n' !in Clean(r) && '\r' !in Clean(r)
  {
    LeadingShrinks(r);
    WithoutShrinks(DropLeading(r), CONTROLS);
  }

  lemma TailPath(scheme: bool, netloc: string, tail: string)
    ensures var p := SplitTail(scheme, netloc, tail).path; p <= tail && '?' !in p && '#' !in p
  {
  }

  lemma PathFrom(lib: Library, url: string) returns (k: nat)
    requires SplitClean(lib, url).Some?
    ensures k <= |url| && SplitClean(lib, url).value.path <= url[k..]
    ensures '?' !in SplitClean(lib, url).value.path && '#' !in SplitClean(lib, url).value.path
  {
    var rest := AfterScheme(url);
    k := |url| - |rest|;
    match Netloc(rest)
    case None => TailPath(SchemeLength(url) > 0, "", rest);
    case Some(netloc) =>
      TailPath(SchemeLength(url) > 0, netloc, rest[2 + |netloc|..]);
      k := k + 2 + |netloc|;
      assert url[k..] == rest[2 + |netloc|..];
  }

  /** The path is a stretch of the URL that ends before any query or fragment. */
  lemma PathIsPart(lib: Library, url: string)
    requires SplitClean(lib, url).Some?
    ensures var p := SplitClean(lib, url).value.path; |p| <= |url| && (p == url || |p| < |url|)
    ensures var p := SplitClean(lib, url).value.path; '?' !in p && '#' !in p && forall c <- p :: c in url
  {
    var k := PathFrom(lib, url);
    var p := SplitClean(lib, url).value.path;
    forall i | 0 <= i < |p| ensures p[i] in url { assert p[i] == url[k + i]; }
  }

  lemma PathShrinks(lib: Library, r: string)
    requires UrlSplit(lib, r).Some?
    ensures var p := UrlSplit(lib, r).value.path; |p| <= |r| && (p == r || |p| < |r|)
    ensures var p := UrlSplit(lib, r).value.path; '?' !in p && '#' !in p && '\t' !in p && '\n' !in p && '\r' !in p
  {
    CleanShrinks(r);
    PathIsPart(lib, Clean(r));
  }

  lemma {:induction false} LeadingShrinks(r: string)
    ensures |DropLeading(r)| <= |r| && (|DropLeading(r)| == |r| ==> DropLeading(r) == r)
  {
    if r != "" { LeadingShrinks(r[1..]); }
  }

  lemma PartsShrink(lib: Library, parsed: Parts)
    requires Lawful(lib) && CheckParts(lib, parsed).Accepted?
    ensures |CheckParts(lib, parsed).route| <= |parsed.path|
    ensures '%' in parsed.path ==> |CheckParts(lib, parsed).route| < |parsed.path|
  {
    DecodeShrinks(lib, parsed.path);
    CheckedPath(Decode(lib, parsed.path));
  }

  lemma StableIsPlain(lib: Library, r: string)
    requires Lawful(lib) && Canonicalize(lib, r) == Accepted(r)
    ensures Plain(r)
  {
    PathShrinks(lib, r);
    PartsShrink(lib, UrlSplit(lib, r).value);
  }

  /**
    Canonicalizing an accepted route again accepts it unchanged exactly when it holds no percent, query or fragment
    mark, tab or newline.
   */
  lemma StableIffPlain(lib: Library, candidate: string)
    requires Lawful(lib) && Canonicalize(lib, candidate).Accepted?
    ensures var r := Canonicalize(lib, candidate).route;
      Canonicalize(lib, r) == Accepted(r) <==> Plain(r)
  {
    var r := Canonicalize(lib, candidate).route;
    AcceptedIsWellFormed(lib, candidate);
    if Plain(r) { PlainIsStable(lib, r); }
    if Canonicalize(lib, r) == Accepted(r) { StableIsPlain(lib, r); }
  }

  lemma ChildSegments(r: string, seg: string)
    requires WellFormed(r) && GoodSegment(seg)
    ensures WellFormed(r + "/" + seg)
  {
    var c := r + "/" + seg;
    SplitWhole(seg, '/');
    if r == SERVICE_ROOT {
      assert c[|SERVICE_ROOT| + 1..] == seg;
    } else {
      var tail := r[|SERVICE_ROOT| + 1..];
      assert c[|SERVICE_ROOT| + 1..] == tail + ['/'] + seg;
      SplitConcat(tail, seg, '/');
      assert Segments(c) == Segments(r) + [seg];
    }
  }

  lemma EscapedChildDecodes(lib: Library, r: string)
    requires '%' !in r
    ensures Decode(lib, r + "/%23") == r + "/#"
    ensures WellEscaped(r + "/%23") && !HasEncodedSeparator(r + "/%23")
  {
    var p, front := r + "/%23", r + "/";
    assert p == front + "%23";
    DecodePlain(lib, front);
    DecodeConcat(lib, front, "%23");
    assert "%23"[3..] == "" && Token(lib, "%23") == "#";
    assert p[|front|..] == "%23";
    forall i | 0 <= i < |p| && p[i] == '%' ensures i == |front| {}
    forall i | 0 <= i < |p| ensures !EncodedSeparatorAt(p, i) {
      if i == |front| { assert p[i..] == "%23"; }
    }
  }

  lemma FindMark(a: string)
    requires '#' !in a
    ensures Find(a + "#", {'#'}) == |a|
  {
    assert (a + "#")[|a|] == '#';
    assert forall j | 0 <= j < |a| :: (a + "#")[j] == a[j];
  }

  lemma MarkedSplit(lib: Library, a: string)
    requires Plain(a) && |a| >= 2 && a[0] == '/' && a[1] != '/'
    ensures UrlSplit(lib, a + "#") == Some(Parts(false, "", a, "", ""))
  {
    var r := a + "#";
    assert Clean(r) == r;
    assert SchemeLength(r) == 0;
    assert r[0..] == r;
    FindMark(a);
    assert r[..|a|] == a && r[|a| + 1..] == "";
    assert Find(a, {'?'}) == |a| && a[..|a|] == a;
  }

  lemma SlashedPath(r: string)
    requires WellFormed(r)
    ensures CheckPath(r + "/") == Accepted(r)
  {
    CheckWellFormed(r);
    WellFormedEnd(r);
    assert DropSlash(r + "/") == r == DropSlash(r);
    NoBadChar(r, '\\');
    NoBadChar(r, '\0');
  }

  lemma SlashedParent(lib: Library, r: string)
    requires WellFormed(r) && '%' !in r
    ensures CheckParts(lib, Parts(false, "", r + "/", "", "")) == Accepted(r)
  {
    DecodePlain(lib, r + "/");
    NothingEscaped(r + "/");
    SlashedPath(r);
    PathDecides(lib, r + "/", r + "/", Accepted(r));
  }

  lemma MarkPath(r: string)
    requires WellFormed(r)
    ensures CheckPath(r + "/#") == Accepted(r + "/#")
  {
    assert r + "/" + "#" == r + "/#";
    ChildSegments(r, "#");
    CheckWellFormed(r + "/#");
  }

  lemma MarkAccepted(lib: Library, r: string)
    requires WellFormed(r) && Plain(r)
    ensures Canonicalize(lib, r + "/%23") == Accepted(r + "/#")
  {
    assert r[..2] == SERVICE_ROOT[..2];
    var raw := r + "/%23";
    PlainSplit(lib, raw);
    EscapedChildDecodes(lib, r);
    MarkPath(r);
    PathDecides(lib, raw, r + "/#", Accepted(r + "/#"));
    PartsDecide(lib, raw, Parts(false, "", raw, "", ""), Accepted(r + "/#"));
  }

  lemma MarkDropped(lib: Library, r: string)
    requires WellFormed(r) && Plain(r)
    ensures Canonicalize(lib, r + "/#") == Accepted(r)
  {
    assert r[..2] == SERVICE_ROOT[..2];
    assert r + "/#" == (r + "/") + "#";
    MarkedSplit(lib, r + "/");
    SlashedParent(lib, r);
  }

  /** The instability is real: a link to a child named "#" is accepted, and canonicalized again it names the parent. */
  lemma UnstableLink(lib: Library, r: string)
    requires WellFormed(r) && Plain(r)
    ensures Canonicalize(lib, r + "/%23") == Accepted(r + "/#")
    ensures Canonicalize(lib, r + "/#") == Accepted(r)
  {
    MarkAccepted(lib, r);
    MarkDropped(lib, r);
  }

  // ------------------------------------------------------------ destinations

  lemma TailSlashFree(route: string)
    requires WellFormed(route) && route != SERVICE_ROOT
    ensures var tail := route[|SERVICE_ROOT| + 1..];
      tail != "" && tail[0] != '/' && tail[|tail| - 1] != '/' && route == SERVICE_ROOT + "/" + tail
  {
    WellFormedEnd(route);
    var tail, segs := route[|SERVICE_ROOT| + 1..], Segments(route);
    assert segs == Split(tail, '/') && segs[0] in segs && GoodSegment(segs[0]);
    assert route == SERVICE_ROOT + "/" + tail;
  }

  lemma SuffixStripped(route: string)
    requires WellFormed(route)
    ensures Strip(route[|SERVICE_ROOT|..], '/') ==
      if route == SERVICE_ROOT then "" else route[|SERVICE_ROOT| + 1..]
  {
    if route != SERVICE_ROOT {
      TailSlashFree(route);
      var tail := route[|SERVICE_ROOT| + 1..];
      assert route[|SERVICE_ROOT|..] == "/" + tail && ("/" + tail)[1..] == tail;
      assert Text.LeftStrip("/" + tail, '/') == tail;
    } else {
      assert route[|SERVICE_ROOT|..] == "";
    }
  }

  /** The path components of a destination: the route's segments, then the terminal file name. */
  lemma DestinationParts(route: string, xml: bool)
    requires WellFormed(route)
    ensures Split(Destination(route, xml), '/') == Segments(route) + [Terminal(xml)]
  {
    SuffixStripped(route);
    SplitWhole(Terminal(xml), '/');
    if route != SERVICE_ROOT {
      TailSlashFree(route);
      SplitConcat(route[|SERVICE_ROOT| + 1..], Terminal(xml), '/');
    }
  }

  /** Distinct well-formed routes have distinct destinations. */
  lemma DestinationInjective(r: string, x: bool, r': string, x': bool)
    requires WellFormed(r) && WellFormed(r') && Destination(r, x) == Destination(r', x')
    ensures r == r' && x == x'
  {
    DestinationParts(r, x);
    DestinationParts(r', x');
    var s, s' := Segments(r), Segments(r');
    assert (s + [Terminal(x)])[|s|] == (s' + [Terminal(x')])[|s'|];
    assert s == (s + [Terminal(x)])[..|s|] == s';
    Rebuild(r);
    Rebuild(r');
  }

  lemma Rebuild(r: string)
    requires WellFormed(r)
    ensures r == if Segments(r) == [] then SERVICE_ROOT else SERVICE_ROOT + "/" + Join(Segments(r), '/')
  {
    if r != SERVICE_ROOT {
      JoinSplit(r[|SERVICE_ROOT| + 1..], '/');
    }
  }
}
