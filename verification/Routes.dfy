/** canonicalize_route, _forward_filename and _destination_for_route of the corpus-to-tree converter. */
module Routes {
  import opened Wrappers
  import opened Text

  const SERVICE_ROOT := "/redfish/v1"

  newtype Byte = b: int | 0 <= b < 256

  /**
    Library behaviour the converter relies on.  high decodes a run of percent-escaped bytes
    0x80 and above as UTF-8 with replacement; validNetloc says whether urlsplit accepts an authority.
   */
  datatype Library = Library(high: seq<Byte> -> string, validNetloc: string -> bool)

  /**
    UTF-8 never yields an ASCII character from bytes 0x80 and above, nor more characters than bytes, nor none from
    some.
   */
  ghost predicate Lawful(lib: Library) {
    forall bs: seq<Byte> :: |lib.high(bs)| <= |bs| && (bs != [] ==> lib.high(bs) != [])
      && forall c <- lib.high(bs) :: c as int >= 0x80
  }

  // ------------------------------------------------------------ urlsplit

  const CONTROLS := {'\t', '\n', '\r'}

  datatype Parts = Parts(scheme: bool, netloc: string, path: string, query: string, fragment: string)

  predicate AsciiAlpha(c: char) { 'a' <= c <= 'z' || 'A' <= c <= 'Z' }
  predicate SchemeChar(c: char) { AsciiAlpha(c) || '0' <= c <= '9' || c in "+-." }

  /** Leading control characters and spaces go, and tabs and newlines go everywhere. */
  function Clean(url: string): string {
    Without(DropLeading(url), CONTROLS)
  }

  function DropLeading(url: string): string {
    if url != "" && url[0] as int <= 0x20 then DropLeading(url[1..]) else url
  }

  /** The length of a scheme prefix, or 0. */
  function SchemeLength(url: string): nat {
    var i := Find(url, {':'});
    if 0 < i < |url| && AsciiAlpha(url[0]) && forall j | 0 <= j < i :: SchemeChar(url[j]) then i else 0
  }

  function AfterScheme(url: string): string {
    var n := SchemeLength(url);
    if n > 0 then url[n + 1..] else url
  }

  const ENDS_AUTHORITY := {'/', '?', '#'}

  /** The authority, if two slashes announce one. */
  function Netloc(rest: string): (r: Option<string>)
    ensures r.Some? ==> 2 + |r.value| <= |rest|
  {
    if StartsWith(rest, "//") then Some(rest[2..2 + Find(rest[2..], ENDS_AUTHORITY)]) else None
  }

  /** None is the ValueError urlsplit raises for a malformed authority. */
  function UrlSplit(lib: Library, raw: string): Option<Parts> {
    SplitClean(lib, Clean(raw))
  }

  function SplitClean(lib: Library, url: string): Option<Parts> {
    var rest := AfterScheme(url);
    match Netloc(rest)
    case None => Some(SplitTail(SchemeLength(url) > 0, "", rest))
    case Some(netloc) =>
      if lib.validNetloc(netloc) then Some(SplitTail(SchemeLength(url) > 0, netloc, rest[2 + |netloc|..])) else None
  }

  /** What follows the authority: path, query and fragment. */
  function SplitTail(scheme: bool, netloc: string, tail: string): Parts {
    var f := Find(tail, {'#'});
    var fragment := if f < |tail| then tail[f + 1..] else "";
    var front := tail[..f];
    var q := Find(front, {'?'});
    var query := if q < |front| then front[q + 1..] else "";
    Parts(scheme, netloc, front[..q], query, fragment)
  }

  // ------------------------------------------------------------ percent decoding, RFC 3986 section 2.1

  predicate Hex(c: char) { '0' <= c <= '9' || 'a' <= c <= 'f' || 'A' <= c <= 'F' }

  function HexValue(c: char): (v: int)
    requires Hex(c)
    ensures 0 <= v < 16
  {
    if c <= '9' then c as int - '0' as int
    else if c <= 'F' then c as int - 'A' as int + 10
    else c as int - 'a' as int + 10
  }

  predicate Escape(p: string) { |p| >= 3 && p[0] == '%' && Hex(p[1]) && Hex(p[2]) }

  function EscapeByte(p: string): Byte
    requires Escape(p)
  {
    (16 * HexValue(p[1]) + HexValue(p[2])) as Byte
  }

  /** Every percent sign starts an escape. */
  predicate WellEscaped(p: string) {
    forall i | 0 <= i < |p| && p[i] == '%' :: Escape(p[i..])
  }

  predicate EncodedSeparatorAt(p: string, i: nat)
    requires i < |p|
  {
    Escape(p[i..]) && EscapeByte(p[i..]) in {0x2F as Byte, 0x5C as Byte}
  }

  predicate HasEncodedSeparator(p: string) {
    exists i | 0 <= i < |p| :: EncodedSeparatorAt(p, i)
  }

  /** The leading run of escapes of bytes 0x80 and above. */
  function HighRun(p: string): (bs: seq<Byte>)
    ensures 3 * |bs| <= |p|
  {
    if Escape(p) && EscapeByte(p) as int >= 0x80 then [EscapeByte(p)] + HighRun(p[3..]) else []
  }

  /** How much of a path the next decoding step takes: a character, an ASCII escape, or a run of high escapes. */
  function TokenLength(p: string): (n: nat)
    requires p != ""
    ensures 0 < n <= |p|
  {
    if !Escape(p) then 1 else if EscapeByte(p) as int < 0x80 then 3 else 3 * |HighRun(p)|
  }

  function Token(lib: Library, p: string): string
    requires p != ""
  {
    if !Escape(p) then [p[0]]
    else if EscapeByte(p) as int < 0x80 then [EscapeByte(p) as char]
    else lib.high(HighRun(p))
  }

  /** unquote, on a well-escaped path. */
  function Decode(lib: Library, p: string): string
    decreases |p|
  {
    if p == "" then "" else Token(lib, p) + Decode(lib, p[TokenLength(p)..])
  }

  // ------------------------------------------------------------ canonicalize_route

  datatype Disposition = Excluded | Unresolved

  datatype Verdict =
    | Accepted(route: string)
    | Rejected(reason: string, disposition: Disposition)
    | Crash   // the ValueError of urlsplit, which no caller catches

  function Canonicalize(lib: Library, candidate: string): Verdict {
    if candidate == "" then Rejected("route is not a non-empty string", Unresolved)
    else
      match UrlSplit(lib, candidate)
      case None => Crash
      case Some(parsed) => CheckParts(lib, parsed)
  }

  function CheckParts(lib: Library, parsed: Parts): Verdict {
    if parsed.scheme then Rejected("scheme-not-allowed", Excluded)
    else if parsed.netloc != "" then Rejected("authority-not-allowed", Excluded)
    else if !WellEscaped(parsed.path) then Rejected("malformed-percent-encoding", Unresolved)
    else if HasEncodedSeparator(parsed.path) then Rejected("encoded-path-separator", Unresolved)
    else if parsed.query != "" then Rejected("query-variant", Unresolved)
    else if parsed.fragment != "" then Rejected("fragment-selector", Excluded)
    else CheckPath(Decode(lib, parsed.path))
  }

  function CheckPath(decoded: string): Verdict {
    if '\\' in decoded then Rejected("backslash", Unresolved)
    else if '\0' in decoded then Rejected("nul", Unresolved)
    else
      var path := DropSlash(decoded);
      if !StartsWith(path, "/") then Rejected("relative-uri", Unresolved)
      else if path != SERVICE_ROOT && !StartsWith(path, SERVICE_ROOT + "/") then
        Rejected("outside-redfish-v1", Excluded)
      else if path == SERVICE_ROOT then Accepted(path)
      else
        var segments := Split(path[|SERVICE_ROOT| + 1..], '/');
        if "" in segments then Rejected("empty-internal-segment", Unresolved)
        else if "." in segments then Rejected("dot-segment", Unresolved)
        else if ".." in segments then Rejected("dot-dot-segment", Unresolved)
        else Accepted(path)
  }

  /** One trailing slash is dropped. */
  function DropSlash(path: string): string {
    if path != "" && path[|path| - 1] == '/' then path[..|path| - 1] else path
  }

  // ------------------------------------------------------------ names derived from a route

  /** _forward_filename: the flat fixture name a route would have been captured under. */
  function ForwardFilename(route: string, suffix: string := ".json"): string {
    "_" + Replace(Strip(route, '/'), '/', '_') + suffix
  }

  function Terminal(xml: bool): string { if xml then "index.xml" else "index.json" }

  /** _destination_for_route: where the tree keeps a route. */
  function Destination(route: string, xml: bool): string
    requires StartsWith(route, SERVICE_ROOT)
  {
    var suffix := Strip(route[|SERVICE_ROOT|..], '/');
    if suffix != "" then suffix + "/" + Terminal(xml) else Terminal(xml)
  }
}
