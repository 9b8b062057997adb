/**
 * URL resolution as `Acme.path` performs it: `urlparse` to take the path of
 * an absolute input, `urljoin` to resolve a reference against the directory
 * URL. The two library functions follow CPython 3.12's `urllib.parse`; the
 * result of a resolution is kept as its six components (`urlunparse` is not
 * spelled out as text).
 */
module Urls {
  import opened Text

  /** The six components `urlparse` returns. */
  datatype Parts = Parts(scheme: string, netloc: string, path: string, params: string, query: string, fragment: string)

  /** What `urljoin` returns: one of its arguments unchanged, or a URL assembled from components. */
  datatype Target = Raw(url: string) | Resolved(parts: Parts)

  /** `urllib.parse.uses_relative`: schemes whose references resolve against a base. */
  const UsesRelative: set<string> := {"", "ftp", "http", "gopher", "nntp", "imap", "wais", "file", "https", "shttp",
    "mms", "prospero", "rtsp", "rtsps", "rtspu", "sftp", "svn", "svn+ssh", "ws", "wss"}

  /** `urllib.parse.uses_netloc`: schemes with an authority component. */
  const UsesNetloc: set<string> := {"", "ftp", "http", "gopher", "nntp", "telnet", "imap", "wais", "file", "mms",
    "https", "shttp", "snews", "prospero", "rtsp", "rtsps", "rtspu", "rsync", "svn", "svn+ssh", "sftp", "nfs",
    "git", "git+ssh", "ws", "wss", "itms-services"}

  /** `urllib.parse.uses_params`: schemes whose last path segment carries `;params`. */
  const UsesParams: set<string> := {"", "ftp", "hdl", "prospero", "http", "imap", "https", "shttp", "rtsp", "rtsps",
    "rtspu", "sip", "sips", "mms", "sftp", "tel"}

  predicate IsAsciiLetter(c: char) {
    'a' <= c <= 'z' || 'A' <= c <= 'Z'
  }

  /** `urllib.parse.scheme_chars` */
  predicate IsSchemeChar(c: char) {
    IsAsciiLetter(c) || '0' <= c <= '9' || c == '+' || c == '-' || c == '.'
  }

  predicate AllSchemeChars(s: string) {
    forall k :: 0 <= k < |s| ==> IsSchemeChar(s[k])
  }

  /** `url.lstrip(_WHATWG_C0_CONTROL_OR_SPACE)`: drop leading characters up to and including the space. */
  function StripControl(url: string): (r: string)
    ensures |r| <= |url| && r == url[|url| - |r|..]
    ensures r == [] || r[0] > ' '
  {
    if |url| > 0 && url[0] <= ' ' then StripControl(url[1..]) else url
  }

  /** The first steps of `urlsplit`: strip leading controls, then delete every tab, CR and LF. */
  function Sanitize(url: string): string {
    Remove(StripControl(url), {'\t', '\r', '\n'})
  }

  /**
   * The scheme test of `urlsplit`: a non-empty run of scheme characters,
   * starting with a letter, before the first `:`. Without one the default
   * scheme is used and the text is kept whole.
   */
  function SplitScheme(url: string, default: string): (string, string) {
    match Find(url, {':'})
    case None => (default, url)
    case Some(i) =>
      if i > 0 && IsAsciiLetter(url[0]) && AllSchemeChars(url[..i]) then (LowerAscii(url[..i]), url[i + 1..])
      else (default, url)
  }

  /** `_splitnetloc(url, 2)` after a leading `//`: the authority runs to the first `/`, `?` or `#`. */
  function SplitNetloc(url: string): (string, string) {
    if |url| >= 2 && url[..2] == "//" then
      match Find(url[2..], {'/', '?', '#'})
      case None => (url[2..], "")
      case Some(k) => (url[2..2 + k], url[2 + k..])
    else ("", url)
  }

  /** `url.split(c, 1)` when `c in url`, otherwise `url` and nothing. */
  function Cut(url: string, c: char): (r: (string, string))
    ensures c !in r.0 && StartsWith(url, r.0)
  {
    (Before(url, c), After(url, c))
  }

  /** `_splitparams`: `;params` after the last `/`, or after the start when there is no `/`. */
  function SplitParams(path: string): (r: (string, string))
    ensures StartsWith(path, r.0)
  {
    match FindLast(path, '/')
    case Some(j) =>
      (match Find(path[j..], {';'})
       case None => (path, "")
       case Some(k) => (path[..j + k], path[j + k + 1..]))
    case None =>
      (match Find(path, {';'})
       case None => (path, "")
       case Some(i) => (path[..i], path[i + 1..]))
  }

  /** `urlsplit(url, default)`, without the `ValueError`s it raises for malformed authorities. */
  function UrlSplit(url: string, default: string): (p: Parts)
    ensures '?' !in p.path && '#' !in p.path
  {
    var (scheme, rest) := SplitScheme(Sanitize(url), default);
    var (netloc, rest2) := SplitNetloc(rest);
    var (rest3, fragment) := Cut(rest2, '#');
    var (path, query) := Cut(rest3, '?');
    PrefixLacks(rest3, path, '#');
    Parts(scheme, netloc, path, "", query, fragment)
  }

  /** `urlparse(url, default)`: `urlsplit` plus the `;params` split for the schemes that use it. */
  function UrlParse(url: string, default: string): (r: Parts)
    ensures '?' !in r.path && '#' !in r.path
  {
    var p := UrlSplit(url, default);
    if p.scheme in UsesParams && ';' in p.path then
      var (path, params) := SplitParams(p.path);
      PrefixLacks(p.path, path, '?');
      PrefixLacks(p.path, path, '#');
      p.(path := path, params := params)
    else p
  }

  /** `urlparse(url).path`: the path alone, so it holds no query and no fragment. */
  function UrlPath(url: string): (p: string)
    ensures '?' !in p && '#' !in p
  {
    UrlParse(url, "").path
  }

  /** `segments[1:-1] = filter(None, segments[1:-1])`: drop empty inner segments. */
  function Compact(segments: seq<string>): seq<string> {
    if |segments| <= 1 then segments
    else [segments[0]] + NonEmpty(segments[1..|segments| - 1]) + [segments[|segments| - 1]]
  }

  function NonEmpty(segments: seq<string>): seq<string> {
    if |segments| == 0 then []
    else (if segments[0] == "" then [] else [segments[0]]) + NonEmpty(segments[1..])
  }

  /** The dot-segment loop of `urljoin`: `..` pops, `.` is skipped, anything else is pushed. */
  function RemoveDots(resolved: seq<string>, segments: seq<string>): seq<string>
    decreases |segments|
  {
    if |segments| == 0 then resolved
    else if segments[0] == ".." then RemoveDots(if |resolved| > 0 then resolved[..|resolved| - 1] else resolved, segments[1..])
    else if segments[0] == "." then RemoveDots(resolved, segments[1..])
    else RemoveDots(resolved + [segments[0]], segments[1..])
  }

  /** The dot segments removed, with a trailing empty segment when the path ended in `.` or `..`. */
  function ResolveDots(segments: seq<string>): seq<string> {
    var resolved := RemoveDots([], segments);
    if |segments| > 0 && (segments[|segments| - 1] == "." || segments[|segments| - 1] == "..") then resolved + [""]
    else resolved
  }

  /** The path `urljoin` builds from the base path and a non-empty reference path. */
  function MergePath(basePath: string, path: string): string {
    var baseParts := Split(basePath, '/');
    var directory := if baseParts[|baseParts| - 1] != "" then baseParts[..|baseParts| - 1] else baseParts;
    var segments := if StartsWith(path, "/") then Split(path, '/') else Compact(directory + Split(path, '/'));
    var resolved := ResolveDots(segments);
    var joined := if |resolved| == 0 then "" else Join(resolved, '/');
    if joined == "" then "/" else joined
  }

  /** The part of `urljoin` after the scheme tests: the reference's path, params and query over the base's. */
  function OntoBase(b: Parts, netloc: string, r: Parts): Target {
    if r.path == "" && r.params == "" then
      Resolved(Parts(r.scheme, netloc, b.path, b.params, if r.query == "" then b.query else r.query, r.fragment))
    else Resolved(Parts(r.scheme, netloc, MergePath(b.path, r.path), r.params, r.query, r.fragment))
  }

  /** `urljoin(base, url)` */
  function UrlJoin(base: string, url: string): Target {
    if base == "" then Raw(url)
    else if url == "" then Raw(base)
    else
      var b := UrlParse(base, "");
      var r := UrlParse(url, b.scheme);
      if r.scheme != b.scheme || r.scheme !in UsesRelative then Raw(url)
      else if r.scheme in UsesNetloc && r.netloc != "" then Resolved(r)
      else OntoBase(b, if r.scheme in UsesNetloc then b.netloc else r.netloc, r)
  }

  /** `Acme.path` as written: an input starting with `http` is replaced by its path, then joined. */
  function ResolveAsWritten(base: string, path: string): Target {
    if StartsWith(path, "http") then UrlJoin(base, UrlPath(path)) else UrlJoin(base, path)
  }

  /**
   * `Acme.path` as its comment intends: the path of an input starting with
   * `http` is resolved as a path on the base, never as a URL of its own.
   */
  function Resolve(base: string, path: string): Target {
    if !StartsWith(path, "http") then UrlJoin(base, path)
    else
      var p := UrlPath(path);
      if base == "" then Raw(p)
      else if p == "" then Raw(base)
      else
        var b := UrlParse(base, "");
        OntoBase(b, b.netloc, Parts(b.scheme, "", p, "", "", ""))
  }

  /** A target that is the base itself, or a URL with the base's scheme and authority. */
  predicate OnBase(t: Target, base: string) {
    match t
    case Raw(url) => url == base
    case Resolved(parts) => parts.scheme == UrlParse(base, "").scheme && parts.netloc == UrlParse(base, "").netloc
  }

  /** Text free of the characters that end a path in `urlsplit`/`urlparse`, and of those it deletes. */
  predicate NoDelimiters(s: string) {
    forall k :: 0 <= k < |s| ==> s[k] != '?' && s[k] != '#' && s[k] != ';' && s[k] != '\t' && s[k] != '\r' && s[k] != '\n'
  }

  /** A path reference `urljoin` resolves as an absolute path: one leading `/`, nothing to split off. */
  predicate PlainPath(p: string) {
    |p| > 0 && p[0] == '/' && !(|p| >= 2 && p[1] == '/') && NoDelimiters(p)
  }

  /** A scheme as `urlsplit` accepts it, already in lower case. */
  predicate PlainScheme(scheme: string) {
    |scheme| > 0 && IsAsciiLetter(scheme[0]) && AllSchemeChars(scheme)
    && forall k :: 0 <= k < |scheme| ==> !('A' <= scheme[k] <= 'Z')
  }

  /** An authority `_splitnetloc` takes whole. */
  predicate PlainHost(host: string) {
    forall k :: 0 <= k < |host| ==> host[k] != '/' && host[k] != '?' && host[k] != '#' && host[k] != '\t' && host[k] != '\r' && host[k] != '\n'
  }

  /** Text that starts with a visible character and holds no tab, CR or LF is not changed by sanitising. */
  lemma SanitizeClean(url: string)
    requires |url| > 0 && url[0] > ' '
    requires forall k :: 0 <= k < |url| ==> url[k] != '\t' && url[k] != '\r' && url[k] != '\n'
    ensures Sanitize(url) == url
  {
    RemoveAbsent(url, {'\t', '\r', '\n'});
  }

  /** A valid scheme before the first `:` is split off. */
  lemma SchemeSplit(scheme: string, rest: string, default: string)
    requires PlainScheme(scheme)
    ensures SplitScheme(scheme + ":" + rest, default) == (scheme, rest)
  {
    var url := scheme + ":" + rest;
    assert url[..|scheme|] == scheme;
    assert url[|scheme| + 1..] == rest;
    forall c | c in url[..|scheme|] ensures c !in {':'} {
      var k :| 0 <= k < |scheme| && scheme[k] == c;
    }
    FindFirst(url, {':'}, |scheme|);
    LowerAsciiLower(scheme);
  }

  /** Text that does not start with a letter has no scheme: the default is used. */
  lemma NoSchemeSplit(url: string, default: string)
    requires |url| > 0 && !IsAsciiLetter(url[0])
    ensures SplitScheme(url, default) == (default, url)
  {
  }

  /** After `//` the authority runs to the path. */
  lemma NetlocSplit(host: string, path: string)
    requires PlainHost(host)
    requires |path| > 0 && path[0] == '/'
    ensures SplitNetloc("//" + host + path) == (host, path)
  {
    var url := "//" + host + path;
    assert url[..2] == "//";
    assert url[2..] == host + path;
    forall c | c in (host + path)[..|host|] ensures c !in {'/', '?', '#'} {
      assert (host + path)[..|host|] == host;
    }
    assert (host + path)[|host|] == '/';
    FindFirst(host + path, {'/', '?', '#'}, |host|);
    assert url[2..2 + |host|] == host;
    assert url[2 + |host|..] == path;
  }

  /** Text that does not start with `//` has no authority. */
  lemma NoNetlocSplit(url: string)
    requires !(|url| >= 2 && url[..2] == "//")
    ensures SplitNetloc(url) == ("", url)
  {
  }

  /** A separator that does not occur cuts nothing off. */
  lemma CutAbsent(s: string, c: char)
    requires forall k :: 0 <= k < |s| ==> s[k] != c
    ensures Cut(s, c) == (s, "")
  {
  }

  /** Once scheme and authority are split off, a rest without delimiters is the whole path. */
  lemma ParseOf(url: string, default: string, scheme: string, netloc: string, rest: string, r0: string)
    requires SplitScheme(Sanitize(url), default) == (scheme, r0)
    requires SplitNetloc(r0) == (netloc, rest)
    requires NoDelimiters(rest)
    ensures UrlParse(url, default) == Parts(scheme, netloc, rest, "", "", "")
  {
    CutAbsent(rest, '#');
    CutAbsent(rest, '?');
  }

  /** `urlparse` of `scheme://host/path` gives those three components and nothing else. */
  lemma ParseAbsolute(scheme: string, host: string, path: string, default: string)
    requires PlainScheme(scheme) && PlainHost(host) && PlainPath(path)
    ensures UrlParse(scheme + "://" + host + path, default) == Parts(scheme, host, path, "", "", "")
  {
    var url := scheme + "://" + host + path;
    assert url == scheme + ":" + ("//" + host + path);
    forall k | 0 <= k < |url| ensures url[k] != '\t' && url[k] != '\r' && url[k] != '\n' {
      if k >= |scheme| + 3 + |host| {
        assert url[k] == path[k - |scheme| - 3 - |host|];
      } else if k >= |scheme| + 3 {
        assert url[k] == host[k - |scheme| - 3];
      } else if k < |scheme| {
        assert url[k] == scheme[k];
      }
    }
    SanitizeClean(url);
    SchemeSplit(scheme, "//" + host + path, default);
    NetlocSplit(host, path);
    ParseOf(url, default, scheme, host, path, "//" + host + path);
  }

  /** `urlparse` of a plain absolute path gives the path alone, under the default scheme. */
  lemma ParsePlainPath(p: string, default: string)
    requires PlainPath(p)
    ensures UrlParse(p, default) == Parts(default, "", p, "", "", "")
  {
    SanitizeClean(p);
    NoSchemeSplit(p, default);
    NoNetlocSplit(p);
    ParseOf(p, default, default, "", p, p);
  }

  /** `//host/path` is a network-path reference: it names its own authority. */
  lemma ParseNetworkPath(host: string, path: string, default: string)
    requires PlainHost(host) && PlainPath(path)
    ensures UrlParse("//" + host + path, default) == Parts(default, host, path, "", "", "")
  {
    var url := "//" + host + path;
    forall k | 0 <= k < |url| ensures url[k] != '\t' && url[k] != '\r' && url[k] != '\n' {
      if k >= 2 + |host| {
        assert url[k] == path[k - 2 - |host|];
      } else if k >= 2 {
        assert url[k] == host[k - 2];
      }
    }
    SanitizeClean(url);
    NoSchemeSplit(url, default);
    NetlocSplit(host, path);
    ParseOf(url, default, default, host, path, url);
  }

  /** `scheme:rest` without `//` after the colon has an empty authority and `rest` as its path. */
  lemma ParseOpaque(scheme: string, rest: string, default: string)
    requires PlainScheme(scheme) && NoDelimiters(rest)
    requires !(|rest| >= 2 && rest[..2] == "//")
    ensures UrlParse(scheme + ":" + rest, default) == Parts(scheme, "", rest, "", "", "")
  {
    var url := scheme + ":" + rest;
    forall k | 0 <= k < |url| ensures url[k] != '\t' && url[k] != '\r' && url[k] != '\n' {
      if k > |scheme| {
        assert url[k] == rest[k - |scheme| - 1];
      } else if k < |scheme| {
        assert url[k] == scheme[k];
      }
    }
    SanitizeClean(url);
    SchemeSplit(scheme, rest, default);
    NoNetlocSplit(rest);
    ParseOf(url, default, scheme, "", rest, rest);
  }

  /** Segments with no `.` or `..` among them. */
  predicate NoDotSegments(segments: seq<string>) {
    forall i :: 0 <= i < |segments| ==> segments[i] != "." && segments[i] != ".."
  }

  /** Without dot segments the loop keeps every segment in order. */
  lemma {:induction false} RemoveDotsKeeps(resolved: seq<string>, segments: seq<string>)
    requires NoDotSegments(segments)
    ensures RemoveDots(resolved, segments) == resolved + segments
    decreases |segments|
  {
    if |segments| > 0 {
      RemoveDotsKeeps(resolved + [segments[0]], segments[1..]);
      assert resolved + [segments[0]] + segments[1..] == resolved + segments;
    }
  }

  /** An absolute path without dot segments resolves to itself, whatever the base path. */
  lemma MergeAbsolute(basePath: string, path: string)
    requires |path| > 0 && path[0] == '/'
    requires NoDotSegments(Split(path, '/'))
    ensures MergePath(basePath, path) == path
  {
    var segments := Split(path, '/');
    assert StartsWith(path, "/");
    RemoveDotsKeeps([], segments);
    assert [] + segments == segments;
    JoinSplit(path, '/');
  }

  /**
   * The corrected `Acme.path`: an input starting with `http` lands on the
   * base's scheme and authority, and none of its query or fragment survives.
   */
  lemma ResolveStaysOnBase(base: string, path: string)
    requires base != "" && StartsWith(path, "http")
    ensures OnBase(Resolve(base, path), base)
    ensures Resolve(base, path).Resolved? ==> var parts := Resolve(base, path).parts;
      parts.params == "" && parts.query == "" && parts.fragment == ""
      && parts.path == MergePath(UrlParse(base, "").path, UrlPath(path))
  {
  }

  /** The absolute-path case of RFC 3986 section 5.2.2: the base's scheme and authority with the input's path. */
  lemma ResolveAbsolutePath(base: string, path: string)
    requires base != "" && StartsWith(path, "http")
    requires |UrlPath(path)| > 0 && UrlPath(path)[0] == '/'
    requires NoDotSegments(Split(UrlPath(path), '/'))
    ensures var b := UrlParse(base, "");
      Resolve(base, path) == Resolved(Parts(b.scheme, b.netloc, UrlPath(path), "", "", ""))
  {
    MergeAbsolute(UrlParse(base, "").path, UrlPath(path));
  }

  /**
   * The correction changes nothing else: inputs not starting with `http`, and
   * inputs whose path is a plain absolute path, resolve as the source resolves them.
   */
  lemma ResolveAgrees(base: string, path: string)
    requires UrlParse(base, "").scheme in UsesRelative
    requires StartsWith(path, "http") ==> PlainPath(UrlPath(path))
    ensures Resolve(base, path) == ResolveAsWritten(base, path)
  {
    if StartsWith(path, "http") && base != "" {
      var p := UrlPath(path);
      var b := UrlParse(base, "");
      ParsePlainPath(p, b.scheme);
      assert b.scheme in UsesNetloc;
    }
  }

  /**
   * The absolute-path case of `urljoin` (RFC 3986 section 5.2.2): a plain
   * absolute path without dot segments keeps the base's scheme and authority
   * and replaces its path, params, query and fragment. Every endpoint the
   * client names (`/directory`, `/acme/new-reg`, ...) is such a reference.
   */
  lemma AbsolutePathRef(base: string, p: string)
    requires base != ""
    requires UrlParse(base, "").scheme in UsesRelative && UrlParse(base, "").scheme in UsesNetloc
    requires PlainPath(p) && NoDotSegments(Split(p, '/'))
    ensures var b := UrlParse(base, "");
      ResolveAsWritten(base, p) == UrlJoin(base, p) == Resolved(Parts(b.scheme, b.netloc, p, "", "", ""))
  {
    var b := UrlParse(base, "");
    ParsePlainPath(p, b.scheme);
    MergeAbsolute(b.path, p);
  }

  /** The two schemes the client deals in are plain. */
  lemma WebSchemes()
    ensures PlainScheme("http") && PlainScheme("https")
    ensures "http" in UsesParams && "https" in UsesRelative && "https" in UsesNetloc
  {
  }

  /** `urljoin` takes a reference that names an authority under the base's scheme as it stands. */
  lemma JoinNamesAuthority(base: string, ref: string, r: Parts)
    requires base != "" && ref != ""
    requires UrlParse(ref, UrlParse(base, "").scheme) == r
    requires r.scheme == UrlParse(base, "").scheme && r.scheme in UsesRelative && r.scheme in UsesNetloc
    requires r.netloc != ""
    ensures UrlJoin(base, ref) == Resolved(r)
  {
  }

  /** Joining text without delimiters gives text without delimiters. */
  lemma DelimitersConcat(a: string, b: string)
    requires NoDelimiters(a) && NoDelimiters(b)
    ensures NoDelimiters(a + b)
  {
    forall k | 0 <= k < |a + b| ensures (a + b)[k] == if k < |a| then a[k] else b[k - |a|] {
    }
  }

  /** `urlparse("http:https://host/path").path` is `https://host/path`. */
  lemma SchemeInPath(host: string, path: string)
    requires PlainHost(host) && NoDelimiters(host) && PlainPath(path)
    ensures UrlPath("http:https://" + host + path) == "https" + "://" + host + path
  {
    var rest := "https" + "://" + host + path;
    assert "https" + "://" == "https://";
    assert "http:https://" + host + path == "http" + ":" + rest;
    assert NoDelimiters("https://");
    DelimitersConcat("https://", host);
    DelimitersConcat("https://" + host, path);
    assert rest[..2] == "ht";
    WebSchemes();
    ParseOpaque("http", rest, "");
  }

  /** `urlparse("http:////host/path").path` is `//host/path`. */
  lemma NetworkPathInPath(host: string, path: string)
    requires PlainHost(host) && NoDelimiters(host) && PlainPath(path)
    ensures UrlPath("http:////" + host + path) == "//" + host + path
  {
    var inner := "//" + host + path;
    var url := "http:////" + host + path;
    assert url == "http:" + "//" + inner;
    assert "http:" + "//" + inner == "http" + ":" + ("//" + "" + inner);
    assert NoDelimiters("//") && NoDelimiters("http:") && NoDelimiters("http:" + "//");
    DelimitersConcat("//", host);
    DelimitersConcat("//" + host, path);
    DelimitersConcat("http:" + "//", inner);
    SanitizeClean(url);
    WebSchemes();
    SchemeSplit("http", "//" + "" + inner, "");
    NetlocSplit("", inner);
    ParseOf(url, "", "http", "", inner, "//" + "" + inner);
  }

  /** An input that starts with the literal `lead` followed by a host and a path starts with `http`. */
  lemma StartsWithHttp(lead: string, host: string, path: string)
    requires StartsWith(lead, "http")
    ensures StartsWith(lead + host + path, "http")
  {
    StartsWithExtend(lead, host, "http");
    StartsWithExtend(lead + host, path, "http");
  }

  /**
   * Source behaviour: `http:https://host/path` has the urlparse path
   * `https://host/path`, which `urljoin` takes as a URL of its own.
   */
  lemma AsWrittenSchemeInPath(base: string, host: string, path: string)
    requires base != "" && UrlParse(base, "").scheme == "https"
    requires host != "" && PlainHost(host) && NoDelimiters(host) && PlainPath(path)
    ensures ResolveAsWritten(base, "http:https://" + host + path) == Resolved(Parts("https", host, path, "", "", ""))
  {
    var input := "http:https://" + host + path;
    var p := "https" + "://" + host + path;
    SchemeInPath(host, path);
    assert "http:https://"[..4] == "http";
    StartsWithHttp("http:https://", host, path);
    assert ResolveAsWritten(base, input) == UrlJoin(base, p);
    WebSchemes();
    ParseAbsolute("https", host, path, "https");
    JoinNamesAuthority(base, p, Parts("https", host, path, "", "", ""));
  }

  /**
   * Source behaviour: `http:////host/path` has the urlparse path
   * `//host/path`, a network-path reference that names its own authority.
   */
  lemma AsWrittenNetworkPath(base: string, host: string, path: string)
    requires base != "" && UrlParse(base, "").scheme == "https"
    requires host != "" && PlainHost(host) && NoDelimiters(host) && PlainPath(path)
    ensures ResolveAsWritten(base, "http:////" + host + path) == Resolved(Parts("https", host, path, "", "", ""))
  {
    var input := "http:////" + host + path;
    var p := "//" + host + path;
    NetworkPathInPath(host, path);
    assert "http:////"[..4] == "http";
    StartsWithHttp("http:////", host, path);
    assert ResolveAsWritten(base, input) == UrlJoin(base, p);
    ParseNetworkPath(host, path, "https");
    WebSchemes();
    JoinNamesAuthority(base, p, Parts("https", host, path, "", "", ""));
  }

  /** `urlparse("https://host//evil/path").path` is `//evil/path`: the authority ends at the first `/`. */
  lemma DoubleSlashInPath(host: string, evil: string, path: string)
    requires PlainHost(host) && NoDelimiters(host) && PlainHost(evil) && NoDelimiters(evil) && PlainPath(path)
    ensures UrlPath("https" + "://" + host + "//" + evil + path) == "//" + evil + path
  {
    var rest := "//" + evil + path;
    var after := "//" + host + rest;
    var url := "https" + "://" + host + "//" + evil + path;
    assert url == "https" + ":" + after;
    assert NoDelimiters("//") && NoDelimiters("https" + ":");
    DelimitersConcat("//", evil);
    DelimitersConcat("//" + evil, path);
    DelimitersConcat("//", host);
    DelimitersConcat("//" + host, rest);
    DelimitersConcat("https" + ":", after);
    assert url[0] == 'h';
    SanitizeClean(url);
    WebSchemes();
    SchemeSplit("https", after, "");
    NetlocSplit(host, rest);
    ParseOf(url, "", "https", host, rest, after);
  }

  /** An `https` URL starts with `http`. */
  lemma HttpsStartsWithHttp(host: string, evil: string, path: string)
    ensures StartsWith("https" + "://" + host + "//" + evil + path, "http")
  {
    assert ("https" + "://")[..4] == "http";
    StartsWithExtend("https" + "://", host, "http");
    StartsWithExtend("https" + "://" + host, "//", "http");
    StartsWithExtend("https" + "://" + host + "//", evil, "http");
    StartsWithExtend("https" + "://" + host + "//" + evil, path, "http");
  }

  /**
   * Source behaviour: an absolute URL whose path starts with `//`,
   * `https://host//evil/path`, has the urlparse path `//evil/path`, a
   * network-path reference that names `evil` as its authority.
   */
  lemma AsWrittenDoubleSlash(base: string, host: string, evil: string, path: string)
    requires base != "" && UrlParse(base, "").scheme == "https"
    requires PlainHost(host) && NoDelimiters(host)
    requires evil != "" && PlainHost(evil) && NoDelimiters(evil) && PlainPath(path)
    ensures ResolveAsWritten(base, "https" + "://" + host + "//" + evil + path) == Resolved(Parts("https", evil, path, "", "", ""))
  {
    var input := "https" + "://" + host + "//" + evil + path;
    var p := "//" + evil + path;
    DoubleSlashInPath(host, evil, path);
    HttpsStartsWithHttp(host, evil, path);
    assert ResolveAsWritten(base, input) == UrlJoin(base, p);
    ParseNetworkPath(evil, path, "https");
    WebSchemes();
    JoinNamesAuthority(base, p, Parts("https", evil, path, "", "", ""));
  }
}
