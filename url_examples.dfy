/** Worked examples of `Acme.path` against the directory URL `https://ca.example/`. */
module UrlExamples {
  import opened Text
  import opened Urls

  /** The host names and paths used below are plain. */
  lemma Pieces()
    ensures PlainHost("ca.example") && NoDelimiters("ca.example")
    ensures PlainHost("attacker.example") && NoDelimiters("attacker.example")
    ensures PlainPath("/") && PlainPath("/x") && PlainPath("/acme/new-authz")
  {
  }

  /** The directory URL parses into scheme `https`, authority `ca.example` and path `/`. */
  lemma CaBase(base: string)
    requires base == "https://ca.example/"
    ensures UrlParse(base, "") == Parts("https", "ca.example", "/", "", "", "")
  {
    Pieces();
    WebSchemes();
    assert base == "https" + "://" + "ca.example" + "/";
    ParseAbsolute("https", "ca.example", "/", "");
  }

  /** `http:https://attacker.example/x` leaves the directory host as written, and stays on it once corrected. */
  lemma SchemeInPathExample(base: string, input: string)
    requires base == "https://ca.example/"
    requires input == "http:https://attacker.example/x"
    ensures ResolveAsWritten(base, input) == Resolved(Parts("https", "attacker.example", "/x", "", "", ""))
    ensures !OnBase(ResolveAsWritten(base, input), base)
    ensures OnBase(Resolve(base, input), base)
  {
    Pieces();
    CaBase(base);
    SchemeInPathInput(input);
    AsWrittenSchemeInPath(base, "attacker.example", "/x");
    ResolveStaysOnBase(base, input);
  }

  /** `http:////attacker.example/x` leaves the directory host as written, and stays on it once corrected. */
  lemma NetworkPathExample(base: string, input: string)
    requires base == "https://ca.example/"
    requires input == "http:////attacker.example/x"
    ensures ResolveAsWritten(base, input) == Resolved(Parts("https", "attacker.example", "/x", "", "", ""))
    ensures !OnBase(ResolveAsWritten(base, input), base)
    ensures OnBase(Resolve(base, input), base)
  {
    Pieces();
    CaBase(base);
    NetworkPathInput(input);
    AsWrittenNetworkPath(base, "attacker.example", "/x");
    ResolveStaysOnBase(base, input);
  }

  /**
   * `https://ca.example//attacker.example/x`, a URL on the directory host
   * itself, leaves that host as written, and stays on it once corrected.
   */
  lemma DoubleSlashExample(base: string, input: string)
    requires base == "https://ca.example/"
    requires input == "https://ca.example//attacker.example/x"
    ensures ResolveAsWritten(base, input) == Resolved(Parts("https", "attacker.example", "/x", "", "", ""))
    ensures !OnBase(ResolveAsWritten(base, input), base)
    ensures OnBase(Resolve(base, input), base)
  {
    Pieces();
    CaBase(base);
    DoubleSlashInput(input);
    AsWrittenDoubleSlash(base, "ca.example", "attacker.example", "/x");
    ResolveStaysOnBase(base, input);
  }

  /** A path of one separator-free segment, `/a`, is plain and splits into an empty segment and `a`. */
  lemma OneSegment(a: string)
    requires NoDelimiters(a) && '/' !in a && a != "." && a != ".."
    ensures PlainPath("/" + a) && NoDotSegments(Split("/" + a, '/'))
  {
    DelimitersConcat("/", a);
    assert "/" + a == "" + ['/'] + a;
    SplitTwo("", a, '/');
  }

  /** A path of two separator-free segments, `/a/b`, is plain and splits into an empty segment, `a` and `b`. */
  lemma TwoSegments(a: string, b: string)
    requires a != "" && NoDelimiters(a) && NoDelimiters(b)
    requires '/' !in a && '/' !in b && a != "." && a != ".." && b != "." && b != ".."
    ensures PlainPath("/" + a + "/" + b) && NoDotSegments(Split("/" + a + "/" + b, '/'))
  {
    var p := "/" + a + "/" + b;
    DelimitersConcat("/" + a, "/" + b);
    assert p == "/" + a + ("/" + b);
    var parts := ["", a, b];
    assert Join(parts[1..], '/') == a + ['/'] + Join(parts[2..], '/');
    assert Join(parts, '/') == "" + ['/'] + (a + ['/'] + b);
    assert Join(parts, '/') == p;
    SplitJoin(parts, '/');
  }

  /**
   * The endpoints the client names, `/directory`, `/acme/new-reg`,
   * `/acme/new-authz` and `/acme/new-cert`, are plain absolute paths
   * without dot segments.
   */
  lemma EndpointSegments(p: string)
    requires p == "/directory" || p == "/acme/new-reg" || p == "/acme/new-authz" || p == "/acme/new-cert"
    ensures PlainPath(p) && NoDotSegments(Split(p, '/'))
  {
    if p == "/directory" {
      assert p == "/" + "directory";
      OneSegment("directory");
    } else if p == "/acme/new-reg" {
      assert p == "/" + "acme" + "/" + "new-reg";
      TwoSegments("acme", "new-reg");
    } else if p == "/acme/new-authz" {
      assert p == "/" + "acme" + "/" + "new-authz";
      TwoSegments("acme", "new-authz");
    } else {
      assert p == "/" + "acme" + "/" + "new-cert";
      TwoSegments("acme", "new-cert");
    }
  }

  /**
   * An absolute URL on another host, `https://attacker.example/acme/new-authz`,
   * is resolved to the same path on the directory host, by the source and by the correction alike.
   */
  lemma AbsoluteUrlExample(base: string, input: string)
    requires base == "https://ca.example/"
    requires input == "https://attacker.example/acme/new-authz"
    ensures Resolve(base, input) == ResolveAsWritten(base, input)
    ensures Resolve(base, input) == Resolved(Parts("https", "ca.example", "/acme/new-authz", "", "", ""))
  {
    Pieces();
    WebSchemes();
    CaBase(base);
    AbsoluteUrlInput(input);
    ParseAbsolute("https", "attacker.example", "/acme/new-authz", "");
    EndpointSegments("/acme/new-authz");
    ResolveAbsolutePath(base, input);
    ResolveAgrees(base, input);
  }

  /** The first input, cut into scheme text, host and path. */
  lemma SchemeInPathInput(input: string)
    requires input == "http:https://attacker.example/x"
    ensures input == "http:https://" + "attacker.example" + "/x" && StartsWith(input, "http")
  {
  }

  /** The second input, cut into the `http:////` lead, host and path. */
  lemma NetworkPathInput(input: string)
    requires input == "http:////attacker.example/x"
    ensures input == "http:////" + "attacker.example" + "/x" && StartsWith(input, "http")
  {
  }

  /** The absolute URL, cut into scheme, separator, host and path. */
  lemma AbsoluteUrlInput(input: string)
    requires input == "https://attacker.example/acme/new-authz"
    ensures input == "https" + "://" + "attacker.example" + "/acme/new-authz" && StartsWith(input, "http")
  {
  }

  /** The double-slash input, cut into scheme, separator, host, `//`, host and path. */
  lemma DoubleSlashInput(input: string)
    requires input == "https://ca.example//attacker.example/x"
    ensures input == "https" + "://" + "ca.example" + "//" + "attacker.example" + "/x" && StartsWith(input, "http")
  {
  }
}
