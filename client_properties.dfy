/** What the client's operations promise, stated over the classifiers and request sequences they are proved against. */
module ClientProperties {
  import opened Wrappers
  import opened Text
  import opened Links
  import opened LinkExamples
  import opened Urls
  import opened UrlExamples
  import opened Status
  import opened JsonValues
  import opened Jws
  import opened Http
  import opened AcmeClient

  /**
   * `register`: a result only on 201 with a readable body and a well-formed
   * terms link, carrying the URI the account now holds; 409 is
   * `AccountAlreadyExists` with `Location` and leaves the account as it was;
   * every other status is an `AcmeError` with the response.
   */
  lemma RegisterOutcomes(r: Response, previous: Option<string>)
    ensures RegisterOutcome(r).Ok?
      <==> r.status == Created && r.json.Some? && !FindLink(HeaderValue(r, "Link"), "terms-of-service").MissingBracket?
    ensures RegisterOutcome(r).Ok? ==>
      && RegisterOutcome(r).value.uri == Location(r) == RegisteredUri(previous, r)
      && RegisterOutcome(r).value.contents == r.json.value
      && RegisterOutcome(r).value.terms == LinkValue(FindLink(HeaderValue(r, "Link"), "terms-of-service"))
    ensures RegisterOutcome(r).AccountAlreadyExists? <==> r.status == Conflict
    ensures r.status == Conflict ==>
      RegisterOutcome(r) == AccountAlreadyExists(r, Location(r)) && RegisteredUri(previous, r) == previous
    ensures r.status != Created && r.status != Conflict <==> RegisterOutcome(r) == AcmeError(BadResponse(r))
  {
  }

  /** `register` sets the account URI before decoding the body: a 201 with an unreadable body still records it. */
  lemma RegisterUriBeforeJson(r: Response, previous: Option<string>)
    requires r.status == Created && r.json.None?
    requires !FindLink(HeaderValue(r, "Link"), "terms-of-service").MissingBracket?
    ensures RegisterOutcome(r) == AcmeError(InvalidJsonResponse)
    ensures RegisteredUri(previous, r) == Location(r)
  {
  }

  /**
   * `get_registration`: the response is rejected exactly when its status
   * does not start with 2, which for three-digit codes is outside 200..299.
   */
  lemma ReadOutcomes(r: Response)
    ensures ReadOutcome(r) == AcmeError(BadResponse(r)) <==> !IsSuccess(r.status)
    ensures ReadOutcome(r).Ok? <==> IsSuccess(r.status) && r.json.Some?
    ensures 100 <= r.status <= 999 ==> (ReadOutcome(r) == AcmeError(BadResponse(r)) <==> !(200 <= r.status <= 299))
  {
    if 100 <= r.status <= 999 {
      SuccessThreeDigits(r.status);
    }
  }

  /** `update_registration` and `validate_authorization`: `True` exactly on a 2xx status; otherwise the response as an `AcmeError`. */
  lemma AcknowledgeOutcomes(r: Response)
    ensures AcknowledgeOutcome(r) == Ok(true) || AcknowledgeOutcome(r) == AcmeError(BadResponse(r))
    ensures 100 <= r.status <= 999 ==> (AcknowledgeOutcome(r) == Ok(true) <==> 200 <= r.status <= 299)
  {
    if 100 <= r.status <= 999 {
      SuccessThreeDigits(r.status);
    }
  }

  /** The creation calls succeed only on 201; any other status is an `AcmeError` carrying the response. */
  lemma CreationNeeds201(r: Response, issuer: seq<byte>)
    ensures RegisterOutcome(r).Ok? || NewAuthorizationOutcome(r).Ok? || IssueOutcome(r, issuer).Ok? ==> r.status == Created
    ensures r.status != Created ==>
      && NewAuthorizationOutcome(r) == AcmeError(BadResponse(r))
      && IssueOutcome(r, issuer) == AcmeError(BadResponse(r))
  {
  }

  /** A 2xx status other than 201 (200 or 202, say) is accepted by reads and updates but rejected by creation calls. */
  lemma CreationStricterThanUpdate(r: Response, issuer: seq<byte>)
    requires 200 <= r.status <= 299 && r.status != Created
    ensures AcknowledgeOutcome(r) == Ok(true)
    ensures ReadOutcome(r) != AcmeError(BadResponse(r))
    ensures NewAuthorizationOutcome(r) == AcmeError(BadResponse(r))
    ensures IssueOutcome(r, issuer) == AcmeError(BadResponse(r))
    ensures RegisterOutcome(r) == AcmeError(BadResponse(r))
  {
    SuccessThreeDigits(r.status);
  }

  /** `get_authorization` does not look at the status: only whether the body decodes. */
  lemma AuthorizationIgnoresStatus(r: Response, status: int)
    ensures AuthorizationOutcome(r.(status := status)) == AuthorizationOutcome(r)
    ensures AuthorizationOutcome(r).Ok? <==> r.json.Some?
    ensures r.json.None? ==> AuthorizationOutcome(r) == AcmeError(JsonDecodeFailure)
  {
  }

  /**
   * `issue_certificate` on 201: the certificate is the response body and the
   * location its `Location`; the issuer is fetched exactly when the `up` link
   * is non-empty text, and is otherwise absent or the empty text.
   */
  lemma IssueOutcomes(r: Response, issuer: seq<byte>)
    requires r.status == Created && !IssuerLink(r).MissingBracket?
    ensures IssueOutcome(r, issuer).Ok?
    ensures IssueOutcome(r, issuer).value.certificate == r.content
    ensures IssueOutcome(r, issuer).value.location == Location(r)
    ensures NeedsIssuer(r) <==> IssueOutcome(r, issuer).value.intermediate == Fetched(issuer)
    ensures IssuerLink(r).NoLink? <==> IssueOutcome(r, issuer).value.intermediate == NoIssuer
    ensures IssuerLink(r) == Link("") <==> IssueOutcome(r, issuer).value.intermediate == EmptyIssuer
  {
  }

  /** A malformed `up` or terms link on 201 escapes as the `ValueError` of `_get_link`. */
  lemma MalformedLinkRaises(r: Response, issuer: seq<byte>)
    requires r.status == Created
    ensures IssuerLink(r).MissingBracket? <==> IssueOutcome(r, issuer) == Raised(LinkWithoutBracket)
    ensures FindLink(HeaderValue(r, "Link"), "terms-of-service").MissingBracket?
      <==> RegisterOutcome(r) == Raised(LinkWithoutBracket)
  {
  }

  /**
   * The certificate response of the terms-and-issuer example: its `up`
   * link is `https://ca.example/issuer`, so the issuer is fetched from there.
   */
  lemma IssuerFetchExample(r: Response, terms: string, issuer: string, account: string, url: string, body: seq<byte>)
    requires account == "https://ca.example/acct/1" && url == "https://ca.example/issuer"
    requires terms == "<" + account + ">;rel=\"terms-of-service\""
    requires issuer == "<" + url + ">;rel=\"up\""
    requires r.status == Created && "Link" in r.headers && r.headers["Link"] == terms + ", " + issuer
    ensures NeedsIssuer(r) && IssuerLink(r) == Link(url)
    ensures IssueOutcome(r, body).Ok? && IssueOutcome(r, body).value.intermediate == Fetched(body)
  {
    IssuerExample(terms, issuer, account, url);
    assert HeaderValue(r, "Link") == Some(terms + ", " + issuer);
  }

  /** `update_registration` with no fields or an empty dict signs exactly `{'resource': 'reg'}`. */
  lemma UpdatePayloadOfNothing()
    ensures UpdatePayload(map[]) == map["resource" := JString("reg")]
  {
  }

  /**
   * A signed exchange is exactly two requests: a GET of `/directory`, then
   * one POST signed with the generated header, whose protected copy carries
   * the `Replay-Nonce` of that GET's response.
   */
  lemma SignedExchangeShape(acme: Acme, log: seq<Request>, path: string, payload: map<string, Json>, headers: map<string, string>)
    ensures var exchange := acme.SignedExchange(log, path, payload, headers);
      && |exchange| == 2
      && exchange[0].verb == Verb.Get && exchange[0].body.None?
      && exchange[0].url == acme.Path("/directory")
      && exchange[1].verb == Verb.Post && exchange[1].body.Some?
      && exchange[1].url == acme.Path(path)
      && exchange[1].headers == RequestHeaders(Verb.Post, acme.version, headers)
      && var signed := exchange[1].body.value;
      && signed.key == acme.key && signed.payload == payload
      && signed.header == acme.generateHeader(acme.key)
      && signed.protected == WithNonce(signed.header, HeaderValue(acme.net.server(log + [exchange[0]]), "Replay-Nonce"))
  {
  }

  /**
   * `path` equals the correction on inputs that do not start with `http` and
   * on `http` inputs whose path is a plain absolute path; such an `http`
   * input then stays on the directory URL's scheme and authority.
   */
  lemma PathAgreesOnPlainPaths(acme: Acme, path: string)
    requires UrlParse(acme.url, "").scheme in UsesRelative
    requires StartsWith(path, "http") ==> PlainPath(UrlPath(path))
    ensures acme.Path(path) == Resolve(acme.url, path)
    ensures acme.url != "" && StartsWith(path, "http") ==> OnBase(acme.Path(path), acme.url)
  {
    ResolveAgrees(acme.url, path);
    if acme.url != "" && StartsWith(path, "http") {
      ResolveStaysOnBase(acme.url, path);
    }
  }

  /**
   * `path` on an absolute-path reference: the request goes to the directory
   * URL's scheme and authority, with the reference as its whole path.
   */
  lemma PathOfAbsolutePath(acme: Acme, p: string)
    requires acme.url != ""
    requires UrlParse(acme.url, "").scheme in UsesRelative && UrlParse(acme.url, "").scheme in UsesNetloc
    requires PlainPath(p) && NoDotSegments(Split(p, '/'))
    ensures var b := UrlParse(acme.url, "");
      acme.Path(p) == Resolved(Parts(b.scheme, b.netloc, p, "", "", ""))
    ensures OnBase(acme.Path(p), acme.url)
  {
    AbsolutePathRef(acme.url, p);
  }

  /**
   * The endpoints the client names, `/directory`, `/acme/new-reg`,
   * `/acme/new-authz` and `/acme/new-cert`, are requested on the directory
   * URL's scheme and authority with their path unchanged.
   */
  lemma EndpointsOnDirectory(acme: Acme, p: string)
    requires acme.url != ""
    requires UrlParse(acme.url, "").scheme in UsesRelative && UrlParse(acme.url, "").scheme in UsesNetloc
    requires p == "/directory" || p == "/acme/new-reg" || p == "/acme/new-authz" || p == "/acme/new-cert"
    ensures var b := UrlParse(acme.url, "");
      acme.Path(p) == Resolved(Parts(b.scheme, b.netloc, p, "", "", ""))
  {
    EndpointSegments(p);
    PathOfAbsolutePath(acme, p);
  }

  /**
   * `path` as the client uses it sends a request for a URL on the directory
   * host itself, or for an `http`-prefixed text, to another host.
   */
  lemma PathLeavesDirectory(acme: Acme)
    requires acme.url == "https://ca.example/"
    ensures acme.Path("https://ca.example//attacker.example/x") == Resolved(Parts("https", "attacker.example", "/x", "", "", ""))
    ensures acme.Path("http:https://attacker.example/x") == Resolved(Parts("https", "attacker.example", "/x", "", "", ""))
    ensures !OnBase(acme.Path("https://ca.example//attacker.example/x"), acme.url)
  {
    DoubleSlashExample(acme.url, "https://ca.example//attacker.example/x");
    SchemeInPathExample(acme.url, "http:https://attacker.example/x");
  }
}
