/**
 * The ACME v1 client (`manuale/acme.py`): each protocol operation fetches a
 * fresh nonce, signs its payload, sends one request through `Acme.path`, and
 * classifies the response into a result or an error.
 */
module AcmeClient {
  import opened Wrappers
  import opened Links
  import opened Urls
  import opened Status
  import opened JsonValues
  import opened Jws
  import opened Http

  /** The account the client acts for; `register` records its URI. */
  class Account {
    const key: Key
    var uri: Option<string>

    constructor(key: Key, uri: Option<string>)
      ensures this.key == key && this.uri == uri
    {
      this.key := key;
      this.uri := uri;
    }
  }

  /** A caller's Python `dict` of registration fields, which `update_registration` may update in place. */
  class JsonDict {
    var entries: map<string, Json>

    constructor(entries: map<string, Json>)
      ensures this.entries == entries
    {
      this.entries := entries;
    }
  }

  datatype RegistrationResult = RegistrationResult(contents: Json, uri: Option<string>, terms: Option<string>)

  datatype NewAuthorizationResult = NewAuthorizationResult(contents: Json, uri: Option<string>)

  /**
   * The `intermediate` of an issuance: nothing when there is no `up` link,
   * the empty text for `<>`, otherwise the body fetched from the link.
   */
  datatype Intermediate = NoIssuer | EmptyIssuer | Fetched(certificate: seq<byte>)

  datatype IssuanceResult = IssuanceResult(certificate: seq<byte>, location: Option<string>, intermediate: Intermediate)

  /** What an `AcmeError` carries: the response, or the failed JSON decoding. */
  datatype Cause =
    | BadResponse(response: Response)
    | InvalidJsonResponse   // `_json`: "Invalid JSON response. ..."
    | JsonDecodeFailure     // `get_authorization`: the decoding exception itself

  /** Exceptions the client does not catch. */
  datatype Failure =
    | LinkWithoutBracket    // `ValueError` from `link.index('>')`
    | AccountWithoutUri     // `AttributeError` from `path(None)`

  /** How an operation ends: a result, one of the two client errors, or an uncaught exception. */
  datatype Outcome<T> =
    | Ok(value: T)
    | AcmeError(cause: Cause)
    | AccountAlreadyExists(response: Response, uri: Option<string>)
    | Raised(failure: Failure)

  /** `response.headers.get('Location')` */
  function Location(r: Response): Option<string> {
    HeaderValue(r, "Location")
  }

  /** `_get_link` as a value: `None`, the text, or the `ValueError`. */
  function LinkValue(r: LinkResult): Option<string> {
    match r
    case Link(u) => Some(u)
    case _ => None
  }

  /** `register`'s reading of the `new-reg` response. */
  function RegisterOutcome(r: Response): Outcome<RegistrationResult> {
    if IsCreated(r.status) then
      var terms := FindLink(HeaderValue(r, "Link"), "terms-of-service");
      if terms.MissingBracket? then Raised(LinkWithoutBracket)
      else match r.json
        case None => AcmeError(InvalidJsonResponse)
        case Some(contents) => Ok(RegistrationResult(contents, Location(r), LinkValue(terms)))
    else if r.status == Conflict then AccountAlreadyExists(r, Location(r))
    else AcmeError(BadResponse(r))
  }

  /** `account.uri` after `register`: set from `Location` on 201, before anything can fail. */
  function RegisteredUri(previous: Option<string>, r: Response): Option<string> {
    if IsCreated(r.status) then Location(r) else previous
  }

  /** `get_registration`'s reading: any 2-leading status, then `_json`. */
  function ReadOutcome(r: Response): Outcome<Json> {
    if IsSuccess(r.status) then
      match r.json
      case None => AcmeError(InvalidJsonResponse)
      case Some(contents) => Ok(contents)
    else AcmeError(BadResponse(r))
  }

  /** `update_registration` and `validate_authorization`: any 2-leading status is `True`. */
  function AcknowledgeOutcome(r: Response): Outcome<bool> {
    if IsSuccess(r.status) then Ok(true) else AcmeError(BadResponse(r))
  }

  /** `new_authorization`'s reading: 201, then `_json`. */
  function NewAuthorizationOutcome(r: Response): Outcome<NewAuthorizationResult> {
    if IsCreated(r.status) then
      match r.json
      case None => AcmeError(InvalidJsonResponse)
      case Some(contents) => Ok(NewAuthorizationResult(contents, Location(r)))
    else AcmeError(BadResponse(r))
  }

  /** `get_authorization`'s reading: the decoded body, whatever the status. */
  function AuthorizationOutcome(r: Response): Outcome<Json> {
    match r.json
    case None => AcmeError(JsonDecodeFailure)
    case Some(contents) => Ok(contents)
  }

  /** The `up` link of a `new-cert` response. */
  function IssuerLink(r: Response): LinkResult {
    FindLink(HeaderValue(r, "Link"), "up")
  }

  /** `issue_certificate` fetches the issuer exactly when the response is 201 and its `up` link is non-empty text. */
  predicate NeedsIssuer(r: Response) {
    IsCreated(r.status) && IssuerLink(r).Link? && IssuerLink(r).url != ""
  }

  /** `issue_certificate`'s reading; `issuer` is the body fetched from the `up` link, used only when one is fetched. */
  function IssueOutcome(r: Response, issuer: seq<byte>): Outcome<IssuanceResult> {
    if !IsCreated(r.status) then AcmeError(BadResponse(r))
    else match IssuerLink(r)
      case MissingBracket => Raised(LinkWithoutBracket)
      case NoLink => Ok(IssuanceResult(r.content, Location(r), NoIssuer))
      case Link(u) => Ok(IssuanceResult(r.content, Location(r), if u == "" then EmptyIssuer else Fetched(issuer)))
  }

  /** The `new-reg` payload. */
  function RegistrationPayload(email: string): map<string, Json> {
    map["resource" := JString("new-reg"), "contact" := JArray([JString("mailto:" + email)])]
  }

  /** The `get_registration` payload. */
  function ReadPayload(): map<string, Json> {
    map["resource" := JString("reg")]
  }

  /**
   * The `update_registration` payload: the caller's fields with `resource`
   * forced to `reg`; every other field is kept and none is added.
   */
  function UpdatePayload(params: map<string, Json>): (payload: map<string, Json>)
    ensures "resource" in payload && payload["resource"] == JString("reg")
    ensures forall k :: k in params && k != "resource" ==> k in payload && payload[k] == params[k]
    ensures forall k :: k in payload ==> k in params || k == "resource"
  {
    params["resource" := JString("reg")]
  }

  /** The `new-authz` payload. */
  function NewAuthorizationPayload(domain: string): map<string, Json> {
    map["resource" := JString("new-authz"),
        "identifier" := JObject(map["type" := JString("dns"), "value" := JString(domain)])]
  }

  /** The `challenge` payload. */
  function ChallengePayload(kind: string, keyAuthorization: string): map<string, Json> {
    map["resource" := JString("challenge"), "type" := JString(kind), "keyAuthorization" := JString(keyAuthorization)]
  }

  /** The `new-cert` payload. */
  function IssuePayload(csr: string): map<string, Json> {
    map["resource" := JString("new-cert"), "csr" := JString(csr)]
  }

  /** The extra header of the `new-cert` POST. */
  function AcceptCertificate(): map<string, string> {
    map["Accept" := "application/pkix-cert"]
  }

  /**
   * The client. `net` is the transport, `version` the release named in the
   * `User-Agent`, and `generateHeader` the JWS header generator.
   */
  class Acme {
    const url: string
    const account: Account
    const key: Key
    const net: Network
    const version: string
    const generateHeader: Key -> Header

    constructor(url: string, account: Account, net: Network, version: string, generateHeader: Key -> Header)
      ensures this.url == url && this.account == account && key == account.key
      ensures this.net == net && this.version == version && this.generateHeader == generateHeader
    {
      this.url := url;
      this.account := account;
      this.key := account.key;
      this.net := net;
      this.version := version;
      this.generateHeader := generateHeader;
    }

    /** `path`: the URL a request for `path` goes to, as the source resolves it against the directory URL. */
    function Path(path: string): Target {
      ResolveAsWritten(url, path)
    }

    /** The request `get(path, headers)` sends. */
    function GetRequest(path: string, headers: map<string, string>): Request {
      Request(Verb.Get, Path(path), RequestHeaders(Verb.Get, version, headers), None)
    }

    /** The request `post(path, body, headers)` sends. */
    function PostRequest(path: string, body: SignedRequest, headers: map<string, string>): Request {
      Request(Verb.Post, Path(path), RequestHeaders(Verb.Post, version, headers), Some(body))
    }

    /** The nonce fetch: a GET of `/directory`. */
    function NonceRequest(): Request {
      GetRequest("/directory", map[])
    }

    /** The body signed with the generated header and, in the protected header, the nonce `nonceResponse` carried. */
    function SignedBody(nonceResponse: Response, payload: map<string, Json>): SignedRequest {
      var header := generateHeader(key);
      SignedRequest(key, header, WithNonce(header, HeaderValue(nonceResponse, "Replay-Nonce")), payload)
    }

    /** The requests of a signed operation started after `log`: one nonce fetch, then one POST. */
    function SignedExchange(log: seq<Request>, path: string, payload: map<string, Json>, headers: map<string, string>): seq<Request> {
      var nonce := NonceRequest();
      [nonce, PostRequest(path, SignedBody(net.server(log + [nonce]), payload), headers)]
    }

    /** `get`: the default headers updated with the caller's, sent to the resolved path. */
    method Get(path: string, headers: map<string, string>) returns (response: Response)
      modifies net
      ensures net.log == old(net.log) + [GetRequest(path, headers)]
      ensures response == net.server(net.log)
    {
      var sent := DefaultHeaders(version);
      if |headers| > 0 {
        sent := sent + headers;
      }
      assert sent == RequestHeaders(Verb.Get, version, headers);
      response := net.Send(Request(Verb.Get, Path(path), sent, None));
    }

    /** `post`: the default headers plus `Content-Type`, updated with the caller's. */
    method Post(path: string, body: SignedRequest, headers: map<string, string>) returns (response: Response)
      modifies net
      ensures net.log == old(net.log) + [PostRequest(path, body, headers)]
      ensures response == net.server(net.log)
    {
      var sent := DefaultHeaders(version);
      sent := sent["Content-Type" := "application/json"];
      if |headers| > 0 {
        sent := sent + headers;
      }
      assert sent == RequestHeaders(Verb.Post, version, headers);
      response := net.Send(Request(Verb.Post, Path(path), sent, Some(body)));
    }

    /** `get_nonce`: the `Replay-Nonce` header of a fresh GET of `/directory`. */
    method GetNonce() returns (nonce: Option<string>)
      modifies net
      ensures net.log == old(net.log) + [NonceRequest()]
      ensures nonce == HeaderValue(net.server(net.log), "Replay-Nonce")
    {
      var response := Get("/directory", map[]);
      nonce := HeaderValue(response, "Replay-Nonce");
    }

    /** `get_headers`: the generated header, and a copy of it with the fresh nonce. */
    method GetHeaders() returns (header: Header, protected: Header)
      modifies net
      ensures net.log == old(net.log) + [NonceRequest()]
      ensures header == generateHeader(key)
      ensures protected == WithNonce(header, HeaderValue(net.server(net.log), "Replay-Nonce"))
    {
      header := generateHeader(key);
      protected := header;
      var nonce := GetNonce();
      protected := protected["nonce" := NonceValue(nonce)];
    }

    /** `register`: `new-reg` with the contact address; records the account URI on 201. */
    method Register(email: string) returns (out: Outcome<RegistrationResult>)
      modifies net, account
      ensures net.log == old(net.log) + SignedExchange(old(net.log), "/acme/new-reg", RegistrationPayload(email), map[])
      ensures out == RegisterOutcome(net.server(net.log))
      ensures account.uri == RegisteredUri(old(account.uri), net.server(net.log))
    {
      var header, protected := GetHeaders();
      var request := SignedRequest(key, header, protected, RegistrationPayload(email));
      var response := Post("/acme/new-reg", request, map[]);
      var uri := HeaderValue(response, "Location");
      if IsCreated(response.status) {
        account.uri := uri;
        var terms := GetLink(HeaderValue(response, "Link"), "terms-of-service");
        if terms.MissingBracket? {
          return Raised(LinkWithoutBracket);
        }
        match response.json {
          case None => return AcmeError(InvalidJsonResponse);
          case Some(contents) => return Ok(RegistrationResult(contents, uri, LinkValue(terms)));
        }
      } else if response.status == Conflict {
        return AccountAlreadyExists(response, uri);
      }
      return AcmeError(BadResponse(response));
    }

    /** `get_registration`: a `reg` POST to the account URI; `path(None)` raises when there is none. */
    method GetRegistration() returns (out: Outcome<Json>)
      modifies net
      ensures account.uri.None? ==> net.log == old(net.log) + [NonceRequest()] && out == Raised(AccountWithoutUri)
      ensures account.uri.Some? ==>
        && net.log == old(net.log) + SignedExchange(old(net.log), account.uri.value, ReadPayload(), map[])
        && out == ReadOutcome(net.server(net.log))
    {
      var header, protected := GetHeaders();
      var request := SignedRequest(key, header, protected, ReadPayload());
      if account.uri.None? {
        return Raised(AccountWithoutUri);
      }
      var response := Post(account.uri.value, request, map[]);
      if IsSuccess(response.status) {
        match response.json {
          case None => return AcmeError(InvalidJsonResponse);
          case Some(contents) => return Ok(contents);
        }
      }
      return AcmeError(BadResponse(response));
    }

    /**
     * `update_registration`: `params or {}` with `resource` set to `reg`. A
     * non-empty caller dict is updated in place; a missing or empty one is
     * replaced by a fresh dict and left as it is.
     */
    method UpdateRegistration(params: JsonDict?) returns (out: Outcome<bool>)
      modifies net, params
      ensures params != null && old(params.entries) != map[] ==> params.entries == UpdatePayload(old(params.entries))
      ensures params != null && old(params.entries) == map[] ==> params.entries == map[]
      ensures account.uri.None? ==> net.log == old(net.log) + [NonceRequest()] && out == Raised(AccountWithoutUri)
      ensures account.uri.Some? ==>
        && net.log == old(net.log) + SignedExchange(old(net.log), account.uri.value,
             UpdatePayload(if params != null then old(params.entries) else map[]), map[])
        && out == AcknowledgeOutcome(net.server(net.log))
    {
      var payload: map<string, Json>;
      if params != null && params.entries != map[] {
        params.entries := params.entries["resource" := JString("reg")];
        payload := params.entries;
      } else {
        payload := map["resource" := JString("reg")];
      }
      var header, protected := GetHeaders();
      var request := SignedRequest(key, header, protected, payload);
      if account.uri.None? {
        return Raised(AccountWithoutUri);
      }
      var response := Post(account.uri.value, request, map[]);
      if IsSuccess(response.status) {
        return Ok(true);
      }
      return AcmeError(BadResponse(response));
    }

    /** `new_authorization`: `new-authz` for a DNS identifier. */
    method NewAuthorization(domain: string) returns (out: Outcome<NewAuthorizationResult>)
      modifies net
      ensures net.log == old(net.log) + SignedExchange(old(net.log), "/acme/new-authz", NewAuthorizationPayload(domain), map[])
      ensures out == NewAuthorizationOutcome(net.server(net.log))
    {
      var header, protected := GetHeaders();
      var request := SignedRequest(key, header, protected, NewAuthorizationPayload(domain));
      var response := Post("/acme/new-authz", request, map[]);
      if IsCreated(response.status) {
        match response.json {
          case None => return AcmeError(InvalidJsonResponse);
          case Some(contents) => return Ok(NewAuthorizationResult(contents, Location(response)));
        }
      }
      return AcmeError(BadResponse(response));
    }

    /** `validate_authorization`: a `challenge` POST to the challenge URI. */
    method ValidateAuthorization(uri: string, kind: string, keyAuthorization: string) returns (out: Outcome<bool>)
      modifies net
      ensures net.log == old(net.log) + SignedExchange(old(net.log), uri, ChallengePayload(kind, keyAuthorization), map[])
      ensures out == AcknowledgeOutcome(net.server(net.log))
    {
      var header, protected := GetHeaders();
      var request := SignedRequest(key, header, protected, ChallengePayload(kind, keyAuthorization));
      var response := Post(uri, request, map[]);
      if IsSuccess(response.status) {
        return Ok(true);
      }
      return AcmeError(BadResponse(response));
    }

    /** `get_authorization`: one unsigned GET, no nonce, no status test. */
    method GetAuthorization(uri: string) returns (out: Outcome<Json>)
      modifies net
      ensures net.log == old(net.log) + [GetRequest(uri, map[])]
      ensures out == AuthorizationOutcome(net.server(net.log))
    {
      var response := Get(uri, map[]);
      match response.json {
        case None => return AcmeError(JsonDecodeFailure);
        case Some(contents) => return Ok(contents);
      }
    }

    /**
     * `issue_certificate`: `new-cert` accepting `application/pkix-cert`; on
     * 201 the issuer is fetched from the raw `up` link when that is non-empty.
     */
    method IssueCertificate(csr: string) returns (out: Outcome<IssuanceResult>)
      modifies net
      ensures var exchange := SignedExchange(old(net.log), "/acme/new-cert", IssuePayload(csr), AcceptCertificate());
        var response := net.server(old(net.log) + exchange);
        if NeedsIssuer(response) then
          && net.log == old(net.log) + exchange + [Request(Verb.Get, Raw(IssuerLink(response).url), DefaultHeaders(version), None)]
          && out == IssueOutcome(response, net.server(net.log).content)
        else
          && net.log == old(net.log) + exchange
          && out == IssueOutcome(response, [])
    {
      ghost var exchange := SignedExchange(net.log, "/acme/new-cert", IssuePayload(csr), AcceptCertificate());
      ghost var start := net.log;
      var header, protected := GetHeaders();
      assert net.log == start + [exchange[0]];
      var request := SignedRequest(key, header, protected, IssuePayload(csr));
      assert request == SignedBody(net.server(net.log), IssuePayload(csr));
      var response := Post("/acme/new-cert", request, AcceptCertificate());
      assert net.log == start + exchange && response == net.server(start + exchange);
      if IsCreated(response.status) {
        out := ReadIssuance(response);
        return;
      }
      return AcmeError(BadResponse(response));
    }

    /**
     * The 201 branch of `issue_certificate`: the `up` link of the response,
     * fetched with a raw GET and the default headers when it is non-empty text.
     */
    method ReadIssuance(response: Response) returns (out: Outcome<IssuanceResult>)
      requires IsCreated(response.status)
      modifies net
      ensures NeedsIssuer(response) ==>
        && net.log == old(net.log) + [Request(Verb.Get, Raw(IssuerLink(response).url), DefaultHeaders(version), None)]
        && out == IssueOutcome(response, net.server(net.log).content)
      ensures !NeedsIssuer(response) ==> net.log == old(net.log) && out == IssueOutcome(response, [])
    {
      var chain := GetLink(HeaderValue(response, "Link"), "up");
      assert chain == IssuerLink(response);
      if chain.MissingBracket? {
        return Raised(LinkWithoutBracket);
      }
      var intermediate := NoIssuer;
      if chain.Link? && chain.url != "" {
        var fetched := net.Send(Request(Verb.Get, Raw(chain.url), DefaultHeaders(version), None));
        intermediate := Fetched(fetched.content);
      } else if chain.Link? {
        intermediate := EmptyIssuer;
      }
      return Ok(IssuanceResult(response.content, Location(response), intermediate));
    }
  }
}
