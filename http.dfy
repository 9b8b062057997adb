/**
 * The HTTP side of the client: requests as the client sends them, responses
 * as it reads them, and a transport that answers each request from the
 * history of requests so far and keeps that history.
 */
module Http {
  import opened Wrappers
  import opened JsonValues
  import opened Jws
  import opened Urls

  newtype byte = x: int | 0 <= x < 256

  /**
   * A response: status code, headers, raw body, and what `response.json()`
   * gives for that body (`None` when it raises `ValueError`).
   */
  datatype Response = Response(status: int, headers: map<string, string>, content: seq<byte>, json: Option<Json>)

  /** `response.headers.get(name)` */
  function HeaderValue(r: Response, name: string): Option<string> {
    if name in r.headers then Some(r.headers[name]) else None
  }

  datatype Verb = Get | Post

  /** A request as it leaves the client: verb, URL, headers and signed body. */
  datatype Request = Request(verb: Verb, url: Target, headers: map<string, string>, body: Option<SignedRequest>)

  /** The `User-Agent` value; the version number is a parameter. */
  function UserAgent(version: string): string {
    "manuale " + version + " (https://github.com/veeti/manuale)"
  }

  /** `DEFAULT_HEADERS` */
  function DefaultHeaders(version: string): map<string, string> {
    map["User-Agent" := UserAgent(version)]
  }

  /** The headers `get` and `post` send: the defaults, `Content-Type` for POST, then the caller's. */
  function RequestHeaders(m: Verb, version: string, extra: map<string, string>): map<string, string> {
    (if m == Post then DefaultHeaders(version)["Content-Type" := "application/json"] else DefaultHeaders(version)) + extra
  }

  /**
   * Header by header: a caller's header wins; otherwise POST sends
   * `Content-Type: application/json` and both send the `User-Agent`; nothing else is sent.
   */
  lemma HeaderMerge(m: Verb, version: string, extra: map<string, string>, name: string)
    ensures name in RequestHeaders(m, version, extra)
      <==> name in extra || name == "User-Agent" || (m == Post && name == "Content-Type")
    ensures name in extra ==> RequestHeaders(m, version, extra)[name] == extra[name]
    ensures name !in extra && name == "User-Agent" ==> RequestHeaders(m, version, extra)[name] == UserAgent(version)
    ensures name !in extra && m == Post && name == "Content-Type" ==> RequestHeaders(m, version, extra)[name] == "application/json"
  {
  }

  /**
   * The transport. `server` stands for everything beyond the client: given
   * the requests sent so far, the last one included, it gives the answer to
   * the last one. `log` holds every request sent, oldest first.
   */
  class Network {
    const server: seq<Request> -> Response
    var log: seq<Request>

    constructor(server: seq<Request> -> Response)
      ensures this.server == server && log == []
    {
      this.server := server;
      log := [];
    }

    /** Send one request: it is appended to the log and answered from the log. */
    method Send(r: Request) returns (response: Response)
      modifies this
      ensures log == old(log) + [r]
      ensures response == server(log)
    {
      log := log + [r];
      response := server(log);
    }
  }
}
