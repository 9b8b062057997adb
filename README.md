# manuale ACME client core, modelled in Dafny

This project models the ACME v1 client of manuale (`manuale/acme.py`), the
protocol driver that registers an account, requests and validates
authorizations, and issues certificates against a certificate authority.

What the model covers:

- **Signed operations.** A signed operation (`register`,
  `get_registration`, `update_registration`, `new_authorization`,
  `validate_authorization`, `issue_certificate`) makes at most these two
  requests, plus one in the last case below:
  - a GET of `/directory`, whose `Replay-Nonce` header becomes the `nonce`
    of a copy of the generated JWS header;
  - one POST of the signed payload.

  There are two exceptions. `get_registration` and `update_registration`
  with no account URI make only the nonce GET and then raise, because
  `path(None)` fails. `issue_certificate` makes a third, unsigned GET of the
  `up` link on a 201 whose `up` link is non-empty.
- **Status classification.** Creation calls accept exactly 201. Reads and
  updates accept any status whose decimal text starts with `2`.
  `register` also turns 409 into `AccountAlreadyExists`.
- **`_get_link`.** It splits the `Link` header on commas, strips each
  entry, takes the first entry that contains the relation name anywhere,
  and slices from index 1 to the first `>`.
- **`Acme.path`.** It calls `urlparse` and `urljoin`. Their behaviour is
  modelled after CPython 3.12's `urllib.parse`: scheme and authority
  splitting, `;params`, query and fragment, the `uses_relative`,
  `uses_netloc` and `uses_params` scheme lists, and dot-segment removal.

How it is modelled:

- `Acme` is a class over a `Network` transport. The transport keeps a log
  of every request sent. A `server` function stands for everything beyond
  the client: it answers each request from the log so far.
- Each operation is a method. Its `ensures` states two things:
  - the exact requests it appends to the log;
  - its outcome, as a classifier function of the response.
- Lemmas state what those classifiers promise.
- The client's exceptions become constructors of `Outcome`:
  - `AcmeError` and `AccountAlreadyExistsError`;
  - the uncaught `ValueError` of `_get_link` and the `AttributeError` of
    `path(None)`, both under `Raised`.

Modules:

| file | module | models |
|---|---|---|
| `text.dfy` | `Text` | `str` operations: `split`, `strip`, `in`, `index`, `startswith`, `lower` |
| `links.dfy`, `link_examples.dfy` | `Links`, `LinkExamples` | `_get_link` |
| `urls.dfy`, `url_examples.dfy` | `Urls`, `UrlExamples` | `urlparse`, `urljoin`, `Acme.path` |
| `status.dfy` | `Status` | `str(status_code).startswith('2')` and the 201/409 tests |
| `json.dfy`, `jws.dfy` | `JsonValues`, `Jws` | JSON values, the signed request, the nonce in the protected header |
| `http.dfy` | `Http` | requests, responses, `DEFAULT_HEADERS`, the transport |
| `acme.dfy`, `client_properties.dfy` | `AcmeClient`, `ClientProperties` | the `Acme` class and its response handling |

Two behaviours of the code are worth knowing:

- **`Acme.path`.** Its comment says "Make sure path is relative", yet some
  inputs still resolve to another host (see Findings). The `Acme` class
  resolves every request as the code does, through `Acme.Path`. The
  corrected resolution, `Urls.Resolve`, is modelled and proved beside it.
- **The `up` link.** An `up` link of `<>` gives the empty text: no fetch is
  made, and `intermediate` is that empty text.

## Model

| member | source | states |
|---|---|---|
| Links.FirstLink | manuale/acme.py:187-190 | the loop over the entries as a recursive search; Links.FirstLinkIsFirstMatch states what it finds |
| Links.FindLink | manuale/acme.py:185-190 | `_get_link` as a function; Links.GetLink is proved equal to it, and Links.FirstLinkIsFirstMatch, Links.LinkUrlClean and Links.NoHeader state what it gives |
| Links.Entries | manuale/acme.py:186-188 | there is always at least one entry, even with no header: `''.split(',')` is `['']` |
| Links.EntriesWithoutComma | manuale/acme.py:186 | no entry holds a comma |
| Links.Bracketed | manuale/acme.py:190 | the slice raises (MissingBracket) exactly when the entry has no `>`; a found URL holds no `>` and only characters of the entry |
| Links.GetLink | manuale/acme.py:185-190 | the loop with early return gives exactly the first-match search `FindLink` |
| Links.FirstLinkIsFirstMatch | manuale/acme.py:187-190 | the result is NoLink iff no entry contains the relation; otherwise it is the bracketed text of the first entry that does |
| Links.LinkUrlClean | manuale/acme.py:185-190 | a returned link never holds `,` or `>` |
| Links.NoHeader | manuale/acme.py:186 | with no header a non-empty relation finds nothing; the empty relation raises on the single empty entry |
| LinkExamples.IssuerExample | manuale/acme.py:149 | in `<https://ca.example/acct/1>;rel="terms-of-service", <https://ca.example/issuer>;rel="up"` the `up` link is `https://ca.example/issuer` |
| LinkExamples.SubstringMatch | manuale/acme.py:189 | the relation test is a substring test: `</backup>; rel="next"` answers for `up` with `/backup` |
| Status.IsSuccess | manuale/acme.py:80 | `str(code).startswith('2')` on the decimal text; Status.SuccessIsLeadingTwo, Status.SuccessRange and Status.SuccessThreeDigits state which codes pass |
| Status.IsCreated | manuale/acme.py:55 | `code == 201`; Status.CreatedIsSuccess relates it to the 2-prefix test |
| Status.SuccessIsLeadingTwo | manuale/acme.py:80 | a status passes `str(code).startswith('2')` iff it is non-negative with leading decimal digit 2 |
| Status.SuccessRange | manuale/acme.py:94 | among codes with k+1 digits, exactly those in [2·10^k, 3·10^k) pass |
| Status.SuccessThreeDigits | manuale/acme.py:125 | for three-digit codes the test is exactly 200..299 |
| Status.SuccessOtherLengths | manuale/acme.py:80 | 2, 20 and 2000 pass; 1, 30 and -200 do not |
| Status.CreatedIsSuccess | manuale/acme.py:55 | 201 also passes the 2-prefix test; 409 passes neither test |
| Jws.WithNonce | manuale/acme.py:37-38 | the protected header is the header with `nonce` set to the fetched nonce (or null), every other key kept, none added |
| Http.RequestHeaders | manuale/acme.py:160-171 | the headers `get` and `post` send; Http.HeaderMerge states them header by header |
| Http.HeaderMerge | manuale/acme.py:166-171 | a caller's header wins; otherwise POST sends `Content-Type: application/json`, both send the `User-Agent`, nothing else is sent |
| Http.Network.Send | manuale/acme.py:164 | a sent request is appended to the log and answered from the log |
| Urls.UrlJoin | manuale/acme.py:177 | `urljoin`; Urls.AbsolutePathRef, Urls.JoinNamesAuthority, Urls.MergeAbsolute and Urls.RemoveDotsKeeps state its cases |
| Urls.ResolveAsWritten | manuale/acme.py:173-177 | `Acme.path` as written; Urls.AsWrittenSchemeInPath, Urls.AsWrittenNetworkPath and Urls.AsWrittenDoubleSlash show it leaving the base, Urls.ResolveAgrees where it equals the correction |
| Urls.Resolve | manuale/acme.py:173-177 | corrected `Acme.path`; Urls.ResolveStaysOnBase and Urls.ResolveAbsolutePath state that it stays on the base |
| Urls.UrlSplit | manuale/acme.py:176 | the path `urlsplit` returns holds no `?` and no `#` |
| Urls.UrlParse | manuale/acme.py:176 | the path `urlparse` returns holds no `?` and no `#` |
| Urls.UrlPath | manuale/acme.py:176 | `urlparse(path).path` holds no query and no fragment |
| Urls.SanitizeClean | manuale/acme.py:176 | text starting with a visible character and free of tab, CR and LF is not changed by the sanitising step |
| Urls.SchemeSplit | manuale/acme.py:176 | a valid lower-case scheme before the first `:` is split off |
| Urls.NoSchemeSplit | manuale/acme.py:176 | text not starting with a letter has no scheme and takes the default |
| Urls.NetlocSplit | manuale/acme.py:176 | after `//` the authority runs up to the path |
| Urls.NoNetlocSplit | manuale/acme.py:176 | text not starting with `//` has no authority |
| Urls.ParseOf | manuale/acme.py:176 | once scheme and authority are split off, a rest without delimiters is the whole path |
| Urls.ParseAbsolute | manuale/acme.py:176 | `urlparse('scheme://host/path')` is exactly those three components |
| Urls.ParsePlainPath | manuale/acme.py:177 | a plain absolute path parses to itself under the default scheme |
| Urls.ParseNetworkPath | manuale/acme.py:177 | `//host/path` parses with its own authority `host` |
| Urls.ParseOpaque | manuale/acme.py:176 | `scheme:rest` without `//` has an empty authority and `rest` as its path |
| Urls.RemoveDotsKeeps | manuale/acme.py:177 | `urljoin`'s dot-segment loop keeps every segment, in order, when there are no `.` or `..` segments |
| Urls.MergeAbsolute | manuale/acme.py:177 | an absolute reference path without dot segments replaces the base path unchanged |
| Urls.JoinNamesAuthority | manuale/acme.py:177 | `urljoin` returns a reference that names an authority, under the base's scheme, as it stands |
| Urls.SchemeInPath | manuale/acme.py:176 | `urlparse('http:https://host/path').path` is `https://host/path` |
| Urls.NetworkPathInPath | manuale/acme.py:176 | `urlparse('http:////host/path').path` is `//host/path` |
| Urls.AsWrittenSchemeInPath | manuale/acme.py:173-177 | as written, `path('http:https://host/p')` on an https base resolves to `https://host/p`, on `host` |
| Urls.AsWrittenNetworkPath | manuale/acme.py:173-177 | as written, `path('http:////host/p')` on an https base resolves to `https://host/p`, on `host` |
| Urls.AbsolutePathRef | manuale/acme.py:177 | the absolute-path case of `urljoin` (section 5.2.2 of RFC 3986): a plain absolute path without dot segments keeps the base's scheme and authority and becomes the whole path, with no params, query or fragment, and `path` passes it to `urljoin` unchanged |
| Urls.ResolveStaysOnBase | manuale/acme.py:173-177 | corrected: every input starting with `http` resolves on the base's scheme and authority, with no params, query or fragment, and its path merged onto the base path |
| Urls.ResolveAbsolutePath | manuale/acme.py:173-177 | corrected: under `Urls.Resolve`, an input starting with `http` whose path is absolute and free of dot segments resolves to the base's scheme and authority with that path (the source fails this for a path starting with `//`: Urls.AsWrittenDoubleSlash) |
| Urls.ResolveAgrees | manuale/acme.py:173-177 | the correction agrees with the source for every input not starting with `http` and for every `http` input whose path is plain |
| Urls.DoubleSlashInPath | manuale/acme.py:176 | `urlparse('https://host//evil/path').path` is `//evil/path`: the authority ends at the first `/` |
| Urls.AsWrittenDoubleSlash | manuale/acme.py:173-177 | as written, `path('https://host//evil/p')` on an https base resolves to `https://evil/p`, on `evil` |
| UrlExamples.CaBase | manuale/acme.py:22 | the directory URL `https://ca.example/` parses to scheme, host and path `/` |
| UrlExamples.SchemeInPathExample | manuale/acme.py:173-177 | `http:https://attacker.example/x` leaves `ca.example` as written and stays on it once corrected |
| UrlExamples.NetworkPathExample | manuale/acme.py:173-177 | `http:////attacker.example/x` leaves `ca.example` as written and stays on it once corrected |
| UrlExamples.DoubleSlashExample | manuale/acme.py:173-177 | `https://ca.example//attacker.example/x`, a URL on the directory host, leaves `ca.example` as written and stays on it once corrected |
| UrlExamples.EndpointSegments | manuale/acme.py:30-146 | the endpoints named at lines 30, 53, 108 and 146, `/directory`, `/acme/new-reg`, `/acme/new-authz` and `/acme/new-cert`, are plain absolute paths without dot segments |
| UrlExamples.AbsoluteUrlExample | manuale/acme.py:173-177 | `https://attacker.example/acme/new-authz` resolves to `/acme/new-authz` on `ca.example`, in the source and in the correction |
| AcmeClient.Acme.Path | manuale/acme.py:173-177 | the client's `path`, which every request goes through; ClientProperties.PathOfAbsolutePath and ClientProperties.EndpointsOnDirectory state that an absolute-path reference, every fixed endpoint among them, resolves on the directory URL's scheme and authority with its path unchanged; ClientProperties.PathAgreesOnPlainPaths where it equals the correction; ClientProperties.PathLeavesDirectory where it leaves the directory host |
| AcmeClient.RegisterOutcome | manuale/acme.py:53-68 | `register`'s reading of the response; ClientProperties.RegisterOutcomes states it status by status |
| AcmeClient.ReadOutcome | manuale/acme.py:79-82 | `get_registration`'s reading; ClientProperties.ReadOutcomes states it |
| AcmeClient.AcknowledgeOutcome | manuale/acme.py:93-96 | the reading of `update_registration` and `validate_authorization`; ClientProperties.AcknowledgeOutcomes states it |
| AcmeClient.NewAuthorizationOutcome | manuale/acme.py:108-111 | `new_authorization`'s reading; ClientProperties.CreationNeeds201 and ClientProperties.CreationStricterThanUpdate state it |
| AcmeClient.AuthorizationOutcome | manuale/acme.py:133-137 | `get_authorization`'s reading; ClientProperties.AuthorizationIgnoresStatus states it |
| AcmeClient.IssueOutcome | manuale/acme.py:146-158 | `issue_certificate`'s reading; ClientProperties.IssueOutcomes and ClientProperties.MalformedLinkRaises state it |
| AcmeClient.UpdatePayload | manuale/acme.py:88-89 | the payload is the caller's fields with `resource` forced to `reg`: every other field kept, none added |
| AcmeClient.Acme.constructor | manuale/acme.py:21-24 | the client keeps the directory URL and the account, and takes the account's key |
| AcmeClient.Acme.Get | manuale/acme.py:160-164 | exactly one GET is logged, to `Acme.Path(path)` as the source resolves it, with the default headers merged with the caller's; the response is the server's answer |
| AcmeClient.Acme.Post | manuale/acme.py:166-171 | exactly one POST is logged, to `Acme.Path(path)`, carrying the signed body and headers with `Content-Type`, merged with the caller's |
| AcmeClient.Acme.GetNonce | manuale/acme.py:26-30 | one GET of `/directory`; the nonce is that response's `Replay-Nonce` header, or none |
| AcmeClient.Acme.GetHeaders | manuale/acme.py:32-39 | the header is the generated one; the protected header is a copy of it with the nonce of the GET just made |
| AcmeClient.Acme.Register | manuale/acme.py:41-68 | one nonce GET then one `new-reg` POST; the outcome is the register classification of the response; the account URI becomes `Location` on 201 and is otherwise kept |
| AcmeClient.Acme.GetRegistration | manuale/acme.py:70-82 | with no account URI: only the nonce GET, then an `AttributeError`; otherwise a `reg` POST to `Acme.Path` of the account URI, classified as a read |
| AcmeClient.Acme.UpdateRegistration | manuale/acme.py:84-96 | a non-empty caller dict is updated in place with `resource: reg`; an empty one is left as it is; the signed payload is the updated fields, POSTed to `Acme.Path` of the account URI; classified as an update |
| AcmeClient.Acme.NewAuthorization | manuale/acme.py:98-111 | a `new-authz` POST for the DNS identifier, classified as a creation call |
| AcmeClient.Acme.ValidateAuthorization | manuale/acme.py:113-127 | a `challenge` POST to `Acme.Path` of the challenge URI, so a URI naming another host is followed as the source follows it; classified as an update |
| AcmeClient.Acme.GetAuthorization | manuale/acme.py:129-137 | a single unsigned GET of `Acme.Path(uri)` with no nonce; the outcome depends on the body alone |
| AcmeClient.Acme.IssueCertificate | manuale/acme.py:139-158 | a `new-cert` POST accepting `application/pkix-cert`; on 201 with a non-empty `up` link, exactly one further GET of that raw URL with the default headers, whose body becomes the intermediate; no further request otherwise |
| AcmeClient.Acme.ReadIssuance | manuale/acme.py:147-157 | the 201 branch: exactly one raw GET of the `up` link with the default headers when the link is non-empty text, no request otherwise; the outcome is the issuance classification with the fetched body |
| ClientProperties.RegisterOutcomes | manuale/acme.py:53-68 | a result iff 201 with a readable body and well-formed terms link, carrying the URI the account now holds; 409 iff AccountAlreadyExists with `Location`, account unchanged; every other status is AcmeError with the response |
| ClientProperties.RegisterUriBeforeJson | manuale/acme.py:55-62 | a 201 with an unreadable body is an AcmeError, yet the account URI is already set to `Location` |
| ClientProperties.ReadOutcomes | manuale/acme.py:79-82 | the response is rejected iff its status fails the 2-prefix test, which for three-digit codes is outside 200..299; a result iff it passes and the body parses |
| ClientProperties.AcknowledgeOutcomes | manuale/acme.py:93-96 | always `True` or AcmeError with the response; for three-digit codes `True` iff 200..299 |
| ClientProperties.CreationNeeds201 | manuale/acme.py:108-111 | register, new-authz and new-cert succeed only on 201; on any other status new-authz and new-cert give AcmeError with the response |
| ClientProperties.CreationStricterThanUpdate | manuale/acme.py:147 | a 2xx status other than 201 is accepted by reads and updates and rejected by every creation call |
| ClientProperties.AuthorizationIgnoresStatus | manuale/acme.py:133-137 | changing the status never changes the outcome; a result iff the body decodes, the decoding error otherwise |
| ClientProperties.IssueOutcomes | manuale/acme.py:147-157 | on 201 the certificate is the body and the location `Location`; the intermediate is fetched iff the `up` link is non-empty, absent iff there is no link, empty text iff the link is `<>` |
| ClientProperties.MalformedLinkRaises | manuale/acme.py:149 | on 201 an `up` or terms link without `>` raises, and only then |
| ClientProperties.IssuerFetchExample | manuale/acme.py:149-151 | a 201 whose `Link` header lists a terms link and `<https://ca.example/issuer>;rel="up"` fetches the intermediate from `https://ca.example/issuer` |
| ClientProperties.PathAgreesOnPlainPaths | manuale/acme.py:173-177 | the client's `path` equals the correction on inputs not starting with `http` and on `http` inputs with a plain absolute path; such an `http` input then stays on the directory URL's scheme and authority |
| ClientProperties.PathOfAbsolutePath | manuale/acme.py:173-177 | the client's `path` sends an absolute-path reference without dot segments to the directory URL's scheme and authority, with the reference as its whole path |
| ClientProperties.EndpointsOnDirectory | manuale/acme.py:173-177 | `/directory`, `/acme/new-reg`, `/acme/new-authz` and `/acme/new-cert` are requested on the directory URL's scheme and authority with their path unchanged |
| ClientProperties.PathLeavesDirectory | manuale/acme.py:173-177 | with directory URL `https://ca.example/`, the client's `path` sends `https://ca.example//attacker.example/x` and `http:https://attacker.example/x` to `attacker.example` |
| ClientProperties.UpdatePayloadOfNothing | manuale/acme.py:88-89 | with no fields, or an empty dict, the payload is exactly `{'resource': 'reg'}` |
| ClientProperties.SignedExchangeShape | manuale/acme.py:32-53 | a signed operation sends one `/directory` GET, then one POST to `Acme.Path(path)` as the source resolves it, signed with the account key and the generated header, whose protected copy carries the nonce from that GET's response |

## Left out

- HTTP itself is left out: sockets, TLS, redirects, timeouts and the `requests` library. The transport is a function of the request log.
- Header names are compared exactly. `requests` compares them case-insensitively; this model does not.
- JSON decoding is not modelled. A response carries the value `response.json()` would give, or none when it raises. The `TypeError` and `AttributeError` that `get_authorization` also catches fall into the same none.
- The text of error messages (`"Invalid JSON response. ..."`) is not kept. The model keeps only which error it is.
- `generate_header` and `sign_request` belong to `manuale/crypto.py`, which is not part of this model. The header generator is a parameter of the client. A signed request is kept as the tuple of its inputs.
- `__version__` is a parameter, `version`, and appears only inside the `User-Agent` text.
- Dict key order, and the deep copy in `get_headers`, are not modelled. Both are values in the model, so nothing can alias them.
- `DEFAULT_HEADERS` is never mutated in the source, and the model's `DefaultHeaders` is a value, so this holds trivially.
- `urlsplit` raises `ValueError` for malformed authorities (unbalanced brackets, bad ports, NFKC-normalisation clashes). Those checks are left out; such inputs resolve as if well-formed.
- `urlunparse` is not spelled out as text. A resolved URL is kept as its six components.
- IssueCertificate: the `up` link is fetched with `requests.get` directly, not through `path`, so a relative link such as `</issuer>` raises `MissingSchema` before any request is sent. The model's transport answers every URL and does not model that error, nor `InvalidURL`. ReadIssuance has the same gap.
- Urls.Resolve: the correction keeps the source's case-sensitive `startswith('http')` test and passes every other input to `urljoin` as the source does. So `HTTPS://attacker.example/x`, whose scheme `urlsplit` lower-cases, and the network-path reference `//attacker.example/x` still leave the base under the correction. It repairs only inputs starting with lower-case `http`.
- Concurrency is left out. The client is single-threaded and blocking, and the model sequences requests through one log.
- The account's key handling, the CLI and the authorization workflow outside `acme.py` are not part of this model.

## Findings

| source | as written | input that shows it | evidently intended | confidence | as-written member | corrected member |
|---|---|---|---|---|---|---|
| manuale/acme.py:173-177 | an input starting with `http` is replaced by `urlparse(path).path` and given to `urljoin`, so a path that starts with `//`, or is itself a URL, still names its own host | against `https://ca.example/`, the ordinary URL `https://ca.example//attacker.example/x` (whose path is `//attacker.example/x`), and also `http:https://attacker.example/x` and `http:////attacker.example/x`, resolve to `https://attacker.example/x` | for an input starting with lower-case `http`, keep the configured CA's scheme and host and take only the path ("Make sure path is relative") | not executed; derived from CPython 3.12 `urllib.parse` | Urls.AsWrittenDoubleSlash, Urls.AsWrittenSchemeInPath, Urls.AsWrittenNetworkPath, ClientProperties.PathLeavesDirectory | Urls.ResolveStaysOnBase |
