/**
 * The signing collaborators of the client. `generate_header` and
 * `sign_request` live outside the modelled code: the header generator is a
 * parameter of the client, and a signed request is kept as the term of its
 * four inputs.
 */
module Jws {
  import opened Wrappers
  import opened JsonValues

  /** The account's private key, treated as an opaque value. */
  datatype Key = Key(material: string)

  /** A JWS header: a JSON object. */
  type Header = map<string, Json>

  /** `sign_request(key, header, protected_header, payload)` */
  datatype SignedRequest = SignedRequest(key: Key, header: Header, protected: Header, payload: map<string, Json>)

  /** The JSON value stored under `nonce`: the nonce text, or `null` when the server sent none. */
  function NonceValue(nonce: Option<string>): Json {
    match nonce
    case Some(n) => JString(n)
    case None => JNull
  }

  /** A copy of `header` with `nonce` set (`protected_header['nonce'] = nonce`). */
  function WithNonce(header: Header, nonce: Option<string>): (protected: Header)
    ensures "nonce" in protected && protected["nonce"] == NonceValue(nonce)
    ensures forall k :: k in header && k != "nonce" ==> k in protected && protected[k] == header[k]
    ensures forall k :: k in protected ==> k in header || k == "nonce"
  {
    header["nonce" := NonceValue(nonce)]
  }
}
