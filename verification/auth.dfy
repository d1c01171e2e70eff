/** The shared-secret request gate (middleware/auth.go). */
module Auth {
  import opened Errors

  const TokenHeader := "X-Auth-Token"

  /** Request headers by canonical name, each with its values in order. */
  type Headers = map<string, seq<string>>

  /** http.Header.Get: the first value under the name, or "" when there is none. */
  function HeaderGet(h: Headers, name: string): string {
    if name in h && |h[name]| > 0 then h[name][0] else ""
  }

  /** What the gate does with a request: answer with a status itself, or hand
      the request to the next handler. */
  datatype Response = Reject(status: int) | CallNext

  /** CheckSharedSecret's handler, given the cached secret (viper's
      "windlass.secret") and the request's headers. */
  function CheckSharedSecret(secret: string, headers: Headers): (r: Response)
    ensures r == CallNext <==> secret != "" && HeaderGet(headers, TokenHeader) == secret
    ensures r == Reject(StatusServiceUnavailable) <==> secret == ""
    ensures r == Reject(StatusForbidden) <==> secret != "" && HeaderGet(headers, TokenHeader) != secret
  {
    var token := HeaderGet(headers, TokenHeader);
    if secret == "" then Reject(StatusServiceUnavailable)
    else if token == "" then Reject(StatusForbidden)
    else if token != secret then Reject(StatusForbidden)
    else CallNext
  }

  /** Before the secret is bootstrapped every request is refused with 503,
      whatever token it carries. */
  lemma UnsetSecretRefusesAll(headers: Headers, other: Headers)
    ensures CheckSharedSecret("", headers) == CheckSharedSecret("", other) == Reject(503)
  {
  }

  /** With the secret set, a request without the header gets 403. */
  lemma MissingTokenForbidden(secret: string, headers: Headers)
    requires secret != ""
    requires TokenHeader !in headers
    ensures CheckSharedSecret(secret, headers) == Reject(403)
  {
  }
}
