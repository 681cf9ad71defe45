/**
 * The request interceptor of the shared HTTP client
 * (src/api/interceptors/request/addAuthorizationToken.ts): when a token is
 * stored, the outgoing request carries it as a bearer credential
 * (section 2.1 of RFC 6750).
 */
module AuthHeader {
  import opened Js
  import opened Browser

  const Authorization := "Authorization"
  const BearerPrefix := "Bearer "

  /** The parts of an outgoing request config that the interceptors see. */
  class RequestConfig {
    var headers: map<string, string>
    var url: Option<string>

    constructor (h: map<string, string>, u: Option<string>)
      ensures headers == h && url == u
    {
      headers := h;
      url := u;
    }
  }

  /** The header value `Bearer ${token}`. */
  function BearerValue(token: string): string
  {
    BearerPrefix + token
  }

  /** Reads a bearer credential back out of an Authorization header value. */
  function ParseBearer(value: string): (r: Option<string>)
    ensures r.Some? <==> StartsWith(value, BearerPrefix)
    ensures r.Some? ==> |r.value| == |value| - |BearerPrefix|
  {
    if StartsWith(value, BearerPrefix) then Some(value[|BearerPrefix|..]) else None
  }

  /** The token is recovered from the header value it produces. */
  lemma BearerRoundTrip(token: string)
    ensures ParseBearer(BearerValue(token)) == Some(token)
  {
    assert BearerValue(token)[..|BearerPrefix|] == BearerPrefix;
    assert BearerValue(token)[|BearerPrefix|..] == token;
  }

  /** Every value that parses is the header value of what it parses to. */
  lemma ParseBearerInverse(value: string)
    requires ParseBearer(value).Some?
    ensures BearerValue(ParseBearer(value).value) == value
  {
    assert value == value[..|BearerPrefix|] + value[|BearerPrefix|..];
  }

  /** The headers after the interceptor ran with the stored token `token`. */
  function WithAuthorization(headers: map<string, string>, token: Option<string>): (h: map<string, string>)
    ensures Authorization in h <==> Truthy(token) || Authorization in headers
    ensures Truthy(token) ==> h[Authorization] == BearerValue(token.value)
    ensures !Truthy(token) ==> h == headers
    ensures forall k :: k != Authorization ==> (k in h <==> k in headers)
    ensures forall k :: k in h && k != Authorization ==> h[k] == headers[k]
  {
    if Truthy(token) then headers[Authorization := BearerValue(token.value)] else headers
  }

  /** The interceptor writes the header in place and returns the same config object. */
  method AddAuthorizationToken(w: Window, config: RequestConfig) returns (r: RequestConfig)
    modifies config
    ensures r == config
    ensures config.headers == WithAuthorization(old(config.headers), w.authToken)
    ensures config.url == old(config.url)
  {
    var token := w.authToken;
    if Truthy(token) {
      config.headers := config.headers[Authorization := BearerValue(token.value)];
    }
    return config;
  }

  /** A stored empty string is falsy: the headers are left exactly as they were. */
  lemma EmptyTokenAddsNothing(headers: map<string, string>)
    ensures WithAuthorization(headers, Some("")) == headers
    ensures WithAuthorization(headers, None) == headers
  {
  }
}
