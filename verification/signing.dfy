/** Request construction: the body string, the header map and the signing
    text of `API.__request`, and how the prepared request looks on the wire.
    The exchange's own signature check is modelled as `ServerAccepts`, the
    partner against which the signing headers are proved correct.
 */
module Signing {
  import opened Codecs

  const ApiUrl := "https://api.bitflyer.com"

  const ContentType := "Content-Type"
  const AcceptEncoding := "Accept-Encoding"
  const AccessKey := "ACCESS-KEY"
  const AccessTimestamp := "ACCESS-TIMESTAMP"
  const AccessSign := "ACCESS-SIGN"

  /** The header names every request carries, and the three added by signing. */
  const BaseHeaderNames: set<string> := {ContentType, AcceptEncoding}
  const SigningHeaderNames: set<string> := {AccessKey, AccessTimestamp, AccessSign}

  datatype Method = GET | POST

  function MethodName(m: Method): string
  {
    match m
    case GET => "GET"
    case POST => "POST"
  }

  /** `api_key` and `api_secret` as given to the constructor; None is Python's None. */
  datatype Credentials = Credentials(apiKey: Option<string>, apiSecret: Option<string>)

  /** Python truthiness of an optional string: neither None nor "". */
  predicate Truthy(s: Option<string>)
  {
    s.Some? && s.value != ""
  }

  /** Both credentials are truthy: the condition for signing, and the one the
      private endpoints check. */
  predicate Authorized(c: Credentials)
  {
    Truthy(c.apiKey) && Truthy(c.apiSecret)
  }

  /** The body that is signed: the JSON text for POST, whatever the params;
      for GET a query string with its leading '?' when there are params, and
      nothing otherwise. */
  function Body(m: Method, params: Params, lib: Library): (body: string)
    ensures m == POST ==> body == lib.jsonDumps(params)
    ensures m == GET ==> (body == "" <==> params == [])
    ensures m == GET && params != [] ==> body[0] == '?' && body[1..] == lib.urlEncode(params)
  {
    if m == POST then lib.jsonDumps(params)
    else if params != [] then "?" + lib.urlEncode(params)
    else ""
  }

  function BaseHeaders(): map<string, string>
  {
    map[ContentType := "application/json", AcceptEncoding := "gzip, deflate"]
  }

  /** The text the HMAC is taken over. */
  function SignText(ts: string, m: Method, endpoint: string, body: string): string
  {
    ts + MethodName(m) + endpoint + body
  }

  /** The header map: the two base headers always, and the three signing
      headers exactly when both credentials are truthy. */
  function Headers(creds: Credentials, m: Method, endpoint: string, body: string,
                   ts: string, lib: Library): (h: map<string, string>)
    ensures h.Keys == BaseHeaderNames + (if Authorized(creds) then SigningHeaderNames else {})
    ensures h[ContentType] == "application/json" && h[AcceptEncoding] == "gzip, deflate"
    ensures !Authorized(creds) ==> h == BaseHeaders()
    ensures Authorized(creds) ==> h[AccessKey] == creds.apiKey.value && h[AccessTimestamp] == ts
    // the signature is the HMAC under the secret of timestamp, method, endpoint and body
    ensures Authorized(creds) ==>
              h[AccessSign] == lib.hmacHex(creds.apiSecret.value, ts + MethodName(m) + endpoint + body)
  {
    if Authorized(creds) then
      BaseHeaders()[AccessKey := creds.apiKey.value]
                   [AccessTimestamp := ts]
                   [AccessSign := lib.hmacHex(creds.apiSecret.value, SignText(ts, m, endpoint, body))]
    else
      BaseHeaders()
  }

  /** Everything `__request` has computed when it hands the call to the
      session. */
  datatype Prepared = Prepared(
    verb: Method,
    endpoint: string,
    params: Params,
    url: string,
    body: string,
    headers: map<string, string>
  )

  function Prepare(creds: Credentials, endpoint: string, m: Method, params: Params,
                   ts: string, lib: Library): (p: Prepared)
    ensures p.verb == m && p.endpoint == endpoint && p.params == params
    ensures p.url == ApiUrl + endpoint
    ensures AccessSign in p.headers <==> Authorized(creds)
  {
    var body := Body(m, params, lib);
    Prepared(m, endpoint, params, ApiUrl + endpoint, body, Headers(creds, m, endpoint, body, ts, lib))
  }

  /** What the server receives: the request target (path and query) and the
      payload. GET sends the params through the transport's own query
      encoder and no payload; POST re-serialises the params as the payload. */
  datatype Wire = Wire(verb: Method, target: string, payload: string, headers: map<string, string>)

  function Transmit(p: Prepared, wireQuery: Params -> string, lib: Library): (w: Wire)
    // the headers and method go out as prepared
    ensures w.verb == p.verb && w.headers == p.headers
    // GET carries the params only in the query, and no query without params
    ensures p.verb == GET ==> w.payload == "" && (w.target == p.endpoint <==> p.params == [])
    // POST carries them only in the payload, as the same JSON text that was signed
    ensures p.verb == POST ==> w.target == p.endpoint && w.payload == Body(POST, p.params, lib)
  {
    match p.verb
    case GET =>
      Wire(GET, p.endpoint + (if p.params != [] then "?" + wireQuery(p.params) else ""), "", p.headers)
    case POST =>
      Wire(POST, p.endpoint, lib.jsonDumps(p.params), p.headers)
  }

  /** The exchange's check: the signature header is the HMAC, under the
      secret, of the timestamp header, the method, the target and the payload. */
  predicate ServerAccepts(w: Wire, secret: string, lib: Library)
  {
    && AccessSign in w.headers
    && AccessTimestamp in w.headers
    && w.headers[AccessSign]
       == lib.hmacHex(secret, w.headers[AccessTimestamp] + MethodName(w.verb) + w.target + w.payload)
  }

  /** The signing text is the request as the server sees it: the signed body
      is the query part of the target for GET and the payload for POST, as
      long as the transport encodes the query as `urlencode` does. */
  lemma SignTextMatchesWire(creds: Credentials, endpoint: string, m: Method, params: Params,
                            ts: string, lib: Library, wireQuery: Params -> string)
    requires wireQuery(params) == lib.urlEncode(params)
    ensures var p := Prepare(creds, endpoint, m, params, ts, lib);
            var w := Transmit(p, wireQuery, lib);
            SignText(ts, m, endpoint, p.body) == ts + MethodName(w.verb) + w.target + w.payload
  {
  }

  /** A request the client signs is accepted by the server under the same
      secret, and one it does not sign is accepted under no secret at all. */
  lemma ServerAcceptsIffAuthorized(creds: Credentials, endpoint: string, m: Method, params: Params,
                                   ts: string, lib: Library, wireQuery: Params -> string)
    requires wireQuery(params) == lib.urlEncode(params)
    ensures var w := Transmit(Prepare(creds, endpoint, m, params, ts, lib), wireQuery, lib);
            && (Authorized(creds) ==> ServerAccepts(w, creds.apiSecret.value, lib)
                                      && w.headers[AccessKey] == creds.apiKey.value
                                      && w.headers[AccessTimestamp] == ts)
            && (!Authorized(creds) ==> forall secret :: !ServerAccepts(w, secret, lib))
  {
    SignTextMatchesWire(creds, endpoint, m, params, ts, lib, wireQuery);
  }

  /** Without credentials the clock is never read: the prepared request does
      not depend on the timestamp. */
  lemma UnsignedIgnoresTimestamp(creds: Credentials, endpoint: string, m: Method, params: Params,
                                 ts1: string, ts2: string, lib: Library)
    requires !Authorized(creds)
    ensures Prepare(creds, endpoint, m, params, ts1, lib) == Prepare(creds, endpoint, m, params, ts2, lib)
  {
  }

  /** With credentials the timestamp reaches only ACCESS-TIMESTAMP and
      ACCESS-SIGN: the body, the URL and every other header are the same. */
  lemma TimestampOnlyInSigningHeaders(creds: Credentials, endpoint: string, m: Method, params: Params,
                                      ts1: string, ts2: string, lib: Library)
    ensures var p1 := Prepare(creds, endpoint, m, params, ts1, lib);
            var p2 := Prepare(creds, endpoint, m, params, ts2, lib);
            && p1.body == p2.body && p1.url == p2.url
            && p1.headers.Keys == p2.headers.Keys
            && forall k :: k in p1.headers && k != AccessTimestamp && k != AccessSign ==>
                 p1.headers[k] == p2.headers[k]
  {
  }
}
