# pybitflyer request layer in Dafny

This project models the core of `pybitflyer`, a Python client for the bitFlyer
Lightning HTTP API, and proves properties of the model. The model covers the
`API` class's request layer:

- **Request construction** (`Signing`): the body string that is signed, the
  header map, the signing text `timestamp + method + endpoint + body`, and how
  the prepared request goes onto the wire. The exchange's signature check
  (`ServerAccepts`) is modelled as the partner that the signing headers are
  proved against.
- **Endpoint table** (`Endpoints`): the 31 endpoint methods, each with its
  URL path, its HTTP method and whether it is private. `Client.Call` applies
  the credential gate the private methods run before `_request`.
- **Session lifecycle** (`Session`, `Client`): construction, `close()`, and
  one `__request` call. A call picks a session, sends, runs the `except` and
  `finally` session steps, then decodes. `requests.Session` objects are
  numbered handles drawn from a `Pool`, which also records which handles are
  closed.

The foreign functions are `json.dumps`, `json.loads`, `urllib.parse.urlencode`
and `hmac.new(..., hashlib.sha256).hexdigest()`, the HMAC of RFC 2104 over the
SHA-256 of FIPS 180-4. They are fields of a `Codecs.Library` value, so they are
uninterpreted functions and every result holds for any of them.

Two things are inputs to each call rather than modelled behaviour:

- the clock reading `str(time.time())`, passed as the `ts` string;
- what the network did with the request, passed as `Session.Reply`: the send
  raised, or it returned these bytes.

GET requests are not sent with the signed body. `requests` encodes the query
itself (`wireQuery`). So the signature round trip is proved on the assumption
that this encoding agrees with `urlencode` for the params at hand.

The invariant `Session.Valid` says that every session the client has made is
closed, unless it is the retained one. It also says the retained session is
open, and that nothing is retained without `keep_session`. It holds after
construction and is kept by every call and every `close()`, over any sequence
of operations (`Client.RunValid`).

The code does the following, which may be unexpected; the model does the
same:

- After `close()`, the next request makes a fresh session and keeps it
  (lines 139-140), even when its send failed. Only a session that was already
  retained is replaced on a send failure (lines 132-134).
- A decode error does not replace the session, because decoding happens after
  the `try`/`finally` (lines 142-150).
- An empty response returns the string `""` (`Session.EmptyText`), not an
  empty mapping.
- The status code is never inspected, and `APIException` is never raised by
  this code. A non-2xx response with a JSON body decodes like any other.

## Model

| member | source | states |
|---|---|---|
| Signing.Body | pybitflyer/pybitflyer.py:102-109 | POST signs the JSON text of params, even when params is empty. For GET the body is empty exactly when params is empty; otherwise it is '?' followed by the urlencoded params |
| Signing.Headers | pybitflyer/pybitflyer.py:103-121 | Content-Type and Accept-Encoding are always present with their fixed values. ACCESS-KEY, ACCESS-TIMESTAMP and ACCESS-SIGN are added exactly when both key and secret are truthy; otherwise the headers are exactly the two base ones. When signed, ACCESS-KEY is the key, ACCESS-TIMESTAMP the clock reading, and ACCESS-SIGN the HMAC-SHA256 hex digest under the secret of timestamp + method + endpoint + body |
| Signing.Prepare | pybitflyer/pybitflyer.py:100-121 | The prepared request keeps the endpoint, method and params, has URL base + endpoint, and carries ACCESS-SIGN iff both credentials are truthy |
| Signing.Transmit | pybitflyer/pybitflyer.py:125-128 | The request goes out with the prepared method and headers. GET carries the params only in the query, with no query when there are no params, and no payload. POST carries the same JSON text that was signed as its payload, and no query |
| Signing.SignTextMatchesWire | pybitflyer/pybitflyer.py:105-128 | The signed text equals timestamp + method + request target + payload as sent: the query for GET, the JSON payload for POST. This holds provided the transport's query encoding agrees with urlencode |
| Signing.ServerAcceptsIffAuthorized | pybitflyer/pybitflyer.py:111-128 | Provided the transport encodes the GET query as urlencode does: with both credentials, the sent request carries the key and the timestamp, and a signature the exchange accepts under the secret, using the same timestamp as ACCESS-TIMESTAMP. Without them, no secret makes the exchange accept it |
| Signing.UnsignedIgnoresTimestamp | pybitflyer/pybitflyer.py:111-112 | Without both credentials the clock reading has no effect on the prepared request |
| Signing.TimestampOnlyInSigningHeaders | pybitflyer/pybitflyer.py:111-121 | Two clock readings give the same body, URL, header names, and every header value except ACCESS-TIMESTAMP and ACCESS-SIGN |
| Endpoints.Path | pybitflyer/pybitflyer.py:154-939 | The URL path of each of the 31 endpoint methods; every path starts with /v1/ |
| Endpoints.MethodOf | pybitflyer/pybitflyer.py:93-734 | An endpoint uses POST iff it is one of the six that pass "POST"; every other one uses the default GET |
| Endpoints.ExactlySixPost | pybitflyer/pybitflyer.py:504-734 | An endpoint uses POST iff it is one of withdraw, sendchildorder, cancelchildorder, sendparentorder, cancelparentorder or cancelallchildorders; that set has six members; all others use the default GET |
| Endpoints.IsPrivate | pybitflyer/pybitflyer.py:307-939 | The 24 methods under the private API check credentials, the 7 public ones do not; every POST endpoint is private |
| Endpoints.PrivateIffUnderMe | pybitflyer/pybitflyer.py:307-939 | An endpoint checks credentials exactly when its path starts with /v1/me/ |
| Session.NewSession | pybitflyer/pybitflyer.py:70-81 | A new session differs from every session made before it, and is the only session added. In a consistent pool (only sessions that were made are closed) it is open and the pool stays consistent. Making it closes nothing |
| Session.CloseHandle | pybitflyer/pybitflyer.py:89-90 | Closing a session marks it closed and changes the closed state of no other session. It makes no session. Closing a session that was made keeps a consistent pool consistent |
| Session.SessionStep | pybitflyer/pybitflyer.py:123-140 | The call uses the retained session, else a fresh one. Only the retained session changes, and sessions are only made and closed. A retained session is kept unless the send fails; then it is closed and replaced by a fresh one. Without keep_session the call's session is closed. With keep_session and none retained, the call's session is retained |
| Session.Init | pybitflyer/pybitflyer.py:52-62 | Construction makes and retains a fresh session iff keep_session; otherwise nothing is retained and no session is made |
| Session.InitValid | pybitflyer/pybitflyer.py:62 | A newly constructed client satisfies the no-leak invariant |
| Session.Close | pybitflyer/pybitflyer.py:83-91 | close() leaves no retained session, closes the one that was retained, and changes nothing when none was |
| Session.CloseIdempotent | pybitflyer/pybitflyer.py:83-91 | A second close() is a no-op |
| Session.CloseValid | pybitflyer/pybitflyer.py:83-91 | close() preserves the no-leak invariant |
| Session.Decode | pybitflyer/pybitflyer.py:142-150 | An empty response gives the empty string. A non-empty one gives the parsed value iff it parses, and otherwise a decode error carrying the raw bytes |
| Session.Request | pybitflyer/pybitflyer.py:100-150 | A request reuses the retained session, else makes a fresh one, and never raises AuthException. A send failure gives a transport error. Without keep_session the call's session is closed and nothing is retained. After close() the call's session is retained, whether the send succeeded or failed. A retained session survives a successful send, and on a failed send it is closed and replaced by a fresh one |
| Session.RequestValid | pybitflyer/pybitflyer.py:123-140 | Every request preserves the no-leak invariant, and sends through a session that was open |
| Session.DecodeLeavesSessionAlone | pybitflyer/pybitflyer.py:136-150 | The session state after a received response does not depend on its content, so a decode error does not replace the session |
| Session.FailedSessionNotReused | pybitflyer/pybitflyer.py:129-135 | Under keep_session, when a session was already retained before the failed send, the next request uses a different session, and that session is open. After close() the failed session is kept instead (see Session.Request) |
| Client.Call | pybitflyer/pybitflyer.py:320-324 | An endpoint call raises AuthException iff the endpoint is private and a credential is missing. In that case nothing is sent and the state is unchanged. Otherwise it sends the endpoint's path, method and params. Public endpoints never check the credentials. Any request that is sent, public or private, is signed exactly when both credentials are set (line 111) |
| Client.PrivateCallVerifies | pybitflyer/pybitflyer.py:111-128 | Provided the transport encodes the GET query as urlencode does, a private call that passes the credential check reaches the exchange with a signature accepted under the client's secret |
| Client.ApplyValid | pybitflyer/pybitflyer.py:83-140 | One endpoint call or close() preserves the no-leak invariant |
| Client.RunValid | pybitflyer/pybitflyer.py:52-140 | Any sequence of endpoint calls and close() calls preserves the no-leak invariant |
| Client.RunKeepsConfiguration | pybitflyer/pybitflyer.py:52-62 | The credentials and keep_session never change after construction |
| Client.PerCallSessionsAllClosed | pybitflyer/pybitflyer.py:136-138 | Without keep_session, after any sequence of operations nothing is retained and every session made has been closed |
| Client.CloseThenCallRetains | pybitflyer/pybitflyer.py:136-140 | Under keep_session, the first call after close() that passes the credential check retains its session whether its send failed or not. That session is open and every other session is closed |

Identical inputs giving identical headers needs no lemma: `Signing.Prepare`
is a function of its inputs, the timestamp included.

## Left out

- The HTTP transport (`requests.Session.get`/`post`) and URL joining are network I/O. Their result is the `Reply` input, and their query encoding is the `wireQuery` parameter.
- `TCPKeepAliveAdapter`, `CookieBlockAllPolicy`, and the `Retry` setup in `_new_session` (lines 17-35, 70-81) configure foreign libraries. `_new_session` is modelled only as "returns the next, unclosed handle".
- The optional `Lock` in `_request` (lines 93-98) exists only to serialise concurrent calls; the model is sequential.
- `timeout` and `logger` are passed through to libraries or used only for logging.
- `__enter__`/`__exit__` only delegate to `close()`, which is modelled as `Session.Close`.
- The internals of `time.time()`, HMAC-SHA256, `json.dumps`/`json.loads` and `urlencode` are uninterpreted. So are the properties that depend on them: that a changed input changes the digest, that `urlencode` lists every key once, and that `json.loads` inverts `json.dumps`.
- Signing.ServerAcceptsIffAuthorized: the accepted signature is proved only when the transport's query encoding (`requests`, line 126) agrees with `urlencode` (line 109). It does not agree for GET params whose value is `None` (`requests` drops them) or any non-string iterable such as a list, tuple or dict (`requests` repeats the key once per item, or per dict key, where `urlencode` without `doseq` sends `str(value)`). Such calls are signed over a query that is not the one sent.
- Client.PrivateCallVerifies: it has the same condition on the query encoding, for the same reason.
- Param values are JSON values. A value `json.dumps` cannot serialise, such as a `Decimal`, raises `TypeError` at line 106 before any session work. That error is not modelled.
- `_request`'s default `params=None` is not modelled, because every endpoint method passes its keyword-argument dict.
- Python dict key uniqueness is not enforced on `Params`; nothing proved depends on it.
- Session.Decode: a UTF-8 decoding failure and a JSON decoding failure are both the one `DecodeError`. In Python they are different exception types, and both propagate.
- `_new_session()` raising inside the `except` branch is not modelled.
- The exception message strings in `pybitflyer/exception.py` have no logic.
