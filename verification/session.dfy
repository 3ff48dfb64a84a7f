/** The session lifecycle of `API`: construction, `close()`, and one call of
    `__request` (build, pick a session, send, the except/finally session
    steps, then decode). HTTP sessions are handles drawn from a `Pool` that
    also records which handles have been closed; the network's answer is an
    input (`Reply`).
 */
module Session {
  import opened Codecs
  import opened Signing

  /** A `requests.Session` is identified by the order in which it was made. */
  type Handle = nat

  /** The sessions this client has made so far: `0 .. next-1`, and which of
      them have been closed. `_new_session()` returns handle `next`. */
  datatype Pool = Pool(next: Handle, closed: set<Handle>)

  const EmptyPool := Pool(0, {})

  /** The fields of an `API` object that the request layer reads or writes. */
  datatype Api = Api(creds: Credentials, keepSession: bool, sess: Option<Handle>)

  datatype World = World(api: Api, pool: Pool)

  /** What the transport did with the request: it raised, or it returned a
      response with these bytes. The status code is never inspected. */
  datatype Reply = SendFailed | Received(content: seq<byte>)

  /** AuthException, any exception of the send, and the JSON decode error. */
  datatype Error = AuthError | TransportError | DecodeError(raw: seq<byte>)

  /** `""` for an empty response, the decoded JSON value otherwise. */
  datatype Content = EmptyText | Parsed(value: Json)

  datatype Outcome = Ok(content: Content) | Err(error: Error)

  /** The result of one call: the new state, the session the request went
      through (if it got that far), the request handed to it, and what the
      caller sees. */
  datatype Step = Step(world: World, used: Option<Handle>, sent: Option<Prepared>, outcome: Outcome)

  /** Session `h` has been made by this pool. */
  predicate Made(p: Pool, h: Handle)
  {
    h < p.next
  }

  /** A consistent pool: only sessions that were made have been closed. */
  ghost predicate PoolOk(p: Pool)
  {
    forall h :: h in p.closed ==> h < p.next
  }

  /** `_new_session()`: a session different from every earlier one, and
      open; making it closes nothing. */
  function NewSession(pool: Pool): (r: (Handle, Pool))
    ensures r.0 == pool.next && r.1.next == pool.next + 1 && r.1.closed == pool.closed
    ensures forall g :: Made(pool, g) ==> g != r.0
    ensures forall g :: Made(r.1, g) <==> Made(pool, g) || g == r.0
    ensures PoolOk(pool) ==> PoolOk(r.1) && r.0 !in r.1.closed
  {
    (pool.next, pool.(next := pool.next + 1))
  }

  /** `session.close()`: closing a session that was made keeps the pool
      consistent, closes that session and no other, and makes none. Closing
      twice is harmless. */
  function CloseHandle(pool: Pool, h: Handle): (r: Pool)
    ensures r.next == pool.next && r.closed == pool.closed + {h}
    ensures h in r.closed && r.closed - {h} == pool.closed - {h}
    ensures forall g :: Made(r, g) <==> Made(pool, g)
    ensures PoolOk(pool) && Made(pool, h) ==> PoolOk(r)
  {
    pool.(closed := pool.closed + {h})
  }

  /** No session leaks and none is used after closing: every session made so
      far is closed unless it is the retained one, the retained one is open,
      and without `keep_session` nothing is retained. */
  ghost predicate Valid(w: World)
  {
    && (w.api.sess.Some? ==> w.api.sess.value < w.pool.next && w.api.sess.value !in w.pool.closed)
    && PoolOk(w.pool)
    && (forall h: Handle :: h < w.pool.next && w.api.sess != Some(h) ==> h in w.pool.closed)
    && (!w.api.keepSession ==> w.api.sess.None?)
  }

  /** `API.__init__`: a session is made and retained only with `keep_session`. */
  function Init(creds: Credentials, keepSession: bool, pool: Pool): (w: World)
    ensures w.api.creds == creds && w.api.keepSession == keepSession
    ensures keepSession ==> w.api.sess == Some(pool.next) && w.pool.next == pool.next + 1
    ensures !keepSession ==> w.api.sess.None? && w.pool == pool
    ensures w.pool.closed == pool.closed
  {
    if keepSession then
      var (h, pool') := NewSession(pool);
      World(Api(creds, true, Some(h)), pool')
    else
      World(Api(creds, false, None), pool)
  }

  /** A fresh client is in a valid state. */
  lemma InitValid(creds: Credentials, keepSession: bool)
    ensures Valid(Init(creds, keepSession, EmptyPool))
  {
  }

  /** `API.close()`: closes and forgets the retained session, if any. */
  function Close(w: World): (r: World)
    ensures r.api == w.api.(sess := None)
    ensures r.pool.next == w.pool.next
    ensures w.api.sess.Some? ==> r.pool.closed == w.pool.closed + {w.api.sess.value}
    ensures w.api.sess.None? ==> r == w
  {
    match w.api.sess
    case Some(h) => World(w.api.(sess := None), CloseHandle(w.pool, h))
    case None => w
  }

  /** A second `close()` changes nothing. */
  lemma CloseIdempotent(w: World)
    ensures Close(Close(w)) == Close(w)
  {
  }

  /** Closing keeps the state valid. */
  lemma CloseValid(w: World)
    requires Valid(w)
    ensures Valid(Close(w))
  {
  }

  /** The decoding that follows the send: an empty response is `""`, any
      other is parsed and a parse failure carries the raw bytes. */
  function Decode(content: seq<byte>, lib: Library): (r: Outcome)
    ensures |content| == 0 ==> r == Ok(EmptyText)
    ensures |content| > 0 ==> (r.Ok? <==> lib.jsonLoads(content).Some?)
    ensures r.Ok? && |content| > 0 ==> r.content == Parsed(lib.jsonLoads(content).value)
    ensures r.Err? ==> r.error == DecodeError(content)
  {
    if |content| == 0 then Ok(EmptyText)
    else match lib.jsonLoads(content)
      case Some(j) => Ok(Parsed(j))
      case None => Err(DecodeError(content))
  }

  /** The session steps of `__request` around the send, in source order:
      pick the retained session or make one; on a send failure, close and
      replace the retained session; finally, close the per-call session
      without `keep_session`, or retain it if none is retained. Returns the
      handle used and the new state. */
  function SessionStep(w: World, failed: bool): (r: (Handle, World))
    // only the retained session changes, and sessions are only made and closed
    ensures r.1.api == w.api.(sess := r.1.api.sess)
    ensures w.pool.next <= r.1.pool.next && w.pool.closed <= r.1.pool.closed
    // the call goes through the retained session, else through a fresh one
    ensures r.0 == (if w.api.sess.Some? then w.api.sess.value else w.pool.next)
    ensures w.api.sess.None? ==> r.1.pool.next >= w.pool.next + 1
    // a retained session is kept unless the send fails; then it is closed and replaced
    ensures w.api.keepSession && w.api.sess.Some? && !failed ==> r.1 == w
    ensures w.api.sess.Some? && failed ==>
              w.api.sess.value in r.1.pool.closed && r.1.api.sess == Some(w.pool.next)
    // without keep_session the call's session is closed; with it, the call's session
    // is retained when nothing was
    ensures !w.api.keepSession ==> r.0 in r.1.pool.closed
    ensures w.api.keepSession && w.api.sess.None? ==> r.1.api.sess == Some(r.0)
  {
    var api := w.api;
    // the session for this call: the retained one, else a fresh one
    var (h, pool1) := if api.sess.Some? then (api.sess.value, w.pool) else NewSession(w.pool);
    // on a send failure, a retained session is closed and replaced
    var (sess2, pool2) :=
      if failed && api.sess.Some? then
        var (h', p) := NewSession(CloseHandle(pool1, api.sess.value));
        (Some(h'), p)
      else (api.sess, pool1);
    // on every path: close the call's session, or retain it if none is retained
    var (sess3, pool3) :=
      if !api.keepSession then (sess2, CloseHandle(pool2, h))
      else if sess2.None? then (Some(h), pool2)
      else (sess2, pool2);
    (h, World(api.(sess := sess3), pool3))
  }

  /** One call of `__request(endpoint, method, params)` at clock reading `ts`. */
  function Request(w: World, lib: Library, endpoint: string, m: Method, params: Params,
                   ts: string, reply: Reply): (s: Step)
    ensures s.sent == Some(Prepare(w.api.creds, endpoint, m, params, ts, lib))
    ensures s.world.api.creds == w.api.creds && s.world.api.keepSession == w.api.keepSession
    // the retained session is reused, otherwise a fresh one is made
    ensures s.used == Some(if w.api.sess.Some? then w.api.sess.value else w.pool.next)
    // __request itself never raises AuthException
    ensures s.outcome != Err(AuthError)
    ensures reply.SendFailed? ==> s.outcome == Err(TransportError)
    ensures reply.Received? ==> s.outcome == Decode(reply.content, lib)
    // without keep_session the per-call session is closed and nothing is retained
    ensures !w.api.keepSession && w.api.sess.None? ==>
              s.world.api.sess.None? && s.used.value in s.world.pool.closed
    // after close(), the next request retains its session, whether the send failed or not
    ensures w.api.keepSession && w.api.sess.None? ==>
              s.world.api.sess == s.used
    // a retained session survives a successful send
    ensures w.api.keepSession && w.api.sess.Some? && reply.Received? ==> s.world == w
    // and is closed and replaced by a fresh one when the send fails
    ensures w.api.keepSession && w.api.sess.Some? && reply.SendFailed? ==>
              && w.api.sess.value in s.world.pool.closed
              && s.world.api.sess == Some(w.pool.next)
  {
    var prepared := Prepare(w.api.creds, endpoint, m, params, ts, lib);
    var (h, w') := SessionStep(w, reply.SendFailed?);
    var outcome := match reply
      case SendFailed => Err(TransportError)
      case Received(content) => Decode(content, lib);
    Step(w', Some(h), Some(prepared), outcome)
  }

  /** Every request keeps the state valid, and goes through a session that
      was open when it was sent. */
  lemma RequestValid(w: World, lib: Library, endpoint: string, m: Method, params: Params,
                     ts: string, reply: Reply)
    requires Valid(w)
    ensures var s := Request(w, lib, endpoint, m, params, ts, reply);
            Valid(s.world) && s.used.value !in w.pool.closed
  {
  }

  /** Decoding happens after the session steps: the response content, and
      whether it parses, has no effect on the session state. */
  lemma DecodeLeavesSessionAlone(w: World, lib: Library, endpoint: string, m: Method, params: Params,
                                 ts: string, c1: seq<byte>, c2: seq<byte>)
    ensures Request(w, lib, endpoint, m, params, ts, Received(c1)).world
         == Request(w, lib, endpoint, m, params, ts, Received(c2)).world
  {
  }

  /** After a failed send under `keep_session`, the next request goes
      through a new, open session and never the one that failed. */
  lemma FailedSessionNotReused(w: World, lib: Library, endpoint: string, m: Method, params: Params,
                               ts: string, endpoint2: string, m2: Method, params2: Params,
                               ts2: string, reply2: Reply)
    requires Valid(w) && w.api.keepSession && w.api.sess.Some?
    ensures var s1 := Request(w, lib, endpoint, m, params, ts, SendFailed);
            var s2 := Request(s1.world, lib, endpoint2, m2, params2, ts2, reply2);
            s2.used != s1.used && s2.used.value !in s1.world.pool.closed
  {
  }
}
