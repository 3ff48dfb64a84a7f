/** The public face of `API`: each endpoint method checks the credentials if
    it is private and then calls `__request` with its path and method; a
    client's life is a sequence of such calls and `close()`s.
 */
module Client {
  import opened Codecs
  import opened Signing
  import opened Endpoints
  import opened Session

  /** Calling endpoint method `e` with keyword arguments `params`. */
  function Call(w: World, lib: Library, e: Endpoint, params: Params, ts: string, reply: Reply): (s: Step)
    // AuthException is raised exactly for a private endpoint without both credentials
    ensures s.outcome == Err(AuthError) <==> IsPrivate(e) && !Authorized(w.api.creds)
    // and it is raised before any request work: nothing is sent and no session is touched
    ensures s.outcome == Err(AuthError) ==> s.world == w && s.sent.None? && s.used.None?
    ensures s.outcome != Err(AuthError) ==>
              s.sent.Some? && s.sent.value.endpoint == Path(e) && s.sent.value.verb == MethodOf(e)
              && s.sent.value.params == params
    // a private request that is sent is always signed
    ensures IsPrivate(e) && s.sent.Some? ==> AccessSign in s.sent.value.headers
    // any request that is sent, public or private, is signed exactly when both credentials are set
    ensures s.sent.Some? ==> (AccessSign in s.sent.value.headers <==> Authorized(w.api.creds))
    // public endpoints never check the credentials
    ensures !IsPrivate(e) ==> s == Request(w, lib, Path(e), MethodOf(e), params, ts, reply)
  {
    if IsPrivate(e) && !Authorized(w.api.creds) then
      Step(w, None, None, Err(AuthError))
    else
      Request(w, lib, Path(e), MethodOf(e), params, ts, reply)
  }

  /** A private call that gets past the credential check reaches the
      exchange with a signature it accepts under the client's secret. */
  lemma PrivateCallVerifies(w: World, lib: Library, e: Endpoint, params: Params, ts: string,
                            reply: Reply, wireQuery: Params -> string)
    requires wireQuery(params) == lib.urlEncode(params)
    requires IsPrivate(e) && Authorized(w.api.creds)
    ensures var s := Call(w, lib, e, params, ts, reply);
            s.sent.Some? && ServerAccepts(Transmit(s.sent.value, wireQuery, lib), w.api.creds.apiSecret.value, lib)
  {
    ServerAcceptsIffAuthorized(w.api.creds, Path(e), MethodOf(e), params, ts, lib, wireQuery);
  }

  /** One thing a program does with its client: call an endpoint method (at
      clock reading `ts`, with the transport answering `reply`) or close. */
  datatype Op =
    | Invoke(e: Endpoint, params: Params, ts: string, reply: Reply)
    | CloseSession

  function Apply(w: World, lib: Library, op: Op): World
  {
    match op
    case Invoke(e, params, ts, reply) => Call(w, lib, e, params, ts, reply).world
    case CloseSession => Close(w)
  }

  function Run(w: World, lib: Library, ops: seq<Op>): World
    decreases |ops|
  {
    if ops == [] then w else Run(Apply(w, lib, ops[0]), lib, ops[1..])
  }

  /** Any single operation keeps the state valid. */
  lemma ApplyValid(w: World, lib: Library, op: Op)
    requires Valid(w)
    ensures Valid(Apply(w, lib, op))
  {
  }

  /** However a client is used, no session leaks and the retained session
      is never a closed one. */
  lemma {:induction false} RunValid(w: World, lib: Library, ops: seq<Op>)
    requires Valid(w)
    ensures Valid(Run(w, lib, ops))
    decreases |ops|
  {
    if ops != [] {
      ApplyValid(w, lib, ops[0]);
      RunValid(Apply(w, lib, ops[0]), lib, ops[1..]);
    }
  }

  /** The credentials and `keep_session` never change after construction. */
  lemma {:induction false} RunKeepsConfiguration(w: World, lib: Library, ops: seq<Op>)
    ensures Run(w, lib, ops).api.creds == w.api.creds
    ensures Run(w, lib, ops).api.keepSession == w.api.keepSession
    decreases |ops|
  {
    if ops != [] {
      RunKeepsConfiguration(Apply(w, lib, ops[0]), lib, ops[1..]);
    }
  }

  /** Without `keep_session` the client never holds a session, and every
      session it made for a call has been closed. */
  lemma PerCallSessionsAllClosed(creds: Credentials, lib: Library, ops: seq<Op>)
    ensures var w := Run(Init(creds, false, EmptyPool), lib, ops);
            && w.api.sess.None?
            && forall h: Handle :: h < w.pool.next ==> h in w.pool.closed
  {
    InitValid(creds, false);
    RunValid(Init(creds, false, EmptyPool), lib, ops);
    RunKeepsConfiguration(Init(creds, false, EmptyPool), lib, ops);
  }

  /** With `keep_session`, after `close()` the next call that gets past the
      credential check retains its session, whether its send failed or not;
      that session is open, and every other session made is closed. */
  lemma CloseThenCallRetains(w: World, lib: Library, e: Endpoint, params: Params, ts: string, reply: Reply)
    requires Valid(w) && w.api.keepSession
    requires !(IsPrivate(e) && !Authorized(w.api.creds))
    ensures var s := Call(Close(w), lib, e, params, ts, reply);
            && s.world.api.sess == s.used
            && s.used.value !in s.world.pool.closed
            && forall h: Handle :: h < s.world.pool.next && Some(h) != s.used ==> h in s.world.pool.closed
  {
    CloseValid(w);
    RequestValid(Close(w), lib, Path(e), MethodOf(e), params, ts, reply);
  }
}
