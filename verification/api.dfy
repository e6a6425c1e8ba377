/** The intercepted HTTP client of the front end (`frontend/src/services/api.ts`).

    Every call through `api` passes a request interceptor, which attaches the stored access
    token as a bearer credential, and a response interceptor, which answers a 401 on a
    request not yet retried by renewing the access token once with the refresh token and
    sending the request again. The browser's `localStorage` is the `TokenStore`, the
    identity service is a `Server` script, and `window.location` redirects are `Redirect`
    events in the exchange's log. */
module Api {
  import opened Wrappers

  /** The two `localStorage` slots, `accessToken` and `refreshToken`. */
  datatype TokenStore = TokenStore(access: Option<string>, refresh: Option<string>)

  const Cleared := TokenStore(None, None)

  /** JavaScript truthiness of a stored string: present and not empty. */
  predicate Truthy(slot: Option<string>) {
    slot.Some? && slot.value != ""
  }

  /** Both tokens stored (a usable refresh token with an access token), or neither. */
  predicate Paired(store: TokenStore) {
    (store.access.None? && store.refresh.None?) || (store.access.Some? && Truthy(store.refresh))
  }

  /** A response body. Bodies are opaque, except the token pair the token endpoint issues. */
  datatype Json = TokenPair(access: string, refresh: string) | Doc(text: string)

  /** An axios error: one with a response (its status and body, "" standing for an absent
      or falsy body), or one without a response at all. */
  datatype ApiError = HttpError(status: int, data: string) | NetworkError {
    /** `error.response?.status === 401` */
    predicate Unauthorized() {
      HttpError? && status == 401
    }
  }

  /** The identity service's answer to one transmission through `api`. */
  datatype Reply = Ok(data: Json) | Err(error: ApiError)

  /** The identity service's answer to one call of the refresh endpoint. */
  datatype Renewal = Renewed(access: string) | RenewFailed(error: ApiError)

  /** The identity service as a script: `replies` answer successive transmissions through
      `api` and `renewals` answer successive refresh calls. Any answer is possible at any
      point; an exhausted script answers with a network error. */
  datatype Server = Server(replies: seq<Reply>, renewals: seq<Renewal>)

  /** A request body: none, `{ token }`, `{ email, password }`, or any other payload. */
  datatype Body = NoBody | TokenBody(token: string) | Credentials(email: string, password: string) | Form(text: string)

  /** An axios request config: `authorization` is its `Authorization` header and `retried`
      its `_retry` mark. */
  datatype Request = Request(verb: string, url: string, body: Body, authorization: Option<string>, retried: bool)

  /** What one exchange did to the outside world, in order. */
  datatype Event =
    | Sent(request: Request)     // a transmission through `api`
    | RenewCall(refresh: string) // a POST of the refresh token with bare `axios`
    | Redirect(to: string)       // `window.location.href = to`

  /** The settled promise of one `api` call, the store it leaves and the rest of the script. */
  datatype Exchange = Exchange(result: Result<Json, ApiError>, store: TokenStore, server: Server, events: seq<Event>)

  const LoginPage := "/login"

  function Bearer(token: string): string {
    "Bearer " + token
  }

  /** The requests transmitted through `api`, in order. */
  function Transmissions(events: seq<Event>): (sent: seq<Request>)
    ensures |sent| <= |events|
    ensures forall q :: q in sent <==> Sent(q) in events
  {
    if events == [] then []
    else (if events[0].Sent? then [events[0].request] else []) + Transmissions(events[1..])
  }

  /** The transmissions of a log split at any point are those of its parts. */
  lemma {:induction false} TransmissionsAppend(a: seq<Event>, b: seq<Event>)
    ensures Transmissions(a + b) == Transmissions(a) + Transmissions(b)
  {
    if a == [] {
      assert a + b == b;
    } else {
      assert (a + b)[0] == a[0];
      assert (a + b)[1..] == a[1..] + b;
      TransmissionsAppend(a[1..], b);
    }
  }

  /** The number of refresh calls. */
  function RenewCalls(events: seq<Event>): (n: nat)
    ensures n <= |events|
    ensures n == 0 <==> forall t :: RenewCall(t) !in events
  {
    if events == [] then 0
    else (if events[0].RenewCall? then 1 else 0) + RenewCalls(events[1..])
  }

  /** Two requests to the same endpoint with the same body; the retry resends what the
      original call was given. */
  predicate SameCall(a: Request, b: Request) {
    a.verb == b.verb && a.url == b.url && a.body == b.body
  }

  /** The next answer to a transmission. */
  function NextReply(server: Server): (Reply, Server) {
    if server.replies == [] then (Err(NetworkError), server)
    else (server.replies[0], server.(replies := server.replies[1..]))
  }

  /** The next answer to a refresh call. */
  function NextRenewal(server: Server): (Renewal, Server) {
    if server.renewals == [] then (RenewFailed(NetworkError), server)
    else (server.renewals[0], server.(renewals := server.renewals[1..]))
  }

  /** The request interceptor: with a truthy stored access token the request carries it as
      bearer credential; otherwise it goes out exactly as it came. Nothing else changes. */
  function AttachBearer(store: TokenStore, req: Request): (r: Request)
    ensures r.(authorization := req.authorization) == req
    ensures Truthy(store.access) ==> r.authorization == Some(Bearer(store.access.value))
    ensures !Truthy(store.access) ==> r == req
  {
    if Truthy(store.access) then req.(authorization := Some(Bearer(store.access.value))) else req
  }

  /** `api(config)`: request interceptor, transmission, response interceptor.
      Each call transmits once, or twice when the first answer is a 401 on a request not yet
      retried and the renewal succeeds; the second transmission is marked as retried and
      follows the one refresh call. A request already marked as retried never renews and
      never touches the store. */
  function Call(store: TokenStore, req: Request, server: Server): (x: Exchange)
    decreases if req.retried then 0 else 1, 1
    ensures 1 <= |Transmissions(x.events)| <= 2
    ensures Transmissions(x.events)[0] == AttachBearer(store, req)
    ensures RenewCalls(x.events) <= 1
    ensures |Transmissions(x.events)| == 2 ==> Transmissions(x.events)[1].retried && RenewCalls(x.events) == 1
    ensures req.retried ==> |Transmissions(x.events)| == 1 && RenewCalls(x.events) == 0 && x.store == store
    ensures forall i :: 0 <= i < |Transmissions(x.events)| ==> SameCall(Transmissions(x.events)[i], req)
    ensures forall r :: r in x.server.replies ==> r in server.replies
    ensures x.result.Success? ==> Ok(x.result.value) in server.replies
  {
    var sent := AttachBearer(store, req);
    var (reply, rest) := NextReply(server);
    match reply
    case Ok(data) => Exchange(Success(data), store, rest, [Sent(sent)])
    case Err(e) =>
      var y := OnError(store, sent, e, rest);
      y.(events := [Sent(sent)] + y.events)
  }

  /** The response interceptor's error handler for the request `sent`, which failed with `e`.
      Only a 401 on a request not yet retried is acted on; then it transmits at most once
      more, marked as retried, and only after a refresh call. */
  function OnError(store: TokenStore, sent: Request, e: ApiError, server: Server): (x: Exchange)
    decreases if sent.retried then 0 else 1, 0
    ensures |Transmissions(x.events)| <= 1
    ensures RenewCalls(x.events) <= 1
    ensures |Transmissions(x.events)| == 1 ==> Transmissions(x.events)[0].retried && RenewCalls(x.events) == 1
    ensures !(e.Unauthorized() && !sent.retried) ==> x == Exchange(Failure(e), store, server, [])
    ensures forall i :: 0 <= i < |Transmissions(x.events)| ==> SameCall(Transmissions(x.events)[i], sent)
    ensures forall r :: r in x.server.replies ==> r in server.replies
    ensures x.result.Success? ==> Ok(x.result.value) in server.replies
  {
    if e.Unauthorized() && !sent.retried then
      var original := sent.(retried := true);
      if !Truthy(store.refresh) then
        Exchange(Failure(e), store.(access := None), server, [Redirect(LoginPage)])
      else
        var (renewal, rest) := NextRenewal(server);
        match renewal
        case Renewed(access) =>
          var retry := original.(authorization := Some(Bearer(access)));
          var y := Call(store.(access := Some(access)), retry, rest);
          y.(events := [RenewCall(store.refresh.value)] + y.events)
        case RenewFailed(failure) =>
          Exchange(Failure(failure), Cleared, rest, [RenewCall(store.refresh.value), Redirect(LoginPage)])
    else
      Exchange(Failure(e), store, server, [])
  }

  /** The next transmission will be answered with a 401. */
  predicate FirstAnswerUnauthorized(server: Server) {
    NextReply(server).0.Err? && NextReply(server).0.error.Unauthorized()
  }

  /** A first answer that is not a 401, or any answer to a request already marked as
      retried, settles the call with that answer: the store is untouched, nothing is renewed
      and nobody is redirected. */
  lemma PassThrough(store: TokenStore, req: Request, server: Server)
    requires NextReply(server).0.Ok? || !NextReply(server).0.error.Unauthorized() || req.retried
    ensures var x := Call(store, req, server);
      && x.store == store
      && x.events == [Sent(AttachBearer(store, req))]
      && x.server == NextReply(server).1
      && (match NextReply(server).0
          case Ok(data) => x.result == Success(data)
          case Err(e) => x.result == Failure(e))
  {
  }

  /** A 401 when no usable refresh token is stored: the access token is removed, the page
      is redirected to the login route, the call rejects with the original error and no
      refresh call is made. With no refresh token at all the store ends empty. */
  lemma UnauthorizedWithoutRefreshToken(store: TokenStore, req: Request, server: Server)
    requires !req.retried && !Truthy(store.refresh)
    requires FirstAnswerUnauthorized(server)
    ensures var x := Call(store, req, server);
      && x.result == Failure(NextReply(server).0.error)
      && x.store == TokenStore(None, store.refresh)
      && x.events == [Sent(AttachBearer(store, req)), Redirect(LoginPage)]
      && RenewCalls(x.events) == 0
      && (store.refresh.None? ==> x.store == Cleared)
  {
  }

  /** A 401 followed by a successful renewal: only the access token is overwritten, the
      refresh call carries the stored refresh token, and the request is sent once more,
      marked as retried and carrying the new token as bearer. The call settles with the
      answer to that retry, and a 401 on the retry is rejected as it is. */
  lemma RenewalSucceeds(store: TokenStore, req: Request, server: Server, access: string)
    requires !req.retried && Truthy(store.refresh)
    requires FirstAnswerUnauthorized(server)
    requires NextRenewal(NextReply(server).1).0 == Renewed(access)
    ensures var x := Call(store, req, server);
      var rest := NextRenewal(NextReply(server).1).1;
      var retry := AttachBearer(store, req).(retried := true, authorization := Some(Bearer(access)));
      && x.store == TokenStore(Some(access), store.refresh)
      && |x.events| == 3
      && x.events[1] == RenewCall(store.refresh.value)
      && Transmissions(x.events) == [AttachBearer(store, req), AttachBearer(x.store, retry)]
      && Transmissions(x.events)[1].authorization == Some(Bearer(access))
      && (match NextReply(rest).0
          case Ok(data) => x.result == Success(data)
          case Err(e) => x.result == Failure(e))
  {
    var sent := AttachBearer(store, req);
    var rest1 := NextReply(server).1;
    var rest2 := NextRenewal(rest1).1;
    var renewed := TokenStore(Some(access), store.refresh);
    var retry := sent.(retried := true, authorization := Some(Bearer(access)));
    PassThrough(renewed, retry, rest2);
    var z := Call(renewed, retry, rest2);
    assert OnError(store, sent, NextReply(server).0.error, rest1) == z.(events := [RenewCall(store.refresh.value)] + z.events);
    var x := Call(store, req, server);
    assert x.events == [Sent(sent), RenewCall(store.refresh.value), Sent(AttachBearer(renewed, retry))];
    assert Transmissions(x.events[2..]) == [AttachBearer(renewed, retry)];
    assert Transmissions(x.events[1..]) == [AttachBearer(renewed, retry)];
  }

  /** A 401 followed by a failed renewal: both tokens are removed, the page is redirected
      to the login route and the call rejects with the refresh call's error. */
  lemma RenewalFails(store: TokenStore, req: Request, server: Server, failure: ApiError)
    requires !req.retried && Truthy(store.refresh)
    requires FirstAnswerUnauthorized(server)
    requires NextRenewal(NextReply(server).1).0 == RenewFailed(failure)
    ensures var x := Call(store, req, server);
      && x.result == Failure(failure)
      && x.store == Cleared
      && x.events == [Sent(AttachBearer(store, req)), RenewCall(store.refresh.value), Redirect(LoginPage)]
  {
  }

  /** The pipeline keeps the tokens paired: a store holding both tokens or neither still
      does after any call, whatever the server answers. */
  lemma {:induction false} CallKeepsPairing(store: TokenStore, req: Request, server: Server)
    requires Paired(store)
    ensures Paired(Call(store, req, server).store)
    decreases if req.retried then 0 else 1
  {
    var sent := AttachBearer(store, req);
    var (reply, rest) := NextReply(server);
    if reply.Err? && reply.error.Unauthorized() && !req.retried && Truthy(store.refresh) {
      var (renewal, rest') := NextRenewal(rest);
      if renewal.Renewed? {
        var retry := sent.(retried := true, authorization := Some(Bearer(renewal.access)));
        CallKeepsPairing(store.(access := Some(renewal.access)), retry, rest');
      }
    }
  }

  /** The pipeline never writes a refresh token: after a call the refresh slot holds what it
      held before, or the store has been cleared. */
  lemma {:induction false} RefreshTokenNeverWritten(store: TokenStore, req: Request, server: Server)
    ensures var x := Call(store, req, server);
      x.store.refresh == store.refresh || x.store == Cleared
    decreases if req.retried then 0 else 1
  {
    var sent := AttachBearer(store, req);
    var (reply, rest) := NextReply(server);
    if reply.Err? && reply.error.Unauthorized() && !req.retried && Truthy(store.refresh) {
      var (renewal, rest') := NextRenewal(rest);
      if renewal.Renewed? {
        var retry := sent.(retried := true, authorization := Some(Bearer(renewal.access)));
        RefreshTokenNeverWritten(store.(access := Some(renewal.access)), retry, rest');
      }
    }
  }
}
