/** The authentication slice of the front end (`frontend/src/features/auth/authSlice.ts`):
    the `checkAuth`, `login`, `register` and `logout` thunks with their effect on the token
    store, and the reducer that turns their lifecycle actions into the auth state.
    Every network call of the thunks goes through the intercepted client of module `Api`. */
module AuthSlice {
  import opened Wrappers
  import opened Api

  /** `AuthState`; `user` is the profile body the identity service returned. */
  datatype AuthState = AuthState(user: Option<Json>, isAuthenticated: bool, loading: bool, error: Option<string>)

  /** `initialState`: nobody is logged in and the first check is still to come. */
  const InitialState := AuthState(None, false, true, None)

  datatype Thunk = CheckAuth | Login | Register | Logout

  /** The lifecycle actions of the thunks, and the `clearError` action. */
  datatype Action =
    | Pending(thunk: Thunk)
    | Fulfilled(thunk: Thunk, payload: Option<Json>)
    | Rejected(thunk: Thunk, reason: string)
    | ClearError

  const NotAuthenticated := "Não autenticado"
  const VerifyFailed := "Erro ao verificar autenticação"
  const LoginFailed := "Erro ao fazer login"
  const RegisterFailed := "Erro ao registrar"

  /** What `localStorage.setItem` stores for a field the body lacks: `String(undefined)`. */
  const Undefined := "undefined"

  /** The reducer: `clearError` and the `extraReducers` cases. `logout.pending` and
      `logout.rejected` have no case and leave the state as it is. */
  function Reduce(s: AuthState, a: Action): (r: AuthState)
    ensures a.ClearError? ==>
      r.user == s.user && r.isAuthenticated == s.isAuthenticated && r.loading == s.loading && r.error.None?
    ensures a.Pending? && a.thunk != Logout ==>
      r.user == s.user && r.isAuthenticated == s.isAuthenticated && r.loading && r.error == s.error
    ensures a.Fulfilled? && (a.thunk == CheckAuth || a.thunk == Login) ==>
      r.user == a.payload && r.isAuthenticated && !r.loading && r.error.None?
    ensures a.Fulfilled? && a.thunk == Register ==>
      r.user == s.user && r.isAuthenticated == s.isAuthenticated && !r.loading && r.error.None?
    ensures a.Fulfilled? && a.thunk == Logout ==>
      r.user.None? && !r.isAuthenticated && r.loading == s.loading && r.error == s.error
    ensures a.Rejected? && a.thunk == CheckAuth ==>
      r.user.None? && !r.isAuthenticated && !r.loading && r.error == Some(a.reason)
    ensures a.Rejected? && (a.thunk == Login || a.thunk == Register) ==>
      r.user == s.user && r.isAuthenticated == s.isAuthenticated && !r.loading && r.error == Some(a.reason)
    ensures (a.Pending? || a.Rejected?) && a.thunk == Logout ==> r == s
  {
    match a
    case ClearError => s.(error := None)
    case Pending(k) => if k == Logout then s else s.(loading := true)
    case Fulfilled(k, payload) =>
      (match k
       case CheckAuth => AuthState(payload, true, false, None)
       case Login => AuthState(payload, true, false, None)
       case Register => s.(loading := false, error := None)
       case Logout => s.(isAuthenticated := false, user := None))
    case Rejected(k, reason) =>
      (match k
       case CheckAuth => AuthState(None, false, false, Some(reason))
       case Login => s.(loading := false, error := Some(reason))
       case Register => s.(loading := false, error := Some(reason))
       case Logout => s)
  }

  /** How a thunk's promise settled: `return value` or `rejectWithValue(reason)`. */
  datatype Settled = Resolved(payload: Option<Json>) | RejectedWith(reason: string)

  /** One run of a thunk: how it settled, the store it left, the rest of the server script
      and everything it did on the wire. */
  datatype ThunkRun = ThunkRun(outcome: Settled, store: TokenStore, server: Server, events: seq<Event>)

  /** `error.response?.data || fallback` */
  function Reason(e: ApiError, fallback: string): (r: string)
    ensures r != "" || fallback == ""
    ensures e.HttpError? && e.data != "" ==> r == e.data
  {
    if e.HttpError? && e.data != "" then e.data else fallback
  }

  /** The action a settled thunk dispatches. */
  function Settle(k: Thunk, outcome: Settled): Action {
    match outcome
    case Resolved(p) => Fulfilled(k, p)
    case RejectedWith(r) => Rejected(k, r)
  }

  /** `dispatch(thunk())`: the pending action, then the settling one. */
  function Dispatch(s: AuthState, k: Thunk, run: ThunkRun): AuthState {
    Reduce(Reduce(s, Pending(k)), Settle(k, run.outcome))
  }

  function VerifyRequest(token: string): Request {
    Request("POST", "/api/token/verify/", TokenBody(token), None, false)
  }

  const MeRequest := Request("GET", "/api/v1/users/users/me/", NoBody, None, false)

  function TokenRequest(email: string, password: string): Request {
    Request("POST", "/api/token/", Credentials(email, password), None, false)
  }

  function RegisterRequest(form: string): Request {
    Request("POST", "/api/v1/users/users/", Form(form), None, false)
  }

  /** `checkAuth`: with no truthy access token it rejects at once, without touching the
      network or the store. Otherwise it verifies the token and fetches the profile, both
      through `api`; if either fails both tokens are removed, and on success the profile is
      the payload. */
  function CheckAuthThunk(store: TokenStore, server: Server): (r: ThunkRun)
    ensures !Truthy(store.access) ==> r == ThunkRun(RejectedWith(NotAuthenticated), store, server, [])
    ensures Truthy(store.access) && r.outcome.RejectedWith? ==> r.store == Cleared
    ensures Truthy(store.access) ==> |Transmissions(r.events)| >= 1 && Transmissions(r.events)[0] == AttachBearer(store, VerifyRequest(store.access.value))
    ensures r.outcome.Resolved? ==> r.outcome.payload.Some?
    ensures Truthy(store.access) ==>
      var verify := Call(store, VerifyRequest(store.access.value), server);
      var me := Call(verify.store, MeRequest, verify.server);
      && (r.outcome.Resolved? <==> verify.result.Success? && me.result.Success?)
      && (r.outcome.Resolved? ==> r.outcome.payload == Some(me.result.value) && r.store == me.store)
  {
    if !Truthy(store.access) then ThunkRun(RejectedWith(NotAuthenticated), store, server, [])
    else
      var verify := Call(store, VerifyRequest(store.access.value), server);
      TransmissionsAppend(verify.events, []);
      if verify.result.Failure? then
        ThunkRun(RejectedWith(Reason(verify.result.error, VerifyFailed)), Cleared, verify.server, verify.events)
      else
        var me := Call(verify.store, MeRequest, verify.server);
        TransmissionsAppend(verify.events, me.events);
        match me.result
        case Failure(e) => ThunkRun(RejectedWith(Reason(e, VerifyFailed)), Cleared, me.server, verify.events + me.events)
        case Success(profile) => ThunkRun(Resolved(Some(profile)), me.store, me.server, verify.events + me.events)
  }

  /** `login`: asks the token endpoint through `api`; on success stores the access token,
      then the refresh token, and fetches the profile through `api` with them. A failure of
      either call rejects; the token write is not undone. */
  function LoginThunk(store: TokenStore, server: Server, email: string, password: string): (r: ThunkRun)
    ensures |Transmissions(r.events)| >= 1 && Transmissions(r.events)[0] == AttachBearer(store, TokenRequest(email, password))
    ensures r.outcome.Resolved? ==> r.outcome.payload.Some?
    ensures var issue := Call(store, TokenRequest(email, password), server);
      issue.result.Failure? ==> r == ThunkRun(RejectedWith(Reason(issue.result.error, LoginFailed)), issue.store, issue.server, issue.events)
  {
    var issue := Call(store, TokenRequest(email, password), server);
    TransmissionsAppend(issue.events, []);
    match issue.result
    case Failure(e) => ThunkRun(RejectedWith(Reason(e, LoginFailed)), issue.store, issue.server, issue.events)
    case Success(body) =>
      var written := TokenStore(Some(IssuedAccess(body)), Some(IssuedRefresh(body)));
      var me := Call(written, MeRequest, issue.server);
      TransmissionsAppend(issue.events, me.events);
      match me.result
      case Failure(e) => ThunkRun(RejectedWith(Reason(e, LoginFailed)), me.store, me.server, issue.events + me.events)
      case Success(profile) => ThunkRun(Resolved(Some(profile)), me.store, me.server, issue.events + me.events)
  }

  /** `response.data.access` as `localStorage` stores it. */
  function IssuedAccess(body: Json): string {
    if body.TokenPair? then body.access else Undefined
  }

  /** `response.data.refresh` as `localStorage` stores it. */
  function IssuedRefresh(body: Json): string {
    if body.TokenPair? then body.refresh else Undefined
  }

  /** `register`: one POST through `api`; the created user is the payload. */
  function RegisterThunk(store: TokenStore, server: Server, form: string): (r: ThunkRun)
    ensures |Transmissions(r.events)| >= 1 && Transmissions(r.events)[0].body == Form(form)
    ensures r.outcome.RejectedWith? ==> r.outcome.reason != ""
    ensures var x := Call(store, RegisterRequest(form), server);
      && r.store == x.store && r.events == x.events
      && (r.outcome.Resolved? <==> x.result.Success?)
      && (x.result.Success? ==> r.outcome.payload == Some(x.result.value))
      && (x.result.Failure? ==> r.outcome.reason == Reason(x.result.error, RegisterFailed))
  {
    var x := Call(store, RegisterRequest(form), server);
    match x.result
    case Failure(e) => ThunkRun(RejectedWith(Reason(e, RegisterFailed)), x.store, x.server, x.events)
    case Success(created) => ThunkRun(Resolved(Some(created)), x.store, x.server, x.events)
  }

  /** `logout`: removes both tokens; no network call is made and it always resolves. */
  function LogoutThunk(store: TokenStore, server: Server): (r: ThunkRun)
    ensures r.store == Cleared && r.events == [] && r.server == server && r.outcome.Resolved?
  {
    ThunkRun(Resolved(None), Cleared, server, [])
  }

  /** The initial state shows nobody logged in, still loading. */
  lemma InitialStateIsLoading()
    ensures InitialState.user.None? && !InitialState.isAuthenticated
    ensures InitialState.loading && InitialState.error.None?
  {
  }

  /** `checkAuth` with no truthy access token: rejected with 'Não autenticado' before any
      network call, and the state ends logged out and no longer loading. */
  lemma CheckAuthWithoutToken(s: AuthState, store: TokenStore, server: Server)
    requires !Truthy(store.access)
    ensures var run := CheckAuthThunk(store, server);
      && run.events == [] && run.store == store
      && Dispatch(s, CheckAuth, run) == AuthState(None, false, false, Some(NotAuthenticated))
  {
  }

  /** A failed `checkAuth` after a token was found removes both tokens and leaves the user
      logged out, no longer loading. */
  lemma CheckAuthFailureLogsOut(s: AuthState, store: TokenStore, server: Server)
    requires Truthy(store.access)
    requires CheckAuthThunk(store, server).outcome.RejectedWith?
    ensures var run := CheckAuthThunk(store, server);
      var t := Dispatch(s, CheckAuth, run);
      run.store == Cleared && !t.isAuthenticated && t.user.None? && !t.loading
  {
  }

  /** The stored token verifies and the profile is served: `checkAuth` resolves with that
      profile, keeps both tokens, and the state ends authenticated with no error. */
  lemma CheckAuthSucceeds(s: AuthState, store: TokenStore, v: Json, profile: Json,
                          rest: seq<Reply>, renewals: seq<Renewal>)
    requires Truthy(store.access)
    ensures var run := CheckAuthThunk(store, Server([Ok(v), Ok(profile)] + rest, renewals));
      && run.outcome == Resolved(Some(profile))
      && run.store == store
      && Dispatch(s, CheckAuth, run) == AuthState(Some(profile), true, false, None)
  {
    var server := Server([Ok(v), Ok(profile)] + rest, renewals);
    var req := VerifyRequest(store.access.value);
    PassThrough(store, req, server);
    var verify := Call(store, req, server);
    assert verify.server.replies == [Ok(profile)] + rest;
    PassThrough(store, MeRequest, verify.server);
  }

  /** The identity service creates the user: `register` resolves with the created user,
      leaves the store alone, and the state ends loaded with no error and the same session. */
  lemma RegisterSucceeds(s: AuthState, store: TokenStore, form: string, created: Json,
                         rest: seq<Reply>, renewals: seq<Renewal>)
    ensures var run := RegisterThunk(store, Server([Ok(created)] + rest, renewals), form);
      && run.outcome == Resolved(Some(created))
      && run.store == store
      && Dispatch(s, Register, run) == s.(loading := false, error := None)
  {
    PassThrough(store, RegisterRequest(form), Server([Ok(created)] + rest, renewals));
  }

  /** The identity service refuses the registration with anything but a 401: `register`
      rejects with the error body, or with 'Erro ao registrar' when the body is empty. */
  lemma RegisterRejected(s: AuthState, store: TokenStore, form: string, e: ApiError,
                         rest: seq<Reply>, renewals: seq<Renewal>)
    requires !e.Unauthorized()
    ensures var run := RegisterThunk(store, Server([Err(e)] + rest, renewals), form);
      && run.outcome == RejectedWith(Reason(e, RegisterFailed))
      && run.store == store
      && Dispatch(s, Register, run) == s.(loading := false, error := Some(Reason(e, RegisterFailed)))
  {
    PassThrough(store, RegisterRequest(form), Server([Err(e)] + rest, renewals));
  }

  /** The identity service accepts the credentials and returns the profile: the pair is
      stored, the profile request carries the issued access token, and the state ends
      authenticated with that profile and no error. */
  lemma LoginSucceeds(s: AuthState, store: TokenStore, email: string, password: string,
                      access: string, refresh: string, profile: Json, rest: seq<Reply>, renewals: seq<Renewal>)
    requires access != ""
    ensures var run := LoginThunk(store, Server([Ok(TokenPair(access, refresh)), Ok(profile)] + rest, renewals), email, password);
      var t := Dispatch(s, Login, run);
      && run.store == TokenStore(Some(access), Some(refresh))
      && Transmissions(run.events)[1].authorization == Some(Bearer(access))
      && t == AuthState(Some(profile), true, false, None)
  {
    var server := Server([Ok(TokenPair(access, refresh)), Ok(profile)] + rest, renewals);
    var issue := Call(store, TokenRequest(email, password), server);
    PassThrough(store, TokenRequest(email, password), server);
    assert issue.server.replies == [Ok(profile)] + rest;
    var written := TokenStore(Some(access), Some(refresh));
    PassThrough(written, MeRequest, issue.server);
    TransmissionsAppend(issue.events, Call(written, MeRequest, issue.server).events);
  }

  /** The token call succeeds but the profile request fails with anything but a 401:
      `login` rejects, yet both issued tokens stay stored. */
  lemma LoginProfileFailureKeepsTokens(store: TokenStore, email: string, password: string,
                                      access: string, refresh: string, e: ApiError, rest: seq<Reply>, renewals: seq<Renewal>)
    requires !e.Unauthorized()
    ensures var run := LoginThunk(store, Server([Ok(TokenPair(access, refresh)), Err(e)] + rest, renewals), email, password);
      && run.outcome == RejectedWith(Reason(e, LoginFailed))
      && run.store == TokenStore(Some(access), Some(refresh))
  {
    var server := Server([Ok(TokenPair(access, refresh)), Err(e)] + rest, renewals);
    var issue := Call(store, TokenRequest(email, password), server);
    PassThrough(store, TokenRequest(email, password), server);
    assert issue.server.replies == [Err(e)] + rest;
    PassThrough(TokenStore(Some(access), Some(refresh)), MeRequest, issue.server);
  }

  /** `login.rejected` touches only `loading` and `error`: whoever was logged in stays so. */
  lemma LoginRejectedKeepsSession(s: AuthState, reason: string)
    ensures var t := Reduce(s, Rejected(Login, reason));
      t.isAuthenticated == s.isAuthenticated && t.user == s.user && !t.loading && t.error == Some(reason)
  {
  }

  /** The token request itself goes through the response interceptor. Rejected with a 401
      while no usable refresh token is stored, the attempt removes whatever access token
      was stored and redirects to the login page. */
  lemma FailedLoginWithoutRefreshToken(store: TokenStore, email: string, password: string, data: string, rest: seq<Reply>, renewals: seq<Renewal>)
    requires !Truthy(store.refresh)
    ensures var run := LoginThunk(store, Server([Err(HttpError(401, data))] + rest, renewals), email, password);
      && run.outcome.RejectedWith?
      && run.store == TokenStore(None, store.refresh)
      && Redirect(LoginPage) in run.events
      && RenewCalls(run.events) == 0
  {
    var server := Server([Err(HttpError(401, data))] + rest, renewals);
    UnauthorizedWithoutRefreshToken(store, TokenRequest(email, password), server);
  }

  /** A failed re-login while a session is stored: the 401 on the token request makes the
      interceptor spend the stored refresh token, and when that renewal fails the whole
      stored session is wiped. */
  lemma FailedReLoginWipesSession(access: string, refresh: string, email: string, password: string,
                                  data: string, failure: ApiError, rest: seq<Reply>, renewals: seq<Renewal>)
    requires refresh != ""
    ensures var run := LoginThunk(TokenStore(Some(access), Some(refresh)),
                                  Server([Err(HttpError(401, data))] + rest, [RenewFailed(failure)] + renewals), email, password);
      && run.outcome == RejectedWith(Reason(failure, LoginFailed))
      && run.store == Cleared
      && RenewCalls(run.events) == 1
  {
    var store := TokenStore(Some(access), Some(refresh));
    var server := Server([Err(HttpError(401, data))] + rest, [RenewFailed(failure)] + renewals);
    RenewalFails(store, TokenRequest(email, password), server, failure);
  }

  /** `logout` removes both tokens and logs the user out, leaving `loading` and `error` as
      they were. */
  lemma LogoutLogsOut(s: AuthState, store: TokenStore, server: Server)
    ensures var run := LogoutThunk(store, server);
      var t := Dispatch(s, Logout, run);
      && run.store == Cleared
      && t == s.(isAuthenticated := false, user := None)
  {
  }

  /** No stage of `register` changes who is logged in. */
  lemma RegisterNeverAuthenticates(s: AuthState, run: ThunkRun)
    ensures var t := Dispatch(s, Register, run);
      t.isAuthenticated == s.isAuthenticated && t.user == s.user && !t.loading
  {
  }

  /** Only the fulfilment of `checkAuth` or `login` logs a user in. */
  lemma OnlyFulfilmentAuthenticates(s: AuthState, a: Action)
    requires !s.isAuthenticated && Reduce(s, a).isAuthenticated
    ensures a == Fulfilled(CheckAuth, a.payload) || a == Fulfilled(Login, a.payload)
  {
  }
}
