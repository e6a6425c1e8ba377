/** The session as the whole front end drives it: the auth state and the token store under
    any sequence of the commands the pages issue (the mount-time check, login, register,
    logout, and any other call through `api`), one at a time. */
module Session {
  import opened Wrappers
  import opened Api
  import opened AuthSlice

  datatype Session = Session(auth: AuthState, store: TokenStore)

  datatype Command =
    | Check                                   // dispatch(checkAuth())
    | SignIn(email: string, password: string) // dispatch(login(...))
    | SignUp(form: string)                    // dispatch(register(...))
    | SignOut                                 // dispatch(logout())
    | Fetch(request: Request)                 // any other call through `api`

  /** One command against the script; the session it leaves and the rest of the script. */
  function Step(st: Session, c: Command, server: Server): (Session, Server) {
    match c
    case Check =>
      var run := CheckAuthThunk(st.store, server);
      (Session(Dispatch(st.auth, CheckAuth, run), run.store), run.server)
    case SignIn(email, password) =>
      var run := LoginThunk(st.store, server, email, password);
      (Session(Dispatch(st.auth, Login, run), run.store), run.server)
    case SignUp(form) =>
      var run := RegisterThunk(st.store, server, form);
      (Session(Dispatch(st.auth, Register, run), run.store), run.server)
    case SignOut =>
      var run := LogoutThunk(st.store, server);
      (Session(Dispatch(st.auth, Logout, run), run.store), run.server)
    case Fetch(req) =>
      var x := Call(st.store, req, server);
      (st.(store := x.store), x.server)
  }

  /** The commands in order. */
  function Run(st: Session, commands: seq<Command>, server: Server): Session
    decreases |commands|
  {
    if commands == [] then st
    else
      var (next, rest) := Step(st, commands[0], server);
      Run(next, commands[1..], rest)
  }

  /** Every token pair the script issues has a usable refresh token. */
  predicate IssuesUsableRefresh(server: Server) {
    forall r :: r in server.replies && r.Ok? && r.data.TokenPair? ==> r.data.refresh != ""
  }

  /** `checkAuth` keeps the tokens paired and uses up part of the script. */
  lemma CheckKeepsPairing(store: TokenStore, server: Server)
    requires Paired(store)
    ensures Paired(CheckAuthThunk(store, server).store)
    ensures forall r :: r in CheckAuthThunk(store, server).server.replies ==> r in server.replies
  {
    if Truthy(store.access) {
      var verify := Call(store, VerifyRequest(store.access.value), server);
      CallKeepsPairing(store, VerifyRequest(store.access.value), server);
      if verify.result.Success? {
        CallKeepsPairing(verify.store, MeRequest, verify.server);
      }
    }
  }

  /** `login` keeps the tokens paired, provided the pair it stores has a usable refresh
      token, and uses up part of the script. */
  lemma SignInKeepsPairing(store: TokenStore, server: Server, email: string, password: string)
    requires Paired(store) && IssuesUsableRefresh(server)
    ensures Paired(LoginThunk(store, server, email, password).store)
    ensures forall r :: r in LoginThunk(store, server, email, password).server.replies ==> r in server.replies
  {
    var issue := Call(store, TokenRequest(email, password), server);
    CallKeepsPairing(store, TokenRequest(email, password), server);
    if issue.result.Success? {
      var written := TokenStore(Some(IssuedAccess(issue.result.value)), Some(IssuedRefresh(issue.result.value)));
      assert Paired(written);
      CallKeepsPairing(written, MeRequest, issue.server);
    }
  }

  /** One command keeps the tokens paired and uses up part of the script. */
  lemma StepKeepsPairing(st: Session, c: Command, server: Server)
    requires Paired(st.store) && IssuesUsableRefresh(server)
    ensures Paired(Step(st, c, server).0.store)
    ensures forall r :: r in Step(st, c, server).1.replies ==> r in server.replies
  {
    match c
    case Check =>
      CheckKeepsPairing(st.store, server);
    case SignIn(email, password) =>
      SignInKeepsPairing(st.store, server, email, password);
    case SignUp(form) =>
      CallKeepsPairing(st.store, RegisterRequest(form), server);
    case SignOut =>
    case Fetch(req) =>
      CallKeepsPairing(st.store, req, server);
  }

  /** Between commands the store holds both tokens or neither, for every sequence of
      commands, provided the identity service never issues an empty refresh token. */
  lemma {:induction false} RunKeepsPairing(st: Session, commands: seq<Command>, server: Server)
    requires Paired(st.store) && IssuesUsableRefresh(server)
    ensures Paired(Run(st, commands, server).store)
    decreases |commands|
  {
    if commands != [] {
      StepKeepsPairing(st, commands[0], server);
      var (next, rest) := Step(st, commands[0], server);
      RunKeepsPairing(next, commands[1..], rest);
    }
  }

  /** Signing out from any session ends logged out with an empty store. */
  lemma SignOutClears(st: Session, server: Server)
    ensures var next := Step(st, SignOut, server).0;
      next.store == Cleared && !next.auth.isAuthenticated && next.auth.user.None?
  {
  }

  /** An issued pair with an empty refresh token breaks the pairing: a later 401 removes
      the access token and leaves the empty refresh token behind. */
  lemma EmptyRefreshBreaksPairing(email: string, password: string, profile: Json, data: string)
    ensures var st := Step(Session(InitialState, Cleared), SignIn(email, password),
                           Server([Ok(TokenPair("a", "")), Ok(profile)], [])).0;
      var after := Step(st, Fetch(MeRequest), Server([Err(HttpError(401, data))], [])).0;
      Paired(st.store) == false && after.store == TokenStore(None, Some(""))
  {
    var server := Server([Ok(TokenPair("a", "")), Ok(profile)], []);
    PassThrough(Cleared, TokenRequest(email, password), server);
    var issue := Call(Cleared, TokenRequest(email, password), server);
    assert issue.server.replies == [Ok(profile)];
    PassThrough(TokenStore(Some("a"), Some("")), MeRequest, issue.server);
    UnauthorizedWithoutRefreshToken(TokenStore(Some("a"), Some("")), MeRequest, Server([Err(HttpError(401, data))], []));
  }
}
