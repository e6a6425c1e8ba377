/** The application shell (`frontend/src/App.tsx`): the `ProtectedRoute` decision and the
    `checkAuth` dispatched when the application mounts. */
module App {
  import opened Wrappers
  import opened Api
  import opened AuthSlice

  /** What a protected route shows: the loading placeholder, a redirect, or its children. */
  datatype View = LoadingPlaceholder | NavigateTo(path: string) | Children

  /** `ProtectedRoute`: the placeholder while the auth state is loading, whatever it says
      about the user; once loaded, the children exactly when someone is logged in, and a
      redirect to the login page otherwise. */
  function ProtectedRoute(s: AuthState): (v: View)
    ensures s.loading ==> v == LoadingPlaceholder
    ensures v == Children <==> !s.loading && s.isAuthenticated
    ensures v.NavigateTo? <==> !s.loading && !s.isAuthenticated
    ensures v.NavigateTo? ==> v.path == LoginPage
  {
    if s.loading then LoadingPlaceholder
    else if !s.isAuthenticated then NavigateTo(LoginPage)
    else Children
  }

  /** The effect on mount: `dispatch(checkAuth())` from the initial state. The protected
      routes then show their children exactly when the check resolved, and redirect to the
      login page exactly when it was rejected. */
  function Mount(store: TokenStore, server: Server): (m: (AuthState, ThunkRun))
    ensures m.1 == CheckAuthThunk(store, server)
    ensures ProtectedRoute(m.0) == Children <==> m.1.outcome.Resolved?
    ensures ProtectedRoute(m.0) == NavigateTo(LoginPage) <==> m.1.outcome.RejectedWith?
  {
    var run := CheckAuthThunk(store, server);
    (Dispatch(InitialState, CheckAuth, run), run)
  }

  /** Every action in order, from `s`. */
  function ReduceAll(s: AuthState, actions: seq<Action>): AuthState
    decreases |actions|
  {
    if actions == [] then s else ReduceAll(Reduce(s, actions[0]), actions[1..])
  }

  /** The actions that end a load: a thunk other than `logout` settling. */
  predicate Settles(a: Action) {
    (a.Fulfilled? || a.Rejected?) && a.thunk != Logout
  }

  /** Because the initial state is loading, a protected route shows the placeholder, and
      in particular never redirects, until the first `checkAuth`, `login` or `register`
      settles, whatever other actions come first. */
  lemma {:induction false} NoRedirectBeforeFirstSettlement(s: AuthState, actions: seq<Action>)
    requires s.loading
    requires forall i :: 0 <= i < |actions| ==> !Settles(actions[i])
    ensures ReduceAll(s, actions).loading
    ensures ProtectedRoute(ReduceAll(s, actions)) == LoadingPlaceholder
    decreases |actions|
  {
    if actions != [] {
      assert !Settles(actions[0]);
      NoRedirectBeforeFirstSettlement(Reduce(s, actions[0]), actions[1..]);
    }
  }

  /** Mounting with no truthy access token redirects to the login page without any
      network call. */
  lemma MountWithoutToken(store: TokenStore, server: Server)
    requires !Truthy(store.access)
    ensures ProtectedRoute(Mount(store, server).0) == NavigateTo(LoginPage)
    ensures Mount(store, server).1.events == []
  {
  }
}
