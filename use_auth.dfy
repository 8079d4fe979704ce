/** src/hooks/useAuth/useAuth.ts: the authentication state the pages see,
    derived from Auth0's flags, and the options of the login and logout
    redirects. The redirects themselves belong to Auth0 and are not modelled. */
module UseAuth {
  import opened Options
  import opened Types

  /** Auth: only the AUTHENTICATED state carries a user (and offers logout);
      the others offer login */
  datatype Auth =
    | Loading
    | Errored(error: string)
    | Unauthenticated
    | Authenticated(user: User)

  /** useAuth(): loading first, then an error, then the authentication flag */
  function UseAuth(isLoading: bool, error: Option<string>, isAuthenticated: bool, user: User): Auth {
    if isLoading then Loading
    else if error.Some? then Errored(error.value)
    else if isAuthenticated then Authenticated(user)
    else Unauthenticated
  }

  /** Each state arises from exactly the inputs below, so every input maps to
      exactly one state; the loading flag outranks an error and the
      authentication flag, and an error outranks the authentication flag */
  lemma UseAuthStates(isLoading: bool, error: Option<string>, isAuthenticated: bool, user: User)
    ensures var a := UseAuth(isLoading, error, isAuthenticated, user);
      (a.Loading? <==> isLoading) &&
      (a.Errored? <==> !isLoading && error.Some?) &&
      (a.Authenticated? <==> !isLoading && error.None? && isAuthenticated) &&
      (a.Unauthenticated? <==> !isLoading && error.None? && !isAuthenticated) &&
      (a.Errored? ==> a.error == error.value) &&
      (a.Authenticated? ==> a.user == user)
  {
  }

  /** An Auth0 appState: an object of arbitrary fields */
  type AppState = map<string, JsValue>

  /** The options login() passes to loginWithRedirect */
  datatype LoginRedirect = LoginRedirect(redirectUri: string, appState: AppState)

  /** login(opt): appState holds returnTo, the current pathname, overridden by
      the fields of the caller's appState */
  function Login(origin: string, pathname: string, opt: Option<AppState>): (r: LoginRedirect)
    ensures r.redirectUri == origin
  {
    var given := if opt.Some? then opt.value else map[];
    LoginRedirect(origin, map["returnTo" := Str(pathname)] + given)
  }

  /** returnTo defaults to the current pathname, a caller's appState field
      overrides it, and every field the caller gives is kept as given */
  lemma LoginAppState(origin: string, pathname: string, opt: Option<AppState>)
    ensures var s := Login(origin, pathname, opt).appState;
      "returnTo" in s &&
      (opt.None? || "returnTo" !in opt.value ==> s["returnTo"] == Str(pathname)) &&
      (opt.Some? ==> forall k :: k in opt.value ==> k in s && s[k] == opt.value[k]) &&
      (forall k :: k in s ==> k == "returnTo" || (opt.Some? && k in opt.value))
  {
  }

  /** logout(opt): returnTo is opt?.returnTo ?? the window's origin */
  function LogoutReturnTo(origin: string, optReturnTo: Option<Option<string>>): (r: string)
    ensures optReturnTo.Some? && optReturnTo.value.Some? ==> r == optReturnTo.value.value
    ensures optReturnTo.None? || optReturnTo.value.None? ==> r == origin
  {
    match optReturnTo
    case Some(Some(returnTo)) => returnTo
    case _ => origin
  }
}
