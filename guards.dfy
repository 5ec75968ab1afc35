/**
  The router guards: requireAuth keeps signed-out visitors out of protected
  routes, requireNoAuth keeps signed-in users out of the sign-in pages. Each
  reads the auth store's token and resolves the navigation with exactly one
  `next` call, which is the value a guard returns here.
 */
module Guards {
  import opened Wrappers
  import opened Frontend
  import opened AuthStore

  /** The argument of the guard's single `next` call: none, or a named redirect. */
  datatype Next = Proceed | Redirect(name: string)

  /** requireAuth: without a truthy token, to the landing page. */
  function RequireAuth(token: Option<string>): (r: Next)
    ensures r == Proceed <==> JsTruthy(token)
    ensures r != Proceed ==> r == Redirect("landing")
  {
    if !JsTruthy(token) then Redirect("landing") else Proceed
  }

  /** requireNoAuth: with a truthy token, to the home page. */
  function RequireNoAuth(token: Option<string>): (r: Next)
    ensures r == Proceed <==> !JsTruthy(token)
    ensures r != Proceed ==> r == Redirect("home")
  {
    if JsTruthy(token) then Redirect("home") else Proceed
  }

  /** Whatever the token, exactly one of the two guards lets the navigation through. */
  lemma ExactlyOneProceeds(token: Option<string>)
    ensures (RequireAuth(token) == Proceed) != (RequireNoAuth(token) == Proceed)
  {
  }

  /** The guards agree with the store's getter: requireAuth passes exactly the authenticated,
      requireNoAuth exactly the others. */
  lemma GuardsFollowTheStore(st: AuthState)
    ensures RequireAuth(st.token) == Proceed <==> IsAuthenticated(st)
    ensures RequireNoAuth(st.token) == Proceed <==> !IsAuthenticated(st)
  {
  }

  /** After logout protected routes lead to the landing page and the sign-in pages are open;
      after a rejected login or registration the guards decide as before. */
  lemma GuardsAfterStoreActions(st: AuthState, body: Option<ErrorBody>, generic: string, stringify: Option<User> -> string)
    ensures RequireAuth(LoggedOut(st).token) == Redirect("landing")
    ensures RequireNoAuth(LoggedOut(st).token) == Proceed
    ensures var (r, _) := Authenticated(st, Rejected(body), generic, stringify);
      RequireAuth(r.token) == RequireAuth(st.token) && RequireNoAuth(r.token) == RequireNoAuth(st.token)
  {
  }

  /** A login or registration accepted with a non-empty token opens protected routes and sends
      the sign-in pages home. */
  lemma GuardsAfterSignIn(st: AuthState, user: Option<User>, token: string, generic: string,
                          stringify: Option<User> -> string)
    requires token != ""
    ensures var (r, _) := Authenticated(st, Accepted(user, Some(token)), generic, stringify);
      RequireAuth(r.token) == Proceed && RequireNoAuth(r.token) == Redirect("home")
  {
  }
}
