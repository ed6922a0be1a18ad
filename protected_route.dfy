/** The route guard in front of the account and admin pages. */
module ProtectedRoute {
  import opened Wrappers
  import opened Session

  /** What the guard renders. */
  datatype Outcome = Spinner | RedirectToLogin | AccessDenied | Children

  /** The cascade: while the session is being restored, a spinner; then, without a token or
      without a user, the login page; then, when a role is required (`requiredRole` is ""
      for `null`) and the user's differs, the access-denied page; otherwise the page itself. */
  function Guard(loading: bool, token: string, user: Option<User>, requiredRole: string): (o: Outcome)
    ensures loading ==> o == Spinner
    ensures !loading && (token == "" || user.None?) ==> o == RedirectToLogin
    ensures o == AccessDenied <==>
      !loading && token != "" && user.Some? && requiredRole != "" && user.value.role != requiredRole
    ensures o == Children <==>
      !loading && token != "" && user.Some? && (requiredRole == "" || user.value.role == requiredRole)
  {
    if loading then Spinner
    else if token == "" || user.None? then RedirectToLogin
    else if requiredRole != "" && user.value.role != requiredRole then AccessDenied
    else Children
  }

  /** A page that needs no role admits every signed-in user, and any page a role-checked
      route admits is admitted without the check too. */
  lemma NoRoleAdmitsSignedIn(loading: bool, token: string, user: Option<User>, role: string)
    ensures Guard(loading, token, user, "") == Children <==> !loading && token != "" && user.Some?
    ensures Guard(loading, token, user, role) == Children ==> Guard(loading, token, user, "") == Children
  {
  }

  /** The admin pages: once the session is settled, only a signed-in user whose role is
      "admin" gets through. */
  lemma AdminOnly(token: string, user: Option<User>)
    ensures Guard(false, token, user, "admin") == Children <==>
      token != "" && user.Some? && user.value.role == "admin"
  {
  }
}
