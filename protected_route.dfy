/**
 * ProtectedRoute (components/protected-route.tsx): renders its children only
 * to an authenticated user once the session check is over, shows a spinner
 * while it runs, and sends everyone else to `redirectTo`.
 */
module ProtectedRoute {
  import opened Wrappers
  import opened Ui

  const DefaultRedirect := "/auth"

  /**
   * The render choice and the effect's redirect for the given session
   * state; `redirectTo` is None when the prop is omitted.
   */
  function Guard(isLoading: bool, isAuthenticated: bool, redirectTo: Option<string>): (d: Decision)
    ensures d.view == Spinner <==> isLoading
    ensures d.view == Content <==> !isLoading && isAuthenticated
    ensures d.redirect.Some? <==> !isLoading && !isAuthenticated
    ensures d.redirect.Some? ==> d.view == Nothing && d.redirect.value == redirectTo.GetOr(DefaultRedirect)
  {
    var redirect := if !isLoading && !isAuthenticated then Some(redirectTo.GetOr(DefaultRedirect)) else None;
    var view := if isLoading then Spinner else if !isAuthenticated then Nothing else Content;
    Decision(view, redirect)
  }
}
