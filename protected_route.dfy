/** The route guard in front of the authenticated pages. */
module ProtectedRoute {
  import opened Wrappers
  import opened AuthProvider

  datatype GuardView =
    | LoadingView
    | Redirect(to: string, replace: bool)
    | RenderOutlet

  /** Loading wins over everything; otherwise an unauthenticated visitor is
      sent to the login page, replacing the history entry; otherwise the
      nested route renders. */
  function Guard(isLoading: bool, isAuthenticated: bool): (r: GuardView)
    ensures isLoading ==> r == LoadingView
    ensures !isLoading && !isAuthenticated ==> r == Redirect(LoginRoute, true)
    ensures !isLoading && isAuthenticated ==> r == RenderOutlet
    ensures r.Redirect? ==> r.to == LoginRoute && r.replace
  {
    if isLoading then LoadingView
    else if !isAuthenticated then Redirect(LoginRoute, true)
    else RenderOutlet
  }

  /** The guard under the provider: the protected pages render exactly when
      the user query is settled, holds data and carries no error. */
  lemma GuardOverQuery(q: QueryState)
    ensures var c := Context(q);
      Guard(c.isLoading, c.isAuthenticated) == RenderOutlet <==> !q.isLoading && q.data.Some? && !q.error
    ensures var c := Context(q);
      Guard(c.isLoading, c.isAuthenticated).Redirect? <==> !q.isLoading && (q.data.None? || q.error)
  {
  }
}
