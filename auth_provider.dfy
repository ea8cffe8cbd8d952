/** The client's authentication context: the state derived from the
    `/api/auth/manage/info` query, and the ordered steps of `logout`. The
    query's result (data, loading flag, error) is an input. */
module AuthProvider {
  import opened Wrappers

  const LogoutPath: string := "/api/auth/logout"
  const LoginRoute: string := "/login"

  /** The user info the manage-info query returns. */
  datatype InfoResponse = InfoResponse(email: string, isEmailConfirmed: bool)

  /** What the query hook reports: `data` is undefined until a response
      arrives, and `error` is set when the last fetch failed (the data of an
      earlier success can still be present then). */
  datatype QueryState = QueryState(data: Option<InfoResponse>, isLoading: bool, error: bool)

  /** The value the provider publishes (without the `logout` callback). */
  datatype AuthState = AuthState(user: Option<InfoResponse>, isLoading: bool, isAuthenticated: bool)

  /** The published state: authenticated exactly when data is present and
      there is no error; the user is the data or null; the loading flag is
      passed through. */
  function Context(q: QueryState): (r: AuthState)
    ensures r.isAuthenticated <==> q.data.Some? && !q.error
    ensures r.user == q.data
    ensures r.isLoading == q.isLoading
  {
    AuthState(q.data, q.isLoading, q.data.Some? && !q.error)
  }

  /** Authenticated implies a user is exposed, but not the converse: after a
      failed refetch the earlier data is still exposed while the state is
      unauthenticated. */
  lemma AuthenticatedHasUser(q: QueryState)
    ensures Context(q).isAuthenticated ==> Context(q).user.Some?
    ensures q.data.Some? && q.error ==> Context(q).user.Some? && !Context(q).isAuthenticated
  {
  }

  /** The observable steps of `logout`. */
  datatype Effect = PostLogout | ClearCache | Navigate(to: string)

  /** The steps in the order they happen. `fetch` rejects only on a network
      failure (an HTTP error status still resolves); a rejection propagates
      out of `logout` before the cache is cleared. */
  function LogoutEffects(fetchResolves: bool): (r: seq<Effect>)
    ensures |r| >= 1 && r[0] == PostLogout
    ensures fetchResolves <==> ClearCache in r
    ensures fetchResolves <==> Navigate(LoginRoute) in r
  {
    if fetchResolves then [PostLogout, ClearCache, Navigate(LoginRoute)] else [PostLogout]
  }

  /** Position of a step in the effect log. */
  predicate Before(effects: seq<Effect>, a: Effect, b: Effect) {
    exists i, j :: 0 <= i < j < |effects| && effects[i] == a && effects[j] == b
  }

  /** The POST completes before the cache is cleared, and the cache is
      cleared before navigating to the login page. */
  lemma LogoutOrder()
    ensures Before(LogoutEffects(true), PostLogout, ClearCache)
    ensures Before(LogoutEffects(true), ClearCache, Navigate(LoginRoute))
    ensures !Before(LogoutEffects(true), Navigate(LoginRoute), ClearCache)
  {
    var e := LogoutEffects(true);
    assert e[0] == PostLogout && e[1] == ClearCache && e[2] == Navigate(LoginRoute);
  }

  /** The provider's effectful surroundings: the query cache and the router
      location, with a log of the steps taken. */
  class AuthController {
    var cachedQueries: set<string>
    var location: string
    var effects: seq<Effect>

    constructor (cache: set<string>, at: string)
      ensures cachedQueries == cache && location == at && effects == []
    {
      cachedQueries, location, effects := cache, at, [];
    }

    /** `logout`: post, then clear the cache, then navigate; a network
        failure of the post stops it after the first step. */
    method Logout(fetchResolves: bool)
      modifies this
      ensures effects == old(effects) + LogoutEffects(fetchResolves)
      ensures fetchResolves ==> cachedQueries == {} && location == LoginRoute
      ensures !fetchResolves ==> cachedQueries == old(cachedQueries) && location == old(location)
    {
      effects := effects + [PostLogout];
      if !fetchResolves {
        return;
      }
      cachedQueries := {};
      effects := effects + [ClearCache];
      location := LoginRoute;
      effects := effects + [Navigate(LoginRoute)];
    }
  }
}
