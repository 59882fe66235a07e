/**
 * The root layout's navigation guard: each time the auth state or the route changes it
 * decides on at most one redirect.
 */
module RouteGuard {
  import opened Wrappers
  import Auth

  const LOGIN := "/login"
  const DASHBOARD := "/(tabs)/dashboard"
  const SUBSCRIPTION := "/subscription"
  const AUTH_GROUP := "(auth)"
  const TABS_GROUP := "(tabs)"

  /** Screens of the tab group that need a live subscription. */
  const PROTECTED: seq<string> := ["ai-assistant", "analytics", "generate-receipt"]

  /** `segments[0] === group`; an empty route is in no group. */
  predicate InGroup(segments: seq<string>, group: string)
  {
    |segments| > 0 && segments[0] == group
  }

  /** The last segment is a protected screen; an empty route has none (`undefined`). */
  predicate OnProtectedRoute(segments: seq<string>)
  {
    |segments| > 0 && segments[|segments| - 1] in PROTECTED
  }

  /**
   * The redirect target (`router.replace`), if any. The subscription gate is the auth
   * context's `isSubscriptionActive` at the instant the effect runs.
   */
  function Redirect(isLoading: bool, isAuthenticated: bool, sub: Option<Auth.Subscription>, now: int,
                    segments: seq<string>): (r: Option<string>)
    ensures r.Some? ==> r.value in {LOGIN, DASHBOARD, SUBSCRIPTION}
  {
    if isLoading then None
    else if !isAuthenticated && !InGroup(segments, AUTH_GROUP) then Some(LOGIN)
    else if isAuthenticated && InGroup(segments, AUTH_GROUP) then Some(DASHBOARD)
    else if isAuthenticated && !Auth.IsSubscriptionActive(sub, now) && InGroup(segments, TABS_GROUP) then
      if OnProtectedRoute(segments) then Some(SUBSCRIPTION) else None
    else None
  }

  /** Nothing is decided while the auth state is still loading. */
  lemma NoRedirectWhileLoading(isAuthenticated: bool, sub: Option<Auth.Subscription>, now: int, segments: seq<string>)
    ensures Redirect(true, isAuthenticated, sub, now, segments) == None
  {
  }

  /** Signed-out users outside the auth screens go to the login screen, and only they do. */
  lemma ToLoginIff(isLoading: bool, isAuthenticated: bool, sub: Option<Auth.Subscription>, now: int, segments: seq<string>)
    ensures Redirect(isLoading, isAuthenticated, sub, now, segments) == Some(LOGIN)
        <==> !isLoading && !isAuthenticated && !InGroup(segments, AUTH_GROUP)
  {
    assert LOGIN != DASHBOARD && LOGIN != SUBSCRIPTION;
  }

  /** Signed-in users on an auth screen go to the dashboard, and only they do. */
  lemma ToDashboardIff(isLoading: bool, isAuthenticated: bool, sub: Option<Auth.Subscription>, now: int, segments: seq<string>)
    ensures Redirect(isLoading, isAuthenticated, sub, now, segments) == Some(DASHBOARD)
        <==> !isLoading && isAuthenticated && InGroup(segments, AUTH_GROUP)
  {
    assert DASHBOARD != LOGIN && DASHBOARD != SUBSCRIPTION;
  }

  /**
   * The paywall redirect happens exactly when the user is signed in, the subscription is
   * inactive, the route is in the tab group and its last segment is a protected screen.
   */
  lemma ToSubscriptionIff(isLoading: bool, isAuthenticated: bool, sub: Option<Auth.Subscription>, now: int, segments: seq<string>)
    ensures Redirect(isLoading, isAuthenticated, sub, now, segments) == Some(SUBSCRIPTION)
        <==> !isLoading && isAuthenticated && !Auth.IsSubscriptionActive(sub, now)
             && InGroup(segments, TABS_GROUP) && OnProtectedRoute(segments)
  {
    assert SUBSCRIPTION != LOGIN && SUBSCRIPTION != DASHBOARD;
    assert AUTH_GROUP != TABS_GROUP;
  }

  /** An active subscription is never sent to the paywall. */
  lemma ActiveNeverPaywalled(isLoading: bool, isAuthenticated: bool, sub: Option<Auth.Subscription>, now: int, segments: seq<string>)
    requires Auth.IsSubscriptionActive(sub, now)
    ensures Redirect(isLoading, isAuthenticated, sub, now, segments) != Some(SUBSCRIPTION)
  {
    ToSubscriptionIff(isLoading, isAuthenticated, sub, now, segments);
  }

  /** Unprotected tab screens are reachable by any signed-in user. */
  lemma UnprotectedTabStays(sub: Option<Auth.Subscription>, now: int, segments: seq<string>)
    requires InGroup(segments, TABS_GROUP) && !OnProtectedRoute(segments)
    ensures Redirect(false, true, sub, now, segments) == None
  {
    assert AUTH_GROUP != TABS_GROUP;
  }
}
