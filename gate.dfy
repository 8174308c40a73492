/** The root layout's redirect effect (`RootLayoutNav` in app/_layout.tsx):
    on every change of the session flags or of the route segments it either
    does nothing or replaces the current route. */
module Gate {

  /** The two routes the gate can send the user to. */
  datatype Route = Home | Login

  /** What the effect does: nothing, or `router.replace(path)`. */
  datatype Redirect = Stay | Replace(target: Route)

  function Path(route: Route): string
  {
    match route
    case Home => "/home"
    case Login => "/login"
  }

  /** The segments expo-router reports once a route is shown; the screens
      live in the `(tabs)` and `(auth)` route groups. */
  function SegmentsOf(route: Route): seq<string>
  {
    match route
    case Home => ["(tabs)", "home"]
    case Login => ["(auth)", "login"]
  }

  /** On the login or the registration screen. */
  predicate InAuthGroup(segments: seq<string>)
    ensures InAuthGroup(segments) <==>
      exists i :: 0 <= i < |segments| && (segments[i] == "login" || segments[i] == "register")
  {
    "login" in segments || "register" in segments
  }

  /** On the bootstrap route `/` (app/index.tsx). */
  predicate IsAtRoot(segments: seq<string>)
    ensures IsAtRoot(segments) <==> segments == []
    ensures IsAtRoot(segments) ==> !InAuthGroup(segments)
  {
    |segments| == 0
  }

  /** The screen shown agrees with the session: a signed-in user is neither
      on login/register nor on the root, a signed-out user is on
      login/register. */
  predicate Settled(isAuthenticated: bool, segments: seq<string>)
  {
    if isAuthenticated then !InAuthGroup(segments) && !IsAtRoot(segments)
    else InAuthGroup(segments)
  }

  /** The redirect decision. While the session is loading nothing happens;
      afterwards the gate stays exactly on settled routes, and a replace
      always targets the screen that matches the session. */
  function Decide(isLoading: bool, isAuthenticated: bool, segments: seq<string>): (r: Redirect)
    ensures isLoading ==> r == Stay
    ensures !isLoading ==> (r == Stay <==> Settled(isAuthenticated, segments))
    ensures r.Replace? ==> r.target == (if isAuthenticated then Home else Login)
  {
    if isLoading then Stay
    else if isAuthenticated then
      if InAuthGroup(segments) || IsAtRoot(segments) then Replace(Home) else Stay
    else
      if !InAuthGroup(segments) then Replace(Login) else Stay
  }

  /** The segments after following a redirect. */
  function Follow(r: Redirect, segments: seq<string>): seq<string>
  {
    match r
    case Stay => segments
    case Replace(target) => SegmentsOf(target)
  }

  /** The gate settles in one step: once the session has loaded, following
      its redirect lands on a route where it decides to stay. */
  lemma SettlesInOneStep(isAuthenticated: bool, segments: seq<string>)
    ensures Decide(false, isAuthenticated, Follow(Decide(false, isAuthenticated, segments), segments)) == Stay
    ensures Settled(isAuthenticated, Follow(Decide(false, isAuthenticated, segments), segments))
  {
  }

  /** The root route is never a resting place: whatever the session, a
      loaded gate replaces `/`. */
  lemma RootAlwaysRedirects(isAuthenticated: bool)
    ensures Decide(false, isAuthenticated, []).Replace?
    ensures Path(Decide(false, isAuthenticated, []).target) == (if isAuthenticated then "/home" else "/login")
  {
  }
}
