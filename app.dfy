/**
 * The application shell: the `/auth/me` query reduced to `authUser`, the two
 * flags derived from it, and the route table that either renders a page or
 * redirects with `<Navigate>`.
 */
module App {
  import opened Wrappers
  import opened Text
  import opened Social

  /** The body of a successful `/auth/me` response (`res.data`). */
  datatype MeResponse = MeResponse(user: Option<User>)

  /** How the `/auth/me` request ended. */
  datatype MeFetch = Fetched(body: MeResponse) | FetchFailed

  /** `getAuthUser`: the response body, or null when the request throws. */
  function GetAuthUser(fetch: MeFetch): (data: Option<MeResponse>)
    ensures data.None? <==> fetch.FetchFailed?
    ensures fetch.Fetched? ==> data == Some(fetch.body)
  {
    match fetch
    case Fetched(body) => Some(body)
    case FetchFailed => None
  }

  /** `useAuthUser`: `data?.user`. */
  function AuthUserOf(data: Option<MeResponse>): (authUser: Option<User>)
    ensures data.None? ==> authUser.None?
    ensures data.Some? ==> authUser == data.value.user
  {
    if data.Some? then data.value.user else None
  }

  /** `Boolean(authUser)`: a user record is an object, and every object is truthy. */
  predicate IsAuthenticated(authUser: Option<User>)
    ensures authUser.Some? ==> IsAuthenticated(authUser)
    ensures authUser.None? ==> !IsAuthenticated(authUser)
  {
    authUser.Some?
  }

  /** `authUser?.isOnboarded`, with an absent user read as false. */
  predicate IsOnboarded(authUser: Option<User>)
    ensures IsOnboarded(authUser) ==> IsAuthenticated(authUser)
    ensures IsAuthenticated(authUser) ==> (IsOnboarded(authUser) <==> authUser.value.isOnboarded)
  {
    authUser.Some? && authUser.value.isOnboarded
  }

  /** The user is authenticated exactly when `/auth/me` succeeded and its body carries a user. */
  lemma AuthenticatedIffUserFetched(fetch: MeFetch)
    ensures IsAuthenticated(AuthUserOf(GetAuthUser(fetch))) <==> fetch.Fetched? && fetch.body.user.Some?
    ensures fetch.FetchFailed? ==> !IsAuthenticated(AuthUserOf(GetAuthUser(fetch)))
  {
  }

  /** The seven `<Route>` patterns. */
  datatype Route =
    | RootRoute
    | SignupRoute
    | LoginRoute
    | NotificationsRoute
    | CallRoute(callId: string)
    | ChatRoute(chatId: string)
    | OnboardingRoute

  /** The page components a route can render (`<HomePage />`, `<SignupPage />`, …). */
  datatype Page = HomeScreen | SignupScreen | LoginScreen | NotificationScreen | CallScreen | ChatScreen | OnboardScreen

  /** A route's element: the page it renders or the path it redirects to. */
  datatype Element = Render(page: Page) | Navigate(to: string)

  /** What `App` returns: the loader, a matched route's element, or nothing for an unknown path. */
  datatype View = AppLoader | Routed(element: Element) | NoMatch

  /** A value for a `:id` path parameter: one non-empty path segment. */
  predicate IsSegment(s: string)
  {
    s != [] && '/' !in s
  }

  predicate ValidRoute(route: Route)
  {
    match route
    case CallRoute(id) => IsSegment(id)
    case ChatRoute(id) => IsSegment(id)
    case _ => true
  }

  /** The path a route stands for, with its parameter filled in. */
  function RoutePath(route: Route): string
  {
    match route
    case RootRoute => "/"
    case SignupRoute => "/signup"
    case LoginRoute => "/login"
    case NotificationsRoute => "/notifications"
    case CallRoute(id) => "/call/" + id
    case ChatRoute(id) => "/chat/" + id
    case OnboardingRoute => "/onboarding"
  }

  /** The route whose pattern matches `path`, if any (exact matching). */
  function RouteOf(path: string): (r: Option<Route>)
    ensures r.Some? ==> ValidRoute(r.value) && RoutePath(r.value) == path
  {
    if path == "/" then Some(RootRoute)
    else if path == "/signup" then Some(SignupRoute)
    else if path == "/login" then Some(LoginRoute)
    else if path == "/notifications" then Some(NotificationsRoute)
    else if path == "/onboarding" then Some(OnboardingRoute)
    else if StartsWith(path, "/call/") && IsSegment(path[6..]) then
      assert path == "/call/" + path[6..];
      Some(CallRoute(path[6..]))
    else if StartsWith(path, "/chat/") && IsSegment(path[6..]) then
      assert path == "/chat/" + path[6..];
      Some(ChatRoute(path[6..]))
    else None
  }

  /** Every route is matched by its own path, so the table has no overlapping patterns. */
  lemma RouteOfRoutePath(route: Route)
    requires ValidRoute(route)
    ensures RouteOf(RoutePath(route)) == Some(route)
  {
    match route
    case CallRoute(id) =>
      var p := RoutePath(route);
      assert p[..6] == "/call/" && p[6..] == id;
      assert p[1] == 'c' && p[2] == 'a';
    case ChatRoute(id) =>
      var p := RoutePath(route);
      assert p[..6] == "/chat/" && p[6..] == id;
      assert p[1] == 'c' && p[2] == 'h';
    case _ =>
  }

  /** The routes rendered only for an authenticated, onboarded user. */
  predicate IsProtected(route: Route)
  {
    route.RootRoute? || route.NotificationsRoute? || route.CallRoute? || route.ChatRoute?
  }

  /** The routes rendered only for a visitor without a session. */
  predicate IsGuestOnly(route: Route)
  {
    route.SignupRoute? || route.LoginRoute?
  }

  function PageOf(route: Route): Page
  {
    match route
    case RootRoute => HomeScreen
    case SignupRoute => SignupScreen
    case LoginRoute => LoginScreen
    case NotificationsRoute => NotificationScreen
    case CallRoute(_) => CallScreen
    case ChatRoute(_) => ChatScreen
    case OnboardingRoute => OnboardScreen
  }

  /** The one path every redirect of a given session state leads to. */
  function LandingPath(isAuthenticated: bool, isOnboarded: bool): string
  {
    if !isAuthenticated then "/login" else if !isOnboarded then "/onboarding" else "/"
  }

  /** The `element` of each `<Route>`, as the nested conditionals of the table choose it. */
  function RouteElement(route: Route, isAuthenticated: bool, isOnboarded: bool): (e: Element)
    ensures e.Render? <==>
      (if IsGuestOnly(route) then !isAuthenticated
       else if route.OnboardingRoute? then isAuthenticated && !isOnboarded
       else isAuthenticated && isOnboarded)
    ensures e.Render? ==> e.page == PageOf(route)
    ensures e.Navigate? ==> e.to == LandingPath(isAuthenticated, isOnboarded)
  {
    match route
    case SignupRoute | LoginRoute =>
      if !isAuthenticated then Render(PageOf(route))
      else Navigate(if isOnboarded then "/" else "/onboarding")
    case OnboardingRoute =>
      if isAuthenticated then (if !isOnboarded then Render(OnboardScreen) else Navigate("/"))
      else Navigate("/login")
    case _ =>
      if isAuthenticated && isOnboarded then Render(PageOf(route))
      else Navigate(if !isAuthenticated then "/login" else "/onboarding")
  }

  /** `App`: the loader while the auth query loads, otherwise the element of the matching route. */
  function AppView(isLoading: bool, authUser: Option<User>, path: string): (v: View)
    ensures isLoading ==> v == AppLoader
    ensures !isLoading && RouteOf(path).None? ==> v == NoMatch
    ensures !isLoading && RouteOf(path).Some? ==>
      v == Routed(RouteElement(RouteOf(path).value, IsAuthenticated(authUser), IsOnboarded(authUser)))
  {
    if isLoading then AppLoader
    else
      match RouteOf(path)
      case None => NoMatch
      case Some(route) => Routed(RouteElement(route, IsAuthenticated(authUser), IsOnboarded(authUser)))
  }

  /** `/`, `/notifications`, `/call/:id` and `/chat/:id`: the page iff authenticated and onboarded, else `/login` or `/onboarding`. */
  lemma ProtectedRouteRule(route: Route, isAuthenticated: bool, isOnboarded: bool)
    requires IsProtected(route)
    ensures RouteElement(route, isAuthenticated, isOnboarded).Render? <==> isAuthenticated && isOnboarded
    ensures isAuthenticated && isOnboarded ==> RouteElement(route, isAuthenticated, isOnboarded) == Render(PageOf(route))
    ensures !isAuthenticated ==> RouteElement(route, isAuthenticated, isOnboarded) == Navigate("/login")
    ensures isAuthenticated && !isOnboarded ==> RouteElement(route, isAuthenticated, isOnboarded) == Navigate("/onboarding")
  {
  }

  /** `/login` and `/signup`: the page iff unauthenticated, else `/` when onboarded and `/onboarding` otherwise. */
  lemma GuestRouteRule(route: Route, isAuthenticated: bool, isOnboarded: bool)
    requires IsGuestOnly(route)
    ensures RouteElement(route, isAuthenticated, isOnboarded).Render? <==> !isAuthenticated
    ensures !isAuthenticated ==> RouteElement(route, isAuthenticated, isOnboarded) == Render(PageOf(route))
    ensures isAuthenticated && isOnboarded ==> RouteElement(route, isAuthenticated, isOnboarded) == Navigate("/")
    ensures isAuthenticated && !isOnboarded ==> RouteElement(route, isAuthenticated, isOnboarded) == Navigate("/onboarding")
  {
  }

  /** `/onboarding`: the page iff authenticated and not onboarded; onboarded users go to `/`, visitors to `/login`. */
  lemma OnboardingRouteRule(isAuthenticated: bool, isOnboarded: bool)
    ensures RouteElement(OnboardingRoute, isAuthenticated, isOnboarded).Render? <==> isAuthenticated && !isOnboarded
    ensures isAuthenticated && !isOnboarded ==> RouteElement(OnboardingRoute, isAuthenticated, isOnboarded) == Render(OnboardScreen)
    ensures isAuthenticated && isOnboarded ==> RouteElement(OnboardingRoute, isAuthenticated, isOnboarded) == Navigate("/")
    ensures !isAuthenticated ==> RouteElement(OnboardingRoute, isAuthenticated, isOnboarded) == Navigate("/login")
  {
  }

  /** Every redirect of the table goes to the landing path of the session state, and that path renders a page. */
  lemma RedirectsGoToLanding(route: Route, isAuthenticated: bool, isOnboarded: bool)
    ensures RouteElement(route, isAuthenticated, isOnboarded).Navigate? ==>
      RouteElement(route, isAuthenticated, isOnboarded).to == LandingPath(isAuthenticated, isOnboarded)
    ensures RouteOf(LandingPath(isAuthenticated, isOnboarded)).Some?
    ensures RouteElement(RouteOf(LandingPath(isAuthenticated, isOnboarded)).value, isAuthenticated, isOnboarded).Render?
  {
  }

  /** No redirect loops: from any path, a redirect reaches a rendered page in one step. */
  lemma NoRedirectLoops(authUser: Option<User>, path: string)
    requires AppView(false, authUser, path).Routed?
    ensures var e := AppView(false, authUser, path).element;
      e.Render? || (AppView(false, authUser, e.to).Routed? && AppView(false, authUser, e.to).element.Render?)
  {
    RedirectsGoToLanding(RouteOf(path).value, IsAuthenticated(authUser), IsOnboarded(authUser));
  }
}
