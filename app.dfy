/**
 * The route table and its guards (App.tsx): which page each route shows,
 * which routes need a session and which need an admin session, and when the
 * chat bot is mounted.
 */
module App {
  import opened Types

  /** The routes of the table, with their `:id` parameters. */
  datatype Route =
    | HomeRoute
    | LoginRoute
    | RegisterRoute
    | PostRoute(id: string)
    | DiscoverRoute
    | DiscoverImageRoute
    | CreateRoute
    | EditRoute(id: string)
    | ProfileRoute
    | EditProfileRoute
    | AdminRoute

  function Path(r: Route): string {
    match r
    case HomeRoute => "/"
    case LoginRoute => "/login"
    case RegisterRoute => "/register"
    case PostRoute(id) => "/post/" + id
    case DiscoverRoute => "/discover"
    case DiscoverImageRoute => "/discover-image"
    case CreateRoute => "/create"
    case EditRoute(id) => "/edit/" + id
    case ProfileRoute => "/profile"
    case EditProfileRoute => "/profile/edit"
    case AdminRoute => "/admin"
  }

  /** The wrapper around each route's element. */
  datatype Guard = Open | SessionOnly | AdminOnly

  function GuardOf(r: Route): Guard {
    match r
    case CreateRoute => SessionOnly
    case EditRoute(_) => SessionOnly
    case ProfileRoute => SessionOnly
    case EditProfileRoute => SessionOnly
    case AdminRoute => AdminOnly
    case _ => Open
  }

  /** What the router shows: the route's page, or a redirect. */
  datatype Shown = Render(route: Route) | Redirect(to: string)

  /** `PrivateRoute`: the child with a session, else a redirect to the login page. */
  function PrivateRoute(user: Option<User>, child: Route): (s: Shown)
    ensures s == Render(child) <==> user.Some?
    ensures user.None? ==> s == Redirect("/login")
  {
    if user.Some? then Render(child) else Redirect("/login")
  }

  /** `AdminRoute`: the child for an admin session, else a redirect home. */
  function AdminRouteGuard(user: Option<User>, child: Route): (s: Shown)
    ensures s == Render(child) <==> user.Some? && user.value.role == AdminRole
    ensures !(user.Some? && user.value.role == AdminRole) ==> s == Redirect("/")
  {
    if user.Some? && user.value.role == AdminRole then Render(child) else Redirect("/")
  }

  /** The element the table mounts for a route. */
  function Resolve(user: Option<User>, r: Route): Shown {
    match GuardOf(r)
    case Open => Render(r)
    case SessionOnly => PrivateRoute(user, r)
    case AdminOnly => AdminRouteGuard(user, r)
  }

  /**
   * Open routes always render; the session routes render exactly with a
   * session and otherwise send to the login page; the admin route renders
   * exactly for an admin and otherwise sends home.
   */
  lemma GuardsDecideAccess(user: Option<User>, r: Route)
    ensures GuardOf(r) == Open ==> Resolve(user, r) == Render(r)
    ensures GuardOf(r) == SessionOnly ==>
      (Resolve(user, r) == Render(r) <==> user.Some?) &&
      (user.None? ==> Resolve(user, r) == Redirect("/login"))
    ensures GuardOf(r) == AdminOnly ==>
      (Resolve(user, r) == Render(r) <==> user.Some? && user.value.role == AdminRole) &&
      (!(user.Some? && user.value.role == AdminRole) ==> Resolve(user, r) == Redirect("/"))
    ensures Resolve(user, r).Render? ==> Resolve(user, r).route == r
  {
  }

  /** An admin session reaches every route; without a session exactly the open ones render. */
  lemma AccessByRole(user: Option<User>, r: Route)
    ensures user.Some? && user.value.role == AdminRole ==> Resolve(user, r) == Render(r)
    ensures user.None? ==> (Resolve(user, r).Render? <==> GuardOf(r) == Open)
    ensures user.Some? && user.value.role == UserRole ==> (Resolve(user, r).Render? <==> r != AdminRoute)
  {
  }

  /** Only the admin page is admin-only; the create, edit and profile pages need a session. */
  lemma TheRouteTable(id: string)
    ensures GuardOf(CreateRoute) == SessionOnly && GuardOf(EditRoute(id)) == SessionOnly
    ensures GuardOf(ProfileRoute) == SessionOnly && GuardOf(EditProfileRoute) == SessionOnly
    ensures GuardOf(AdminRoute) == AdminOnly
    ensures forall r: Route :: GuardOf(r) == AdminOnly <==> r == AdminRoute
    ensures GuardOf(HomeRoute) == Open && GuardOf(PostRoute(id)) == Open
    ensures GuardOf(DiscoverRoute) == Open && GuardOf(DiscoverImageRoute) == Open
    ensures GuardOf(LoginRoute) == Open && GuardOf(RegisterRoute) == Open
  {
  }

  /** `ChatBotWrapper`: the chat bot is mounted exactly while someone is logged in. */
  function ShowChatBot(user: Option<User>): (show: bool)
    ensures show <==> user.Some?
  {
    user.Some?
  }

  /**
   * The chat bot shows on exactly the sessions the private routes admit: it is
   * there precisely when `/profile`, `/create` or any other route behind
   * `PrivateRoute` would render, and it never shows on a page that redirects
   * to the login.
   */
  lemma ChatBotFollowsPrivateRoutes(user: Option<User>)
    ensures ShowChatBot(user) <==> Resolve(user, ProfileRoute).Render?
    ensures ShowChatBot(user) <==> Resolve(user, CreateRoute).Render?
    ensures forall r: Route :: GuardOf(r) == SessionOnly ==>
      (ShowChatBot(user) <==> Resolve(user, r).Render?)
    ensures forall r: Route :: Resolve(user, r) == Redirect("/login") ==> !ShowChatBot(user)
  {
  }
}
