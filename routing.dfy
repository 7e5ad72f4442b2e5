/** App.tsx's route table and what happens when redirects are followed: the router's
    own `<Navigate>` elements, and then the mount-time guards of the pages it renders. */
module Routing {
  import opened Js
  import opened Web
  import opened Guards

  /** The pages a path can end on. */
  datatype Screen = LoginScreen | AdminScreen | UserDashboardScreen

  /** The result of rendering one path: a page stays on screen, or the visitor is sent on. */
  datatype Hop = Show(screen: Screen) | Redirect(to: string)

  /** App.tsx's route table: the element each path renders, before any page's effects run. */
  function AppRoute(path: string, st: Storage): (h: Hop)
    ensures h.Show? <==> path == "/login" || (path == "/admin" && SignedIn(st))
    ensures h.Show? ==> h.screen == if path == "/login" then LoginScreen else AdminScreen
    ensures h.Redirect? ==> h.to in {"/login", "/admin", "/"}
  {
    if path == "/login" then Show(LoginScreen)
    else if path == "/admin" then
      (if ProtectedRoute(st) == Render then Show(AdminScreen) else Redirect("/login"))
    else if path == "/dashboard" then Redirect("/admin")
    else if path == "/" then Redirect(RootRedirect(st))
    else Redirect("/")
  }

  /** The table's fixed redirects: `/dashboard` goes to `/admin` whatever the session,
      an unknown path goes to `/`, and `/login` renders with no session at all. */
  lemma RouteTableRedirects(path: string, st: Storage)
    ensures AppRoute("/dashboard", st) == Redirect("/admin")
    ensures path !in {"/login", "/admin", "/dashboard", "/"} ==> AppRoute(path, st) == Redirect("/")
    ensures AppRoute("/login", map[]) == Show(LoginScreen)
    ensures AppRoute("/admin", st) == Show(AdminScreen) <==> SignedIn(st)
  {
  }

  /** Follows the router's redirects for at most `fuel` renders. */
  function Follow(path: string, st: Storage, fuel: nat): Option<Screen>
    decreases fuel
  {
    if fuel == 0 then None
    else
      match AppRoute(path, st)
      case Show(s) => Some(s)
      case Redirect(next) => Follow(next, st, fuel - 1)
  }

  /** Within three renders every path settles: on the login page without a session (or
      when `/login` itself was asked for), on the admin panel otherwise. */
  lemma RouterSettles(path: string, st: Storage)
    ensures Follow(path, st, 3) == Some(if path == "/login" || !SignedIn(st) then LoginScreen else AdminScreen)
  {
    assert Follow("/login", st, 1) == Some(LoginScreen);
    assert Follow("/admin", st, 2) == Some(if SignedIn(st) then AdminScreen else LoginScreen) by {
      assert Follow("/login", st, 1) == Some(LoginScreen);
    }
  }

  /** A page's reaction to a guard decision once it is mounted. */
  function GuardHop(d: Decision, screen: Screen): Hop {
    match d
    case ToLogin => Redirect("/login")
    case ToDashboard => Redirect("/dashboard")
    case Render => Show(screen)
  }

  /** One render of a path as written: the route table, then the Admin page's mount guard
      when the route renders the Admin page. */
  function Step(path: string, st: Storage, parse: string -> Option<Json>): Hop {
    match AppRoute(path, st)
    case Show(AdminScreen) => GuardHop(AdminMountDecision(st, parse), AdminScreen)
    case h => h
  }

  function Run(path: string, st: Storage, parse: string -> Option<Json>, fuel: nat): Option<Screen>
    decreases fuel
  {
    if fuel == 0 then None
    else
      match Step(path, st, parse)
      case Show(s) => Some(s)
      case Redirect(next) => Run(next, st, parse, fuel - 1)
  }

  /** As written, a signed-in user whose role is not "admin" never settles: `/admin` sends
      them to `/dashboard`, which the route table sends back to `/admin`. */
  lemma {:induction false} NonAdminNeverSettles(st: Storage, parse: string -> Option<Json>, fuel: nat)
    requires ReadableUser(st, parse) && !AdminSession(st, parse)
    ensures Run("/admin", st, parse, fuel) == None
    ensures Run("/dashboard", st, parse, fuel) == None
    ensures Run("/", st, parse, fuel) == None
  {
    if fuel > 0 {
      NonAdminNeverSettles(st, parse, fuel - 1);
      assert Step("/admin", st, parse) == Redirect("/dashboard");
      assert Step("/dashboard", st, parse) == Redirect("/admin");
      assert Step("/", st, parse) == Redirect("/admin");
    }
  }

  /** The route table with `/dashboard` rendering the user dashboard behind the session
      check, which is where `AdminRoute` and the Admin page send non-admin users. */
  function FixedRoute(path: string, st: Storage): Hop {
    if path == "/dashboard" then
      (if ProtectedRoute(st) == Render then Show(UserDashboardScreen) else Redirect("/login"))
    else AppRoute(path, st)
  }

  /** One render with the corrected table, including both pages' mount guards. */
  function FixedStep(path: string, st: Storage, parse: string -> Option<Json>): Hop {
    match FixedRoute(path, st)
    case Show(AdminScreen) => GuardHop(AdminMountDecision(st, parse), AdminScreen)
    case Show(UserDashboardScreen) =>
      (if UserDashboardGate(st, parse) == SendToLogin then Redirect("/login") else Show(UserDashboardScreen))
    case h => h
  }

  function FixedRun(path: string, st: Storage, parse: string -> Option<Json>, fuel: nat): Option<Screen>
    decreases fuel
  {
    if fuel == 0 then None
    else
      match FixedStep(path, st, parse)
      case Show(s) => Some(s)
      case Redirect(next) => FixedRun(next, st, parse, fuel - 1)
  }

  /** With the corrected table every path settles within four renders; only an admin
      session ends on the admin panel, a session without a readable user ends on the
      login page unless it asked for the user dashboard, and every other signed-in user
      ends on the user dashboard. */
  lemma FixedRoutesSettle(path: string, st: Storage, parse: string -> Option<Json>)
    ensures FixedRun(path, st, parse, 4).Some?
    ensures FixedRun(path, st, parse, 4) == Some(AdminScreen) <==> path !in {"/login", "/dashboard"} && AdminSession(st, parse)
    ensures !SignedIn(st) ==> FixedRun(path, st, parse, 4) == Some(LoginScreen)
    ensures ReadableUser(st, parse) && !AdminSession(st, parse) && path != "/login"
            ==> FixedRun(path, st, parse, 4) == Some(UserDashboardScreen)
  {
    AdminMountAgreesWithAdminRoute(st, parse);
    var ends := FixedRun("/login", st, parse, 1);
    assert ends == Some(LoginScreen);
    var dash := FixedRun("/dashboard", st, parse, 2);
    assert dash == Some(if UserDashboardGate(st, parse) == SendToLogin then LoginScreen else UserDashboardScreen);
    var admin := FixedRun("/admin", st, parse, 3);
    assert admin == Some(
      if !ReadableUser(st, parse) then LoginScreen
      else if AdminSession(st, parse) then AdminScreen
      else UserDashboardScreen);
    var root := FixedRun("/", st, parse, 4);
    assert root == (if SignedIn(st) then admin else ends);
  }
}
