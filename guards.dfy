/** The session/role guards: each reads the two storage keys `token` and `user`,
    parses the user record with `JSON.parse` (a parameter: `None` is a parse that
    throws) and decides where the visitor goes. None of them writes storage. */
module Guards {
  import opened Js
  import opened Web

  /** Where a guard sends the visitor. */
  datatype Decision = ToLogin | ToDashboard | Render

  /** Both keys are present and the user string parses to a value whose properties can
      be read (`null.role` throws, and every guard catches that like a parse error). */
  predicate ReadableUser(st: Storage, parse: string -> Option<Json>) {
    SignedIn(st) && parse(st["user"]).Some? && parse(st["user"]).value != JNull
  }

  /** A readable user whose `role` is exactly the string "admin". */
  predicate AdminSession(st: Storage, parse: string -> Option<Json>) {
    ReadableUser(st, parse) && Member(parse(st["user"]).value, "role") == Some(JStr("admin"))
  }

  /** `AdminRoute`: the three-way guard around admin-only pages. */
  function AdminRoute(st: Storage, parse: string -> Option<Json>): (d: Decision)
    ensures !SignedIn(st) ==> d == ToLogin
    ensures SignedIn(st) && parse(st["user"]).None? ==> d == ToLogin
    ensures d == ToLogin <==> !ReadableUser(st, parse)
    ensures d == ToDashboard <==> ReadableUser(st, parse) && !AdminSession(st, parse)
    ensures d == Render <==> AdminSession(st, parse)
  {
    var token := if "token" in st then st["token"] else "";
    var userStr := if "user" in st then st["user"] else "";
    if token == "" || userStr == "" then ToLogin
    else
      match parse(userStr)
      case None => ToLogin
      case Some(user) =>
        if user == JNull then ToLogin
        else if Member(user, "role") != Some(JStr("admin")) then ToDashboard
        else Render
  }

  /** The mount-time guard of the Admin page: the same checks as `AdminRoute`, with the
      user string examined before the token; `Render` means the page goes on to load its data. */
  function AdminMountDecision(st: Storage, parse: string -> Option<Json>): (d: Decision)
    ensures d != ToLogin ==> HasItem(st, "token") && HasItem(st, "user")
    ensures d == ToLogin <==> !ReadableUser(st, parse)
    ensures d == Render <==> AdminSession(st, parse)
  {
    if !HasItem(st, "user") || !HasItem(st, "token") then ToLogin
    else
      match parse(st["user"])
      case None => ToLogin
      case Some(user) =>
        if user == JNull then ToLogin
        else if Member(user, "role") != Some(JStr("admin")) then ToDashboard
        else Render
  }

  /** The Admin page's own guard decides exactly what `AdminRoute` decides. */
  lemma AdminMountAgreesWithAdminRoute(st: Storage, parse: string -> Option<Json>)
    ensures AdminMountDecision(st, parse) == AdminRoute(st, parse)
  {
  }

  /** `ProtectedRoute`: renders iff both keys are non-empty; never parses, never checks a role. */
  function ProtectedRoute(st: Storage): (d: Decision)
    ensures d != ToDashboard
    ensures d == Render <==> SignedIn(st)
  {
    if !HasItem(st, "token") || !HasItem(st, "user") then ToLogin else Render
  }

  /** `RootRedirect`: the login page for a visitor without a session, the admin panel for
      every signed-in visitor whatever the stored role. */
  function RootRedirect(st: Storage): (target: string)
    ensures target == "/login" || target == "/admin"
    ensures target == "/admin" <==> SignedIn(st)
  {
    if !HasItem(st, "token") || !HasItem(st, "user") then "/login" else "/admin"
  }

  /** What the user dashboard's mount guard does: back to login, or accept the parsed user
      (any value, `null` included: storing it does not throw). */
  datatype UserGate = SendToLogin | Accept(user: Json)

  function UserDashboardGate(st: Storage, parse: string -> Option<Json>): (g: UserGate)
    ensures g == SendToLogin <==> !SignedIn(st) || parse(st["user"]).None?
    ensures g.Accept? ==> parse(st["user"]) == Some(g.user)
  {
    if !HasItem(st, "user") || !HasItem(st, "token") then SendToLogin
    else
      match parse(st["user"])
      case None => SendToLogin
      case Some(user) => Accept(user)
  }

  /** How the guards relate: whatever the admin guard lets through the plain session
      check lets through; the user dashboard accepts every session the admin guard does
      not send to login, and more (a stored `null` user, any role). */
  lemma GuardsNest(st: Storage, parse: string -> Option<Json>)
    ensures AdminRoute(st, parse) != ToLogin ==> ProtectedRoute(st) == Render
    ensures AdminRoute(st, parse) != ToLogin ==> UserDashboardGate(st, parse).Accept?
    ensures UserDashboardGate(st, parse) == SendToLogin ==> AdminRoute(st, parse) == ToLogin
    ensures UserDashboardGate(st, parse).Accept? && AdminRoute(st, parse) == ToLogin
            ==> UserDashboardGate(st, parse).user == JNull
  {
  }
}
