/**
 * The admin session gate: what the guard, the admin index and the admin "not found" screen do
 * for each value of the stored token, and which admin routes are guarded.
 */
module AdminRoutes {
  import opened Wrappers

  /** The value `useAuth()` yields: `null`, or a string that may be empty. */
  datatype Token = Null | Str(s: string)

  /** A string token is truthy when it is not empty. */
  predicate Truthy(t: Token) {
    t.Str? && t.s != ""
  }

  /** `getAdminToken()` in the browser: `localStorage.getItem("adminToken")`, which is `null` when nothing is stored. */
  function GetAdminToken(stored: Option<string>): (t: Token)
    ensures t.Null? <==> stored.None?
  {
    match stored
    case None => Null
    case Some(s) => Str(s)
  }

  /** What a screen renders. */
  datatype Screen = LoadingScreen | Blank | Children | AdminNotFoundPage

  /** What a screen renders and where, if anywhere, it navigates. */
  datatype Decision = Decision(screen: Screen, navigate: Option<string>)

  const AuthPath: string := "/admin/auth"
  const ProductsPath: string := "/admin/products"

  /** `AdminAuthGuard`: loading for `null`, a redirect to the login for `""`, the children for a non-empty token. */
  function AdminAuthGuard(token: Token): (d: Decision)
    ensures token.Null? ==> d == Decision(LoadingScreen, None)
    ensures token == Str("") ==> d == Decision(Blank, Some(AuthPath))
    ensures Truthy(token) ==> d == Decision(Children, None)
    ensures d.screen == Children <==> Truthy(token)
  {
    if token.Null? then Decision(LoadingScreen, None)
    else if token.s == "" then Decision(Blank, Some(AuthPath))
    else Decision(Children, None)
  }

  /** `AdminIndex`: a truthy token goes to the products, `null` to the login, and `""` stays on a blank screen. */
  function AdminIndex(token: Token): (d: Decision)
    ensures d.screen == Blank
    ensures Truthy(token) ==> d.navigate == Some(ProductsPath)
    ensures token.Null? ==> d.navigate == Some(AuthPath)
    ensures token == Str("") ==> d.navigate == None
  {
    if Truthy(token) then Decision(Blank, Some(ProductsPath))
    else if token.Null? then Decision(Blank, Some(AuthPath))
    else Decision(Blank, None)
  }

  /** `AdminNotFound`: loading for `null`, a redirect to the login for `""`, the 404 page otherwise. */
  function AdminNotFound(token: Token): (d: Decision)
    ensures token.Null? ==> d == Decision(LoadingScreen, None)
    ensures token == Str("") ==> d == Decision(Blank, Some(AuthPath))
    ensures Truthy(token) ==> d == Decision(AdminNotFoundPage, None)
  {
    if token.Null? then Decision(LoadingScreen, None)
    else if token.s == "" then Decision(Blank, Some(AuthPath))
    else Decision(AdminNotFoundPage, None)
  }

  /** The guard as it runs over browser storage. */
  function GuardFromStorage(stored: Option<string>): Decision {
    AdminAuthGuard(GetAdminToken(stored))
  }

  /** A visitor with no stored token stays on the loading screen of a guarded page and is never sent to the login. */
  lemma GuardWithoutTokenNeverRedirects()
    ensures GuardFromStorage(None) == Decision(LoadingScreen, None)
  {
  }

  /** A visitor with no stored token sees the loading screen on an unknown admin path, with no redirect. */
  lemma NotFoundWithoutTokenNeverRedirects()
    ensures AdminNotFound(GetAdminToken(None)) == Decision(LoadingScreen, None)
  {
  }

  /** A visitor holding an empty token on the admin index is neither sent anywhere nor shown anything. */
  lemma IndexWithEmptyTokenStaysBlank()
    ensures AdminIndex(GetAdminToken(Some(""))) == Decision(Blank, None)
  {
  }

  /** The session state the gate is meant to branch on: not yet read, or read with or without a usable token. */
  datatype Session = Unknown | Authenticated(token: string) | Unauthenticated

  /** Reading storage settles the session: a non-empty token authenticates, an absent or empty one does not. */
  function ReadSession(stored: Option<string>): (s: Session)
    ensures !s.Unknown?
    ensures s.Authenticated? <==> stored.Some? && stored.value != ""
  {
    match stored
    case Some(t) => if t != "" then Authenticated(t) else Unauthenticated
    case None => Unauthenticated
  }

  /** The guard over the three session states: wait while unknown, redirect when unauthenticated. */
  function SessionGuard(session: Session): (d: Decision)
    ensures session.Unknown? ==> d == Decision(LoadingScreen, None)
    ensures session.Unauthenticated? ==> d == Decision(Blank, Some(AuthPath))
    ensures session.Authenticated? ==> d == Decision(Children, None)
  {
    match session
    case Unknown => Decision(LoadingScreen, None)
    case Unauthenticated => Decision(Blank, Some(AuthPath))
    case Authenticated(_) => Decision(Children, None)
  }

  /** The admin index over the three session states. */
  function SessionIndex(session: Session): (d: Decision)
    ensures d.screen == Blank
    ensures session.Unknown? <==> d.navigate.None?
    ensures session.Authenticated? ==> d.navigate == Some(ProductsPath)
    ensures session.Unauthenticated? ==> d.navigate == Some(AuthPath)
  {
    match session
    case Unknown => Decision(Blank, None)
    case Unauthenticated => Decision(Blank, Some(AuthPath))
    case Authenticated(_) => Decision(Blank, Some(ProductsPath))
  }

  /** The admin "not found" screen over the three session states. */
  function SessionNotFound(session: Session): (d: Decision)
    ensures session.Unknown? ==> d == Decision(LoadingScreen, None)
    ensures session.Unauthenticated? ==> d == Decision(Blank, Some(AuthPath))
    ensures session.Authenticated? ==> d == Decision(AdminNotFoundPage, None)
  {
    match session
    case Unknown => Decision(LoadingScreen, None)
    case Unauthenticated => Decision(Blank, Some(AuthPath))
    case Authenticated(_) => Decision(AdminNotFoundPage, None)
  }

  /** Once storage is read, the guard never stays on the loading screen: it admits exactly the visitors holding a non-empty token and sends every other visitor to the login. */
  lemma SessionGuardSettles(stored: Option<string>)
    ensures SessionGuard(ReadSession(stored)).screen != LoadingScreen
    ensures SessionGuard(ReadSession(stored)).screen == Children <==> stored.Some? && stored.value != ""
    ensures SessionGuard(ReadSession(stored)).navigate == Some(AuthPath) <==> !(stored.Some? && stored.value != "")
  {
  }

  /** The three-state guard agrees with the original one whenever a token string is stored. */
  lemma SessionGuardAgreesWhenStored(s: string)
    ensures SessionGuard(ReadSession(Some(s))) == AdminAuthGuard(GetAdminToken(Some(s)))
  {
  }

  /** Once storage is read, the index always navigates, and the "not found" screen never stays on loading. */
  lemma SessionScreensSettle(stored: Option<string>)
    ensures SessionIndex(ReadSession(stored)).navigate.Some?
    ensures SessionNotFound(ReadSession(stored)).screen != LoadingScreen
    ensures SessionNotFound(ReadSession(stored)).navigate == SessionGuard(ReadSession(stored)).navigate
  {
  }

  /** The admin screens, by route. */
  datatype AdminPage = LoginPage | ProductsPage | OrdersPage | SettingsPage | IndexPage | NotFoundPage

  /** The routes below `/admin`. */
  function RouteElement(path: string): (p: AdminPage)
    ensures p == IndexPage <==> path == "/"
    ensures p == LoginPage <==> path == "/auth"
  {
    if path == "/auth" then LoginPage
    else if path == "/products" then ProductsPage
    else if path == "/orders" then OrdersPage
    else if path == "/settings" then SettingsPage
    else if path == "/" then IndexPage
    else NotFoundPage
  }

  /** The pages wrapped in the guard. */
  predicate Guarded(p: AdminPage) {
    p == ProductsPage || p == OrdersPage || p == SettingsPage
  }

  /** Exactly /products, /orders and /settings are guarded; /auth is not. */
  lemma GuardedRoutes(path: string)
    ensures Guarded(RouteElement(path)) <==> path == "/products" || path == "/orders" || path == "/settings"
  {
  }

  /** What an admin route shows for a token, as `AdminRoutes` is written: guarded pages pass `AdminAuthGuard`, the index and "not found" screens decide for themselves. */
  function AdminScreenAsWritten(path: string, token: Token): (d: Decision)
    ensures Guarded(RouteElement(path)) ==> d == AdminAuthGuard(token)
    ensures RouteElement(path) == IndexPage ==> d == AdminIndex(token)
    ensures RouteElement(path) == NotFoundPage ==> d == AdminNotFound(token)
    ensures RouteElement(path) == LoginPage ==> d == Decision(Children, None)
    ensures Guarded(RouteElement(path)) && d.screen == Children ==> Truthy(token)
  {
    var page := RouteElement(path);
    if Guarded(page) then AdminAuthGuard(token)
    else if page == IndexPage then AdminIndex(token)
    else if page == NotFoundPage then AdminNotFound(token)
    else Decision(Children, None)
  }

  /** The same routes over the three session states, with the corrected guard, index and "not found" screens. */
  function AdminScreen(path: string, session: Session): (d: Decision)
    ensures Guarded(RouteElement(path)) ==> d == SessionGuard(session)
    ensures RouteElement(path) == IndexPage ==> d == SessionIndex(session)
    ensures RouteElement(path) == NotFoundPage ==> d == SessionNotFound(session)
    ensures RouteElement(path) == LoginPage ==> d == Decision(Children, None)
    ensures Guarded(RouteElement(path)) && d.screen == Children ==> session.Authenticated?
  {
    var page := RouteElement(path);
    if Guarded(page) then SessionGuard(session)
    else if page == IndexPage then SessionIndex(session)
    else if page == NotFoundPage then SessionNotFound(session)
    else Decision(Children, None)
  }

  /** With a token string stored, the corrected routes show what the routes as written show, on every path except the index with an empty token. */
  lemma AdminScreenAgreesWhenStored(path: string, s: string)
    requires RouteElement(path) != IndexPage || s != ""
    ensures AdminScreen(path, ReadSession(Some(s))) == AdminScreenAsWritten(path, GetAdminToken(Some(s)))
  {
  }

  /** Once storage is read, no admin route stays on the loading screen. */
  lemma AdminScreenSettles(path: string, stored: Option<string>)
    ensures AdminScreen(path, ReadSession(stored)).screen != LoadingScreen
  {
  }
}
