/** The route guards and the route table of the single-page client. */
module AppRoutes {
  import opened AuthContext

  /** The screens the table can render. */
  datatype Page = SignupScreen | LoginScreen | OtpScreen | OverviewScreen

  /** What a route element evaluates to. */
  datatype View =
    | Loading                               // the placeholder while the session loads
    | Navigate(to: string, replace: bool)   // <Navigate to=.. replace />
    | Show(page: Page)

  /** `ProtectedRoute`: only a signed-in user sees its children. */
  function ProtectedRoute(user: UserValue, loading: bool, children: Page): (v: View)
    ensures loading ==> v == Loading
    ensures !loading && !IsUser(user) ==> v == Navigate("/login", true)
    ensures !loading && IsUser(user) ==> v == Show(children)
  {
    if loading then Loading else if !IsUser(user) then Navigate("/login", true) else Show(children)
  }

  /** `PublicRoute`: a signed-in user is sent on to the dashboard. */
  function PublicRoute(user: UserValue, loading: bool, children: Page): (v: View)
    ensures loading ==> v == Loading
    ensures !loading && IsUser(user) ==> v == Navigate("/overview", true)
    ensures !loading && !IsUser(user) ==> v == Show(children)
  {
    if loading then Loading else if IsUser(user) then Navigate("/overview", true) else Show(children)
  }

  /** At most one of the two guards renders its children, whatever the session. */
  lemma GuardsExclusive(user: UserValue, loading: bool, a: Page, b: Page)
    ensures !(ProtectedRoute(user, loading, a).Show? && PublicRoute(user, loading, b).Show?)
  {
  }

  /** The `<Routes>` table, matched exactly; `*` catches the rest. */
  function Route(path: string, user: UserValue, loading: bool): (v: View)
    ensures path == "/verify-otp" ==> v == Show(OtpScreen)
    ensures v.Navigate? ==> v.replace && (v.to == "/signup" || v.to == "/login" || v.to == "/overview")
    ensures v == Show(OverviewScreen) ==> path == "/overview" && !loading && IsUser(user)
    ensures v == Show(SignupScreen) || v == Show(LoginScreen) ==> !loading && !IsUser(user)
    ensures v == Loading ==> loading
  {
    if path == "/signup" then PublicRoute(user, loading, SignupScreen)
    else if path == "/login" then PublicRoute(user, loading, LoginScreen)
    else if path == "/verify-otp" then Show(OtpScreen)
    else if path == "/overview" then ProtectedRoute(user, loading, OverviewScreen)
    else if path == "/" then Navigate("/signup", true)
    else Navigate("/login", true)
  }

  /** Follow one redirect, if the view is one. */
  function Follow(v: View, user: UserValue, loading: bool): View
  {
    if v.Navigate? then Route(v.to, user, loading) else v
  }

  /** The view reached from a path after following up to two redirects. */
  function Landing(path: string, user: UserValue, loading: bool): (v: View)
    ensures !v.Navigate?
  {
    Follow(Follow(Route(path, user, loading), user, loading), user, loading)
  }

  /** No path needs more than two redirects to settle, and some need both. */
  lemma TwoRedirectsSuffice(user: UserValue, loading: bool)
    ensures forall path :: !Follow(Follow(Route(path, user, loading), user, loading), user, loading).Navigate?
    ensures !loading && IsUser(user) ==> Follow(Route("/", user, loading), user, loading).Navigate?
  {
  }

  /**
   * Where every path lands. While loading, everything but the unguarded OTP page shows the
   * placeholder; a signed-in user reaches the dashboard from every other path; a signed-out
   * user reaches signup from "/" and "/signup" and the login page from everywhere else.
   */
  lemma LandingOf(path: string, user: UserValue, loading: bool)
    ensures path == "/verify-otp" ==> Landing(path, user, loading) == Show(OtpScreen)
    ensures path != "/verify-otp" && loading ==> Landing(path, user, loading) == Loading
    ensures path != "/verify-otp" && !loading && IsUser(user) ==> Landing(path, user, loading) == Show(OverviewScreen)
    ensures path != "/verify-otp" && !loading && !IsUser(user) ==>
      Landing(path, user, loading) == Show(if path == "/" || path == "/signup" then SignupScreen else LoginScreen)
  {
  }
}
