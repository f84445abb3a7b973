/**
 * The dashboard page: the greeting it derives from the stored user, and its own logout
 * handler, which edits `localStorage` directly instead of going through the context.
 */
module OverviewPage {
  import opened Prelude
  import opened AuthContext
  import opened AppRoutes

  const Fallback: string := "Architect"

  /** The name shown, `undefined` for a stored object without one, or a render that throws. */
  datatype Greeting = Name(text: string) | NoName | Crash

  /**
   * `(JSON.parse(localStorage.getItem("user")) || { name: "Architect" }).name`. An absent
   * key parses as `null`; a value that does not parse throws during render.
   */
  function DisplayName(c: Codec, storage: map<string, string>): (g: Greeting)
    ensures UserKey !in storage ==> g == Name(Fallback)
    ensures UserKey in storage && c.parse(storage[UserKey]).None? ==> g == Crash
    ensures UserKey in storage && c.parse(storage[UserKey]) == Some(Falsy) ==> g == Name(Fallback)
    ensures UserKey in storage && c.parse(storage[UserKey]).Some? && c.parse(storage[UserKey]).value.Object? ==>
              var fields := c.parse(storage[UserKey]).value.fields;
              g == if "name" in fields then Name(fields["name"]) else NoName
  {
    var parsed := if UserKey in storage then c.parse(storage[UserKey]) else Some(Falsy);
    match parsed
    case None => Crash
    case Some(Falsy) => Name(Fallback)
    case Some(Object(fields)) => if "name" in fields then Name(fields["name"]) else NoName
  }

  /** After a sign-in the page greets the signed-in user by the name it was given. */
  lemma GreetsSignedInUser(c: Codec, s: State, fields: map<string, string>, token: string)
    requires WellBehaved(c) && "name" in fields
    ensures DisplayName(c, AfterAuthSuccess(c, s, Object(fields), token).storage) == Name(fields["name"])
  {
    assert c.parse(c.stringify(Object(fields))) == Some(Object(fields));
  }

  /** After a logout the page falls back to the placeholder name. */
  lemma GreetsFallbackAfterLogout(c: Codec, s: State)
    ensures DisplayName(c, AfterLogout(s).storage) == Name(Fallback)
  {
  }

  /** The page's `handleLogout`, as written: both keys removed, the context user kept. */
  function PageLogout(s: State): (t: State)
    ensures UserKey !in t.storage && TokenKey !in t.storage
    ensures t.user == s.user && t.loading == s.loading && t.url == s.url
    ensures forall k :: k != UserKey && k != TokenKey ==> (k in t.storage <==> k in s.storage)
  {
    s.(storage := Cleared(s.storage))
  }

  /** `handleLogout`: remove "token" and "user", then `navigate("/login")`. */
  method HandleLogout(session: Session) returns (to: string)
    modifies session`storage
    ensures session.Snapshot() == PageLogout(old(session.Snapshot()))
    ensures to == "/login"
  {
    session.storage := session.storage - {TokenKey};
    session.storage := session.storage - {UserKey};
    to := "/login";
  }

  /**
   * The handler as written does not sign the user out of the running app: the context user
   * survives, so the login route's guard sends the browser straight back to the dashboard.
   */
  lemma PageLogoutBouncesBack(s: State)
    requires IsUser(s.user) && !s.loading
    ensures Route("/login", PageLogout(s).user, PageLogout(s).loading) == Navigate("/overview", true)
    ensures Landing("/login", PageLogout(s).user, PageLogout(s).loading) == Show(OverviewScreen)
  {
  }

  /** The intended handler: the context's `logout`, then `navigate("/login")`. */
  method HandleLogoutViaContext(session: Session) returns (to: string)
    modifies session
    ensures session.Snapshot() == AfterLogout(old(session.Snapshot()))
    ensures to == "/login"
  {
    session.Logout();
    to := "/login";
  }

  /**
   * Through the context the user is signed out everywhere: the login page renders, and a
   * reload has no session to restore.
   */
  lemma ContextLogoutReachesLogin(c: Codec, s: State)
    requires !s.loading
    ensures Landing("/login", AfterLogout(s).user, AfterLogout(s).loading) == Show(LoginScreen)
    ensures RestoreOf(c, AfterLogout(s).storage) == Discard
  {
  }
}
