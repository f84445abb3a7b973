/** The two configuration decisions of the Express server: the CORS origin test and the session cookie. */
module ServerConfig {
  import opened Prelude

  const LocalFrontend: string := "http://localhost:5173"
  const DeployedFrontend: string := "https://autho-1.onrender.com"
  const AllowedOrigins: seq<string> := [LocalFrontend, DeployedFrontend]
  const CorsError: string := "CORS Error: Not allowed by origin"

  datatype CorsDecision = Allow | Deny(error: string)

  /** `corsOptions.origin`: no origin, or exactly one of the listed ones. */
  function CorsOrigin(origin: Option<string>): (d: CorsDecision)
    ensures d == Allow <==> !Truthy(origin) || origin.value in AllowedOrigins
    ensures d.Deny? ==> d.error == CorsError
  {
    if !Truthy(origin) || origin.value in AllowedOrigins then Allow else Deny(CorsError)
  }

  /** A present origin passes only by exact equality with a listed one. */
  lemma OriginsMatchExactly(origin: string)
    requires origin != ""
    ensures CorsOrigin(Some(origin)) == Allow <==> origin == LocalFrontend || origin == DeployedFrontend
  {
  }

  const OneDayMs: nat := 24 * 60 * 60 * 1000

  datatype Cookie = Cookie(secure: bool, sameSite: string, maxAge: nat)

  datatype SessionOptions = SessionOptions(secret: string, resave: bool, saveUninitialized: bool, cookie: Cookie)

  /** The `express-session` options as a function of `NODE_ENV` and `SESSION_SECRET`. */
  function SessionConfig(nodeEnv: Option<string>, sessionSecret: Option<string>): (o: SessionOptions)
    ensures o.cookie.secure <==> nodeEnv == Some("production")
    ensures o.cookie.sameSite == (if o.cookie.secure then "none" else "lax")
    ensures o.cookie.maxAge == 86400000
    ensures Truthy(sessionSecret) ==> o.secret == sessionSecret.value
    ensures !Truthy(sessionSecret) ==> o.secret == "render_secret_key"
    ensures !o.resave && !o.saveUninitialized
  {
    var production := nodeEnv == Some("production");
    SessionOptions(
      if Truthy(sessionSecret) then sessionSecret.value else "render_secret_key",
      false,
      false,
      Cookie(production, if production then "none" else "lax", OneDayMs))
  }

  /** A cross-site cookie is always a secure one, as browsers require. */
  lemma CrossSiteCookieIsSecure(nodeEnv: Option<string>, sessionSecret: Option<string>)
    ensures SessionConfig(nodeEnv, sessionSecret).cookie.sameSite == "none" ==>
            SessionConfig(nodeEnv, sessionSecret).cookie.secure
  {
  }
}
