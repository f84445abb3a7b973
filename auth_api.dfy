/** The axios client for the auth API: its base URL, the bearer interceptor, the endpoints. */
module AuthApi {
  import opened Prelude
  import opened Wire

  const BaseUrl: string := "http://localhost:5000/api/auth"
  const AuthorizationHeader: string := "Authorization"

  /** An outgoing request as the interceptor sees it. */
  class Request {
    const verb: string
    const url: string
    var headers: map<string, string>

    constructor (verb: string, url: string, headers: map<string, string>)
      ensures this.verb == verb && this.url == url && this.headers == headers
    {
      this.verb := verb;
      this.url := url;
      this.headers := headers;
    }
  }

  /** The headers after the interceptor, given `localStorage.getItem("token")`. */
  function WithBearer(headers: map<string, string>, token: Option<string>): (h: map<string, string>)
    ensures Truthy(token) ==> AuthorizationHeader in h && h[AuthorizationHeader] == "Bearer " + token.value
    ensures !Truthy(token) ==> h == headers
    ensures forall k :: k != AuthorizationHeader ==> (k in h <==> k in headers)
    ensures forall k :: k in headers && k != AuthorizationHeader ==> h[k] == headers[k]
  {
    if Truthy(token) then headers[AuthorizationHeader := "Bearer " + token.value] else headers
  }

  /** Running the interceptor twice sets the same header as running it once. */
  lemma WithBearerIdempotent(headers: map<string, string>, token: Option<string>)
    ensures WithBearer(WithBearer(headers, token), token) == WithBearer(headers, token)
  {
  }

  /** The header carries the token verbatim after the scheme. */
  lemma BearerCarriesToken(headers: map<string, string>, token: string)
    requires token != ""
    ensures var v := WithBearer(headers, Some(token))[AuthorizationHeader];
            |v| == 7 + |token| && v[..7] == "Bearer " && v[7..] == token
  {
  }

  /** The request interceptor: it edits only the headers and hands back the same request. */
  method Intercept(req: Request, storage: map<string, string>) returns (out: Request)
    modifies req`headers
    ensures out == req && req.headers == WithBearer(old(req.headers), Lookup(storage, "token"))
  {
    var token := Lookup(storage, "token");
    if Truthy(token) {
      req.headers := req.headers[AuthorizationHeader := "Bearer " + token.value];
    }
    out := req;
  }

  /** A POST with its JSON body. */
  datatype Post<B> = Post(url: string, body: B)

  function Signup(form: SignupBody): (p: Post<SignupBody>)
    ensures p.url == BaseUrl + "/signup" && p.body == form
  {
    Post(BaseUrl + "/signup", form)
  }

  function VerifyOtp(data: VerifyBody): (p: Post<VerifyBody>)
    ensures p.url == BaseUrl + "/verify-otp" && p.body == data
  {
    Post(BaseUrl + "/verify-otp", data)
  }

  function Login(form: LoginBody): (p: Post<LoginBody>)
    ensures p.url == BaseUrl + "/login" && p.body == form
  {
    Post(BaseUrl + "/login", form)
  }

  /** Each wrapper posts its argument unchanged under the base URL, to its own path. */
  lemma EndpointsAreDistinct(s: SignupBody, v: VerifyBody, l: LoginBody)
    ensures Signup(s).body == s && VerifyOtp(v).body == v && Login(l).body == l
    ensures Signup(s).url[..|BaseUrl|] == BaseUrl && VerifyOtp(v).url[..|BaseUrl|] == BaseUrl &&
            Login(l).url[..|BaseUrl|] == BaseUrl
    ensures Signup(s).url != VerifyOtp(v).url && VerifyOtp(v).url != Login(l).url && Signup(s).url != Login(l).url
  {
    assert Signup(s).url[|BaseUrl|..] == "/signup";
    assert VerifyOtp(v).url[|BaseUrl|..] == "/verify-otp";
    assert Login(l).url[|BaseUrl|..] == "/login";
  }
}
