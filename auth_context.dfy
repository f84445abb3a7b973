/**
 * The client session bridge (`AuthProvider`): the session lives in `localStorage` under
 * "user" and "token", in the context's `user` and `loading`, and in the address bar that
 * the Google handoff arrives in. Each operation is specified by a function on `State`.
 */
module AuthContext {
  import opened Prelude

  /**
   * A parsed JSON value as the client tests it: falsy (`null`, `false`, `0`, `""`) or an
   * object with string fields.
   */
  datatype UserValue = Falsy | Object(fields: map<string, string>)

  /** `if (user)` */
  predicate IsUser(v: UserValue)
  {
    v.Object?
  }

  /**
   * `JSON.parse`, `JSON.stringify` and `decodeURIComponent`, uninterpreted. `None` stands for
   * the exception the partial ones throw.
   */
  datatype Codec = Codec(
    parse: string -> Option<UserValue>,
    stringify: UserValue -> string,
    decodeComponent: string -> Option<string>)

  /** What the client relies on: a stringified value parses back, and is never empty. */
  ghost predicate WellBehaved(c: Codec)
  {
    forall v :: c.parse(c.stringify(v)) == Some(v) && c.stringify(v) != ""
  }

  const UserKey: string := "user"
  const TokenKey: string := "token"

  /** `window.location`: the pathname and the decoded query parameters. */
  datatype Url = Url(path: string, query: map<string, string>)

  /** Everything the provider reads or writes. */
  datatype State = State(storage: map<string, string>, user: UserValue, loading: bool, url: Url)

  /** `localStorage` holds both session keys or neither. */
  predicate Paired(storage: map<string, string>)
  {
    UserKey in storage <==> TokenKey in storage
  }

  /** Both `removeItem` calls. */
  function Cleared(storage: map<string, string>): map<string, string>
  {
    storage - {UserKey, TokenKey}
  }

  /** `loginWithToken(userData, token)` and `handleAuthSuccess(data)`: both keys written, user set. */
  function AfterAuthSuccess(c: Codec, s: State, user: UserValue, token: string): (t: State)
    ensures t.user == user && t.loading == s.loading && t.url == s.url
    ensures Paired(t.storage) && UserKey in t.storage
    ensures t.storage[UserKey] == c.stringify(user) && t.storage[TokenKey] == token
    ensures forall k :: k != UserKey && k != TokenKey ==> (k in t.storage <==> k in s.storage)
    ensures forall k :: k in s.storage && k != UserKey && k != TokenKey ==> t.storage[k] == s.storage[k]
  {
    s.(storage := s.storage[UserKey := c.stringify(user)][TokenKey := token], user := user)
  }

  /** `logout()`: both keys removed and the context user reset. */
  function AfterLogout(s: State): (t: State)
    ensures t.user == Falsy && t.loading == s.loading && t.url == s.url
    ensures UserKey !in t.storage && TokenKey !in t.storage
    ensures forall k :: k != UserKey && k != TokenKey ==> (k in t.storage <==> k in s.storage)
  {
    s.(storage := Cleared(s.storage), user := Falsy)
  }

  /** Logging out twice is logging out once. */
  lemma LogoutIdempotent(s: State)
    ensures AfterLogout(AfterLogout(s)) == AfterLogout(s)
  {
  }

  datatype Restore = Resume(user: UserValue) | Discard | Corrupt

  /**
   * The first step of the load effect. A truthy stored user and token are parsed (parse
   * throwing is `Corrupt`); anything less is discarded.
   */
  function RestoreOf(c: Codec, storage: map<string, string>): (r: Restore)
    ensures r.Discard? <==> !(Truthy(Lookup(storage, UserKey)) && Truthy(Lookup(storage, TokenKey)))
    ensures r.Resume? ==> UserKey in storage && c.parse(storage[UserKey]) == Some(r.user)
    ensures r.Corrupt? ==> UserKey in storage && c.parse(storage[UserKey]).None?
  {
    if Truthy(Lookup(storage, UserKey)) && Truthy(Lookup(storage, TokenKey)) then
      match c.parse(storage[UserKey])
      case Some(v) => Resume(v)
      case None => Corrupt
    else
      Discard
  }

  datatype Credentials = Credentials(user: UserValue, token: string)

  /**
   * The second step: the `?token=&user=` handoff fires when both parameters are truthy, the
   * user parameter decodes and parses, and the parsed value is truthy.
   */
  function HandoffOf(c: Codec, url: Url): (g: Option<Credentials>)
    ensures g.Some? ==>
              IsUser(g.value.user) && g.value.token != "" &&
              TokenKey in url.query && url.query[TokenKey] == g.value.token
    ensures g.Some? ==>
              UserKey in url.query && c.decodeComponent(url.query[UserKey]).Some? &&
              c.parse(c.decodeComponent(url.query[UserKey]).value) == Some(g.value.user)
    ensures !Truthy(Lookup(url.query, TokenKey)) || !Truthy(Lookup(url.query, UserKey)) ==> g.None?
    ensures Truthy(Lookup(url.query, TokenKey)) && Truthy(Lookup(url.query, UserKey)) &&
            c.decodeComponent(url.query[UserKey]).Some? ==>
              var parsed := c.parse(c.decodeComponent(url.query[UserKey]).value);
              parsed.Some? && IsUser(parsed.value) ==> g == Some(Credentials(parsed.value, url.query[TokenKey]))
  {
    var token := Lookup(url.query, TokenKey);
    var raw := Lookup(url.query, UserKey);
    if Truthy(token) && Truthy(raw) then
      match c.decodeComponent(raw.value)
      case None => None
      case Some(decoded) =>
        match c.parse(decoded)
        case None => None
        case Some(v) => if IsUser(v) then Some(Credentials(v, token.value)) else None
    else
      None
  }

  /**
   * `replaceState({}, title, pathname)`: the query is dropped, the path kept, so no handoff
   * can fire again from the scrubbed address.
   */
  function Scrubbed(url: Url): (r: Url)
    ensures r.path == url.path && r.query == map[]
    ensures forall c :: HandoffOf(c, r).None?
  {
    Url(url.path, map[])
  }

  /**
   * The load effect. A corrupt stored user clears both keys and skips the handoff (the
   * outer `catch`); otherwise the restored or discarded session is overridden by a handoff
   * when one fires. Loading ends in every branch.
   */
  function AfterLoad(c: Codec, s: State): (t: State)
    ensures !t.loading && Paired(t.storage)
    ensures forall k :: k != UserKey && k != TokenKey ==> (k in t.storage <==> k in s.storage)
    ensures forall k :: k in s.storage && k != UserKey && k != TokenKey ==> t.storage[k] == s.storage[k]
    ensures RestoreOf(c, s.storage).Corrupt? ==>
      t == s.(storage := Cleared(s.storage), loading := false)
    ensures !RestoreOf(c, s.storage).Corrupt? && HandoffOf(c, s.url).Some? ==>
      var g := HandoffOf(c, s.url).value;
      t.user == g.user && t.url == Scrubbed(s.url) && UserKey in t.storage && TokenKey in t.storage &&
      t.storage[UserKey] == c.stringify(g.user) && t.storage[TokenKey] == g.token
    ensures !RestoreOf(c, s.storage).Corrupt? && HandoffOf(c, s.url).None? ==> t.url == s.url
    ensures RestoreOf(c, s.storage).Resume? && HandoffOf(c, s.url).None? ==>
      t.user == RestoreOf(c, s.storage).user && t.storage == s.storage
    ensures RestoreOf(c, s.storage).Discard? && HandoffOf(c, s.url).None? ==>
      t.user == s.user && t.storage == Cleared(s.storage)
  {
    match RestoreOf(c, s.storage)
    case Corrupt => s.(storage := Cleared(s.storage), loading := false)
    case Resume(v) => Handed(c, s.(user := v), s.url)
    case Discard => Handed(c, s.(storage := Cleared(s.storage)), s.url)
  }

  /** The handoff step applied to the restored state, then `setLoading(false)`. */
  function Handed(c: Codec, s: State, url: Url): State
  {
    match HandoffOf(c, url)
    case Some(g) => AfterAuthSuccess(c, s, g.user, g.token).(url := Scrubbed(url), loading := false)
    case None => s.(loading := false)
  }

  /** A session written by `loginWithToken` / `handleAuthSuccess` is what the next load restores. */
  lemma AuthSuccessRestores(c: Codec, s: State, user: UserValue, token: string)
    requires WellBehaved(c) && token != ""
    ensures RestoreOf(c, AfterAuthSuccess(c, s, user, token).storage) == Resume(user)
  {
    var t := AfterAuthSuccess(c, s, user, token);
    assert c.parse(c.stringify(user)) == Some(user) && c.stringify(user) != "";
    assert Lookup(t.storage, UserKey) == Some(c.stringify(user));
  }

  /** After `logout()` the next load has nothing to restore. */
  lemma LogoutLeavesNothing(c: Codec, s: State)
    ensures RestoreOf(c, AfterLogout(s).storage) == Discard
  {
  }

  /**
   * A Google handoff survives a reload: the scrubbed page, loaded afresh, restores the
   * handed-off user from storage.
   */
  lemma HandoffSurvivesReload(c: Codec, s: State)
    requires WellBehaved(c)
    requires !RestoreOf(c, s.storage).Corrupt? && HandoffOf(c, s.url).Some?
    ensures var t := AfterLoad(c, s);
            AfterLoad(c, State(t.storage, Falsy, true, t.url)).user == HandoffOf(c, s.url).value.user
  {
    var g := HandoffOf(c, s.url).value;
    var t := AfterLoad(c, s);
    assert t.url.query == map[];
    assert HandoffOf(c, t.url).None?;
    assert c.parse(c.stringify(g.user)) == Some(g.user) && c.stringify(g.user) != "";
    assert Lookup(t.storage, UserKey) == Some(c.stringify(g.user));
    assert Lookup(t.storage, TokenKey) == Some(g.token);
    assert RestoreOf(c, t.storage) == Resume(g.user);
  }

  // ---------------------------------------------------------------- API calls

  /** `response.data` as the client reads it; an absent field is falsy. */
  datatype Body = Body(success: bool, message: string, user: UserValue, token: string)

  /**
   * An axios call: a 2xx answer, or the thrown error with the server's body when there was
   * one (axios throws on every other status) and the error's own message.
   */
  datatype ApiOutcome =
    | Answered(data: Body)
    | Threw(response: Option<Body>, errorMessage: string)

  /** What `signup`, `verifyOtp` and `login` resolve to: never a rejection. */
  function Returned(o: ApiOutcome): (b: Body)
    ensures o.Answered? ==> b == o.data
    ensures o.Threw? ==> !b.success && b.user == Falsy && b.token == ""
    ensures o.Threw? && o.response.Some? && o.response.value.message != "" ==> b.message == o.response.value.message
    ensures o.Threw? && (o.response.None? || o.response.value.message == "") ==> b.message == o.errorMessage
  {
    match o
    case Answered(data) => data
    case Threw(response, errorMessage) =>
      var serverMessage := if response.Some? then response.value.message else "";
      Body(false, if serverMessage != "" then serverMessage else errorMessage, Falsy, "")
  }

  /** `verifyOtp` and `login`: the session is touched only by a successful answer. */
  function AfterSubmit(c: Codec, s: State, o: ApiOutcome): (t: State)
    ensures t.url == s.url && t.loading == s.loading
    ensures !Returned(o).success ==> t == s
    ensures Returned(o).success ==> t == AfterAuthSuccess(c, s, Returned(o).user, Returned(o).token)
  {
    if o.Answered? && o.data.success then AfterAuthSuccess(c, s, o.data.user, o.data.token) else s
  }

  /** A call that resolves unsuccessfully leaves the session exactly as it was. */
  lemma FailedSubmitKeepsSession(c: Codec, s: State, o: ApiOutcome)
    requires !Returned(o).success
    ensures AfterSubmit(c, s, o) == s
  {
  }

  /** A successful call signs in as the user it returned, and a reload keeps it so. */
  lemma SuccessfulSubmitSignsIn(c: Codec, s: State, o: ApiOutcome)
    requires WellBehaved(c) && Returned(o).success && Returned(o).token != ""
    ensures AfterSubmit(c, s, o).user == Returned(o).user
    ensures RestoreOf(c, AfterSubmit(c, s, o).storage) == Resume(Returned(o).user)
  {
    AuthSuccessRestores(c, s, o.data.user, o.data.token);
  }

  /** The provider's state, with the operations it exposes. */
  class Session {
    const codec: Codec
    var storage: map<string, string>
    var user: UserValue
    var loading: bool
    var url: Url

    function Snapshot(): State
      reads this
    {
      State(storage, user, loading, url)
    }

    /** First render: `useState(null)`, `useState(true)`. */
    constructor (codec: Codec, storage: map<string, string>, url: Url)
      ensures this.codec == codec && Snapshot() == State(storage, Falsy, true, url)
    {
      this.codec := codec;
      this.storage := storage;
      this.user := Falsy;
      this.loading := true;
      this.url := url;
    }

    /** The mount effect. */
    method Load()
      modifies this
      ensures Snapshot() == AfterLoad(codec, old(Snapshot()))
    {
      var savedUser := Lookup(storage, UserKey);
      var token := Lookup(storage, TokenKey);
      var corrupt := false;
      if Truthy(savedUser) && Truthy(token) {
        var parsed := codec.parse(savedUser.value);
        if parsed.Some? {
          user := parsed.value;
        } else {
          corrupt := true;
        }
      } else {
        storage := Cleared(storage);
      }
      if corrupt {
        storage := Cleared(storage);
      } else {
        var authToken := Lookup(url.query, TokenKey);
        var userString := Lookup(url.query, UserKey);
        if Truthy(authToken) && Truthy(userString) {
          var decoded := codec.decodeComponent(userString.value);
          if decoded.Some? {
            var userData := codec.parse(decoded.value);
            if userData.Some? && IsUser(userData.value) {
              LoginWithToken(userData.value, authToken.value);
              url := Scrubbed(url);
            }
          }
        }
      }
      loading := false;
    }

    method LoginWithToken(userData: UserValue, token: string)
      modifies this
      ensures Snapshot() == AfterAuthSuccess(codec, old(Snapshot()), userData, token)
    {
      storage := storage[UserKey := codec.stringify(userData)];
      storage := storage[TokenKey := token];
      user := userData;
    }

    method HandleAuthSuccess(data: Body)
      modifies this
      ensures Snapshot() == AfterAuthSuccess(codec, old(Snapshot()), data.user, data.token)
    {
      storage := storage[UserKey := codec.stringify(data.user)];
      storage := storage[TokenKey := data.token];
      user := data.user;
    }

    /** `signup(userData)`: the answer is passed through; the session is not touched. */
    method Signup(outcome: ApiOutcome) returns (result: Body)
      ensures result == Returned(outcome)
      ensures outcome.Threw? ==> !result.success
    {
      match outcome
      case Answered(data) =>
        result := data;
      case Threw(response, errorMessage) =>
        var serverMessage := if response.Some? then response.value.message else "";
        result := Body(false, if serverMessage != "" then serverMessage else errorMessage, Falsy, "");
    }

    method VerifyOtp(outcome: ApiOutcome) returns (result: Body)
      modifies this
      ensures result == Returned(outcome)
      ensures Snapshot() == AfterSubmit(codec, old(Snapshot()), outcome)
    {
      result := Submit(outcome);
    }

    method Login(outcome: ApiOutcome) returns (result: Body)
      modifies this
      ensures result == Returned(outcome)
      ensures Snapshot() == AfterSubmit(codec, old(Snapshot()), outcome)
    {
      result := Submit(outcome);
    }

    /** The shared shape of `verifyOtp` and `login`. */
    method Submit(outcome: ApiOutcome) returns (result: Body)
      modifies this
      ensures result == Returned(outcome)
      ensures Snapshot() == AfterSubmit(codec, old(Snapshot()), outcome)
    {
      match outcome
      case Answered(data) =>
        if data.success {
          HandleAuthSuccess(data);
        }
        result := data;
      case Threw(_, _) =>
        result := Returned(outcome);
    }

    method Logout()
      modifies this
      ensures Snapshot() == AfterLogout(old(Snapshot()))
    {
      storage := storage - {UserKey};
      storage := storage - {TokenKey};
      user := Falsy;
    }
  }
}
