/**
 * The live auth controller: token issuance, signup with OTP issue and resend, OTP
 * verification, password login, and the Google profile reconciler with its success
 * redirect. Every handler works on the shared `Store`; times are `Date.now()` in ms.
 */
module AuthController {
  import opened Prelude
  import opened JsText
  import opened UserModel
  import opened Wire

  /** `15 * 60 * 1000`: an OTP is valid for fifteen minutes after it is issued. */
  const OtpLifetimeMs: nat := 15 * 60 * 1000

  /** `expiresIn: "30d"`, in the seconds a JWT counts in. */
  const TokenLifetimeSeconds: nat := 30 * 24 * 60 * 60

  const DayMs: nat := 24 * 60 * 60 * 1000

  /** A signed JWT `{ id }`, opaque: the claim and its `iat` / `exp` in seconds. */
  datatype Token = Token(id: Id, issuedAt: nat, expiresAt: nat)

  /** `{ _id, name, email }`: the only account fields a reply exposes. */
  datatype Summary = Summary(id: Id, name: string, email: string)

  datatype ReplyBody =
    | Message(success: bool, message: string)
    | Authenticated(user: Summary, token: Token)

  /** An HTTP status with its JSON body. */
  datatype Reply = Reply(status: nat, body: ReplyBody)

  /** The verification email handed to the mail transport. */
  datatype Mail = Mail(to: string, code: string)

  const InternalError: Reply := Reply(500, Message(false, "Internal server error"))

  /** `generateToken(id)`: fails (throws) when `JWT_SECRET` is unset or empty. */
  function GenerateToken(secret: Option<string>, id: Id, nowMs: nat): (t: Option<Token>)
    ensures t.Some? <==> Truthy(secret)
    ensures t.Some? ==> t.value.id == id && t.value.issuedAt == nowMs / 1000
    ensures t.Some? ==> t.value.expiresAt == t.value.issuedAt + TokenLifetimeSeconds
  {
    if Truthy(secret) then Some(Token(id, nowMs / 1000, nowMs / 1000 + TokenLifetimeSeconds)) else None
  }

  /** jsonwebtoken's expiry rule: a token is rejected once the clock, in seconds, reaches `exp`. */
  predicate AcceptedAt(t: Token, nowMs: nat)
  {
    nowMs / 1000 < t.expiresAt
  }

  /** A token issued at T is still accepted at T + 29 days and rejected at T + 31 days. */
  lemma TokenWindow(secret: Option<string>, id: Id, issuedMs: nat)
    requires Truthy(secret)
    ensures AcceptedAt(GenerateToken(secret, id, issuedMs).value, issuedMs + 29 * DayMs)
    ensures !AcceptedAt(GenerateToken(secret, id, issuedMs).value, issuedMs + 31 * DayMs)
  {
    assert (issuedMs + 29 * DayMs) / 1000 == issuedMs / 1000 + 29 * 86400;
    assert (issuedMs + 31 * DayMs) / 1000 == issuedMs / 1000 + 31 * 86400;
  }

  /** The `200 { success, user, token }` reply, or the catch-all 500 when signing throws. */
  function Issue(id: Id, r: Record, secret: Option<string>, nowMs: nat): (reply: Reply)
    ensures reply.status == 200 <==> Truthy(secret)
    ensures Truthy(secret) ==>
      reply.body == Authenticated(Summary(id, r.name, r.email), GenerateToken(secret, id, nowMs).value)
    ensures !Truthy(secret) ==> reply == InternalError
  {
    match GenerateToken(secret, id, nowMs)
    case Some(t) => Reply(200, Authenticated(Summary(id, r.name, r.email), t))
    case None => InternalError
  }

  // ---------------------------------------------------------------- OTP challenge

  /** The document with a fresh challenge attached: code and expiry set together. */
  function WithChallenge(r: Record, code: string, nowMs: nat): Record
  {
    r.(otp := Some(code), otpExpiresAt := Some(nowMs + OtpLifetimeMs))
  }

  /** The document after a successful verification: verified, challenge cleared. */
  function Verified(r: Record): Record
  {
    r.(isVerified := true, otp := None, otpExpiresAt := None)
  }

  /**
   * `!(!user.otp || user.otp !== otp || user.otpExpiresAt < new Date())`. A missing expiry
   * compares as false, so it does not reject.
   */
  predicate OtpAccepted(r: Record, submitted: string, nowMs: nat)
    ensures OtpAccepted(r, submitted, nowMs) ==> submitted != "" && r.otp == Some(submitted)
    ensures r.otpExpiresAt.Some? && r.otpExpiresAt.value < nowMs ==> !OtpAccepted(r, submitted, nowMs)
  {
    Truthy(r.otp) && r.otp.value == submitted &&
    !(r.otpExpiresAt.Some? && r.otpExpiresAt.value < nowMs)
  }

  datatype ChallengeState = NoChallenge | Pending | Expired

  /** Where a document's challenge stands at a given instant. */
  function ChallengeAt(r: Record, nowMs: nat): ChallengeState
  {
    if !Truthy(r.otp) then NoChallenge
    else if r.otpExpiresAt.Some? && r.otpExpiresAt.value < nowMs then Expired
    else Pending
  }

  /** A code is accepted exactly when a challenge is pending and the strings are equal. */
  lemma AcceptedIffPendingAndEqual(r: Record, submitted: string, nowMs: nat)
    ensures OtpAccepted(r, submitted, nowMs) <==> ChallengeAt(r, nowMs) == Pending && r.otp == Some(submitted)
  {
  }

  /** Once expired, a challenge stays expired until it is overwritten. */
  lemma ExpiryIsPermanent(r: Record, t1: nat, t2: nat)
    requires t1 <= t2 && ChallengeAt(r, t1) == Expired
    ensures ChallengeAt(r, t2) == Expired
  {
  }

  /**
   * A freshly issued code is accepted up to and including the expiry instant, and never
   * after it; no other string is ever accepted.
   */
  lemma ChallengeWindow(r: Record, code: string, issuedMs: nat, submitted: string, nowMs: nat)
    requires code != ""
    ensures OtpAccepted(WithChallenge(r, code, issuedMs), submitted, nowMs) <==>
            submitted == code && nowMs <= issuedMs + OtpLifetimeMs
  {
  }

  /** A consumed challenge rejects every code, the one just used included. */
  lemma ConsumedChallengeRejects(r: Record, submitted: string, nowMs: nat)
    ensures !OtpAccepted(Verified(r), submitted, nowMs)
    ensures ChallengeAt(Verified(r), nowMs) == NoChallenge
  {
  }

  /** `Math.floor(100000 + Math.random() * 900000).toString()` */
  method DrawOtp() returns (code: string)
    ensures IsOtpCode(code)
    ensures exists n :: 100000 <= n <= 999999 && code == Decimal(n)
  {
    var n: nat :| 100000 <= n <= 999999;
    SixDigitCode(n);
    code := Decimal(n);
  }

  // ---------------------------------------------------------------- signup

  /** `!name || !email || !password` */
  predicate MissingField(body: SignupBody)
    ensures MissingField(body) <==>
      !(Truthy(Some(body.name)) && Truthy(Some(body.email)) && Truthy(Some(body.password)))
  {
    body.name == "" || body.email == "" || body.password == ""
  }

  /**
   * What the schema additionally demands of a fresh signup, beyond non-empty fields: for a
   * body with every field present it holds exactly when the document to be created passes
   * the schema validators, whichever code and instant the challenge carries.
   */
  predicate SignupFieldsValid(body: SignupBody, isEmail: string -> bool)
    ensures !MissingField(body) ==> forall code: string, nowMs: nat ::
      SignupFieldsValid(body, isEmail) <==> SchemaValid(Initial(SignupUser(body, code, nowMs)), isEmail)
  {
    Trim(body.name) != "" && isEmail(body.email) && Utf16Length(body.password) >= MinPasswordLength
  }

  /** A password of three emoji is six code units long, so it passes `minlength: 6`. */
  lemma ThreeEmojiPasswordPasses(isEmail: string -> bool)
    requires isEmail("a@x.com")
    ensures SignupFieldsValid(SignupBody("Ann", "a@x.com", "\U{1F600}\U{1F600}\U{1F600}", false), isEmail)
  {
    ThreeEmojiAreSixUnits();
  }

  /** The argument of `User.create` in a fresh signup. */
  function SignupUser(body: SignupBody, code: string, nowMs: nat): NewUser
  {
    NewUser(body.name, body.email, Some(body.password), None, None, Some(code), Some(nowMs + OtpLifetimeMs))
  }

  /** The document a fresh signup stores. */
  function SignupRecord(body: SignupBody, code: string, nowMs: nat): (r: Record)
    ensures r.name == Trim(body.name) && r.email == body.email
    ensures r.password == Some(Hash(body.password)) && r.googleId.None?
    ensures !r.isVerified
    ensures r.otp == Some(code) && r.otpExpiresAt == Some(nowMs + OtpLifetimeMs)
  {
    AfterHook(Initial(SignupUser(body, code, nowMs)), true)
  }

  /**
   * The resend branch on an unverified account: a fresh code and expiry overwrite the old
   * challenge; nothing else about the document changes.
   */
  method Rechallenge(store: Store, user: UserDoc, nowMs: nat) returns (code: string)
    requires store.Valid() && user.id in store.records
    requires user.Value() == store.records[user.id] && !user.PasswordModified()
    modifies store, user
    ensures store.Valid() && IsOtpCode(code)
    ensures store.records == old(store.records)[user.id := WithChallenge(old(store.records)[user.id], code, nowMs)]
  {
    code := DrawOtp();
    user.otp := Some(code);
    user.otpExpiresAt := Some(nowMs + OtpLifetimeMs);
    store.RewriteWritable(user.id, user.Value());
    var saved := store.Save(user);
  }

  /**
   * The fresh-signup branch: `User.create` with the hashed password and a new challenge.
   * The email is known to be free, so only the name, email and password validators can refuse.
   */
  method Register(store: Store, body: SignupBody, nowMs: nat) returns (code: Option<string>)
    requires store.Valid() && !MissingField(body) && !store.HasEmail(body.email)
    modifies store
    ensures store.Valid()
    ensures code.Some? <==> SignupFieldsValid(body, store.isEmail)
    ensures code.Some? ==>
      IsOtpCode(code.value) &&
      store.records == old(store.records)[old(store.nextId) := SignupRecord(body, code.value, nowMs)]
    ensures code.None? ==> store.records == old(store.records)
  {
    var drawn := DrawOtp();
    var u := SignupUser(body, drawn, nowMs);
    assert store.Unique(store.nextId, Initial(u));
    var created := store.Create(u);
    code := if created == null then None else Some(drawn);
  }

  /**
   * `signup`: the resend branch first, then the required fields, then the duplicate check,
   * then a new unverified account with a fresh challenge. The email goes out after the
   * write, so a failed dispatch answers 500 with the account (or new code) already stored.
   */
  method Signup(store: Store, body: SignupBody, nowMs: nat, mailDelivered: bool) returns (reply: Reply, mail: Option<Mail>)
    requires store.Valid()
    modifies store
    ensures store.Valid()
    ensures body.resend && old(store.HasEmail(body.email)) ==>
      var id := old(store.EmailOwner(body.email));
      var r := old(store.records)[id];
      if r.isVerified then
        reply == Reply(400, Message(false, "User already verified")) && mail.None? &&
        store.records == old(store.records)
      else
        mail.Some? && mail.value.to == body.email && IsOtpCode(mail.value.code) &&
        store.records == old(store.records)[id := WithChallenge(r, mail.value.code, nowMs)] &&
        reply == (if mailDelivered then Reply(200, Message(true, "OTP resent successfully")) else InternalError)
    ensures !(body.resend && old(store.HasEmail(body.email))) && MissingField(body) ==>
      reply == Reply(400, Message(false, "Name, email, and password are required")) && mail.None? &&
      store.records == old(store.records)
    ensures !body.resend && !MissingField(body) && old(store.HasEmail(body.email)) ==>
      reply == Reply(400, Message(false, "User already exists")) && mail.None? &&
      store.records == old(store.records)
    ensures !MissingField(body) && !old(store.HasEmail(body.email)) ==>
      if SignupFieldsValid(body, store.isEmail) then
        mail.Some? && mail.value.to == body.email && IsOtpCode(mail.value.code) &&
        store.records == old(store.records)[old(store.nextId) := SignupRecord(body, mail.value.code, nowMs)] &&
        reply == (if mailDelivered then Reply(201, Message(true, "OTP sent successfully")) else InternalError)
      else
        reply == InternalError && mail.None? && store.records == old(store.records)
  {
    var existing := store.FindByEmail(body.email);
    if body.resend && existing != null {
      if existing.isVerified {
        return Reply(400, Message(false, "User already verified")), None;
      }
      var code := Rechallenge(store, existing, nowMs);
      mail := Some(Mail(body.email, code));
      reply := if mailDelivered then Reply(200, Message(true, "OTP resent successfully")) else InternalError;
      return;
    }
    if body.name == "" || body.email == "" || body.password == "" {
      return Reply(400, Message(false, "Name, email, and password are required")), None;
    }
    if existing != null {
      return Reply(400, Message(false, "User already exists")), None;
    }
    var code := Register(store, body, nowMs);
    if code.None? {
      return InternalError, None;
    }
    mail := Some(Mail(body.email, code.value));
    reply := if mailDelivered then Reply(201, Message(true, "OTP sent successfully")) else InternalError;
  }

  // ---------------------------------------------------------------- verify OTP

  /**
   * `verifyOtp`: on success the document is saved verified with its challenge cleared
   * before the token is signed, so a missing secret answers 500 after the account has
   * already been verified. Every rejection leaves the collection unchanged.
   */
  method VerifyOtp(store: Store, body: VerifyBody, nowMs: nat, secret: Option<string>) returns (reply: Reply)
    requires store.Valid()
    modifies store
    ensures store.Valid() && store.nextId == old(store.nextId)
    ensures !old(store.HasEmail(body.email)) ==>
      reply == Reply(404, Message(false, "User not found")) && store.records == old(store.records)
    ensures old(store.HasEmail(body.email)) ==>
      var id := old(store.EmailOwner(body.email));
      var r := old(store.records)[id];
      if OtpAccepted(r, body.otp, nowMs) then
        store.records == old(store.records)[id := Verified(r)] && reply == Issue(id, r, secret, nowMs)
      else
        reply == Reply(400, Message(false, "Invalid or expired OTP")) && store.records == old(store.records)
  {
    var user := store.FindByEmail(body.email);
    if user == null {
      return Reply(404, Message(false, "User not found"));
    }
    if !Truthy(user.otp) || user.otp.value != body.otp ||
       (user.otpExpiresAt.Some? && user.otpExpiresAt.value < nowMs) {
      return Reply(400, Message(false, "Invalid or expired OTP"));
    }
    user.isVerified := true;
    user.otp := None;
    user.otpExpiresAt := None;
    store.StoredIsUnique(user.id);
    var saved := store.Save(user);
    var token := GenerateToken(secret, user.id, nowMs);
    reply := match token
      case Some(t) => Reply(200, Authenticated(Summary(user.id, user.name, user.email), t))
      case None => InternalError;
  }

  // ---------------------------------------------------------------- login

  /**
   * `login`: existence, then verification, then the password. An unverified account is
   * refused whatever password is given; it changes nothing in the collection.
   */
  method Login(store: Store, body: LoginBody, nowMs: nat, secret: Option<string>) returns (reply: Reply)
    requires store.Valid()
    ensures !store.HasEmail(body.email) ==> reply == Reply(401, Message(false, "Invalid credentials"))
    ensures store.HasEmail(body.email) ==>
      var id := store.EmailOwner(body.email);
      var r := store.records[id];
      if !r.isVerified then reply == Reply(401, Message(false, "Please verify your email first"))
      else if !ComparePassword(r, body.password) then reply == Reply(401, Message(false, "Invalid credentials"))
      else reply == Issue(id, r, secret, nowMs)
  {
    var user := store.FindByEmail(body.email);
    if user == null {
      return Reply(401, Message(false, "Invalid credentials"));
    }
    if !user.isVerified {
      return Reply(401, Message(false, "Please verify your email first"));
    }
    var isMatch := HasPassword(user.password) && Compare(body.password, user.password.value);
    if !isMatch {
      return Reply(401, Message(false, "Invalid credentials"));
    }
    var token := GenerateToken(secret, user.id, nowMs);
    reply := match token
      case Some(t) => Reply(200, Authenticated(Summary(user.id, user.name, user.email), t))
      case None => InternalError;
  }

  // ---------------------------------------------------------------- Google

  /** The passport profile: `profile.id`, `profile.displayName`, `profile.emails[i].value`. */
  datatype GoogleProfile = GoogleProfile(id: string, displayName: string, emails: seq<string>)

  /** The argument of `User.create` for a first Google login. */
  function GoogleUser(p: GoogleProfile): NewUser
    requires |p.emails| > 0
  {
    NewUser(p.displayName, p.emails[0], None, Some(p.id), Some(true), None, None)
  }

  /** What the schema demands of a Google-created account. */
  predicate GoogleFieldsValid(p: GoogleProfile, isEmail: string -> bool)
    requires |p.emails| > 0
  {
    Trim(p.displayName) != "" && p.emails[0] != "" && isEmail(p.emails[0]) && p.id != ""
  }

  /** The document a first Google login stores: verified, linked, without a password. */
  function GoogleRecord(p: GoogleProfile): (r: Record)
    requires |p.emails| > 0
    ensures r.isVerified && r.password.None? && r.googleId == Some(p.id)
    ensures r.name == Trim(p.displayName) && r.email == p.emails[0]
    ensures r.otp.None? && r.otpExpiresAt.None?
  {
    AfterHook(Initial(GoogleUser(p)), false)
  }

  /**
   * Linking a Google id to the account found by email: only `googleId` changes. The save
   * is refused only when the id is empty and the account has no password to fall back on.
   */
  method Link(store: Store, doc: UserDoc, googleId: string) returns (ok: bool)
    requires store.Valid() && doc.id in store.records
    requires doc.Value() == store.records[doc.id] && !doc.PasswordModified()
    requires !store.HasGoogleId(googleId)
    modifies store, doc
    ensures store.Valid()
    ensures ok <==> googleId != "" || old(store.records[doc.id].password.Some?)
    ensures ok ==>
      store.records == old(store.records)[doc.id := old(store.records[doc.id]).(googleId := Some(googleId))] &&
      doc.Value() == store.records[doc.id]
    ensures !ok ==> store.records == old(store.records)
  {
    store.StoredIsUnique(doc.id);
    doc.googleId := Some(googleId);
    ok := store.Save(doc);
  }

  /** A first Google login with an unknown id and email: `User.create` with a verified account. */
  method Enroll(store: Store, profile: GoogleProfile) returns (doc: UserDoc?)
    requires store.Valid() && |profile.emails| > 0
    requires !store.HasGoogleId(profile.id) && !store.HasEmail(profile.emails[0])
    modifies store
    ensures store.Valid()
    ensures doc != null <==> GoogleFieldsValid(profile, store.isEmail)
    ensures doc != null ==>
      doc.id == old(store.nextId) && store.records == old(store.records)[doc.id := GoogleRecord(profile)] &&
      doc.Value() == store.records[doc.id]
    ensures doc == null ==> store.records == old(store.records)
  {
    assert store.Unique(store.nextId, Initial(GoogleUser(profile)));
    doc := store.Create(GoogleUser(profile));
  }

  /**
   * The Google verify callback: by googleId, else link by email (password and verification
   * untouched), else create. `null` stands for `done(err, null)`.
   */
  method GoogleVerify(store: Store, profile: GoogleProfile) returns (doc: UserDoc?)
    requires store.Valid()
    modifies store
    ensures store.Valid()
    ensures doc != null ==> doc.id in store.records && doc.Value() == store.records[doc.id] &&
                            store.records[doc.id].googleId == Some(profile.id)
    ensures old(store.HasGoogleId(profile.id)) ==>
      doc != null && doc.id == old(store.GoogleOwner(profile.id)) && store.records == old(store.records)
    ensures !old(store.HasGoogleId(profile.id)) && |profile.emails| == 0 ==>
      doc == null && store.records == old(store.records)
    ensures !old(store.HasGoogleId(profile.id)) && |profile.emails| > 0 && old(store.HasEmail(profile.emails[0])) ==>
      var id := old(store.EmailOwner(profile.emails[0]));
      var r := old(store.records)[id];
      if profile.id != "" || r.password.Some? then
        doc != null && doc.id == id && store.records == old(store.records)[id := r.(googleId := Some(profile.id))]
      else
        doc == null && store.records == old(store.records)
    ensures !old(store.HasGoogleId(profile.id)) && |profile.emails| > 0 && !old(store.HasEmail(profile.emails[0])) ==>
      if GoogleFieldsValid(profile, store.isEmail) then
        doc != null && doc.id == old(store.nextId) &&
        store.records == old(store.records)[doc.id := GoogleRecord(profile)]
      else
        doc == null && store.records == old(store.records)
  {
    doc := store.FindByGoogleId(profile.id);
    if doc != null {
      return;
    }
    if |profile.emails| == 0 {
      return null;
    }
    doc := store.FindByEmail(profile.emails[0]);
    if doc == null {
      doc := Enroll(store, profile);
      return;
    }
    var linked := Link(store, doc, profile.id);
    if !linked {
      doc := null;
    }
  }

  /** Where `googleAuthSuccess` sends the browser. */
  datatype Handoff =
    | OverviewRedirect(token: Token, user: Summary)   // CLIENT_URL/overview?token=..&user=..
    | LoginRedirect(error: string)                    // CLIENT_URL/login?error=..
    | ServerError                                     // generateToken threw

  /** `googleAuthSuccess`: a token for whichever account was resolved; verification is not checked. */
  function GoogleAuthSuccess(resolved: Option<(Id, Record)>, secret: Option<string>, nowMs: nat): (h: Handoff)
    ensures resolved.None? ==> h == LoginRedirect("no_user_found")
    ensures resolved.Some? ==> (h.OverviewRedirect? <==> Truthy(secret)) && (h.ServerError? <==> !Truthy(secret))
    ensures h.OverviewRedirect? ==>
      h.user == Summary(resolved.value.0, resolved.value.1.name, resolved.value.1.email) &&
      h.token == GenerateToken(secret, resolved.value.0, nowMs).value
  {
    match resolved
    case None => LoginRedirect("no_user_found")
    case Some((id, r)) =>
      match GenerateToken(secret, id, nowMs)
      case Some(t) => OverviewRedirect(t, Summary(id, r.name, r.email))
      case None => ServerError
  }

  /** The redirect does not depend on whether the account is verified. */
  lemma GoogleSuccessIgnoresVerification(id: Id, r: Record, secret: Option<string>, nowMs: nat)
    ensures GoogleAuthSuccess(Some((id, r)), secret, nowMs) ==
            GoogleAuthSuccess(Some((id, r.(isVerified := !r.isVerified))), secret, nowMs)
  {
  }
}
