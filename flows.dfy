/** End-to-end runs of the server handlers and of the client session across a reload. */
module Flows {
  import opened Prelude
  import opened JsText
  import opened UserModel
  import opened Wire
  import opened AuthController
  import opened AuthContext

  /** In a valid store the owner of an email is the one record that carries it. */
  lemma OwnerIsUnique(store: Store, id: Id, email: string)
    requires store.Valid() && id in store.records && store.records[id].email == email
    ensures store.HasEmail(email) && store.EmailOwner(email) == id
  {
  }

  /** Likewise for a googleId. */
  lemma GoogleOwnerIsUnique(store: Store, id: Id, googleId: string)
    requires store.Valid() && id in store.records && store.records[id].googleId == Some(googleId)
    ensures store.HasGoogleId(googleId) && store.GoogleOwner(googleId) == id
  {
  }

  /** A fresh signup, and a login refused because the account is not yet verified. */
  method Enrol(store: Store, body: SignupBody, signedUpAt: nat, secret: Option<string>)
      returns (signup: Reply, early: Reply, id: Id, code: string)
    requires store.Valid() && !store.HasEmail(body.email)
    requires !body.resend && !MissingField(body) && SignupFieldsValid(body, store.isEmail)
    modifies store
    ensures store.Valid() && id == old(store.nextId) && IsOtpCode(code)
    ensures store.records == old(store.records)[id := SignupRecord(body, code, signedUpAt)]
    ensures signup == Reply(201, Message(true, "OTP sent successfully"))
    ensures early == Reply(401, Message(false, "Please verify your email first"))
  {
    id := store.nextId;
    var mail;
    signup, mail := Signup(store, body, signedUpAt, true);
    code := mail.value.code;
    OwnerIsUnique(store, id, body.email);
    early := Login(store, LoginBody(body.email, body.password), signedUpAt, secret);
  }

  /** The code verifies within its window; the same code replayed is refused. */
  method Activate(store: Store, id: Id, body: SignupBody, code: string, signedUpAt: nat, verifiedAt: nat, secret: Option<string>)
      returns (verify: Reply, replay: Reply)
    requires store.Valid() && id in store.records && IsOtpCode(code)
    requires store.records[id] == SignupRecord(body, code, signedUpAt)
    requires signedUpAt <= verifiedAt <= signedUpAt + OtpLifetimeMs
    modifies store
    ensures store.Valid()
    ensures store.records == old(store.records)[id := Verified(SignupRecord(body, code, signedUpAt))]
    ensures verify == Issue(id, SignupRecord(body, code, signedUpAt), secret, verifiedAt)
    ensures replay == Reply(400, Message(false, "Invalid or expired OTP"))
  {
    OwnerIsUnique(store, id, body.email);
    ChallengeWindow(store.records[id], code, signedUpAt, code, verifiedAt);
    verify := VerifyOtp(store, VerifyBody(body.email, code), verifiedAt, secret);
    OwnerIsUnique(store, id, body.email);
    ConsumedChallengeRejects(SignupRecord(body, code, signedUpAt), code, verifiedAt);
    replay := VerifyOtp(store, VerifyBody(body.email, code), verifiedAt, secret);
  }

  /** A verified account admits its own password and refuses any other. */
  method SignIn(store: Store, id: Id, body: SignupBody, code: string, signedUpAt: nat, wrong: string, nowMs: nat, secret: Option<string>)
      returns (login: Reply, refused: Reply)
    requires store.Valid() && id in store.records
    requires store.records[id] == Verified(SignupRecord(body, code, signedUpAt))
    requires wrong != body.password
    ensures login == Issue(id, SignupRecord(body, code, signedUpAt), secret, nowMs)
    ensures refused == Reply(401, Message(false, "Invalid credentials"))
  {
    OwnerIsUnique(store, id, body.email);
    ComparePasswordOfHashed(store.records[id], body.password, body.password);
    ComparePasswordOfHashed(store.records[id], body.password, wrong);
    login := Login(store, LoginBody(body.email, body.password), nowMs, secret);
    refused := Login(store, LoginBody(body.email, wrong), nowMs, secret);
  }

  /**
   * A new account end to end: signup, a login refused before verification, verification
   * within the window, a login with the password and one with another, a replayed code.
   * Exactly one account is created; both tokens name it.
   */
  method SignupVerifyLogin(store: Store, body: SignupBody, wrong: string, signedUpAt: nat, verifiedAt: nat, secret: Option<string>)
      returns (signup: Reply, early: Reply, verify: Reply, login: Reply, refused: Reply, replay: Reply)
    requires store.Valid() && !store.HasEmail(body.email)
    requires !body.resend && !MissingField(body) && SignupFieldsValid(body, store.isEmail) && wrong != body.password
    requires signedUpAt <= verifiedAt <= signedUpAt + OtpLifetimeMs
    requires Truthy(secret)
    modifies store
    ensures signup == Reply(201, Message(true, "OTP sent successfully"))
    ensures early == Reply(401, Message(false, "Please verify your email first"))
    ensures verify.status == 200 && login.status == 200
    ensures verify.body.Authenticated? && login.body.Authenticated?
    ensures verify.body.user == login.body.user == Summary(old(store.nextId), Trim(body.name), body.email)
    ensures verify.body.token.id == login.body.token.id == old(store.nextId)
    ensures refused == Reply(401, Message(false, "Invalid credentials"))
    ensures replay == Reply(400, Message(false, "Invalid or expired OTP"))
    ensures store.records.Keys == old(store.records.Keys) + {old(store.nextId)}
    ensures store.records[old(store.nextId)].isVerified
  {
    var id, code;
    signup, early, id, code := Enrol(store, body, signedUpAt, secret);
    verify, replay := Activate(store, id, body, code, signedUpAt, verifiedAt, secret);
    login, refused := SignIn(store, id, body, code, signedUpAt, wrong, verifiedAt, secret);
  }

  /** Signing up twice with the same email creates one account and refuses the second. */
  method DuplicateSignup(store: Store, body: SignupBody, first: nat, second: nat)
      returns (created: Reply, again: Reply)
    requires store.Valid() && !store.HasEmail(body.email)
    requires !body.resend && !MissingField(body) && SignupFieldsValid(body, store.isEmail)
    modifies store
    ensures created.status == 201 && again == Reply(400, Message(false, "User already exists"))
    ensures store.records.Keys == old(store.records.Keys) + {old(store.nextId)}
  {
    var id := store.nextId;
    var mail;
    created, mail := Signup(store, body, first, true);
    OwnerIsUnique(store, id, body.email);
    again, mail := Signup(store, body, second, true);
  }

  /** A Google login for a profile already linked returns the linked account and writes nothing. */
  method GoogleLoginAgain(store: Store, profile: GoogleProfile) returns (doc: UserDoc)
    requires store.Valid() && store.HasGoogleId(profile.id)
    modifies store
    ensures store.Valid() && store.records == old(store.records)
    ensures doc.id == old(store.GoogleOwner(profile.id)) && doc.Value() == store.records[doc.id]
  {
    var found := GoogleVerify(store, profile);
    doc := found;
  }

  /**
   * Two Google logins with the same profile return the same account and leave the
   * collection as one login does: unchanged for a linked profile, the email's account
   * linked, or exactly one new account.
   */
  method GoogleLoginTwice(store: Store, profile: GoogleProfile) returns (first: UserDoc?, second: UserDoc?)
    requires store.Valid()
    modifies store
    ensures first != null ==> second != null && second.id == first.id
    ensures old(store.HasGoogleId(profile.id)) ==> store.records == old(store.records)
    ensures !old(store.HasGoogleId(profile.id)) && |profile.emails| > 0 && old(store.HasEmail(profile.emails[0])) &&
            first != null ==>
              first.id in old(store.records) &&
              store.records == old(store.records)[first.id := old(store.records)[first.id].(googleId := Some(profile.id))]
    ensures !old(store.HasGoogleId(profile.id)) && |profile.emails| > 0 && !old(store.HasEmail(profile.emails[0])) &&
            first != null ==>
              first.id == old(store.nextId) && store.records == old(store.records)[first.id := GoogleRecord(profile)]
  {
    first := GoogleVerify(store, profile);
    if first != null {
      GoogleOwnerIsUnique(store, first.id, profile.id);
      second := GoogleLoginAgain(store, profile);
    } else {
      second := GoogleVerify(store, profile);
    }
  }

  /**
   * The browser lands from the Google redirect, the provider loads and scrubs the URL; a
   * reload of that page restores the same user from storage.
   */
  method HandoffThenReload(c: Codec, storage: map<string, string>, url: Url) returns (landed: Session, reloaded: Session)
    requires WellBehaved(c)
    requires !RestoreOf(c, storage).Corrupt? && HandoffOf(c, url).Some?
    ensures landed.user == HandoffOf(c, url).value.user && landed.url == Scrubbed(url)
    ensures reloaded.user == landed.user && !reloaded.loading
  {
    landed := new Session(c, storage, url);
    landed.Load();
    reloaded := new Session(c, landed.storage, landed.url);
    HandoffSurvivesReload(c, State(storage, Falsy, true, url));
    reloaded.Load();
  }
}
