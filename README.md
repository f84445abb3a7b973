# Autho: a verified model of the account and session state machines

Autho is an authentication service made of two halves:

- an Express/Mongoose server offering email/password signup with a six-digit one-time
  passcode (OTP) sent by email, password login, and Google sign-in;
- a React single-page client that keeps the resulting session in `localStorage` and guards
  its routes with it.

This project models both halves in Dafny and proves the properties the code promises:

- **Account state machine (server).** The `users` collection is a `Store` class holding a
  map from id to record, with the schema's validators, the two unique indexes and the
  password-hashing pre-save hook. The handlers `signup`, `verifyOtp` and `login`, the
  Google profile reconciler and the Google success redirect are methods over that store.
- **Session state machine (client).** The `AuthProvider` is a `Session` class over
  `localStorage`, the in-memory user, the loading flag and the address bar.
- **Smaller client and server pieces.**
  - Client: the route guards and route table, the OTP entry page, the dashboard's logout
    and greeting, and the bearer-token request interceptor.
  - Server: the CORS origin test and the session-cookie options.

Modules, one file each:

- `Prelude`: `Option` and JavaScript string truthiness.
- `JsText`: the JavaScript built-ins the code relies on:
  - `String.prototype.trim` and its white-space set;
  - `Number.prototype.toString` for naturals below 10^21;
  - `length`, counted in UTF-16 code units;
  - `isNaN` on strings, following the StringNumericLiteral grammar of section 7.1.4.1.1
    of ECMA-262.
- `Wire`: the JSON request bodies.
- `UserModel`: the schema, the hash, documents and the collection.
- `AuthController`: the server handlers.
- `AuthContext`: the session bridge.
- `AppRoutes`: the guards and the route table.
- `OtpVerify`: the OTP entry page.
- `OverviewPage`: the dashboard's logout and greeting.
- `AuthApi`: the interceptor and the endpoints.
- `ServerConfig`: CORS and the session cookie.
- `Flows`: end-to-end runs.

Modelling choices:

- Time is a `nat` parameter in milliseconds, standing for `Date.now()`.
- `Math.random()` is a nondeterministic choice.
- Email dispatch is a boolean parameter saying whether the transport succeeded.
- `JWT_SECRET` is an optional string parameter.
- bcrypt is an injective symbolic digest.
- `validator.isEmail` is an uninterpreted predicate fixed when the store is created.
- On the client, `JSON.parse`, `JSON.stringify` and `decodeURIComponent` are an
  uninterpreted codec that may fail. Properties that need a round trip assume
  `WellBehaved`: a stringified value parses back and is never empty.
- A server error answer reaches the client as a thrown error carrying the server's body,
  as axios delivers it.

Four behaviours of the code that are easy to misread:

- **OTP range.** The code draws from 100000 to 999999 (`authController.js:216`, `:235`),
  so every code has six digits and no leading zero (`JsText.SixDigitCode`).
- **Expiry instant.** Only `otpExpiresAt < now` rejects a code, so a code submitted
  exactly at the expiry instant is accepted (`AuthController.ChallengeWindow`).
- **Unverified login.** Verification is checked before the password, so an unverified
  account gets "Please verify your email first" whatever password is sent
  (`AuthController.Login`).
- **Password length.** `minlength` compares JavaScript's `length`, which counts UTF-16
  code units, so a code point beyond the Basic Multilingual Plane counts two
  (`JsText.Utf16Length`); a password of three emoji is long enough
  (`AuthController.ThreeEmojiPasswordPasses`).

## Model

| member | source | states |
|---|---|---|
| `JsText.TrimIdempotent` | backend/src/models/User.js:11 | the `trim` setter is idempotent: trimming a trimmed name changes nothing |
| `JsText.TrimEmptyIffBlank` | backend/src/models/User.js:10-11 | a name trims to "" exactly when it is all white space, so such a name fails `required` |
| `JsText.Trim` | backend/src/models/User.js:11 | `trim()` returns the infix of the string that starts at its first non-white-space character; everything before and after it is white space, neither end of it is, and it is empty exactly for a blank string |
| `JsText.Utf16Length` | backend/src/models/User.js:22 | JavaScript's `length`: at least the number of code points and at most twice it |
| `JsText.BmpLength` | backend/src/models/User.js:22 | on the Basic Multilingual Plane `length` is the number of characters |
| `JsText.ThreeEmojiAreSixUnits` | backend/src/models/User.js:22 | three emoji have `length` 6 |
| `JsText.NumberIsBmp` | frontend/src/features/auth/OTPVerify.jsx:26-30 | a value `isNaN` lets through has only Basic Multilingual Plane characters: white space around an ASCII numeric literal |
| `JsText.Decimal` | backend/src/controller/authController.js:216 | `toString` of a natural below 10^21 (every code the server draws): non-empty, all digits, no leading zero unless it is "0", one character exactly below 10 |
| `JsText.DecimalRoundTrip` | backend/src/controller/authController.js:216 | the digits of `n.toString()` read back as `n` |
| `JsText.DecimalInjective` | backend/src/controller/authController.js:216 | distinct numbers give distinct codes |
| `JsText.SixDigitCode` | backend/src/controller/authController.js:235 | every number from 100000 to 999999 prints as a six-digit code with no leading zero |
| `JsText.IsNaN` | frontend/src/features/auth/OTPVerify.jsx:26 | `isNaN` refuses only a value with a non-white-space character, and never a string of decimal digits |
| `JsText.DigitsAreDecimal` | frontend/src/features/auth/OTPVerify.jsx:26 | a non-empty digit string is already trimmed and is a decimal literal |
| `JsText.SingleCharacterGate` | frontend/src/features/auth/OTPVerify.jsx:26 | for a one-character value, `isNaN` lets it through exactly when it is a decimal digit or white space |
| `JsText.EmptyIsNumber` | frontend/src/features/auth/OTPVerify.jsx:26-30 | `isNaN("")` is false, so erasing a slot is accepted |
| `UserModel.CompareHash` | backend/src/models/User.js:57 | `compare(c, hash(p))` holds exactly when `c == p` |
| `UserModel.PasswordRequired` | backend/src/models/User.js:23-25 | the password is required exactly when `googleId` is absent or empty |
| `UserModel.SchemaValid` | backend/src/models/User.js:8-31 | a valid document has a non-empty name, an email `isEmail` accepts, and a password whenever it has no googleId |
| `UserModel.ComparePassword` | backend/src/models/User.js:55-58 | `comparePassword(c)` holds exactly when the stored password is the digest of `c` |
| `UserModel.Store.Valid` | backend/src/models/User.js:43-52 | in the collection no password is ever plaintext, and every account without a googleId holds a digest |
| `UserModel.Initial` | backend/src/models/User.js:8-37 | a new document has its name trimmed, `isVerified` false unless given, and every other path as passed |
| `UserModel.AfterHook` | backend/src/models/User.js:43-52 | the hook leaves the document unchanged when the password path is unmodified, and otherwise replaces the plaintext by its hash |
| `UserModel.AfterHookStored` | backend/src/models/User.js:20-26 | a valid document leaves the hook in stored form: valid, and any password a digest |
| `UserModel.ComparePasswordOfHashed` | backend/src/models/User.js:55-58 | for a password stored by the hook, `comparePassword` accepts exactly the original plaintext |
| `UserModel.ComparePasswordWithoutPassword` | backend/src/models/User.js:56 | without a stored password every candidate is refused |
| `UserModel.UserDoc.HashPasswordIfModified` | backend/src/models/User.js:43-52 | the pre-save hook in place: it rehashes only a modified password and touches nothing but the password |
| `UserModel.Store.StoredIsUnique` | backend/src/models/User.js:13-31 | every stored document satisfies both unique indexes against the rest |
| `UserModel.Store.RewriteWritable` | backend/src/models/User.js:44 | writing back a document with name, email, password and googleId untouched is always accepted and never rehashes |
| `UserModel.Store.FindByEmail` | backend/src/controller/authController.js:208 | `findOne({ email })` finds the unique owner of the email, or `null` exactly when there is none |
| `UserModel.Store.FindByGoogleId` | backend/src/controller/authController.js:322 | `findOne({ googleId })` finds the unique owner of the id, or `null` exactly when there is none |
| `UserModel.Store.Save` | backend/src/models/User.js:8-52 | `save()` succeeds exactly when the document passes validation (a plaintext password's length counted in UTF-16 code units), the hook and the unique indexes; then it writes the hooked document, otherwise nothing changes |
| `UserModel.Store.Create` | backend/src/models/User.js:8-52 | `create()` succeeds exactly when the new document is writable (validation counting a plaintext password's length in UTF-16 code units), stores its hooked form under a fresh id and keeps the store valid |
| `AuthController.GenerateToken` | backend/src/controller/authController.js:196-201 | a token exists exactly when the secret is set; it names the id and expires 30 days after issue |
| `AuthController.TokenWindow` | backend/src/controller/authController.js:200 | a token issued at T is accepted at T + 29 days and rejected at T + 31 days |
| `AuthController.Issue` | backend/src/controller/authController.js:271-275 | the success reply is 200 exactly when the secret is set, carries exactly `{_id, name, email}` and the token, and is otherwise the generic 500 |
| `AuthController.OtpAccepted` | backend/src/controller/authController.js:262 | an accepted code is non-empty and equal to the stored one, and a past expiry refuses every code |
| `AuthController.AcceptedIffPendingAndEqual` | backend/src/controller/authController.js:262 | a code is accepted exactly when a challenge is pending and the stored code equals it |
| `AuthController.ExpiryIsPermanent` | backend/src/controller/authController.js:262 | once expired, a challenge stays expired at every later time |
| `AuthController.ChallengeWindow` | backend/src/controller/authController.js:216-218 | a fresh challenge accepts exactly its own code, up to and including the expiry instant |
| `AuthController.ConsumedChallengeRejects` | backend/src/controller/authController.js:266-269 | after verification the challenge is gone and every code, the used one included, is refused |
| `AuthController.DrawOtp` | backend/src/controller/authController.js:235 | the drawn code is the decimal form of some number from 100000 to 999999 |
| `AuthController.MissingField` | backend/src/controller/authController.js:226 | a field is missing exactly when one of name, email and password is falsy |
| `AuthController.SignupFieldsValid` | backend/src/models/User.js:8-26 | for a body with all three fields, it holds exactly when the document `create` would build passes the schema validators |
| `AuthController.ThreeEmojiPasswordPasses` | backend/src/models/User.js:22 | a signup whose password is three emoji passes the validators |
| `AuthController.SignupRecord` | backend/src/controller/authController.js:237-243 | a fresh signup stores the trimmed name, the email, the hashed password, no googleId, unverified, with the code and an expiry 15 minutes on |
| `AuthController.Rechallenge` | backend/src/controller/authController.js:216-219 | resending overwrites only the code and its expiry and creates no account |
| `AuthController.Register` | backend/src/controller/authController.js:234-243 | the create succeeds exactly when name, email and password pass the schema (the password length counted in UTF-16 code units), and adds exactly the signup record |
| `AuthController.Signup` | backend/src/controller/authController.js:204-252 | the branch order: resend first (refused when verified), then missing fields, then a duplicate email, each refusal without change; a failed email answers 500 after the write |
| `AuthController.VerifyOtp` | backend/src/controller/authController.js:255-280 | 404 for an unknown email; success exactly when the code is accepted, saving the account verified with the challenge cleared before signing; every refusal writes nothing |
| `AuthController.Login` | backend/src/controller/authController.js:283-304 | unknown email, then unverified (whatever the password), then wrong password, else a token for that account; nothing is written |
| `AuthController.GoogleRecord` | backend/src/controller/authController.js:330-335 | a Google-created account is verified, linked, without a password, and carries no challenge |
| `AuthController.Link` | backend/src/controller/authController.js:326-328 | linking by email changes only `googleId`, keeping password and verification, and fails only for an empty id on an account without a password |
| `AuthController.Enroll` | backend/src/controller/authController.js:330-335 | the create succeeds exactly when name, email and id pass the schema |
| `AuthController.GoogleVerify` | backend/src/controller/authController.js:320-343 | by googleId unchanged, else no email fails, else link the email's account, else create; any result is stored and linked to the profile id |
| `AuthController.GoogleAuthSuccess` | backend/src/controller/authController.js:368-384 | no user redirects to login with `no_user_found`; otherwise the dashboard with a token and exactly `{_id, name, email}`, or a 500 without a secret |
| `AuthController.GoogleSuccessIgnoresVerification` | backend/src/controller/authController.js:368-373 | the redirect does not depend on whether the account is verified |
| `AuthContext.AfterAuthSuccess` | frontend/src/context/AuthContext.jsx:65-69 | both keys are written, the user set to the same value, and nothing else changes |
| `AuthContext.AfterLogout` | frontend/src/context/AuthContext.jsx:114-118 | both keys are removed, the user reset, and nothing else changes |
| `AuthContext.LogoutIdempotent` | frontend/src/context/AuthContext.jsx:114-118 | logging out twice is logging out once |
| `AuthContext.RestoreOf` | frontend/src/context/AuthContext.jsx:13-20 | a stored user and token are restored exactly when both are truthy, as the parse of the stored user; a parse failure is flagged |
| `AuthContext.HandoffOf` | frontend/src/context/AuthContext.jsx:23-31 | a handoff fires exactly when the token and user parameters are truthy and the user parameter decodes and parses to a user; it then carries that token and that parsed user |
| `AuthContext.Scrubbed` | frontend/src/context/AuthContext.jsx:33-37 | the path is kept, the query dropped, and no handoff can fire from the result |
| `AuthContext.AfterLoad` | frontend/src/context/AuthContext.jsx:11-50 | loading ends and the keys are paired in every branch; a corrupt stored user clears both keys and skips the handoff; a handoff overrides the session, scrubs the query and leaves every other stored key as it was; otherwise the session is restored or discarded |
| `AuthContext.AuthSuccessRestores` | frontend/src/context/AuthContext.jsx:13-16 | what `loginWithToken` or `handleAuthSuccess` stores is exactly what the next load restores |
| `AuthContext.LogoutLeavesNothing` | frontend/src/context/AuthContext.jsx:15-20 | after logout the next load finds nothing to restore |
| `AuthContext.HandoffSurvivesReload` | frontend/src/context/AuthContext.jsx:23-37 | after a Google handoff, reloading the scrubbed page restores the handed-off user |
| `AuthContext.Returned` | frontend/src/context/AuthContext.jsx:52-63 | a call resolves with the server's answer, or with `success: false` and the server's message or else the error's own |
| `AuthContext.AfterSubmit` | frontend/src/context/AuthContext.jsx:71-101 | the session changes only when the call resolves successfully, and then exactly as `handleAuthSuccess` with the returned user and token |
| `AuthContext.FailedSubmitKeepsSession` | frontend/src/context/AuthContext.jsx:71-101 | an unsuccessful `verifyOtp` or `login` leaves the session unchanged |
| `AuthContext.SuccessfulSubmitSignsIn` | frontend/src/context/AuthContext.jsx:74-76 | a successful call signs in as the returned user, and the next load restores that user |
| `AuthContext.Session.constructor` | frontend/src/context/AuthContext.jsx:7-8 | the provider starts with no user and loading |
| `AuthContext.Session.Load` | frontend/src/context/AuthContext.jsx:11-50 | the mount effect moves the state exactly as `AfterLoad` says |
| `AuthContext.Session.LoginWithToken` | frontend/src/context/AuthContext.jsx:103-107 | the state moves as `AfterAuthSuccess` |
| `AuthContext.Session.HandleAuthSuccess` | frontend/src/context/AuthContext.jsx:65-69 | the state moves as `AfterAuthSuccess` with the answer's user and token |
| `AuthContext.Session.Signup` | frontend/src/context/AuthContext.jsx:52-63 | never touches the session; a thrown call resolves unsuccessfully |
| `AuthContext.Session.VerifyOtp` | frontend/src/context/AuthContext.jsx:71-85 | resolves as `Returned`, and touches the session only on a successful answer |
| `AuthContext.Session.Login` | frontend/src/context/AuthContext.jsx:87-101 | resolves as `Returned`, and touches the session only on a successful answer |
| `AuthContext.Session.Logout` | frontend/src/context/AuthContext.jsx:114-118 | the state moves as `AfterLogout` |
| `AppRoutes.ProtectedRoute` | frontend/src/App.jsx:14-19 | loading shows the placeholder, whatever the user; no user redirects (replace) to /login; otherwise the children render |
| `AppRoutes.PublicRoute` | frontend/src/App.jsx:22-27 | loading shows the placeholder, whatever the user; a user redirects (replace) to /overview; otherwise the children render |
| `AppRoutes.GuardsExclusive` | frontend/src/App.jsx:14-27 | for any session, at most one of the two guards renders its children |
| `AppRoutes.Route` | frontend/src/App.jsx:35-67 | /verify-otp always shows the OTP page; every redirect replaces and goes to /signup, /login or /overview; the dashboard shows only to a signed-in user on /overview; signup and login show only to a signed-out one; the placeholder only while loading |
| `AppRoutes.Landing` | frontend/src/App.jsx:35-67 | every path settles on a non-redirect view after at most two redirects |
| `AppRoutes.TwoRedirectsSuffice` | frontend/src/App.jsx:35-67 | two redirects always suffice, and "/" for a signed-in user needs both |
| `AppRoutes.LandingOf` | frontend/src/App.jsx:35-67 | the route table: /verify-otp is unguarded; while loading everything else waits; a user lands on the dashboard; otherwise "/" and /signup show signup and all else shows login |
| `OtpVerify.EmptyCode` | frontend/src/features/auth/OTPVerify.jsx:7 | the buffer starts as six empty slots |
| `OtpVerify.LastChar` | frontend/src/features/auth/OTPVerify.jsx:30 | `substring(length - 1)` is the last character, or "" for "" |
| `OtpVerify.Entered` | frontend/src/features/auth/OTPVerify.jsx:22-31 | a value `isNaN` refuses leaves the buffer unchanged; otherwise only the chosen slot changes, to the value's last character, and the six-slot shape is kept |
| `OtpVerify.Join` | frontend/src/features/auth/OTPVerify.jsx:47 | when every slot holds one character, the joined code spells the slots in order |
| `OtpVerify.JoinLength` | frontend/src/features/auth/OTPVerify.jsx:47 | with slots of at most one character the joined code is as long as the buffer exactly when no slot is empty |
| `OtpVerify.CompleteIffFilled` | frontend/src/features/auth/OTPVerify.jsx:47-48 | on a buffer of six slots holding at most one BMP character each, the code's UTF-16 `length` is its character count, and the completeness check passes exactly when all six slots are filled |
| `OtpVerify.JoinBmp` | frontend/src/features/auth/OTPVerify.jsx:47 | joining slots that are all on the Basic Multilingual Plane gives a code on it |
| `OtpVerify.MountRedirect` | frontend/src/features/auth/OTPVerify.jsx:14-20 | without a stored email the page navigates to /signup, and otherwise stays |
| `OtpVerify.Sent` | frontend/src/features/auth/OTPVerify.jsx:57 | the email sent is the stored one, and it is falsy exactly when the stored email is |
| `OtpVerify.OtpForm.constructor` | frontend/src/features/auth/OTPVerify.jsx:7-9 | six empty slots, not loading, no error |
| `OtpVerify.OtpForm.Mount` | frontend/src/features/auth/OTPVerify.jsx:16-20 | navigates to /signup exactly when no email is stored |
| `OtpVerify.OtpForm.HandleChange` | frontend/src/features/auth/OTPVerify.jsx:22-31 | the buffer moves as `Entered` and stays six slots of at most one character |
| `OtpVerify.OtpForm.HandleAuthorize` | frontend/src/features/auth/OTPVerify.jsx:46-69 | a code whose UTF-16 `length` is under six sets the error and makes no call; otherwise it sends `{email, otp}`, and success clears the stored email and opens /overview while failure shows the message or the fallback |
| `OtpVerify.OtpForm.HandleResend` | frontend/src/features/auth/OTPVerify.jsx:71-83 | sends exactly `{email, resend: true}`; a refusal shows its message |
| `OverviewPage.DisplayName` | frontend/src/features/overviewPage.jsx:17-18 | "Architect" when no user is stored or the stored value is falsy; a value that does not parse crashes the render; a stored object is greeted by its `name` field, and by `undefined` when it has none |
| `OverviewPage.GreetsSignedInUser` | frontend/src/features/overviewPage.jsx:17-18 | after a sign-in the greeting is the signed-in user's name |
| `OverviewPage.GreetsFallbackAfterLogout` | frontend/src/features/overviewPage.jsx:17-18 | after a logout the greeting is "Architect" |
| `OverviewPage.PageLogout` | frontend/src/features/overviewPage.jsx:20-22 | both keys are removed and the context user is kept |
| `OverviewPage.HandleLogout` | frontend/src/features/overviewPage.jsx:20-24 | the state moves as `PageLogout`, then the page navigates to /login |
| `OverviewPage.PageLogoutBouncesBack` | frontend/src/features/overviewPage.jsx:20-24 | after the page's logout the login route redirects a signed-in user back to the dashboard |
| `OverviewPage.HandleLogoutViaContext` | frontend/src/context/AuthContext.jsx:114-118 | logging out through the context, then navigating to /login |
| `OverviewPage.ContextLogoutReachesLogin` | frontend/src/context/AuthContext.jsx:114-118 | after the context's logout /login renders the login page, and a reload has nothing to restore |
| `AuthApi.WithBearer` | frontend/src/api/auth.js:7-8 | a truthy stored token sets `Authorization: Bearer <token>`; otherwise the headers are unchanged; other headers are never touched |
| `AuthApi.WithBearerIdempotent` | frontend/src/api/auth.js:6-11 | running the interceptor twice is running it once |
| `AuthApi.BearerCarriesToken` | frontend/src/api/auth.js:8 | the header is the scheme "Bearer " followed by the token verbatim |
| `AuthApi.Intercept` | frontend/src/api/auth.js:6-11 | the same request comes back with only its headers changed as `WithBearer` says |
| `AuthApi.Signup` | frontend/src/api/auth.js:13 | posts the form unchanged to the base URL's /signup |
| `AuthApi.VerifyOtp` | frontend/src/api/auth.js:14 | posts the data unchanged to the base URL's /verify-otp |
| `AuthApi.Login` | frontend/src/api/auth.js:15 | posts the form unchanged to the base URL's /login |
| `AuthApi.EndpointsAreDistinct` | frontend/src/api/auth.js:13-15 | the three wrappers post their arguments unchanged under the base URL, each to its own path |
| `ServerConfig.CorsOrigin` | backend/src/server.js:120-133 | allowed exactly when the origin is missing or empty or is one of the two listed; otherwise denied with the CORS error |
| `ServerConfig.OriginsMatchExactly` | backend/src/server.js:128 | a present origin passes only by equality with one of the two listed |
| `ServerConfig.SessionConfig` | backend/src/server.js:152-163 | secure exactly in production; sameSite "none" there and "lax" otherwise; one day; the secret falls back to "render_secret_key"; no resave or uninitialised save |
| `ServerConfig.CrossSiteCookieIsSecure` | backend/src/server.js:158-159 | a cookie sent cross-site is always a secure one |
| `Flows.OwnerIsUnique` | backend/src/models/User.js:16 | in a valid store the owner of an email is the one record that carries it |
| `Flows.GoogleOwnerIsUnique` | backend/src/models/User.js:27-31 | in a valid store the owner of a googleId is the one record that carries it |
| `Flows.Enrol` | backend/src/controller/authController.js:226-247 | a fresh signup answers 201 and adds one record; a login before verification is refused |
| `Flows.Activate` | backend/src/controller/authController.js:259-274 | the code verifies within its window; the same code replayed is refused |
| `Flows.SignIn` | backend/src/controller/authController.js:287-299 | a verified account admits its own password and refuses any other |
| `Flows.SignupVerifyLogin` | backend/src/controller/authController.js:204-304 | signup, verify and login end to end create exactly one verified account; both replies summarise it and both tokens carry its id |
| `Flows.DuplicateSignup` | backend/src/controller/authController.js:230-231 | a second signup with the same email is refused, and one account exists |
| `Flows.GoogleLoginTwice` | backend/src/controller/authController.js:322-337 | two Google logins with the same profile return the same account; the collection afterwards is the old one when the id was known, the old one with the email's account linked, or the old one plus the new Google account |
| `Flows.GoogleLoginAgain` | backend/src/controller/authController.js:322-324 | a Google login whose id is already stored returns that id's owner and writes nothing |
| `Flows.HandoffThenReload` | frontend/src/context/AuthContext.jsx:11-50 | landing from the Google redirect signs in and scrubs the URL, and a reload keeps the same user |

## Left out

- Email case: the `lowercase` setter on `email` is not modelled. Emails are opaque keys, and whether query filters are lower-cased is driver behaviour.
- `validator.isEmail` is an uninterpreted predicate; its grammar is not modelled.
- The `timestamps` paths (`createdAt`, `updatedAt`) are not modelled.
- Real hashing is not modelled: bcrypt's salt, cost factor and hashing failures are out, and the hash is a symbolic injective digest.
- UserModel.UserDoc.HashPasswordIfModified: a modified password that is not plaintext is reported as a hook failure. No handler can produce that case.
- JWT signing is not modelled. A token is the opaque value (id, issued-at, expiry in seconds).
- Token verification, including the middleware that would check a bearer token, is not part of this code. `AcceptedAt` gives only jsonwebtoken's expiry rule.
- Database failures, asynchrony and concurrency are out. Among them is the race between `findOne` and `create`, which the unique index settles; the model is sequential.
- Request fields the client leaves out or sends as `null` are the empty string.
  - A signup, OTP verification or login with an absent email queries `findOne({ email: undefined })`, which the driver treats as an empty filter matching any document. That case is not modelled: the model looks up the empty email.
  - JSON values that are not strings are not modelled, such as a numeric `otp`.
- AuthController.Login: a login body without a `password` field makes bcryptjs throw, answering 500. The model reads the field as "" and answers 401 "Invalid credentials".
- These are passport and library plumbing and are not modelled:
  - `configurePassport`'s missing-credentials warning;
  - `googleAuth`;
  - `googleAuthCallback` and its `failureRedirect`;
  - session serialisation.
- The email transport is not modelled. It is only a success flag, consulted after the write.
- `googleLogin` in the AuthContext.jsx provider is not modelled: it is a full-page navigation to the backend.
- JSON values on the client are either falsy or an object of string fields. Truthy scalars, arrays and nested objects are not modelled. `JSON.stringify(undefined)` storing the string "undefined" is covered only through the uninterpreted codec.
- The query string is a map of decoded parameters. Repeated parameters, `+` decoding and the URL hash are not modelled (`replaceState` also drops the hash).
- The route table matches paths exactly. react-router also matches case-insensitively and with a trailing slash; that is not modelled.
- React's render and effect scheduling are not modelled. State updates take effect in program order.
- These parts of the OTP page are not modelled:
  - focus movement and `handleKeyDown`;
  - the `alert`;
  - the "Reset Profile" button;
  - the `catch` branches of `handleAuthorize` and `handleResend`. The context's calls never reject, so the first is reached only when `sessionStorage.removeItem` or `navigate` throws, and the second only when a 2xx answer has a `null` body, so that `result.success` throws.
- `Signup.jsx` and `Login.jsx` are not part of this model. The `verifyEmail` that Signup.jsx stores is an input of `OtpForm`. The handoff that Login.jsx repeats is not modelled.
- These copies are not part of this model:
  - backend/src/context/AuthContext.jsx, a stale second copy of the session bridge;
  - the unrouted `pages/Overview.jsx`;
  - the commented-out earlier versions inside authController.js, server.js and sendEmail.js.
- server.js is modelled only in its CORS origin test and its session options. The rest is Express wiring: the CORS method and header lists, body parsers, routes and error middleware.

## Findings

| source | as written | input that shows it | evidently intended | confidence | as-written member | corrected member |
|---|---|---|---|---|---|---|
| frontend/src/features/overviewPage.jsx:20-24 | `handleLogout` removes the two `localStorage` keys and navigates to /login, but leaves the context user set | a signed-in session (context user an object, loading false) pressing "Terminate Session" on the dashboard | the user is signed out and sees the login page, as the context's `logout` does | high, not executed | `OverviewPage.PageLogoutBouncesBack` | `OverviewPage.ContextLogoutReachesLogin` |

The as-written handler is `OverviewPage.HandleLogout`. The login route's `PublicRoute` still sees a user, so it redirects back to /overview. There the page finds no stored user and greets "Architect" (`OverviewPage.GreetsFallbackAfterLogout`). The corrected handler is `OverviewPage.HandleLogoutViaContext`: it calls `AuthContext.Session.Logout` before navigating.
