/**
 * JSON request bodies of the auth API (`POST /signup`, `/verify-otp`, `/login`).
 * A field the client leaves out, or sends as `null`, is the empty string here: the
 * server only ever tests such fields for truthiness or looks them up as keys.
 */
module Wire {

  /** `{name, email, password}` for a signup, or `{email, resend: true}` for a resend. */
  datatype SignupBody = SignupBody(name: string, email: string, password: string, resend: bool)

  /** `{email, otp}` */
  datatype VerifyBody = VerifyBody(email: string, otp: string)

  /** `{email, password}` */
  datatype LoginBody = LoginBody(email: string, password: string)
}
