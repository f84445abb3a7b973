/**
 * The OTP entry page: a six-slot input buffer, the authorize and resend handlers, and the
 * redirect taken when no signup email is held in `sessionStorage`.
 */
module OtpVerify {
  import opened Prelude
  import opened JsText
  import opened Wire
  import opened AuthContext

  const Slots: nat := 6
  const EmailKey: string := "verifyEmail"

  /** `new Array(6).fill("")` */
  function EmptyCode(): (b: seq<string>)
    ensures |b| == Slots && forall i :: 0 <= i < |b| ==> b[i] == ""
  {
    ["", "", "", "", "", ""]
  }

  /**
   * Six slots of at most one character each, none beyond the Basic Multilingual Plane (only
   * values `isNaN` lets through are ever stored, and those are white space and ASCII).
   */
  predicate WellFormed(b: seq<string>)
  {
    |b| == Slots && forall i :: 0 <= i < |b| ==> |b[i]| <= 1 && Bmp(b[i])
  }

  /** `s.substring(start)` for a single argument: a negative start counts as 0. */
  function Substring(s: string, start: int): string
  {
    if start <= 0 then s else if start >= |s| then "" else s[start..]
  }

  /** `value.substring(value.length - 1)`: the last character, or "" for "". */
  function LastChar(value: string): (r: string)
    ensures |value| == 0 ==> r == ""
    ensures |value| > 0 ==> r == [value[|value| - 1]]
  {
    Substring(value, |value| - 1)
  }

  /** The buffer after `handleChange` with `value` in slot `index`. */
  function Entered(b: seq<string>, index: nat, value: string): (r: seq<string>)
    requires index < |b|
    ensures IsNaN(value) ==> r == b
    ensures !IsNaN(value) ==>
      |r| == |b| && r[index] == LastChar(value) &&
      forall j :: 0 <= j < |b| && j != index ==> r[j] == b[j]
    ensures WellFormed(b) ==> WellFormed(r)
  {
    if IsNaN(value) then b
    else
      NumberIsBmp(value);
      b[index := LastChar(value)]
  }

  /** `otp.join("")`: when every slot holds one character, the code spells them in order. */
  function Join(b: seq<string>): (s: string)
    ensures (forall i :: 0 <= i < |b| ==> |b[i]| == 1) ==>
              |s| == |b| && forall i :: 0 <= i < |b| ==> s[i] == b[i][0]
  {
    if |b| == 0 then ""
    else
      assert forall i :: 1 <= i < |b| ==> b[1..][i - 1] == b[i];
      b[0] + Join(b[1..])
  }

  /** With slots of at most one character, the code is as long as the buffer iff no slot is empty. */
  lemma {:induction false} JoinLength(b: seq<string>)
    requires forall i :: 0 <= i < |b| ==> |b[i]| <= 1
    ensures |Join(b)| <= |b|
    ensures |Join(b)| == |b| <==> forall i :: 0 <= i < |b| ==> b[i] != ""
  {
    if |b| > 0 {
      JoinLength(b[1..]);
      assert forall i :: 1 <= i < |b| ==> b[i] == b[1..][i - 1];
    }
  }

  /** Joining slots of single code units gives a string of single code units. */
  lemma {:induction false} JoinBmp(b: seq<string>)
    requires forall i :: 0 <= i < |b| ==> Bmp(b[i])
    ensures Bmp(Join(b))
  {
    if |b| > 0 {
      assert forall i :: 1 <= i < |b| ==> b[1..][i - 1] == b[i];
      JoinBmp(b[1..]);
      assert forall i :: |b[0]| <= i < |Join(b)| ==> Join(b)[i] == Join(b[1..])[i - |b[0]|];
    }
  }

  /**
   * The six-unit check `handleAuthorize` makes (`otpCode.length < 6`, in UTF-16 code units)
   * passes exactly when every slot is filled.
   */
  lemma CompleteIffFilled(b: seq<string>)
    requires WellFormed(b)
    ensures Utf16Length(Join(b)) == |Join(b)|
    ensures Utf16Length(Join(b)) >= Slots <==> forall i :: 0 <= i < |b| ==> b[i] != ""
  {
    JoinLength(b);
    JoinBmp(b);
    BmpLength(Join(b));
  }

  /** The mount effect: without a truthy stored email the page goes back to signup. */
  function MountRedirect(email: Option<string>): (to: Option<string>)
    ensures to.Some? <==> !Truthy(email)
    ensures to.Some? ==> to.value == "/signup"
  {
    if !Truthy(email) then Some("/signup") else None
  }

  /**
   * The `email` field of the body: a `null` email is sent as JSON `null`, which the server's
   * `!email` test refuses exactly as it refuses an empty string, so it is written as "".
   */
  function Sent(email: Option<string>): (r: string)
    ensures email.Some? ==> r == email.value
    ensures Truthy(Some(r)) <==> Truthy(email)
  {
    if email.Some? then email.value else ""
  }

  /** The page's state: its React state, `sessionStorage`, and where it navigated. */
  class OtpForm {
    var otp: seq<string>
    var loading: bool
    var error: string
    var sessionStorage: map<string, string>
    var navigatedTo: Option<string>

    ghost predicate Valid()
      reads this
    {
      WellFormed(otp)
    }

    /** `sessionStorage.getItem("verifyEmail")`, read on every render. */
    function Email(): Option<string>
      reads this
    {
      Lookup(sessionStorage, EmailKey)
    }

    constructor (sessionStorage: map<string, string>)
      ensures Valid() && otp == EmptyCode() && !loading && error == ""
      ensures this.sessionStorage == sessionStorage && navigatedTo == None
    {
      otp := EmptyCode();
      loading := false;
      error := "";
      this.sessionStorage := sessionStorage;
      navigatedTo := None;
    }

    method Mount()
      modifies this`navigatedTo
      ensures navigatedTo == (if MountRedirect(Email()).Some? then MountRedirect(Email()) else old(navigatedTo))
    {
      if !Truthy(Email()) {
        navigatedTo := Some("/signup");
      }
    }

    /** `handleChange`: a value `isNaN` refuses is ignored; otherwise one slot takes its last character. */
    method HandleChange(index: nat, value: string)
      requires Valid() && index < Slots
      modifies this`otp
      ensures Valid() && otp == Entered(old(otp), index, value)
    {
      if IsNaN(value) {
        return;
      }
      NumberIsBmp(value);
      var newOtp := otp;
      newOtp := newOtp[index := Substring(value, |value| - 1)];
      otp := newOtp;
    }

    /**
     * `handleAuthorize`: an incomplete code is refused before any call. Otherwise the code
     * is submitted with the stored email; success clears the stored email and opens the
     * dashboard, failure shows the server's message or a fallback. `sent` is the request.
     */
    method HandleAuthorize(session: Session, outcome: ApiOutcome) returns (sent: Option<VerifyBody>)
      requires Valid()
      modifies this`loading, this`error, this`sessionStorage, this`navigatedTo, session
      ensures Valid() && otp == old(otp)
      ensures Utf16Length(Join(old(otp))) < Slots ==>
        sent.None? && error == "Input sequence incomplete." && loading == old(loading) &&
        sessionStorage == old(sessionStorage) && navigatedTo == old(navigatedTo) &&
        session.Snapshot() == old(session.Snapshot())
      ensures Utf16Length(Join(old(otp))) >= Slots ==>
        sent == Some(VerifyBody(Sent(old(Email())), Join(old(otp)))) && !loading &&
        session.Snapshot() == AfterSubmit(session.codec, old(session.Snapshot()), outcome)
      ensures Utf16Length(Join(old(otp))) >= Slots && Returned(outcome).success ==>
        error == "" && sessionStorage == old(sessionStorage) - {EmailKey} && navigatedTo == Some("/overview")
      ensures Utf16Length(Join(old(otp))) >= Slots && !Returned(outcome).success ==>
        error == (if Returned(outcome).message != "" then Returned(outcome).message else "Invalid Authorization Code") &&
        sessionStorage == old(sessionStorage) && navigatedTo == old(navigatedTo)
    {
      var otpCode := Join(otp);
      if Utf16Length(otpCode) < Slots {
        error := "Input sequence incomplete.";
        return None;
      }
      loading := true;
      error := "";
      sent := Some(VerifyBody(Sent(Email()), otpCode));
      var result := session.VerifyOtp(outcome);
      if result.success {
        sessionStorage := sessionStorage - {EmailKey};
        navigatedTo := Some("/overview");
      } else {
        error := if result.message != "" then result.message else "Invalid Authorization Code";
      }
      loading := false;
    }

    /** `handleResend`: asks for a new code for the stored email; a refusal shows its message. */
    method HandleResend(session: Session, outcome: ApiOutcome) returns (sent: SignupBody)
      modifies this`error
      ensures sent == SignupBody("", Sent(Email()), "", true)
      ensures error == (if Returned(outcome).success then "" else Returned(outcome).message)
    {
      error := "";
      sent := SignupBody("", Sent(Email()), "", true);
      var result := session.Signup(outcome);
      if !result.success {
        error := result.message;
      }
    }
  }
}
