// The administrators' sign-in page (admin-web Login): a phone number with
// digits only, a four-slot one-time-code buffer edited digit by digit, and
// the role check that decides whether the session token is kept.
//
// The two server replies are parameters of the methods that receive them.

module AdminLogin {
  import opened Basics
  import opened Text

  /** `/^[0-9]?$/`: the empty string or one decimal digit. */
  predicate OtpSlot(value: string) {
    value == "" || (|value| == 1 && IsDigit(value[0]))
  }

  /** Four slots, each empty or one digit. */
  predicate ValidOtp(otp: seq<string>) {
    |otp| == 4 && forall i :: 0 <= i < 4 ==> OtpSlot(otp[i])
  }

  /** The code is complete, so Verify is offered, exactly when every slot holds a digit. */
  lemma OtpCompleteIffFilled(otp: seq<string>)
    requires ValidOtp(otp)
    ensures |Join(otp, "")| == 4 <==> forall i :: 0 <= i < 4 ==> otp[i] != ""
    ensures |Join(otp, "")| <= 4
  {
    JoinSinglesLength(otp);
  }

  /** `.replace(/[^0-9]/g, "")` */
  function DigitsOnly(text: string): (r: string)
    ensures AllChars(r, IsDigit)
    ensures forall i :: 0 <= i < |text| && IsDigit(text[i]) ==> text[i] in r
    ensures IsSubseq(r, text)
    ensures forall c :: multiset(r)[c] == if IsDigit(c) then multiset(text)[c] else 0
  {
    FilterIsSubseq(text, IsDigit);
    FilterMultiset(text, IsDigit);
    Filter(text, IsDigit)
  }

  /** A phone of digits is kept as typed. */
  lemma {:induction false} DigitsOnlyKeepsDigits(text: string)
    requires AllChars(text, IsDigit)
    ensures DigitsOnly(text) == text
  {
    FilterAll(text, IsDigit);
  }

  datatype Step = PhoneStep | OtpStep

  /** The reply to the code request: a status, or a failure with the server's code, message and redirect. */
  datatype SendReply = Sent(status: int) | SendFailed(code: string, message: string, redirectUrl: string)

  /** The reply to the verification: the fields of the body, or a failure with its messages. */
  datatype VerifyReply =
    | Verified(success: bool, token: string, role: string, message: string)
    | VerifyFailed(responseMessage: string, errorMessage: string)

  /** What the verification ends in: the token kept and the approval page opened, or an error. */
  datatype VerifyOutcome = SignedIn(token: string) | VerifyError(message: string)

  function VerifyOutcomeOf(reply: VerifyReply): (r: VerifyOutcome)
    ensures r.SignedIn? <==> reply.Verified? && reply.success && reply.role == "admin"
    ensures r.SignedIn? ==> r.token == reply.token
    ensures reply.Verified? && reply.success && reply.role != "admin" ==> r == VerifyError("Admin only can access")
    ensures r.VerifyError? ==> r.message != ""
  {
    match reply
    case Verified(success, token, role, message) =>
      if !success then VerifyError(OrElse(message, "Verification failed"))
      else if role != "admin" then VerifyError("Admin only can access")
      else SignedIn(token)
    case VerifyFailed(responseMessage, errorMessage) =>
      VerifyError(OrElse(responseMessage, OrElse(errorMessage, "Failed to verify OTP")))
  }

  /** A signed-in role other than "admin" never keeps a token, whatever else the reply says. */
  lemma OnlyAdminsSignIn(reply: VerifyReply)
    ensures VerifyOutcomeOf(reply).SignedIn? ==> reply.Verified? && reply.role == "admin"
    ensures reply.Verified? && !reply.success ==>
      VerifyOutcomeOf(reply) == VerifyError(if reply.message != "" then reply.message else "Verification failed")
  {
  }

  /** The error and redirect shown after a failed code request. */
  function SendErrorOf(code: string, message: string, redirectUrl: string): (r: (string, Option<string>))
    ensures r.1.Some? <==> code == "NOT_FOUND" && redirectUrl != ""
    ensures r.1.Some? ==> r.1.value == redirectUrl && r.0 == OrElse(message, "Admin account not found")
    ensures r.1.None? ==> r.0 == OrElse(message, "Failed to send OTP")
  {
    if code == "NOT_FOUND" && redirectUrl != "" then (OrElse(message, "Admin account not found"), Some(redirectUrl))
    else (OrElse(message, "Failed to send OTP"), None)
  }

  class LoginPage {
    var dialCode: string
    var phone: string
    var step: Step
    var otp: seq<string>
    var loading: bool
    var error: Option<string>
    var redirectUrl: Option<string>
    /** The stored admin token (`setAdminToken`). */
    var adminToken: Option<string>
    /** Where the window was sent, once signed in. */
    var location: Option<string>

    predicate Valid()
      reads this
    {
      ValidOtp(otp) && AllChars(phone, IsDigit)
    }

    constructor (defaultDialCode: string)
      ensures Valid()
      ensures dialCode == defaultDialCode && phone == "" && step == PhoneStep && otp == ["", "", "", ""]
      ensures !loading && error == None && redirectUrl == None && adminToken == None && location == None
    {
      dialCode, phone, step, otp := defaultDialCode, "", PhoneStep, ["", "", "", ""];
      loading, error, redirectUrl, adminToken, location := false, None, None, None, None;
    }

    method SelectCountry(code: string)
      modifies this`dialCode
      ensures dialCode == code
    {
      dialCode := code;
    }

    /** Typing in the phone field keeps the digits only. */
    method TypePhone(text: string)
      requires Valid()
      modifies this`phone
      ensures Valid() && phone == DigitsOnly(text)
    {
      phone := DigitsOnly(text);
    }

    /** Send is disabled while loading or for fewer than five digits. */
    function CanSendOtp(): (r: bool)
      reads this
      ensures r <==> !loading && |phone| >= 5
    {
      !(loading || |phone| < 5)
    }

    function CanVerify(): (r: bool)
      reads this
      ensures r <==> !loading && |Join(otp, "")| == 4
    {
      !(loading || |Join(otp, "")| != 4)
    }

    /** `handleOtpChange`: an accepted value replaces slot `idx` only. */
    method ChangeOtp(value: string, idx: nat)
      requires Valid() && idx < 4
      modifies this`otp
      ensures Valid()
      ensures OtpSlot(value) ==> otp == old(otp)[idx := value]
      ensures !OtpSlot(value) ==> otp == old(otp)
    {
      if OtpSlot(value) {
        var newOtp := otp;
        newOtp := newOtp[idx := value];
        otp := newOtp;
      }
    }

    /** Backspace in slot `idx`: clear it when filled, else clear the slot before it. */
    method OtpBackspace(idx: nat)
      requires Valid() && idx < 4
      modifies this`otp
      ensures Valid()
      ensures old(otp)[idx] != "" ==> otp == old(otp)[idx := ""]
      ensures old(otp)[idx] == "" && idx > 0 ==> otp == old(otp)[idx - 1 := ""]
      ensures old(otp)[idx] == "" && idx == 0 ==> otp == old(otp)
    {
      var current := otp[idx];
      var nextOtp := otp;
      if current != "" {
        nextOtp := nextOtp[idx := ""];
        otp := nextOtp;
        return;
      }
      if idx > 0 {
        nextOtp := nextOtp[idx - 1 := ""];
        otp := nextOtp;
      }
    }

    /** `sendOtp`: the request body, then the page as the reply leaves it. */
    method SendOtp(reply: SendReply) returns (requestDialCode: string, requestPhone: string)
      requires Valid()
      modifies this`step, this`loading, this`error, this`redirectUrl
      ensures Valid() && !loading
      ensures requestDialCode == dialCode && requestPhone == Trim(phone)
      ensures reply.Sent? ==>
        error == None && redirectUrl == None && step == (if reply.status == 200 then OtpStep else old(step))
      ensures reply.SendFailed? ==>
        step == old(step) && error.Some?
        && (error.value, redirectUrl) == SendErrorOf(reply.code, reply.message, reply.redirectUrl)
    {
      loading, error, redirectUrl := true, None, None;
      requestDialCode, requestPhone := dialCode, Trim(phone);
      match reply {
        case Sent(status) =>
          if status == 200 {
            step := OtpStep;
          }
        case SendFailed(code, message, url) =>
          var (msg, redirect) := SendErrorOf(code, message, url);
          redirectUrl := redirect;
          error := Some(msg);
      }
      loading := false;
    }

    /** `verifyOtp`: the code sent is the joined slots; only an admin reply keeps the token. */
    method VerifyOtp(reply: VerifyReply) returns (requestOtp: string)
      requires Valid()
      modifies this`loading, this`error, this`adminToken, this`location
      ensures Valid() && !loading && requestOtp == Join(otp, "")
      ensures VerifyOutcomeOf(reply).SignedIn? ==>
        adminToken == Some(reply.token) && location == Some("/approve") && error == None
      ensures VerifyOutcomeOf(reply).VerifyError? ==>
        adminToken == old(adminToken) && location == old(location) && error == Some(VerifyOutcomeOf(reply).message)
    {
      loading, error := true, None;
      requestOtp := Join(otp, "");
      match VerifyOutcomeOf(reply) {
        case SignedIn(token) =>
          adminToken := Some(token);
          location := Some("/approve");
        case VerifyError(message) =>
          error := Some(message);
      }
      loading := false;
    }
  }
}
