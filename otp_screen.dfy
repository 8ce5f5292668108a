// The mobile one-time-code screen (OtpScreen): the masked phone shown to the
// user, the four-slot code buffer, the completeness guard before the
// verification request, and the screen opened after a successful reply.
//
// The verification reply is a parameter; the token and user record written
// to storage are fields.

module OtpScreen {
  import opened Basics
  import opened Text

  /** `getMaskedPhoneNumber`: the first two and last two characters, stars between. */
  function MaskedPhone(phone: string): (r: string)
    ensures |r| == |phone|
  {
    if |phone| <= 4 then phone
    else phone[..2] + Repeat("*", |phone| - 4) + phone[|phone| - 2..]
  }

  /** Short numbers are shown whole; longer ones keep two characters at each end and hide the rest. */
  lemma MaskedPhoneShape(phone: string)
    ensures |phone| <= 4 ==> MaskedPhone(phone) == phone
    ensures |phone| > 4 ==>
      var r := MaskedPhone(phone);
      r[..2] == phone[..2] && r[|r| - 2..] == phone[|phone| - 2..]
      && forall i :: 2 <= i < |r| - 2 ==> r[i] == '*'
  {
    if |phone| > 4 {
      var r := MaskedPhone(phone);
      var stars := Repeat("*", |phone| - 4);
      assert r == phone[..2] + stars + phone[|phone| - 2..];
      forall i | 2 <= i < |r| - 2 ensures r[i] == '*' {
        RepeatAt('*', |phone| - 4, i - 2);
        assert r[i] == stars[i - 2];
      }
      assert r[|r| - 2..] == phone[|phone| - 2..];
    }
  }

  /** Four slots of at most one character each. */
  predicate ValidOtp(otp: seq<string>) {
    |otp| == 4 && forall i :: 0 <= i < 4 ==> |otp[i]| <= 1
  }

  /** The verification reply: the body's fields, or a failure with the server's message. */
  datatype VerifyReply =
    | Replied(success: bool, token: string, user: string, role: string, isProfileComplete: bool, message: string)
    | RequestFailed(message: string)

  /** After a reply: the route replaced to, or the alert shown. */
  datatype Outcome = Route(path: string) | Alert(message: string)

  function OutcomeOf(reply: VerifyReply): (r: Outcome)
    ensures r.Route? <==> reply.Replied? && reply.success
    ensures r.Route? ==>
      (!reply.isProfileComplete <==> r.path == "/profile")
      && (r.path == "/adminTabs" <==> reply.isProfileComplete && reply.role == "admin")
      && (r.path == "/userTabs" <==> reply.isProfileComplete && reply.role != "admin")
    ensures r.Alert? ==> r.message != ""
    ensures r.Alert? && reply.message != "" ==> r.message == reply.message
    ensures reply.Replied? && !reply.success && reply.message == "" ==> r == Alert("Invalid OTP")
    ensures reply.RequestFailed? && reply.message == "" ==> r == Alert("Something went wrong")
  {
    match reply
    case Replied(success, _, _, role, isProfileComplete, message) =>
      if !success then Alert(OrElse(message, "Invalid OTP"))
      else if !isProfileComplete then Route("/profile")
      else if role == "admin" then Route("/adminTabs")
      else Route("/userTabs")
    case RequestFailed(message) => Alert(OrElse(message, "Something went wrong"))
  }

  /** An incomplete profile is sent to the profile form whatever the role. */
  lemma IncompleteProfileFirst(token: string, user: string, role: string, message: string)
    ensures OutcomeOf(Replied(true, token, user, role, false, message)) == Route("/profile")
  {
  }

  class OtpEntry {
    const phoneNumber: string
    var otp: seq<string>
    /** The token and user record kept in storage. */
    var storedToken: Option<string>
    var storedUser: Option<(string, string, bool)>
    var route: Option<string>
    var alert: Option<string>

    predicate Valid()
      reads this
    {
      ValidOtp(otp)
    }

    constructor (phoneNumber: string)
      ensures Valid() && this.phoneNumber == phoneNumber && otp == ["", "", "", ""]
      ensures storedToken == None && storedUser == None && route == None && alert == None
    {
      this.phoneNumber := phoneNumber;
      otp := ["", "", "", ""];
      storedToken, storedUser, route, alert := None, None, None, None;
    }

    /** The masked number shown under the title. */
    function Shown(): string
      reads this
    {
      MaskedPhone(phoneNumber)
    }

    /** `handleOtpChange`: a value longer than one character is ignored; otherwise it fills slot `index`. */
    method ChangeOtp(value: string, index: nat)
      requires Valid() && index < 4
      modifies this`otp
      ensures Valid()
      ensures |value| <= 1 ==> otp == old(otp)[index := value]
      ensures |value| > 1 ==> otp == old(otp)
    {
      if |value| > 1 {
        return;
      }
      var newOtp := otp;
      newOtp := newOtp[index := value];
      otp := newOtp;
    }

    /** Whether the code is complete, which is exactly every slot being filled. */
    function Complete(): (r: bool)
      requires Valid()
      reads this
      ensures r <==> forall i :: 0 <= i < 4 ==> otp[i] != ""
    {
      JoinSinglesLength(otp);
      |Join(otp, "")| == 4
    }

    /**
     * `handleVerifyOtp`: an incomplete code alerts without a request
     * (`sent` is false and the reply is not used); otherwise the reply
     * decides the stored session and the next screen.
     */
    method Verify(reply: VerifyReply) returns (sent: bool, code: string)
      requires Valid()
      modifies this`storedToken, this`storedUser, this`route, this`alert
      ensures Valid() && code == Join(otp, "")
      ensures sent <==> Complete()
      ensures !sent ==>
        alert == Some("Please enter complete OTP")
        && storedToken == old(storedToken) && storedUser == old(storedUser) && route == old(route)
      ensures sent && OutcomeOf(reply).Route? ==>
        route == Some(OutcomeOf(reply).path) && storedToken == Some(reply.token)
        && storedUser == Some((reply.user, reply.role, reply.isProfileComplete)) && alert == old(alert)
      ensures sent && OutcomeOf(reply).Alert? ==>
        alert == Some(OutcomeOf(reply).message)
        && storedToken == old(storedToken) && storedUser == old(storedUser) && route == old(route)
    {
      code := Join(otp, "");
      if |code| != 4 {
        alert := Some("Please enter complete OTP");
        return false, code;
      }
      sent := true;
      match OutcomeOf(reply) {
        case Route(path) =>
          storedToken := Some(reply.token);
          storedUser := Some((reply.user, reply.role, reply.isProfileComplete));
          route := Some(path);
        case Alert(message) =>
          alert := Some(message);
      }
    }
  }
}
