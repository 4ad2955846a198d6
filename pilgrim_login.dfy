/**
 * The pilgrim login page (pilgrim/login.tsx): an e-mail or phone contact,
 * an OTP request, and the OTP check that signs the pilgrim in. The
 * requests' outcomes are parameters.
 */
module PilgrimLogin {
  import opened Wrappers
  import opened LoginSteps

  datatype ContactMethod = Email | Phone

  function MethodName(m: ContactMethod): string {
    match m
    case Email => "email"
    case Phone => "phone"
  }

  const PilgrimHome: string := "/pilgrim/dashboard"

  class PilgrimLoginPage {
    var step: Step
    var contactMethod: ContactMethod
    var email: string
    var phone: string
    var otp: string
    var isLoading: bool
    var effects: seq<Effect>

    /** The contact the page sends to: the e-mail or the phone, by contact method. */
    function Identifier(): (r: string)
      reads this
      ensures contactMethod == Email ==> r == email
      ensures contactMethod == Phone ==> r == phone
    {
      if contactMethod == Email then email else phone
    }

    /**
     * Every request the page has made is for the pilgrim role, every OTP
     * request names a contact and every verify carries a complete code.
     * Handlers run to completion here, so between them nothing is loading.
     */
    ghost predicate Valid()
      reads this
    {
      && !isLoading
      && forall e :: e in effects && e.Requested? ==>
        (&& e.request.role == "pilgrim" && e.request.employeeId.None?
         && (e.request.SendOtpRequest? ==> e.request.identifier != "")
         && (e.request.VerifyOtpRequest? ==> OtpComplete(e.request.otp)))
    }

    constructor ()
      ensures Valid()
      ensures step == LoginStep && contactMethod == Email && email == "" && phone == ""
      ensures otp == "" && !isLoading && effects == []
    {
      step, contactMethod, email, phone, otp := LoginStep, Email, "", "", "";
      isLoading, effects := false, [];
    }

    method Edit(m: ContactMethod, e: string, p: string, code: string)
      requires Valid()
      modifies this
      ensures Valid()
      ensures contactMethod == m && email == e && phone == p && otp == code
      ensures step == old(step) && isLoading == old(isLoading) && effects == old(effects)
    {
      contactMethod, email, phone, otp := m, e, p, code;
    }

    /**
     * `handleSendOTP`: an empty contact shows an error and requests nothing;
     * otherwise the OTP is requested for the pilgrim role and the page moves
     * to the OTP step exactly when the request succeeds.
     */
    method SendOtp(succeeds: bool)
      requires Valid()
      modifies this
      ensures Valid()
      ensures !isLoading
      ensures old(Identifier()) == "" ==> step == old(step) && effects == old(effects) + [Toast("Error", true)]
      ensures old(Identifier()) != "" ==>
        (&& step == (if succeeds then OtpStep else old(step))
         && effects == old(effects)
              + [Requested(SendOtpRequest(old(Identifier()), MethodName(contactMethod), "pilgrim", None))]
              + (if succeeds then [Toast("OTP Sent", false)] else [Toast("Error", true)]))
      ensures contactMethod == old(contactMethod) && email == old(email) && phone == old(phone) && otp == old(otp)
    {
      var identifier := Identifier();
      if identifier == "" {
        effects := effects + [Toast("Error", true)];
        return;
      }
      isLoading := true;
      effects := effects + [Requested(SendOtpRequest(identifier, MethodName(contactMethod), "pilgrim", None))];
      if succeeds {
        step := OtpStep;
        effects := effects + [Toast("OTP Sent", false)];
      } else {
        effects := effects + [Toast("Error", true)];
      }
      isLoading := false;
    }

    /**
     * `handleVerifyOTP`: an incomplete code shows an error and requests
     * nothing; otherwise the code is checked for the pilgrim role and an
     * accepted reply signs in and goes to the pilgrim dashboard. The step
     * does not change.
     */
    method VerifyOtp(reply: VerifyReply, sessionSaved: bool)
      requires Valid()
      modifies this
      ensures Valid()
      ensures !isLoading && step == old(step)
      ensures !OtpComplete(old(otp)) ==> effects == old(effects) + [Toast("Error", true)]
      ensures OtpComplete(old(otp)) ==>
        effects == old(effects) + VerifyEffects(VerifyOtpRequest(old(Identifier()), old(otp), "pilgrim", None),
                                                reply, sessionSaved, PilgrimHome, "Success", "Error")
      ensures contactMethod == old(contactMethod) && email == old(email) && phone == old(phone) && otp == old(otp)
    {
      if !OtpComplete(otp) {
        effects := effects + [Toast("Error", true)];
        return;
      }
      var identifier := Identifier();
      isLoading := true;
      effects := effects + VerifyEffects(VerifyOtpRequest(identifier, otp, "pilgrim", None),
                                         reply, sessionSaved, PilgrimHome, "Success", "Error");
      isLoading := false;
    }

    /** "Back to Login". */
    method Back()
      requires Valid()
      modifies this
      ensures Valid()
      ensures step == LoginStep
      ensures contactMethod == old(contactMethod) && email == old(email) && phone == old(phone) && otp == old(otp)
      ensures isLoading == old(isLoading) && effects == old(effects)
    {
      step := LoginStep;
    }
  }
}
