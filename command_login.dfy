/**
 * The command-centre login page (command/login.tsx): a staff role chosen
 * from a fixed list, an employee id and a phone number, an OTP request and
 * the OTP check. The requests' outcomes are parameters.
 */
module CommandLogin {
  import opened Wrappers
  import opened Schema
  import opened LoginSteps

  /** The values the role selector offers. */
  const SelectableRoles: seq<string> := ["administrator", "police", "medical", "coordinator"]

  const CommandHome: string := "/command/dashboard"

  /** The selectable roles are exactly the schema's roles other than pilgrim. */
  lemma SelectableRolesAreStaffRoles(r: string)
    ensures r in SelectableRoles <==> ParseRole(r).Some? && ParseRole(r).value != Pilgrim
  {
    if ParseRole(r).Some? {
      assert RoleName(ParseRole(r).value) == r;
    }
  }

  /** The send guard: a role, an employee id and a phone number are all filled in. */
  predicate FieldsFilled(role: string, employeeId: string, phone: string) {
    role != "" && employeeId != "" && phone != ""
  }

  class CommandLoginPage {
    var step: Step
    var role: string
    var employeeId: string
    var phone: string
    var otp: string
    var isLoading: bool
    var effects: seq<Effect>

    /**
     * The role is unset or one of the offered ones; every OTP request is
     * for the phone, with all three fields filled in; every verify carries
     * a complete code and the employee id. Between handlers nothing loads.
     */
    ghost predicate Valid()
      reads this
    {
      && !isLoading
      && (role == "" || role in SelectableRoles)
      && forall e :: e in effects && e.Requested? ==>
        (&& e.request.employeeId.Some?
         && (e.request.SendOtpRequest? ==>
               e.request.kind == "phone" && FieldsFilled(e.request.role, e.request.employeeId.value, e.request.identifier))
         && (e.request.VerifyOtpRequest? ==> OtpComplete(e.request.otp)))
    }

    constructor ()
      ensures Valid()
      ensures step == LoginStep && role == "" && employeeId == "" && phone == "" && otp == ""
      ensures !isLoading && effects == []
    {
      step, role, employeeId, phone, otp := LoginStep, "", "", "", "";
      isLoading, effects := false, [];
    }

    /** The role selector. */
    method SelectRole(r: string)
      requires Valid() && r in SelectableRoles
      modifies this
      ensures Valid()
      ensures role == r && employeeId == old(employeeId) && phone == old(phone) && otp == old(otp)
      ensures step == old(step) && effects == old(effects) && isLoading == old(isLoading)
    {
      role := r;
    }

    method Edit(id: string, p: string, code: string)
      requires Valid()
      modifies this
      ensures Valid()
      ensures employeeId == id && phone == p && otp == code && role == old(role)
      ensures step == old(step) && effects == old(effects) && isLoading == old(isLoading)
    {
      employeeId, phone, otp := id, p, code;
    }

    /**
     * `handleSendOTP`: with any of role, employee id or phone empty an error
     * is shown and nothing is requested; otherwise the OTP is requested for
     * the phone, and the page moves to the OTP step exactly when that
     * succeeds.
     */
    method SendOtp(succeeds: bool)
      requires Valid()
      modifies this
      ensures Valid()
      ensures !FieldsFilled(old(role), old(employeeId), old(phone)) ==>
        step == old(step) && effects == old(effects) + [Toast("Error", true)]
      ensures FieldsFilled(old(role), old(employeeId), old(phone)) ==>
        (&& step == (if succeeds then OtpStep else old(step))
         && effects == old(effects) + [Requested(SendOtpRequest(phone, "phone", role, Some(employeeId)))]
              + (if succeeds then [Toast("OTP Sent", false)] else [Toast("Error", true)]))
      ensures role == old(role) && employeeId == old(employeeId) && phone == old(phone) && otp == old(otp)
    {
      if !FieldsFilled(role, employeeId, phone) {
        effects := effects + [Toast("Error", true)];
        return;
      }
      isLoading := true;
      effects := effects + [Requested(SendOtpRequest(phone, "phone", role, Some(employeeId)))];
      if succeeds {
        step := OtpStep;
        effects := effects + [Toast("OTP Sent", false)];
      } else {
        effects := effects + [Toast("Error", true)];
      }
      isLoading := false;
    }

    /**
     * `handleVerifyOTP`: an incomplete code shows an error and requests
     * nothing; otherwise the code is checked with the phone, role and
     * employee id, and an accepted reply signs in and goes to the command
     * dashboard. The step does not change.
     */
    method VerifyOtp(reply: VerifyReply, sessionSaved: bool)
      requires Valid()
      modifies this
      ensures Valid()
      ensures step == old(step)
      ensures !OtpComplete(old(otp)) ==> effects == old(effects) + [Toast("Error", true)]
      ensures OtpComplete(old(otp)) ==>
        effects == old(effects) + VerifyEffects(VerifyOtpRequest(phone, otp, role, Some(employeeId)),
                                                reply, sessionSaved, CommandHome, "Access Granted", "Access Denied")
      ensures role == old(role) && employeeId == old(employeeId) && phone == old(phone) && otp == old(otp)
    {
      if !OtpComplete(otp) {
        effects := effects + [Toast("Error", true)];
        return;
      }
      isLoading := true;
      effects := effects + VerifyEffects(VerifyOtpRequest(phone, otp, role, Some(employeeId)),
                                         reply, sessionSaved, CommandHome, "Access Granted", "Access Denied");
      isLoading := false;
    }

    /** "Back to Login". */
    method Back()
      requires Valid()
      modifies this
      ensures Valid()
      ensures step == LoginStep
      ensures role == old(role) && employeeId == old(employeeId) && phone == old(phone) && otp == old(otp)
      ensures effects == old(effects) && isLoading == old(isLoading)
    {
      step := LoginStep;
    }
  }
}
