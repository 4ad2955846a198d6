/**
 * What the two login pages share: the two-step form ('login', then 'otp'),
 * the requests they make to the authentication routes, and the effects a
 * handler leaves behind (requests, toasts, the context's login call and
 * navigation), recorded in order.
 */
module LoginSteps {
  import opened Wrappers
  import Session

  datatype Step = LoginStep | OtpStep

  datatype Request =
    | SendOtpRequest(identifier: string, kind: string, role: string, employeeId: Option<string>)
    | VerifyOtpRequest(identifier: string, otp: string, role: string, employeeId: Option<string>)

  datatype Effect =
    | Requested(request: Request)
    | Toast(title: string, destructive: bool)
    | CalledLogin(user: Session.SessionUser)
    | Navigated(path: string)

  /** The verify route's answer: the user on success, or a failed request. */
  datatype VerifyReply = Rejected | Accepted(user: Session.SessionUser)

  /** The OTP field holds a complete code. */
  predicate OtpComplete(otp: string) {
    |otp| == 6
  }

  /**
   * The effects of a verify request that was made: on acceptance the
   * context's login is called; when its session save succeeds, navigation
   * and a success toast follow, and otherwise the page shows its error
   * toast although the context already holds the user.
   */
  function VerifyEffects(request: Request, reply: VerifyReply, sessionSaved: bool, home: string,
                         successTitle: string, failureTitle: string): (r: seq<Effect>)
    ensures |r| >= 2 && r[0] == Requested(request)
    ensures reply.Rejected? ==> r == [Requested(request), Toast(failureTitle, true)]
    ensures reply.Accepted? && sessionSaved ==>
      r == [Requested(request), CalledLogin(reply.user), Navigated(home), Toast(successTitle, false)]
    ensures reply.Accepted? && !sessionSaved ==>
      r == [Requested(request), CalledLogin(reply.user), Toast(failureTitle, true)]
    ensures Navigated(home) in r <==> reply.Accepted? && sessionSaved
  {
    if reply.Rejected? then [Requested(request), Toast(failureTitle, true)]
    else if sessionSaved then [Requested(request), CalledLogin(reply.user), Navigated(home), Toast(successTitle, false)]
    else [Requested(request), CalledLogin(reply.user), Toast(failureTitle, true)]
  }
}
