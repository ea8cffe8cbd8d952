/** The reset-password page reached from the emailed link: the email and
    reset code come from the query string; the page shows an invalid-link
    card, the form, or the success card. */
module ResetPassword {
  import opened Wrappers

  const ExpiredLinkMessage: string := "Failed to reset password. The link may have expired."

  datatype Status = Form | Success | Error

  /** The body of `POST /api/auth/resetPassword`. */
  datatype ResetRequest = ResetRequest(email: string, resetCode: string, newPassword: string)

  datatype View = InvalidLink | SuccessCard | FormCard(error: Option<string>)

  /** What the page renders: a missing email or code always gives the
      invalid-link card; otherwise the status decides. */
  function Render(email: string, resetCode: string, status: Status, error: Option<string>): (r: View)
    ensures email == "" || resetCode == "" ==> r == InvalidLink
    ensures email != "" && resetCode != "" ==> (r == SuccessCard <==> status == Success)
    ensures r.FormCard? ==> r.error == error && status != Success
  {
    if email == "" || resetCode == "" then InvalidLink
    else if status == Success then SuccessCard
    else FormCard(error)
  }

  class ResetPasswordPage {
    const email: string
    const resetCode: string
    var password: string
    var status: Status
    var error: Option<string>

    /** The 'error' status only ever arises from a link missing its email or
        code, so it is never seen: that case renders the invalid-link card. */
    ghost predicate Valid()
      reads this
    {
      status == Error ==> email == "" || resetCode == ""
    }

    /** The page's first render: absent query parameters read as "". */
    constructor (emailParam: Option<string>, codeParam: Option<string>)
      ensures email == emailParam.GetOr("") && resetCode == codeParam.GetOr("")
      ensures status == Form && error.None? && password == ""
      ensures Valid()
    {
      email := emailParam.GetOr("");
      resetCode := codeParam.GetOr("");
      password := "";
      status := Form;
      error := None;
    }

    function View(): View
      reads this
    {
      Render(email, resetCode, status, error)
    }

    /** `handleSubmit` with the reset call's outcome as input; returns the
        request, when one is made. The previous error is cleared first. */
    method HandleSubmit(resetSucceeds: bool) returns (request: Option<ResetRequest>)
      requires Valid()
      modifies this
      ensures Valid()
      ensures password == old(password)
      ensures email == "" || resetCode == "" ==> request.None? && status == Error && error.None?
      ensures email != "" && resetCode != "" ==> request == Some(ResetRequest(email, resetCode, password))
      ensures email != "" && resetCode != "" && resetSucceeds ==> status == Success && error.None?
      ensures email != "" && resetCode != "" && !resetSucceeds ==>
        status == old(status) && error == Some(ExpiredLinkMessage)
    {
      error := None;
      if email == "" || resetCode == "" {
        status := Error;
        return None;
      }
      request := Some(ResetRequest(email, resetCode, password));
      if resetSucceeds {
        status := Success;
      } else {
        error := Some(ExpiredLinkMessage);
      }
    }
  }

  /** On a page whose parameters are present the view follows the status:
      the success card after a reset, otherwise the form with the current
      error; the error status always shows the invalid-link card. */
  lemma ValidPageViews(email: string, resetCode: string, status: Status, error: Option<string>)
    requires status == Error ==> email == "" || resetCode == ""
    ensures email != "" && resetCode != "" ==>
      Render(email, resetCode, status, error) == (if status == Success then SuccessCard else FormCard(error))
    ensures status == Error ==> Render(email, resetCode, status, error) == InvalidLink
  {
  }
}
