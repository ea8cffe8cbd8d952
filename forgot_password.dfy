/** The forgot-password page: after a submit it always shows the same
    "check your email" card, whatever the request did, so the page does not
    reveal whether an account exists. */
module ForgotPassword {

  datatype View = RequestForm | CheckYourEmail

  /** The body of `POST /api/auth/forgotPassword`. */
  datatype ForgotRequest = ForgotRequest(email: string)

  function Render(submitted: bool): (r: View)
    ensures r == CheckYourEmail <==> submitted
  {
    if submitted then CheckYourEmail else RequestForm
  }

  class ForgotPasswordPage {
    var submitted: bool

    constructor ()
      ensures !submitted
    {
      submitted := false;
    }

    /** `handleSubmit`: the request's failure is swallowed, and `submitted`
        is set in either case. */
    method HandleSubmit(email: string, requestSucceeds: bool) returns (request: ForgotRequest)
      modifies this
      ensures request == ForgotRequest(email)
      ensures submitted
    {
      // a rejection is caught and ignored, so the outcome changes nothing
      request := ForgotRequest(email);
      submitted := true;
    }

    function View(): View
      reads this
    {
      Render(submitted)
    }
  }

  /** Two pages that submitted the same email, one whose request succeeded
      and one whose request failed, are indistinguishable afterwards. */
  method SubmitOutcomeIsInvisible(email: string) returns (same: bool)
    ensures same
  {
    var a := new ForgotPasswordPage();
    var b := new ForgotPasswordPage();
    var ra := a.HandleSubmit(email, true);
    var rb := b.HandleSubmit(email, false);
    same := ra == rb && a.View() == b.View() && a.View() == CheckYourEmail;
  }
}
