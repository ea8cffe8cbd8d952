/** The confirm-email page reached from the emailed link: its effect posts
    the user id and code to the confirmation endpoint and records how that
    went. */
module ConfirmEmail {
  import opened Wrappers

  datatype Status = Loading | Success | Error

  datatype ConfirmRequest = ConfirmRequest(userId: string, code: string)

  datatype LoginLink = LoginLink(to: string, caption: string)

  datatype View = View(title: string, description: Option<string>, link: Option<LoginLink>)

  /** The card for each status. */
  function Render(status: Status): (r: View)
    ensures r.link.Some? <==> status != Loading
    ensures r.link.Some? ==> r.link.value.to == "/login"
    ensures r.description.Some? <==> status != Loading
  {
    match status
    case Loading => View("Confirming your email...", None, None)
    case Success => View("Email confirmed!", Some("Your email has been verified. You can now log in."), Some(LoginLink("/login", "Go to Login")))
    case Error => View("Confirmation failed", Some("The confirmation link is invalid or has expired."), Some(LoginLink("/login", "Back to Login")))
  }

  /** Each status has its own title, so exactly one title shows. */
  lemma TitlesIdentifyStatus(a: Status, b: Status)
    ensures Render(a).title == Render(b).title <==> a == b
  {
    if a != b {
      var ta, tb := Render(a).title, Render(b).title;
      assert ta[0] != tb[0] || ta[1] != tb[1] || |ta| != |tb|;
    }
  }

  class ConfirmEmailPage {
    var status: Status

    constructor ()
      ensures status == Loading
    {
      status := Loading;
    }

    /** The effect, run to the settlement of its call: a missing or empty
        user id or code is an error without a call; otherwise the call is
        made and its outcome decides. */
    method RunEffect(userId: Option<string>, code: Option<string>, confirmSucceeds: bool)
      returns (request: Option<ConfirmRequest>)
      modifies this
      ensures userId.None? || userId.value == "" || code.None? || code.value == "" ==>
        request.None? && status == Error
      ensures userId.Some? && userId.value != "" && code.Some? && code.value != "" ==>
        && request == Some(ConfirmRequest(userId.value, code.value))
        && status == (if confirmSucceeds then Success else Error)
    {
      if userId.None? || userId.value == "" || code.None? || code.value == "" {
        status := Error;
        return None;
      }
      request := Some(ConfirmRequest(userId.value, code.value));
      if confirmSucceeds {
        status := Success;
      } else {
        status := Error;
      }
    }

    function View(): View
      reads this
    {
      Render(status)
    }
  }
}
