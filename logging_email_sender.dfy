/** The development email sender: instead of mailing, it logs each link,
    rewritten to point at the frontend. HTML decoding and the platform's URI
    parser come in as functions; `uriQuery` gives the query part of an
    absolute URI (with its leading '?', or "" when there is none), or
    nothing when the text is not a URI and the `Uri` constructor throws. */
module LoggingEmailSender {
  import opened Wrappers

  const DefaultFrontendUrl: string := "http://localhost:5173"
  const ConfirmEmailRoute: string := "/confirm-email"
  const ResetPasswordRoute: string := "/reset-password"

  /** The configured `FrontendUrl`, or the local development server when the
      key is not configured at all (a configured empty string is kept). */
  function FrontendUrl(configured: Option<string>): (r: string)
    ensures configured.None? ==> r == DefaultFrontendUrl
    ensures configured.Some? ==> r == configured.value
  {
    configured.GetOr(DefaultFrontendUrl)
  }

  /** What the sender writes to the log: the address and the link or code. */
  datatype LogEntry = LogEntry(email: string, text: string)

  /** A send either completes, having logged an entry, or throws. */
  datatype SendResult = Logged(entry: LogEntry) | UriFormatError

  /** Both link senders: HTML-decode the link, parse it, and keep only its
      query, appended to the frontend URL and the page's route. */
  function RewriteLink(
    frontendUrl: string, route: string, email: string, link: string,
    htmlDecode: string -> string, uriQuery: string -> Option<string>): (r: SendResult)
    ensures r.UriFormatError? <==> uriQuery(htmlDecode(link)).None?
    ensures r.Logged? ==> r.entry.email == email && r.entry.text == frontendUrl + route + uriQuery(htmlDecode(link)).value
  {
    match uriQuery(htmlDecode(link))
    case None => UriFormatError
    case Some(query) => Logged(LogEntry(email, frontendUrl + route + query))
  }

  /** `SendConfirmationLinkAsync`. */
  function SendConfirmationLink(
    frontendUrl: string, email: string, link: string,
    htmlDecode: string -> string, uriQuery: string -> Option<string>): (r: SendResult)
    ensures r.UriFormatError? <==> uriQuery(htmlDecode(link)).None?
    ensures r.Logged? ==> r.entry == LogEntry(email, frontendUrl + "/confirm-email" + uriQuery(htmlDecode(link)).value)
  {
    RewriteLink(frontendUrl, ConfirmEmailRoute, email, link, htmlDecode, uriQuery)
  }

  /** `SendPasswordResetLinkAsync`. */
  function SendPasswordResetLink(
    frontendUrl: string, email: string, link: string,
    htmlDecode: string -> string, uriQuery: string -> Option<string>): (r: SendResult)
    ensures r.UriFormatError? <==> uriQuery(htmlDecode(link)).None?
    ensures r.Logged? ==> r.entry == LogEntry(email, frontendUrl + "/reset-password" + uriQuery(htmlDecode(link)).value)
  {
    RewriteLink(frontendUrl, ResetPasswordRoute, email, link, htmlDecode, uriQuery)
  }

  /** `SendPasswordResetCodeAsync`: the code is logged as it came. */
  function SendPasswordResetCode(email: string, resetCode: string): (r: LogEntry)
    ensures r.text == resetCode && r.email == email
  {
    LogEntry(email, resetCode)
  }

  /** Scheme, host and path of the original link are discarded: two links
      whose decoded forms have the same query are rewritten to the same
      frontend link, for both kinds of mail. */
  lemma OnlyQueryCarriesOver(
    frontendUrl: string, email: string, link1: string, link2: string,
    htmlDecode: string -> string, uriQuery: string -> Option<string>)
    requires uriQuery(htmlDecode(link1)) == uriQuery(htmlDecode(link2))
    ensures SendConfirmationLink(frontendUrl, email, link1, htmlDecode, uriQuery)
         == SendConfirmationLink(frontendUrl, email, link2, htmlDecode, uriQuery)
    ensures SendPasswordResetLink(frontendUrl, email, link1, htmlDecode, uriQuery)
         == SendPasswordResetLink(frontendUrl, email, link2, htmlDecode, uriQuery)
  {
  }

  /** The two link senders differ only in the route: the rewritten links
      agree up to the frontend URL and again from the query on. */
  lemma LinksDifferOnlyInRoute(
    frontendUrl: string, email: string, link: string,
    htmlDecode: string -> string, uriQuery: string -> Option<string>)
    requires uriQuery(htmlDecode(link)).Some?
    ensures var c := SendConfirmationLink(frontendUrl, email, link, htmlDecode, uriQuery).entry.text;
      var r := SendPasswordResetLink(frontendUrl, email, link, htmlDecode, uriQuery).entry.text;
      var q := uriQuery(htmlDecode(link)).value;
      && c[..|frontendUrl|] == r[..|frontendUrl|] == frontendUrl
      && c[|c| - |q|..] == r[|r| - |q|..] == q
  {
    var c := SendConfirmationLink(frontendUrl, email, link, htmlDecode, uriQuery).entry.text;
    var r := SendPasswordResetLink(frontendUrl, email, link, htmlDecode, uriQuery).entry.text;
    var q := uriQuery(htmlDecode(link)).value;
    assert c == frontendUrl + ConfirmEmailRoute + q;
    assert r == frontendUrl + ResetPasswordRoute + q;
  }
}
