/**
 * The password-reset page script: the guard on the link's token, the
 * checks on the new password in their order, and the reading of the
 * server's answer, with the token kept in session storage.
 */
module ResetPasswordPage {
  import opened Wrappers

  /** What opening the page does with the link's `token` query parameter. */
  datatype Landing = Bounced(alert: string, page: string) | ShowForm(storedToken: string)

  /** A missing or empty token sends the visitor back to sign-in; otherwise it is kept for the form. */
  function Land(token: Option<string>): (r: Landing)
    ensures r.Bounced? <==> token.None? || token.value == ""
    ensures r.Bounced? ==> r == Bounced("Invalid reset link. No token provided.", "/login.html")
    ensures r.ShowForm? ==> Some(r.storedToken) == token
  {
    if token.None? || token.value == "" then Bounced("Invalid reset link. No token provided.", "/login.html")
    else ShowForm(token.value)
  }

  /** The body posted; the token is whatever session storage holds, possibly nothing. */
  datatype ResetBody = ResetBody(token: Option<string>, newPassword: string)

  /**
   * The checks in order: a password missing or shorter than six characters
   * is refused before the confirmation is looked at.
   */
  function ResetCheck(newPassword: string, confirm: string): (r: Option<Shown>)
    ensures |newPassword| < 6 ==> r == Some(Shown("passwordError", "Password must be at least 6 characters"))
    ensures |newPassword| >= 6 && newPassword != confirm ==> r == Some(Shown("confirmError", "Passwords do not match"))
    ensures r.None? <==> |newPassword| >= 6 && newPassword == confirm
  {
    if newPassword == "" || |newPassword| < 6 then Some(Shown("passwordError", "Password must be at least 6 characters"))
    else if newPassword != confirm then Some(Shown("confirmError", "Passwords do not match"))
    else None
  }

  /** Everything one press of the reset button leads to. */
  datatype ResetResult = ResetResult(sent: Option<ResetBody>, shown: Option<Shown>, alert: Option<string>,
                                     page: Option<string>, storedAfter: Option<string>)

  /**
   * `handleResetPassword`: a refused form sends nothing; a sent one, on
   * success, alerts, forgets the stored token and goes to sign-in; on a
   * refusal it shows the server's text, or a fallback when that is empty.
   */
  function HandleReset(stored: Option<string>, newPassword: string, confirm: string, reply: Reply): (r: ResetResult)
    ensures r.sent.Some? <==> ResetCheck(newPassword, confirm).None?
    ensures r.sent.None? ==> r == ResetResult(None, ResetCheck(newPassword, confirm), None, None, stored)
    ensures r.sent.Some? ==> r.sent.value == ResetBody(stored, newPassword)
    ensures r.sent.Some? && reply.Ok() ==>
              && r.storedAfter == None && r.shown == None && r.page == Some("/login.html")
              && r.alert == Some("Password updated successfully! Please login with your new password.")
    ensures r.sent.Some? && !reply.Ok() ==> r.storedAfter == stored && r.page == None && r.alert == None
    ensures r.sent.Some? && reply.Answered? && !reply.Ok() ==>
              r.shown == Some(Shown("passwordError", if reply.body == "" then "Failed to reset password" else reply.body))
    ensures r.sent.Some? && reply.NetworkFailure? ==> r.shown == Some(Shown("passwordError", "Network error. Please try again."))
  {
    var refusal := ResetCheck(newPassword, confirm);
    if refusal.Some? then ResetResult(None, refusal, None, None, stored)
    else
      var body := Some(ResetBody(stored, newPassword));
      if reply.NetworkFailure? then
        ResetResult(body, Some(Shown("passwordError", "Network error. Please try again.")), None, None, stored)
      else if reply.Ok() then
        ResetResult(body, None, Some("Password updated successfully! Please login with your new password."),
                    Some("/login.html"), None)
      else
        ResetResult(body, Some(Shown("passwordError", if reply.body == "" then "Failed to reset password" else reply.body)),
                    None, None, stored)
  }
}
