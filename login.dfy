/**
 * The sign-in page script: the two input checks in their order, the body
 * sent, the reading of the answer and the page each role lands on.
 */
module LoginPage {
  import opened Wrappers
  import opened Text

  /** What `handleLogin` does with the inputs: stop with one message, or post the credentials. */
  datatype Attempt = Stopped(shown: Shown) | Posted(email: string, password: string)

  /**
   * The checks in order: the trimmed e-mail first, so an empty e-mail is
   * reported even when the password is empty too; no request goes out
   * when either check fails.  The password is sent untrimmed.
   */
  function LoginAttempt(emailInput: string, password: string): (r: Attempt)
    ensures JsTrim(emailInput) == "" ==> r == Stopped(Shown("emailError", "Enter your email or mobile phone number"))
    ensures JsTrim(emailInput) != "" && password == "" ==> r == Stopped(Shown("passwordError", "Enter your password"))
    ensures r.Posted? <==> JsTrim(emailInput) != "" && password != ""
    ensures r.Posted? ==> r.email == JsTrim(emailInput) && r.password == password
  {
    var email := JsTrim(emailInput);
    if email == "" then Stopped(Shown("emailError", "Enter your email or mobile phone number"))
    else if password == "" then Stopped(Shown("passwordError", "Enter your password"))
    else Posted(email, password)
  }

  /** `redirectToDashboard`: administrators and delivery partners have their own pages; everyone else shops. */
  function Dashboard(role: string): (page: string)
    ensures role == "ADMIN" <==> page == "/admin.html"
    ensures role == "DELIVERY" <==> page == "/delivery.html"
    ensures role != "ADMIN" && role != "DELIVERY" <==> page == "/shop.html"
  {
    if role == "ADMIN" then "/admin.html"
    else if role == "DELIVERY" then "/delivery.html"
    else "/shop.html"
  }

  /** What the page does with the answer. */
  datatype Outcome = SignedIn(message: string, page: string) | Failed(shown: Shown)

  /**
   * The answer read: a 2xx stores the user and goes to the role's page;
   * every other status shows one generic message whatever the server said.
   */
  function LoginReply(reply: Reply, role: string): (r: Outcome)
    ensures reply.Ok() <==> r.SignedIn?
    ensures reply.Ok() ==> r == SignedIn("Login successful! Redirecting...", Dashboard(role))
    ensures reply.Answered? && !reply.Ok() ==> r == Failed(Shown("passwordError", "Incorrect email or password"))
    ensures reply.NetworkFailure? ==> r == Failed(Shown("passwordError", "Network error. Please try again."))
  {
    if reply.NetworkFailure? then Failed(Shown("passwordError", "Network error. Please try again."))
    else if reply.Ok() then SignedIn("Login successful! Redirecting...", Dashboard(role))
    else Failed(Shown("passwordError", "Incorrect email or password"))
  }

  /** Two refusals the page cannot tell apart: the body the server sent back is never shown. */
  lemma RefusalsLookAlike(a: Reply, b: Reply, role: string)
    requires a.Answered? && b.Answered? && !a.Ok() && !b.Ok()
    ensures LoginReply(a, role) == LoginReply(b, role)
  {
  }
}
