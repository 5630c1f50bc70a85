/**
 * Registration, login and the password-reset pair over the user table.
 * The reset token and the clock come in as parameters; the reset e-mail
 * is not modelled.
 */
module AuthController {
  import opened Wrappers
  import opened Text
  import opened Statuses
  import opened UserEntity
  import opened Database
  import opened UserRepository
  import opened Time

  /** A registration body; `None` is a JSON null or a missing field. */
  datatype RegisterRequest = RegisterRequest(name: Option<string>, email: Option<string>, password: Option<string>,
                                             role: Option<string>, phone: Option<string>)

  /**
   * Why `register` refuses a body, checked in the source's order; the last
   * case is the failed save of a user without a name.
   */
  function RegisterRefusal(users: seq<User>, req: RegisterRequest): (e: Option<Rejection>)
    reads users
    ensures e.None? <==> && req.email.Some? && req.password.Some?
                         && req.phone.Some? && JavaTrim(req.phone.value) != ""
                         && FindByEmail(users, req.email.value).None?
                         && !EqualsIgnoreCase(req.password.value, req.email.value)
                         && req.name.Some?
    ensures req.email.None? || req.password.None? ==> e == Some(Rejection(BadRequest, "Email and password required"))
    ensures req.email.Some? && req.password.Some? && (req.phone.None? || JavaTrim(req.phone.value) == "") ==>
              e == Some(Rejection(BadRequest, "Phone number is required"))
    ensures e == Some(Rejection(Conflict, "Email already exists")) <==>
              && req.email.Some? && req.password.Some? && req.phone.Some? && JavaTrim(req.phone.value) != ""
              && FindByEmail(users, req.email.value).Some?
    ensures e == Some(Rejection(BadRequest, "Password cannot be the same as your email")) <==>
              && req.email.Some? && req.password.Some? && req.phone.Some? && JavaTrim(req.phone.value) != ""
              && FindByEmail(users, req.email.value).None? && EqualsIgnoreCase(req.password.value, req.email.value)
  {
    if req.email.None? || req.password.None? then Some(Rejection(BadRequest, "Email and password required"))
    else if req.phone.None? || JavaTrim(req.phone.value) == "" then Some(Rejection(BadRequest, "Phone number is required"))
    else if FindByEmail(users, req.email.value).Some? then Some(Rejection(Conflict, "Email already exists"))
    else if EqualsIgnoreCase(req.password.value, req.email.value) then
      Some(Rejection(BadRequest, "Password cannot be the same as your email"))
    else if req.name.None? then Some(Rejection(InternalError, "Internal Server Error"))
    else None
  }

  /** The role a registration stores: the one sent, whatever word it is, or CUSTOMER. */
  function RoleFor(role: Option<string>): (r: Role)
    ensures role.None? ==> r == Customer
    ensures role.Some? ==> r.Name() == role.value
  {
    if role.None? then Customer else ParseRole(role.value)
  }

  /**
   * `register`: a refused body saves nothing; otherwise a new user with
   * the sent fields and the entity defaults is saved under the next id.
   */
  method Register(db: Db, req: RegisterRequest, now: int) returns (r: Result<User, Rejection>)
    requires db.UserIds() && db.EmailsUnique()
    modifies db`users
    ensures db.UserIds() && db.EmailsUnique()
    ensures var e := RegisterRefusal(old(db.users), req);
            e.Some? ==> r == Err(e.value) && db.users == old(db.users)
    ensures RegisterRefusal(old(db.users), req).None? ==>
              r.Ok? && fresh(r.value) && db.users == old(db.users) + [r.value] && r.value.id == |db.users|
              && r.value.email == req.email.value && r.value.password == req.password.value
              && r.value.role == RoleFor(req.role) && r.value.phone == req.phone.value
              && r.value.name == req.name.value
    ensures RegisterRefusal(old(db.users), req).None? ==>
              && r.Ok? && r.value.isAvailable && r.value.rating == 5.0 && r.value.totalDeliveries == 0
              && r.value.createdAt == now && r.value.updatedAt == now
              && r.value.resetToken == None && r.value.resetTokenExpiry == None
              && r.value.vehicleType == None && r.value.vehicleNumber == None && r.value.currentLocation == None
              && r.value.totalEarnings == 0.0 && r.value.incentives == Some(0.0) && r.value.bonus == Some(0.0)
              && r.value.performanceBadge == None && r.value.onlineStatus == Some(false) && r.value.lastOnlineTime == None
  {
    var e := RegisterRefusal(db.users, req);
    if e.Some? {
      return Err(e.value);
    }
    var u := new User(|db.users| + 1, req.email.value, req.password.value, RoleFor(req.role), req.name.value,
                      req.phone.value, now);
    db.InsertUser(u);
    r := Ok(u);
  }

  /** A login body. */
  datatype Credentials = Credentials(email: Option<string>, password: Option<string>)

  /**
   * `login`: the user with this e-mail when the stored password equals the
   * one sent; an unknown e-mail and a wrong password get the same answer.
   */
  function Login(users: seq<User>, req: Credentials): (r: Result<User, Rejection>)
    reads users
    ensures r.Ok? <==> req.email.Some? && FindByEmail(users, req.email.value).Some?
                       && req.password == Some(FindByEmail(users, req.email.value).value.password)
    ensures r.Ok? ==> r.value in users && Some(r.value.email) == req.email && Some(r.value.password) == req.password
    ensures r.Err? ==> r.error == Rejection(Unauthorized, "Invalid credentials")
  {
    if req.email.None? then Err(Rejection(Unauthorized, "Invalid credentials"))
    else
      match FindByEmail(users, req.email.value)
      case None => Err(Rejection(Unauthorized, "Invalid credentials"))
      case Some(u) => if req.password == Some(u.password) then Ok(u) else Err(Rejection(Unauthorized, "Invalid credentials"))
  }

  /** A user appended under a free e-mail is the one its e-mail finds. */
  lemma {:induction false} FindAppended(users: seq<User>, u: User)
    requires forall k :: 0 <= k < |users| ==> users[k].email != u.email
    ensures FindByEmail(users + [u], u.email) == Some(u)
  {
    if users == [] {
      assert [] + [u] == [u];
    } else {
      assert (users + [u])[1..] == users[1..] + [u];
      FindAppended(users[1..], u);
    }
  }

  /** Whoever registered can log in with the e-mail and password they registered. */
  lemma RegisteredCanLogIn(users: seq<User>, u: User)
    requires forall k :: 0 <= k < |users| ==> users[k].email != u.email
    ensures Login(users + [u], Credentials(Some(u.email), Some(u.password))) == Ok(u)
  {
    FindAppended(users, u);
  }

  /** The user an e-mail names, as a frame: empty when there is none. */
  function EmailHolder(users: seq<User>, email: Option<string>): set<User>
    reads users
  {
    if email.Some? && FindByEmail(users, email.value).Some? then {FindByEmail(users, email.value).value} else {}
  }

  const ForgotReply: string := "If the email exists, a reset link has been sent."

  /**
   * `forgotPassword`: a known e-mail's user gets the fresh token, valid for
   * one hour; the reply is the same whether or not the e-mail is known.
   */
  method ForgotPassword(db: Db, email: Option<string>, token: string, now: int) returns (reply: string)
    modifies EmailHolder(db.users, email)`resetToken, EmailHolder(db.users, email)`resetTokenExpiry
    ensures reply == ForgotReply
    ensures email.Some? && old(FindByEmail(db.users, email.value)).Some? ==>
              var u := old(FindByEmail(db.users, email.value)).value;
              u.resetToken == Some(token) && u.resetTokenExpiry == Some(now + Hour)
  {
    if email.Some? {
      var found := FindByEmail(db.users, email.value);
      if found.Some? {
        found.value.resetToken := Some(token);
        found.value.resetTokenExpiry := Some(now + Hour);
      }
    }
    reply := ForgotReply;
  }

  /** A reset body. */
  datatype ResetRequest = ResetRequest(token: Option<string>, newPassword: Option<string>)

  /**
   * Why `resetPassword` refuses, checked in the source's order: the token
   * lookup (which fails when several rows match), then the expiry; a null
   * new password fails the comparison.
   */
  function ResetRefusal(users: seq<User>, req: ResetRequest, now: int): (e: Option<Rejection>)
    reads users
    ensures FindByResetToken(users, req.token).Err? ==> e == Some(FindByResetToken(users, req.token).error)
    ensures FindByResetToken(users, req.token) == Ok(None) ==> e == Some(Rejection(BadRequest, "Invalid or expired token"))
    ensures e.None? <==>
              && FindByResetToken(users, req.token).Ok? && FindByResetToken(users, req.token).value.Some?
              && var u := FindByResetToken(users, req.token).value.value;
              && u.resetTokenExpiry.Some? && u.resetTokenExpiry.value >= now
              && req.newPassword.Some? && !EqualsIgnoreCase(req.newPassword.value, u.email)
    ensures e == Some(Rejection(BadRequest, "Token expired")) <==>
              && FindByResetToken(users, req.token).Ok? && FindByResetToken(users, req.token).value.Some?
              && var u := FindByResetToken(users, req.token).value.value;
              u.resetTokenExpiry.None? || u.resetTokenExpiry.value < now
  {
    match FindByResetToken(users, req.token)
    case Err(error) => Some(error)
    case Ok(None) => Some(Rejection(BadRequest, "Invalid or expired token"))
    case Ok(Some(u)) =>
      if u.resetTokenExpiry.None? || u.resetTokenExpiry.value < now then Some(Rejection(BadRequest, "Token expired"))
      else if req.newPassword.None? then Some(Rejection(InternalError, "Internal Server Error"))
      else if EqualsIgnoreCase(req.newPassword.value, u.email) then
        Some(Rejection(BadRequest, "Password cannot be the same as your email"))
      else None
  }

  /** The user a token names, as a frame: empty when there is none or several. */
  function TokenHolder(users: seq<User>, token: Option<string>): set<User>
    reads users
  {
    match FindByResetToken(users, token)
    case Ok(Some(u)) => {u}
    case _ => {}
  }

  /**
   * `resetPassword`: an accepted reset sets the new password and clears
   * the token and its expiry; a refused one changes nothing.
   */
  method ResetPassword(db: Db, req: ResetRequest, now: int) returns (r: Result<string, Rejection>)
    modifies TokenHolder(db.users, req.token)`password, TokenHolder(db.users, req.token)`resetToken
    modifies TokenHolder(db.users, req.token)`resetTokenExpiry
    ensures var e := old(ResetRefusal(db.users, req, now));
            e.Some? ==> r == Err(e.value) && unchanged(TokenHolder(db.users, req.token))
    ensures old(ResetRefusal(db.users, req, now)).None? ==>
              var u := old(FindByResetToken(db.users, req.token)).value.value;
              && r == Ok("Password updated successfully")
              && u.password == req.newPassword.value && u.resetToken == None && u.resetTokenExpiry == None
  {
    var e := ResetRefusal(db.users, req, now);
    if e.Some? {
      return Err(e.value);
    }
    var u := FindByResetToken(db.users, req.token).value.value;
    u.password := req.newPassword.value;
    u.resetToken := None;
    u.resetTokenExpiry := None;
    r := Ok("Password updated successfully");
  }

  /**
   * A token from `forgotPassword`, held by nobody else, resets the password
   * any time within its hour, to any password other than the e-mail.
   */
  lemma IssuedTokenWorks(users: seq<User>, k: int, token: string, issuedAt: int, now: int, newPassword: string)
    requires 0 <= k < |users| && users[k].resetToken == Some(token) && users[k].resetTokenExpiry == Some(issuedAt + Hour)
    requires forall j :: 0 <= j < |users| && j != k ==> users[j].resetToken != Some(token)
    requires issuedAt <= now <= issuedAt + Hour && !EqualsIgnoreCase(newPassword, users[k].email)
    ensures FindByResetToken(users, Some(token)) == Ok(Some(users[k]))
    ensures ResetRefusal(users, ResetRequest(Some(token), Some(newPassword)), now).None?
  {
    SoleHolder(users, k, Some(token));
  }

  /**
   * Once a reset cleared a user's token and expiry, no request resets that
   * user again: no token names them, and the null token, which the lookup
   * binds as IS NULL, names them only to find no expiry.
   */
  lemma UsedTokenIsDead(users: seq<User>, u: User, req: ResetRequest, now: int)
    requires u.resetToken == None && u.resetTokenExpiry == None
    ensures req.token.Some? ==> FindByResetToken(users, req.token) != Ok(Some(u))
    ensures FindByResetToken(users, req.token) == Ok(Some(u)) ==>
              ResetRefusal(users, req, now) == Some(Rejection(BadRequest, "Token expired"))
  {
  }

  /**
   * A request without a token never resets a password while every user
   * without a token also has no expiry, as `forgotPassword` and
   * `resetPassword` keep it: nobody without a token gives "Invalid or
   * expired token", one such user "Token expired", several a server error.
   */
  lemma NullTokenRefused(users: seq<User>, newPassword: Option<string>, now: int)
    requires forall k :: 0 <= k < |users| && users[k].resetToken == None ==> users[k].resetTokenExpiry == None
    ensures var e := ResetRefusal(users, ResetRequest(None, newPassword), now);
            && e.Some?
            && (|TokenHolders(users, None)| == 0 ==> e == Some(Rejection(BadRequest, "Invalid or expired token")))
            && (|TokenHolders(users, None)| == 1 ==> e == Some(Rejection(BadRequest, "Token expired")))
            && (|TokenHolders(users, None)| > 1 ==> e == Some(Rejection(InternalError, "Internal Server Error")))
  {
    var found := FindByResetToken(users, None);
    if found.Ok? && found.value.Some? {
      var u := found.value.value;
      var j :| 0 <= j < |users| && users[j] == u;
      assert u.resetTokenExpiry == None;
    }
  }
}
