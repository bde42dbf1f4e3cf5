/** The account state machine of controller/auth.controller.js: registration
    with an e-mail OTP, verification, login (which blocks unverified
    accounts), password reset and change, refresh-token rotation and logout.
    Tokens and OTP tokens are inputs, token verification and password
    comparison are function parameters, and e-mail sending is not modelled.
    Each operation is a pure decision on the user collection, and a method
    that commits it. */
module Auth {
  import opened Common
  import opened UserModel
  import opened Store

  /** `data` of a reply. */
  datatype ReplyData =
    | NoReplyData
    | EmailData(email: string)
    | LoginData(accessToken: string, role: Role, id: Id)
    | AccessData(accessToken: string)

  /** What `sendResponse` sends. */
  datatype Reply = Reply(statusCode: nat, success: bool, message: string, data: ReplyData)

  /** The user record saved back at `index`. */
  datatype Change = Change(index: nat, user: User)

  /** An operation's writes (at most one user saved) and its reply. */
  datatype Decision = Decision(change: Option<Change>, reply: Reply)

  /** A change saves an existing user under the same id. */
  predicate Fits(users: seq<User>, change: Option<Change>) {
    change.Some? ==> change.value.index < |users| && change.value.user.id == users[change.value.index].id
  }

  /** The collection after a decision's write. */
  function Applied(users: seq<User>, change: Option<Change>): (r: seq<User>)
    requires Fits(users, change)
    ensures |r| == |users|
    ensures UniqueUserIds(users) ==> UniqueUserIds(r)
  {
    if change.None? then users else users[change.value.index := change.value.user]
  }

  function BadRequest(message: string): ServiceError {
    AppError(BAD_REQUEST, message)
  }

  const USER_NOT_FOUND: ServiceError := AppError(NOT_FOUND, "User not found")

  /** The verified JWT payload's `otp`, or `None` when verification throws. */
  type OtpDecoder = string -> Option<string>

  /** bcrypt's comparison of a plain password with the stored one. */
  type PasswordCheck = (string, Option<string>) -> bool

  /** The user with this e-mail (`findOne({email})`): the first stored one. */
  function ByEmail(users: seq<User>, email: string): (r: Option<nat>)
    ensures r.Some? ==> r.value < |users| && users[r.value].email == email
    ensures r.Some? ==> forall j :: 0 <= j < r.value ==> users[j].email != email
    ensures r.None? ==> forall i :: 0 <= i < |users| ==> users[i].email != email
  {
    FindUserByEmail(users, email)
  }

  // ----- register -----

  /** The account `register` creates: a customer with the default language,
      active, unverified, holding the OTP token it was sent. */
  function NewAccount(id: Id, name: string, email: string, phone: Option<string>, password: string,
                      otpToken: string): User
  {
    User(id, name, email, phone, Customer, EN, true, Some(password), VerificationInfo(otpToken, false), None, None)
  }

  /** Some stored user already has this phone number (the sparse unique
      index on `phone` only covers users that have one). */
  predicate PhoneTaken(users: seq<User>, phone: string) {
    exists i :: 0 <= i < |users| && users[i].phone == Some(phone)
  }

  const NAME_REQUIRED: ServiceError := ValidationFailed("name", "Path `name` is required.")

  /** `register`: the field, match and duplicate-email checks of the
      controller, then what `User.create` itself refuses: a missing `name`
      (a required path) and a phone number already in use (E11000 on the
      unique `phone` index); otherwise the new account. */
  function RegisterStep(users: seq<User>, id: Id, phone: Option<string>, name: Option<string>,
                        email: Option<string>, password: Option<string>, confirmPassword: Option<string>,
                        otpToken: string): (r: Result<(User, Reply)>)
    ensures !Truthy(email) || !Truthy(password) || !Truthy(confirmPassword) ==>
      r == Err(BadRequest("Please fill in all fields"))
    ensures Truthy(email) && Truthy(password) && Truthy(confirmPassword) && password != confirmPassword ==>
      r == Err(BadRequest("Passwords do not match"))
    ensures Truthy(email) && Truthy(password) && password == confirmPassword && ByEmail(users, email.value).Some? ==>
      r == Err(BadRequest("Email already exists, please try another email"))
    ensures Truthy(email) && Truthy(password) && password == confirmPassword && ByEmail(users, email.value).None? &&
            !Truthy(name) ==>
      r == Err(NAME_REQUIRED)
    ensures Truthy(email) && Truthy(password) && password == confirmPassword && ByEmail(users, email.value).None? &&
            Truthy(name) && phone.Some? && PhoneTaken(users, phone.value) ==>
      r == Err(DuplicateKey("phone", phone.value))
    ensures r.Ok? <==>
      Truthy(email) && Truthy(password) && password == confirmPassword && ByEmail(users, email.value).None? &&
      Truthy(name) && !(phone.Some? && PhoneTaken(users, phone.value))
    ensures r.Ok? ==>
      r.value.0 == NewAccount(id, name.value, email.value, phone, password.value, otpToken) &&
      r.value.1 == Reply(CREATED, true, "User registered successfully. Please verify OTP sent to email.",
                         EmailData(email.value))
  {
    if !Truthy(email) || !Truthy(password) || !Truthy(confirmPassword) then Err(BadRequest("Please fill in all fields"))
    else if password != confirmPassword then Err(BadRequest("Passwords do not match"))
    else if ByEmail(users, email.value).Some? then Err(BadRequest("Email already exists, please try another email"))
    else if !Truthy(name) then Err(NAME_REQUIRED)
    else if phone.Some? && PhoneTaken(users, phone.value) then Err(DuplicateKey("phone", phone.value))
    else
      Ok((NewAccount(id, name.value, email.value, phone, password.value, otpToken),
          Reply(CREATED, true, "User registered successfully. Please verify OTP sent to email.", EmailData(email.value))))
  }

  /** `register`: the account is created unverified with an empty token and
      then saved with the OTP token, which is the state stored here. */
  method Register(db: Database, id: Id, phone: Option<string>, name: Option<string>, email: Option<string>,
                  password: Option<string>, confirmPassword: Option<string>, otpToken: string)
    returns (r: Result<Reply>)
    requires db.Valid() && forall i :: 0 <= i < |db.users| ==> db.users[i].id != id
    modifies db
    ensures db.Valid()
    ensures var step := RegisterStep(old(db.users), id, phone, name, email, password, confirmPassword, otpToken);
      (step.Err? ==> r == Err(step.error) && db.users == old(db.users)) &&
      (step.Ok? ==> r == Ok(step.value.1) && db.users == old(db.users) + [step.value.0])
    ensures db.addresses == old(db.addresses) && db.parcels == old(db.parcels) && db.history == old(db.history)
    ensures db.tracking == old(db.tracking) && db.audit == old(db.audit)
    ensures db.notificationLogs == old(db.notificationLogs) && db.notifications == old(db.notifications)
  {
    var step := RegisterStep(db.users, id, phone, name, email, password, confirmPassword, otpToken);
    if step.Err? {
      return Err(step.error);
    }
    var created := step.value.0.(verification := VerificationInfo("", false));
    db.users := db.users + [created];
    db.users := db.users[|db.users| - 1 := created.(verification := created.verification.(token := otpToken))];
    assert db.users == old(db.users) + [step.value.0];
    r := Ok(step.value.1);
  }

  // ----- verifyEmail -----

  /** `verifyEmail`. */
  function VerifyEmailStep(users: seq<User>, email: Option<string>, otp: Option<string>, decodeOtp: OtpDecoder)
    : (r: Result<Decision>)
    ensures !Truthy(email) || !Truthy(otp) ==> r == Err(BadRequest("Email and OTP are required"))
    ensures Truthy(email) && Truthy(otp) && ByEmail(users, email.value).None? ==> r == Err(USER_NOT_FOUND)
    ensures Truthy(email) && Truthy(otp) && ByEmail(users, email.value).Some? ==>
      (var i := ByEmail(users, email.value).value;
       var token := users[i].verification.token;
       (token == "" ==> r == Err(BadRequest("Verification token missing"))) &&
       (token != "" && decodeOtp(token).None? ==> r == Err(BadRequest("OTP expired or invalid"))) &&
       (token != "" && decodeOtp(token).Some? && decodeOtp(token) != otp ==> r == Err(BadRequest("Invalid OTP"))) &&
       (r.Ok? <==> token != "" && decodeOtp(token) == otp) &&
       (r.Ok? ==> r.value == Decision(Some(Change(i, users[i].(verification := VerificationInfo("", true)))),
                                      Reply(OK, true, "Email verified successfully", NoReplyData))))
    ensures r.Ok? ==> Fits(users, r.value.change) && r.value.change.Some?
  {
    if !Truthy(email) || !Truthy(otp) then Err(BadRequest("Email and OTP are required"))
    else match ByEmail(users, email.value)
      case None => Err(USER_NOT_FOUND)
      case Some(i) =>
        var token := users[i].verification.token;
        if token == "" then Err(BadRequest("Verification token missing"))
        else match decodeOtp(token)
          case None => Err(BadRequest("OTP expired or invalid"))
          case Some(decoded) =>
            if Some(decoded) != otp then Err(BadRequest("Invalid OTP"))
            else Ok(Decision(Some(Change(i, users[i].(verification := VerificationInfo("", true)))),
                             Reply(OK, true, "Email verified successfully", NoReplyData)))
  }

  /** Saves a decision's change (`user.save()`). */
  method Commit(db: Database, change: Option<Change>)
    requires db.Valid() && Fits(db.users, change)
    modifies db
    ensures db.Valid()
    ensures db.users == Applied(old(db.users), change)
    ensures db.addresses == old(db.addresses) && db.parcels == old(db.parcels) && db.history == old(db.history)
    ensures db.tracking == old(db.tracking) && db.audit == old(db.audit)
    ensures db.notificationLogs == old(db.notificationLogs) && db.notifications == old(db.notifications)
  {
    if change.Some? {
      db.users := db.users[change.value.index := change.value.user];
    }
  }

  method VerifyEmail(db: Database, email: Option<string>, otp: Option<string>, decodeOtp: OtpDecoder)
    returns (r: Result<Reply>)
    requires db.Valid()
    modifies db
    ensures db.Valid()
    ensures var d := VerifyEmailStep(old(db.users), email, otp, decodeOtp);
      (d.Err? ==> r == Err(d.error) && db.users == old(db.users)) &&
      (d.Ok? ==> r == Ok(d.value.reply) && db.users == Applied(old(db.users), d.value.change))
    ensures db.addresses == old(db.addresses) && db.parcels == old(db.parcels) && db.history == old(db.history)
    ensures db.tracking == old(db.tracking) && db.audit == old(db.audit)
    ensures db.notificationLogs == old(db.notificationLogs) && db.notifications == old(db.notifications)
  {
    var d := VerifyEmailStep(db.users, email, otp, decodeOtp);
    if d.Err? {
      return Err(d.error);
    }
    Commit(db, d.value.change);
    r := Ok(d.value.reply);
  }

  // ----- login -----

  /** `login`. An unverified account with the right password gets a fresh OTP
      token and a 403 reply, and no refresh token. */
  function LoginStep(users: seq<User>, email: Option<string>, password: Option<string>, matches: PasswordCheck,
                     otpToken: string, accessToken: string, refreshToken: string): (r: Result<Decision>)
    ensures !Truthy(email) || !Truthy(password) ==> r == Err(BadRequest("Email and password are required"))
    ensures Truthy(email) && Truthy(password) && ByEmail(users, email.value).None? ==> r == Err(USER_NOT_FOUND)
    ensures Truthy(email) && Truthy(password) && ByEmail(users, email.value).Some? ==>
      (var i := ByEmail(users, email.value).value;
       var u := users[i];
       var matched := Truthy(u.password) && matches(password.value, u.password);
       (!matched ==> r == Err(AppError(UNAUTHORIZED, "Invalid email or password"))) &&
       (matched && !u.verification.verified ==>
          r == Ok(Decision(Some(Change(i, u.(verification := u.verification.(token := otpToken)))),
                           Reply(FORBIDDEN, false, "Email is not verified. OTP sent again to your email.",
                                 EmailData(u.email))))) &&
       (matched && u.verification.verified ==>
          r == Ok(Decision(Some(Change(i, u.(refreshToken := Some(refreshToken)))),
                           Reply(OK, true, "User logged in successfully", LoginData(accessToken, u.role, u.id))))))
    ensures r.Ok? ==> Fits(users, r.value.change) && r.value.change.Some?
  {
    if !Truthy(email) || !Truthy(password) then Err(BadRequest("Email and password are required"))
    else match ByEmail(users, email.value)
      case None => Err(USER_NOT_FOUND)
      case Some(i) =>
        var u := users[i];
        if !(Truthy(u.password) && matches(password.value, u.password)) then
          Err(AppError(UNAUTHORIZED, "Invalid email or password"))
        else if !u.verification.verified then
          Ok(Decision(Some(Change(i, u.(verification := u.verification.(token := otpToken)))),
                      Reply(FORBIDDEN, false, "Email is not verified. OTP sent again to your email.", EmailData(u.email))))
        else
          Ok(Decision(Some(Change(i, u.(refreshToken := Some(refreshToken)))),
                      Reply(OK, true, "User logged in successfully", LoginData(accessToken, u.role, u.id))))
  }

  /** A login stores a refresh token only for a verified account, and then
      exactly the newly issued one. */
  lemma LoginIssuesOnlyWhenVerified(users: seq<User>, email: Option<string>, password: Option<string>,
                                    matches: PasswordCheck, otpToken: string, accessToken: string, refreshToken: string)
    requires LoginStep(users, email, password, matches, otpToken, accessToken, refreshToken).Ok?
    ensures var d := LoginStep(users, email, password, matches, otpToken, accessToken, refreshToken).value;
      var before := users[d.change.value.index];
      var after := d.change.value.user;
      (before.verification.verified ==> after.refreshToken == Some(refreshToken) && d.reply.success) &&
      (!before.verification.verified ==>
        after.refreshToken == before.refreshToken && !d.reply.success && d.reply.statusCode == FORBIDDEN)
  {
  }

  method Login(db: Database, email: Option<string>, password: Option<string>, matches: PasswordCheck,
               otpToken: string, accessToken: string, refreshToken: string) returns (r: Result<Reply>)
    requires db.Valid()
    modifies db
    ensures db.Valid()
    ensures var d := LoginStep(old(db.users), email, password, matches, otpToken, accessToken, refreshToken);
      (d.Err? ==> r == Err(d.error) && db.users == old(db.users)) &&
      (d.Ok? ==> r == Ok(d.value.reply) && db.users == Applied(old(db.users), d.value.change))
    ensures db.addresses == old(db.addresses) && db.parcels == old(db.parcels) && db.history == old(db.history)
    ensures db.tracking == old(db.tracking) && db.audit == old(db.audit)
    ensures db.notificationLogs == old(db.notificationLogs) && db.notifications == old(db.notifications)
  {
    var d := LoginStep(db.users, email, password, matches, otpToken, accessToken, refreshToken);
    if d.Err? {
      return Err(d.error);
    }
    Commit(db, d.value.change);
    r := Ok(d.value.reply);
  }

  // ----- forgetPassword / resetPassword -----

  /** `forgetPassword`: the reset OTP token is stored. */
  function ForgetPasswordStep(users: seq<User>, email: Option<string>, otpToken: string): (r: Result<Decision>)
    ensures !Truthy(email) ==> r == Err(BadRequest("Email is required"))
    ensures Truthy(email) && ByEmail(users, email.value).None? ==> r == Err(USER_NOT_FOUND)
    ensures r.Ok? <==> Truthy(email) && ByEmail(users, email.value).Some?
    ensures r.Ok? ==>
      (var i := ByEmail(users, email.value).value;
       r.value == Decision(Some(Change(i, users[i].(passwordResetToken := Some(otpToken)))),
                           Reply(OK, true, "OTP sent to your email successfully", NoReplyData)))
    ensures r.Ok? ==> Fits(users, r.value.change)
  {
    if !Truthy(email) then Err(BadRequest("Email is required"))
    else match ByEmail(users, email.value)
      case None => Err(USER_NOT_FOUND)
      case Some(i) =>
        Ok(Decision(Some(Change(i, users[i].(passwordResetToken := Some(otpToken)))),
                    Reply(OK, true, "OTP sent to your email successfully", NoReplyData)))
  }

  method ForgetPassword(db: Database, email: Option<string>, otpToken: string) returns (r: Result<Reply>)
    requires db.Valid()
    modifies db
    ensures db.Valid()
    ensures var d := ForgetPasswordStep(old(db.users), email, otpToken);
      (d.Err? ==> r == Err(d.error) && db.users == old(db.users)) &&
      (d.Ok? ==> r == Ok(d.value.reply) && db.users == Applied(old(db.users), d.value.change))
    ensures db.addresses == old(db.addresses) && db.parcels == old(db.parcels) && db.history == old(db.history)
    ensures db.tracking == old(db.tracking) && db.audit == old(db.audit)
    ensures db.notificationLogs == old(db.notificationLogs) && db.notifications == old(db.notifications)
  {
    var d := ForgetPasswordStep(db.users, email, otpToken);
    if d.Err? {
      return Err(d.error);
    }
    Commit(db, d.value.change);
    r := Ok(d.value.reply);
  }

  /** `resetPassword`: a stored reset token whose OTP matches is needed; the
      password is replaced and the reset token removed. */
  function ResetPasswordStep(users: seq<User>, email: Option<string>, otp: Option<string>, password: Option<string>,
                             decodeOtp: OtpDecoder): (r: Result<Decision>)
    ensures !Truthy(email) || !Truthy(otp) || !Truthy(password) ==>
      r == Err(BadRequest("Email, OTP and new password are required"))
    ensures Truthy(email) && Truthy(otp) && Truthy(password) && ByEmail(users, email.value).None? ==>
      r == Err(USER_NOT_FOUND)
    ensures Truthy(email) && Truthy(otp) && Truthy(password) && ByEmail(users, email.value).Some? ==>
      (var i := ByEmail(users, email.value).value;
       var reset := users[i].passwordResetToken;
       (!Truthy(reset) ==> r == Err(BadRequest("Reset token missing or expired"))) &&
       (Truthy(reset) && decodeOtp(reset.value).None? ==> r == Err(BadRequest("OTP expired or invalid"))) &&
       (Truthy(reset) && decodeOtp(reset.value).Some? && decodeOtp(reset.value) != otp ==>
          r == Err(BadRequest("Invalid OTP"))) &&
       (r.Ok? <==> Truthy(reset) && decodeOtp(reset.value) == otp) &&
       (r.Ok? ==> r.value == Decision(Some(Change(i, users[i].(password := password, passwordResetToken := None))),
                                      Reply(OK, true, "Password reset successfully", NoReplyData))))
    ensures r.Ok? ==> Fits(users, r.value.change) && r.value.change.Some?
  {
    if !Truthy(email) || !Truthy(otp) || !Truthy(password) then Err(BadRequest("Email, OTP and new password are required"))
    else match ByEmail(users, email.value)
      case None => Err(USER_NOT_FOUND)
      case Some(i) =>
        var reset := users[i].passwordResetToken;
        if !Truthy(reset) then Err(BadRequest("Reset token missing or expired"))
        else match decodeOtp(reset.value)
          case None => Err(BadRequest("OTP expired or invalid"))
          case Some(decoded) =>
            if Some(decoded) != otp then Err(BadRequest("Invalid OTP"))
            else Ok(Decision(Some(Change(i, users[i].(password := password, passwordResetToken := None))),
                             Reply(OK, true, "Password reset successfully", NoReplyData)))
  }

  method ResetPassword(db: Database, email: Option<string>, otp: Option<string>, password: Option<string>,
                       decodeOtp: OtpDecoder) returns (r: Result<Reply>)
    requires db.Valid()
    modifies db
    ensures db.Valid()
    ensures var d := ResetPasswordStep(old(db.users), email, otp, password, decodeOtp);
      (d.Err? ==> r == Err(d.error) && db.users == old(db.users)) &&
      (d.Ok? ==> r == Ok(d.value.reply) && db.users == Applied(old(db.users), d.value.change))
    ensures db.addresses == old(db.addresses) && db.parcels == old(db.parcels) && db.history == old(db.history)
    ensures db.tracking == old(db.tracking) && db.audit == old(db.audit)
    ensures db.notificationLogs == old(db.notificationLogs) && db.notifications == old(db.notifications)
  {
    var d := ResetPasswordStep(db.users, email, otp, password, decodeOtp);
    if d.Err? {
      return Err(d.error);
    }
    Commit(db, d.value.change);
    r := Ok(d.value.reply);
  }

  // ----- changePassword -----

  /** `changePassword` for the authenticated user `userId`: the three input
      checks come before any lookup, then the user, then the old password. */
  function ChangePasswordStep(users: seq<User>, userId: Option<Id>, oldPassword: Option<string>,
                              newPassword: Option<string>, confirmPassword: Option<string>, matches: PasswordCheck)
    : (r: Result<Decision>)
    ensures !Truthy(oldPassword) || !Truthy(newPassword) || !Truthy(confirmPassword) ==>
      r == Err(BadRequest("Old password, new password and confirm password are required"))
    ensures Truthy(oldPassword) && Truthy(newPassword) && Truthy(confirmPassword) && newPassword != confirmPassword ==>
      r == Err(BadRequest("Passwords do not match"))
    ensures Truthy(oldPassword) && Truthy(newPassword) && newPassword == confirmPassword && oldPassword == newPassword ==>
      r == Err(BadRequest("New password must be different from old password"))
    ensures Truthy(oldPassword) && Truthy(newPassword) && newPassword == confirmPassword && oldPassword != newPassword ==>
      (var found := if userId.Some? then FindUser(users, userId.value) else None;
       (found.None? ==> r == Err(USER_NOT_FOUND)) &&
       (found.Some? && !matches(oldPassword.value, users[found.value].password) ==>
          r == Err(AppError(UNAUTHORIZED, "Current password wrong"))) &&
       (found.Some? && matches(oldPassword.value, users[found.value].password) ==>
          r == Ok(Decision(Some(Change(found.value, users[found.value].(password := newPassword))),
                           Reply(OK, true, "Password changed successfully", NoReplyData)))))
    ensures r.Ok? ==> Fits(users, r.value.change)
  {
    if !Truthy(oldPassword) || !Truthy(newPassword) || !Truthy(confirmPassword) then
      Err(BadRequest("Old password, new password and confirm password are required"))
    else if newPassword != confirmPassword then Err(BadRequest("Passwords do not match"))
    else if oldPassword == newPassword then Err(BadRequest("New password must be different from old password"))
    else
      var found := if userId.Some? then FindUser(users, userId.value) else None;
      match found
      case None => Err(USER_NOT_FOUND)
      case Some(i) =>
        if !matches(oldPassword.value, users[i].password) then Err(AppError(UNAUTHORIZED, "Current password wrong"))
        else Ok(Decision(Some(Change(i, users[i].(password := newPassword))),
                         Reply(OK, true, "Password changed successfully", NoReplyData)))
  }

  /** The input checks do not look at the stored users: with the same request
      fields, any two collections get the same rejection. */
  lemma ChangePasswordChecksFirst(users1: seq<User>, users2: seq<User>, userId: Option<Id>,
                                  oldPassword: Option<string>, newPassword: Option<string>,
                                  confirmPassword: Option<string>, matches: PasswordCheck)
    requires !Truthy(oldPassword) || !Truthy(newPassword) || !Truthy(confirmPassword) ||
             newPassword != confirmPassword || oldPassword == newPassword
    ensures ChangePasswordStep(users1, userId, oldPassword, newPassword, confirmPassword, matches) ==
            ChangePasswordStep(users2, userId, oldPassword, newPassword, confirmPassword, matches)
    ensures ChangePasswordStep(users1, userId, oldPassword, newPassword, confirmPassword, matches).Err?
  {
  }

  method ChangePassword(db: Database, userId: Option<Id>, oldPassword: Option<string>, newPassword: Option<string>,
                        confirmPassword: Option<string>, matches: PasswordCheck) returns (r: Result<Reply>)
    requires db.Valid()
    modifies db
    ensures db.Valid()
    ensures var d := ChangePasswordStep(old(db.users), userId, oldPassword, newPassword, confirmPassword, matches);
      (d.Err? ==> r == Err(d.error) && db.users == old(db.users)) &&
      (d.Ok? ==> r == Ok(d.value.reply) && db.users == Applied(old(db.users), d.value.change))
    ensures db.addresses == old(db.addresses) && db.parcels == old(db.parcels) && db.history == old(db.history)
    ensures db.tracking == old(db.tracking) && db.audit == old(db.audit)
    ensures db.notificationLogs == old(db.notificationLogs) && db.notifications == old(db.notifications)
  {
    var d := ChangePasswordStep(db.users, userId, oldPassword, newPassword, confirmPassword, matches);
    if d.Err? {
      return Err(d.error);
    }
    Commit(db, d.value.change);
    r := Ok(d.value.reply);
  }

  // ----- refreshToken / logout -----

  /** The user a refresh token verifies to (`decoded._id`), or `None` when
      verification throws. */
  type RefreshDecoder = string -> Option<Id>

  /** `refreshToken`: the cookie's token, else the body's; the stored token
      must equal it, and is then rotated. */
  function RefreshStep(users: seq<User>, cookieToken: Option<string>, bodyToken: Option<string>,
                       decode: RefreshDecoder, accessToken: string, newRefresh: string): (r: Result<Decision>)
    ensures var token := if Truthy(cookieToken) then cookieToken else bodyToken;
      (!Truthy(token) ==> r == Err(BadRequest("Refresh token is required"))) &&
      (Truthy(token) && decode(token.value).None? ==> r == Err(TokenRejected)) &&
      (Truthy(token) && decode(token.value).Some? ==>
        (var found := FindUser(users, decode(token.value).value);
         (r.Ok? <==> found.Some? && users[found.value].refreshToken == token) &&
         (r.Err? ==> r.error == AppError(UNAUTHORIZED, "Invalid refresh token")) &&
         (r.Ok? ==> r.value == Decision(Some(Change(found.value, users[found.value].(refreshToken := Some(newRefresh)))),
                                        Reply(OK, true, "Token refreshed successfully", AccessData(accessToken))))))
    ensures r.Ok? ==> Fits(users, r.value.change)
  {
    var token := if Truthy(cookieToken) then cookieToken else bodyToken;
    if !Truthy(token) then Err(BadRequest("Refresh token is required"))
    else match decode(token.value)
      case None => Err(TokenRejected)
      case Some(id) =>
        match FindUser(users, id)
        case None => Err(AppError(UNAUTHORIZED, "Invalid refresh token"))
        case Some(i) =>
          if users[i].refreshToken != token then Err(AppError(UNAUTHORIZED, "Invalid refresh token"))
          else Ok(Decision(Some(Change(i, users[i].(refreshToken := Some(newRefresh)))),
                           Reply(OK, true, "Token refreshed successfully", AccessData(accessToken))))
  }

  /** Rotation: once a token has been exchanged for a different one, the old
      token is refused. */
  lemma RefreshRotates(users: seq<User>, cookieToken: Option<string>, decode: RefreshDecoder,
                       accessToken: string, newRefresh: string, access2: string, refresh2: string)
    requires UniqueUserIds(users)
    requires RefreshStep(users, cookieToken, None, decode, accessToken, newRefresh).Ok?
    requires cookieToken != Some(newRefresh)
    ensures var d := RefreshStep(users, cookieToken, None, decode, accessToken, newRefresh).value;
      RefreshStep(Applied(users, d.change), cookieToken, None, decode, access2, refresh2).Err?
  {
    var d := RefreshStep(users, cookieToken, None, decode, accessToken, newRefresh).value;
    var i := d.change.value.index;
    var after := Applied(users, d.change);
    var token := if Truthy(cookieToken) then cookieToken else None;
    FindUserAfterSave(users, i, d.change.value.user, decode(token.value).value);
  }

  /** Saving a user under its own id keeps every id lookup where it was. */
  lemma FindUserAfterSave(users: seq<User>, i: nat, u: User, id: Id)
    requires UniqueUserIds(users) && i < |users| && u.id == users[i].id
    ensures FindUser(users[i := u], id) == FindUser(users, id)
  {
    var p := (x: User) => x.id == id;
    var before := FindUser(users, id);
    var after := FindUser(users[i := u], id);
    assert forall j :: 0 <= j < |users| ==> (p(users[i := u][j]) <==> p(users[j]));
  }

  /** `logout`: with an authenticated user, its stored refresh token becomes
      "" (when the user exists); the reply is the same either way. */
  function LogoutStep(users: seq<User>, userId: Option<Id>): (d: Decision)
    ensures Fits(users, d.change)
    ensures d.reply == Reply(OK, true, "Logged out successfully", NoReplyData)
    ensures d.change.Some? <==> Truthy(userId) && FindUser(users, userId.value).Some?
    ensures d.change.Some? ==>
      d.change.value == Change(FindUser(users, userId.value).value,
                               users[FindUser(users, userId.value).value].(refreshToken := Some("")))
  {
    var reply := Reply(OK, true, "Logged out successfully", NoReplyData);
    if !Truthy(userId) then Decision(None, reply)
    else match FindUser(users, userId.value)
      case None => Decision(None, reply)
      case Some(i) => Decision(Some(Change(i, users[i].(refreshToken := Some("")))), reply)
  }

  /** After logout no refresh succeeds for that user, whatever token is shown. */
  lemma LogoutRevokes(users: seq<User>, userId: Id, cookieToken: Option<string>, bodyToken: Option<string>,
                      decode: RefreshDecoder, accessToken: string, newRefresh: string)
    requires UniqueUserIds(users) && userId != ""
    requires var token := if Truthy(cookieToken) then cookieToken else bodyToken;
      Truthy(token) ==> decode(token.value) == Some(userId)
    ensures RefreshStep(Applied(users, LogoutStep(users, Some(userId)).change), cookieToken, bodyToken, decode,
                        accessToken, newRefresh).Err?
  {
    var d := LogoutStep(users, Some(userId));
    if d.change.Some? {
      FindUserAfterSave(users, d.change.value.index, d.change.value.user, userId);
    }
  }

  method Logout(db: Database, userId: Option<Id>) returns (r: Reply)
    requires db.Valid()
    modifies db
    ensures db.Valid()
    ensures db.users == Applied(old(db.users), LogoutStep(old(db.users), userId).change)
    ensures r == Reply(OK, true, "Logged out successfully", NoReplyData)
    ensures db.addresses == old(db.addresses) && db.parcels == old(db.parcels) && db.history == old(db.history)
    ensures db.tracking == old(db.tracking) && db.audit == old(db.audit)
    ensures db.notificationLogs == old(db.notificationLogs) && db.notifications == old(db.notifications)
  {
    var d := LogoutStep(db.users, userId);
    Commit(db, d.change);
    r := d.reply;
  }

  method RefreshToken(db: Database, cookieToken: Option<string>, bodyToken: Option<string>, decode: RefreshDecoder,
                      accessToken: string, newRefresh: string) returns (r: Result<Reply>)
    requires db.Valid()
    modifies db
    ensures db.Valid()
    ensures var d := RefreshStep(old(db.users), cookieToken, bodyToken, decode, accessToken, newRefresh);
      (d.Err? ==> r == Err(d.error) && db.users == old(db.users)) &&
      (d.Ok? ==> r == Ok(d.value.reply) && db.users == Applied(old(db.users), d.value.change))
    ensures db.addresses == old(db.addresses) && db.parcels == old(db.parcels) && db.history == old(db.history)
    ensures db.tracking == old(db.tracking) && db.audit == old(db.audit)
    ensures db.notificationLogs == old(db.notificationLogs) && db.notifications == old(db.notifications)
  {
    var d := RefreshStep(db.users, cookieToken, bodyToken, decode, accessToken, newRefresh);
    if d.Err? {
      return Err(d.error);
    }
    Commit(db, d.value.change);
    r := Ok(d.value.reply);
  }

  // ----- the account lifecycle across operations -----

  /** A fresh e-mail is found at the end once the new account is added. */
  lemma ByEmailOfNew(users: seq<User>, u: User)
    requires ByEmail(users, u.email).None?
    ensures ByEmail(users + [u], u.email) == Some(|users|)
  {
    var p := (x: User) => x.email == u.email;
    var r := FindFirst(users + [u], p);
    assert p((users + [u])[|users|]);
    assert forall j :: 0 <= j < |users| ==> !p((users + [u])[j]);
  }

  /** Registering and then entering the OTP that the emailed token carries
      verifies the account and clears its token; the same OTP entered again
      is refused because the token is gone. */
  lemma RegisterThenVerify(users: seq<User>, id: Id, phone: Option<string>, name: Option<string>, email: string,
                           password: string, otpToken: string, otp: string, decodeOtp: OtpDecoder)
    requires email != "" && password != "" && otp != "" && otpToken != ""
    requires ByEmail(users, email).None? && Truthy(name) && !(phone.Some? && PhoneTaken(users, phone.value))
    requires decodeOtp(otpToken) == Some(otp)
    ensures var reg := RegisterStep(users, id, phone, name, Some(email), Some(password), Some(password), otpToken);
      reg.Ok? &&
      (var users1 := users + [reg.value.0];
       var v := VerifyEmailStep(users1, Some(email), Some(otp), decodeOtp);
       v.Ok? && v.value.change.value.user.verification == VerificationInfo("", true) &&
       VerifyEmailStep(Applied(users1, v.value.change), Some(email), Some(otp), decodeOtp) ==
         Err(BadRequest("Verification token missing")))
  {
    var reg := RegisterStep(users, id, phone, name, Some(email), Some(password), Some(password), otpToken);
    var u := NewAccount(id, name.value, email, phone, password, otpToken);
    assert reg.value.0 == u;
    ByEmailOfNew(users, u);
    var users1 := users + [u];
    assert users1[|users|].verification.token == otpToken;
    var w := u.(verification := VerificationInfo("", true));
    var v := VerifyEmailStep(users1, Some(email), Some(otp), decodeOtp);
    assert v.value.change == Some(Change(|users|, w));
    var users2 := Applied(users1, v.value.change);
    assert users2 == users + [w];
    ByEmailOfNew(users, w);
  }
}
