/** The authentication router (`backend/app/api/v1/auth.py`): seven
    endpoints, each a sequence of guards that raise an HTTP error, over the
    user table, the OTP table and the `verified_emails` grace map. Each
    endpoint is a method over the database and the OTP store, specified by a
    function from the state before to the state after and the response. The
    clock, the random OTP digits, the SMTP outcome, bcrypt and the JWT
    encoder are inputs. */
module AuthApi {
  import opened Util
  import opened Json
  import opened Models
  import opened EmailOtp
  import opened Security

  /** Seconds a verified address may complete its profile without the OTP. */
  const GraceSeconds: int := 300

  const AlreadyRegistered: string := "Email already registered"
  const Expired: string := "expired"
  const Otp: string := "OTP"
  /** "Invalid or expired OTP", written around the two words the front end looks for. */
  const InvalidOtp: string := "Invalid or " + Expired + " " + Otp
  const InvalidOtpAgain: string := InvalidOtp + ". Please verify your OTP again."

  /** The second refusal names both the lapse and the code, which the sign-up page looks for. */
  lemma AgainMentionsExpiredOtp()
    ensures Contains(InvalidOtpAgain, "expired") && Contains(InvalidOtpAgain, "OTP")
  {
    var tail := ". Please verify your OTP again.";
    ContainsMiddle("Invalid or ", Expired, " " + Otp);
    AppendAssoc("Invalid or " + Expired, " ", Otp);
    ContainsInPrefix(InvalidOtp, tail, Expired);
    ContainsSelf(Otp);
    ContainsInSuffix("Invalid or " + Expired + " ", Otp, Otp);
    ContainsInPrefix(InvalidOtp, tail, Otp);
  }

  const PasswordsDiffer: string := "Passwords do not match"
  const PasswordTooShort: string := "Password must be at least 6 characters long"
  const BadCredentials: string := "Invalid email or password"
  const Inactive: string := "Account is inactive"
  const EmailRequired: string := "Email is required"
  const UserNotFound: string := "User not found"
  const SignupSent: string := "OTP sent to your email. Please check your inbox, spam folder, and Promotions tab (Gmail)."
  const OtpVerified: string := "OTP verified successfully. Please complete your profile."
  const ResentMessage: string := "OTP resent to your email. Please check your inbox, spam folder, and Promotions tab (Gmail)."
  const ResetIfExists: string :=
    "If the email exists, a password reset OTP has been sent. Please check your inbox, spam folder, and Promotions tab (Gmail)."
  const ResetSent: string := "Password reset OTP sent to your email. Please check your inbox, spam folder, and Promotions tab (Gmail)."
  const ResetDone: string := "Password reset successfully. You can now login with your new password."

  /** The state the endpoints read and write. */
  datatype Backend = Backend(users: seq<User>, otps: OtpTable, verified: map<string, int>)

  /** The JSON dictionaries the endpoints return: a message and sometimes the address. */
  datatype Reply = Reply(message: string, email: Option<string>)

  datatype TokenResponse = TokenResponse(
    accessToken: string, tokenType: string, userId: int, email: string, isVerified: bool, profileCompleted: bool)

  datatype Outcome<T> = Outcome(after: Backend, result: Result<T>)

  datatype OtpVerifyRequest = OtpVerifyRequest(email: string, otp: string, fullName: string, password: string, confirmPassword: string)
  datatype ResetPasswordRequest = ResetPasswordRequest(email: string, otp: string, newPassword: string, confirmPassword: string)

  /** bcrypt's salt and functions, and the JWT encoder. */
  datatype Crypto = Crypto(salt: Salt, hashpw: HashPw, checkpw: CheckPw, encode: JwtEncode)

  function Bad(status: int, detail: string): HttpError { HttpError(status, detail) }

  /** The 500 an endpoint raises when sending fails, wrapping the sender's message. */
  function SendFailure(prefix: string, message: string): HttpError {
    HttpError(500, prefix + AsciiIgnore(message) + ". Please check your email configuration.")
  }

  /** The token `verify-otp` and `login` issue: subject and user id, thirty minutes. */
  function TokenFor(u: User, now: int, crypto: Crypto): string {
    CreateAccessToken(map["sub" := Str(u.email), "user_id" := Num(u.id)], Some(AccessTokenExpireMinutes * 60), now, crypto.encode)
  }

  // ---------------------------------------------------------------------------
  // The endpoints as state transitions

  /** `POST /signup`. */
  function SignupOutcome(b: Backend, email: string, draws: seq<nat>, now: int, settings: SmtpSettings, smtp: SmtpOutcome)
    : Outcome<Reply>
    requires ValidDraws(draws)
  {
    if UserByEmail(b.users, email).Some? then Outcome(b, Err(Bad(400, AlreadyRegistered)))
    else
      var otp := GenerateOtp(OtpLength, draws);
      var b' := b.(otps := AfterSend(b.otps, email, otp, now));
      match SendOutcome(otp, settings, smtp)
      case Sent(_) => Outcome(b', Ok(Reply(SignupSent, Some(email))))
      case SendError(m) => Outcome(b', Err(SendFailure("Failed to send OTP email: ", m)))
  }

  /** `POST /verify-otp-only`. */
  function VerifyOtpOnlyOutcome(b: Backend, email: string, otp: string, now: int): Outcome<Reply> {
    var v := Verify(b.otps, email, otp, now);
    var b' := b.(otps := v.otps);
    if !v.ok then Outcome(b', Err(Bad(400, InvalidOtp)))
    else if UserByEmail(b.users, email).Some? then Outcome(b', Err(Bad(400, AlreadyRegistered)))
    else Outcome(b'.(verified := b.verified[email := now + GraceSeconds]), Ok(Reply(OtpVerified, Some(email))))
  }

  /** `is_recently_verified`. */
  predicate RecentlyVerified(verified: map<string, int>, email: string, now: int) {
    email in verified && verified[email] > now
  }

  /** The user `POST /verify-otp` creates. */
  function CreatedUser(users: seq<User>, req: OtpVerifyRequest, crypto: Crypto): User
    requires BcryptDomain(crypto.hashpw)
  {
    NewUser(NextId(UserIds(users)), req.email, req.fullName, GetPasswordHash(req.password, crypto.salt, crypto.hashpw))
  }

  /** `POST /verify-otp`: creates the account, with the OTP checked again
      unless the address is inside its grace window. */
  function VerifyOtpOutcome(b: Backend, req: OtpVerifyRequest, now: int, crypto: Crypto): Outcome<TokenResponse>
    requires BcryptDomain(crypto.hashpw)
  {
    if req.password != req.confirmPassword then Outcome(b, Err(Bad(400, PasswordsDiffer)))
    else if |req.password| < 6 then Outcome(b, Err(Bad(400, PasswordTooShort)))
    else
      var recent := RecentlyVerified(b.verified, req.email, now);
      var v := if recent then Verdict(true, b.otps) else if req.otp == "" then Verdict(false, b.otps)
               else Verify(b.otps, req.email, req.otp, now);
      var b1 := b.(otps := v.otps);
      if !v.ok then Outcome(b1, Err(Bad(400, InvalidOtpAgain)))
      else if UserByEmail(b.users, req.email).Some? then Outcome(b1, Err(Bad(400, AlreadyRegistered)))
      else
        var u := CreatedUser(b.users, req, crypto);
        Outcome(b1.(users := b.users + [u], verified := b.verified - {req.email}),
                Ok(TokenResponse(TokenFor(u, now, crypto), "bearer", u.id, u.email, u.isVerified, u.profileCompleted)))
  }

  /** `POST /login`: reads only. */
  function LoginOutcome(b: Backend, email: string, password: string, now: int, crypto: Crypto): Result<TokenResponse> {
    match UserByEmail(b.users, email)
    case None => Err(Bad(401, BadCredentials))
    case Some(k) =>
      var u := b.users[k];
      if u.hashedPassword.None? || u.hashedPassword.value == "" then Err(Bad(401, BadCredentials))
      else if !VerifyPassword(password, u.hashedPassword.value, crypto.checkpw) then Err(Bad(401, BadCredentials))
      else if !u.isActive then Err(Bad(403, Inactive))
      else Ok(TokenResponse(TokenFor(u, now, crypto), "bearer", u.id, u.email, u.isVerified, u.profileCompleted))
  }

  /** `POST /resend-otp`; `email` is `request.get("email")`. */
  function ResendOtpOutcome(b: Backend, email: Option<string>, draws: seq<nat>, now: int, settings: SmtpSettings, smtp: SmtpOutcome)
    : Outcome<Reply>
    requires ValidDraws(draws)
  {
    if email.None? || email.value == "" then Outcome(b, Err(Bad(400, EmailRequired)))
    else
      var otp := GenerateOtp(OtpLength, draws);
      var b' := b.(otps := AfterSend(b.otps, email.value, otp, now));
      match SendOutcome(otp, settings, smtp)
      case Sent(_) => Outcome(b', Ok(Reply(ResentMessage, None)))
      case SendError(m) => Outcome(b', Err(SendFailure("Failed to resend OTP email: ", m)))
  }

  /** `POST /forgot-password`. */
  function ForgotPasswordOutcome(b: Backend, email: string, draws: seq<nat>, now: int, settings: SmtpSettings, smtp: SmtpOutcome)
    : Outcome<Reply>
    requires ValidDraws(draws)
  {
    if UserByEmail(b.users, email).None? then Outcome(b, Ok(Reply(ResetIfExists, None)))
    else
      var otp := GenerateOtp(OtpLength, draws);
      var b' := b.(otps := AfterSend(b.otps, email, otp, now));
      match SendOutcome(otp, settings, smtp)
      case Sent(_) => Outcome(b', Ok(Reply(ResetSent, None)))
      case SendError(m) => Outcome(b', Err(SendFailure("Failed to send password reset OTP: ", m)))
  }

  /** `POST /reset-password`. */
  function ResetPasswordOutcome(b: Backend, req: ResetPasswordRequest, now: int, crypto: Crypto): Outcome<Reply>
    requires BcryptDomain(crypto.hashpw)
  {
    if req.newPassword != req.confirmPassword then Outcome(b, Err(Bad(400, PasswordsDiffer)))
    else if |req.newPassword| < 6 then Outcome(b, Err(Bad(400, PasswordTooShort)))
    else
      var v := Verify(b.otps, req.email, req.otp, now);
      var b1 := b.(otps := v.otps);
      if !v.ok then Outcome(b1, Err(Bad(400, InvalidOtp)))
      else match UserByEmail(b.users, req.email)
        case None => Outcome(b1, Err(Bad(404, UserNotFound)))
        case Some(k) =>
          var h := GetPasswordHash(req.newPassword, crypto.salt, crypto.hashpw);
          Outcome(b1.(users := b.users[k := b.users[k].(hashedPassword := Some(h))]), Ok(Reply(ResetDone, None)))
  }

  // ---------------------------------------------------------------------------
  // Properties

  /** A registered address is refused before anything is stored. */
  lemma SignupRegisteredUntouched(b: Backend, email: string, draws: seq<nat>, now: int, settings: SmtpSettings, smtp: SmtpOutcome)
    requires ValidDraws(draws) && UserByEmail(b.users, email).Some?
    ensures SignupOutcome(b, email, draws, now, settings, smtp) == Outcome(b, Err(Bad(400, AlreadyRegistered)))
  {
  }

  /** Otherwise an OTP entry expiring in sixty seconds exists afterwards even
      when sending failed, and the endpoint succeeds iff sending did. */
  lemma SignupStoresBeforeSending(b: Backend, email: string, draws: seq<nat>, now: int, settings: SmtpSettings, smtp: SmtpOutcome)
    requires ValidDraws(draws) && UserByEmail(b.users, email).None?
    ensures var o := SignupOutcome(b, email, draws, now, settings, smtp);
      email in o.after.otps && o.after.otps[email] == OtpEntry(GenerateOtp(OtpLength, draws), now + OtpLifetime) &&
      o.after.users == b.users && o.after.verified == b.verified &&
      (o.result.Ok? <==> SmtpConfigured(settings) && smtp.Delivered?)
  {
  }

  /** The OTP is checked before registration; only a success opens the grace window. */
  lemma VerifyOtpOnlyOrder(b: Backend, email: string, otp: string, now: int)
    ensures var o := VerifyOtpOnlyOutcome(b, email, otp, now);
      (!Verify(b.otps, email, otp, now).ok ==> o.result == Err(Bad(400, InvalidOtp)) && o.after.verified == b.verified) &&
      (o.result.Ok? <==> Verify(b.otps, email, otp, now).ok && UserByEmail(b.users, email).None?) &&
      (o.result.Ok? ==> o.after.verified == b.verified[email := now + GraceSeconds]) &&
      (o.result.Err? ==> o.after.verified == b.verified) &&
      o.after.users == b.users
  {
  }

  /** The order of `verify-otp`'s checks: mismatch, then length, then the OTP
      (unless recently verified), then registration. */
  lemma VerifyOtpOrder(b: Backend, req: OtpVerifyRequest, now: int, crypto: Crypto)
    requires BcryptDomain(crypto.hashpw)
    ensures var o := VerifyOtpOutcome(b, req, now, crypto);
      (req.password != req.confirmPassword ==> o == Outcome(b, Err(Bad(400, PasswordsDiffer)))) &&
      (req.password == req.confirmPassword && |req.password| < 6 ==> o == Outcome(b, Err(Bad(400, PasswordTooShort)))) &&
      ((req.password == req.confirmPassword && |req.password| >= 6 && !RecentlyVerified(b.verified, req.email, now) &&
        !Verify(b.otps, req.email, req.otp, now).ok) ==>
        o.result == Err(Bad(400, InvalidOtpAgain))) &&
      ((req.password == req.confirmPassword && |req.password| >= 6 && RecentlyVerified(b.verified, req.email, now) &&
        UserByEmail(b.users, req.email).Some?) ==>
        o == Outcome(b, Err(Bad(400, AlreadyRegistered))))
  {
  }

  /** A successful `verify-otp` adds exactly one verified user, ends the grace
      window, and answers with that user's id. */
  lemma VerifyOtpCreatesOneUser(b: Backend, req: OtpVerifyRequest, now: int, crypto: Crypto)
    requires BcryptDomain(crypto.hashpw)
    requires VerifyOtpOutcome(b, req, now, crypto).result.Ok?
    ensures var o := VerifyOtpOutcome(b, req, now, crypto);
      |o.after.users| == |b.users| + 1 && o.after.users[..|b.users|] == b.users &&
      o.after.users[|b.users|].email == req.email && o.after.users[|b.users|].isVerified &&
      (forall i :: 0 <= i < |b.users| ==> b.users[i].id != o.after.users[|b.users|].id) &&
      req.email !in o.after.verified &&
      o.result.value.userId == o.after.users[|b.users|].id && o.result.value.isVerified &&
      UserByEmail(b.users, req.email).None?
  {
  }

  /** `login` answers 401 for an unknown user, a missing hash or a wrong
      password, and checks the account is active only after the password. */
  lemma LoginRefusals(b: Backend, email: string, password: string, now: int, crypto: Crypto)
    ensures UserByEmail(b.users, email).None? ==> LoginOutcome(b, email, password, now, crypto) == Err(Bad(401, BadCredentials))
    ensures UserByEmail(b.users, email).Some? ==>
      var u := b.users[UserByEmail(b.users, email).value];
      (u.hashedPassword.Some? && u.hashedPassword.value != "" && !VerifyPassword(password, u.hashedPassword.value, crypto.checkpw) ==>
        LoginOutcome(b, email, password, now, crypto) == Err(Bad(401, BadCredentials))) &&
      (LoginOutcome(b, email, password, now, crypto) == Err(Bad(403, Inactive)) ==>
        VerifyPassword(password, u.hashedPassword.value, crypto.checkpw) && !u.isActive) &&
      (LoginOutcome(b, email, password, now, crypto).Ok? <==>
        u.hashedPassword.Some? && u.hashedPassword.value != "" &&
        VerifyPassword(password, u.hashedPassword.value, crypto.checkpw) && u.isActive)
  {
  }

  /** An unknown address gets the success-shaped answer and no OTP. */
  lemma ForgotPasswordUnknownEmail(b: Backend, email: string, draws: seq<nat>, now: int, settings: SmtpSettings, smtp: SmtpOutcome)
    requires ValidDraws(draws) && UserByEmail(b.users, email).None?
    ensures ForgotPasswordOutcome(b, email, draws, now, settings, smtp) == Outcome(b, Ok(Reply(ResetIfExists, None)))
  {
  }

  /** Without an address `resend-otp` answers 400 and stores nothing. */
  lemma ResendWithoutEmail(b: Backend, draws: seq<nat>, now: int, settings: SmtpSettings, smtp: SmtpOutcome)
    requires ValidDraws(draws)
    ensures ResendOtpOutcome(b, None, draws, now, settings, smtp) == Outcome(b, Err(Bad(400, EmailRequired)))
    ensures ResendOtpOutcome(b, Some(""), draws, now, settings, smtp) == Outcome(b, Err(Bad(400, EmailRequired)))
  {
  }

  /** `reset-password` checks mismatch, length, OTP, then the user; a valid
      OTP is spent even when the user is then not found. */
  lemma ResetPasswordOrder(b: Backend, req: ResetPasswordRequest, now: int, crypto: Crypto)
    requires BcryptDomain(crypto.hashpw)
    ensures var o := ResetPasswordOutcome(b, req, now, crypto);
      (req.newPassword != req.confirmPassword ==> o == Outcome(b, Err(Bad(400, PasswordsDiffer)))) &&
      (req.newPassword == req.confirmPassword && |req.newPassword| < 6 ==> o == Outcome(b, Err(Bad(400, PasswordTooShort)))) &&
      ((req.newPassword == req.confirmPassword && |req.newPassword| >= 6 && Verify(b.otps, req.email, req.otp, now).ok &&
        UserByEmail(b.users, req.email).None?) ==>
        o.result == Err(Bad(404, UserNotFound)) && req.email !in o.after.otps && o.after.users == b.users)
  {
  }

  /** A successful reset changes only that user's password hash. */
  lemma ResetChangesOnlyHash(b: Backend, req: ResetPasswordRequest, now: int, crypto: Crypto)
    requires BcryptDomain(crypto.hashpw)
    requires ResetPasswordOutcome(b, req, now, crypto).result.Ok?
    ensures var o := ResetPasswordOutcome(b, req, now, crypto);
      var k := UserByEmail(b.users, req.email).value;
      |o.after.users| == |b.users| &&
      (forall i :: 0 <= i < |b.users| && i != k ==> o.after.users[i] == b.users[i]) &&
      o.after.users[k] == b.users[k].(hashedPassword := o.after.users[k].hashedPassword) &&
      o.after.verified == b.verified
  {
  }

  // ---------------------------------------------------------------------------
  // The endpoints as they run

  function Snapshot(db: Db, store: OtpStore): Backend
    reads db, store
  {
    Backend(db.users, store.otps, store.verifiedEmails)
  }

  method Signup(db: Db, store: OtpStore, email: string, draws: seq<nat>, now: int, settings: SmtpSettings, smtp: SmtpOutcome)
    returns (r: Result<Reply>)
    requires ValidDraws(draws)
    modifies store
    ensures Outcome(Snapshot(db, store), r) == SignupOutcome(old(Snapshot(db, store)), email, draws, now, settings, smtp)
  {
    if UserByEmail(db.users, email).Some? {
      return Err(Bad(400, AlreadyRegistered));
    }
    var sent := store.SendOtpEmail(email, draws, now, settings, smtp);
    match sent {
      case Sent(_) => r := Ok(Reply(SignupSent, Some(email)));
      case SendError(m) => r := Err(SendFailure("Failed to send OTP email: ", m));
    }
  }

  method VerifyOtpOnly(db: Db, store: OtpStore, email: string, otp: string, now: int) returns (r: Result<Reply>)
    modifies store
    ensures Outcome(Snapshot(db, store), r) == VerifyOtpOnlyOutcome(old(Snapshot(db, store)), email, otp, now)
  {
    var ok := store.VerifyOtp(email, otp, now);
    if !ok {
      return Err(Bad(400, InvalidOtp));
    }
    if UserByEmail(db.users, email).Some? {
      return Err(Bad(400, AlreadyRegistered));
    }
    store.verifiedEmails := store.verifiedEmails[email := now + GraceSeconds];
    return Ok(Reply(OtpVerified, Some(email)));
  }

  method VerifyOtpEndpoint(db: Db, store: OtpStore, req: OtpVerifyRequest, now: int, crypto: Crypto)
    returns (r: Result<TokenResponse>)
    requires BcryptDomain(crypto.hashpw)
    modifies db, store
    ensures Outcome(Snapshot(db, store), r) == VerifyOtpOutcome(old(Snapshot(db, store)), req, now, crypto)
  {
    ghost var b := Snapshot(db, store);
    if req.password != req.confirmPassword {
      return Err(Bad(400, PasswordsDiffer));
    }
    if |req.password| < 6 {
      return Err(Bad(400, PasswordTooShort));
    }
    var recent := req.email in store.verifiedEmails && store.verifiedEmails[req.email] > now;
    if !recent {
      if req.otp == "" {
        return Err(Bad(400, InvalidOtpAgain));
      }
      var ok := store.VerifyOtp(req.email, req.otp, now);
      if !ok {
        return Err(Bad(400, InvalidOtpAgain));
      }
    }
    assert store.otps == (if recent then b.otps else Verify(b.otps, req.email, req.otp, now).otps);
    if UserByEmail(db.users, req.email).Some? {
      return Err(Bad(400, AlreadyRegistered));
    }
    if req.email in store.verifiedEmails {
      store.verifiedEmails := store.verifiedEmails - {req.email};
    }
    assert store.verifiedEmails == b.verified - {req.email};
    var user := CreatedUser(db.users, req, crypto);
    db.users := db.users + [user];
    r := Ok(TokenResponse(TokenFor(user, now, crypto), "bearer", user.id, user.email, user.isVerified, user.profileCompleted));
  }

  method Login(db: Db, email: string, password: string, now: int, crypto: Crypto) returns (r: Result<TokenResponse>)
    ensures r == LoginOutcome(Backend(db.users, map[], map[]), email, password, now, crypto)
  {
    var k := UserByEmail(db.users, email);
    if k.None? || db.users[k.value].hashedPassword.None? || db.users[k.value].hashedPassword.value == "" {
      return Err(Bad(401, BadCredentials));
    }
    var user := db.users[k.value];
    if !VerifyPassword(password, user.hashedPassword.value, crypto.checkpw) {
      return Err(Bad(401, BadCredentials));
    }
    if !user.isActive {
      return Err(Bad(403, Inactive));
    }
    return Ok(TokenResponse(TokenFor(user, now, crypto), "bearer", user.id, user.email, user.isVerified, user.profileCompleted));
  }

  method ResendOtp(db: Db, store: OtpStore, email: Option<string>, draws: seq<nat>, now: int, settings: SmtpSettings, smtp: SmtpOutcome)
    returns (r: Result<Reply>)
    requires ValidDraws(draws)
    modifies store
    ensures Outcome(Snapshot(db, store), r) == ResendOtpOutcome(old(Snapshot(db, store)), email, draws, now, settings, smtp)
  {
    if email.None? || email.value == "" {
      return Err(Bad(400, EmailRequired));
    }
    var sent := store.SendOtpEmail(email.value, draws, now, settings, smtp);
    match sent {
      case Sent(_) => r := Ok(Reply(ResentMessage, None));
      case SendError(m) => r := Err(SendFailure("Failed to resend OTP email: ", m));
    }
  }

  method ForgotPassword(db: Db, store: OtpStore, email: string, draws: seq<nat>, now: int, settings: SmtpSettings, smtp: SmtpOutcome)
    returns (r: Result<Reply>)
    requires ValidDraws(draws)
    modifies store
    ensures Outcome(Snapshot(db, store), r) == ForgotPasswordOutcome(old(Snapshot(db, store)), email, draws, now, settings, smtp)
  {
    if UserByEmail(db.users, email).None? {
      return Ok(Reply(ResetIfExists, None));
    }
    var sent := store.SendOtpEmail(email, draws, now, settings, smtp);
    match sent {
      case Sent(_) => r := Ok(Reply(ResetSent, None));
      case SendError(m) => r := Err(SendFailure("Failed to send password reset OTP: ", m));
    }
  }

  method ResetPassword(db: Db, store: OtpStore, req: ResetPasswordRequest, now: int, crypto: Crypto) returns (r: Result<Reply>)
    requires BcryptDomain(crypto.hashpw)
    modifies db, store
    ensures Outcome(Snapshot(db, store), r) == ResetPasswordOutcome(old(Snapshot(db, store)), req, now, crypto)
  {
    if req.newPassword != req.confirmPassword {
      return Err(Bad(400, PasswordsDiffer));
    }
    if |req.newPassword| < 6 {
      return Err(Bad(400, PasswordTooShort));
    }
    var ok := store.VerifyOtp(req.email, req.otp, now);
    if !ok {
      return Err(Bad(400, InvalidOtp));
    }
    var k := UserByEmail(db.users, req.email);
    if k.None? {
      return Err(Bad(404, UserNotFound));
    }
    var h := GetPasswordHash(req.newPassword, crypto.salt, crypto.hashpw);
    db.users := db.users[k.value := db.users[k.value].(hashedPassword := Some(h))];
    return Ok(Reply(ResetDone, None));
  }
}
