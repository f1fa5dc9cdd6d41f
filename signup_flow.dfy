/** The two-step sign-up across both tiers: the page verifies the OTP alone
    (`POST /verify-otp-only`), keeps it, and sends it again with the profile
    (`POST /verify-otp`). The back end accepts the second call without the
    OTP, which the first call consumed, only while the address is inside
    its five-minute grace window; after that the profile form's failure
    sends the user back to OTP entry. An `HTTPException` reaches the browser
    as a response with the error's status and the body `{"detail": ...}`. */
module SignupFlow {
  import opened Util
  import opened Json
  import opened Models
  import opened EmailOtp
  import opened Security
  import opened AuthApi
  import ApiClient
  import opened ErrorMessages
  import opened AuthPage

  /** The axios error a raised `HTTPException` becomes in the browser. */
  function Delivered(err: HttpError, statusText: string, message: string, code: Option<string>): ApiClient.AxiosError {
    ApiClient.AxiosError(message, code, Some(ApiClient.Response(err.status, statusText, Obj([Field("detail", Str(err.detail))]))))
  }

  /** A string `detail` reaches a page handler's message chain unchanged. */
  lemma DetailReachesHandler(err: HttpError, statusText: string, message: string, code: Option<string>,
                             fallback: string, stringify: Stringify)
    requires err.status != 422 && err.detail != ""
    ensures HandlerMessage(ApiClient.OnResponseError(Delivered(err, statusText, message, code), stringify).rejected,
                           fallback, stringify) == Some(Str(err.detail))
  {
    var e := Delivered(err, statusText, message, code);
    LookupSnoc([], Field("detail", Str(err.detail)), "detail");
    assert ApiClient.Detail(e.response.value) == Str(err.detail);
    assert ApiClient.ExtractErrorMessage(e, stringify) == Some(Str(err.detail));
    HandlerReadsExtracted(e, fallback, stringify);
  }

  /** The back end's "verify again" message is one the profile handler reads as a lapsed OTP. */
  lemma AgainMessageLapsed()
    ensures OtpLapsed(Str(InvalidOtpAgain)) == Some(true)
  {
    AgainMentionsExpiredOtp();
  }

  /** After the grace window the profile call is refused with the "verify
      again" error, whatever the address's users, because the OTP is gone;
      the page then returns to OTP entry and forgets the kept code. */
  lemma GraceLapseReturnsToOtpEntry(
    b: Backend, email: string, otp: string, t1: int, t2: int, req: OtpVerifyRequest, crypto: Crypto,
    f: Form, call: Request, statusText: string, message: string, code: Option<string>, stringify: Stringify)
    requires VerifyOtpOnlyOutcome(b, email, otp, t1).result.Ok?
    requires t2 >= t1 + GraceSeconds
    requires req.email == email && req.otp == otp
    requires req.password == req.confirmPassword && |req.password| >= 6
    requires BcryptDomain(crypto.hashpw)
    ensures var b1 := VerifyOtpOnlyOutcome(b, email, otp, t1).after;
      VerifyOtpOutcome(b1, req, t2, crypto) == Outcome(b1, Err(HttpError(400, InvalidOtpAgain)))
    ensures ProfileRejected(f, call,
              HandlerMessage(ApiClient.OnResponseError(Delivered(HttpError(400, InvalidOtpAgain), statusText, message, code), stringify).rejected,
                             ProfileFallback, stringify)) ==
            Transition(f.(step := OtpVerify, verifiedOtp := ""), Called(call, Failure(Str(OtpExpiredToast))))
  {
    var b1 := VerifyOtpOnlyOutcome(b, email, otp, t1).after;
    assert email !in b1.otps;
    assert b1.verified[email] == t1 + GraceSeconds;
    assert !RecentlyVerified(b1.verified, email, t2);
    DetailReachesHandler(HttpError(400, InvalidOtpAgain), statusText, message, code, ProfileFallback, stringify);
    AgainMessageLapsed();
  }

  /** Inside the grace window the profile call creates the account without
      looking at the OTP it carries, and closes the window. */
  lemma GraceWindowCreatesAccount(
    b: Backend, email: string, otp: string, t1: int, t2: int, req: OtpVerifyRequest, crypto: Crypto)
    requires VerifyOtpOnlyOutcome(b, email, otp, t1).result.Ok?
    requires t2 < t1 + GraceSeconds
    requires req.email == email
    requires req.password == req.confirmPassword && |req.password| >= 6
    requires BcryptDomain(crypto.hashpw)
    ensures var b1 := VerifyOtpOnlyOutcome(b, email, otp, t1).after;
      var o := VerifyOtpOutcome(b1, req, t2, crypto);
      o.result.Ok? && o.result.value.email == email &&
      o.after.users == b.users + [CreatedUser(b.users, req, crypto)] &&
      email !in o.after.verified && o.after.otps == b1.otps
  {
    var b1 := VerifyOtpOnlyOutcome(b, email, otp, t1).after;
    assert RecentlyVerified(b1.verified, email, t2);
    assert b1.users == b.users;
  }
}
