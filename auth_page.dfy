/** The sign-up, login and password-reset page (`frontend/src/pages/AuthPage.tsx`):
    a six-step wizard whose component state every handler updates in turn.
    Each handler is a method of `Wizard` specified by a transition on the
    state as a value; the answer of the back-end call a handler makes, and
    the health probe's answer, are inputs. A handler's visible effects (the
    call it makes, the toast it shows, where it navigates, the session it
    stores) are returned as an `Effect`. */
module AuthPage {
  import opened Util
  import opened Json
  import AuthStore
  import opened ErrorMessages
  import opened AdminApi

  datatype Step = Signup | OtpVerify | CompleteProfile | Login | ForgotPassword | ResetPassword

  /** The component state (the three loading flags are not modelled). */
  datatype Form = Form(
    step: Step,
    email: string,
    fullName: string,
    otp: string,
    password: string,
    confirmPassword: string,
    emailSuggestions: seq<string>,
    showSuggestions: bool,
    verifiedOtp: string)

  const Start: Form := Form(Signup, "", "", "", "", "", [], false, "")

  /** The back-end calls the page makes, with their request bodies. */
  datatype Request =
    | SignupCall(email: string)
    | VerifyOtpOnlyCall(email: string, otp: string)
    | VerifyOtpCall(email: string, otp: string, fullName: string, password: string, confirmPassword: string)
    | LoginCall(email: string, password: string)
    | ForgotPasswordCall(email: string)
    | ResetPasswordCall(email: string, otp: string, newPassword: string, confirmPassword: string)
    | ResendOtpCall(email: string)

  /** The token response `verify-otp` and `login` resolve with. */
  datatype Token = Token(accessToken: string, userId: int, email: string, profileCompleted: bool)

  /** How a call settled: resolved with a value, or rejected with any value. */
  datatype Reply<T> = Resolved(value: T) | Rejected(error: Js)

  /** A toast, or `Raised` when the handler itself throws before showing one. */
  datatype Toast = NoToast | Success(text: string) | Failure(shown: Js) | Raised

  datatype SetAuthCall = SetAuthCall(user: AuthStore.UserRecord, token: string)

  datatype Effect = Effect(request: Option<Request>, toast: Toast, navigate: Option<string>, setAuth: Option<SetAuthCall>)

  datatype Transition = Transition(form: Form, effect: Effect)

  const InvalidEmailToast: string := "Please enter a valid email address"
  const InvalidOtpToast: string := "Please enter a valid 6-digit OTP"
  const ShortNameToast: string := "Please enter your full name (at least 2 characters)"
  const MismatchToast: string := "Passwords do not match"
  const ShortPasswordToast: string := "Password must be at least 6 characters long"
  const OtpExpiredToast: string := "OTP verification expired. Please verify your OTP again."
  const RefreshToast: string := "Connection issue. Please refresh the page (Ctrl + Shift + R)"
  const UnreachableToast: string := "Unable to connect to server. Please check if the backend is running."
  const ProfileFallback: string := "Failed to create account"
  const OtpSentToast: string := "OTP sent to your email! Check your inbox and spam folder."
  const SignupFallback: string := "Failed to send OTP. Please check your connection and try again."
  const OtpVerifiedToast: string := "OTP verified! Please complete your profile."
  const BadCredentialsToast: string := "Invalid email or password. Please check your credentials."
  const LoggedInToast: string := "Logged in successfully!"
  const ResetOtpSentToast: string := "Password reset OTP sent to your email! Check your inbox, spam folder, and Promotions tab (Gmail)."
  const ForgotFallback: string := "Failed to send reset OTP"
  const ResetDoneToast: string := "Password reset successfully! You can now login with your new password."
  const ResetFallback: string := "Failed to reset password"
  const ResentToast: string := "OTP resent to your email!"
  const ResendFailedToast: string := "Failed to resend OTP"
  const VerifyOtpFallback: string := "Invalid or expired OTP"
  /** What follows the name in the welcome toast. */
  const CreatedTail: string := "! Account created successfully!"

  const OtpBoxes: nat := 6

  function Refuse(f: Form, text: string): Transition {
    Transition(f, Effect(None, Failure(Str(text)), None, None))
  }

  function Called(r: Request, t: Toast): Effect {
    Effect(Some(r), t, None, None)
  }

  function ToastOf(m: Option<Js>): Toast {
    if m.None? then Raised else Failure(m.value)
  }

  // ---------------------------------------------------------------------------
  // E-mail suggestions

  const EmailDomains: seq<string> := ["@gmail.com", "@outlook.com", "@yahoo.com", "@hotmail.com"]

  /** The domains starting with `prefix`, in list order, each after `local`. */
  function Suggest(local: string, prefix: string, ds: seq<string>): (r: seq<string>)
    ensures |r| <= |ds|
    ensures forall s :: s in r ==> exists d :: d in ds && StartsWith(d, prefix) && s == local + d
    ensures forall d :: d in ds && StartsWith(d, prefix) ==> local + d in r
  {
    if ds == [] then []
    else
      var rest := Suggest(local, prefix, ds[1..]);
      assert forall d :: d in ds[1..] ==> d in ds;
      assert forall d :: d in ds ==> d == ds[0] || d in ds[1..];
      if StartsWith(ds[0], prefix) then [local + ds[0]] + rest else rest
  }

  /** The local part and the domain part `value.split('@')` gives, when `value` has an '@'. */
  function Parts(value: string): Option<(string, string)> {
    match IndexOf(value, '@')
    case None => None
    case Some(k) => Some((value[..k], Split(value[k + 1..], '@')[0]))
  }

  /** The suggestions `handleEmailChange` computes. */
  function EmailSuggestions(value: string): (r: seq<string>)
    ensures '@' !in value ==> r == []
    ensures Parts(value).Some? && Parts(value).value.1 == "" ==> r == []
  {
    match Parts(value)
    case None => []
    case Some((local, domain)) => if domain == "" then [] else Suggest(local, "@" + Lower(domain), EmailDomains)
  }

  /** Suggestions are exactly the listed domains starting with '@' and the
      lower-cased domain part, each after the local part; there are none
      without an '@' or with an empty domain part. */
  lemma SuggestionsSpec(value: string, s: string)
    ensures s in EmailSuggestions(value) <==>
      (Parts(value).Some? && Parts(value).value.1 != "" &&
       exists d :: d in EmailDomains && StartsWith(d, "@" + Lower(Parts(value).value.1)) && s == Parts(value).value.0 + d)
  {
    if Parts(value).Some? && Parts(value).value.1 != "" {
      var local, domain := Parts(value).value.0, Parts(value).value.1;
      assert EmailSuggestions(value) == Suggest(local, "@" + Lower(domain), EmailDomains);
    }
  }

  /** Every suggestion keeps what precedes the '@' and ends in a listed domain. */
  lemma SuggestionShape(value: string, i: nat)
    requires i < |EmailSuggestions(value)|
    ensures Parts(value).Some?
    ensures exists d :: d in EmailDomains && EmailSuggestions(value)[i] == Parts(value).value.0 + d
  {
    assert EmailSuggestions(value)[i] in EmailSuggestions(value);
  }

  /** `handleEmailChange(value)`. */
  function AfterEmailChange(f: Form, value: string): Form {
    var r := EmailSuggestions(value);
    f.(email := value, emailSuggestions := r, showSuggestions := |r| > 0)
  }

  /** `handleEmailSuggestionClick(s)`. */
  function AfterSuggestionClick(f: Form, s: string): Form {
    f.(email := s, showSuggestions := false)
  }

  /** `handleKeyDown` for Tab as written: it requires the address to have no '@'. */
  function AfterTabAsWritten(f: Form): Form {
    if |f.emailSuggestions| > 0 && !Contains(f.email, "@") then AfterSuggestionClick(f, f.emailSuggestions[0]) else f
  }

  /** `handleKeyDown` for Tab as evidently intended: accept the first suggestion shown. */
  function AfterTab(f: Form): Form {
    if |f.emailSuggestions| > 0 then AfterSuggestionClick(f, f.emailSuggestions[0]) else f
  }

  /** The Tab key as written never completes what was typed: suggestions only
      exist for an address with an '@', which the key handler excludes. */
  lemma TabNeverCompletesTypedEmail(f: Form, value: string)
    ensures AfterTabAsWritten(AfterEmailChange(f, value)) == AfterEmailChange(f, value)
  {
    ContainsChar(value, '@');
  }

  /** An address with one '@' splits at it. */
  lemma PartsOf(local: string, domain: string)
    requires '@' !in local && '@' !in domain
    ensures Parts(local + "@" + domain) == Some((local, domain))
  {
    var value := local + "@" + domain;
    var k := IndexOf(value, '@');
    assert value[|local|] == '@';
    assert k == Some(|local|);
    assert value[..|local|] == local;
    assert value[|local| + 1..] == domain;
    SplitHead(domain, '@');
  }

  lemma JohnParts()
    ensures Parts("john@gm") == Some(("john", "gm"))
  {
    PartsOf("john", "gm");
    assert "john" + "@" + "gm" == "john@gm";
  }

  lemma GmSuggested()
    ensures "john" + EmailDomains[0] in EmailSuggestions("john@gm")
  {
    JohnParts();
    var gm := Lower("gm");
    assert gm[0] == 'g' && gm[1] == 'm';
    var prefix := "@" + gm;
    assert prefix == "@gm";
    assert EmailSuggestions("john@gm") == Suggest("john", prefix, EmailDomains);
    var d := EmailDomains[0];
    assert d in EmailDomains;
    assert StartsWith(d, prefix);
  }

  /** A concrete case: "john@gm" shows "john@gmail.com", and Tab leaves "john@gm". */
  lemma TabIgnoresShownSuggestion(f: Form)
    ensures AfterEmailChange(f, "john@gm").showSuggestions
    ensures AfterTabAsWritten(AfterEmailChange(f, "john@gm")).email == "john@gm"
  {
    GmSuggested();
    TabNeverCompletesTypedEmail(f, "john@gm");
  }

  /** The corrected key handler completes a typed address to its first suggestion. */
  lemma TabCompletesTypedEmail(f: Form, value: string)
    requires |EmailSuggestions(value)| > 0
    ensures AfterTab(AfterEmailChange(f, value)).email == EmailSuggestions(value)[0]
    ensures !AfterTab(AfterEmailChange(f, value)).showSuggestions
    ensures exists d :: d in EmailDomains && AfterTab(AfterEmailChange(f, value)).email == Parts(value).value.0 + d
  {
    SuggestionShape(value, 0);
  }

  // ---------------------------------------------------------------------------
  // OTP inputs

  /** `s.split('')` for a string of BMP characters. */
  function Chars(s: string): (r: seq<string>)
    ensures |r| == |s| && forall i :: 0 <= i < |s| ==> r[i] == [s[i]]
  {
    seq(|s|, i requires 0 <= i < |s| => [s[i]])
  }

  lemma {:induction false} FlattenChars(s: string)
    ensures Flatten(Chars(s)) == s
    decreases |s|
  {
    if s != [] {
      assert Chars(s)[..|s| - 1] == Chars(s[..|s| - 1]);
      FlattenChars(s[..|s| - 1]);
      assert s == s[..|s| - 1] + [s[|s| - 1]];
    }
  }

  lemma {:induction false} FlattenEmpties(n: nat)
    ensures Flatten(seq(n, _ => "")) == ""
  {
    if n > 0 {
      assert seq(n, _ => "")[..n - 1] == seq(n - 1, _ => "");
      FlattenEmpties(n - 1);
    }
  }

  lemma {:induction false} FlattenDigits(ss: seq<string>)
    requires forall i :: 0 <= i < |ss| ==> AllDigits(ss[i])
    ensures AllDigits(Flatten(ss))
  {
    if ss != [] {
      FlattenDigits(ss[..|ss| - 1]);
    }
  }

  /** The pieces after `newOtp[index] = digits`: an index past the end leaves holes, which join as ''. */
  function BoxPieces(otp: string, index: nat, digits: string): seq<string> {
    var parts := Chars(otp);
    if index < |parts| then parts[index := digits] else parts + seq(index - |parts|, _ => "") + [digits]
  }

  /** The value the OTP box at `index` stores when its input becomes `value`. */
  function AfterBoxInput(otp: string, index: nat, value: string): (r: string)
    requires index < OtpBoxes
    ensures |r| <= OtpBoxes
  {
    Take(Flatten(BoxPieces(otp, index, DigitsOnly(value))), OtpBoxes)
  }

  lemma FlattenOne(d: string)
    ensures Flatten([d]) == d
  {
    assert [d][..0] == [];
  }

  /** Typing in a filled box replaces that box's digit by the digits typed. */
  lemma BoxInputFilled(otp: string, index: nat, value: string)
    requires index < OtpBoxes && index < |otp|
    ensures AfterBoxInput(otp, index, value) == Take(otp[..index] + DigitsOnly(value) + otp[index + 1..], OtpBoxes)
  {
    var d := DigitsOnly(value);
    assert BoxPieces(otp, index, d) == Chars(otp[..index]) + [d] + Chars(otp[index + 1..]);
    FlattenAppend(Chars(otp[..index]) + [d], Chars(otp[index + 1..]));
    FlattenAppend(Chars(otp[..index]), [d]);
    FlattenOne(d);
    FlattenChars(otp[..index]);
    FlattenChars(otp[index + 1..]);
  }

  /** Typing in a box past the end appends, whichever box it was. */
  lemma BoxInputPast(otp: string, index: nat, value: string)
    requires index < OtpBoxes && index >= |otp|
    ensures AfterBoxInput(otp, index, value) == Take(otp + DigitsOnly(value), OtpBoxes)
  {
    var d := DigitsOnly(value);
    var holes := seq(index - |otp|, _ => "");
    assert BoxPieces(otp, index, d) == Chars(otp) + holes + [d];
    FlattenEmpties(index - |otp|);
    FlattenChars(otp);
    FlattenThree(Chars(otp), holes, d, otp, "");
    assert otp + "" + d == otp + d;
  }

  /** Joining the pieces of two runs and one more piece. */
  lemma FlattenThree(a: seq<string>, b: seq<string>, d: string, x: string, y: string)
    requires Flatten(a) == x && Flatten(b) == y
    ensures Flatten(a + b + [d]) == x + y + d
  {
    FlattenAppend(a + b, [d]);
    FlattenAppend(a, b);
    FlattenOne(d);
  }

  /** The OTP stays at most six digits. */
  lemma BoxInputDigits(otp: string, index: nat, value: string)
    requires index < OtpBoxes && AllDigits(otp)
    ensures AllDigits(AfterBoxInput(otp, index, value)) && |AfterBoxInput(otp, index, value)| <= OtpBoxes
  {
    var pieces := BoxPieces(otp, index, DigitsOnly(value));
    forall i | 0 <= i < |pieces| ensures AllDigits(pieces[i]) { }
    FlattenDigits(pieces);
  }

  /** The reset form's OTP field: digits only, at most six. */
  function ResetOtpInput(value: string): (r: string)
    ensures AllDigits(r) && |r| <= OtpBoxes
    ensures |r| <= |DigitsOnly(value)| && r == DigitsOnly(value)[..|r|]
  {
    Take(DigitsOnly(value), OtpBoxes)
  }

  // ---------------------------------------------------------------------------
  // Submissions

  /** The address test the sign-up, login and forgot-password forms apply. */
  predicate EmailLooksValid(email: string) {
    email != "" && Contains(email, "@")
  }

  /** `handleSignup`. */
  function AfterSignup(f: Form, reply: Reply<()>, stringify: Stringify): Transition {
    if !EmailLooksValid(f.email) then Refuse(f, InvalidEmailToast)
    else
      var call := SignupCall(f.email);
      match reply
      case Resolved(_) =>
        Transition(f.(step := OtpVerify), Called(call, Success(OtpSentToast)))
      case Rejected(e) =>
        Transition(f, Called(call, ToastOf(HandlerMessage(e, SignupFallback, stringify))))
  }

  /** `handleVerifyOTPOnly`. */
  function AfterVerifyOtpOnly(f: Form, reply: Reply<()>, stringify: Stringify): Transition {
    if f.otp == "" || Utf16Length(f.otp) != 6 then Refuse(f, InvalidOtpToast)
    else
      var call := VerifyOtpOnlyCall(f.email, f.otp);
      match reply
      case Resolved(_) =>
        Transition(f.(verifiedOtp := f.otp, step := CompleteProfile, otp := ""),
                   Called(call, Success(OtpVerifiedToast)))
      case Rejected(e) =>
        Transition(f, Called(call, ToastOf(HandlerMessage(e, VerifyOtpFallback, stringify))))
  }

  /** The user record both successful sign-in paths store. */
  function UserRecord(t: Token, fullName: string): AuthStore.UserRecord {
    map["id" := Num(t.userId), "email" := Str(t.email), "full_name" := Str(fullName), "profile_completed" := Bool(t.profileCompleted)]
  }

  /** Whether a profile failure means the OTP check lapsed: `None` when
      `includes` itself raises (a message that is neither string nor list). */
  function OtpLapsed(m: Js): Option<bool> {
    match Includes(m, "OTP")
    case None => None
    case Some(hasOtp) => if !hasOtp then Some(false) else Includes(m, "expired")
  }

  /** The profile form's checks, in order: a name of at least two UTF-16
      units once trimmed, equal passwords, a password of at least six. */
  function ProfileRefusal(f: Form): Option<string> {
    if f.fullName == "" || Utf16Length(Trim(f.fullName)) < 2 then Some(ShortNameToast)
    else if f.password != f.confirmPassword then Some(MismatchToast)
    else if Utf16Length(f.password) < 6 then Some(ShortPasswordToast)
    else None
  }

  /** The profile handler's `catch`, given the message it computed. */
  function ProfileRejected(f: Form, call: Request, m: Option<Js>): Transition {
    match m
    case None => Transition(f, Called(call, Raised))
    case Some(msg) =>
      match OtpLapsed(msg)
      case None => Transition(f, Called(call, Raised))
      case Some(lapsed) =>
        if lapsed then Transition(f.(step := OtpVerify, verifiedOtp := ""), Called(call, Failure(Str(OtpExpiredToast))))
        else Transition(f, Called(call, Failure(msg)))
  }

  /** `handleCompleteProfile`. */
  function AfterCompleteProfile(f: Form, reply: Reply<Token>, stringify: Stringify): Transition {
    if ProfileRefusal(f).Some? then Refuse(f, ProfileRefusal(f).value)
    else
      var name := Trim(f.fullName);
      var call := VerifyOtpCall(f.email, f.verifiedOtp, name, f.password, f.confirmPassword);
      match reply
      case Resolved(t) =>
        Transition(f.(verifiedOtp := ""),
                   Effect(Some(call), Success("Welcome, " + name + CreatedTail), Some("/dashboard"),
                          Some(SetAuthCall(UserRecord(t, name), t.accessToken))))
      case Rejected(e) => ProfileRejected(f, call, HandlerMessage(e, ProfileFallback, stringify))
  }

  /** `error.response?.data?.detail || error.message || fallback`; `None` when
      `error` is `null` or `undefined`, whose `.response` raises. */
  function ReportedMessage(error: Js, fallback: string): Option<Js> {
    if Nullish(error) then None
    else if Truthy(DetailOf(error)) then Some(DetailOf(error))
    else if Truthy(Prop(error, "message")) then Some(Prop(error, "message"))
    else Some(Str(fallback))
  }

  /** Ordered substring rules: the toast of the first one the message
      includes; `Some(None)` when none does, `None` when `includes` raises. */
  function FirstRule(m: Js, rules: seq<(string, string)>): Option<Option<string>> {
    if rules == [] then Some(None)
    else match Includes(m, rules[0].0)
      case None => None
      case Some(hit) => if hit then Some(Some(rules[0].1)) else FirstRule(m, rules[1..])
  }

  /** `error.response?.status === 0 || error.message?.includes('Network')`. */
  function WantsProbe(error: Js): Option<bool>
    requires !Nullish(error)
  {
    if OptMember(Prop(error, "response"), "status") == Num(0) then Some(true)
    else if Nullish(Prop(error, "message")) then Some(false)
    else Includes(Prop(error, "message"), "Network")
  }

  function ProbeToast(health: Health): string {
    if health == Healthy then RefreshToast else UnreachableToast
  }

  /** The toast the login, forgot-password and reset-password handlers show
      for a failure: the first matching rule, then (for login) any 401, then
      the probe for a network-looking error, else the message itself. */
  function FailureToast(error: Js, fallback: string, rules: seq<(string, string)>, check401: bool, health: Health): Toast {
    match ReportedMessage(error, fallback)
    case None => Raised
    case Some(m) =>
      match FirstRule(m, rules)
      case None => Raised
      case Some(Some(t)) => Failure(Str(t))
      case Some(None) =>
        if check401 && OptMember(Prop(error, "response"), "status") == Num(401) then
          Failure(Str(BadCredentialsToast))
        else match WantsProbe(error)
          case None => Raised
          case Some(probe) => if probe then Failure(Str(ProbeToast(health))) else Failure(m)
  }

  const LoginRules: seq<(string, string)> := [
    ("Invalid email or password", "Invalid email or password. Please check your credentials and try again."),
    ("inactive", "Your account is inactive. Please contact support.")]
  const ForgotRules: seq<(string, string)> := [
    ("SMTP", "Email service is not configured. Please contact the administrator."),
    ("email configuration", "Email service is not configured. Please contact the administrator.")]
  const ResetRules: seq<(string, string)> := [
    ("Invalid or expired OTP", "Invalid or expired OTP. Please request a new password reset."),
    ("not found", "User not found. Please check your email address.")]

  /** `handleLogin`. */
  function AfterLogin(f: Form, reply: Reply<Token>, health: Health): Transition {
    if !EmailLooksValid(f.email) then Refuse(f, InvalidEmailToast)
    else if f.password == "" || Utf16Length(f.password) < 6 then Refuse(f, ShortPasswordToast)
    else
      var call := LoginCall(f.email, f.password);
      match reply
      case Resolved(t) =>
        Transition(f, Effect(Some(call), Success(LoggedInToast), Some("/dashboard"),
                             Some(SetAuthCall(UserRecord(t, Split(t.email, '@')[0]), t.accessToken))))
      case Rejected(e) =>
        Transition(f, Called(call, FailureToast(e, "Invalid credentials", LoginRules, true, health)))
  }

  /** `handleForgotPassword`. */
  function AfterForgotPassword(f: Form, reply: Reply<()>, health: Health): Transition {
    if !EmailLooksValid(f.email) then Refuse(f, InvalidEmailToast)
    else
      var call := ForgotPasswordCall(f.email);
      match reply
      case Resolved(_) =>
        Transition(f.(step := ResetPassword), Called(call,
          Success(ResetOtpSentToast)))
      case Rejected(e) =>
        Transition(f, Called(call, FailureToast(e, ForgotFallback, ForgotRules, false, health)))
  }

  /** `handleResetPassword`. */
  function AfterResetPassword(f: Form, reply: Reply<()>, health: Health): Transition {
    if f.otp == "" || Utf16Length(f.otp) != 6 then Refuse(f, InvalidOtpToast)
    else if f.password != f.confirmPassword then Refuse(f, MismatchToast)
    else if Utf16Length(f.password) < 6 then Refuse(f, ShortPasswordToast)
    else
      var call := ResetPasswordCall(f.email, f.otp, f.password, f.confirmPassword);
      match reply
      case Resolved(_) =>
        Transition(f.(step := Login, password := "", confirmPassword := "", otp := ""),
                   Called(call, Success(ResetDoneToast)))
      case Rejected(e) =>
        Transition(f, Called(call, FailureToast(e, ResetFallback, ResetRules, false, health)))
  }

  /** `handleResendOTP`: two fixed toasts, no state change. */
  function AfterResendOtp(f: Form, reply: Reply<()>): Transition {
    Transition(f, Called(ResendOtpCall(f.email),
      if reply.Resolved? then Success(ResentToast) else Failure(Str(ResendFailedToast))))
  }

  // ---------------------------------------------------------------------------
  // Properties of the submissions

  /** No back-end call is made for an empty address or one without '@'. */
  lemma NoCallWithoutValidEmail(f: Form, r0: Reply<()>, r1: Reply<Token>, health: Health, stringify: Stringify)
    requires !EmailLooksValid(f.email)
    ensures AfterSignup(f, r0, stringify) == Refuse(f, InvalidEmailToast)
    ensures AfterLogin(f, r1, health) == Refuse(f, InvalidEmailToast)
    ensures AfterForgotPassword(f, r0, health) == Refuse(f, InvalidEmailToast)
  {
  }

  /** Sign-up success moves to OTP entry; forgot-password success to the reset
      form; both keep every other field, and failures keep the step. */
  lemma EmailStepsAdvance(f: Form, r: Reply<()>, health: Health, stringify: Stringify)
    requires EmailLooksValid(f.email)
    ensures AfterSignup(f, r, stringify).form == if r.Resolved? then f.(step := OtpVerify) else f
    ensures AfterSignup(f, r, stringify).effect.request == Some(SignupCall(f.email))
    ensures AfterForgotPassword(f, r, health).form == if r.Resolved? then f.(step := ResetPassword) else f
    ensures AfterForgotPassword(f, r, health).effect.request == Some(ForgotPasswordCall(f.email))
  {
  }

  /** OTP submission needs exactly six characters; success keeps the code
      for the profile step and clears the input. */
  lemma VerifyOtpOnlySpec(f: Form, r: Reply<()>, stringify: Stringify)
    ensures Utf16Length(f.otp) != 6 ==> AfterVerifyOtpOnly(f, r, stringify) == Refuse(f, InvalidOtpToast)
    ensures Utf16Length(f.otp) == 6 && r.Resolved? ==>
      var g := AfterVerifyOtpOnly(f, r, stringify).form;
      g.verifiedOtp == f.otp && g.step == CompleteProfile && g.otp == "" &&
      g == f.(verifiedOtp := f.otp, step := CompleteProfile, otp := "")
  {
  }

  /** The profile form's checks, in order: an empty name is one case of a
      short one, and nothing is refused exactly when all three pass. */
  lemma ProfileChecksOrder(f: Form)
    ensures Utf16Length(Trim(f.fullName)) < 2 ==> ProfileRefusal(f) == Some(ShortNameToast)
    ensures Utf16Length(Trim(f.fullName)) >= 2 && f.password != f.confirmPassword ==> ProfileRefusal(f) == Some(MismatchToast)
    ensures Utf16Length(Trim(f.fullName)) >= 2 && f.password == f.confirmPassword && Utf16Length(f.password) < 6 ==>
      ProfileRefusal(f) == Some(ShortPasswordToast)
    ensures ProfileRefusal(f).None? <==>
      Utf16Length(Trim(f.fullName)) >= 2 && f.password == f.confirmPassword && Utf16Length(f.password) >= 6
  {
    if f.fullName == "" {
      assert Trim(f.fullName) == "";
    }
  }

  /** A refused profile makes no call and changes nothing; otherwise the call is made. */
  lemma ProfileCallsOnlyWhenChecksPass(f: Form, r: Reply<Token>, stringify: Stringify)
    ensures ProfileRefusal(f).Some? ==> AfterCompleteProfile(f, r, stringify) == Refuse(f, ProfileRefusal(f).value)
    ensures AfterCompleteProfile(f, r, stringify).effect.request.Some? <==> ProfileRefusal(f).None?
  {
  }

  /** Success stores the trimmed name with the returned id and token, clears
      the kept code, and goes to the dashboard. */
  lemma ProfileSuccess(f: Form, t: Token, stringify: Stringify)
    requires ProfileRefusal(f).None?
    ensures var tr := AfterCompleteProfile(f, Resolved(t), stringify);
      tr.effect.setAuth == Some(SetAuthCall(UserRecord(t, Trim(f.fullName)), t.accessToken)) &&
      tr.effect.setAuth.value.user["full_name"] == Str(Trim(f.fullName)) &&
      tr.effect.setAuth.value.user["id"] == Num(t.userId) &&
      tr.form == f.(verifiedOtp := "") && tr.effect.navigate == Some("/dashboard") &&
      tr.effect.request.value.otp == f.verifiedOtp
  {
    UserRecordFields(t, Trim(f.fullName));
  }

  /** The record stored for the new user holds the token's id and the trimmed name. */
  lemma UserRecordFields(t: Token, fullName: string)
    ensures UserRecord(t, fullName)["full_name"] == Str(fullName)
    ensures UserRecord(t, fullName)["id"] == Num(t.userId)
  {
    assert |"full_name"| == 9 && |"id"| == 2 && |"email"| == 5 && |"profile_completed"| == 17;
  }

  /** A failure whose message includes both 'OTP' and 'expired' goes back to
      OTP entry and forgets the kept code; any other string message is shown
      as it is and keeps the step; a message that is neither string nor list
      makes the handler raise. */
  lemma ProfileFailure(f: Form, call: Request, m: Js)
    ensures m.Str? && Contains(m.s, "OTP") && Contains(m.s, "expired") ==>
      ProfileRejected(f, call, Some(m)) == Transition(f.(step := OtpVerify, verifiedOtp := ""), Called(call, Failure(Str(OtpExpiredToast))))
    ensures m.Str? && !(Contains(m.s, "OTP") && Contains(m.s, "expired")) ==>
      ProfileRejected(f, call, Some(m)) == Transition(f, Called(call, Failure(m)))
    ensures !m.Str? && !m.Arr? ==> ProfileRejected(f, call, Some(m)).effect.toast == Raised
    ensures ProfileRejected(f, call, Some(m)).form.step != f.step ==>
      ProfileRejected(f, call, Some(m)).form == f.(step := OtpVerify, verifiedOtp := "")
  {
  }

  /** A reset success returns to login with the three secrets cleared. */
  lemma ResetSuccess(f: Form, health: Health)
    requires AfterResetPassword(f, Resolved(()), health).effect.request.Some?
    ensures AfterResetPassword(f, Resolved(()), health).form == f.(step := Login, password := "", confirmPassword := "", otp := "")
  {
  }

  // ---------------------------------------------------------------------------
  // Buttons

  /** 'Sign in' link under the sign-up form. */
  function AfterGoToLogin(f: Form): Form { f.(step := Login) }
  /** 'Change email' on the OTP step: back to sign-up, clearing only the code. */
  function AfterChangeEmail(f: Form): Form { f.(step := Signup, otp := "") }
  /** 'Back' on the profile step. */
  function AfterBackToOtp(f: Form): Form { f.(step := OtpVerify, password := "", confirmPassword := "", fullName := "") }
  /** 'Forgot password?' on the login form. */
  function AfterForgotLink(f: Form): Form { f.(step := ForgotPassword, password := "") }
  /** 'Sign up' link under the login form. */
  function AfterGoToSignup(f: Form): Form { f.(step := Signup) }
  /** 'Back to login' on the forgot-password form. */
  function AfterForgotBack(f: Form): Form { f.(step := Login, email := "") }
  /** 'Back to login' on the reset form. */
  function AfterResetBack(f: Form): Form { f.(step := Login, password := "", confirmPassword := "", otp := "") }

  /** 'Change email' keeps the address and the kept code. */
  lemma ChangeEmailKeepsEmail(f: Form)
    ensures AfterChangeEmail(f).email == f.email && AfterChangeEmail(f).verifiedOtp == f.verifiedOtp
    ensures AfterChangeEmail(f).step == Signup && AfterChangeEmail(f).otp == ""
  {
  }

  // ---------------------------------------------------------------------------
  // The component

  class Wizard {
    var step: Step
    var email: string
    var fullName: string
    var otp: string
    var password: string
    var confirmPassword: string
    var emailSuggestions: seq<string>
    var showSuggestions: bool
    var verifiedOtp: string

    function State(): Form
      reads this
    {
      Form(step, email, fullName, otp, password, confirmPassword, emailSuggestions, showSuggestions, verifiedOtp)
    }

    constructor ()
      ensures State() == Start
    {
      step, email, fullName, otp, password, confirmPassword := Signup, "", "", "", "", "";
      emailSuggestions, showSuggestions, verifiedOtp := [], false, "";
    }

    method EmailChanged(value: string)
      modifies this
      ensures State() == AfterEmailChange(old(State()), value)
    {
      email := value;
      if Contains(value, "@") {
        ContainsChar(value, '@');
        var k := IndexOf(value, '@').value;
        var localPart, domain := value[..k], Split(value[k + 1..], '@')[0];
        if domain != "" {
          var suggestions := Suggest(localPart, "@" + Lower(domain), EmailDomains);
          emailSuggestions := suggestions;
          showSuggestions := |suggestions| > 0;
        } else {
          emailSuggestions := [];
          showSuggestions := false;
        }
      } else {
        ContainsChar(value, '@');
        emailSuggestions := [];
        showSuggestions := false;
      }
    }

    /** The plain `setEmail` of the login and forgot-password forms: the suggestions are left as they were. */
    method EmailTyped(value: string)
      modifies this
      ensures State() == old(State()).(email := value)
    {
      email := value;
    }

    method SuggestionClicked(s: string)
      modifies this
      ensures State() == AfterSuggestionClick(old(State()), s)
    {
      email := s;
      showSuggestions := false;
    }

    method TabPressed()
      modifies this
      ensures State() == AfterTab(old(State()))
    {
      if |emailSuggestions| > 0 {
        SuggestionClicked(emailSuggestions[0]);
      }
    }

    method OtpBoxChanged(index: nat, value: string)
      requires index < OtpBoxes
      modifies this
      ensures State() == old(State()).(otp := AfterBoxInput(old(otp), index, value))
    {
      otp := AfterBoxInput(otp, index, value);
    }

    method ResetOtpChanged(value: string)
      modifies this
      ensures State() == old(State()).(otp := ResetOtpInput(value))
    {
      otp := ResetOtpInput(value);
    }

    method SubmitSignup(reply: Reply<()>, stringify: Stringify) returns (e: Effect)
      modifies this
      ensures Transition(State(), e) == AfterSignup(old(State()), reply, stringify)
    {
      if email == "" || !Contains(email, "@") {
        return Effect(None, Failure(Str(InvalidEmailToast)), None, None);
      }
      var call := SignupCall(email);
      match reply {
        case Resolved(_) =>
          step := OtpVerify;
          e := Called(call, Success(OtpSentToast));
        case Rejected(err) =>
          var m := HandlerMessage(err, SignupFallback, stringify);
          e := Called(call, ToastOf(m));
      }
    }

    method SubmitOtp(reply: Reply<()>, stringify: Stringify) returns (e: Effect)
      modifies this
      ensures Transition(State(), e) == AfterVerifyOtpOnly(old(State()), reply, stringify)
    {
      if otp == "" || Utf16Length(otp) != 6 {
        return Effect(None, Failure(Str(InvalidOtpToast)), None, None);
      }
      var call := VerifyOtpOnlyCall(email, otp);
      match reply {
        case Resolved(_) =>
          verifiedOtp := otp;
          step := CompleteProfile;
          otp := "";
          e := Called(call, Success(OtpVerifiedToast));
        case Rejected(err) =>
          e := Called(call, ToastOf(HandlerMessage(err, VerifyOtpFallback, stringify)));
      }
    }

    /** `handleCompleteProfile`; a success also stores the session. */
    method SubmitProfile(store: AuthStore.Store, reply: Reply<Token>, stringify: Stringify) returns (e: Effect)
      modifies this, store
      ensures Transition(State(), e) == AfterCompleteProfile(old(State()), reply, stringify)
      ensures store.State() == if e.setAuth.Some? then AuthStore.AfterSetAuth(old(store.State()), e.setAuth.value.user, e.setAuth.value.token)
                               else old(store.State())
    {
      if fullName == "" || Utf16Length(Trim(fullName)) < 2 {
        return Effect(None, Failure(Str(ShortNameToast)), None, None);
      }
      if password != confirmPassword {
        return Effect(None, Failure(Str(MismatchToast)), None, None);
      }
      if Utf16Length(password) < 6 {
        return Effect(None, Failure(Str(ShortPasswordToast)), None, None);
      }
      e := SendProfile(store, reply, stringify);
    }

    /** The call, once the three checks pass. */
    method SendProfile(store: AuthStore.Store, reply: Reply<Token>, stringify: Stringify) returns (e: Effect)
      requires ProfileRefusal(State()).None?
      modifies this, store
      ensures Transition(State(), e) == AfterCompleteProfile(old(State()), reply, stringify)
      ensures store.State() == if e.setAuth.Some? then AuthStore.AfterSetAuth(old(store.State()), e.setAuth.value.user, e.setAuth.value.token)
                               else old(store.State())
    {
      var name := Trim(fullName);
      var call := VerifyOtpCall(email, verifiedOtp, name, password, confirmPassword);
      match reply {
        case Resolved(t) =>
          var user := UserRecord(t, name);
          store.SetAuth(user, t.accessToken);
          verifiedOtp := "";
          e := Effect(Some(call), Success("Welcome, " + name + CreatedTail), Some("/dashboard"),
                      Some(SetAuthCall(user, t.accessToken)));
        case Rejected(err) =>
          var m := HandlerMessage(err, ProfileFallback, stringify);
          if m.None? {
            return Called(call, Raised);
          }
          var lapsed := OtpLapsed(m.value);
          if lapsed.None? {
            return Called(call, Raised);
          }
          if lapsed.value {
            step := OtpVerify;
            verifiedOtp := "";
            e := Called(call, Failure(Str(OtpExpiredToast)));
          } else {
            e := Called(call, Failure(m.value));
          }
      }
    }

    method SubmitLogin(store: AuthStore.Store, reply: Reply<Token>, health: Health) returns (e: Effect)
      modifies store
      ensures Transition(State(), e) == AfterLogin(State(), reply, health)
      ensures store.State() == if e.setAuth.Some? then AuthStore.AfterSetAuth(old(store.State()), e.setAuth.value.user, e.setAuth.value.token)
                               else old(store.State())
    {
      if email == "" || !Contains(email, "@") {
        return Effect(None, Failure(Str(InvalidEmailToast)), None, None);
      }
      if password == "" || Utf16Length(password) < 6 {
        return Effect(None, Failure(Str(ShortPasswordToast)), None, None);
      }
      var call := LoginCall(email, password);
      match reply {
        case Resolved(t) =>
          var user := UserRecord(t, Split(t.email, '@')[0]);
          store.SetAuth(user, t.accessToken);
          e := Effect(Some(call), Success(LoggedInToast), Some("/dashboard"), Some(SetAuthCall(user, t.accessToken)));
        case Rejected(err) =>
          e := Called(call, FailureToast(err, "Invalid credentials", LoginRules, true, health));
      }
    }

    method SubmitForgotPassword(reply: Reply<()>, health: Health) returns (e: Effect)
      modifies this
      ensures Transition(State(), e) == AfterForgotPassword(old(State()), reply, health)
    {
      if email == "" || !Contains(email, "@") {
        return Effect(None, Failure(Str(InvalidEmailToast)), None, None);
      }
      var call := ForgotPasswordCall(email);
      match reply {
        case Resolved(_) =>
          step := ResetPassword;
          e := Called(call, Success(ResetOtpSentToast));
        case Rejected(err) =>
          e := Called(call, FailureToast(err, ForgotFallback, ForgotRules, false, health));
      }
    }

    method SubmitResetPassword(reply: Reply<()>, health: Health) returns (e: Effect)
      modifies this
      ensures Transition(State(), e) == AfterResetPassword(old(State()), reply, health)
    {
      if otp == "" || Utf16Length(otp) != 6 {
        return Effect(None, Failure(Str(InvalidOtpToast)), None, None);
      }
      if password != confirmPassword {
        return Effect(None, Failure(Str(MismatchToast)), None, None);
      }
      if Utf16Length(password) < 6 {
        return Effect(None, Failure(Str(ShortPasswordToast)), None, None);
      }
      var call := ResetPasswordCall(email, otp, password, confirmPassword);
      match reply {
        case Resolved(_) =>
          step := Login;
          password := "";
          confirmPassword := "";
          otp := "";
          e := Called(call, Success(ResetDoneToast));
        case Rejected(err) =>
          e := Called(call, FailureToast(err, ResetFallback, ResetRules, false, health));
      }
    }

    method ResendOtp(reply: Reply<()>) returns (e: Effect)
      ensures Transition(State(), e) == AfterResendOtp(State(), reply)
    {
      if reply.Resolved? {
        e := Called(ResendOtpCall(email), Success(ResentToast));
      } else {
        e := Called(ResendOtpCall(email), Failure(Str(ResendFailedToast)));
      }
    }

    method GoToLogin()
      modifies this
      ensures State() == AfterGoToLogin(old(State()))
    {
      step := Login;
    }

    method ChangeEmail()
      modifies this
      ensures State() == AfterChangeEmail(old(State()))
    {
      step := Signup;
      otp := "";
    }

    method BackToOtp()
      modifies this
      ensures State() == AfterBackToOtp(old(State()))
    {
      step := OtpVerify;
      password := "";
      confirmPassword := "";
      fullName := "";
    }

    method ForgotLink()
      modifies this
      ensures State() == AfterForgotLink(old(State()))
    {
      step := ForgotPassword;
      password := "";
    }

    method GoToSignup()
      modifies this
      ensures State() == AfterGoToSignup(old(State()))
    {
      step := Signup;
    }

    method ForgotBack()
      modifies this
      ensures State() == AfterForgotBack(old(State()))
    {
      step := Login;
      email := "";
    }

    method ResetBack()
      modifies this
      ensures State() == AfterResetBack(old(State()))
    {
      step := Login;
      password := "";
      confirmPassword := "";
      otp := "";
    }
  }
}
