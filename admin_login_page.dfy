/** The administrator's login page (`frontend/src/pages/AdminLoginPage.tsx`):
    a guard on the two fields, and the mutation's callbacks, which store the
    admin session on success and rewrite the failure message according to
    the page's health indicator. The indicator's last answer and the login
    call's outcome are inputs. */
module AdminLoginPage {
  import opened Util
  import opened Json
  import opened ErrorMessages
  import AuthStore
  import AdminApi

  /** How `adminAPI.login` settled, as the mutation sees it: the response's `admin_id`, or the thrown error. */
  datatype Answer = LoggedIn(adminId: int) | Failed(error: Js)

  datatype Toast = NoToast | Success(text: string) | Failure(shown: Js) | Raised

  datatype Effect = Effect(called: bool, toast: Toast, navigate: Option<string>)

  const FillFields: string := "Please fill in all fields"
  const NotRunningPhrase: string := "Backend server is not running"
  const ConsoleHint: string := "Login failed. Check browser console (F12) for details. Backend is running."
  const StartBackend: string := "Backend server is not running! Please start the backend server first."
  const FetchWord: string := "fetch"
  const NetworkWord: string := "Network"
  /** "Failed to fetch", the third wording the red indicator looks for. */
  const FailedToFetch: string := "Failed to " + FetchWord

  /** `handleSubmit`'s guard: both fields non-empty. */
  predicate SubmitAllowed(email: string, password: string) {
    email != "" && password != ""
  }

  /** `onError`'s message once rewritten for the indicator: `None` is a
      TypeError (a `null` error or item, or an `includes` on a message that is
      neither string nor list). A green indicator hides the not-running
      wording; a red one turns any fetch or network wording into it. */
  function FailureMessage(error: Js, backendUp: bool, stringify: Stringify): Option<Js> {
    match HandlerMessage(error, AdminApi.LoginFailed, stringify)
    case None => None
    case Some(m) =>
      if backendUp then
        match Includes(m, NotRunningPhrase)
        case None => None
        case Some(hit) => Some(if hit then Str(ConsoleHint) else m)
      else
        match Includes(m, FetchWord)
        case None => None
        case Some(f1) =>
          if f1 || Includes(m, NetworkWord) == Some(true) || Includes(m, FailedToFetch) == Some(true)
          then Some(Str(StartBackend)) else Some(m)
  }

  function ToastOf(m: Option<Js>): Toast {
    if m.None? then Raised else Failure(m.value)
  }

  /** A submission: the guard, then the mutation and its callbacks. */
  function AfterSubmit(email: string, password: string, answer: Answer, backendUp: bool, stringify: Stringify): Effect {
    if !SubmitAllowed(email, password) then Effect(false, Failure(Str(FillFields)), None)
    else match answer
      case LoggedIn(_) => Effect(true, Success("Admin login successful!"), Some("/admin"))
      case Failed(e) => Effect(true, ToastOf(FailureMessage(e, backendUp, stringify)), None)
  }

  /** What the successful submission does to the session store. */
  function SessionAfter(s: AuthStore.Session, email: string, password: string, answer: Answer): AuthStore.Session {
    if SubmitAllowed(email, password) && answer.LoggedIn? then AuthStore.AfterAdminLogin(s, answer.adminId) else s
  }

  // ---------------------------------------------------------------------------
  // Properties

  /** An empty field makes no call and leaves the session alone. */
  lemma EmptyFieldRefused(email: string, password: string, answer: Answer, backendUp: bool, stringify: Stringify,
                          s: AuthStore.Session)
    requires email == "" || password == ""
    ensures AfterSubmit(email, password, answer, backendUp, stringify) == Effect(false, Failure(Str(FillFields)), None)
    ensures SessionAfter(s, email, password, answer) == s
  {
  }

  /** Success stores the admin id (leaving a user session as it was) and goes to `/admin`. */
  lemma SuccessOpensPanel(email: string, password: string, id: int, backendUp: bool, stringify: Stringify,
                          s: AuthStore.Session)
    requires SubmitAllowed(email, password)
    ensures AfterSubmit(email, password, LoggedIn(id), backendUp, stringify).navigate == Some("/admin")
    ensures var t := SessionAfter(s, email, password, LoggedIn(id));
      t.isAdmin && t.adminId == Some(id) && t.user == s.user && t.token == s.token && t.isAuthenticated == s.isAuthenticated
  {
  }

  /** With a green indicator a string message passes unchanged unless it
      carries the not-running wording, which becomes the console hint. */
  lemma GreenIndicator(error: Js, stringify: Stringify)
    requires HandlerMessage(error, AdminApi.LoginFailed, stringify).Some?
    requires HandlerMessage(error, AdminApi.LoginFailed, stringify).value.Str?
    ensures var m := HandlerMessage(error, AdminApi.LoginFailed, stringify).value.s;
      FailureMessage(error, true, stringify) == Some(Str(if Contains(m, NotRunningPhrase) then ConsoleHint else m))
  {
  }

  /** With a red indicator a string message with 'fetch' or 'Network' becomes
      the start-the-server text; any other passes unchanged. */
  lemma RedIndicator(error: Js, stringify: Stringify)
    requires HandlerMessage(error, AdminApi.LoginFailed, stringify).Some?
    requires HandlerMessage(error, AdminApi.LoginFailed, stringify).value.Str?
    ensures var m := HandlerMessage(error, AdminApi.LoginFailed, stringify).value.s;
      FailureMessage(error, false, stringify) ==
        Some(Str(if Contains(m, FetchWord) || Contains(m, NetworkWord) then StartBackend else m))
  {
    var m := HandlerMessage(error, AdminApi.LoginFailed, stringify).value.s;
    if Contains(m, FailedToFetch) {
      assert FailedToFetch == "Failed to " + FetchWord + "";
      ContainsMiddle("Failed to ", FetchWord, "");
      ContainsTransitive(m, FailedToFetch, FetchWord);
    }
  }

  // ---------------------------------------------------------------------------
  // The page with the login call behind it

  /** `adminAPI.login`'s own not-running error becomes the console hint under a green indicator. */
  lemma NotRunningUnderGreen(stringify: Stringify)
    ensures FailureMessage(NewErrorJs(AdminApi.NotRunning), true, stringify) == Some(Str(ConsoleHint))
  {
    var e := NewErrorJs(AdminApi.NotRunning);
    assert Prop(e, "message") == Str(AdminApi.NotRunning);
    assert HandlerMessage(e, AdminApi.LoginFailed, stringify) == Some(Str(AdminApi.NotRunning));
    ContainsMiddle("", NotRunningPhrase, "! Open PowerShell and run: cd backend; .\\start_server.ps1");
    assert "" + NotRunningPhrase + "! Open PowerShell and run: cd backend; .\\start_server.ps1" == AdminApi.NotRunning;
    GreenIndicator(e, stringify);
  }

  /** Its generic network error becomes the start-the-server text under a red indicator. */
  lemma GenericUnderRed(stringify: Stringify)
    ensures FailureMessage(NewErrorJs(AdminApi.GenericNetwork), false, stringify) == Some(Str(StartBackend))
  {
    var e := NewErrorJs(AdminApi.GenericNetwork);
    assert Prop(e, "message") == Str(AdminApi.GenericNetwork);
    assert HandlerMessage(e, AdminApi.LoginFailed, stringify) == Some(Str(AdminApi.GenericNetwork));
    var rest := " error: Could not connect to backend server. Make sure backend is running on http://localhost:8000";
    ContainsMiddle("", NetworkWord, rest);
    assert "" + NetworkWord + rest == AdminApi.GenericNetwork;
    RedIndicator(e, stringify);
  }

  // ---------------------------------------------------------------------------
  // The component

  class LoginForm {
    var email: string
    var password: string

    constructor ()
      ensures email == "" && password == ""
    {
      email, password := "", "";
    }

    /** `handleSubmit` and the mutation callbacks. */
    method Submit(store: AuthStore.Store, answer: Answer, backendUp: bool, stringify: Stringify) returns (e: Effect)
      modifies store
      ensures e == AfterSubmit(email, password, answer, backendUp, stringify)
      ensures store.State() == SessionAfter(old(store.State()), email, password, answer)
    {
      if email == "" || password == "" {
        return Effect(false, Failure(Str(FillFields)), None);
      }
      match answer {
        case LoggedIn(id) =>
          store.AdminLogin(id);
          e := Effect(true, Success("Admin login successful!"), Some("/admin"));
        case Failed(err) =>
          var errorMessage := HandlerMessage(err, AdminApi.LoginFailed, stringify);
          if errorMessage.Some? {
            var m := errorMessage.value;
            if backendUp {
              var hit := Includes(m, NotRunningPhrase);
              if hit.None? {
                errorMessage := None;
              } else if hit.value {
                errorMessage := Some(Str(ConsoleHint));
              }
            } else {
              var f1 := Includes(m, FetchWord);
              if f1.None? {
                errorMessage := None;
              } else if f1.value || Includes(m, NetworkWord) == Some(true) || Includes(m, FailedToFetch) == Some(true) {
                errorMessage := Some(Str(StartBackend));
              }
            }
          }
          e := Effect(true, ToastOf(errorMessage), None);
      }
    }
  }
}
