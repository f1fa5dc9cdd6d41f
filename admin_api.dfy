/** `adminAPI.login` (`frontend/src/api/admin.ts`): a direct `fetch` that
    bypasses the HTTP client, turns a non-ok answer into an `Error` built from
    the body's `detail`, and then reclassifies whatever was thrown after a
    reachability probe. The fetch outcome and the probe outcome are inputs. */
module AdminApi {
  import opened Util
  import opened Json

  /** A response body as `response.json()` sees it. */
  datatype Body = Parsed(value: Js) | Unparseable(syntaxMessage: string)

  /** What `fetch` did: rejected with a TypeError, or produced a response. */
  datatype FetchOutcome =
    | NetworkFailure(message: string)
    | Answered(ok: bool, status: int, statusText: string, body: Body)

  /** The health probe: an ok answer, a non-ok answer, or a rejection. */
  datatype Health = Healthy | Unhealthy | ProbeFailed

  /** How `login` settles. */
  datatype LoginResult = Returned(value: Js) | Thrown(error: Js)

  const LoginFailed: string := "Admin login failed"
  // The two long messages are written in two pieces so that the words the
  // login page looks for are visibly at their start.
  const NotRunning: string := "Backend server is not running" + "! Open PowerShell and run: cd backend; .\\start_server.ps1"
  const GenericNetwork: string :=
    "Network" + " error: Could not connect to backend server. Make sure backend is running on http://localhost:8000"

  /** `HTTP <status>: <statusText>`. */
  function HttpLine(status: int, statusText: string): string {
    "HTTP " + IntToString(status) + ": " + statusText
  }

  /** The message of the `Error` thrown for a non-ok answer (`errorDetail`).
      Anything the inner `try` raises (an unparseable body, a `null` body whose
      `.detail` is read, a `null` list item) lands in its `catch` and gives the
      HTTP line. */
  function ErrorDetail(status: int, statusText: string, body: Body, stringify: Stringify): string {
    match body
    case Unparseable(_) => HttpLine(status, statusText)
    case Parsed(data) =>
      if Nullish(data) then HttpLine(status, statusText)
      else
        var d := Prop(data, "detail");
        if d.Arr? then
          match JoinItems(MsgRule, d.items, stringify, ". ")
          case None => HttpLine(status, statusText)
          case Some(t) => t
        else if d.Str? then d.s
        else if Truthy(OptMember(d, "msg")) then ToString(Prop(d, "msg"))
        else LoginFailed
  }

  /** A list `detail` gives its items joined with '. ' (string or `.msg`, else JSON). */
  lemma ListDetail(status: int, statusText: string, data: Js, stringify: Stringify)
    requires !Nullish(data) && Prop(data, "detail").Arr?
    requires AllRender(MsgRule, Prop(data, "detail").items, stringify)
    ensures ErrorDetail(status, statusText, Parsed(data), stringify) ==
      Join(Texts(MsgRule, Prop(data, "detail").items, stringify), ". ")
  {
  }

  /** A string `detail` gives itself, an object `detail` with a truthy `msg`
      gives that `msg`, and no `detail` gives 'Admin login failed'. */
  lemma ScalarDetail(status: int, statusText: string, data: Js, stringify: Stringify)
    requires !Nullish(data)
    ensures Prop(data, "detail").Str? ==>
      ErrorDetail(status, statusText, Parsed(data), stringify) == Prop(data, "detail").s
    ensures Prop(data, "detail").Obj? && Truthy(Prop(Prop(data, "detail"), "msg")) ==>
      ErrorDetail(status, statusText, Parsed(data), stringify) == ToString(Prop(Prop(data, "detail"), "msg"))
    ensures Prop(data, "detail").Undefined? ==>
      ErrorDetail(status, statusText, Parsed(data), stringify) == LoginFailed
  {
  }

  /** A body that cannot be read gives `HTTP <status>: <statusText>`, as does
      a list with a `null` item. */
  lemma UnreadableBody(status: int, statusText: string, body: Body, stringify: Stringify)
    ensures body.Unparseable? ==> ErrorDetail(status, statusText, body, stringify) == HttpLine(status, statusText)
    ensures (body.Parsed? && !Nullish(body.value) && Prop(body.value, "detail").Arr? &&
             Null in Prop(body.value, "detail").items) ==>
      ErrorDetail(status, statusText, body, stringify) == HttpLine(status, statusText)
  {
    if body.Parsed? && !Nullish(body.value) && Prop(body.value, "detail").Arr? &&
      Null in Prop(body.value, "detail").items {
      var items := Prop(body.value, "detail").items;
      var i :| 0 <= i < |items| && items[i] == Null;
      NullItemRaises(MsgRule, items, stringify, ". ", i);
    }
  }

  /** The settlement of the outer `try` block, before its `catch` runs. */
  function Attempt(f: FetchOutcome, stringify: Stringify): LoginResult {
    match f
    case NetworkFailure(m) => Thrown(TypeErrorJs(m))
    case Answered(ok, status, statusText, body) =>
      if !ok then Thrown(NewErrorJs(ErrorDetail(status, statusText, body, stringify)))
      else if body.Parsed? then Returned(body.value)
      else Thrown(ErrorObj([Field("name", Str("SyntaxError")), Field("message", Str(body.syntaxMessage))]))
  }

  /** `error.message`, for the errors `Attempt` throws (all have string messages). */
  function MessageText(error: Js): string {
    if Prop(error, "message").Str? then Prop(error, "message").s else ""
  }

  /** The test the `catch` applies twice: 'fetch' (which 'Failed to fetch'
      contains) or 'Network'. */
  predicate LooksLikeNetwork(m: string) {
    Contains(m, "fetch") || Contains(m, "Failed to fetch") || Contains(m, "Network")
  }

  /** The error that escapes, stated independently of the probe: the
      not-running error for a network-looking message, the original error for
      any other non-empty message, the generic network error for an empty one. */
  function Escaping(error: Js): Js {
    var m := MessageText(error);
    if LooksLikeNetwork(m) then NewErrorJs(NotRunning)
    else if m != "" then error
    else NewErrorJs(GenericNetwork)
  }

  /** `adminAPI.login`: the outer `try` settles as `Attempt`, then its
      `catch` reclassifies the error. Whatever the probe says, the result is
      `Attempt`'s value or the `Escaping` classification of its error. */
  method Login(f: FetchOutcome, health: Health, stringify: Stringify) returns (r: LoginResult)
    ensures Attempt(f, stringify).Returned? ==> r == Attempt(f, stringify)
    ensures Attempt(f, stringify).Thrown? ==> r == Thrown(Escaping(Attempt(f, stringify).error))
  {
    var error: Js;
    match f {
      case NetworkFailure(m) =>
        error := TypeErrorJs(m);
      case Answered(ok, status, statusText, body) =>
        if !ok {
          var errorDetail := NotOkDetail(status, statusText, body, stringify);
          error := NewErrorJs(errorDetail);
        } else if body.Parsed? {
          return Returned(body.value);
        } else {
          error := ErrorObj([Field("name", Str("SyntaxError")), Field("message", Str(body.syntaxMessage))]);
        }
    }
    r := Reclassify(error, health);
  }

  /** The `if (!response.ok)` block: the `errorDetail` reassignments, and
      the inner `catch` that any raise in them reaches. */
  method NotOkDetail(status: int, statusText: string, body: Body, stringify: Stringify) returns (errorDetail: string)
    ensures errorDetail == ErrorDetail(status, statusText, body, stringify)
  {
    errorDetail := LoginFailed;
    if body.Unparseable? || Nullish(body.value) {
      errorDetail := HttpLine(status, statusText);
    } else {
      var d := Prop(body.value, "detail");
      if d.Arr? {
        var joined := JoinItems(MsgRule, d.items, stringify, ". ");
        if joined.None? {
          errorDetail := HttpLine(status, statusText);
        } else {
          errorDetail := joined.value;
        }
      } else if d.Str? {
        errorDetail := d.s;
      } else if Truthy(OptMember(d, "msg")) {
        errorDetail := ToString(Prop(d, "msg"));
      }
    }
  }

  /** The outer `catch`: the probe (an ok answer throws `Connection issue`,
      which its own `catch` takes, exactly as a failed probe is taken), then
      the two `fetch`-or-`Network` tests. */
  method Reclassify(error: Js, health: Health) returns (r: LoginResult)
    ensures r == Thrown(Escaping(error))
  {
    ThreeCases(error);
    var message := MessageText(error);
    var healthError: Option<Js> := None;
    if health == Healthy {
      var errorMsg := if message != "" then message else "Unknown error";
      healthError := Some(NewErrorJs("Connection issue: " + errorMsg +
        ". Check browser console (F12) for details. Backend is running at http://localhost:8000"));
    } else if health == ProbeFailed {
      healthError := Some(TypeErrorJs("Failed to fetch"));
    }
    if healthError.Some? && message != "" && LooksLikeNetwork(message) {
      return Thrown(NewErrorJs(NotRunning));
    }
    if message != "" && LooksLikeNetwork(message) {
      return Thrown(NewErrorJs(NotRunning));
    }
    if message != "" {
      return Thrown(error);
    }
    return Thrown(NewErrorJs(GenericNetwork));
  }

  /** The three cases, and that the `Connection issue` error never escapes:
      every thrown error is the not-running one, the original, or the generic one. */
  lemma ThreeCases(error: Js)
    ensures LooksLikeNetwork(MessageText(error)) ==> Escaping(error) == NewErrorJs(NotRunning)
    ensures !LooksLikeNetwork(MessageText(error)) && MessageText(error) != "" ==> Escaping(error) == error
    ensures MessageText(error) == "" ==> Escaping(error) == NewErrorJs(GenericNetwork)
  {
    if MessageText(error) == "" {
      assert !Contains("", "fetch") by {
        forall i: nat | i <= 0 ensures !OccursAt("", "fetch", i) { }
      }
      assert !Contains("", "Failed to fetch") by {
        forall i: nat | i <= 0 ensures !OccursAt("", "Failed to fetch", i) { }
      }
      assert !Contains("", "Network") by {
        forall i: nat | i <= 0 ensures !OccursAt("", "Network", i) { }
      }
    }
  }

  /** An empty string `detail` makes the login fail with the generic network error. */
  lemma EmptyDetailReadsAsNetworkError(status: int, statusText: string, stringify: Stringify, health: Health)
    ensures var f := Answered(false, status, statusText, Parsed(Obj([Field("detail", Str(""))])));
      Escaping(Attempt(f, stringify).error) == NewErrorJs(GenericNetwork)
  {
    var f := Answered(false, status, statusText, Parsed(Obj([Field("detail", Str(""))])));
    assert ErrorDetail(status, statusText, f.body, stringify) == "";
    ThreeCases(NewErrorJs(""));
  }
}
