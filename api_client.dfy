/** The shared HTTP client (`frontend/src/api/client.ts`): the helper that
    boils a failed response down to one message, the request interceptor that
    attaches the bearer token (RFC 6750 section 2.1) and the response
    interceptor that turns a failed response into an `Error` carrying that
    message and ends the session on a 401. Transport is left out: a failed
    request arrives as an `AxiosError` value. */
module ApiClient {
  import opened Util
  import opened Json
  import AuthStore

  /** `error.response`: the status line and the parsed body. */
  datatype Response = Response(status: int, statusText: string, data: Js)

  /** The parts of an axios error the client reads. `response` is absent when
      no answer came back (refused connection, CORS failure, time-out). */
  datatype AxiosError = AxiosError(message: string, code: Option<string>, response: Option<Response>)

  const UnexpectedError: string := "An unexpected error occurred"
  const ValidationError: string := "Validation error"
  const ExtractedKey: string := "_extractedMessage"

  // ---------------------------------------------------------------------------
  // Engine errors

  /** `null.msg` inside a `map` over a detail list. */
  const NullItemTypeError: Js := TypeErrorJs("Cannot read properties of null (reading 'msg')")

  /** `typeof v` for the values a response body can be. */
  function TypeOf(v: Js): string {
    match v
    case Undefined => "undefined"
    case Bool(_) => "boolean"
    case Num(_) => "number"
    case Str(_) => "string"
    case _ => "object"
  }

  /** Assigning a property to a primitive in strict-mode code (an ES module). */
  function PropertyOnPrimitive(key: string, v: Js): Js {
    TypeErrorJs("Cannot create property '" + key + "' on " + TypeOf(v) + " '" + ToString(v) + "'")
  }

  // ---------------------------------------------------------------------------
  // extractErrorMessage

  /** `data?.detail`. */
  function Detail(r: Response): Js {
    OptMember(r.data, "detail")
  }

  /** The last line of `extractErrorMessage`: `statusText`, else `Error <status>`.
      It is never empty, so the final `'An unexpected error occurred'`
      alternative of that line is unreachable. */
  function Fallback(r: Response): (m: string)
    ensures m != ""
    ensures r.statusText != "" ==> m == r.statusText
    ensures r.statusText == "" ==> m == "Error " + IntToString(r.status)
  {
    if r.statusText != "" then r.statusText else "Error " + IntToString(r.status)
  }

  /** `extractErrorMessage(error)`: the value returned, which is a string except
      when a `detail` object's `msg` or `message` is some other truthy value.
      `None` is the TypeError that a `null` item of a detail list raises. */
  function ExtractErrorMessage(e: AxiosError, stringify: Stringify): Option<Js> {
    if e.response.None? then
      Some(Str(if e.message != "" then e.message else UnexpectedError))
    else
      var r := e.response.value;
      var d := Detail(r);
      if r.status == 422 && d.Arr? then
        match JoinItems(MsgOrMessageRule, d.items, stringify, ". ")
        case None => None
        case Some(t) => Some(Str(if t != "" then t else ValidationError))
      else if Truthy(d) && d.Str? then Some(d)
      else if Truthy(d) && d.Arr? then
        match JoinItems(MsgRule, d.items, stringify, ". ")
        case None => None
        case Some(t) => Some(Str(t))
      else if Truthy(d) && Truthy(Prop(d, "msg")) then Some(Prop(d, "msg"))
      else if Truthy(d) && Truthy(Prop(d, "message")) then Some(Prop(d, "message"))
      else Some(Str(Fallback(r)))
  }

  /** With no response, the error's own message, or the generic text when it is empty. */
  lemma NoResponseMessage(e: AxiosError, stringify: Stringify)
    requires e.response.None?
    ensures e.message != "" ==> ExtractErrorMessage(e, stringify) == Some(Str(e.message))
    ensures e.message == "" ==> ExtractErrorMessage(e, stringify) == Some(Str(UnexpectedError))
  {
  }

  /** A 422 with a list `detail`: the items rendered string, then `.msg`, then
      `.message`, then JSON, joined with '. '; 'Validation error' exactly when
      that join is empty; a raise when an item is `null`. */
  lemma ValidationListMessage(e: AxiosError, stringify: Stringify)
    requires e.response.Some? && e.response.value.status == 422 && Detail(e.response.value).Arr?
    ensures var items := Detail(e.response.value).items;
      ExtractErrorMessage(e, stringify).Some? <==> AllRender(MsgOrMessageRule, items, stringify)
    ensures var items := Detail(e.response.value).items;
      AllRender(MsgOrMessageRule, items, stringify) ==>
        var texts := Texts(MsgOrMessageRule, items, stringify);
        ExtractErrorMessage(e, stringify) ==
          Some(Str(if texts == [] || texts == [""] then ValidationError else Join(texts, ". ")))
  {
    var items := Detail(e.response.value).items;
    if AllRender(MsgOrMessageRule, items, stringify) {
      JoinEmpty(Texts(MsgOrMessageRule, items, stringify), ". ");
    }
  }

  /** An empty detail list reads 'Validation error' on a 422 but the empty
      string on any other status. */
  lemma EmptyDetailList(r: Response, message: string, code: Option<string>, stringify: Stringify)
    requires Detail(r) == Arr([])
    ensures r.status == 422 ==>
      ExtractErrorMessage(AxiosError(message, code, Some(r)), stringify) == Some(Str(ValidationError))
    ensures r.status != 422 ==>
      ExtractErrorMessage(AxiosError(message, code, Some(r)), stringify) == Some(Str(""))
  {
    assert Texts(MsgRule, [], stringify) == [];
    assert Texts(MsgOrMessageRule, [], stringify) == [];
  }

  /** A non-empty string `detail` is the message, whatever the status. */
  lemma StringDetailVerbatim(e: AxiosError, stringify: Stringify)
    requires e.response.Some? && Detail(e.response.value).Str? && Detail(e.response.value).s != ""
    ensures ExtractErrorMessage(e, stringify) == Some(Detail(e.response.value))
  {
  }

  /** A list `detail` on any status but 422 is rendered with string-or-`msg`-or-JSON
      items joined with '. '. */
  lemma OtherListMessage(e: AxiosError, stringify: Stringify)
    requires e.response.Some? && e.response.value.status != 422 && Detail(e.response.value).Arr?
    ensures var items := Detail(e.response.value).items;
      ExtractErrorMessage(e, stringify).Some? <==> AllRender(MsgRule, items, stringify)
    ensures var items := Detail(e.response.value).items;
      AllRender(MsgRule, items, stringify) ==>
        ExtractErrorMessage(e, stringify) == Some(Str(Join(Texts(MsgRule, items, stringify), ". ")))
  {
  }

  /** `.message` of a list item is read on a 422 only: an item with a `message`
      but no `msg` yields that message on a 422 and its JSON otherwise. */
  lemma MessageReadOnlyOn422(item: Js, m: string, stringify: Stringify, status: int, statusText: string)
    requires item == Obj([Field("message", Str(m))]) && m != ""
    ensures var r := Response(status, statusText, Obj([Field("detail", Arr([item]))]));
      ExtractErrorMessage(AxiosError("", None, Some(r)), stringify) ==
        Some(Str(if status == 422 then m else stringify(item)))
  {
    assert Texts(MsgOrMessageRule, [item], stringify) == [m];
    assert Texts(MsgRule, [item], stringify) == [stringify(item)];
  }

  /** An object `detail` yields its truthy `msg`, else its truthy `message`,
      else the status text or `Error <status>`. */
  lemma ObjectDetailMessage(e: AxiosError, stringify: Stringify)
    requires e.response.Some? && Detail(e.response.value).Obj?
    ensures var d := Detail(e.response.value);
      ExtractErrorMessage(e, stringify) ==
        if Truthy(Prop(d, "msg")) then Some(Prop(d, "msg"))
        else if Truthy(Prop(d, "message")) then Some(Prop(d, "message"))
        else Some(Str(Fallback(e.response.value)))
  {
  }

  /** With a response and no usable `detail`, the message is the status text
      or `Error <status>`, and is never empty. */
  lemma NoDetailFallback(e: AxiosError, stringify: Stringify)
    requires e.response.Some? && !Truthy(Detail(e.response.value))
    requires !(e.response.value.status == 422 && Detail(e.response.value).Arr?)
    ensures ExtractErrorMessage(e, stringify) == Some(Str(Fallback(e.response.value)))
    ensures Fallback(e.response.value) != ""
  {
  }

  // ---------------------------------------------------------------------------
  // Request interceptor

  /** The headers after the request interceptor: `Authorization: Bearer <token>`
      when the store's token is truthy, the headers as they were otherwise. */
  function AuthorizedHeaders(headers: map<string, string>, token: Option<string>): (h: map<string, string>)
    ensures token.Some? && token.value != "" ==>
      "Authorization" in h && h["Authorization"] == "Bearer " + token.value
    ensures !(token.Some? && token.value != "") ==> h == headers
    ensures forall k :: k != "Authorization" ==> (k in h <==> k in headers)
    ensures forall k :: k != "Authorization" && k in headers ==> h[k] == headers[k]
  {
    if token.Some? && token.value != "" then headers["Authorization" := "Bearer " + token.value]
    else headers
  }

  /** An outgoing request's configuration, whose headers the interceptor edits in place. */
  class RequestConfig {
    var headers: map<string, string>

    constructor (headers0: map<string, string>)
      ensures headers == headers0
    {
      headers := headers0;
    }

    /** The request interceptor, reading the token from the session store. */
    method Authorize(store: AuthStore.Store)
      modifies this
      ensures headers == AuthorizedHeaders(old(headers), store.token)
    {
      var token := store.token;
      if token.Some? && token.value != "" {
        headers := headers["Authorization" := "Bearer " + token.value];
      }
    }
  }

  /** The header carries the token exactly when the store holds a non-empty one. */
  lemma BearerIffToken(headers: map<string, string>, token: Option<string>)
    requires "Authorization" !in headers
    ensures ("Authorization" in AuthorizedHeaders(headers, token)) <==> (token.Some? && token.value != "")
    ensures token.Some? && token.value != "" ==>
      AuthorizedHeaders(headers, token)["Authorization"] == "Bearer " + token.value
  {
  }

  // ---------------------------------------------------------------------------
  // Response interceptor

  function OptionalStr(o: Option<string>): Js {
    if o.Some? then Str(o.value) else Undefined
  }

  function ResponseJs(r: Response): Js {
    Obj([Field("status", Num(r.status)), Field("statusText", Str(r.statusText)), Field("data", r.data)])
  }

  /** The axios error itself, as a value another handler may catch. */
  function AxiosErrorJs(e: AxiosError): Js {
    ErrorObj([Field("message", Str(e.message)), Field("code", OptionalStr(e.code)),
              Field("response", if e.response.Some? then ResponseJs(e.response.value) else Undefined)])
  }

  /** `new Error(x).message`. */
  function ErrorMessageOf(x: Js): string {
    if x.Undefined? then "" else ToString(x)
  }

  /** The `new Error(extractedMessage)` the interceptor rejects with; its
      `response` is the same object as the original's, so it shows the body
      as the interceptor left it. */
  function NewError(extracted: Js, r: Response): Js {
    ErrorObj([Field("response", ResponseJs(r)), Field("message", Str(ErrorMessageOf(extracted)))])
  }

  /** What leaving the interceptor does: the value the promise is rejected
      with, whether `logout()` and the redirect to `/auth` ran, and whether
      the background reachability probe was started. */
  datatype Interception = Interception(rejected: Js, teardown: bool, probe: bool)

  /** The probe is started for a response-less error whose code or message
      looks like a connection failure. */
  predicate StartsProbe(e: AxiosError) {
    e.code == Some("ECONNREFUSED") || Contains(e.message, "Network Error") ||
    Contains(e.message, "Failed to fetch") || Contains(e.message, "ERR_CONNECTION_REFUSED")
  }

  /** `data._extractedMessage = extracted` as written, guarded only by the
      truthiness of `data`: on an object it adds the property; on a truthy
      primitive (a plain-text body, say) strict mode raises a TypeError. An
      array keeps no named properties in this model. */
  function MarkDataAsWritten(data: Js, extracted: Js): Result
  {
    if !Truthy(data) then Ok(data)
    else if data.Obj? then Ok(Obj(SetProp(data.fields, ExtractedKey, extracted)))
    else if data.Arr? || data.ErrorObj? then Ok(data)
    else Raised(PropertyOnPrimitive(ExtractedKey, data))
  }

  /** The assignment guarded by `typeof data === 'object'` as well. */
  function MarkData(data: Js, extracted: Js): (d: Js)
    ensures data.Obj? ==> d.Obj? && Prop(d, ExtractedKey) == extracted
    ensures data.Obj? ==> forall k :: k != ExtractedKey ==> Prop(d, k) == Prop(data, k)
    ensures !data.Obj? ==> d == data
  {
    if data.Obj? then Obj(SetProp(data.fields, ExtractedKey, extracted)) else data
  }

  datatype Result = Ok(value: Js) | Raised(error: Js)

  /** The response interceptor's error handler as written. */
  function OnResponseErrorAsWritten(e: AxiosError, stringify: Stringify): Interception {
    if e.response.None? then Interception(AxiosErrorJs(e), false, StartsProbe(e))
    else
      var r := e.response.value;
      match ExtractErrorMessage(e, stringify)
      case None => Interception(NullItemTypeError, false, false)
      case Some(m) =>
        match MarkDataAsWritten(r.data, m)
        case Raised(err) => Interception(err, false, false)
        case Ok(d) => Interception(NewError(m, r.(data := d)), r.status == 401, false)
  }

  /** The response interceptor's error handler with the `_extractedMessage`
      assignment confined to object bodies. */
  function OnResponseError(e: AxiosError, stringify: Stringify): Interception {
    if e.response.None? then Interception(AxiosErrorJs(e), false, StartsProbe(e))
    else
      var r := e.response.value;
      match ExtractErrorMessage(e, stringify)
      case None => Interception(NullItemTypeError, false, false)
      case Some(m) => Interception(NewError(m, r.(data := MarkData(r.data, m))), r.status == 401, false)
  }

  /** A response-less error is passed on untouched and never ends the session. */
  lemma NoResponsePassesThrough(e: AxiosError, stringify: Stringify)
    requires e.response.None?
    ensures OnResponseError(e, stringify).rejected == AxiosErrorJs(e)
    ensures !OnResponseError(e, stringify).teardown
    ensures OnResponseError(e, stringify).probe == StartsProbe(e)
  {
  }

  /** Whenever the message can be extracted, the rejected value is an `Error`
      whose message is that extracted message, the body records it under
      `_extractedMessage` when it is an object, and the session is torn down
      exactly on a 401. */
  lemma RejectedCarriesExtracted(e: AxiosError, stringify: Stringify)
    requires e.response.Some? && ExtractErrorMessage(e, stringify).Some?
    ensures var i := OnResponseError(e, stringify);
      var m := ExtractErrorMessage(e, stringify).value;
      i.rejected.ErrorObj? &&
      Prop(i.rejected, "message") == Str(ErrorMessageOf(m)) &&
      i.teardown == (e.response.value.status == 401) && !i.probe
    ensures var i := OnResponseError(e, stringify);
      var m := ExtractErrorMessage(e, stringify).value;
      e.response.value.data.Obj? ==>
        Prop(Prop(Prop(i.rejected, "response"), "data"), ExtractedKey) == m
  {
    var r := e.response.value;
    var m := ExtractErrorMessage(e, stringify).value;
    var r' := r.(data := MarkData(r.data, m));
    assert OnResponseError(e, stringify).rejected == NewError(m, r');
    var f1, f2 := Field("response", ResponseJs(r')), Field("message", Str(ErrorMessageOf(m)));
    assert [f1] + [f2] == [f1, f2] && [] + [f1] == [f1];
    LookupSnoc([f1], f2, "response");
    LookupSnoc([], f1, "response");
    assert Prop(NewError(m, r'), "response") == ResponseJs(r');
    assert Prop(ResponseJs(r'), "data") == MarkData(r.data, m);
  }

  /** Every 401 whose message can be extracted ends the session, whatever the body. */
  lemma UnauthorizedTearsDown(e: AxiosError, stringify: Stringify)
    requires e.response.Some? && e.response.value.status == 401
    requires ExtractErrorMessage(e, stringify).Some?
    ensures OnResponseError(e, stringify).teardown
  {
  }

  /** The two handlers differ only on a truthy primitive body, which the
      written version turns into a TypeError with no teardown. */
  lemma AsWrittenDiffersOnlyOnPrimitiveBody(e: AxiosError, stringify: Stringify)
    requires !(e.response.Some? && Truthy(e.response.value.data) &&
               (e.response.value.data.Str? || e.response.value.data.Num? || e.response.value.data.Bool?))
    ensures OnResponseErrorAsWritten(e, stringify) == OnResponseError(e, stringify)
  {
  }

  /** A plain-text error body such as a bare 'Internal Server Error' page,
      sent with that text as the status text: the written handler rejects with
      a TypeError about `_extractedMessage` instead of the status text, and a
      401 with such a body keeps the session. */
  lemma PlainTextBodyRaises(status: int, body: string, stringify: Stringify)
    requires body != ""
    ensures var e := AxiosError("Request failed", None, Some(Response(status, body, Str(body))));
      var i := OnResponseErrorAsWritten(e, stringify);
      i.rejected == PropertyOnPrimitive(ExtractedKey, Str(body)) &&
      Prop(i.rejected, "name") == Str("TypeError") && Prop(i.rejected, "message") != Str(body) &&
      !i.teardown
    ensures var e := AxiosError("Request failed", None, Some(Response(status, body, Str(body))));
      var i := OnResponseError(e, stringify);
      Prop(i.rejected, "message") == Str(body) && i.teardown == (status == 401)
  {
    var r := Response(status, body, Str(body));
    var e := AxiosError("Request failed", None, Some(r));
    PlainTextExtracted(e, r, stringify);
    var te := "Cannot create property '" + ExtractedKey + "' on " + TypeOf(Str(body)) + " '" + ToString(Str(body)) + "'";
    assert MarkDataAsWritten(r.data, Str(body)) == Raised(TypeErrorJs(te));
    assert |te| > |body|;
    TypeErrorProps(te);
    NewErrorMessage(Str(body), r);
  }

  /** A body that is its own status text, as a plain-text error page is. */
  lemma PlainTextExtracted(e: AxiosError, r: Response, stringify: Stringify)
    requires e.response == Some(r) && r.statusText != "" && r.data == Str(r.statusText)
    ensures ExtractErrorMessage(e, stringify) == Some(Str(r.statusText))
  {
    assert Detail(r) == Undefined;
  }

  lemma TypeErrorProps(message: string)
    ensures Prop(TypeErrorJs(message), "name") == Str("TypeError")
    ensures Prop(TypeErrorJs(message), "message") == Str(message)
  {
    var f1, f2 := Field("name", Str("TypeError")), Field("message", Str(message));
    assert [f1] + [f2] == [f1, f2] && [] + [f1] == [f1];
    LookupSnoc([f1], f2, "name");
    LookupSnoc([f1], f2, "message");
    LookupSnoc([], f1, "name");
  }

  lemma NewErrorMessage(extracted: Js, r: Response)
    ensures Prop(NewError(extracted, r), "message") == Str(ErrorMessageOf(extracted))
  {
    var f1, f2 := Field("response", ResponseJs(r)), Field("message", Str(ErrorMessageOf(extracted)));
    assert [f1] + [f2] == [f1, f2];
    LookupSnoc([f1], f2, "message");
  }

  /** The interceptor as the client runs it, against the session store. The
      navigation to `/auth` is returned rather than performed. */
  method HandleResponseError(store: AuthStore.Store, e: AxiosError, stringify: Stringify)
    returns (rejected: Js, navigateTo: Option<string>)
    modifies store
    ensures rejected == OnResponseError(e, stringify).rejected
    ensures OnResponseError(e, stringify).teardown ==>
      store.State() == AuthStore.Initial && navigateTo == Some("/auth")
    ensures !OnResponseError(e, stringify).teardown ==>
      store.State() == old(store.State()) && navigateTo == None
  {
    var i := OnResponseError(e, stringify);
    rejected := i.rejected;
    navigateTo := None;
    if i.teardown {
      store.Logout();
      navigateTo := Some("/auth");
    }
  }
}
