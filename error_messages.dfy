/** How the front end turns a caught error into text: `safeErrorToString`
    (`frontend/src/main.tsx`), used by the query client, and the inline chain
    that every page handler repeats (`error.message`, then
    `response.data._extractedMessage`, then `response.data.detail`, then a
    handler-specific default). Both take any caught value, since JavaScript
    can throw anything. */
module ErrorMessages {
  import opened Util
  import opened Json
  import ApiClient

  const UnexpectedError: string := "An unexpected error occurred"

  /** `error?.response?.data?._extractedMessage`. */
  function ExtractedOf(error: Js): Js {
    OptMember(OptMember(OptMember(error, "response"), "data"), "_extractedMessage")
  }

  /** `error?.response?.data?.detail`. */
  function DetailOf(error: Js): Js {
    OptMember(OptMember(OptMember(error, "response"), "data"), "detail")
  }

  /** A detail list rendered string-or-`msg`-or-JSON and joined with '. '. */
  function JoinDetail(items: seq<Js>, stringify: Stringify): Option<Js> {
    match JoinItems(MsgRule, items, stringify, ". ")
    case None => None
    case Some(t) => Some(Str(t))
  }

  /** Whether a truthy value is an object for `typeof`. */
  predicate IsObject(j: Js) {
    j.Obj? || j.Arr? || j.ErrorObj? || j.Null?
  }

  /** `safeErrorToString(error)`. The value can be a non-string when
      `_extractedMessage` holds one; `None` is the TypeError a `null` item of a
      rendered list raises. */
  function SafeErrorToString(error: Js, stringify: Stringify): Option<Js> {
    var message := OptMember(error, "message");
    if error.Str? then Some(error)
    else if error.ErrorObj? && message.Str? then Some(message)
    else if error.ErrorObj? && Truthy(message) then Some(Str(ToString(message)))
    else if Truthy(message) then
      if message.Str? then Some(message)
      else if message.Arr? then JoinDetail(message.items, stringify)
      else if IsObject(message) then Some(Str(stringify(message)))
      else Some(Str(ToString(message)))
    else if Truthy(ExtractedOf(error)) then Some(ExtractedOf(error))
    else if Truthy(DetailOf(error)) && DetailOf(error).Str? then Some(DetailOf(error))
    else if Truthy(DetailOf(error)) && DetailOf(error).Arr? then JoinDetail(DetailOf(error).items, stringify)
    else Some(Str(UnexpectedError))
  }

  /** A thrown string is its own text. */
  lemma StringUnchanged(s: string, stringify: Stringify)
    ensures SafeErrorToString(Str(s), stringify) == Some(Str(s))
  {
  }

  /** An `Error` with a string message yields that message, even an empty one,
      and nothing else about the error is consulted. */
  lemma ErrorMessageWins(error: Js, stringify: Stringify)
    requires error.ErrorObj? && Prop(error, "message").Str?
    ensures SafeErrorToString(error, stringify) == Some(Prop(error, "message"))
  {
  }

  /** A thrown non-`Error` object whose `message` is a list gets that list
      rendered like a detail list. */
  lemma ArrayMessageJoined(error: Js, stringify: Stringify)
    requires error.Obj? && Prop(error, "message").Arr?
    ensures var items := Prop(error, "message").items;
      SafeErrorToString(error, stringify) == JoinDetail(items, stringify) &&
      (AllRender(MsgRule, items, stringify) ==>
        SafeErrorToString(error, stringify) == Some(Str(Join(Texts(MsgRule, items, stringify), ". "))))
  {
  }

  /** Precedence: a falsy `message` defers to `_extractedMessage`, which defers to `detail`. */
  lemma ExtractedBeforeDetail(error: Js, stringify: Stringify)
    requires !error.Str? && !Truthy(OptMember(error, "message"))
    requires !(error.ErrorObj? && OptMember(error, "message").Str?)
    ensures Truthy(ExtractedOf(error)) ==> SafeErrorToString(error, stringify) == Some(ExtractedOf(error))
    ensures !Truthy(ExtractedOf(error)) && DetailOf(error).Str? && DetailOf(error).s != "" ==>
      SafeErrorToString(error, stringify) == Some(DetailOf(error))
    ensures !Truthy(ExtractedOf(error)) && DetailOf(error).Arr? ==>
      SafeErrorToString(error, stringify) == JoinDetail(DetailOf(error).items, stringify)
  {
  }

  /** When no rule applies the text is exactly the generic one. */
  lemma NothingMatches(error: Js, stringify: Stringify)
    requires !error.Str? && !Truthy(OptMember(error, "message"))
    requires !(error.ErrorObj? && OptMember(error, "message").Str?)
    requires !Truthy(ExtractedOf(error))
    requires !(Truthy(DetailOf(error)) && (DetailOf(error).Str? || DetailOf(error).Arr?))
    ensures SafeErrorToString(error, stringify) == Some(Str(UnexpectedError))
  {
  }

  /** Every error the HTTP client rejects with for a failed response reads as
      the message the client extracted. */
  lemma InterceptedErrorReadsExtracted(e: ApiClient.AxiosError, stringify: Stringify)
    requires e.response.Some? && ApiClient.ExtractErrorMessage(e, stringify).Some?
    ensures SafeErrorToString(ApiClient.OnResponseError(e, stringify).rejected, stringify) ==
      Some(Str(ApiClient.ErrorMessageOf(ApiClient.ExtractErrorMessage(e, stringify).value)))
  {
    ApiClient.RejectedCarriesExtracted(e, stringify);
  }

  /** The same for the interceptor as written, whenever the response body is
      not a truthy primitive (the case it turns into a TypeError). */
  lemma InterceptedErrorReadsExtractedAsWritten(e: ApiClient.AxiosError, stringify: Stringify)
    requires e.response.Some? && ApiClient.ExtractErrorMessage(e, stringify).Some?
    requires !(Truthy(e.response.value.data) &&
               (e.response.value.data.Str? || e.response.value.data.Num? || e.response.value.data.Bool?))
    ensures SafeErrorToString(ApiClient.OnResponseErrorAsWritten(e, stringify).rejected, stringify) ==
      Some(Str(ApiClient.ErrorMessageOf(ApiClient.ExtractErrorMessage(e, stringify).value)))
  {
    ApiClient.AsWrittenDiffersOnlyOnPrimitiveBody(e, stringify);
    InterceptedErrorReadsExtracted(e, stringify);
  }

  // ---------------------------------------------------------------------------
  // The handlers' inline chain

  /** The message a page handler builds in its `catch`: a non-empty string
      `error.message`, else a truthy `_extractedMessage`, else a string or list
      `detail`, else `fallback`. `None` is a raised TypeError (a `null` error,
      or a `null` item of a rendered list). */
  function HandlerMessage(error: Js, fallback: string, stringify: Stringify): Option<Js> {
    if Nullish(error) then None
    else
      var message := Prop(error, "message");
      if Truthy(message) && message.Str? then Some(message)
      else if Truthy(ExtractedOf(error)) then Some(ExtractedOf(error))
      else if Truthy(DetailOf(error)) && DetailOf(error).Str? then Some(DetailOf(error))
      else if Truthy(DetailOf(error)) && DetailOf(error).Arr? then JoinDetail(DetailOf(error).items, stringify)
      else Some(Str(fallback))
  }

  /** The chain's precedence: message, then `_extractedMessage`, then `detail`, then the default. */
  lemma HandlerPrecedence(error: Js, fallback: string, stringify: Stringify)
    requires !Nullish(error)
    ensures Prop(error, "message").Str? && Prop(error, "message").s != "" ==>
      HandlerMessage(error, fallback, stringify) == Some(Prop(error, "message"))
    ensures !(Prop(error, "message").Str? && Prop(error, "message").s != "") && Truthy(ExtractedOf(error)) ==>
      HandlerMessage(error, fallback, stringify) == Some(ExtractedOf(error))
    ensures (!(Prop(error, "message").Str? && Prop(error, "message").s != "") && !Truthy(ExtractedOf(error)) &&
             !(Truthy(DetailOf(error)) && (DetailOf(error).Str? || DetailOf(error).Arr?))) ==>
      HandlerMessage(error, fallback, stringify) == Some(Str(fallback))
  {
  }

  /** For errors from the HTTP client the chain reads the extracted message
      whenever that is non-empty, whatever the handler's default. */
  lemma HandlerReadsExtracted(e: ApiClient.AxiosError, fallback: string, stringify: Stringify)
    requires e.response.Some? && ApiClient.ExtractErrorMessage(e, stringify).Some?
    requires ApiClient.ErrorMessageOf(ApiClient.ExtractErrorMessage(e, stringify).value) != ""
    ensures HandlerMessage(ApiClient.OnResponseError(e, stringify).rejected, fallback, stringify) ==
      Some(Str(ApiClient.ErrorMessageOf(ApiClient.ExtractErrorMessage(e, stringify).value)))
  {
    ApiClient.RejectedCarriesExtracted(e, stringify);
  }

  /** The same for the interceptor as written, whenever the response body is
      not a truthy primitive. */
  lemma HandlerReadsExtractedAsWritten(e: ApiClient.AxiosError, fallback: string, stringify: Stringify)
    requires e.response.Some? && ApiClient.ExtractErrorMessage(e, stringify).Some?
    requires ApiClient.ErrorMessageOf(ApiClient.ExtractErrorMessage(e, stringify).value) != ""
    requires !(Truthy(e.response.value.data) &&
               (e.response.value.data.Str? || e.response.value.data.Num? || e.response.value.data.Bool?))
    ensures HandlerMessage(ApiClient.OnResponseErrorAsWritten(e, stringify).rejected, fallback, stringify) ==
      Some(Str(ApiClient.ErrorMessageOf(ApiClient.ExtractErrorMessage(e, stringify).value)))
  {
    ApiClient.AsWrittenDiffersOnlyOnPrimitiveBody(e, stringify);
    HandlerReadsExtracted(e, fallback, stringify);
  }
}
