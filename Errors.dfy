/**
 * The user-facing messages for failed fetches (`API_ERRORS` and
 * `getErrorMessage` in src/App.js).
 */
module Errors {
  import opened Wrappers
  import opened JsText

  const RateLimitMessage := "Too many requests! Please wait 1 minute before refreshing."
  const InvalidKeyMessage := "Invalid API key. Check your .env file."
  const NetworkMessage := "Network error. Check your internet connection."
  const DefaultMessage := "Failed to load matches. Try again later."

  /** The separator the provider's error list is joined with. */
  const ErrorSeparator := ", "

  /** An HTTP response the client rejected: its status and the `errors` field of its body, if any. */
  datatype ErrorResponse = ErrorResponse(status: int, bodyErrors: Option<seq<string>>)

  /**
   * The shape of a caught error: the rejected response, if one arrived;
   * whether a request was sent; and the error's own `message`.
   */
  datatype FetchError = FetchError(response: Option<ErrorResponse>, requestSent: bool, message: string)

  /** An error raised by the controller's own code: no response and no request (`new Error(message)`). */
  function Thrown(message: string): (e: FetchError)
    ensures e.response.None? && !e.requestSent && e.message == message
  {
    FetchError(None, false, message)
  }

  /** `message || DEFAULT`: an empty message falls back to the default one. */
  function OrDefault(message: string): (m: string)
    ensures m != ""
    ensures message != "" ==> m == message
  {
    if message != "" then message else DefaultMessage
  }

  /**
   * `getErrorMessage(error)`. With a response, status 429 and 403 decide first,
   * then a body `errors` array (even an empty one) is joined; without a response
   * an error whose request was sent is a network error; everything else shows
   * the error's message, or the default message when that is empty.
   */
  function ErrorMessage(e: FetchError): (m: string)
    ensures m == "" <==>
      && e.response.Some?
      && e.response.value.status != 429 && e.response.value.status != 403
      && e.response.value.bodyErrors.Some?
      && (e.response.value.bodyErrors.value == [] || e.response.value.bodyErrors.value == [""])
  {
    if e.response.Some? then
      var r := e.response.value;
      if r.status == 429 then RateLimitMessage
      else if r.status == 403 then InvalidKeyMessage
      else if r.bodyErrors.Some? then
        JoinEmptyIff(r.bodyErrors.value, ErrorSeparator);
        Join(r.bodyErrors.value, ErrorSeparator)
      else OrDefault(e.message)
    else if e.requestSent then NetworkMessage
    else OrDefault(e.message)
  }

  /** Status 429 and 403 are looked at before anything else the error carries. */
  lemma StatusDecidesFirst(status: int, bodyErrors: Option<seq<string>>, requestSent: bool, message: string)
    requires status == 429 || status == 403
    ensures ErrorMessage(FetchError(Some(ErrorResponse(status, bodyErrors)), requestSent, message))
         == if status == 429 then RateLimitMessage else InvalidKeyMessage
  {
  }

  /** Any other rejected response with an `errors` array shows those errors joined with ", ". */
  lemma BodyErrorsJoined(status: int, errors: seq<string>, requestSent: bool, message: string)
    requires status != 429 && status != 403
    ensures ErrorMessage(FetchError(Some(ErrorResponse(status, Some(errors))), requestSent, message))
         == Join(errors, ErrorSeparator)
  {
  }

  /**
   * Every other shape shows the error's own message, or the default message
   * when that is empty: a rejected response with another status and no
   * `errors`, or an error with neither a response nor a request.
   */
  lemma FallbackToMessage(e: FetchError)
    requires || (&& e.response.Some?
                 && e.response.value.status != 429 && e.response.value.status != 403
                 && e.response.value.bodyErrors.None?)
             || (e.response.None? && !e.requestSent)
    ensures ErrorMessage(e) == OrDefault(e.message)
  {
  }

  /** With no response, a sent request means a network error, whatever the message says. */
  lemma NoResponseIsNetwork(message: string)
    ensures ErrorMessage(FetchError(None, true, message)) == NetworkMessage
  {
  }

  /**
   * The message of an error the controller throws for a provider error list:
   * the joined list, or the default message when the list is a single empty string.
   */
  lemma ThrownProviderErrors(errors: seq<string>)
    requires |errors| > 0
    ensures ErrorMessage(Thrown(Join(errors, ErrorSeparator)))
         == if errors == [""] then DefaultMessage else Join(errors, ErrorSeparator)
  {
    JoinEmptyIff(errors, ErrorSeparator);
  }
}
