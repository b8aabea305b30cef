/**
 * universal_error_handler and _format_error of src/service/exception_handlers.py:
 * an exception becomes a status code and a JSON body with three keys.
 */
module ExceptionHandlers {
  import opened Wrappers
  import opened Errors
  import opened Exceptions
  import ErrorMapping

  datatype Json = JNull | JInt(n: int) | JStr(s: string)

  datatype Response = Response(statusCode: int, content: map<string, Json>)

  const GenericMessage := "An unexpected error occurred"
  const UnknownErrorMessage := "Unknown error"

  /** Python truthiness of an optional string: present and non-empty. */
  predicate Truthy(s: Option<string>) {
    s.Some? && s.value != ""
  }

  function IntOrNull(o: Option<int>): Json {
    if o.Some? then JInt(o.value) else JNull
  }

  function StrOrNull(o: Option<string>): Json {
    if o.Some? then JStr(o.value) else JNull
  }

  /** `message or error_type_str or "Unknown error"`. */
  function MessageOrFallback(message: Option<string>, errorTypeStr: Option<string>): (m: string)
    ensures m != ""
    ensures Truthy(message) ==> m == message.value
    ensures !Truthy(message) && Truthy(errorTypeStr) ==> m == errorTypeStr.value
    ensures !Truthy(message) && !Truthy(errorTypeStr) ==> m == UnknownErrorMessage
  {
    if Truthy(message) then message.value
    else if Truthy(errorTypeStr) then errorTypeStr.value
    else UnknownErrorMessage
  }

  function FormatError(statusCode: int, errorCode: Option<int>, errorTypeStr: Option<string>, message: Option<string>): (r: Response)
    ensures r.statusCode == statusCode
    ensures r.content.Keys == {"error", "error_type", "message"}
    ensures r.content["error"] == IntOrNull(errorCode)
    ensures r.content["error_type"] == StrOrNull(errorTypeStr)
    ensures r.content["message"] == JStr(MessageOrFallback(message, errorTypeStr))
    ensures r.content["message"].s != ""
  {
    Response(statusCode, map[
      "error" := IntOrNull(errorCode),
      "error_type" := StrOrNull(errorTypeStr),
      "message" := JStr(MessageOrFallback(message, errorTypeStr))
    ])
  }

  /** The (error_code, error_type) pair of an optional ErrorType. */
  function CodeOf(t: Option<ErrorType>): Option<int> {
    if t.Some? then Some(t.value.ErrorCode()) else None
  }

  function LabelOf(t: Option<ErrorType>): Option<string> {
    if t.Some? then Some(t.value.Label()) else None
  }

  function UniversalErrorHandler(exc: Exc): (r: Response)
    ensures r.content.Keys == {"error", "error_type", "message"}
    ensures r.content["message"].JStr? && r.content["message"].s != ""
    ensures IsSparkManagerError(exc) ==>
      var m := ErrorMapping.MapError(exc);
      && r.statusCode == m.httpCode
      && r.content["error"] == IntOrNull(CodeOf(m.errType))
      && r.content["error_type"] == StrOrNull(LabelOf(m.errType))
      && r.content["message"] == JStr(
           if exc.message != "" then exc.message
           else if m.errType.Some? then m.errType.value.Label()
           else UnknownErrorMessage)
    ensures exc.RequestValidationError? ==>
      && r.statusCode == ErrorMapping.HTTP_400_BAD_REQUEST
      && r.content["error"] == JInt(30010)
      && r.content["error_type"] == JStr("Request validation failed")
      && r.content["message"] == JStr(if exc.errors != "" then exc.errors else "Request validation failed")
    ensures exc.HTTPException? ==>
      && r.statusCode == exc.statusCode
      && r.content["error"] == JNull && r.content["error_type"] == JNull
      && r.content["message"] == JStr(if exc.detail != "" then exc.detail else UnknownErrorMessage)
    ensures !IsSparkManagerError(exc) && !exc.RequestValidationError? && !exc.HTTPException? ==>
      r == Response(500, map["error" := JNull, "error_type" := JNull, "message" := JStr(GenericMessage)])
  {
    if IsSparkManagerError(exc) then
      var m := ErrorMapping.MapError(exc);
      var errorTypeStr := LabelOf(m.errType);
      var message := if exc.message != "" then Some(exc.message) else errorTypeStr;
      FormatError(m.httpCode, CodeOf(m.errType), errorTypeStr, message)
    else if exc.RequestValidationError? then
      FormatError(ErrorMapping.HTTP_400_BAD_REQUEST, Some(RequestValidationFailed.ErrorCode()),
                  Some(RequestValidationFailed.Label()), Some(exc.errors))
    else if exc.HTTPException? then
      FormatError(exc.statusCode, None, None, Some(exc.detail))
    else
      FormatError(ErrorMapping.HTTP_500_INTERNAL_SERVER_ERROR, None, None, Some(GenericMessage))
  }

  /** The body of an unexpected exception is the same whatever the exception says. */
  lemma NoInternalDetail(a: Exc, b: Exc)
    requires !IsSparkManagerError(a) && !a.RequestValidationError? && !a.HTTPException?
    requires !IsSparkManagerError(b) && !b.RequestValidationError? && !b.HTTPException?
    ensures UniversalErrorHandler(a) == UniversalErrorHandler(b)
  {
  }

  /** Every exception of the application's hierarchy goes through map_error. */
  lemma AppErrorsAreMapped(c: AppClass, msg: string)
    ensures UniversalErrorHandler(AppError(c, msg)).statusCode == ErrorMapping.MapError(AppError(c, msg)).httpCode
  {
    AllAreSparkManagerErrors(c);
  }

  /** A missing token with an empty message still reports the type label. */
  lemma EmptyMessageFallsBack()
    ensures UniversalErrorHandler(AppError(MissingTokenError, "")).content["message"] == JStr("No authentication token")
    ensures UniversalErrorHandler(AppError(SparkManagerError, "")).content["message"] == JStr(UnknownErrorMessage)
  {
    AllAreSparkManagerErrors(MissingTokenError);
    AllAreSparkManagerErrors(SparkManagerError);
  }
}
