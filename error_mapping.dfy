/** map_error of src/service/error_mapping.py: exact-type lookup in a constant table. */
module ErrorMapping {
  import opened Wrappers
  import opened Errors
  import opened Exceptions

  /** Status codes of section 15 of RFC 9110. */
  const HTTP_400_BAD_REQUEST := 400
  const HTTP_401_UNAUTHORIZED := 401
  const HTTP_403_FORBIDDEN := 403
  const HTTP_500_INTERNAL_SERVER_ERROR := 500

  /** The application error type (None for a 5xx) and the HTTP status for an exception. */
  datatype ErrorMapping = ErrorMapping(errType: Option<ErrorType>, httpCode: int)

  const ErrMap: map<AppClass, ErrorMapping> := map[
    MissingTokenError := ErrorMapping(Some(NoToken), HTTP_401_UNAUTHORIZED),
    InvalidAuthHeaderError := ErrorMapping(Some(InvalidAuthHeader), HTTP_401_UNAUTHORIZED),
    InvalidTokenError := ErrorMapping(Some(InvalidToken), HTTP_401_UNAUTHORIZED),
    MissingRoleError := ErrorMapping(Some(MissingRole), HTTP_403_FORBIDDEN)
  ]

  /** _ERR_MAP holds the four authentication classes, each answered with 401 or 403. */
  lemma ErrMapTable()
    ensures ErrMap.Keys == {MissingTokenError, InvalidAuthHeaderError, InvalidTokenError, MissingRoleError}
    ensures forall c :: c in ErrMap ==> ErrMap[c].errType.Some? && ErrMap[c].httpCode in {401, 403}
    ensures forall c :: c in ErrMap ==> (ErrMap[c].httpCode == 403 <==> c == MissingRoleError)
  {
  }

  /** Look type(err) up in the table; anything not in it is an internal error. */
  function MapError(err: Exc): (m: ErrorMapping)
    ensures m.errType.None? <==> m.httpCode == HTTP_500_INTERNAL_SERVER_ERROR
    ensures m.httpCode in {HTTP_401_UNAUTHORIZED, HTTP_403_FORBIDDEN, HTTP_500_INTERNAL_SERVER_ERROR}
    ensures m.errType.Some? <==> err.AppError? && err.cls in ErrMap
    ensures m.errType.Some? ==> m == ErrMap[err.cls]
  {
    if err.AppError? && err.cls in ErrMap then ErrMap[err.cls]
    else ErrorMapping(None, HTTP_500_INTERNAL_SERVER_ERROR)
  }

  lemma MappedEntries(msg: string)
    ensures MapError(AppError(MissingTokenError, msg)) == ErrorMapping(Some(NoToken), 401)
    ensures MapError(AppError(InvalidAuthHeaderError, msg)) == ErrorMapping(Some(InvalidAuthHeader), 401)
    ensures MapError(AppError(InvalidTokenError, msg)) == ErrorMapping(Some(InvalidToken), 401)
    ensures MapError(AppError(MissingRoleError, msg)) == ErrorMapping(Some(MissingRole), 403)
  {
  }

  /**
   * The lookup uses the exact class, not subclassing: the base classes, and the
   * limit error absent from the table, fall to (None, 500).
   */
  lemma UnmappedClasses(c: AppClass, msg: string)
    requires c in {SparkManagerError, AuthenticationError, ConfigurationLimitExceededError}
    ensures MapError(AppError(c, msg)) == ErrorMapping(None, 500)
  {
  }

  /** The error type's code agrees with the status class: 401/403 carry an authentication-family code. */
  lemma MappedCodesAreAuthentication(err: Exc)
    requires MapError(err).errType.Some?
    ensures 10010 <= MapError(err).errType.value.ErrorCode() <= 10040
  {
  }
}
