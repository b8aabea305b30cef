/**
 * KBaseHTTPBearer.__call__ of src/service/http_bearer.py: the guard chain that
 * turns an `Authorization: Bearer <token>` header (section 2.1 of RFC 6750)
 * into a user, no user, or one of the authentication errors.
 */
module HttpBearer {
  import opened Wrappers
  import opened Text
  import opened Exceptions
  import ErrorMapping

  /** The admin level of a KBase user; the routes only distinguish FULL from the rest. */
  datatype AdminPermission = NoAdmin | FullAdmin

  datatype KBaseUser = KBaseUser(user: string, adminPerm: AdminPermission)

  /** What the KBase auth client's get_user answers for a token. */
  datatype AuthVerdict = Verified(user: KBaseUser) | TokenRejected | ClientFailed(detail: string)

  datatype BearerResult = NoUser | Authenticated(user: KBaseUser) | Raised(exc: Exc)

  const Scheme := "Bearer"

  /**
   * FastAPI's get_authorization_scheme_param: the text before the first space and
   * the text after it (both empty for an empty header).
   */
  function PartitionScheme(header: string): (r: (string, string))
    ensures forall i :: 0 <= i < |r.0| ==> r.0[i] != ' '
    ensures (exists i :: 0 <= i < |header| && header[i] == ' ') ==> header == r.0 + " " + r.1
    ensures (forall i :: 0 <= i < |header| ==> header[i] != ' ') ==> r == (header, "")
    decreases |header|
  {
    if header == [] then ("", "")
    else if header[0] == ' ' then ("", header[1..])
    else
      var rest := PartitionScheme(header[1..]);
      assert header == [header[0]] + header[1..];
      ([header[0]] + rest.0, rest.1)
  }

  /** `not (scheme and credentials)`. */
  predicate Malformed(parts: (string, string)) {
    parts.0 == "" || parts.1 == ""
  }

  /** `scheme.lower() == _SCHEME.lower()`. */
  predicate IsBearerScheme(scheme: string): (b: bool)
    ensures b <==> |scheme| == 6 && forall i :: 0 <= i < 6 ==> LowerChar(scheme[i]) == "bearer"[i]
  {
    var target := Lower(Scheme);
    assert target == "bearer" by {
      assert forall i :: 0 <= i < 6 ==> target[i] == "bearer"[i];
    }
    Lower(scheme) == target
  }

  /** The header passes every check that precedes the call to the auth client. */
  predicate HeaderAccepted(header: Option<string>, split: string -> (string, string)) {
    && header.Some? && header.value != ""
    && !Malformed(split(header.value))
    && IsBearerScheme(split(header.value).0)
  }

  datatype KBaseHTTPBearer = KBaseHTTPBearer(optional: bool) {

    /** The guard chain; split and getUser stand for FastAPI's helper and the auth client. */
    function Call(header: Option<string>, split: string -> (string, string), getUser: string -> AuthVerdict): (r: BearerResult)
      ensures r == NoUser <==> optional && (header.None? || header.value == "")
      ensures !optional && (header.None? || header.value == "") ==>
        r == Raised(AppError(MissingTokenError, "Authorization header required"))
      ensures header.Some? && header.value != "" && Malformed(split(header.value)) ==>
        r == Raised(AppError(InvalidAuthHeaderError, "Authorization header requires Bearer scheme followed by token"))
      ensures header.Some? && header.value != "" && !Malformed(split(header.value)) && !IsBearerScheme(split(header.value).0) ==>
        r == Raised(AppError(InvalidAuthHeaderError, "Authorization header requires Bearer scheme"))
      ensures r.Authenticated? <==> HeaderAccepted(header, split) && getUser(split(header.value).1).Verified?
      ensures r.Authenticated? ==> r.user == getUser(split(header.value).1).user
      ensures HeaderAccepted(header, split) && getUser(split(header.value).1).TokenRejected? ==>
        r == Raised(AppError(InvalidTokenError, "Invalid authentication token"))
      ensures HeaderAccepted(header, split) && getUser(split(header.value).1).ClientFailed? ==>
        r == Raised(AppError(AuthenticationError, "Authentication failed: " + getUser(split(header.value).1).detail))
    {
      if header.None? || header.value == "" then
        if optional then NoUser
        else Raised(AppError(MissingTokenError, "Authorization header required"))
      else
        var (scheme, credentials) := split(header.value);
        if scheme == "" || credentials == "" then
          Raised(AppError(InvalidAuthHeaderError, "Authorization header requires Bearer scheme followed by token"))
        else if Lower(scheme) != Lower(Scheme) then
          Raised(AppError(InvalidAuthHeaderError, "Authorization header requires Bearer scheme"))
        else
          match getUser(credentials)
          case Verified(u) => Authenticated(u)
          case TokenRejected => Raised(AppError(InvalidTokenError, "Invalid authentication token"))
          case ClientFailed(detail) => Raised(AppError(AuthenticationError, "Authentication failed: " + detail))
    }
  }

  /** The scheme is compared without regard to case (section 2.1 of RFC 7235). */
  lemma {:induction false} BearerSchemeCaseInsensitive(scheme: string)
    ensures IsBearerScheme(scheme) <==> Lower(scheme) == "bearer"
  {
    assert Lower(Scheme) == "bearer";
  }

  lemma SchemeSpellingsAccepted()
    ensures IsBearerScheme("bearer") && IsBearerScheme("BEARER") && IsBearerScheme("Bearer")
    ensures !IsBearerScheme("Basic") && !IsBearerScheme("Bearer1")
  {
    BearerSchemeCaseInsensitive("bearer");
    BearerSchemeCaseInsensitive("BEARER");
    BearerSchemeCaseInsensitive("Bearer");
    BearerSchemeCaseInsensitive("Basic");
    BearerSchemeCaseInsensitive("Bearer1");
  }

  /** Before every header check passes, the auth client's answer cannot matter. */
  lemma ClientConsultedLast(b: KBaseHTTPBearer, header: Option<string>, split: string -> (string, string),
                            c1: string -> AuthVerdict, c2: string -> AuthVerdict)
    requires !HeaderAccepted(header, split)
    ensures b.Call(header, split, c1) == b.Call(header, split, c2)
  {
  }

  /** The auth client sees exactly the credentials part: clients agreeing on it give the same result. */
  lemma ClientSeesCredentials(b: KBaseHTTPBearer, header: Option<string>, split: string -> (string, string),
                              c1: string -> AuthVerdict, c2: string -> AuthVerdict)
    requires HeaderAccepted(header, split)
    requires c1(split(header.value).1) == c2(split(header.value).1)
    ensures b.Call(header, split, c1) == b.Call(header, split, c2)
  {
  }

  /** A wrong scheme gets one fixed message, so the received scheme never reaches the error. */
  lemma WrongSchemeMessageFixed(b: KBaseHTTPBearer, h1: string, h2: string, getUser: string -> AuthVerdict)
    requires h1 != "" && h2 != ""
    requires !Malformed(PartitionScheme(h1)) && !IsBearerScheme(PartitionScheme(h1).0)
    requires !Malformed(PartitionScheme(h2)) && !IsBearerScheme(PartitionScheme(h2).0)
    ensures b.Call(Some(h1), PartitionScheme, getUser) == b.Call(Some(h2), PartitionScheme, getUser)
  {
  }

  /** "Bearer" with no token after it is malformed even when the header is optional. */
  lemma SchemeWithoutTokenRejected(getUser: string -> AuthVerdict)
    ensures KBaseHTTPBearer(true).Call(Some("Bearer"), PartitionScheme, getUser).Raised?
    ensures KBaseHTTPBearer(true).Call(Some("Bearer"), PartitionScheme, getUser).exc.cls == InvalidAuthHeaderError
  {
    assert forall i :: 0 <= i < |"Bearer"| ==> "Bearer"[i] != ' ';
  }

  /** Every exception the guard chain raises and its HTTP status after map_error. */
  lemma RaisedStatuses(b: KBaseHTTPBearer, header: Option<string>, split: string -> (string, string), getUser: string -> AuthVerdict)
    requires b.Call(header, split, getUser).Raised?
    ensures var e := b.Call(header, split, getUser).exc;
      && e.AppError?
      && (e.cls == AuthenticationError <==> ErrorMapping.MapError(e).httpCode == 500)
      && (e.cls != AuthenticationError ==> ErrorMapping.MapError(e).httpCode == 401)
  {
  }
}
