/** The ErrorType enum of src/service/errors.py: each member is a (code, label) pair. */
module Errors {
  import opened Wrappers

  datatype ErrorType =
    | AuthenticationFailed
    | NoToken
    | InvalidToken
    | InvalidAuthHeader
    | MissingRole
    | ConfigurationLimitExceeded
    | ClusterDeletionFailed
    | RequestValidationFailed
  {
    /** The member's value, the pair its constructor receives. */
    function Value(): (int, string) {
      match this
      case AuthenticationFailed => (10000, "Authentication failed")
      case NoToken => (10010, "No authentication token")
      case InvalidToken => (10020, "Invalid token")
      case InvalidAuthHeader => (10030, "Invalid authentication header")
      case MissingRole => (10040, "Missing required role")
      case ConfigurationLimitExceeded => (10050, "Configuration limit exceeded")
      case ClusterDeletionFailed => (10060, "Cluster deletion failed")
      case RequestValidationFailed => (30010, "Request validation failed")
    }

    /** The error_code attribute: a multiple of ten, 10000-10060 for service errors, 30010 for request validation. */
    function ErrorCode(): (c: int)
      ensures c % 10 == 0
      ensures 10000 <= c <= 10060 || c == 30010
    {
      Value().0
    }

    /** The error_type attribute: a short, non-empty label. */
    function Label(): (s: string)
      ensures s != ""
    {
      Value().1
    }
  }

  /** The members in declaration order. */
  const AllErrorTypes: seq<ErrorType> := [
    AuthenticationFailed, NoToken, InvalidToken, InvalidAuthHeader, MissingRole,
    ConfigurationLimitExceeded, ClusterDeletionFailed, RequestValidationFailed
  ]

  function FindByCode(ts: seq<ErrorType>, code: int): (r: Option<ErrorType>)
    ensures r.Some? ==> r.value in ts && r.value.ErrorCode() == code
    ensures r.None? ==> forall i :: 0 <= i < |ts| ==> ts[i].ErrorCode() != code
    decreases |ts|
  {
    if ts == [] then None
    else if ts[0].ErrorCode() == code then Some(ts[0])
    else FindByCode(ts[1..], code)
  }

  lemma EveryTypeListed(t: ErrorType)
    ensures t in AllErrorTypes
  {
    match t
    case AuthenticationFailed => assert AllErrorTypes[0] == t;
    case NoToken => assert AllErrorTypes[1] == t;
    case InvalidToken => assert AllErrorTypes[2] == t;
    case InvalidAuthHeader => assert AllErrorTypes[3] == t;
    case MissingRole => assert AllErrorTypes[4] == t;
    case ConfigurationLimitExceeded => assert AllErrorTypes[5] == t;
    case ClusterDeletionFailed => assert AllErrorTypes[6] == t;
    case RequestValidationFailed => assert AllErrorTypes[7] == t;
  }

  /** The member carrying a given code, if any. */
  function FromCode(code: int): (r: Option<ErrorType>)
    ensures r.Some? ==> r.value.ErrorCode() == code
    ensures r.None? ==> forall t: ErrorType :: t.ErrorCode() != code
  {
    var r := FindByCode(AllErrorTypes, code);
    forall t: ErrorType ensures t in AllErrorTypes {
      EveryTypeListed(t);
    }
    r
  }

  /** The eight codes are pairwise distinct. */
  lemma CodesDistinct(a: ErrorType, b: ErrorType)
    ensures a.ErrorCode() == b.ErrorCode() ==> a == b
  {
  }

  lemma LabelsDistinct(a: ErrorType, b: ErrorType)
    ensures a.Label() == b.Label() ==> a == b
  {
  }

  /** A code identifies its member: FromCode inverts ErrorCode. */
  lemma FromCodeRoundTrip(t: ErrorType)
    ensures FromCode(t.ErrorCode()) == Some(t)
  {
    var r := FromCode(t.ErrorCode());
    CodesDistinct(r.value, t);
  }

  /** Authentication codes 10000..10040 in steps of 10, cluster codes 10050 and 10060, validation 30010. */
  lemma CodeFamilies(t: ErrorType)
    ensures t in {AuthenticationFailed, NoToken, InvalidToken, InvalidAuthHeader, MissingRole}
        <==> 10000 <= t.ErrorCode() <= 10040 && t.ErrorCode() % 10 == 0
    ensures t in {ConfigurationLimitExceeded, ClusterDeletionFailed} <==> t.ErrorCode() in {10050, 10060}
    ensures t == RequestValidationFailed <==> t.ErrorCode() == 30010
  {
  }
}
