/**
 * The exception classes of src/service/exceptions.py as values, with the
 * subclass relation made explicit, plus the foreign exceptions the handlers see.
 */
module Exceptions {
  import opened Wrappers

  /** The classes of the application's hierarchy. */
  datatype AppClass =
    | SparkManagerError
    | AuthenticationError
    | MissingTokenError
    | InvalidAuthHeaderError
    | InvalidTokenError
    | MissingRoleError
    | ConfigurationLimitExceededError

  /** The direct superclass inside the hierarchy (SparkManagerError derives from Exception). */
  function Base(c: AppClass): Option<AppClass> {
    match c
    case SparkManagerError => None
    case AuthenticationError => Some(SparkManagerError)
    case MissingTokenError => Some(AuthenticationError)
    case InvalidAuthHeaderError => Some(AuthenticationError)
    case InvalidTokenError => Some(AuthenticationError)
    case MissingRoleError => Some(AuthenticationError)
    case ConfigurationLimitExceededError => Some(SparkManagerError)
  }

  /** Distance from SparkManagerError along Base. */
  function Depth(c: AppClass): nat {
    match c
    case SparkManagerError => 0
    case AuthenticationError => 1
    case ConfigurationLimitExceededError => 1
    case _ => 2
  }

  /** issubclass(c, d): the reflexive-transitive closure of Base. */
  predicate IsSubclassOf(c: AppClass, d: AppClass): (b: bool)
    ensures c == d ==> b
    ensures Base(c) == Some(d) ==> b
    ensures Base(c).None? ==> (b <==> c == d)
    decreases Depth(c)
  {
    c == d || (Base(c).Some? && IsSubclassOf(Base(c).value, d))
  }

  /** An exception value as the handlers see it; message is str(exc). */
  datatype Exc =
    | AppError(cls: AppClass, message: string)
    | RequestValidationError(errors: string)
    | HTTPException(statusCode: int, detail: string)
    | ValueError(message: string)
    | ApiException(status: int)
    | OtherException(message: string)

  /** isinstance(exc, SparkManagerError). */
  predicate IsSparkManagerError(e: Exc) {
    e.AppError? && IsSubclassOf(e.cls, SparkManagerError)
  }

  lemma {:induction false} SubclassTransitive(a: AppClass, b: AppClass, c: AppClass)
    requires IsSubclassOf(a, b) && IsSubclassOf(b, c)
    ensures IsSubclassOf(a, c)
    decreases Depth(a)
  {
    if a != b {
      SubclassTransitive(Base(a).value, b, c);
    }
  }

  lemma {:induction false} SubclassDepth(a: AppClass, b: AppClass)
    requires IsSubclassOf(a, b)
    ensures Depth(b) <= Depth(a)
    ensures Depth(b) == Depth(a) ==> a == b
    decreases Depth(a)
  {
    if a != b {
      SubclassDepth(Base(a).value, b);
    }
  }

  lemma SubclassAntisymmetric(a: AppClass, b: AppClass)
    requires IsSubclassOf(a, b) && IsSubclassOf(b, a)
    ensures a == b
  {
    SubclassDepth(a, b);
    SubclassDepth(b, a);
  }

  /** Every class of the hierarchy is a SparkManagerError, so every AppError takes the first handler branch. */
  lemma AllAreSparkManagerErrors(c: AppClass)
    ensures IsSubclassOf(c, SparkManagerError)
  {
  }

  /** The four authentication leaves derive directly from AuthenticationError. */
  lemma AuthenticationLeaves(c: AppClass)
    ensures Base(c) == Some(AuthenticationError)
        <==> c in {MissingTokenError, InvalidAuthHeaderError, InvalidTokenError, MissingRoleError}
    ensures Base(AuthenticationError) == Some(SparkManagerError)
  {
  }

  /** The leaves are siblings: none is a subclass of another. */
  lemma LeavesUnrelated(a: AppClass, b: AppClass)
    requires Base(a) == Some(AuthenticationError) && Base(b) == Some(AuthenticationError)
    ensures IsSubclassOf(a, b) <==> a == b
  {
    if IsSubclassOf(a, b) {
      SubclassDepth(a, b);
    }
  }
}
