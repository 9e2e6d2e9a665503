/** The SDK's error taxonomy (src/errors.ts) and the values an SDK call can throw. */
module Errors {
  import opened Wrappers
  import Zod

  /** The eight error kinds. */
  datatype SDKErrorType =
    | Unauthorized
    | NotFound
    | BadRequest
    | ApiError
    | Unknown
    | RateLimitExceeded
    | PaymentRequired
    | ValidationError

  const ALL_KINDS: set<SDKErrorType> :=
    {Unauthorized, NotFound, BadRequest, ApiError, Unknown, RateLimitExceeded, PaymentRequired, ValidationError}

  /** The string each kind carries on the wire. */
  function Code(k: SDKErrorType): string {
    match k
    case Unauthorized => "unauthorized"
    case NotFound => "not_found"
    case BadRequest => "bad_request"
    case ApiError => "api_error"
    case Unknown => "unknown"
    case RateLimitExceeded => "rate_limit_exceeded"
    case PaymentRequired => "payment_required"
    case ValidationError => "validation_error"
  }

  /** The kind whose code is `s`, if any: the inverse of `Code`. */
  function FromCode(s: string): (r: Option<SDKErrorType>)
    ensures r.Some? ==> Code(r.value) == s
    ensures r.None? ==> forall k :: Code(k) != s
  {
    if s == "unauthorized" then Some(Unauthorized)
    else if s == "not_found" then Some(NotFound)
    else if s == "bad_request" then Some(BadRequest)
    else if s == "api_error" then Some(ApiError)
    else if s == "unknown" then Some(Unknown)
    else if s == "rate_limit_exceeded" then Some(RateLimitExceeded)
    else if s == "payment_required" then Some(PaymentRequired)
    else if s == "validation_error" then Some(ValidationError)
    else None
  }

  lemma FromCodeOfCode(k: SDKErrorType)
    ensures FromCode(Code(k)) == Some(k)
  {
  }

  /** There are exactly eight kinds, and no two share a code. */
  lemma EightDistinctKinds()
    ensures forall k :: k in ALL_KINDS
    ensures |ALL_KINDS| == 8
    ensures forall a, b :: Code(a) == Code(b) ==> a == b
  {
    forall k ensures k in ALL_KINDS {
      match k
      case Unauthorized =>
      case NotFound =>
      case BadRequest =>
      case ApiError =>
      case Unknown =>
      case RateLimitExceeded =>
      case PaymentRequired =>
      case ValidationError =>
    }
    forall a, b | Code(a) == Code(b) ensures a == b {
      FromCodeOfCode(a);
      FromCodeOfCode(b);
    }
  }

  /**
   * An `SDKError`: its kind (the source's `type` field) and the message given to
   * the constructor, which may be absent.
   */
  datatype SDKError = SDKError(kind: SDKErrorType, message: Option<string>) {
    /** Every SDK error is named "UtopianLabsError". */
    const name: string := "UtopianLabsError"
  }

  /** What an SDK call can throw: an SDK error, the validator's error, or a runtime `TypeError`. */
  datatype Thrown = Sdk(error: SDKError) | ZodError(issues: seq<Zod.Issue>) | TypeError(message: string)

  /** The `name` property of a thrown value. */
  function ErrorName(t: Thrown): string {
    match t
    case Sdk(e) => e.name
    case ZodError(_) => "ZodError"
    case TypeError(_) => "TypeError"
  }

  /** `SDKError.isSDKError(t)`. */
  predicate IsSdkError(t: Thrown) {
    t.Sdk?
  }

  /** The name test `error.name === "ZodError"` singles out exactly the validator's errors. */
  lemma ZodNameIdentifiesValidatorErrors(t: Thrown)
    ensures ErrorName(t) == "ZodError" <==> t.ZodError?
    ensures IsSdkError(t) <==> ErrorName(t) == "UtopianLabsError"
  {
  }
}
