/** Send outcomes, their machine codes, and the disposition `ClassifyDelivery` gives each error. */
module DeliveryError {
  import opened Text

  /** Every reason code the worker may store; `OtherCode` is any text outside the allow-list. */
  datatype Code =
    | NoCode
    | DeliveryFailed | InvalidDeliveryResponse | TlsVerificationFailed | InvalidConfiguration
    | InvalidRequest | UnsupportedResultCode | RunNotCompleted | SourceBindingMismatch
    | Conflict | NotFound | Unauthenticated | SecureTransportRequired | InvalidOrigin
    | InvalidProxyChain | MethodNotAllowed | PayloadTooLarge | UnsupportedMediaType
    | RetryExhausted | InputConflict
    | OtherCode(text: string)

  datatype Disposition = NoDisposition | Retry | Block | Pause | OtherDisposition(text: string)

  datatype DeliveryFailure = DeliveryFailure(httpStatus: int, code: Code, disposition: Disposition)

  datatype SendError =
    | Typed(failure: DeliveryFailure)
    | ErrResponse
    | ErrDelivery
    | ErrConfiguration
    | ErrBinding
    | ErrUnsupportedResult
    | ErrRunNotCompleted
    | ErrInvalid

  datatype SendResult = Sent(ciRunId: string) | SendFailed(error: SendError)

  /** `safeSpoolReason` */
  predicate SafeReason(code: Code) { !code.NoCode? && !code.OtherCode? }

  function ClassifyDelivery(e: SendError): DeliveryFailure {
    match e
    case Typed(f) => f
    case ErrResponse => DeliveryFailure(0, InvalidDeliveryResponse, Retry)
    case ErrDelivery => DeliveryFailure(0, DeliveryFailed, Retry)
    case ErrConfiguration => DeliveryFailure(0, InvalidConfiguration, Pause)
    case ErrBinding => DeliveryFailure(0, SourceBindingMismatch, Pause)
    case ErrUnsupportedResult => DeliveryFailure(0, UnsupportedResultCode, Block)
    case ErrRunNotCompleted => DeliveryFailure(0, RunNotCompleted, Block)
    case ErrInvalid => DeliveryFailure(0, InvalidRequest, Block)
  }

  /** What a sender may hand back: an allow-listed code, one of the three dispositions, a three-digit status. */
  predicate Controlled(e: SendError) {
    var f := ClassifyDelivery(e);
    SafeReason(f.code) && f.disposition in {Retry, Block, Pause} && 0 <= f.httpStatus <= 999
  }

  /** `^cir_[A-Za-z0-9_-]+$` */
  predicate CiRunIdPattern(s: string) {
    |s| > 4 && s[..4] == "cir_" && forall c :: c in s[4..] ==> IsIdChar(c)
  }

  /** HTTP statuses that `read` accepts in a stored record; 0 means none was recorded. */
  predicate StoredStatus(status: int) { status == 0 || 100 <= status <= 599 }

  /** The text of a code in a record and in a response. */
  function CodeText(c: Code): string {
    match c
    case NoCode => ""
    case DeliveryFailed => "delivery_failed"
    case InvalidDeliveryResponse => "invalid_delivery_response"
    case TlsVerificationFailed => "tls_verification_failed"
    case InvalidConfiguration => "invalid_configuration"
    case InvalidRequest => "invalid_request"
    case UnsupportedResultCode => "unsupported_result"
    case RunNotCompleted => "run_not_completed"
    case SourceBindingMismatch => "source_binding_mismatch"
    case Conflict => "conflict"
    case NotFound => "not_found"
    case Unauthenticated => "unauthenticated"
    case SecureTransportRequired => "secure_transport_required"
    case InvalidOrigin => "invalid_origin"
    case InvalidProxyChain => "invalid_proxy_chain"
    case MethodNotAllowed => "method_not_allowed"
    case PayloadTooLarge => "payload_too_large"
    case UnsupportedMediaType => "unsupported_media_type"
    case RetryExhausted => "retry_exhausted"
    case InputConflict => "input_conflict"
    case OtherCode(text) => text
  }

  /** The reasons a record may carry are these nineteen words. */
  const SAFE_REASONS: set<string> := {
    "delivery_failed", "invalid_delivery_response", "tls_verification_failed", "invalid_configuration", "invalid_request",
    "unsupported_result", "run_not_completed", "source_binding_mismatch", "conflict", "not_found", "unauthenticated",
    "secure_transport_required", "invalid_origin", "invalid_proxy_chain", "method_not_allowed", "payload_too_large",
    "unsupported_media_type", "retry_exhausted", "input_conflict"}

  lemma SafeReasonIsListed(c: Code)
    ensures !c.OtherCode? ==> (SafeReason(c) <==> CodeText(c) in SAFE_REASONS)
    ensures c.OtherCode? ==> !SafeReason(c)
  {
  }

  /** Every error of the sender gets its machine code and the one disposition it calls for. */
  lemma ClassifiedExactly(e: SendError)
    requires !e.Typed?
    ensures ClassifyDelivery(e).httpStatus == 0
    ensures ClassifyDelivery(e).disposition == Retry <==> e.ErrDelivery? || e.ErrResponse?
    ensures ClassifyDelivery(e).disposition == Pause <==> e.ErrConfiguration? || e.ErrBinding?
    ensures ClassifyDelivery(e).disposition == Block <==> e.ErrInvalid? || e.ErrUnsupportedResult? || e.ErrRunNotCompleted?
    ensures CodeText(ClassifyDelivery(e).code) ==
      match e
      case ErrResponse => "invalid_delivery_response"
      case ErrDelivery => "delivery_failed"
      case ErrConfiguration => "invalid_configuration"
      case ErrBinding => "source_binding_mismatch"
      case ErrUnsupportedResult => "unsupported_result"
      case ErrRunNotCompleted => "run_not_completed"
      case _ => "invalid_request"
  {
  }

  /** A failure that already has its code and disposition keeps them. */
  lemma ClassifiedAsTyped(f: DeliveryFailure)
    ensures ClassifyDelivery(Typed(f)) == f
  {
  }
}
