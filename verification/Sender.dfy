/**
 One delivery round: `send` posts the same delivery at most four times over an unreliable network to the
 receiver, classifies each answer, and reports one result.
 */
module Sender {
  import opened Text
  import opened Json
  import opened DeliveryError
  import opened Payload
  import opened Receiver
  import SourceConfig
  import SourceMap

  const MAX_ATTEMPTS := 4
  const MAX_REPLY := 4096

  /** A reply as read from the connection; `decoded` is its JSON value, if it has one. */
  datatype Reply = Reply(status: int, readError: bool, jsonMedia: bool, length: nat, decoded: Option<Value>, retryAfter: Option<int>)

  datatype Answer = NoReply(certificateFailure: bool) | Replied(reply: Reply)

  /** `parseResponse` */
  function ParseResponse(r: Reply): (id: Option<string>)
    ensures id.Some? ==> CiRunIdPattern(id.value) && r.length <= MAX_REPLY
  {
    if !r.jsonMedia || r.length > MAX_REPLY || r.decoded.None? then None
    else match Fields(r.decoded.value, DATA_NAMES)
         case None => None
         case Some(root) =>
           assert DATA_NAMES == ["data"];
           match Fields(root["data"], RECEIPT_NAMES)
           case None => None
           case Some(f) =>
             assert RECEIPT_NAMES == ["ci_run_id", "duplicate"];
             if f["ci_run_id"].String? && f["duplicate"].Bool? && CiRunIdPattern(f["ci_run_id"].text)
                && f["duplicate"].flag == (r.status == 200)
             then Some(f["ci_run_id"].text) else None
  }

  const DATA_NAMES := ["data"]
  const RECEIPT_NAMES := ["ci_run_id", "duplicate"]

  /** The machine codes a response body may name. */
  function CodeOf(text: string): Code {
    match text
    case "unauthenticated" => Unauthenticated
    case "invalid_request" => InvalidRequest
    case "unsupported_result" => UnsupportedResultCode
    case "run_not_completed" => RunNotCompleted
    case "source_binding_mismatch" => SourceBindingMismatch
    case "conflict" => Code.Conflict
    case "not_found" => NotFound
    case "secure_transport_required" => SecureTransportRequired
    case "invalid_origin" => InvalidOrigin
    case "invalid_proxy_chain" => InvalidProxyChain
    case "method_not_allowed" => MethodNotAllowed
    case "payload_too_large" => PayloadTooLarge
    case "unsupported_media_type" => UnsupportedMediaType
    case _ => DeliveryFailed
  }

  /** `responseError` */
  function ResponseError(r: Reply): (c: Code)
    ensures SafeReason(c)
  {
    if r.length > MAX_REPLY || r.decoded.None? then DeliveryFailed
    else
      var code := Member(Member(r.decoded.value, "error"), "code");
      if code.String? then CodeOf(code.text) else DeliveryFailed
  }

  /** The machine codes that cross the process boundary. */
  const PROTOCOL_CODES: set<string> := {
    "unauthenticated", "invalid_request", "unsupported_result", "run_not_completed", "source_binding_mismatch", "conflict",
    "not_found", "secure_transport_required", "invalid_origin", "invalid_proxy_chain", "method_not_allowed",
    "payload_too_large", "unsupported_media_type"}

  /** A listed code keeps its text; anything else is a failed delivery. */
  lemma CodeKeepsText(text: string)
    ensures CodeText(CodeOf(text)) == if text in PROTOCOL_CODES then text else "delivery_failed"
  {
  }

  /** A CI Run's ID: `cir_` and then at least one letter, digit, underscore or dash. */
  predicate CiRunNamed(id: string) {
    && HasPrefix(id, "cir_") && id != "cir_"
    && forall c | c in id[4..] :: 'a' <= c <= 'z' || 'A' <= c <= 'Z' || '0' <= c <= '9' || c == '_' || c == '-'
  }

  lemma CiRunNamedIsPattern(id: string)
    ensures CiRunNamed(id) <==> CiRunIdPattern(id)
  {
    if HasPrefix(id, "cir_") { assert id == id[..4] + id[4..]; }
  }

  /** The receiver's answer to a delivery, as it encodes it. */
  function Receipt(id: string, duplicate: bool): Value {
    Object([("data", Object([("ci_run_id", String(id)), ("duplicate", Bool(duplicate))]))])
  }

  /** The sender reads back the CI Run of a receipt, and only when its status says the same about a duplicate. */
  lemma ReceiptRoundTrip(r: Reply, id: string, duplicate: bool)
    requires r.decoded == Some(Receipt(id, duplicate))
    ensures ParseResponse(r) ==
      if r.jsonMedia && r.length <= 4096 && CiRunNamed(id) && (duplicate <==> r.status == 200) then Some(id) else None
  {
    var inner := [("ci_run_id", String(id)), ("duplicate", Bool(duplicate))];
    var outer := [("data", Object(inner))];
    assert outer[..0] == [] && Collect(outer) == map["data" := Object(inner)];
    assert inner[..1] == [inner[0]] && inner[..1][..0] == [];
    assert Collect(inner[..1]) == map["ci_run_id" := String(id)];
    assert Collect(inner) == map["ci_run_id" := String(id), "duplicate" := Bool(duplicate)];
    assert DATA_NAMES == ["data"] && RECEIPT_NAMES == ["ci_run_id", "duplicate"];
    CiRunNamedIsPattern(id);
    hide CiRunNamed, CiRunIdPattern;
  }

  /** `parseResponse`, step by step. */
  method ReadResponse(r: Reply) returns (id: Option<string>)
    ensures id == ParseResponse(r)
  {
    hide Closed, Collect;
    if !r.jsonMedia || r.length > 4096 || r.decoded.None? {
      return None;
    }
    var root := DecodeObject(r.decoded.value, ["data"]);
    if root.None? {
      return None;
    }
    assert DATA_NAMES == ["data"] && DATA_NAMES[0] in DATA_NAMES;
    NamesPresent(r.decoded.value, DATA_NAMES);
    var data := root.value["data"];
    var fields := DecodeObject(data, ["ci_run_id", "duplicate"]);
    if fields.None? {
      return None;
    }
    assert RECEIPT_NAMES == ["ci_run_id", "duplicate"] && RECEIPT_NAMES[0] in RECEIPT_NAMES && RECEIPT_NAMES[1] in RECEIPT_NAMES;
    NamesPresent(data, RECEIPT_NAMES);
    var f := fields.value;
    if !f["ci_run_id"].String? || !f["duplicate"].Bool? || !CiRunIdPattern(f["ci_run_id"].text)
       || f["duplicate"].flag != (r.status == 200) {
      return None;
    }
    return Some(f["ci_run_id"].text);
  }

  predicate Transient(status: int) { status in {408, 429, 500, 502, 503, 504} }

  predicate Success(status: int) { status == 200 || status == 201 }

  /**
   What the network may answer after a post. A well-formed success is only ever the receiver's own receipt for
   this delivery; every other answer, including none, may come at any time. A status has three digits, and a
   decoded text is no longer than the body it came from.
   */
  predicate Possible(a: Answer, l: Ledger, key: Key) {
    && (a.Replied? ==> 0 <= a.reply.status <= 999)
    && (a.Replied? && Success(a.reply.status) && !a.reply.readError && ParseResponse(a.reply).Some? ==>
      key in l.claims && l.claims[key].ciRunId == ParseResponse(a.reply).value
      && |ParseResponse(a.reply).value| <= a.reply.length)
  }

  /** Retry-After in whole seconds from 1 to 10, otherwise 1, 2, 4 and 8 seconds in turn. */
  function Pause(attempt: nat, retryAfter: Option<int>): (wait: Time)
    requires attempt < MAX_ATTEMPTS
    ensures SECOND <= wait <= 10 * SECOND
  {
    if retryAfter.Some? && 1 <= retryAfter.value <= 10 then retryAfter.value * SECOND
    else (if attempt == 0 then 1 else if attempt == 1 then 2 else if attempt == 2 then 4 else 8) * SECOND
  }

  /** What an answer settles at once; none when the delivery is tried again. */
  function Settled(a: Answer): Option<SendResult> {
    match a
    case NoReply(certificateFailure) =>
      if certificateFailure then Some(SendFailed(Typed(DeliveryFailure(0, TlsVerificationFailed, Disposition.Pause)))) else None
    case Replied(reply) =>
      if Success(reply.status) then
        if reply.readError then None
        else (match ParseResponse(reply)
              case Some(ciRunId) => Some(Sent(ciRunId))
              case None => Some(SendFailed(ErrResponse)))
      else if Transient(reply.status) then None
      else
        var code := ResponseError(reply);
        var pause := reply.status == 401 || code.SourceBindingMismatch?;
        Some(SendFailed(Typed(DeliveryFailure(reply.status, code, if pause then Disposition.Pause else Block))))
  }

  function RetryAfter(a: Answer): Option<int> {
    if a.Replied? then a.reply.retryAfter else None
  }

  /** The error that unsettled answers leave; a success that could not be read keeps the one before it. */
  function LastError(answers: seq<Answer>): SendError {
    if answers == [] then ErrDelivery
    else LastAfter(LastError(answers[..|answers| - 1]), answers[|answers| - 1])
  }

  function LastAfter(last: SendError, a: Answer): SendError {
    match a
    case NoReply(_) => ErrDelivery
    case Replied(reply) =>
      if Success(reply.status) then last else Typed(DeliveryFailure(reply.status, DeliveryFailed, Retry))
  }

  function TotalPause(answers: seq<Answer>): Time
    requires |answers| <= MAX_ATTEMPTS
  {
    if answers == [] then 0
    else TotalPause(answers[..|answers| - 1]) + Pause(|answers| - 1, RetryAfter(answers[|answers| - 1]))
  }

  /** The result the answers of one round call for; only a cancelled round stops short of a settled or a fourth answer. */
  predicate Concludes(answers: seq<Answer>, result: SendResult) {
    if answers != [] && Settled(answers[|answers| - 1]).Some? then result == Settled(answers[|answers| - 1]).value
    else if |answers| == MAX_ATTEMPTS then result == SendFailed(LastError(answers))
    else result == SendFailed(ErrDelivery)
  }

  /** An answer after which the same delivery is posted again. */
  predicate AsksAgain(a: Answer) {
    match a
    case NoReply(certificateFailure) => !certificateFailure
    case Replied(r) =>
      || r.status == 408 || r.status == 429 || r.status == 500 || r.status == 502 || r.status == 503 || r.status == 504
      || ((r.status == 200 || r.status == 201) && r.readError)
  }

  /**
   A reported failure by its status: one of the six that a restart or an overload gives is tried four times and left
   to a later round; any other final status blocks the build, and pauses the source for a refused signature or binding.
   */
  predicate ReportsByStatus(posts: nat, result: SendResult) {
    result.SendFailed? && result.error.Typed? && result.error.failure.httpStatus != 0 ==>
      var f := result.error.failure;
      if f.httpStatus == 408 || f.httpStatus == 429 || f.httpStatus == 500 || f.httpStatus == 502 || f.httpStatus == 503
         || f.httpStatus == 504
      then posts == 4 && f.disposition == Retry && f.code == DeliveryFailed
      else f.disposition == (if f.httpStatus == 401 || f.code == SourceBindingMismatch then Disposition.Pause else Block)
  }

  /** Four attempts were all in vain, or the one that was not is the last. */
  predicate ReportsLast(answers: seq<Answer>, result: SendResult) {
    answers != [] ==>
      var last := answers[|answers| - 1];
      && (AsksAgain(last) && |answers| < 4 ==> result == SendFailed(ErrDelivery))
      && (AsksAgain(last) ==> result.SendFailed?)
      && (last == NoReply(true) ==> result == SendFailed(Typed(DeliveryFailure(0, TlsVerificationFailed, Disposition.Pause))))
      && (last.Replied? && !AsksAgain(last) && (last.reply.status == 200 || last.reply.status == 201) ==>
            result.Sent? || result == SendFailed(ErrResponse))
      && (last.Replied? && !AsksAgain(last) && last.reply.status != 200 && last.reply.status != 201 ==>
            result.SendFailed? && result.error.Typed? && result.error.failure.httpStatus == last.reply.status)
      && (last.Replied? && AsksAgain(last) && |answers| == 4 && !last.reply.readError && last.reply.status > 201 ==>
            result.SendFailed? && result.error.Typed? && result.error.failure.httpStatus == last.reply.status)
  }

  lemma SettledByStatus(a: Answer)
    ensures AsksAgain(a) <==> Settled(a).None?
  {
    hide ParseResponse, ResponseError;
  }

  lemma {:induction false} LastErrorIsRetry(answers: seq<Answer>)
    requires forall i | 0 <= i < |answers| :: AsksAgain(answers[i])
    ensures LastError(answers) == ErrDelivery
            || (LastError(answers).Typed? && LastError(answers).failure.disposition == Retry && LastError(answers).failure.code == DeliveryFailed
                && LastError(answers).failure.httpStatus in {408, 429, 500, 502, 503, 504})
  {
    if answers != [] { LastErrorIsRetry(answers[..|answers| - 1]); }
  }

  lemma ConcludedByStatus(answers: seq<Answer>, result: SendResult)
    requires Concludes(answers, result) && |answers| <= MAX_ATTEMPTS
    requires forall i | 0 <= i < |answers| - 1 :: Settled(answers[i]).None?
    ensures ReportsByStatus(|answers|, result) && ReportsLast(answers, result)
    ensures forall i | 0 <= i < |answers| - 1 :: AsksAgain(answers[i])
  {
    hide ParseResponse, ResponseError;
    forall i | 0 <= i < |answers| ensures AsksAgain(answers[i]) <==> Settled(answers[i]).None? { SettledByStatus(answers[i]); }
    if answers != [] && Settled(answers[|answers| - 1]).None? { LastErrorIsRetry(answers); }
  }

  predicate HoldsClaim(l: Ledger, key: Key, ciRunId: string) { key in l.claims && l.claims[key].ciRunId == ciRunId }

  /**
   `send`; `configured` says whether the sender configuration is usable. It posts again only after an answer
   that settles nothing, at most four times and with at most thirty seconds of waiting, and reports what the
   last answer settled. The receiver, which maps the payload with its configuration of the source, is left as it
   was or as one delivery of the payload's own facts under the payload's own key leaves it;
   a reported success is the receiver's own CI Run for that key.
   */
  method Send(configured: bool, codec: Codec, printer: SourceMap.Printer, source: SourceConfig.Source, body: Bytes, now: Time, store: Store)
    returns (result: SendResult, posts: nat, waited: Time, ghost reached: bool, ghost id: string, ghost answers: seq<Answer>)
    modifies store
    ensures posts == |answers| <= MAX_ATTEMPTS && 0 <= waited <= 30 * SECOND
    ensures if !configured then posts == 0 && result == SendFailed(ErrConfiguration)
            else match ParsePayload(codec, body, now)
                 case Accepted(p) =>
                   var key, facts := ClaimKey(source.workspaceId, source.id, p), SourceMap.FactsDigest(codec, printer, source, p);
                   && Concludes(answers, result)
                   && store.Contents() == (if reached then Deliver(old(store.Contents()), key, facts, id).0 else old(store.Contents()))
                   && (result.Sent? ==> HoldsClaim(store.Contents(), key, result.ciRunId))
                 case Invalid => posts == 0 && result == SendFailed(ErrInvalid)
                 case NotCompleted(_, _, _) => posts == 0 && result == SendFailed(ErrRunNotCompleted)
                 case UnsupportedResult(_, _, _) => posts == 0 && result == SendFailed(ErrUnsupportedResult)
    ensures forall i | 0 <= i < |answers| - 1 :: AsksAgain(answers[i])
    ensures ReportsByStatus(posts, result) && ReportsLast(answers, result)
    ensures waited == TotalPause(answers) || (posts > 0 && waited == TotalPause(answers[..posts - 1]))
    ensures posts == 0 ==> !reached && store.Contents() == old(store.Contents())
    ensures result.SendFailed? ==> Controlled(result.error)
    ensures result.Sent? ==> posts > 0 && CiRunIdPattern(result.ciRunId) && |result.ciRunId| <= MAX_REPLY
  {
    hide ParsePayload, Deliver, Settled, Concludes;
    posts, waited, reached, id, answers := 0, 0, false, "", [];
    if !configured {
      result := SendFailed(ErrConfiguration);
      return;
    }
    match ParsePayload(codec, body, now) {
      case Invalid => result := SendFailed(ErrInvalid); return;
      case NotCompleted(_, _, _) => result := SendFailed(ErrRunNotCompleted); return;
      case UnsupportedResult(_, _, _) => result := SendFailed(ErrUnsupportedResult); return;
      case Accepted(p) =>
        result, posts, waited, reached, id, answers := Attempts(
          ClaimKey(source.workspaceId, source.id, p), SourceMap.FactsDigest(codec, printer, source, p), store);
        ConcludedByStatus(answers, result);
    }
  }

  /** The attempt loop of `send`. */
  method Attempts(key: Key, facts: string, store: Store)
    returns (result: SendResult, posts: nat, waited: Time, ghost reached: bool, ghost id: string, ghost answers: seq<Answer>)
    modifies store
    ensures posts == |answers| <= MAX_ATTEMPTS && 0 <= waited <= 30 * SECOND && Concludes(answers, result)
    ensures forall i | 0 <= i < |answers| - 1 :: Settled(answers[i]).None?
    ensures waited == TotalPause(answers) || (posts > 0 && waited == TotalPause(answers[..posts - 1]))
    ensures store.Contents() == if reached then Deliver(old(store.Contents()), key, facts, id).0 else old(store.Contents())
    ensures result.SendFailed? ==> Controlled(result.error)
    ensures result.Sent? ==> posts > 0 && CiRunIdPattern(result.ciRunId) && |result.ciRunId| <= MAX_REPLY
                             && key in store.claims && store.claims[key].ciRunId == result.ciRunId
    ensures posts == 0 ==> !reached
  {
    hide Deliver, Possible, Controlled, Settled, LastAfter, CiRunIdPattern;
    posts, waited, reached, id, answers := 0, 0, false, "", [];
    ErrDeliveryIsControlled();
    var last := ErrDelivery;
    var attempt := 0;
    result := SendFailed(ErrDelivery);
    while attempt < 4
      invariant 0 <= attempt < MAX_ATTEMPTS && posts == attempt == |answers| && result == SendFailed(ErrDelivery)
      invariant forall i | 0 <= i < |answers| :: Settled(answers[i]).None?
      invariant last == LastError(answers) && waited == TotalPause(answers)
      invariant 0 <= waited <= 10 * attempt * SECOND && waited <= 30 * SECOND
      invariant store.Contents() == if reached then Deliver(old(store.Contents()), key, facts, id).0 else old(store.Contents())
      invariant Controlled(last) && Controlled(result.error) && (posts == 0 ==> !reached)
    {
      var canceled: bool := *;
      if canceled {
        return;
      }
      reached, id := Post(key, facts, store, reached, id, old(store.Contents()));
      posts := posts + 1;
      var answer := Listen(store, key);
      ghost var earlier := answers;
      answers := answers + [answer];
      assert answers[..|answers| - 1] == earlier;
      var settled, retryAfter;
      settled, last, retryAfter := Classify(answer, last, store.Contents(), key);
      if settled.Some? {
        result := settled.value;
        return;
      }
      if attempt == 3 {
        result := SendFailed(last);
        return;
      }
      canceled := *;
      if canceled {
        return;
      }
      var delay := (if attempt == 0 then 1 else if attempt == 1 then 2 else 4) * SECOND;
      if retryAfter.Some? && 1 <= retryAfter.value <= 10 {
        delay := retryAfter.value * SECOND;
      }
      waited := waited + delay;
      attempt := attempt + 1;
    }
  }

  lemma ErrDeliveryIsControlled()
    ensures Controlled(ErrDelivery)
  {
  }

  /** The branches of `send` on one answer: the result it settles, or the error and the pause to go on with. */
  method Classify(answer: Answer, last: SendError, ghost ledger: Ledger, ghost key: Key)
    returns (settled: Option<SendResult>, next: SendError, retryAfter: Option<int>)
    requires Controlled(last) && Possible(answer, ledger, key)
    ensures settled == Settled(answer) && retryAfter == RetryAfter(answer)
    ensures settled.None? ==> next == LastAfter(last, answer)
    ensures Controlled(next) && (settled.Some? && settled.value.SendFailed? ==> Controlled(settled.value.error))
    ensures settled.Some? && settled.value.Sent? ==> CiRunIdPattern(settled.value.ciRunId) && |settled.value.ciRunId| <= MAX_REPLY
    ensures settled.Some? && settled.value.Sent? ==> key in ledger.claims && ledger.claims[key].ciRunId == settled.value.ciRunId
  {
    hide ParseResponse, ResponseError, CiRunIdPattern;
    settled, next, retryAfter := None, last, None;
    match answer {
      case NoReply(certificateFailure) =>
        next := ErrDelivery;
        if certificateFailure {
          settled := Some(SendFailed(Typed(DeliveryFailure(0, TlsVerificationFailed, Disposition.Pause))));
        }
      case Replied(reply) =>
        if reply.status == 200 || reply.status == 201 {
          if !reply.readError {
            var ciRunId := ReadResponse(reply);
            match ciRunId {
              case Some(id) => settled := Some(Sent(id));
              case None => settled := Some(SendFailed(ErrResponse));
            }
          }
        } else if reply.status == 408 || reply.status == 429 || reply.status == 500 || reply.status == 502
                  || reply.status == 503 || reply.status == 504 {
          next := Typed(DeliveryFailure(reply.status, DeliveryFailed, Retry));
        } else {
          var code := ResponseError(reply);
          var pause := reply.status == 401 || code.SourceBindingMismatch?;
          settled := Some(SendFailed(Typed(DeliveryFailure(reply.status, code, if pause then Disposition.Pause else Block))));
        }
        retryAfter := reply.retryAfter;
    }
  }

  /** One request: lost on the way, refused or rolled back by the receiver, or committed under a new CI Run ID. */
  method Post(key: Key, facts: string, store: Store, ghost reached: bool, ghost id: string, ghost before: Ledger)
    returns (ghost reachedNow: bool, ghost idNow: string)
    requires store.Contents() == if reached then Deliver(before, key, facts, id).0 else before
    modifies store
    ensures store.Contents() == if reachedNow then Deliver(before, key, facts, idNow).0 else before
  {
    reachedNow, idNow := reached, id;
    var arrives: bool := *;
    if arrives {
      var candidate: string := *;
      var admitted: bool := *;
      var receipt := store.RecordCompletedCIRun(key, facts, candidate, admitted);
      if receipt.Some? && admitted && !reached {
        reachedNow, idNow := true, candidate;
      }
    }
  }

  /** Some answer the network may give. */
  method Listen(store: Store, key: Key) returns (a: Answer)
    ensures Possible(a, store.Contents(), key)
  {
    hide ParseResponse;
    a := *;
    if !Possible(a, store.Contents(), key) {
      a := NoReply(false);
    }
  }
}
