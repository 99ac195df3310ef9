/**
 The worker's durable records: what `read` accepts, what each operation writes, and why
 everything it writes is accepted again later.
 */
module SpoolRecords {
  import opened Text
  import opened Payload
  import opened DeliveryError
  import opened SpoolNames
  import opened Checkout
  import SourceConfig
  import SourceMap
  import Backoff

  datatype Binding = Binding(
    version: int, receiverId: string, jenkinsId: string, origin: string, sourceId: string,
    workspaceId: string, componentId: string, job: string, firstBuild: int)

  /**
   A worker's fixed surroundings; `bindingDigest` is the digest of the encoded binding, `source` the receiver's
   configuration of the source the worker delivers to, and `printer` the encoder of the facts it hashes.
   */
  datatype Config = Config(
    codec: Codec, binding: Binding, bindingDigest: string, source: SourceConfig.Source, printer: SourceMap.Printer)

  /**
   What `parseBinding` and the digest guarantee of a configuration, as far as the records need it, and that worker
   and receiver mean the same source.
   */
  predicate ValidConfig(cfg: Config) {
    && LowerHex(cfg.bindingDigest, 64) && TokenPattern(cfg.binding.sourceId)
    && ValidJob(cfg.binding.job) && 1 <= cfg.binding.firstBuild <= MAX_BUILD
    && cfg.source.id == cfg.binding.sourceId && cfg.source.workspaceId == cfg.binding.workspaceId
  }

  datatype Status = Pending | InFlight | RetryWait | Blocked | Delivered | Compacted | OtherStatus(text: string)

  function StatusText(s: Status): string {
    match s
    case Pending => "pending"
    case InFlight => "in_flight"
    case RetryWait => "retry_wait"
    case Blocked => "blocked"
    case Delivered => "delivered"
    case Compacted => "compacted"
    case OtherStatus(text) => text
  }

  datatype Record = Record(
    version: int, binding: string, number: int, payload: Bytes, digest: string,
    status: Status, reason: Code, disposition: Disposition, httpStatus: int,
    rounds: int, first: Option<Time>, next: Time, created: Time, updated: Time,
    delivered: Option<Time>, ciRunId: string, resets: seq<Time>)

  datatype Tombstone = Tombstone(
    version: int, binding: string, sourceId: string, number: int, digest: string,
    ciRunId: string, delivered: Time, compacted: Time)

  /** One decoded file of the state directory. */
  datatype StateFile = Full(record: Record) | Compact(tombstone: Tombstone)

  datatype Ack = Ack(version: int, sourceId: string, number: int, digest: string)

  const MAX_ROUNDS := 12
  const MAX_RESETS := 128
  const RETENTION: Time := 7 * DAY
  const WINDOW: Time := 24 * HOUR
  const MAX_RESPONSE := 4096

  // ---------- What `read` accepts ----------

  /** The payload is a version 1 terminal fact of the bound job and of this build. */
  predicate Sendable(cfg: Config, number: int, payload: Bytes, now: Time) {
    match ParsePayload(cfg.codec, payload, now)
    case Accepted(p) => p.version == 1 && p.job == cfg.binding.job && p.number == number
    case _ => false
  }

  predicate StatusRules(r: Record) {
    match r.status
    case Pending => r.rounds == 0 && r.reason.NoCode? && r.disposition.NoDisposition?
    case InFlight => r.rounds >= 1 && r.reason.NoCode? && r.disposition.NoDisposition?
    case RetryWait => r.rounds >= 1 && r.disposition.Retry? && SafeReason(r.reason)
    case Blocked => SafeReason(r.reason) && (r.disposition.Block? || r.disposition.Pause?)
    case Delivered =>
      && r.rounds >= 1 && r.delivered.Some? && r.delivered.value >= r.created
      && CiRunIdPattern(r.ciRunId) && r.reason.NoCode? && r.disposition.NoDisposition?
    case Compacted => false
    case OtherStatus(_) => false
  }

  /** Every check of `read` that looks at neither the HTTP status nor the clock. */
  predicate Consistent(cfg: Config, number: int, r: Record) {
    && r.version == 1 && r.binding == cfg.bindingDigest && r.number == number
    && |r.payload| <= MAX_BODY && r.digest == cfg.codec.digest(r.payload)
    && 0 <= r.rounds <= MAX_ROUNDS && |r.resets| <= MAX_RESETS
    && r.created != ZERO_TIME && r.updated >= r.created && r.next != ZERO_TIME
    && (r.first.None? <==> r.rounds == 0)
    && (r.first.Some? ==> r.first.value != ZERO_TIME && r.first.value >= r.created)
    && StatusRules(r)
    && (r.status.Delivered? || (r.delivered.None? && r.ciRunId == ""))
  }

  predicate ConsistentTombstone(cfg: Config, number: int, c: Tombstone) {
    && c.version == 2 && c.binding == cfg.bindingDigest && c.sourceId == cfg.binding.sourceId && c.number == number
    && Sha256Pattern(c.digest) && CiRunIdPattern(c.ciRunId)
    && c.delivered != ZERO_TIME && c.compacted >= c.delivered + RETENTION
  }

  /** `read` and `readCompact`; none stands for the state error. */
  function Read(cfg: Config, number: int, f: StateFile, now: Time): Option<Record> {
    match f
    case Full(r) =>
      if StoredStatus(r.httpStatus) && Consistent(cfg, number, r)
         && (r.status.Blocked? || Sendable(cfg, number, r.payload, now))
      then Some(r) else None
    case Compact(c) =>
      if ConsistentTombstone(cfg, number, c) then
        Some(Record(2, c.binding, c.number, [], c.digest, Compacted, NoCode, NoDisposition, 0, 0,
                    None, ZERO_TIME, ZERO_TIME, c.compacted, Some(c.delivered), c.ciRunId, []))
      else None
  }

  // ---------- What each operation writes ----------

  predicate Live(r: Record) { r.status.Pending? || r.status.InFlight? || r.status.RetryWait? }

  predicate Exhausted(r: Record, now: Time) {
    r.rounds >= MAX_ROUNDS || (r.first.Some? && now >= r.first.value + WINDOW)
  }

  /** The reasons for which `Retry` refuses to reset a blocked record. */
  predicate Resettable(reason: Code) {
    && !reason.Conflict? && !reason.InputConflict? && !reason.SourceBindingMismatch?
    && !reason.InvalidRequest? && !reason.UnsupportedResultCode? && !reason.RunNotCompleted?
  }

  /** The error `Import` assigns to a decoded input; the durable worker refuses version 2. */
  function ImportError(parse: Parse): Option<SendError> {
    match parse
    case Accepted(p) => if p.version == 2 then Some(ErrInvalid) else None
    case NotCompleted(v, _, _) => Some(if v == 2 then ErrInvalid else ErrRunNotCompleted)
    case UnsupportedResult(v, _, _) => Some(if v == 2 then ErrInvalid else ErrUnsupportedResult)
    case Invalid => Some(ErrInvalid)
  }

  predicate ForeignIdentity(cfg: Config, number: int, parse: Parse) {
    match parse
    case Accepted(p) => p.number != number || p.job != cfg.binding.job
    case NotCompleted(_, job, n) => n != number || job != cfg.binding.job
    case UnsupportedResult(_, job, n) => n != number || job != cfg.binding.job
    case Invalid => false
  }

  function ImportRecord(cfg: Config, number: int, body: Bytes, now: Time): Record {
    ImportedAs(cfg, number, body, ParsePayload(cfg.codec, body, now), now)
  }

  function ImportedAs(cfg: Config, number: int, body: Bytes, parse: Parse, now: Time): Record {
    var draft := Record(1, cfg.bindingDigest, number, body, cfg.codec.digest(body), Pending, NoCode, NoDisposition,
                        0, 0, None, now, now, now, None, "", []);
    var error := ImportError(parse);
    if (error.None? || error.value.ErrUnsupportedResult? || error.value.ErrRunNotCompleted?) && ForeignIdentity(cfg, number, parse)
    then draft.(status := Blocked, reason := SourceBindingMismatch, disposition := Pause)
    else if error.Some? then
      var f := ClassifyDelivery(error.value);
      draft.(status := Blocked, reason := f.code, disposition := f.disposition)
    else draft
  }

  function ExhaustedRecord(r: Record, now: Time): Record {
    r.(status := Blocked, reason := RetryExhausted, disposition := Block, updated := now)
  }

  function ReservedRecord(r: Record, now: Time): Record {
    r.(first := if r.first.None? then Some(now) else r.first, rounds := r.rounds + 1, status := InFlight,
       reason := NoCode, disposition := NoDisposition, httpStatus := 0, updated := now)
  }

  /** `tick` rejects a success whose CI Run ID has the wrong shape. */
  function CheckedResult(result: SendResult): SendResult {
    if result.Sent? && !CiRunIdPattern(result.ciRunId) then SendFailed(ErrResponse) else result
  }

  function Delay(cfg: Config, r: Record): Time
    requires r.rounds >= 1
  {
    Backoff.SpoolDelay(cfg.codec.jitter(r.digest, r.rounds), r.rounds)
  }

  /**
   The record stored after a send. On the first round the stored first attempt is the instant after the
   send: the field points at the variable that is read again once the send returns.
   */
  function OutcomeRecord(cfg: Config, r: Record, result: SendResult, now: Time): Record
    requires r.rounds >= 1 && r.first.Some?
  {
    OutcomeAfter(r, result, Delay(cfg, r), now)
  }

  function OutcomeAfter(r: Record, result: SendResult, delay: Time, now: Time): Record
    requires r.rounds >= 1 && r.first.Some?
  {
    var first := if r.rounds == 1 then now else r.first.value;
    var base := r.(first := Some(first), updated := now);
    match CheckedResult(result)
    case Sent(id) => base.(status := Delivered, ciRunId := id, delivered := Some(now))
    case SendFailed(e) =>
      var f := ClassifyDelivery(e);
      if f.disposition.Retry? && r.rounds < MAX_ROUNDS && now < first + WINDOW then
        base.(status := RetryWait, reason := f.code, disposition := f.disposition, httpStatus := f.httpStatus,
              next := now + delay)
      else if f.disposition.Retry? then
        base.(status := Blocked, reason := RetryExhausted, disposition := Block, httpStatus := f.httpStatus)
      else
        base.(status := Blocked, reason := f.code, disposition := f.disposition, httpStatus := f.httpStatus)
  }

  function ResetRecord(r: Record, now: Time): Record {
    r.(resets := r.resets + [now], httpStatus := 0, status := Pending, reason := NoCode, disposition := NoDisposition,
       rounds := 0, first := None, next := now, updated := now)
  }

  function TombstoneOf(cfg: Config, r: Record, now: Time): Tombstone
    requires r.delivered.Some?
  {
    Tombstone(2, cfg.bindingDigest, cfg.binding.sourceId, r.number, r.digest, r.ciRunId, r.delivered.value, now)
  }

  function AckOf(cfg: Config, number: int, digest: string): Ack {
    Ack(1, cfg.binding.sourceId, number, digest)
  }

  // ---------- The invariant of the worker's own files ----------

  predicate RecordInv(cfg: Config, n: int, r: Record, now: Time) {
    && Consistent(cfg, n, r)
    && 0 < r.created && r.updated <= now
    && (r.first.Some? ==> r.first.value <= r.updated)
    && (Live(r) ==> 0 < r.next <= r.updated + HOUR)
    && (r.status.Pending? ==> r.next <= r.updated)
    && (r.status.Delivered? ==> r.delivered.value <= r.updated)
    && |r.ciRunId| <= MAX_RESPONSE
    && 0 <= r.httpStatus <= 999
    && (r.status.Pending? || r.status.InFlight? || r.status.Delivered? ==> r.httpStatus == 0)
    // Not checked by `read`: a blocked record that `Retry` would reset still holds a deliverable payload.
    && (!r.status.Blocked? || Resettable(r.reason) ==> Sendable(cfg, n, r.payload, r.created) && Sendable(cfg, n, r.payload, now))
  }

  predicate TombstoneInv(cfg: Config, n: int, c: Tombstone, now: Time) {
    && ConsistentTombstone(cfg, n, c) && c.compacted <= now && |c.ciRunId| <= MAX_RESPONSE
  }

  predicate FileInv(cfg: Config, n: int, f: StateFile, now: Time) {
    match f
    case Full(r) => RecordInv(cfg, n, r, now)
    case Compact(c) => TombstoneInv(cfg, n, c, now)
  }

  predicate Done(f: StateFile) { f.Compact? || f.record.status.Delivered? }

  function DigestOf(f: StateFile): string { if f.Full? then f.record.digest else f.tombstone.digest }

  function CiRunOf(f: StateFile): string { if f.Full? then f.record.ciRunId else f.tombstone.ciRunId }

  lemma SendableLater(cfg: Config, n: int, payload: Bytes, now: Time, later: Time)
    requires now <= later && Sendable(cfg, n, payload, now)
    ensures Sendable(cfg, n, payload, later)
  {
    AcceptedStaysAccepted(cfg.codec, payload, now, later);
  }

  lemma FileInvLater(cfg: Config, n: int, f: StateFile, now: Time, later: Time)
    requires now <= later && FileInv(cfg, n, f, now)
    ensures FileInv(cfg, n, f, later)
  {
    if f.Full? && Sendable(cfg, n, f.record.payload, now) {
      SendableLater(cfg, n, f.record.payload, now, later);
    }
  }

  /**
   `read` accepts a file of the worker at every later time exactly when the HTTP status stored in it is
   one `read` allows; the writers store whatever status the server sent.
   */
  lemma OwnFileReadable(cfg: Config, n: int, f: StateFile, now: Time, later: Time)
    requires now <= later && FileInv(cfg, n, f, now)
    ensures Read(cfg, n, f, later).Some? <==> (f.Full? ==> StoredStatus(f.record.httpStatus))
  {
    FileInvLater(cfg, n, f, now, later);
  }

  // ---------- Every writer keeps the invariant ----------

  lemma ImportKeepsInv(cfg: Config, n: int, body: Bytes, now: Time)
    requires 0 < now && |body| <= MAX_BODY
    ensures RecordInv(cfg, n, ImportRecord(cfg, n, body, now), now)
    ensures ImportRecord(cfg, n, body, now).status.Pending? <==> Sendable(cfg, n, body, now)
  {
    var parse := ParsePayload(cfg.codec, body, now);
    if parse.Accepted? { AcceptedFacts(cfg.codec, body, now); }
    ImportedInv(cfg, n, body, parse, now);
  }

  lemma ImportedInv(cfg: Config, n: int, body: Bytes, parse: Parse, now: Time)
    requires 0 < now && |body| <= MAX_BODY
    requires parse.Accepted? ==> parse.facts.version == 1 || parse.facts.version == 2
    ensures var r := ImportedAs(cfg, n, body, parse, now);
      && Consistent(cfg, n, r) && r.created == r.updated == r.next == now && r.first.None? && r.ciRunId == "" && r.httpStatus == 0
      && (r.status.Pending? || r.status.Blocked?) && r.payload == body
      && (r.status.Blocked? ==> !Resettable(r.reason))
      && (r.status.Pending? <==> parse.Accepted? && parse.facts.version == 1 && !ForeignIdentity(cfg, n, parse))
  {
  }

  lemma ExhaustKeepsInv(cfg: Config, n: int, r: Record, at: Time, now: Time)
    requires RecordInv(cfg, n, r, now) && Live(r) && r.updated <= at <= now
    ensures RecordInv(cfg, n, ExhaustedRecord(r, at), now)
  {
  }

  lemma ReserveKeepsInv(cfg: Config, n: int, r: Record, at: Time, now: Time)
    requires RecordInv(cfg, n, r, now) && Live(r) && !Exhausted(r, at) && r.updated <= at <= now
    ensures RecordInv(cfg, n, ReservedRecord(r, at), now)
  {
  }

  predicate LegalResult(result: SendResult) {
    match result
    case Sent(id) => |id| <= MAX_RESPONSE
    case SendFailed(e) => Controlled(e)
  }

  lemma OutcomeKeepsInv(cfg: Config, n: int, r: Record, result: SendResult, at: Time, now: Time)
    requires RecordInv(cfg, n, r, now) && r.status.InFlight? && r.updated <= at <= now && LegalResult(result)
    ensures RecordInv(cfg, n, OutcomeRecord(cfg, r, result, at), now)
  {
    Backoff.DelayBounds(cfg.codec.jitter(r.digest, r.rounds), r.rounds);
    OutcomeAfterInv(cfg, n, r, result, Delay(cfg, r), at);
  }

  lemma OutcomeAfterInv(cfg: Config, n: int, r: Record, result: SendResult, delay: Time, at: Time)
    requires Consistent(cfg, n, r) && 0 < r.created && r.updated <= at
    requires r.status.InFlight? && r.first.value <= r.updated && LegalResult(result) && 0 < delay <= HOUR && r.httpStatus == 0
    ensures var q := OutcomeAfter(r, result, delay, at);
      && Consistent(cfg, n, q) && q.created == r.created && q.updated == at && q.payload == r.payload
      && q.first.Some? && q.first.value <= at && (Live(q) ==> 0 < q.next <= at + HOUR)
      && (q.status.Delivered? ==> q.delivered == Some(at) && q.httpStatus == r.httpStatus) && |q.ciRunId| <= MAX_RESPONSE
      && (q.status.Delivered? || q.status.RetryWait? || q.status.Blocked?) && 0 <= q.httpStatus <= 999
  {
  }

  lemma ResetKeepsInv(cfg: Config, n: int, r: Record, at: Time, now: Time)
    requires RecordInv(cfg, n, r, now) && r.status.Blocked? && Resettable(r.reason) && |r.resets| < MAX_RESETS
    requires r.updated <= at <= now
    ensures RecordInv(cfg, n, ResetRecord(r, at), now)
  {
  }

  lemma TombstoneKeepsInv(cfg: Config, n: int, r: Record, at: Time, now: Time)
    requires RecordInv(cfg, n, r, now) && r.status.Delivered? && r.delivered.value + RETENTION <= at <= now
    ensures TombstoneInv(cfg, n, TombstoneOf(cfg, r, at), now)
  {
  }

  // ---------- Where a clock that steps back breaks the format ----------

  /**
   Two writers stamp a record with an instant they never compare with it, and every reader parses the payload
   at its own instant. A reset record is readable if and only if its stamp is not before the record's creation
   and the payload is still sendable where the reader's clock stands, which it is unless that clock stands
   before the creation too.
   */
  lemma ResetReadableIff(cfg: Config, n: int, r: Record, seen: Time, stamp: Time, reading: Time)
    requires RecordInv(cfg, n, r, seen) && r.status.Blocked? && Resettable(r.reason) && |r.resets| < MAX_RESETS
    ensures Read(cfg, n, Full(ResetRecord(r, stamp)), reading).Some?
            <==> stamp >= r.created && Sendable(cfg, n, r.payload, reading)
    ensures r.created <= reading ==> Sendable(cfg, n, r.payload, reading)
  {
    if r.created <= reading { SendableLater(cfg, n, r.payload, r.created, reading); }
  }

  const NOT_FOUND := SendFailed(Typed(DeliveryFailure(404, NotFound, Block)))

  /** A delivery the receiver did not know: imported, sent once and blocked, all at the instant `at`. */
  function BlockedAtOnce(cfg: Config, n: int, body: Bytes, at: Time): Record {
    ImportCounters(cfg, n, body, at);
    OutcomeRecord(cfg, ReservedRecord(ImportRecord(cfg, n, body, at), at), NOT_FOUND, at)
  }

  /**
   A clock one nanosecond behind is enough: such a record is readable and may be reset, and the reset stamped just
   before its creation can never be read again.
   */
  lemma BackwardResetUnreadable(cfg: Config, n: int, body: Bytes, at: Time, reading: Time)
    requires 1 < at && |body| <= MAX_BODY && Sendable(cfg, n, body, at)
    ensures var r := BlockedAtOnce(cfg, n, body, at);
      && RecordInv(cfg, n, r, at) && Read(cfg, n, Full(r), at) == Some(r)
      && r.status.Blocked? && Resettable(r.reason) && |r.resets| < MAX_RESETS
      && Read(cfg, n, Full(ResetRecord(r, at - 1)), reading).None?
  {
    ImportKeepsInv(cfg, n, body, at);
    ImportCounters(cfg, n, body, at);
    var draft := ImportRecord(cfg, n, body, at);
    hide ImportRecord;
    ReserveKeepsInv(cfg, n, draft, at, at);
    var reserved := ReservedRecord(draft, at);
    BlockedOutcome(cfg, n, reserved, at);
    ResetReadableIff(cfg, n, BlockedAtOnce(cfg, n, body, at), at, at - 1, reading);
  }

  lemma ImportCounters(cfg: Config, n: int, body: Bytes, at: Time)
    ensures var r := ImportRecord(cfg, n, body, at);
      r.rounds == 0 && r.resets == [] && r.first.None? && r.created == at && r.updated == at && r.payload == body
  {
    hide ParsePayload;
  }

  lemma BlockedOutcome(cfg: Config, n: int, r: Record, at: Time)
    requires RecordInv(cfg, n, r, at) && r.status.InFlight? && r.rounds == 1 && r.updated == at
    ensures var q := OutcomeRecord(cfg, r, NOT_FOUND, at);
      && RecordInv(cfg, n, q, at) && q.status.Blocked? && Resettable(q.reason) && StoredStatus(q.httpStatus)
      && q.resets == r.resets && q.created == r.created
  {
    assert LegalResult(NOT_FOUND);
    OutcomeKeepsInv(cfg, n, r, NOT_FOUND, at, at);
  }

  /** The response status of an answer, as far as one is stored, is in the reader's range. */
  predicate StatusInRange(result: SendResult) {
    result.SendFailed? && result.error.Typed? ==> StoredStatus(result.error.failure.httpStatus)
  }

  /** The answer blocks the record: it is no success, and it is final or comes too late for another round. */
  predicate Blocks(r: Record, result: SendResult, now: Time)
    requires r.first.Some?
  {
    match CheckedResult(result)
    case Sent(_) => false
    case SendFailed(e) =>
      !ClassifyDelivery(e).disposition.Retry? || r.rounds >= MAX_ROUNDS
      || (r.rounds > 1 && now >= r.first.value + WINDOW)
  }

  /**
   After a send the same holds, together with the range of the answer's status; a record that the answer
   blocked is read without its payload being parsed.
   */
  lemma OutcomeReadableIff(cfg: Config, n: int, r: Record, result: SendResult, seen: Time, stamp: Time, reading: Time)
    requires RecordInv(cfg, n, r, seen) && r.status.InFlight? && LegalResult(result)
    ensures Read(cfg, n, Full(OutcomeRecord(cfg, r, result, stamp)), reading).Some?
            <==> stamp >= r.created && StatusInRange(result) && (Blocks(r, result, stamp) || Sendable(cfg, n, r.payload, reading))
    ensures r.created <= reading ==> Sendable(cfg, n, r.payload, reading)
  {
    if r.created <= reading { SendableLater(cfg, n, r.payload, r.created, reading); }
    Backoff.DelayBounds(cfg.codec.jitter(r.digest, r.rounds), r.rounds);
    OutcomeAfterConsistentIff(cfg, n, r, result, Delay(cfg, r), stamp);
  }

  lemma OutcomeAfterConsistentIff(cfg: Config, n: int, r: Record, result: SendResult, delay: Time, stamp: Time)
    requires Consistent(cfg, n, r) && 0 < r.created && r.httpStatus == 0
    requires r.status.InFlight? && LegalResult(result) && 0 < delay <= HOUR
    ensures var q := OutcomeAfter(r, result, delay, stamp);
      && q.payload == r.payload && (q.status.Blocked? <==> Blocks(r, result, stamp))
      && (Consistent(cfg, n, q) <==> stamp >= r.created) && (StoredStatus(q.httpStatus) <==> StatusInRange(result))
  {
    hide CiRunIdPattern;
  }
}
