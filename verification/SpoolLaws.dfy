/**
 What each operation makes of a record, said field by field and in plain numbers: a new import, a reserved round, a
 concluded round with its wait, an exhausted budget, a manual reset and a compaction.
 */
module SpoolLaws {
  import opened Text
  import opened Payload
  import opened DeliveryError
  import opened SpoolRecords
  import Backoff

  /** The limits and spans that the records obey, in plain numbers and nanoseconds. */
  lemma Limits()
    ensures SECOND == 1_000_000_000 && MINUTE == 60_000_000_000 && HOUR == 3_600_000_000_000 && DAY == 86_400_000_000_000
    ensures MAX_ROUNDS == 12 && MAX_RESETS == 128 && WINDOW == 86_400_000_000_000 && RETENTION == 604_800_000_000_000
    ensures MAX_BODY == 16384 && MAX_RESPONSE == 4096
  {
  }

  /** The wait after round k without its jitter: 1, 2, 4, 8, 16 and 32 minutes, and then an hour. */
  function Planned(k: int): Time {
    (if k <= 1 then 1 else if k == 2 then 2 else if k == 3 then 4 else if k == 4 then 8
     else if k == 5 then 16 else if k == 6 then 32 else 60) * 60_000_000_000
  }

  /** A wait after round k: at least the planned one, at most a tenth more, never above an hour. */
  predicate WaitFits(k: int, wait: Time) {
    Planned(k) <= wait && 10 * wait <= 11 * Planned(k) && wait <= 3_600_000_000_000
  }

  predicate SameIdentity(r: Record, q: Record) {
    && q.version == r.version && q.binding == r.binding && q.number == r.number
    && q.payload == r.payload && q.digest == r.digest && q.created == r.created
  }

  /** The first import of a build: pending if it is a version 1 fact of this job and build, blocked otherwise. */
  predicate Imports(cfg: Config, n: int, body: Bytes, r: Record, t: Time) {
    && r.version == 1 && r.binding == cfg.bindingDigest && r.number == n && r.payload == body && r.digest == cfg.codec.digest(body)
    && r.httpStatus == 0 && r.rounds == 0 && r.first == None && r.next == t && r.created == t && r.updated == t
    && r.delivered == None && r.ciRunId == "" && r.resets == []
    && Verdict(r) == ParsedVerdict(cfg, n, ParsePayload(cfg.codec, body, t))
  }

  function ParsedVerdict(cfg: Config, n: int, parse: Parse): (Status, Code, Disposition) {
    match parse
    case Accepted(p) => ImportVerdict(cfg, n, p.version, p.job, p.number, (Pending, NoCode, NoDisposition))
    case NotCompleted(v, job, m) => ImportVerdict(cfg, n, v, job, m, (Blocked, RunNotCompleted, Block))
    case UnsupportedResult(v, job, m) => ImportVerdict(cfg, n, v, job, m, (Blocked, UnsupportedResultCode, Block))
    case Invalid => (Blocked, InvalidRequest, Block)
  }

  function Verdict(r: Record): (Status, Code, Disposition) { (r.status, r.reason, r.disposition) }

  /** Version 2 is not this worker's; a known foreign job or number pauses the source. */
  function ImportVerdict(cfg: Config, n: int, version: int, job: string, number: int, own: (Status, Code, Disposition)): (Status, Code, Disposition)
  {
    if version == 2 then (Blocked, InvalidRequest, Block)
    else if job != cfg.binding.job || number != n then (Blocked, SourceBindingMismatch, Pause)
    else own
  }

  lemma ImportsRecord(cfg: Config, n: int, body: Bytes, t: Time)
    ensures Imports(cfg, n, body, ImportRecord(cfg, n, body, t), t)
  {
    VerdictOfParse(cfg, n, body, ParsePayload(cfg.codec, body, t), t);
    hide ParsePayload, ParsedVerdict;
  }

  lemma VerdictOfParse(cfg: Config, n: int, body: Bytes, parse: Parse, t: Time)
    ensures var r := ImportedAs(cfg, n, body, parse, t);
      && Verdict(r) == ParsedVerdict(cfg, n, parse)
      && r.(status := Pending, reason := NoCode, disposition := NoDisposition)
         == Record(1, cfg.bindingDigest, n, body, cfg.codec.digest(body), Pending, NoCode, NoDisposition, 0, 0, None, t, t, t, None, "", [])
  {
  }

  /** Nothing else may be imported. */
  lemma ImportsOnly(cfg: Config, n: int, body: Bytes, r: Record, t: Time)
    requires Imports(cfg, n, body, r, t)
    ensures r == ImportRecord(cfg, n, body, t)
  {
    ImportsRecord(cfg, n, body, t);
    hide ImportRecord, ParsePayload;
  }

  predicate IsLive(r: Record) { r.status == Pending || r.status == InFlight || r.status == RetryWait }

  /** Twelve rounds, or a day since the first attempt. */
  predicate PastBudget(r: Record, t: Time) {
    r.rounds >= 12 || (r.first.Some? && t >= r.first.value + 86_400_000_000_000)
  }

  predicate Exhausts(r: Record, q: Record, t: Time) {
    && IsLive(r) && PastBudget(r, t) && SameIdentity(r, q)
    && Verdict(q) == (Blocked, RetryExhausted, Block) && q.updated == t
    && q.httpStatus == r.httpStatus && q.rounds == r.rounds && q.first == r.first && q.next == r.next
    && q.delivered == r.delivered && q.ciRunId == r.ciRunId && q.resets == r.resets
  }

  predicate Reserves(r: Record, q: Record, t: Time) {
    && SameIdentity(r, q) && Verdict(q) == (InFlight, NoCode, NoDisposition) && q.updated == t && q.httpStatus == 0
    && q.rounds == r.rounds + 1 && q.first == (if r.first.None? then Some(t) else r.first) && q.next == r.next
    && q.delivered == r.delivered && q.ciRunId == r.ciRunId && q.resets == r.resets
  }

  lemma ReservedGiven(r: Record, t: Time)
    ensures Reserves(r, ReservedRecord(r, t), t)
  {
  }

  lemma ExhaustedGiven(r: Record, t: Time)
    requires Live(r) && Exhausted(r, t)
    ensures Exhausts(r, ExhaustedRecord(r, t), t)
  {
  }

  /** What the answer of a round amounts to: a success with a CI Run of the right shape, or a failure. */
  function FailureOf(answer: SendResult): Option<DeliveryFailure> {
    match answer
    case Sent(id) => if CiRunIdPattern(id) then None else Some(DeliveryFailure(0, InvalidDeliveryResponse, Retry))
    case SendFailed(e) => Some(ClassifyDelivery(e))
  }

  /**
   A round given to r and concluded at t: delivered, waiting for the next round, or blocked. The first attempt is the
   end of the first round.
   */
  predicate GivesRound(r: Record, answer: SendResult, q: Record, t: Time) {
    && SameIdentity(r, q) && q.updated == t && q.rounds == r.rounds + 1 && q.resets == r.resets
    && q.first == (if r.rounds == 0 then Some(t) else r.first)
    && match FailureOf(answer)
       case None =>
         && Verdict(q) == (Delivered, NoCode, NoDisposition) && q.httpStatus == 0 && q.next == r.next
         && q.delivered == Some(t) && Sent(q.ciRunId) == answer
       case Some(f) =>
         && q.httpStatus == f.httpStatus && q.delivered == r.delivered && q.ciRunId == r.ciRunId
         && if f.disposition == Retry && q.rounds < 12 && q.first.Some? && t < q.first.value + 86_400_000_000_000 then
              Verdict(q) == (RetryWait, f.code, Retry) && WaitFits(q.rounds, q.next - t)
            else
              q.next == r.next && Verdict(q) == if f.disposition == Retry then (Blocked, RetryExhausted, Block) else (Blocked, f.code, f.disposition)
  }

  lemma RoundGiven(cfg: Config, r: Record, answer: SendResult, at: Time, t: Time)
    requires r.rounds >= 0 && (r.first.None? <==> r.rounds == 0)
    ensures GivesRound(r, answer, OutcomeRecord(cfg, ReservedRecord(r, at), answer, t), t)
  {
    var reserved := ReservedRecord(r, at);
    StoredWait(cfg, reserved);
    assert ClassifyDelivery(ErrResponse) == DeliveryFailure(0, InvalidDeliveryResponse, Retry);
    hide Delay, CiRunIdPattern, WaitFits, ClassifyDelivery;
    match answer {
      case Sent(id) =>
      case SendFailed(e) =>
    }
  }

  lemma StoredWait(cfg: Config, r: Record)
    requires r.rounds >= 1
    ensures WaitFits(r.rounds, Delay(cfg, r))
  {
    Backoff.DelayBounds(cfg.codec.jitter(r.digest, r.rounds), r.rounds);
    Backoff.BaseValues(r.rounds);
  }

  predicate Resets(r: Record, q: Record, t: Time) {
    && SameIdentity(r, q) && Verdict(q) == (Pending, NoCode, NoDisposition) && q.updated == t && q.next == t
    && q.httpStatus == 0 && q.rounds == 0 && q.first == None && q.resets == r.resets + [t]
    && q.delivered == r.delivered && q.ciRunId == r.ciRunId
  }

  lemma ResetGiven(r: Record, t: Time)
    ensures Resets(r, ResetRecord(r, t), t)
  {
  }

  /** The records a manual retry refuses: not blocked, 128 resets, or a reason that a retry cannot cure. */
  predicate RefusesReset(f: StateFile) {
    match f
    case Compact(_) => true
    case Full(r) =>
      || r.status != Blocked || |r.resets| >= 128
      || r.reason == Code.Conflict || r.reason == InputConflict || r.reason == SourceBindingMismatch
      || r.reason == InvalidRequest || r.reason == UnsupportedResultCode || r.reason == RunNotCompleted
  }

  /** A budget that ran out is no reason to refuse, whether the scan or the last answer found it so. */
  lemma ExhaustedMayReset(r: Record, answer: SendResult, q: Record, t: Time)
    requires |r.resets| < 128
    requires Exhausts(r, q, t)
             || (GivesRound(r, answer, q, t) && FailureOf(answer).Some? && FailureOf(answer).value.disposition == Retry && q.status == Blocked)
    ensures q.status == Blocked && !RefusesReset(Full(q))
  {
  }

  predicate Compacts(cfg: Config, r: Record, c: Tombstone, t: Time) {
    && c.version == 2 && c.binding == cfg.bindingDigest && c.sourceId == cfg.binding.sourceId && c.number == r.number
    && c.digest == r.digest && c.ciRunId == r.ciRunId && r.delivered == Some(c.delivered) && c.compacted == t
  }

  // ---------- The waits of one budget ----------

  /** A later round never waits less than an earlier one. */
  lemma WaitsGrow(j: int, k: int, earlier: Time, later: Time)
    requires 1 <= j < k && WaitFits(j, earlier) && WaitFits(k, later)
    ensures earlier <= later
  {
  }

  function Total(waits: seq<Time>): Time {
    if waits == [] then 0 else Total(waits[..|waits| - 1]) + waits[|waits| - 1]
  }

  /** The eleven waits of a full budget: 363 to 370 minutes. */
  lemma FullBudgetWaits(waits: seq<Time>)
    requires |waits| == 11 && forall k | 0 <= k < 11 :: WaitFits(k + 1, waits[k])
    ensures 363 * 60_000_000_000 <= Total(waits) <= 370 * 60_000_000_000
  {
    assert forall k | 0 < k <= 11 :: waits[..k][..k - 1] == waits[..k - 1] && waits[..k][k - 1] == waits[k - 1];
    assert waits[..11] == waits && waits[..0] == [];
    TotalStep(waits, 1); TotalStep(waits, 2); TotalStep(waits, 3); TotalStep(waits, 4); TotalStep(waits, 5); TotalStep(waits, 6);
    TotalStep(waits, 7); TotalStep(waits, 8); TotalStep(waits, 9); TotalStep(waits, 10); TotalStep(waits, 11);
  }

  lemma TotalStep(waits: seq<Time>, k: nat)
    requires 0 < k <= |waits|
    ensures Total(waits[..k]) == Total(waits[..k - 1]) + waits[k - 1]
  {
    assert waits[..k][..k - 1] == waits[..k - 1];
  }
}
