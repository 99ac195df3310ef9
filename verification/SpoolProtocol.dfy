/**
 The spool as a transition system. A run is any sequence of enabled steps: the producer changing its
 directory, the clock advancing, the worker's atomic writes with every fault outcome, send rounds that
 may or may not reach the receiver, other deliverers, failures and process crashes between any two steps.
 */
module SpoolProtocol {
  import opened Text
  import opened Payload
  import opened DeliveryError
  import opened SpoolNames
  import opened SpoolRecords
  import opened Receiver
  import SourceMap

  const MAX_ENTRIES := 10000

  /** Where the single worker process stands in a delivery round. */
  datatype Phase = Idle | Reserved(build: int) | Answered(build: int, result: SendResult)

  datatype Snap = Snap(
    input: map<int, Bytes>,
    published: set<(int, Bytes)>,
    state: map<int, StateFile>,
    acks: map<int, Ack>,
    leftovers: nat,
    now: Time,
    failed: bool,
    phase: Phase,
    ledger: Ledger)

  /** The collector's entry that justifies a compaction, with its checkpoint's observation time. */
  datatype Proof = Proof(digest: string, handoff: Time, retired: Time, observed: Time)

  datatype Write =
    | Import(build: int, body: Bytes, at: Time)
    | Exhaust(build: int, at: Time)
    | Reserve(build: int, at: Time)
    | Conclude(build: int, at: Time)
    | Acknowledge(build: int)
    | Reset(build: int, at: Time)
    | Compaction(build: int, at: Time, proof: Proof)

  /**
   `atomicSpoolWrite`: the rename happened and all went well; the rename happened but the directory was
   not synchronised, which is reported as an error; or it did not happen and a temporary file may remain.
   */
  datatype Outcome = Synced | Torn | Lost(leftover: bool)

  datatype Step =
    | Advance(to: Time)
    | Publish(input: map<int, Bytes>)
    | Elsewhere(key: Key, facts: string, id: string)
    | Send(build: int, reached: bool, facts: string, id: string, result: SendResult)
    | Commit(write: Write, outcome: Outcome)
    | Fail
    | Crash(leftover: bool)

  function DeliveryKey(cfg: Config, n: int): Key
    requires n >= 0
  {
    Key(cfg.binding.workspaceId, cfg.binding.sourceId, "build-" + Format(n))
  }

  predicate InRange(cfg: Config, n: int) { 0 < cfg.binding.firstBuild <= n <= MAX_BUILD }

  // ---------- Guards ----------

  predicate LiveAt(s: Snap, n: int) { n in s.state && s.state[n].Full? && Live(s.state[n].record) }

  predicate DoneAt(s: Snap, n: int) { n in s.state && Done(s.state[n]) }

  /** Earlier due instant first, then the smaller build number. */
  predicate Before(s: Snap, m: int, n: int)
    requires LiveAt(s, m) && LiveAt(s, n)
  {
    var a, b := s.state[m].record.next, s.state[n].record.next;
    a < b || (a == b && m < n)
  }

  ghost predicate Paused(s: Snap) {
    exists n :: n in s.state && s.state[n].Full? && s.state[n].record.status.Blocked? && s.state[n].record.disposition.Pause?
  }

  /**
   What a tick has established before it reserves a round for build `n` at the instant `at` it read:
   no record pauses the source, every finished record is acknowledged, no live record is past its
   budget, and no other due record comes first.
   */
  ghost predicate FirstDue(s: Snap, n: int, at: Time)
    requires LiveAt(s, n)
  {
    && !Paused(s)
    && (forall m | DoneAt(s, m) :: m in s.acks)
    && (forall m | LiveAt(s, m) :: !Exhausted(s.state[m].record, at))
    && (forall m | LiveAt(s, m) && s.state[m].record.next <= at && m != n :: Before(s, n, m))
  }

  predicate Justifies(p: Proof, r: Record, at: Time)
    requires r.delivered.Some?
  {
    && p.digest == r.digest
    && r.delivered.value <= p.handoff
    && p.handoff + RETENTION <= p.retired <= p.observed <= at
    && r.delivered.value + RETENTION <= at
    && r.updated <= at
  }

  ghost predicate MayWrite(cfg: Config, s: Snap, w: Write) {
    match w
    case Import(n, body, at) =>
      s.phase.Idle? && n !in s.state && InRange(cfg, n) && (n, body) in s.published && |body| <= MAX_BODY
      && 0 < at <= s.now && |s.state| < MAX_ENTRIES
    case Exhaust(n, at) =>
      s.phase.Idle? && LiveAt(s, n) && Exhausted(s.state[n].record, at) && s.state[n].record.updated <= at <= s.now
    case Reserve(n, at) =>
      s.phase.Idle? && LiveAt(s, n) && !Exhausted(s.state[n].record, at) && s.state[n].record.next <= at
      && s.state[n].record.updated <= at <= s.now && FirstDue(s, n, at)
    case Conclude(n, at) =>
      s.phase.Answered? && s.phase.build == n && LiveAt(s, n) && s.state[n].record.updated <= at <= s.now
    case Acknowledge(n) => s.phase.Idle? && DoneAt(s, n) && n !in s.acks
    case Reset(n, at) =>
      s.phase.Idle? && n in s.state && s.state[n].Full? && s.state[n].record.status.Blocked?
      && Resettable(s.state[n].record.reason) && |s.state[n].record.resets| < MAX_RESETS
      && s.state[n].record.updated <= at <= s.now
    case Compaction(n, at, proof) =>
      s.phase.Idle? && n in s.state && s.state[n].Full? && s.state[n].record.status.Delivered?
      && s.state[n].record.delivered.Some? && n !in s.input
      && n in s.acks && s.acks[n] == AckOf(cfg, n, s.state[n].record.digest)
      && Justifies(proof, s.state[n].record, at) && at <= s.now
  }

  predicate AnswerFits(cfg: Config, ledger: Ledger, n: int, result: SendResult)
    requires n >= 0
  {
    LegalResult(result)
    && (result.Sent? && CiRunIdPattern(result.ciRunId) ==>
          DeliveryKey(cfg, n) in ledger.claims && ledger.claims[DeliveryKey(cfg, n)].ciRunId == result.ciRunId)
  }

  /** What the receiver hashes of a payload: its facts, mapped with the configured source. */
  function PayloadFacts(cfg: Config, payload: Bytes, now: Time): string {
    match ParsePayload(cfg.codec, payload, now)
    case Accepted(p) => SourceMap.FactsDigest(cfg.codec, cfg.printer, cfg.source, p)
    case _ => ""
  }

  predicate CarriesFacts(cfg: Config, s: Snap, n: int, facts: string) {
    n in s.state && s.state[n].Full? && facts == PayloadFacts(cfg, s.state[n].record.payload, s.now)
  }

  function LedgerAfter(cfg: Config, s: Snap, n: int, reached: bool, facts: string, id: string): Ledger
    requires n >= 0
  {
    if reached then Deliver(s.ledger, DeliveryKey(cfg, n), facts, id).0 else s.ledger
  }

  ghost predicate Enabled(cfg: Config, s: Snap, e: Step) {
    match e
    case Advance(to) => s.now <= to
    case Publish(_) => true
    case Elsewhere(_, _, _) => true
    case Send(n, reached, facts, id, result) =>
      !s.failed && s.phase == Reserved(n) && n >= 0 && AnswerFits(cfg, LedgerAfter(cfg, s, n, reached, facts, id), n, result)
      && (reached ==> CarriesFacts(cfg, s, n, facts))
    case Commit(w, _) => !s.failed && MayWrite(cfg, s, w)
    case Fail => true
    case Crash(_) => true
  }

  // ---------- Effects ----------

  function Written(cfg: Config, s: Snap, w: Write): (f: StateFile)
    requires !w.Acknowledge?
    requires !w.Import? ==> w.build in s.state && s.state[w.build].Full?
    requires w.Conclude? ==> s.phase.Answered? && s.state[w.build].record.rounds >= 1 && s.state[w.build].record.first.Some?
    requires w.Compaction? ==> s.state[w.build].record.delivered.Some?
  {
    match w
    case Import(n, body, at) => Full(ImportRecord(cfg, n, body, at))
    case Exhaust(n, at) => Full(ExhaustedRecord(s.state[n].record, at))
    case Reserve(n, at) => Full(ReservedRecord(s.state[n].record, at))
    case Conclude(n, at) => Full(OutcomeRecord(cfg, s.state[n].record, s.phase.result, at))
    case Reset(n, at) => Full(ResetRecord(s.state[n].record, at))
    case Compaction(n, at, _) => Compact(TombstoneOf(cfg, s.state[n].record, at))
  }

  predicate Writable(s: Snap, w: Write) {
    && (!w.Import? ==> w.build in s.state)
    && (!w.Import? && !w.Acknowledge? ==> s.state[w.build].Full?)
    && (w.Conclude? ==> s.phase.Answered? && s.state[w.build].record.rounds >= 1 && s.state[w.build].record.first.Some?)
    && (w.Compaction? ==> s.state[w.build].record.delivered.Some?)
  }

  /** The state after the rename of `w`, before anything is known about the directory. */
  function Renamed(cfg: Config, s: Snap, w: Write): Snap
    requires Writable(s, w)
  {
    if w.Acknowledge? then s.(acks := s.acks[w.build := AckOf(cfg, w.build, DigestOf(s.state[w.build]))])
    else s.(state := s.state[w.build := Written(cfg, s, w)])
  }

  function PhaseAfter(s: Snap, w: Write): Phase {
    match w
    case Reserve(n, _) => Reserved(n)
    case Conclude(_, _) => Idle
    case _ => s.phase
  }

  function Apply(cfg: Config, s: Snap, e: Step): Snap {
    match e
    case Advance(to) => s.(now := to)
    case Publish(input) => s.(input := input, published := s.published + input.Items)
    case Elsewhere(key, facts, id) => s.(ledger := Deliver(s.ledger, key, facts, id).0)
    case Send(n, reached, facts, id, result) =>
      if n < 0 then s else s.(ledger := LedgerAfter(cfg, s, n, reached, facts, id), phase := Answered(n, result))
    case Commit(w, outcome) =>
      if !Writable(s, w) then s
      else (match outcome
            case Synced => Renamed(cfg, s, w).(phase := PhaseAfter(s, w))
            case Torn => Renamed(cfg, s, w).(failed := true)
            case Lost(leftover) => s.(failed := true, leftovers := s.leftovers + if leftover then 1 else 0))
    case Fail => s.(failed := true)
    case Crash(leftover) => s.(failed := false, phase := Idle, leftovers := s.leftovers + if leftover then 1 else 0)
  }

  // ---------- Runs ----------

  ghost predicate Initial(s: Snap) {
    && s.input == map[] && s.published == {} && s.state == map[] && s.acks == map[] && s.leftovers == 0
    && 0 < s.now && !s.failed && s.phase.Idle? && Matched(s.ledger)
  }

  function After(cfg: Config, s: Snap, log: seq<Step>): Snap {
    if log == [] then s else Apply(cfg, After(cfg, s, log[..|log| - 1]), log[|log| - 1])
  }

  ghost predicate Legal(cfg: Config, s: Snap, log: seq<Step>) {
    log == [] || (Legal(cfg, s, log[..|log| - 1]) && Enabled(cfg, After(cfg, s, log[..|log| - 1]), log[|log| - 1]))
  }

  // ---------- The invariant ----------

  ghost predicate FileOk(cfg: Config, s: Snap, n: int)
    requires n in s.state
  {
    && InRange(cfg, n)
    && FileInv(cfg, n, s.state[n], s.now)
    && (exists body :: (n, body) in s.published && cfg.codec.digest(body) == DigestOf(s.state[n]))
    && (s.state[n].Full? ==> (n, s.state[n].record.payload) in s.published)
    && (Done(s.state[n]) ==> DeliveryKey(cfg, n) in s.ledger.claims
                             && s.ledger.claims[DeliveryKey(cfg, n)].ciRunId == CiRunOf(s.state[n]))
  }

  ghost predicate AckOk(cfg: Config, s: Snap, n: int)
    requires n in s.acks
  {
    DoneAt(s, n) && s.acks[n] == AckOf(cfg, n, DigestOf(s.state[n]))
  }

  /** The process that reserved a round finds its own record when it comes back from the send. */
  ghost predicate PhaseOk(cfg: Config, s: Snap) {
    !s.failed ==>
    && (!s.phase.Idle? ==> LiveAt(s, s.phase.build) && s.state[s.phase.build].record.status.InFlight? && InRange(cfg, s.phase.build))
    && (s.phase.Answered? ==> AnswerFits(cfg, s.ledger, s.phase.build, s.phase.result))
  }

  ghost predicate Inv(cfg: Config, s: Snap) {
    && 0 < s.now
    && (forall n | n in s.state :: FileOk(cfg, s, n))
    && (forall n | n in s.acks :: AckOk(cfg, s, n))
    && PhaseOk(cfg, s)
    && Matched(s.ledger)
    && |s.state| <= MAX_ENTRIES
  }

  lemma WriteIsWritable(cfg: Config, s: Snap, w: Write)
    requires Inv(cfg, s) && !s.failed && MayWrite(cfg, s, w)
    ensures Writable(s, w)
  {
    hide Sendable, ImportRecord, FirstDue, Matched, Before;
    if !w.Import? { assert FileOk(cfg, s, w.build); }
  }

  /** The file a write puts in place satisfies the file invariant. */
  lemma WrittenFileInv(cfg: Config, s: Snap, w: Write)
    requires Inv(cfg, s) && !s.failed && MayWrite(cfg, s, w) && !w.Acknowledge? && Writable(s, w)
    ensures FileInv(cfg, w.build, Written(cfg, s, w), s.now)
  {
    hide Sendable, ImportRecord, Consistent, ReservedRecord, ExhaustedRecord, OutcomeRecord, ResetRecord, TombstoneOf, ConsistentTombstone, Matched, Before;
    if !w.Import? { assert FileOk(cfg, s, w.build); }
    match w
    case Import(n, body, at) =>
      ImportKeepsInv(cfg, n, body, at);
      FileInvLater(cfg, n, Full(ImportRecord(cfg, n, body, at)), at, s.now);
    case Exhaust(n, at) => ExhaustKeepsInv(cfg, n, s.state[n].record, at, s.now);
    case Reserve(n, at) => ReserveKeepsInv(cfg, n, s.state[n].record, at, s.now);
    case Conclude(n, at) => OutcomeKeepsInv(cfg, n, s.state[n].record, s.phase.result, at, s.now);
    case Reset(n, at) => ResetKeepsInv(cfg, n, s.state[n].record, at, s.now);
    case Compaction(n, at, _) => TombstoneKeepsInv(cfg, n, s.state[n].record, at, s.now);
  }

  /** ... and so does everything else `FileOk` asks of it. */
  lemma WrittenFileOk(cfg: Config, s: Snap, w: Write)
    requires Inv(cfg, s) && !s.failed && MayWrite(cfg, s, w) && !w.Acknowledge? && Writable(s, w)
    ensures FileOk(cfg, Renamed(cfg, s, w), w.build)
  {
    hide Sendable, FileInv, RecordInv, ImportRecord, Consistent, ConsistentTombstone, Matched, Before, FirstDue;
    WrittenFileInv(cfg, s, w);
    WrittenIdentity(cfg, s, w);
    if !w.Import? { assert FileOk(cfg, s, w.build); }
  }

  /** A write keeps the digest; only a conclusion can finish a record, and then the receiver has its CI Run. */
  lemma WrittenIdentity(cfg: Config, s: Snap, w: Write)
    requires Inv(cfg, s) && !s.failed && MayWrite(cfg, s, w) && !w.Acknowledge? && Writable(s, w)
    ensures var f := Written(cfg, s, w);
      && (w.Import? ==> f.Full? && f.record.payload == w.body && DigestOf(f) == cfg.codec.digest(w.body) && !Done(f))
      && (!w.Import? ==> DigestOf(f) == DigestOf(s.state[w.build]))
      && (!w.Import? && f.Full? ==> f.record.payload == s.state[w.build].record.payload)
      && (Done(f) ==> w.Conclude? || w.Compaction?)
      && (w.Compaction? ==> CiRunOf(f) == CiRunOf(s.state[w.build]))
      && (w.Conclude? && Done(f) ==> s.phase.result.Sent? && CiRunIdPattern(CiRunOf(f)) && CiRunOf(f) == s.phase.result.ciRunId)
  {
    hide Sendable, Matched, Before, FirstDue;
    if !w.Import? { assert FileOk(cfg, s, w.build); }
    match w
    case Import(n, body, at) => ImportKeepsInv(cfg, n, body, at);
    case _ =>
  }

  /** Replacing one file keeps the invariant when that file and the phase are right. */
  lemma ReplaceFile(cfg: Config, s: Snap, n: int, f: StateFile, t: Snap)
    requires Inv(cfg, s) && t == s.(state := s.state[n := f], phase := t.phase, failed := t.failed)
    requires FileOk(cfg, t, n) && PhaseOk(cfg, t) && |t.state| <= MAX_ENTRIES
    requires n in s.acks ==> Done(f) && DigestOf(f) == DigestOf(s.state[n])
    ensures Inv(cfg, t)
  {
    hide FileInv, Matched, PhaseOk, AnswerFits, AckOf;
    forall m | m in t.state ensures FileOk(cfg, t, m) {
      if m != n { assert FileOk(cfg, s, m); }
    }
    forall m | m in t.acks ensures AckOk(cfg, t, m) { assert AckOk(cfg, s, m); }
  }

  lemma AcknowledgeKeepsInv(cfg: Config, s: Snap, n: int, failed: bool)
    requires Inv(cfg, s) && !s.failed && s.phase.Idle? && DoneAt(s, n)
    ensures Inv(cfg, s.(acks := s.acks[n := AckOf(cfg, n, DigestOf(s.state[n]))], failed := failed))
  {
    hide FileInv, Matched, AnswerFits;
    var t := s.(acks := s.acks[n := AckOf(cfg, n, DigestOf(s.state[n]))], failed := failed);
    forall m | m in t.state ensures FileOk(cfg, t, m) { assert FileOk(cfg, s, m); }
    forall m | m in t.acks ensures AckOk(cfg, t, m) { if m != n { assert AckOk(cfg, s, m); } }
  }

  /** After a write the worker's phase again describes the file on disk. */
  lemma WrittenPhaseOk(cfg: Config, s: Snap, w: Write)
    requires Inv(cfg, s) && !s.failed && MayWrite(cfg, s, w) && !w.Acknowledge? && Writable(s, w)
    ensures PhaseOk(cfg, Renamed(cfg, s, w).(phase := PhaseAfter(s, w)))
  {
    hide Sendable, FileInv, Matched, FirstDue, ImportRecord, OutcomeRecord, AnswerFits;
    if w.Reserve? { assert FileOk(cfg, s, w.build); }
  }

  lemma WrittenCount(cfg: Config, s: Snap, w: Write)
    requires |s.state| <= MAX_ENTRIES && MayWrite(cfg, s, w) && !w.Acknowledge? && Writable(s, w)
    ensures |Renamed(cfg, s, w).state| <= MAX_ENTRIES
  {
    hide FirstDue, Written;
  }

  lemma AckedFileStays(cfg: Config, s: Snap, w: Write)
    requires Inv(cfg, s) && !s.failed && MayWrite(cfg, s, w) && !w.Acknowledge? && Writable(s, w) && w.build in s.acks
    ensures w.build in s.state && Done(Written(cfg, s, w)) && DigestOf(Written(cfg, s, w)) == DigestOf(s.state[w.build])
  {
    hide Sendable, FileInv, Matched, FirstDue, ImportRecord, OutcomeRecord, AnswerFits;
    assert AckOk(cfg, s, w.build);
  }

  lemma RenameKeepsInv(cfg: Config, s: Snap, w: Write)
    requires Inv(cfg, s) && !s.failed && MayWrite(cfg, s, w) && Writable(s, w)
    ensures Inv(cfg, Renamed(cfg, s, w).(phase := PhaseAfter(s, w)))
    ensures Inv(cfg, Renamed(cfg, s, w).(failed := true))
  {
    hide FileInv, Matched, FirstDue, Written, FileOk, AckOk, AckOf, AnswerFits, DigestOf, Justifies;
    var done, torn := Renamed(cfg, s, w).(phase := PhaseAfter(s, w)), Renamed(cfg, s, w).(failed := true);
    if w.Acknowledge? {
      AcknowledgeKeepsInv(cfg, s, w.build, false);
      AcknowledgeKeepsInv(cfg, s, w.build, true);
    } else {
      var n, f := w.build, Written(cfg, s, w);
      WrittenFileOk(cfg, s, w);
      WrittenPhaseOk(cfg, s, w);
      WrittenCount(cfg, s, w);
      if n in s.acks { AckedFileStays(cfg, s, w); }
      FileOkFrame(cfg, Renamed(cfg, s, w), done, n);
      FileOkFrame(cfg, Renamed(cfg, s, w), torn, n);
      ReplaceFile(cfg, s, n, f, done);
      ReplaceFile(cfg, s, n, f, torn);
    }
  }

  lemma FileOkFrame(cfg: Config, s: Snap, t: Snap, n: int)
    requires s.state == t.state && s.now == t.now && s.published == t.published && s.ledger == t.ledger
    requires n in s.state && FileOk(cfg, s, n)
    ensures FileOk(cfg, t, n)
  {
    hide FileInv;
  }
}
