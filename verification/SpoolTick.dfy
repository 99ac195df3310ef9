/** What one tick leaves of the records it found, before and after its round. */
module SpoolTick {
  import opened Text
  import opened Payload
  import opened DeliveryError
  import opened SpoolRecords
  import opened SpoolLaws
  import opened SpoolProtocol
  import opened SpoolImport
  import opened SpoolScan

  /** No record contradicts the bytes its build has in the input directory. */
  ghost predicate AllInStep(cfg: Config, s: Snap) {
    forall n | n in s.input && n in s.state :: InStep(cfg, s.input, s.state, n)
  }

  /** Import and scan at the instant `at`: old records kept or blocked as exhausted, new ones made from the input. */
  ghost predicate Prepared(cfg: Config, before: Snap, after: Snap, at: Time) {
    && before.now <= at <= after.now && after.input == before.input
    && (forall n | n in before.state :: KeptOrExhausted(before.state, after.state, n, at))
    && (forall n | n in after.state && n !in before.state ::
          n in after.input && MadeFrom(cfg, n, after.input[n], after.state[n], before.now, at))
  }

  /** The forms the round's own record takes. */
  predicate OwnRound(d: Round, f: StateFile) {
    && f.Full?
    && (f.record == d.record || Reserves(d.record, f.record, d.at) || GivesRound(d.record, d.answer, f.record, d.ended))
  }

  /** A round changes its own record and no other. */
  ghost predicate RoundFrame(cfg: Config, d: Round, before: map<int, StateFile>, after: map<int, StateFile>)
    requires d.record.rounds >= 0
  {
    && after.Keys == before.Keys
    && (forall n | n in before && n != d.record.number :: after[n] == before[n])
    && d.record.number in before && before[d.record.number] == Full(d.record) && OwnRound(d, after[d.record.number])
  }

  /** Reserving and concluding, each done or lost, keep to the round's own record. */
  lemma RoundFramed(cfg: Config, d: Round, before: map<int, StateFile>, mid: map<int, StateFile>, after: map<int, StateFile>)
    requires d.record.rounds >= 0 && d.record.number in before && before[d.record.number] == Full(d.record)
    requires d.record.first.None? <==> d.record.rounds == 0
    requires mid == before || mid == before[d.record.number := Full(ReservedRecord(d.record, d.at))]
    requires after == mid
             || after == mid[d.record.number := Full(OutcomeRecord(cfg, ReservedRecord(d.record, d.at), d.answer, d.ended))]
    ensures RoundFrame(cfg, d, before, after)
  {
    RoundGiven(cfg, d.record, d.answer, d.at, d.ended);
    ReservedGiven(d.record, d.at);
    hide OutcomeRecord, ReservedRecord, Reserves, GivesRound;
  }

  /** What a whole tick may do to the records: the preparation, and then at most the one round. */
  ghost predicate TickFrame(cfg: Config, d: Round, before: Snap, after: Snap) {
    && Prepared(cfg, before, d.line, d.at)
    && (after.state == d.line.state || (d.record.rounds >= 0 && Live(d.record) && RoundFrame(cfg, d, d.line.state, after.state)))
  }

  /** Every record keeps the resets it had, and a new one has none. */
  ghost predicate NoResets(before: map<int, StateFile>, after: map<int, StateFile>) {
    && (forall n | n in before && before[n].Full? ::
          n in after && after[n].Full? && after[n].record.resets == before[n].record.resets)
    && (forall n | n in after && n !in before :: after[n].Full? && after[n].record.resets == [])
  }

  lemma FrameKeepsResets(cfg: Config, d: Round, before: Snap, after: Snap)
    requires TickFrame(cfg, d, before, after)
    ensures NoResets(before.state, after.state)
  {
    hide MadeFrom, Exhausts;
    LineKeepsResets(cfg, before, d.line, d.at);
    if after.state != d.line.state {
      RoundKeepsResets(cfg, d, d.line.state, after.state);
    }
  }

  lemma LineKeepsResets(cfg: Config, before: Snap, after: Snap, at: Time)
    requires Prepared(cfg, before, after, at)
    ensures NoResets(before.state, after.state)
  {
    hide MadeFrom;
    forall n | n in after.state && n !in before.state ensures after.state[n].Full? && after.state[n].record.resets == [] {
      MadeIsFresh(cfg, n, after.input[n], after.state[n], before.now, at);
    }
  }

  lemma RoundKeepsResets(cfg: Config, d: Round, before: map<int, StateFile>, after: map<int, StateFile>)
    requires d.record.rounds >= 0 && RoundFrame(cfg, d, before, after)
    ensures forall n | n in before :: n in after && (before[n].Full? <==> after[n].Full?)
    ensures forall n | n in before && before[n].Full? :: after[n].record.resets == before[n].record.resets
  {
    hide FailureOf, WaitFits;
  }

  /** A new record is due at once and has used nothing up. */
  lemma MadeIsFresh(cfg: Config, n: int, body: Bytes, f: StateFile, from: Time, to: Time)
    requires MadeFrom(cfg, n, body, f, from, to)
    ensures f.Full? && f.record.resets == [] && f.record.rounds == 0 && f.record.first.None? && f.record.next <= to
  {
    hide ParsedVerdict;
  }

  /** An import followed by a scan at `at` is a preparation at `at`. */
  lemma ScanAfterImport(cfg: Config, before: Snap, mid: Snap, after: Snap, at: Time)
    requires Imported(cfg, before, mid) && mid.now <= at <= after.now && after.input == mid.input
    requires ScanFrame(mid.state, after.state, at)
    ensures Prepared(cfg, before, after, at)
  {
    hide MadeFrom;
    forall n | n in after.state && n !in before.state ensures MadeFrom(cfg, n, after.input[n], after.state[n], before.now, at) {
      MadeLater(cfg, n, mid.input[n], mid.state[n], before.now, mid.now, at);
      MadeIsFresh(cfg, n, mid.input[n], mid.state[n], before.now, at);
    }
  }

  lemma ImportIsPrepared(cfg: Config, before: Snap, after: Snap)
    requires Imported(cfg, before, after)
    ensures Prepared(cfg, before, after, after.now)
  {
    hide MadeFrom, Exhausts;
  }

  lemma NothingPrepared(cfg: Config, s: Snap)
    ensures Prepared(cfg, s, s, s.now)
  {
  }

  /** A clean import and a scan leave no contradiction. */
  lemma StepsAgree(cfg: Config, before: Snap, mid: Snap, after: Snap, at: Time)
    requires Imported(cfg, before, mid) && after.input == mid.input && ScanFrame(mid.state, after.state, at)
    requires forall n | n in mid.input && n in before.state :: InStep(cfg, mid.input, mid.state, n)
    ensures AllInStep(cfg, after)
  {
    hide MadeFrom;
    forall n | n in after.input && n in after.state ensures InStep(cfg, after.input, after.state, n) {
      if n !in before.state { MadeInStep(cfg, n, mid.input[n], mid.state[n], before.now, mid.now); }
    }
  }

  lemma MadeInStep(cfg: Config, n: int, body: Bytes, f: StateFile, from: Time, to: Time)
    requires MadeFrom(cfg, n, body, f, from, to)
    ensures DigestOf(f) == cfg.codec.digest(body)
  {
    hide ParsedVerdict;
  }

  /**
   A tick that reports no error: it leaves no live record past its budget, and it gave a round or found nothing to
   do and left every record that is still live as it was.
   */
  ghost predicate CleanTick(s: Snap, t: Snap, at: Time, worked: bool) {
    && s.now <= at <= t.now && t.phase.Idle? && NoneExhausted(t, at)
    && (worked || (Quiet(t, at) && forall n | LiveAt(t, n) :: n in s.state && t.state[n] == s.state[n]))
  }

  ghost predicate NoneExhausted(s: Snap, at: Time) {
    forall n | n in s.state && s.state[n].Full? && IsLive(s.state[n].record) :: !PastBudget(s.state[n].record, at)
  }

  /** A round leaves its own record within its budget too, if it stays live. */
  lemma RoundIsClean(cfg: Config, d: Round, t: Snap)
    requires FirstInLine(d) && RoundStored(cfg, d, t, None) && RoundFrame(cfg, d, d.line.state, t.state)
    ensures NoneExhausted(t, d.at) && !t.failed
  {
    hide Paused, Before;
    var n := d.record.number;
    GivenInBudget(d.record, d.answer, t.state[n].record, d.at, d.ended);
    hide GivesRound, WaitFits;
    forall m | m in t.state && t.state[m].Full? && IsLive(t.state[m].record) ensures !PastBudget(t.state[m].record, d.at) {
      if m != n { assert LiveAt(d.line, m) && t.state[m] == d.line.state[m]; }
    }
  }

  lemma GivenInBudget(r: Record, answer: SendResult, q: Record, at: Time, ended: Time)
    requires GivesRound(r, answer, q, ended) && at <= ended
    ensures IsLive(q) ==> !PastBudget(q, at)
  {
  }

  lemma PreparedIsClean(cfg: Config, s: Snap, t: Snap, at: Time)
    requires Prepared(cfg, s, t, at) && Quiet(t, at) && t.phase.Idle?
    ensures CleanTick(s, t, at, false)
  {
    assert NoneExhausted(t, at);
    hide MadeFrom, Exhausted, NoneExhausted, Paused;
    forall n | LiveAt(t, n) ensures n in s.state && t.state[n] == s.state[n] {
      if n !in s.state { MadeIsFresh(cfg, n, t.input[n], t.state[n], s.now, at); }
    }
  }
}
