/**
 What holds over every run of the spool, crashes and write faults included: the files stay readable,
 the retry budget binds, a delivered build is final, and a build has at most one CI Run.
 */
module SpoolRuns {
  import opened Text
  import opened Payload
  import opened DeliveryError
  import opened SpoolRecords
  import opened Receiver
  import opened SpoolProtocol

  // ---------- The invariant over steps and runs ----------

  lemma LedgerChangeKeepsInv(cfg: Config, s: Snap, key: Key, facts: string, id: string)
    requires Inv(cfg, s)
    ensures Inv(cfg, s.(ledger := Deliver(s.ledger, key, facts, id).0))
  {
    hide FileInv, Sendable, Consistent, ConsistentTombstone, Matched, Deliver, LegalResult, CiRunIdPattern;
    DeliverKeepsMatched(s.ledger, key, facts, id);
    var t := s.(ledger := Deliver(s.ledger, key, facts, id).0);
    forall n | n in t.state ensures FileOk(cfg, t, n) {
      assert FileOk(cfg, s, n);
      if Done(s.state[n]) { ClaimsArePermanent(s.ledger, key, facts, id, DeliveryKey(cfg, n)); }
    }
    forall n | n in t.acks ensures AckOk(cfg, t, n) { assert AckOk(cfg, s, n); }
    if !s.failed && s.phase.Answered? { AnswerSurvives(cfg, s.ledger, s.phase.build, s.phase.result, key, facts, id); }
  }

  lemma AnswerSurvives(cfg: Config, l: Ledger, n: int, result: SendResult, key: Key, facts: string, id: string)
    requires n >= 0 && AnswerFits(cfg, l, n, result)
    ensures AnswerFits(cfg, Deliver(l, key, facts, id).0, n, result)
  {
  }

  lemma StepKeepsInv(cfg: Config, s: Snap, e: Step)
    requires Inv(cfg, s) && Enabled(cfg, s, e)
    ensures Inv(cfg, Apply(cfg, s, e))
  {
    hide Inv, Deliver, MayWrite, Renamed, AnswerFits;
    match e
    case Commit(w, outcome) =>
      WriteIsWritable(cfg, s, w);
      RenameKeepsInv(cfg, s, w);
      if outcome.Lost? { QuietKeepsInv(cfg, s, Apply(cfg, s, e)); }
    case Elsewhere(key, facts, id) =>
      LedgerChangeKeepsInv(cfg, s, key, facts, id);
    case Send(n, reached, facts, id, result) =>
      SendKeepsInv(cfg, s, n, reached, facts, id, result);
    case Advance(to) => AdvanceKeepsInv(cfg, s, to);
    case _ => QuietKeepsInv(cfg, s, Apply(cfg, s, e));
  }

  lemma AdvanceKeepsInv(cfg: Config, s: Snap, to: Time)
    requires Inv(cfg, s) && s.now <= to
    ensures Inv(cfg, s.(now := to))
  {
    hide FileInv, Matched, AnswerFits;
    var t := s.(now := to);
    forall n | n in t.state ensures FileOk(cfg, t, n) {
      assert FileOk(cfg, s, n);
      FileInvLater(cfg, n, s.state[n], s.now, to);
    }
    forall n | n in t.acks ensures AckOk(cfg, t, n) { assert AckOk(cfg, s, n); }
  }

  lemma SendKeepsInv(cfg: Config, s: Snap, n: int, reached: bool, facts: string, id: string, result: SendResult)
    requires Inv(cfg, s) && Enabled(cfg, s, Send(n, reached, facts, id, result))
    ensures Inv(cfg, Apply(cfg, s, Send(n, reached, facts, id, result)))
  {
    hide FileOk, AckOk, Matched, Deliver, AnswerFits;
    var l := LedgerAfter(cfg, s, n, reached, facts, id);
    if reached { LedgerChangeKeepsInv(cfg, s, DeliveryKey(cfg, n), facts, id); }
    var u, t := s.(ledger := l), Apply(cfg, s, Send(n, reached, facts, id, result));
    assert Inv(cfg, u);
    SameFilesOk(cfg, u, t);
  }

  lemma SameFilesOk(cfg: Config, s: Snap, t: Snap)
    requires s.state == t.state && s.acks == t.acks && s.now == t.now && s.ledger == t.ledger && s.published <= t.published
    requires forall n | n in s.state :: FileOk(cfg, s, n)
    requires forall n | n in s.acks :: AckOk(cfg, s, n)
    ensures forall n | n in t.state :: FileOk(cfg, t, n)
    ensures forall n | n in t.acks :: AckOk(cfg, t, n)
  {
    hide FileInv;
    forall n | n in t.state ensures FileOk(cfg, t, n) { assert FileOk(cfg, s, n); }
    forall n | n in t.acks ensures AckOk(cfg, t, n) { assert AckOk(cfg, s, n); }
  }

  /** Steps that touch no file: publications, failures, crashes and lost writes. */
  lemma QuietKeepsInv(cfg: Config, s: Snap, t: Snap)
    requires Inv(cfg, s) && s.state == t.state && s.acks == t.acks && s.now == t.now && s.ledger == t.ledger
    requires s.published <= t.published && (t.failed || t.phase.Idle? || (t.phase == s.phase && t.failed == s.failed))
    ensures Inv(cfg, t)
  {
    hide FileOk, AckOk, Matched, AnswerFits;
    SameFilesOk(cfg, s, t);
  }

  /** Every reachable state satisfies the invariant. */
  lemma {:induction false} RunKeepsInv(cfg: Config, s0: Snap, log: seq<Step>)
    requires Initial(s0) && Legal(cfg, s0, log)
    ensures Inv(cfg, After(cfg, s0, log))
  {
    if log != [] {
      RunKeepsInv(cfg, s0, log[..|log| - 1]);
      StepKeepsInv(cfg, After(cfg, s0, log[..|log| - 1]), log[|log| - 1]);
    }
  }

  /** A process may die after any step: every prefix of a run, ended by a crash, is a run. */
  lemma {:induction false} CrashAnywhere(cfg: Config, s0: Snap, log: seq<Step>, k: nat, leftover: bool)
    requires Legal(cfg, s0, log) && k <= |log|
    ensures Legal(cfg, s0, log[..k]) && Legal(cfg, s0, log[..k] + [Crash(leftover)])
    decreases |log|
  {
    if k == |log| {
      assert log[..k] == log;
      assert (log + [Crash(leftover)])[..|log|] == log;
    } else {
      CrashAnywhere(cfg, s0, log[..|log| - 1], k, leftover);
      assert log[..|log| - 1][..k] == log[..k];
    }
  }

  // ---------- Self-consistency of the files ----------

  predicate StatusesInRange(log: seq<Step>) {
    forall e | e in log && e.Send? :: StatusInRange(e.result)
  }

  ghost predicate StoredStatuses(s: Snap) {
    && (forall n | n in s.state && s.state[n].Full? :: StoredStatus(s.state[n].record.httpStatus))
    && (s.phase.Answered? ==> StatusInRange(s.phase.result))
  }

  lemma WrittenStatus(cfg: Config, s: Snap, w: Write)
    requires Inv(cfg, s) && !s.failed && MayWrite(cfg, s, w) && Writable(s, w) && !w.Acknowledge? && StoredStatuses(s)
    ensures var f := Written(cfg, s, w); f.Full? ==> StoredStatus(f.record.httpStatus)
  {
    hide Inv, FirstDue, ImportRecord, Delay, Justifies, Resettable, Exhausted;
    match w
    case Import(n, body, at) => ImportedCounters(cfg, n, body, at);
    case _ =>
  }

  lemma StepKeepsStatuses(cfg: Config, s: Snap, e: Step)
    requires Inv(cfg, s) && Enabled(cfg, s, e) && StoredStatuses(s) && (e.Send? ==> StatusInRange(e.result))
    ensures StoredStatuses(Apply(cfg, s, e))
  {
    hide Inv, MayWrite, Written, Deliver, AnswerFits, Writable, StoredStatus, StatusInRange;
    if e.Commit? {
      WriteIsWritable(cfg, s, e.write);
      if !e.write.Acknowledge? { WrittenStatus(cfg, s, e.write); }
    }
  }

  lemma {:induction false} StatusesStay(cfg: Config, s0: Snap, log: seq<Step>)
    requires Initial(s0) && Legal(cfg, s0, log) && StatusesInRange(log)
    ensures StoredStatuses(After(cfg, s0, log))
  {
    if log != [] {
      var front := log[..|log| - 1];
      assert StatusesInRange(front) by { assert forall e | e in front :: e in log; }
      StatusesStay(cfg, s0, front);
      RunKeepsInv(cfg, s0, front);
      assert log[|log| - 1] in log;
      StepKeepsStatuses(cfg, After(cfg, s0, front), log[|log| - 1]);
    }
  }

  /**
   Crash-closed self-consistency. In every reachable state each state file is accepted by `read` at every
   later time if and only if its stored HTTP status is one `read` allows, and each acknowledgement matches
   a finished record. If no server answered with a status outside 100 to 599, every file is accepted.
   */
  lemma FilesStayReadable(cfg: Config, s0: Snap, log: seq<Step>, n: int, later: Time)
    requires Initial(s0) && Legal(cfg, s0, log)
    ensures var s := After(cfg, s0, log);
      && (n in s.state && s.now <= later ==>
            (Read(cfg, n, s.state[n], later).Some? <==> (s.state[n].Full? ==> StoredStatus(s.state[n].record.httpStatus)))
            && (StatusesInRange(log) ==> Read(cfg, n, s.state[n], later).Some?))
      && (n in s.acks ==> DoneAt(s, n) && s.acks[n] == AckOf(cfg, n, DigestOf(s.state[n])))
  {
    hide FileInv, Read, Matched;
    RunKeepsInv(cfg, s0, log);
    var s := After(cfg, s0, log);
    if n in s.state && s.now <= later {
      assert FileOk(cfg, s, n);
      OwnFileReadable(cfg, n, s.state[n], s.now, later);
      if StatusesInRange(log) { StatusesStay(cfg, s0, log); }
    }
    if n in s.acks { assert AckOk(cfg, s, n); }
  }

  lemma Extend(cfg: Config, s0: Snap, log: seq<Step>, e: Step)
    requires Legal(cfg, s0, log) && Enabled(cfg, After(cfg, s0, log), e)
    ensures Legal(cfg, s0, log + [e]) && After(cfg, s0, log + [e]) == Apply(cfg, After(cfg, s0, log), e)
  {
    assert (log + [e])[..|log|] == log;
  }

  lemma EmptyRun(cfg: Config, s0: Snap)
    ensures Legal(cfg, s0, []) && After(cfg, s0, []) == s0
  {
  }

  /** A run in which the server answers a build's first round with status 600. */
  function OddStatusRun(n: int, body: Bytes, at: Time): seq<Step> {
    FirstRound(n, body, at) + [Send(n, false, "", "", OddAnswer())] + [Commit(Conclude(n, at), Synced)]
  }

  function FirstRound(n: int, body: Bytes, at: Time): seq<Step> {
    [Publish(map[n := body])] + [Commit(Import(n, body, at), Synced)] + [Commit(Reserve(n, at), Synced)]
  }

  function OddAnswer(): SendResult { SendFailed(Typed(DeliveryFailure(600, DeliveryFailed, Block))) }

  lemma FirstRoundReserves(cfg: Config, s0: Snap, n: int, body: Bytes)
    requires Initial(s0) && InRange(cfg, n) && |body| <= MAX_BODY && Sendable(cfg, n, body, s0.now)
    ensures var log := FirstRound(n, body, s0.now); var s := After(cfg, s0, log);
      && Legal(cfg, s0, log) && s.phase == Reserved(n) && !s.failed && s.now == s0.now
      && n in s.state && s.state[n] == Full(ReservedRecord(ImportRecord(cfg, n, body, s0.now), s0.now))
  {
    hide Sendable, Matched, ImportRecord, Legal, After, MayWrite, ReservedRecord;
    EmptyRun(cfg, s0);
    var publish, take, reserve := Publish(map[n := body]), Commit(Import(n, body, s0.now), Synced), Commit(Reserve(n, s0.now), Synced);
    Extend(cfg, s0, [], publish);
    assert [] + [publish] == [publish];
    var s1 := Apply(cfg, s0, publish);
    assert (n, body) in s1.published by { assert (n, body) in map[n := body].Items; }
    TakesInput(cfg, s1, n, body);
    Extend(cfg, s0, [publish], take);
    var s2 := Apply(cfg, s1, take);
    assert s2.state == map[n := Full(ImportRecord(cfg, n, body, s0.now))];
    ReservesOnly(cfg, s2, n, body);
    Extend(cfg, s0, [publish] + [take], reserve);
  }

  lemma TakesInput(cfg: Config, s: Snap, n: int, body: Bytes)
    requires s.state == map[] && s.phase.Idle? && InRange(cfg, n) && |body| <= MAX_BODY && (n, body) in s.published && 0 < s.now
    ensures MayWrite(cfg, s, Import(n, body, s.now))
  {
  }

  /** An only, freshly imported record is first in line. */
  lemma ReservesOnly(cfg: Config, s: Snap, n: int, body: Bytes)
    requires |body| <= MAX_BODY && Sendable(cfg, n, body, s.now) && 0 < s.now && s.phase.Idle?
    requires s.state == map[n := Full(ImportRecord(cfg, n, body, s.now))]
    ensures MayWrite(cfg, s, Reserve(n, s.now))
  {
    hide Sendable, ImportRecord;
    ImportedFresh(cfg, n, body, s.now);
  }

  /**
   The range matters: for every configuration and every deliverable input there is a run without any fault
   or crash after which the worker's own record is refused for good.
   */
  lemma OddStatusUnreadable(cfg: Config, s0: Snap, n: int, body: Bytes, later: Time)
    requires Initial(s0) && InRange(cfg, n) && |body| <= MAX_BODY && Sendable(cfg, n, body, s0.now) && s0.now <= later
    ensures Legal(cfg, s0, OddStatusRun(n, body, s0.now))
    ensures var s := After(cfg, s0, OddStatusRun(n, body, s0.now)); n in s.state && Read(cfg, n, s.state[n], later).None?
  {
    hide Sendable, Matched, ImportRecord, FirstRound, FirstDue, Legal, After, Read, OutcomeRecord;
    ImportedFresh(cfg, n, body, s0.now);
    FirstRoundReserves(cfg, s0, n, body);
    var log, send := FirstRound(n, body, s0.now), Send(n, false, "", "", OddAnswer());
    var r := ReservedRecord(ImportRecord(cfg, n, body, s0.now), s0.now);
    Extend(cfg, s0, log, send);
    Extend(cfg, s0, log + [send], Commit(Conclude(n, s0.now), Synced));
    OddOutcome(cfg, n, r, s0.now, later);
  }

  lemma OddOutcome(cfg: Config, n: int, r: Record, at: Time, later: Time)
    requires r.rounds >= 1 && r.first.Some?
    ensures Read(cfg, n, Full(OutcomeRecord(cfg, r, OddAnswer(), at)), later).None?
  {
    hide Delay, Consistent, Sendable;
  }

  lemma ImportedFresh(cfg: Config, n: int, body: Bytes, at: Time)
    requires Sendable(cfg, n, body, at) && 0 < at && |body| <= MAX_BODY
    ensures var r := ImportRecord(cfg, n, body, at);
      r.status.Pending? && r.next == at && r.updated == at && r.rounds == 0 && r.first.None? && r.httpStatus == 0
  {
    ImportKeepsInv(cfg, n, body, at);
  }

  // ---------- The retry budget ----------

  predicate IsSend(e: Step, n: int) { e.Send? && e.build == n }

  predicate IsReset(e: Step, n: int) { e.Commit? && e.write.Reset? && e.write.build == n && !e.outcome.Lost? }

  /** Send rounds of build `n` in a log. */
  function Sends(log: seq<Step>, n: int): nat {
    if log == [] then 0 else Sends(log[..|log| - 1], n) + if IsSend(log[|log| - 1], n) then 1 else 0
  }

  /** Send rounds of build `n` since its last manual reset. */
  function SendsSinceReset(log: seq<Step>, n: int): nat {
    if log == [] || IsReset(log[|log| - 1], n) then 0
    else SendsSinceReset(log[..|log| - 1], n) + if IsSend(log[|log| - 1], n) then 1 else 0
  }

  /** The budget a state still grants, given how often the build was sent so far and since its reset. */
  ghost predicate WithinBudget(s: Snap, n: int, all: nat, recent: nat) {
    if n !in s.state then all == 0 && recent == 0 && s.phase != Reserved(n)
    else match s.state[n]
         case Compact(_) => all <= MAX_ROUNDS * (1 + MAX_RESETS) && s.phase != Reserved(n)
         case Full(r) =>
           && recent + (if s.phase == Reserved(n) then 1 else 0) <= r.rounds <= MAX_ROUNDS
           && all <= recent + MAX_ROUNDS * |r.resets| && |r.resets| <= MAX_RESETS
  }

  lemma StepKeepsBudget(cfg: Config, s: Snap, e: Step, n: int, all: nat, recent: nat)
    requires Inv(cfg, s) && Enabled(cfg, s, e) && WithinBudget(s, n, all, recent)
    ensures WithinBudget(Apply(cfg, s, e), n, all + (if IsSend(e, n) then 1 else 0),
                         if IsReset(e, n) then 0 else recent + if IsSend(e, n) then 1 else 0)
  {
    hide Inv, Deliver, AnswerFits, MayWrite, Renamed;
    FileLimits(cfg, s, n);
    if e.Commit? {
      WriteIsWritable(cfg, s, e.write);
      if e.outcome.Lost? { } else { CommitKeepsBudget(cfg, s, e.write, n, all, recent); }
    }
  }

  lemma CommitKeepsBudget(cfg: Config, s: Snap, w: Write, n: int, all: nat, recent: nat)
    requires Inv(cfg, s) && !s.failed && MayWrite(cfg, s, w) && Writable(s, w) && WithinBudget(s, n, all, recent)
    ensures var since := if w.Reset? && w.build == n then 0 else recent;
      && WithinBudget(Renamed(cfg, s, w).(phase := PhaseAfter(s, w)), n, all, since)
      && WithinBudget(Renamed(cfg, s, w).(failed := true), n, all, since)
  {
    hide Inv, FirstDue, ImportRecord, OutcomeAfter, Delay, Justifies, Resettable;
    FileLimits(cfg, s, n);
    match w
    case Import(m, body, at) => ImportedCounters(cfg, m, body, at);
    case Conclude(m, at) => OutcomeCounters(cfg, s.state[m].record, s.phase.result, at);
    case _ =>
  }

  lemma OutcomeCounters(cfg: Config, r: Record, result: SendResult, at: Time)
    requires r.rounds >= 1 && r.first.Some?
    ensures var q := OutcomeRecord(cfg, r, result, at); q.rounds == r.rounds && q.resets == r.resets
  {
    hide Delay;
  }

  lemma FileLimits(cfg: Config, s: Snap, n: int)
    requires Inv(cfg, s)
    ensures n in s.state && s.state[n].Full? ==> 0 <= s.state[n].record.rounds <= MAX_ROUNDS && |s.state[n].record.resets| <= MAX_RESETS
    ensures n in s.state && s.state[n].Compact? && !s.failed ==> s.phase != Reserved(n)
  {
    hide Sendable, Matched;
    if n in s.state { assert FileOk(cfg, s, n); }
  }

  lemma ImportedCounters(cfg: Config, n: int, body: Bytes, at: Time)
    ensures var r := ImportRecord(cfg, n, body, at); r.rounds == 0 && r.resets == [] && r.httpStatus == 0 && r.next == at
  {
    hide ParsePayload, ImportError, ForeignIdentity;
  }

  /**
   The retry budget under crashes. Since its last reset a build was sent at most as many rounds as its record
   says, hence at most 12; a full record with k resets was sent at most 12 * (1 + k) rounds in all, and no
   build ever more than 12 * 129.
   */
  lemma {:induction false} BudgetBinds(cfg: Config, s0: Snap, log: seq<Step>, n: int)
    requires Initial(s0) && Legal(cfg, s0, log)
    ensures WithinBudget(After(cfg, s0, log), n, Sends(log, n), SendsSinceReset(log, n))
    ensures Sends(log, n) <= MAX_ROUNDS * (1 + MAX_RESETS)
  {
    if log != [] {
      var front := log[..|log| - 1];
      BudgetBinds(cfg, s0, front, n);
      RunKeepsInv(cfg, s0, front);
      StepKeepsBudget(cfg, After(cfg, s0, front), log[|log| - 1], n, Sends(front, n), SendsSinceReset(front, n));
    }
  }

  // ---------- Identity is kept, delivered is final ----------

  function DeliveredAt(f: StateFile): Option<Time> {
    if f.Full? then f.record.delivered else Some(f.tombstone.delivered)
  }

  /** What a later state may not change about build `n`. */
  ghost predicate Keeps(s: Snap, t: Snap, n: int) {
    && (n in s.state ==> n in t.state && DigestOf(t.state[n]) == DigestOf(s.state[n]))
    && (n in s.state && n in t.state && s.state[n].Full? && t.state[n].Full? ==>
          t.state[n].record.payload == s.state[n].record.payload && t.state[n].record.created == s.state[n].record.created)
    && (n in s.state && s.state[n].Compact? ==> n in t.state && t.state[n] == s.state[n])
    && (n in s.acks ==> n in t.acks && t.acks[n] == s.acks[n])
    && (DoneAt(s, n) ==> DoneAt(t, n) && CiRunOf(t.state[n]) == CiRunOf(s.state[n])
                         && DeliveredAt(t.state[n]) == DeliveredAt(s.state[n]))
  }

  lemma StepKeepsIdentity(cfg: Config, s: Snap, e: Step, n: int)
    requires Inv(cfg, s) && Enabled(cfg, s, e)
    ensures Keeps(s, Apply(cfg, s, e), n)
    ensures DoneAt(s, n) ==> !IsSend(e, n)
  {
    hide CarriesFacts, FileInv, Matched, Deliver, AnswerFits, MayWrite, Renamed, Writable, PhaseAfter;
    if e.Commit? {
      WriteIsWritable(cfg, s, e.write);
      RenameKeepsIdentity(cfg, s, e.write, n);
    }
  }

  lemma RenameKeepsIdentity(cfg: Config, s: Snap, w: Write, n: int)
    requires Inv(cfg, s) && !s.failed && MayWrite(cfg, s, w) && Writable(s, w)
    ensures Keeps(s, Renamed(cfg, s, w), n)
  {
    hide CarriesFacts, FileInv, Matched, FirstDue, Deliver, ImportRecord, AnswerFits, Delay;
    if !w.Acknowledge? {
      WrittenIdentity(cfg, s, w);
      if w.Conclude? { assert LiveAt(s, w.build); }
    }
  }

  /**
   Delivered is final: once build `n` has a delivered record or a tombstone, no continuation of the run sends
   it again, whatever crashes, resets and reappearing inputs it contains; its digest, CI Run and delivery time
   stay, an acknowledgement stays, and no identity is ever dropped.
   */
  lemma {:induction false} DeliveredIsFinal(cfg: Config, s0: Snap, log: seq<Step>, k: nat, n: int)
    requires Initial(s0) && Legal(cfg, s0, log) && k <= |log|
    ensures Keeps(After(cfg, s0, log[..k]), After(cfg, s0, log), n)
    ensures DoneAt(After(cfg, s0, log[..k]), n) ==> Sends(log, n) == Sends(log[..k], n)
    decreases |log|
  {
    if k == |log| {
      assert log[..k] == log;
    } else {
      var front := log[..|log| - 1];
      assert front[..k] == log[..k];
      DeliveredIsFinal(cfg, s0, front, k, n);
      RunKeepsInv(cfg, s0, front);
      StepKeepsIdentity(cfg, After(cfg, s0, front), log[|log| - 1], n);
      KeepsTransitive(After(cfg, s0, log[..k]), After(cfg, s0, front), After(cfg, s0, log), n);
    }
  }

  lemma KeepsTransitive(a: Snap, b: Snap, c: Snap, n: int)
    requires Keeps(a, b, n) && Keeps(b, c, n)
    ensures Keeps(a, c, n)
  {
  }

  // ---------- Effectively once ----------

  /**
   At every point of every run the receiver holds at most one CI Run for a build's delivery ID. A delivered
   record or tombstone means exactly one, and it names that CI Run.
   */
  lemma EffectivelyOnce(cfg: Config, s0: Snap, log: seq<Step>, n: int)
    requires Initial(s0) && Legal(cfg, s0, log) && n >= 0
    ensures var s, key := After(cfg, s0, log), DeliveryKey(cfg, n);
      && Created(s.ledger.runs, key) <= 1
      && (DoneAt(s, n) ==> Created(s.ledger.runs, key) == 1 && CIRun(key, CiRunOf(s.state[n])) in s.ledger.runs)
  {
    hide FileInv;
    RunKeepsInv(cfg, s0, log);
    var s := After(cfg, s0, log);
    if n in s.state { assert FileOk(cfg, s, n); }
  }

  /** Different builds never share a delivery ID, so their CI Runs are counted apart. */
  lemma DeliveryKeysDiffer(cfg: Config, a: nat, b: nat)
    requires DeliveryKey(cfg, a) == DeliveryKey(cfg, b)
    ensures a == b
  {
    assert ("build-" + Format(a))[6..] == Format(a);
    assert ("build-" + Format(b))[6..] == Format(b);
    FormatInjective(a, b);
  }

  /** The payload of every round was published by the producer under that build's number. */
  lemma SentPayloadWasPublished(cfg: Config, s0: Snap, log: seq<Step>, n: int)
    requires Initial(s0) && Legal(cfg, s0, log) && Enabled(cfg, After(cfg, s0, log), Send(n, false, "", "", SendFailed(ErrDelivery)))
    ensures var s := After(cfg, s0, log);
      n in s.state && s.state[n].Full? && (n, s.state[n].record.payload) in s.published
      && Sendable(cfg, n, s.state[n].record.payload, s.now)
  {
    hide Consistent, Sendable, Matched;
    RunKeepsInv(cfg, s0, log);
    assert FileOk(cfg, After(cfg, s0, log), n);
  }

  /** A sendable payload of build n is claimed under build n's key. */
  lemma SendableKey(cfg: Config, n: int, payload: Bytes, now: Time)
    requires n >= 0 && Sendable(cfg, n, payload, now)
    ensures ParsePayload(cfg.codec, payload, now).Accepted?
    ensures var p := ParsePayload(cfg.codec, payload, now).facts;
      ClaimKey(cfg.binding.workspaceId, cfg.binding.sourceId, p) == DeliveryKey(cfg, n)
  {
    hide ParsePayload;
  }

  /** Every round posts a payload whose own delivery ID is that of the build whose round it is. */
  lemma RoundClaimsOwnKey(cfg: Config, s0: Snap, log: seq<Step>, n: int)
    requires Initial(s0) && Legal(cfg, s0, log) && !After(cfg, s0, log).failed && After(cfg, s0, log).phase == Reserved(n)
    ensures var s := After(cfg, s0, log);
      && n >= 0 && n in s.state && s.state[n].Full?
      && ParsePayload(cfg.codec, s.state[n].record.payload, s.now).Accepted?
      && var p := ParsePayload(cfg.codec, s.state[n].record.payload, s.now).facts;
         ClaimKey(cfg.binding.workspaceId, cfg.binding.sourceId, p) == DeliveryKey(cfg, n)
  {
    hide Consistent, Sendable, Matched, ParsePayload;
    RunKeepsInv(cfg, s0, log);
    var s := After(cfg, s0, log);
    assert FileOk(cfg, s, n);
    SendableKey(cfg, n, s.state[n].record.payload, s.now);
  }

  // ---------- Manual reset ----------

  /**
   The condition `read` does not check: in every reachable state a blocked record that `Retry` would reset
   holds a deliverable payload, so the reset is a readable pending record at every later time.
   */
  lemma ResetAlwaysReadable(cfg: Config, s0: Snap, log: seq<Step>, n: int, at: Time, later: Time)
    requires Initial(s0) && Legal(cfg, s0, log)
    requires var s := After(cfg, s0, log);
      n in s.state && s.state[n].Full? && s.state[n].record.status.Blocked? && Resettable(s.state[n].record.reason)
      && |s.state[n].record.resets| < MAX_RESETS && s.state[n].record.updated <= at && s.now <= later
    ensures var r := ResetRecord(After(cfg, s0, log).state[n].record, at);
      Read(cfg, n, Full(r), later) == Some(r) && r.status.Pending? && Sendable(cfg, n, r.payload, later)
  {
    RunKeepsInv(cfg, s0, log);
    var s := After(cfg, s0, log);
    assert FileOk(cfg, s, n);
    SendableLater(cfg, n, s.state[n].record.payload, s.now, later);
    ResetReadableIff(cfg, n, s.state[n].record, s.now, at, later);
  }

  // ---------- Compaction ----------

  /** Step k of the log replaced build n's delivered record by its tombstone, with the evidence the collector gave. */
  ghost predicate CompactedBy(cfg: Config, s0: Snap, log: seq<Step>, k: nat, n: int)
    requires k < |log|
  {
    var s := After(cfg, s0, log[..k]);
    && log[k].Commit? && log[k].write.Compaction? && log[k].write.build == n && !log[k].outcome.Lost?
    && n in s.state && s.state[n].Full? && s.state[n].record.status.Delivered? && s.state[n].record.delivered.Some?
    && n !in s.input
    && n in s.acks && s.acks[n] == Ack(1, cfg.binding.sourceId, n, s.state[n].record.digest)
    && var (p, delivered, at) := (log[k].write.proof, s.state[n].record.delivered.value, log[k].write.at);
       && p.digest == s.state[n].record.digest && delivered <= p.handoff && delivered + 604_800_000_000_000 <= at
       && p.handoff + 604_800_000_000_000 <= p.retired <= p.observed <= at <= s.now
  }

  ghost predicate KeptBy(c: Tombstone, r: Record) {
    c.number == r.number && c.digest == r.digest && c.ciRunId == r.ciRunId && r.delivered == Some(c.delivered)
  }

  /**
   A tombstone exists only because some step justified it: delivered before the handoff, handed off seven days
   before it was retired, retired before it was observed, observed before now, equal digests, the matching
   acknowledgement present and the input gone. It keeps number, digest, CI Run and delivery time.
   */
  lemma {:induction false} CompactionJustified(cfg: Config, s0: Snap, log: seq<Step>, n: int) returns (k: nat)
    requires Initial(s0) && Legal(cfg, s0, log)
    requires n in After(cfg, s0, log).state && After(cfg, s0, log).state[n].Compact?
    ensures k < |log| && CompactedBy(cfg, s0, log, k, n)
    ensures KeptBy(After(cfg, s0, log).state[n].tombstone, After(cfg, s0, log[..k]).state[n].record)
  {
    hide Inv, Enabled, Apply, Keeps, CompactedBy, KeptBy;
    var front, e := log[..|log| - 1], log[|log| - 1];
    var s := After(cfg, s0, front);
    RunKeepsInv(cfg, s0, front);
    if n in s.state && s.state[n].Compact? {
      k := CompactionJustified(cfg, s0, front, n);
      TombstoneStays(cfg, s, e, n);
      CompactedEarlier(cfg, s0, log, k, n);
      assert log[..k] == front[..k];
    } else {
      k := |log| - 1;
      LastStepCompacts(cfg, s, e, n);
      CompactedLast(cfg, s0, log, n);
    }
  }

  lemma TombstoneStays(cfg: Config, s: Snap, e: Step, n: int)
    requires Inv(cfg, s) && Enabled(cfg, s, e) && n in s.state && s.state[n].Compact?
    ensures n in Apply(cfg, s, e).state && Apply(cfg, s, e).state[n] == s.state[n]
  {
    hide Inv, Enabled, Apply;
    StepKeepsIdentity(cfg, s, e, n);
  }

  lemma CompactedEarlier(cfg: Config, s0: Snap, log: seq<Step>, k: nat, n: int)
    requires |log| > 0 && k < |log| - 1 && CompactedBy(cfg, s0, log[..|log| - 1], k, n)
    ensures CompactedBy(cfg, s0, log, k, n)
  {
    assert log[..|log| - 1][..k] == log[..k];
  }

  lemma CompactedLast(cfg: Config, s0: Snap, log: seq<Step>, n: int)
    requires |log| > 0 && Legal(cfg, s0, log)
    requires var e := log[|log| - 1]; e.Commit? && e.write.Compaction? && e.write.build == n && !e.outcome.Lost?
    ensures CompactedBy(cfg, s0, log, |log| - 1, n)
  {
  }

  lemma LastStepCompacts(cfg: Config, s: Snap, e: Step, n: int)
    requires Inv(cfg, s) && Enabled(cfg, s, e)
    requires n in s.state ==> s.state[n].Full?
    requires n in Apply(cfg, s, e).state && Apply(cfg, s, e).state[n].Compact?
    ensures e.Commit? && e.write.Compaction? && e.write.build == n && !e.outcome.Lost?
    ensures n in s.state && s.state[n].record.delivered.Some? && KeptBy(Apply(cfg, s, e).state[n].tombstone, s.state[n].record)
  {
    hide CarriesFacts, FileInv, Matched, Deliver, AnswerFits, FirstDue, ImportRecord, OutcomeRecord, ExhaustedRecord, ReservedRecord, ResetRecord,
         Exhausted, LiveAt, DoneAt, Inv, LegalResult, Justifies, Resettable, LedgerAfter;
    WriteIsWritable(cfg, s, e.write);
  }

  /** What `read` makes of a tombstone can be neither sent nor reset. */
  lemma TombstoneIsInert(cfg: Config, n: int, c: Tombstone, now: Time)
    requires Read(cfg, n, Compact(c), now).Some?
    ensures var r := Read(cfg, n, Compact(c), now).value;
      !Live(r) && !r.status.Blocked? && r.status.Compacted? && r.number == n && r.digest == c.digest
      && r.ciRunId == c.ciRunId && r.delivered == Some(c.delivered)
  {
  }

  // ---------- Failed processes ----------

  /** After a failed write nothing is written or sent until the process is restarted. */
  lemma {:induction false} FailedIsSilent(cfg: Config, s: Snap, log: seq<Step>, n: int)
    requires s.failed && Legal(cfg, s, log) && (forall e | e in log :: !e.Crash?)
    ensures var t := After(cfg, s, log);
      t.failed && t.state == s.state && t.acks == s.acks && t.leftovers == s.leftovers && Sends(log, n) == 0
  {
    if log != [] {
      var front := log[..|log| - 1];
      assert forall e | e in front :: e in log;
      FailedIsSilent(cfg, s, front, n);
      assert log[|log| - 1] in log;
    }
  }
}
