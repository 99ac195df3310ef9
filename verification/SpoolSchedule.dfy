/**
 Scheduling over whole runs: every run sends finitely often, and a due record is served after at most
 as many rounds as there are records ahead of it, plus one for each crash.
 */
module SpoolSchedule {
  import opened Payload
  import opened DeliveryError
  import opened SpoolRecords
  import opened Receiver
  import opened SpoolProtocol
  import opened SpoolRuns
  import opened Sums
  import Backoff

  // ---------- Finitely many sends ----------

  function TotalSends(log: seq<Step>): nat {
    if log == [] then 0 else TotalSends(log[..|log| - 1]) + if log[|log| - 1].Send? then 1 else 0
  }

  /** Budget resets that a log attempts to write. */
  function TotalResets(log: seq<Step>): nat {
    if log == [] then 0 else TotalResets(log[..|log| - 1]) + if IsAnyReset(log[|log| - 1]) then 1 else 0
  }

  predicate IsAnyReset(e: Step) { e.Commit? && e.write.Reset? }

  /** Rounds a file may still use. */
  function CreditOf(f: StateFile): nat {
    if f.Full? && Live(f.record) && f.record.rounds <= MAX_ROUNDS then MAX_ROUNDS - f.record.rounds else 0
  }

  function Credits(s: Snap): map<int, nat> { map n | n in s.state :: CreditOf(s.state[n]) }

  /** The builds that were ever published. */
  function Builds(s: Snap): set<int> { set p | p in s.published :: p.0 }

  /** Published builds that have no record yet. */
  function Waiting(s: Snap): set<int> { Builds(s) - s.state.Keys }

  ghost function Potential(s: Snap): nat {
    Sum(Credits(s)) + MAX_ROUNDS * |Waiting(s)| + if s.phase.Reserved? then 1 else 0
  }

  lemma WriteSpends(cfg: Config, s: Snap, w: Write)
    requires Inv(cfg, s) && !s.failed && MayWrite(cfg, s, w) && Writable(s, w) && !w.Acknowledge?
    ensures var before := if w.build in s.state then CreditOf(s.state[w.build]) else 0;
            var after := CreditOf(Written(cfg, s, w));
      match w
      case Reserve(_, _) => after + 1 == before
      case Import(_, _, _) => after <= MAX_ROUNDS && before == 0
      case Reset(_, _) => after <= MAX_ROUNDS && before == 0
      case _ => after <= before
  {
    hide Sendable, FirstDue, Matched, AnswerFits, StatusRules;
    if w.build in s.state { assert FileOk(cfg, s, w.build); }
  }

  lemma WaitingAfter(s: Snap, n: int, f: StateFile)
    ensures Waiting(s.(state := s.state[n := f])) == Waiting(s) - {n}
    ensures n in s.state ==> Waiting(s.(state := s.state[n := f])) == Waiting(s)
  {
  }

  lemma CreditsAfter(s: Snap, n: int, f: StateFile)
    ensures Sum(Credits(s.(state := s.state[n := f]))) + (if n in s.state then CreditOf(s.state[n]) else 0)
            == Sum(Credits(s)) + CreditOf(f)
  {
    SumUpdate(Credits(s), n, CreditOf(f));
    assert Credits(s.(state := s.state[n := f])) == Credits(s)[n := CreditOf(f)];
  }

  lemma RenameSpends(cfg: Config, s: Snap, w: Write)
    requires Inv(cfg, s) && !s.failed && MayWrite(cfg, s, w) && Writable(s, w)
    ensures var t := Renamed(cfg, s, w);
      Sum(Credits(t)) + MAX_ROUNDS * |Waiting(t)| + (if w.Reserve? then 1 else 0)
      <= Sum(Credits(s)) + MAX_ROUNDS * |Waiting(s)| + (if w.Reset? then MAX_ROUNDS else 0)
  {
    hide FileInv, Matched, FirstDue, Written, CreditOf, Sum, Inv, LiveAt, DoneAt, Justifies, Exhausted, Resettable;
    var t := Renamed(cfg, s, w);
    if w.Acknowledge? {
      assert Credits(t) == Credits(s) && Waiting(t) == Waiting(s);
    } else {
      var n, f := w.build, Written(cfg, s, w);
      WriteSpends(cfg, s, w);
      CreditsAfter(s, n, f);
      WaitingAfter(s, n, f);
      if w.Import? {
        assert (n, w.body) in s.published && (n, w.body).0 == n;
        assert n in Waiting(s);
        assert |Waiting(t)| == |Waiting(s)| - 1;
      }
    }
  }

  /** A step spends a round or leaves the rest as it is; only a reset and a build never published before add to it. */
  lemma StepSpends(cfg: Config, s: Snap, e: Step)
    requires Inv(cfg, s) && Enabled(cfg, s, e)
    ensures var t := Apply(cfg, s, e);
      Potential(t) + MAX_ROUNDS * |Builds(s)| + (if e.Send? then 1 else 0)
      <= Potential(s) + MAX_ROUNDS * |Builds(t)| + (if IsAnyReset(e) then MAX_ROUNDS else 0)
  {
    hide FileInv, Matched, Renamed, MayWrite, CreditOf, Sum, Inv, Deliver, AnswerFits, Credits, Waiting, Writable, Builds;
    var t := Apply(cfg, s, e);
    match e
    case Publish(input) => PublishGrants(s, input);
    case Commit(w, outcome) =>
      WriteIsWritable(cfg, s, w);
      RenameSpends(cfg, s, w);
      CommitSpends(cfg, s, w, outcome);
      SamePublished(cfg, s, w, outcome);
    case _ => SameCredits(s, t);
  }

  lemma SameCredits(s: Snap, t: Snap)
    requires s.state == t.state && s.published == t.published
    ensures Credits(s) == Credits(t) && Waiting(s) == Waiting(t) && Builds(s) == Builds(t)
  {
  }

  lemma SamePublished(cfg: Config, s: Snap, w: Write, outcome: Outcome)
    requires Writable(s, w)
    ensures Builds(Apply(cfg, s, Commit(w, outcome))) == Builds(s)
  {
    hide Written, Writable;
  }

  lemma PublishGrants(s: Snap, input: map<int, Bytes>)
    ensures var t := s.(input := input, published := s.published + input.Items);
      Credits(t) == Credits(s) && |Waiting(t)| + |Builds(s)| <= |Waiting(s)| + |Builds(t)|
  {
    hide CreditOf, Sum;
    var t := s.(input := input, published := s.published + input.Items);
    assert Credits(t) == Credits(s);
    var added := Builds(t) - Builds(s);
    PublishedStay(s, t);
    assert Builds(t) == Builds(s) + added;
    assert Waiting(t) <= Waiting(s) + added;
    hide Credits, Waiting, Builds;
    SubsetSize(Waiting(t), Waiting(s) + added);
    UnionSize(Waiting(s), added);
  }

  lemma PublishedStay(s: Snap, t: Snap)
    requires s.published <= t.published
    ensures Builds(s) <= Builds(t)
  {
    forall n | n in Builds(s) ensures n in Builds(t) {
      var p :| p in s.published && p.0 == n;
      assert p in t.published;
    }
  }

  lemma CommitSpends(cfg: Config, s: Snap, w: Write, outcome: Outcome)
    requires Inv(cfg, s) && !s.failed && MayWrite(cfg, s, w) && Writable(s, w)
    requires var t := Renamed(cfg, s, w);
      Sum(Credits(t)) + MAX_ROUNDS * |Waiting(t)| + (if w.Reserve? then 1 else 0)
      <= Sum(Credits(s)) + MAX_ROUNDS * |Waiting(s)| + (if w.Reset? then MAX_ROUNDS else 0)
    ensures Potential(Apply(cfg, s, Commit(w, outcome))) <= Potential(s) + (if w.Reset? then MAX_ROUNDS else 0)
  {
    hide Renamed, Credits, Waiting, Builds, Sum, Inv, Writable;
    var t, u := Renamed(cfg, s, w), Apply(cfg, s, Commit(w, outcome));
    SameCredits(u, if outcome.Lost? then s else t);
    PhaseIsFree(cfg, s, w);
  }

  /** A write never starts while a reserved round is still unsent. */
  lemma PhaseIsFree(cfg: Config, s: Snap, w: Write)
    requires MayWrite(cfg, s, w) && Writable(s, w)
    ensures !s.phase.Reserved? && Renamed(cfg, s, w).phase == s.phase
    ensures w.Reserve? || !PhaseAfter(s, w).Reserved?
    ensures if w.Conclude? then s.phase.Answered? && s.phase.build == w.build else s.phase.Idle?
  {
    hide FirstDue, Written, Justifies;
  }

  /**
   Quiescence. From any reachable state, the sends of a continuation and the rounds left at its end never exceed
   the rounds left at the start plus twelve for each reset and for each build that was published for the first
   time. Publishing the same builds again grants nothing.
   */
  lemma {:induction false} SendsAreFinite(cfg: Config, s: Snap, log: seq<Step>)
    requires Inv(cfg, s) && Legal(cfg, s, log)
    ensures Inv(cfg, After(cfg, s, log))
    ensures var t := After(cfg, s, log);
      TotalSends(log) + Potential(t) + MAX_ROUNDS * |Builds(s)|
      <= Potential(s) + MAX_ROUNDS * |Builds(t)| + MAX_ROUNDS * TotalResets(log)
  {
    hide Inv, Potential, Apply, Enabled, Builds, IsAnyReset;
    if log != [] {
      var front, e := log[..|log| - 1], log[|log| - 1];
      SendsAreFinite(cfg, s, front);
      StepKeepsInv(cfg, After(cfg, s, front), e);
      StepSpends(cfg, After(cfg, s, front), e);
    }
  }

  /** With a fixed set of builds and no reset, a run of any length sends at most Potential(s) times, however often it crashes. */
  lemma FixedBuildsBoundSends(cfg: Config, s: Snap, log: seq<Step>)
    requires Inv(cfg, s) && Legal(cfg, s, log) && TotalResets(log) == 0
    requires forall i | 0 <= i < |log| && log[i].Publish? :: log[i].input.Keys <= Builds(s)
    ensures TotalSends(log) <= Potential(s)
  {
    hide Inv, Potential, Legal, Builds;
    SendsAreFinite(cfg, s, log);
    BuildsAreFixed(cfg, s, log);
  }

  lemma {:induction false} BuildsAreFixed(cfg: Config, s: Snap, log: seq<Step>)
    requires forall i | 0 <= i < |log| && log[i].Publish? :: log[i].input.Keys <= Builds(s)
    ensures Builds(After(cfg, s, log)) == Builds(s)
  {
    hide Apply, Builds;
    if log != [] {
      var front, e := log[..|log| - 1], log[|log| - 1];
      BuildsAreFixed(cfg, s, front);
      StepBuilds(cfg, After(cfg, s, front), e);
    }
  }

  lemma StepBuilds(cfg: Config, s: Snap, e: Step)
    requires e.Publish? ==> e.input.Keys <= Builds(s)
    ensures Builds(Apply(cfg, s, e)) == Builds(s)
  {
    var t := Apply(cfg, s, e);
    if e.Publish? {
      PublishedStay(s, t);
      forall n | n in Builds(t) ensures n in Builds(s) {
        var p :| p in t.published && p.0 == n;
        if p !in s.published { assert p in e.input.Items && n in e.input.Keys; }
      }
    } else if e.Commit? && Writable(s, e.write) {
      SamePublished(cfg, s, e.write, e.outcome);
    }
  }

  // ---------- Fairness ----------

  function Crashes(log: seq<Step>): nat {
    if log == [] then 0 else Crashes(log[..|log| - 1]) + if log[|log| - 1].Crash? then 1 else 0
  }

  /** The live records that a tick would prefer to build `n`. */
  ghost function Ahead(s: Snap, n: int): set<int>
    requires LiveAt(s, n)
  {
    set m | m in s.state && LiveAt(s, m) && m != n && Before(s, m, n)
  }

  /** The same without the build whose round is in progress. */
  ghost function Rivals(s: Snap, n: int): set<int>
    requires LiveAt(s, n)
  {
    Ahead(s, n) - if s.phase.Idle? then {} else {s.phase.build}
  }

  ghost function Pressure(s: Snap, n: int): nat
    requires LiveAt(s, n)
  {
    |Rivals(s, n)| + if s.phase.Reserved? then 1 else 0
  }

  /**
   A step of a segment in which build `n`, due at `due`, waits: nothing is written to its record, rounds are
   reserved and concluded no earlier than its due instant, and no import or reset is stamped at or before it.
   */
  predicate Waits(e: Step, n: int, due: Time) {
    e.Commit? && !e.write.Acknowledge? ==>
      e.write.build != n
      && match e.write
         case Reserve(_, at) => at >= due
         case Conclude(_, at) => at >= due
         case Import(_, _, at) => at > due
         case Reset(_, at) => at > due
         case _ => true
  }

  lemma RoundMovesPast(cfg: Config, s: Snap, n: int, w: Write)
    requires Inv(cfg, s) && !s.failed && MayWrite(cfg, s, w) && Writable(s, w) && LiveAt(s, n)
    requires Waits(Commit(w, Synced), n, s.state[n].record.next) && !w.Acknowledge?
    ensures var t, m := Renamed(cfg, s, w), w.build;
      && LiveAt(t, n) && t.state[n] == s.state[n]
      && (w.Reserve? ==> m in Ahead(s, n) && LiveAt(t, m) && Before(t, m, n))
      && (!w.Reserve? ==> LiveAt(t, m) ==> !Before(t, m, n))
  {
    hide Inv, Matched, AnswerFits, ImportRecord, OutcomeRecord, Exhausted, Resettable, Justifies, Paused;
    var m := w.build;
    match w
    case Reserve(_, at) => assert LiveAt(s, n) && s.state[n].record.next <= at && m != n;
    case Conclude(_, at) =>
      InFlightRounds(cfg, s, m);
      OutcomeDue(cfg, s.state[m].record, s.phase.result, at);
    case Import(_, body, at) => ImportedCounters(cfg, m, body, at);
    case _ =>
  }

  lemma InFlightRounds(cfg: Config, s: Snap, m: int)
    requires Inv(cfg, s) && !s.failed && s.phase.Answered? && s.phase.build == m
    ensures m in s.state && s.state[m].Full? && s.state[m].record.rounds >= 1 && s.state[m].record.first.Some?
  {
    hide Sendable, Matched, AnswerFits;
    assert FileOk(cfg, s, m);
  }

  /** A round that ends leaves its record finished, blocked, or due strictly later than the instant it ended. */
  lemma OutcomeDue(cfg: Config, r: Record, result: SendResult, at: Time)
    requires r.rounds >= 1 && r.first.Some?
    ensures var q := OutcomeRecord(cfg, r, result, at); Live(q) ==> q.next > at
  {
    Backoff.DelayBounds(cfg.codec.jitter(r.digest, r.rounds), r.rounds);
  }

  lemma RenameAhead(cfg: Config, s: Snap, n: int, w: Write)
    requires Inv(cfg, s) && !s.failed && MayWrite(cfg, s, w) && Writable(s, w) && LiveAt(s, n)
    requires Waits(Commit(w, Synced), n, s.state[n].record.next) && !w.Acknowledge?
    ensures var t := Renamed(cfg, s, w);
      && LiveAt(t, n) && t.state[n] == s.state[n]
      && (w.Reserve? ==> w.build in Ahead(s, n) && Ahead(t, n) == Ahead(s, n))
      && (!w.Reserve? ==> Ahead(t, n) == Ahead(s, n) - {w.build})
  {
    hide FileInv, Matched, FirstDue, Written, AnswerFits, FileOk, Exhausted, Resettable, Justifies;
    RoundMovesPast(cfg, s, n, w);
    var t := Renamed(cfg, s, w);
    forall m | m != w.build ensures m in Ahead(t, n) <==> m in Ahead(s, n) {
      assert m in t.state <==> m in s.state;
      assert m in s.state ==> t.state[m] == s.state[m];
    }
    if w.Reserve? { assert w.build in Ahead(t, n); } else { assert w.build !in Ahead(t, n); }
  }

  lemma CommitPressure(cfg: Config, s: Snap, n: int, w: Write, outcome: Outcome)
    requires Inv(cfg, s) && !s.failed && MayWrite(cfg, s, w) && Writable(s, w) && LiveAt(s, n)
    requires Waits(Commit(w, outcome), n, s.state[n].record.next)
    ensures var t := Apply(cfg, s, Commit(w, outcome));
      LiveAt(t, n) && t.state[n] == s.state[n] && Pressure(t, n) <= Pressure(s, n)
  {
    hide MayWrite, Renamed, Ahead, Inv, Before, Writable;
    PhaseIsFree(cfg, s, w);
    var t := Apply(cfg, s, Commit(w, outcome));
    if outcome.Lost? {
      SameAhead(s, t, n);
    } else if w.Acknowledge? {
      AcknowledgedState(cfg, s, w);
      SameAhead(s, t, n);
    } else {
      RenameAhead(cfg, s, n, w);
      SameAhead(Renamed(cfg, s, w), t, n);
      SubsetSize(Rivals(t, n), Rivals(s, n));
      if w.Reserve? && outcome.Synced? {
        assert Rivals(t, n) == Rivals(s, n) - {w.build};
      }
    }
  }

  lemma AcknowledgedState(cfg: Config, s: Snap, w: Write)
    requires Writable(s, w) && w.Acknowledge?
    ensures Renamed(cfg, s, w).state == s.state
  {
  }

  lemma SameAhead(s: Snap, t: Snap, n: int)
    requires s.state == t.state && LiveAt(s, n)
    ensures LiveAt(t, n) && Ahead(t, n) == Ahead(s, n)
  {
  }

  lemma StepPressure(cfg: Config, s: Snap, n: int, e: Step)
    requires Inv(cfg, s) && Enabled(cfg, s, e) && LiveAt(s, n) && Waits(e, n, s.state[n].record.next)
    ensures var t := Apply(cfg, s, e);
      LiveAt(t, n) && t.state[n] == s.state[n]
      && Pressure(t, n) + (if e.Send? then 1 else 0) <= Pressure(s, n) + (if e.Crash? then 1 else 0)
  {
    hide FileInv, Matched, MayWrite, Renamed, Writable, Ahead, Inv, Deliver, AnswerFits;
    var t := Apply(cfg, s, e);
    if e.Commit? {
      WriteIsWritable(cfg, s, e.write);
      CommitPressure(cfg, s, n, e.write, e.outcome);
    } else {
      SameAhead(s, t, n);
      if e.Crash? && !s.phase.Idle? {
        assert Rivals(t, n) <= Rivals(s, n) + {s.phase.build};
        SubsetSize(Rivals(t, n), Rivals(s, n) + {s.phase.build});
        UnionSize(Rivals(s, n), {s.phase.build});
      }
    }
  }

  /**
   Fair scheduling. While a record waits past its due instant, the rounds given to other builds number at most
   the records ahead of it, plus one for each crash: each round that ends leaves the line or moves behind it.
   Any longer continuation writes to the waiting record itself.
   */
  lemma {:induction false} WaitingIsBounded(cfg: Config, s: Snap, log: seq<Step>, n: int)
    requires Inv(cfg, s) && Legal(cfg, s, log) && LiveAt(s, n)
    requires forall e | e in log :: Waits(e, n, s.state[n].record.next)
    ensures Inv(cfg, After(cfg, s, log)) && LiveAt(After(cfg, s, log), n) && After(cfg, s, log).state[n] == s.state[n]
    ensures TotalSends(log) + Pressure(After(cfg, s, log), n) <= Pressure(s, n) + Crashes(log)
    ensures s.phase.Idle? ==> TotalSends(log) <= |Ahead(s, n)| + Crashes(log)
  {
    hide Inv, Apply, Enabled, Waits, Ahead;
    if log != [] {
      var front, e := log[..|log| - 1], log[|log| - 1];
      assert forall x | x in front :: x in log;
      WaitingIsBounded(cfg, s, front, n);
      assert e in log;
      StepKeepsInv(cfg, After(cfg, s, front), e);
      StepPressure(cfg, After(cfg, s, front), n, e);
    }
  }
}
