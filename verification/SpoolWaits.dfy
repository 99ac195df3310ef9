/**
 The waits that a run stores for a build: each fits its round, none is shorter than an earlier one of the same budget,
 and those of a full budget add up to about six hours.
 */
module SpoolWaits {
  import opened Payload
  import opened DeliveryError
  import opened SpoolRecords
  import opened SpoolLaws
  import opened Receiver
  import opened SpoolProtocol
  import opened SpoolRuns

  /** Step i of the run concluded round k of build n and stored that the next one is to wait so long. */
  ghost predicate StoresWait(cfg: Config, s0: Snap, log: seq<Step>, i: nat, n: int, k: int, wait: Time) {
    && i < |log| && log[i].Commit? && log[i].write.Conclude? && log[i].write.build == n && !log[i].outcome.Lost?
    && var t := After(cfg, s0, log[..i + 1]);
       && n in t.state && t.state[n].Full? && t.state[n].record.status == RetryWait && t.state[n].record.rounds == k
       && t.state[n].record.updated == log[i].write.at && t.state[n].record.next == log[i].write.at + wait
  }

  /** No budget of build n is reset by the steps after i up to j. */
  predicate NoResetBetween(log: seq<Step>, i: nat, j: nat, n: int)
    requires j < |log|
  {
    forall m | i < m <= j :: !IsReset(log[m], n)
  }

  /** The steps of a legal run, one at a time. */
  lemma StepOf(cfg: Config, s0: Snap, log: seq<Step>, i: nat)
    requires Initial(s0) && Legal(cfg, s0, log) && i < |log|
    ensures var s := After(cfg, s0, log[..i]);
      Inv(cfg, s) && Enabled(cfg, s, log[i]) && After(cfg, s0, log[..i + 1]) == Apply(cfg, s, log[i])
  {
    CrashAnywhere(cfg, s0, log, i, false);
    CrashAnywhere(cfg, s0, log, i + 1, false);
    RunKeepsInv(cfg, s0, log[..i]);
    assert log[..i + 1][..i] == log[..i] && log[..i + 1][i] == log[i];
    hide Inv, Initial, Apply, Enabled;
  }

  /** Every stored wait fits its round, and a round that waits is not the twelfth. */
  lemma StoredWaitFits(cfg: Config, s0: Snap, log: seq<Step>, i: nat, n: int, k: int, wait: Time)
    requires Initial(s0) && Legal(cfg, s0, log) && StoresWait(cfg, s0, log, i, n, k, wait)
    ensures 1 <= k <= 11 && WaitFits(k, wait)
  {
    StepOf(cfg, s0, log, i);
    ConcludedWait(cfg, After(cfg, s0, log[..i]), log[i].write, log[i].outcome);
  }

  lemma ConcludedWait(cfg: Config, s: Snap, w: Write, outcome: Outcome)
    requires Inv(cfg, s) && Enabled(cfg, s, Commit(w, outcome)) && w.Conclude? && !outcome.Lost?
    ensures var t := Apply(cfg, s, Commit(w, outcome)); var n := w.build;
      && n in s.state && s.state[n].Full? && n in t.state && t.state[n].Full?
      && t.state[n].record.rounds == s.state[n].record.rounds
      && (t.state[n].record.status == RetryWait ==>
            1 <= t.state[n].record.rounds <= 11 && WaitFits(t.state[n].record.rounds, t.state[n].record.next - w.at))
  {
    WriteIsWritable(cfg, s, w);
    OutcomeWait(cfg, s.state[w.build].record, s.phase.result, w.at);
    hide Inv, WaitFits, MayWrite, OutcomeRecord;
  }

  lemma OutcomeWait(cfg: Config, r: Record, result: SendResult, at: Time)
    requires r.rounds >= 1 && r.first.Some?
    ensures var q := OutcomeRecord(cfg, r, result, at);
      q.rounds == r.rounds && (q.status == RetryWait ==> q.rounds <= 11 && WaitFits(q.rounds, q.next - at))
  {
    StoredWait(cfg, r);
    hide Delay, WaitFits, CiRunIdPattern;
  }

  /** Build n is compacted, or it has had at least k rounds and a round under way is a later one. */
  predicate Past(s: Snap, n: int, k: int) {
    && n in s.state
    && (s.state[n].Full? ==>
          && s.state[n].record.rounds >= k
          && (!s.failed && !s.phase.Idle? && s.phase.build == n ==> s.state[n].record.rounds >= k + 1))
  }

  lemma RenamePast(cfg: Config, s: Snap, w: Write, n: int, k: int)
    requires Inv(cfg, s) && !s.failed && MayWrite(cfg, s, w) && Writable(s, w) && Past(s, n, k) && !(w.Reset? && w.build == n)
    ensures var t := Renamed(cfg, s, w);
      Past(t.(phase := PhaseAfter(s, w)), n, k) && Past(t.(failed := true), n, k)
  {
    hide Inv, ImportRecord, FirstDue, Justifies, Exhausted, Delay, AnswerFits;
  }

  lemma StepPast(cfg: Config, s: Snap, e: Step, n: int, k: int)
    requires Inv(cfg, s) && Enabled(cfg, s, e) && Past(s, n, k) && !IsReset(e, n)
    ensures Past(Apply(cfg, s, e), n, k)
  {
    hide Inv, MayWrite, Renamed, Writable, Deliver, AnswerFits, CarriesFacts;
    if e.Commit? {
      WriteIsWritable(cfg, s, e.write);
      if !(e.write.Reset? && e.write.build == n) { RenamePast(cfg, s, e.write, n, k); }
    }
  }

  lemma {:induction false} PastOn(cfg: Config, s0: Snap, log: seq<Step>, i: nat, j: nat, n: int, k: int)
    requires Initial(s0) && Legal(cfg, s0, log) && i <= j < |log| && NoResetBetween(log, i, j, n)
    requires Past(After(cfg, s0, log[..i + 1]), n, k)
    ensures Past(After(cfg, s0, log[..j + 1]), n, k)
    decreases j
  {
    hide Inv, Past, Apply, Enabled, IsReset, Initial, Legal, After;
    if i < j {
      PastOn(cfg, s0, log, i, j - 1, n, k);
      StepOf(cfg, s0, log, j);
      StepPast(cfg, After(cfg, s0, log[..j]), log[j], n, k);
    }
  }

  /** A wait stored later, without a reset in between, belongs to a later round. */
  lemma LaterRound(cfg: Config, s0: Snap, log: seq<Step>, i: nat, j: nat, n: int, k: int, l: int, earlier: Time, later: Time)
    requires Initial(s0) && Legal(cfg, s0, log) && i < j && StoresWait(cfg, s0, log, i, n, k, earlier)
    requires StoresWait(cfg, s0, log, j, n, l, later) && NoResetBetween(log, i, j, n)
    ensures k < l
  {
    hide Initial, Legal, After, Inv;
    StepOf(cfg, s0, log, i);
    StepOf(cfg, s0, log, j);
    StartsPast(cfg, After(cfg, s0, log[..i]), log[i].write, log[i].outcome, k);
    PastOn(cfg, s0, log, i, j - 1, n, k);
    ConcludedWait(cfg, After(cfg, s0, log[..j]), log[j].write, log[j].outcome);
    RoundUnderWay(cfg, After(cfg, s0, log[..j]), log[j].write, log[j].outcome, k);
  }

  lemma StartsPast(cfg: Config, s: Snap, w: Write, outcome: Outcome, k: int)
    requires Inv(cfg, s) && Enabled(cfg, s, Commit(w, outcome)) && w.Conclude? && !outcome.Lost?
    requires var t := Apply(cfg, s, Commit(w, outcome)); w.build in t.state && t.state[w.build].Full? && t.state[w.build].record.rounds == k
    ensures Past(Apply(cfg, s, Commit(w, outcome)), w.build, k)
  {
    hide Inv, Renamed, MayWrite;
    WriteIsWritable(cfg, s, w);
  }

  lemma RoundUnderWay(cfg: Config, s: Snap, w: Write, outcome: Outcome, k: int)
    requires Enabled(cfg, s, Commit(w, outcome)) && w.Conclude? && Past(s, w.build, k)
    ensures w.build in s.state && s.state[w.build].Full? && s.state[w.build].record.rounds >= k + 1
  {
    hide FirstDue;
  }

  /** Along a run a build never waits less than it did after an earlier round of the same budget. */
  lemma WaitsNeverShrink(cfg: Config, s0: Snap, log: seq<Step>, i: nat, j: nat, n: int, k: int, l: int, earlier: Time, later: Time)
    requires Initial(s0) && Legal(cfg, s0, log) && i < j && StoresWait(cfg, s0, log, i, n, k, earlier)
    requires StoresWait(cfg, s0, log, j, n, l, later) && NoResetBetween(log, i, j, n)
    ensures k < l && earlier <= later
  {
    hide Initial, Legal, StoresWait, NoResetBetween, WaitFits;
    LaterRound(cfg, s0, log, i, j, n, k, l, earlier, later);
    StoredWaitFits(cfg, s0, log, i, n, k, earlier);
    StoredWaitFits(cfg, s0, log, j, n, l, later);
    WaitsGrow(k, l, earlier, later);
  }

  /** Eleven waits of one budget, in the order of the run. */
  ghost predicate OneBudget(cfg: Config, s0: Snap, log: seq<Step>, n: int, steps: seq<nat>, rounds: seq<int>, waits: seq<Time>) {
    && |steps| == |rounds| == |waits|
    && (forall m | 0 <= m < |steps| :: StoresWait(cfg, s0, log, steps[m], n, rounds[m], waits[m]))
    && (forall m, l | 0 <= m < l < |steps| && l == m + 1 :: steps[m] < steps[l] < |log| && NoResetBetween(log, steps[m], steps[l], n))
  }

  lemma {:induction false} RoundsClimb(cfg: Config, s0: Snap, log: seq<Step>, n: int, steps: seq<nat>, rounds: seq<int>, waits: seq<Time>, m: nat)
    requires Initial(s0) && Legal(cfg, s0, log) && OneBudget(cfg, s0, log, n, steps, rounds, waits) && m < |steps|
    ensures rounds[m] >= rounds[0] + m
  {
    hide Initial, Legal, StoresWait, NoResetBetween;
    if m > 0 {
      RoundsClimb(cfg, s0, log, n, steps, rounds, waits, m - 1);
      assert steps[m - 1] < steps[m];
      LaterRound(cfg, s0, log, steps[m - 1], steps[m], n, rounds[m - 1], rounds[m], waits[m - 1], waits[m]);
    }
  }

  lemma {:induction false} RoundsDescend(cfg: Config, s0: Snap, log: seq<Step>, n: int, steps: seq<nat>, rounds: seq<int>, waits: seq<Time>, m: nat)
    requires Initial(s0) && Legal(cfg, s0, log) && OneBudget(cfg, s0, log, n, steps, rounds, waits) && m < |steps|
    ensures rounds[m] <= rounds[|steps| - 1] - (|steps| - 1 - m)
    decreases |steps| - m
  {
    hide Initial, Legal, StoresWait, NoResetBetween;
    if m < |steps| - 1 {
      RoundsDescend(cfg, s0, log, n, steps, rounds, waits, m + 1);
      assert steps[m] < steps[m + 1];
      LaterRound(cfg, s0, log, steps[m], steps[m + 1], n, rounds[m], rounds[m + 1], waits[m], waits[m + 1]);
    }
  }

  /** A receiver that is down for a full budget is given between 363 and 370 minutes of waiting before the last round. */
  lemma FullBudgetLasts(cfg: Config, s0: Snap, log: seq<Step>, n: int, steps: seq<nat>, rounds: seq<int>, waits: seq<Time>)
    requires Initial(s0) && Legal(cfg, s0, log) && OneBudget(cfg, s0, log, n, steps, rounds, waits) && |steps| == 11
    ensures 363 * 60_000_000_000 <= Total(waits) <= 370 * 60_000_000_000
  {
    hide Initial, Legal, StoresWait, NoResetBetween, WaitFits;
    StoredWaitFits(cfg, s0, log, steps[0], n, rounds[0], waits[0]);
    StoredWaitFits(cfg, s0, log, steps[10], n, rounds[10], waits[10]);
    forall m | 0 <= m < 11 ensures WaitFits(m + 1, waits[m]) {
      RoundsClimb(cfg, s0, log, n, steps, rounds, waits, m);
      RoundsDescend(cfg, s0, log, n, steps, rounds, waits, m);
      StoredWaitFits(cfg, s0, log, steps[m], n, rounds[m], waits[m]);
    }
    FullBudgetWaits(waits);
  }
}
