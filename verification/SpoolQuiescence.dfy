/**
 The worker's loop and where it ends. So many rounds are given and no more, so some tick finds nothing to do; a day
 after such a tick every record it found is delivered, compacted or blocked, because no first attempt moves any more.
 */
module SpoolQuiescence {
  import opened Text
  import opened Payload
  import opened SpoolRecords
  import opened Receiver
  import opened SpoolProtocol
  import opened SpoolRuns
  import opened SpoolSchedule
  import opened SpoolWorld
  import opened SpoolScan
  import opened SpoolImport
  import opened SpoolReport
  import opened SpoolTick
  import opened SpoolWorker

  /** One tick without an error, as a stretch of the log of all steps. */
  datatype Turn = Turn(from: nat, to: nat, at: Time, worked: bool)

  ghost predicate IsTurn(cfg: Config, s: Snap, log: seq<Step>, k: Turn) {
    && k.from <= k.to <= |log|
    && TotalSends(log[..k.to]) == TotalSends(log[..k.from]) + (if k.worked then 1 else 0)
    && CleanTick(After(cfg, s, log[..k.from]), After(cfg, s, log[..k.to]), k.at, k.worked)
  }

  /** Ticks without an error, one after the other, with any steps between them. */
  ghost predicate Turns(cfg: Config, s: Snap, log: seq<Step>, ks: seq<Turn>) {
    && (forall i | 0 <= i < |ks| :: IsTurn(cfg, s, log, ks[i]))
    && forall i, j | 0 <= i < j < |ks| :: ks[i].to <= ks[j].from
  }

  // ---------- Records age ----------

  /** Delivered, compacted or blocked. */
  predicate Ended(s: Snap, n: int) {
    DoneAt(s, n) || (n in s.state && s.state[n].Full? && s.state[n].record.status.Blocked?)
  }

  /** Build n has ended, or its first attempt is settled: no answer that is still to come is one to its first round. */
  predicate Ages(s: Snap, n: int, first: Time) {
    Ended(s, n)
    || (LiveAt(s, n) && s.state[n].record.rounds >= 1 && s.state[n].record.first == Some(first)
        && (!s.phase.Idle? && s.phase.build == n ==> s.state[n].record.rounds >= 2))
  }

  /** No budget of build n is reset in the stretch. */
  predicate NoReset(log: seq<Step>, p: nat, q: nat, n: int)
    requires p <= q <= |log|
  {
    forall i | p <= i < q :: !IsReset(log[i], n)
  }

  /** Every write except a reset leaves an ageing record ageing. */
  lemma RenameAges(cfg: Config, s: Snap, w: Write, n: int, first: Time)
    requires Inv(cfg, s) && !s.failed && MayWrite(cfg, s, w) && Writable(s, w) && Ages(s, n, first)
    requires !(w.Reset? && w.build == n)
    ensures var t := Renamed(cfg, s, w);
      Ages(t.(phase := PhaseAfter(s, w)), n, first) && Ages(t.(failed := true), n, first)
  {
    hide Inv, Matched, AnswerFits, ImportRecord, FirstDue, Justifies, Exhausted, Delay, TombstoneOf;
  }

  lemma StepAges(cfg: Config, s: Snap, e: Step, n: int, first: Time)
    requires Inv(cfg, s) && Enabled(cfg, s, e) && Ages(s, n, first) && !IsReset(e, n)
    ensures Ages(Apply(cfg, s, e), n, first)
  {
    hide Inv, MayWrite, Renamed, Deliver, AnswerFits, Writable;
    if e.Commit? {
      WriteIsWritable(cfg, s, e.write);
      if !(e.write.Reset? && e.write.build == n) { RenameAges(cfg, s, e.write, n, first); }
    }
  }

  lemma {:induction false} AgesOn(cfg: Config, s: Snap, log: seq<Step>, p: nat, q: nat, n: int, first: Time)
    requires Inv(cfg, s) && Legal(cfg, s, log) && p <= q <= |log| && NoReset(log, p, q, n)
    requires Ages(After(cfg, s, log[..p]), n, first)
    ensures Ages(After(cfg, s, log[..q]), n, first)
    decreases q
  {
    hide Inv, Ages, Apply, Enabled, IsReset;
    if p < q {
      AgesOn(cfg, s, log, p, q - 1, n, first);
      var e := log[q - 1];
      assert log[..q][..q - 1] == log[..q - 1] && log[..q][q - 1] == e;
      CrashAnywhere(cfg, s, log, q, false);
      CrashAnywhere(cfg, s, log, q - 1, false);
      SendsAreFinite(cfg, s, log[..q - 1]);
      StepAges(cfg, After(cfg, s, log[..q - 1]), e, n, first);
    }
  }

  /** A record that has ended stays ended: it would keep every first attempt, and a live record has only one. */
  lemma EndedOn(cfg: Config, s: Snap, log: seq<Step>, p: nat, q: nat, n: int)
    requires Inv(cfg, s) && Legal(cfg, s, log) && p <= q <= |log| && NoReset(log, p, q, n)
    requires Ended(After(cfg, s, log[..p]), n)
    ensures Ended(After(cfg, s, log[..q]), n)
  {
    hide Inv, Legal, After, NoReset;
    AgesOn(cfg, s, log, p, q, n, 0);
    AgesOn(cfg, s, log, p, q, n, 1);
  }

  function FirstOf(s: Snap, n: int): Time {
    if n in s.state && s.state[n].Full? && s.state[n].record.first.Some? then s.state[n].record.first.value else 0
  }

  /** Where a tick found nothing to do, every record has ended or has a first attempt that does not move any more. */
  lemma QuietAges(cfg: Config, t: Snap, at: Time, n: int)
    requires Inv(cfg, t) && Quiet(t, at) && t.phase.Idle? && n in t.state
    ensures Ages(t, n, FirstOf(t, n)) && FirstOf(t, n) <= t.now
  {
    hide Sendable, Matched, Paused, Exhausted;
    assert FileOk(cfg, t, n);
  }

  /** A record past its window has ended where a tick reported no error. */
  lemma WindowEnds(t: Snap, at: Time, n: int, first: Time)
    requires Ages(t, n, first) && NoneExhausted(t, at) && first + WINDOW <= at
    ensures Ended(t, n)
  {
  }

  /**
   A day after a tick that found nothing to do, every record it found has ended at each tick without an error, and
   without a reset it stays so.
   */
  lemma DayLaterEnds(cfg: Config, s: Snap, log: seq<Step>, quiet: Turn, later: Turn, q: nat, n: int)
    requires Inv(cfg, s) && Legal(cfg, s, log) && IsTurn(cfg, s, log, quiet) && IsTurn(cfg, s, log, later)
    requires !quiet.worked && quiet.to <= later.from && n in After(cfg, s, log[..quiet.to]).state
    requires After(cfg, s, log[..quiet.to]).now + WINDOW <= later.at
    requires later.to <= q <= |log| && NoReset(log, quiet.to, q, n)
    ensures Ended(After(cfg, s, log[..later.to]), n) && Ended(After(cfg, s, log[..q]), n)
  {
    var t, u := After(cfg, s, log[..quiet.to]), After(cfg, s, log[..later.to]);
    hide Inv, Legal, After, Ages, Ended, Quiet, NoneExhausted, TotalSends, IsReset;
    CrashAnywhere(cfg, s, log, quiet.to, false);
    SendsAreFinite(cfg, s, log[..quiet.to]);
    QuietAges(cfg, t, quiet.at, n);
    AgesOn(cfg, s, log, quiet.to, later.to, n, FirstOf(t, n));
    WindowEnds(u, later.at, n, FirstOf(t, n));
    EndedOn(cfg, s, log, later.to, q, n);
  }

  /** An instant at least an hour past the last change of every live record. */
  ghost predicate Rested(s: Snap, at: Time) {
    forall n | LiveAt(s, n) :: s.state[n].record.updated + HOUR <= at
  }

  /** Where nothing changed for an hour, one tick is enough: it gives a round, or no record at all is live after it. */
  lemma RestedTurnEnds(cfg: Config, s: Snap, t: Snap, at: Time, worked: bool)
    requires Inv(cfg, s) && Inv(cfg, t) && CleanTick(s, t, at, worked) && Rested(s, at)
    ensures worked || forall n | n in t.state :: Ended(t, n)
  {
    hide Inv, Exhausted, Paused;
    if !worked { QuietEnds(cfg, t, at); }
  }

  // ---------- Some tick finds nothing to do ----------

  lemma {:induction false} PrefixSends(log: seq<Step>, k: nat)
    requires k <= |log|
    ensures TotalSends(log[..k]) <= TotalSends(log)
    decreases |log|
  {
    if k < |log| {
      assert log[..|log| - 1][..k] == log[..k];
      PrefixSends(log[..|log| - 1], k);
    } else {
      assert log[..k] == log;
    }
  }

  /** Of the first m ticks, those that gave a round. */
  function Works(ks: seq<Turn>, m: nat): nat
    requires m <= |ks|
  {
    if m == 0 then 0 else Works(ks, m - 1) + if ks[m - 1].worked then 1 else 0
  }

  lemma {:induction false} WorksSend(cfg: Config, s: Snap, log: seq<Step>, ks: seq<Turn>, m: nat)
    requires Turns(cfg, s, log, ks) && m <= |ks|
    ensures Works(ks, m) <= TotalSends(log)
    ensures m > 0 ==> Works(ks, m) <= TotalSends(log[..ks[m - 1].to])
  {
    hide CleanTick, TotalSends, After;
    if m > 0 {
      var k := ks[m - 1];
      WorksSend(cfg, s, log, ks, m - 1);
      if m > 1 {
        var e := ks[m - 2];
        assert IsTurn(cfg, s, log, e) && e.to <= k.from;
        assert log[..k.from][..e.to] == log[..e.to];
        PrefixSends(log[..k.from], e.to);
      }
      assert IsTurn(cfg, s, log, k);
      PrefixSends(log, k.to);
    }
  }

  lemma {:induction false} FirstQuiet(ks: seq<Turn>, m: nat) returns (i: nat)
    requires m <= |ks| && Works(ks, m) < m
    ensures i < m && !ks[i].worked && Works(ks, i) == i
  {
    if Works(ks, m - 1) < m - 1 { i := FirstQuiet(ks, m - 1); } else { WorksAtMost(ks, m - 1); i := m - 1; }
  }

  lemma {:induction false} WorksAtMost(ks: seq<Turn>, m: nat)
    requires m <= |ks|
    ensures Works(ks, m) <= m
  {
    if m > 0 { WorksAtMost(ks, m - 1); }
  }

  /** The rounds that a run from s can still give, whatever happens in it. */
  ghost function Rounds(cfg: Config, s: Snap, log: seq<Step>): int {
    Potential(s) + MAX_ROUNDS * (|Builds(After(cfg, s, log))| - |Builds(s)|) + MAX_ROUNDS * TotalResets(log)
  }

  lemma WorksAreBounded(cfg: Config, s: Snap, log: seq<Step>, ks: seq<Turn>, m: nat)
    requires Inv(cfg, s) && Legal(cfg, s, log) && Turns(cfg, s, log, ks) && m <= |ks|
    ensures Works(ks, m) <= Rounds(cfg, s, log)
  {
    hide Inv, Legal, Turns, TotalSends, TotalResets, After, Potential, Builds;
    SendsAreFinite(cfg, s, log);
    WorksSend(cfg, s, log, ks, m);
  }

  ghost predicate ADayLater(cfg: Config, s: Snap, log: seq<Step>, quiet: Turn, later: Turn)
    requires quiet.to <= |log|
  {
    After(cfg, s, log[..quiet.to]).now + WINDOW <= later.at
  }

  /**
   Every record ends. Among more ticks without an error than there are rounds to give - those left at the start,
   and twelve for each reset and each build published for the first time - whatever their spacing and with crashes
   and any other steps between them, one finds nothing to do. Every tick without an error a day after it leaves
   each record it found delivered, compacted or blocked, and without a reset they stay so.
   */
  lemma EveryRecordEnds(cfg: Config, s: Snap, log: seq<Step>, ks: seq<Turn>) returns (i: nat)
    requires Inv(cfg, s) && Legal(cfg, s, log) && Turns(cfg, s, log, ks) && |ks| > Rounds(cfg, s, log)
    ensures i < |ks| && IsTurn(cfg, s, log, ks[i]) && !ks[i].worked
    ensures forall j, q, n | i < j < |ks| && ADayLater(cfg, s, log, ks[i], ks[j]) && ks[i].to <= ks[j].to <= q <= |log|
                             && n in After(cfg, s, log[..ks[i].to]).state && NoReset(log, ks[i].to, q, n) ::
              Ended(After(cfg, s, log[..q]), n)
  {
    hide Inv, Legal, IsTurn, After, Rounds, ADayLater, NoReset, Ended;
    WorksAreBounded(cfg, s, log, ks, |ks|);
    i := FirstQuiet(ks, |ks|);
    assert IsTurn(cfg, s, log, ks[i]);
    TurnWithin(cfg, s, log, ks[i]);
    forall j, q, n | i < j < |ks| && ADayLater(cfg, s, log, ks[i], ks[j]) && ks[i].to <= ks[j].to <= q <= |log|
                     && n in After(cfg, s, log[..ks[i].to]).state && NoReset(log, ks[i].to, q, n)
      ensures Ended(After(cfg, s, log[..q]), n)
    {
      LaterEnds(cfg, s, log, ks[i], ks[j], q, n);
    }
  }

  lemma TurnWithin(cfg: Config, s: Snap, log: seq<Step>, k: Turn)
    requires IsTurn(cfg, s, log, k)
    ensures k.to <= |log|
  {
  }

  lemma LaterEnds(cfg: Config, s: Snap, log: seq<Step>, quiet: Turn, later: Turn, q: nat, n: int)
    requires Inv(cfg, s) && Legal(cfg, s, log) && IsTurn(cfg, s, log, quiet) && IsTurn(cfg, s, log, later)
    requires !quiet.worked && quiet.to <= later.from && quiet.to <= |log| && ADayLater(cfg, s, log, quiet, later)
    requires later.to <= q <= |log| && quiet.to <= q && NoReset(log, quiet.to, q, n) && n in After(cfg, s, log[..quiet.to]).state
    ensures Ended(After(cfg, s, log[..q]), n)
  {
    hide Inv, Legal, IsTurn, After, NoReset, Ended;
    DayLaterEnds(cfg, s, log, quiet, later, q, n);
  }

  // ---------- How long the worker's loop takes ----------

  const PAUSE: Time := 5 * SECOND
  const TURNS_A_DAY := 17280

  /** The earliest instant at which the tick after k may read the clock. */
  ghost function DueAfter(cfg: Config, s: Snap, log: seq<Step>, k: Turn): Time
    requires k.to <= |log|
  {
    After(cfg, s, log[..k.to]).now + if k.worked then 0 else PAUSE
  }

  /** The ticks of the worker's loop: after one that found nothing to do it waits five seconds. */
  ghost predicate Paced(cfg: Config, s: Snap, log: seq<Step>, ks: seq<Turn>) {
    && (forall i | 0 <= i < |ks| :: ks[i].to <= |log|)
    && forall i | 0 <= i < |ks| - 1 :: DueAfter(cfg, s, log, ks[i]) <= ks[i + 1].at
  }

  /** From a tick that found nothing to do, the clock shows five seconds more for each such tick. */
  lemma {:induction false} PausesAddUp(cfg: Config, s: Snap, log: seq<Step>, ks: seq<Turn>, i: nat, m: nat)
    requires Turns(cfg, s, log, ks) && Paced(cfg, s, log, ks) && i < m < |ks| && !ks[i].worked
    ensures After(cfg, s, log[..ks[i].to]).now + PAUSE * ((m - Works(ks, m)) - (i - Works(ks, i))) <= ks[m].at
    decreases m
  {
    hide After, TotalSends, Quiet, NoneExhausted, IsTurn, DueAfter;
    assert Works(ks, i + 1) == Works(ks, i);
    if i + 1 < m {
      PausesAddUp(cfg, s, log, ks, i, m - 1);
      TurnTime(cfg, s, log, ks[m - 1]);
      DueOfTurn(cfg, s, log, ks[m - 1]);
    } else {
      DueOfTurn(cfg, s, log, ks[i]);
    }
  }

  lemma TurnTime(cfg: Config, s: Snap, log: seq<Step>, k: Turn)
    requires IsTurn(cfg, s, log, k)
    ensures k.to <= |log| && k.at <= After(cfg, s, log[..k.to]).now
  {
    hide After;
  }

  lemma DueOfTurn(cfg: Config, s: Snap, log: seq<Step>, k: Turn)
    requires k.to <= |log|
    ensures DueAfter(cfg, s, log, k) == After(cfg, s, log[..k.to]).now + if k.worked then 0 else PAUSE
  {
  }

  /**
   The same for the worker's own loop, without a word about time: a day more of turns than there are rounds to
   give, and the last one leaves every record that an earlier one found delivered, compacted or blocked.
   */
  lemma LoopEnds(cfg: Config, s: Snap, log: seq<Step>, ks: seq<Turn>) returns (i: nat)
    requires Inv(cfg, s) && Legal(cfg, s, log) && Turns(cfg, s, log, ks) && Paced(cfg, s, log, ks)
    requires |ks| > Rounds(cfg, s, log) + TURNS_A_DAY
    ensures i < |ks| - 1 && IsTurn(cfg, s, log, ks[i]) && !ks[i].worked && ks[i].to <= ks[|ks| - 1].to <= |log|
    ensures forall q, n | ks[|ks| - 1].to <= q <= |log| && n in After(cfg, s, log[..ks[i].to]).state && NoReset(log, ks[i].to, q, n) ::
              Ended(After(cfg, s, log[..q]), n)
  {
    hide Inv, Legal, After, Rounds, NoReset, Ended, CleanTick, TotalSends;
    RoundsAreNatural(cfg, s, log);
    var m := |ks| - 1;
    WorksAreBounded(cfg, s, log, ks, m);
    i := FirstQuiet(ks, m);
    PausesAddUp(cfg, s, log, ks, i, m);
    assert PAUSE * TURNS_A_DAY == WINDOW;
    DayOfPauses(m - Works(ks, m));
    assert ADayLater(cfg, s, log, ks[i], ks[m]);
    assert IsTurn(cfg, s, log, ks[i]) && IsTurn(cfg, s, log, ks[m]);
    forall q, n | ks[m].to <= q <= |log| && n in After(cfg, s, log[..ks[i].to]).state && NoReset(log, ks[i].to, q, n)
      ensures Ended(After(cfg, s, log[..q]), n)
    {
      LaterEnds(cfg, s, log, ks[i], ks[m], q, n);
    }
  }

  /** With a fixed set of builds and no reset, the rounds to give are those left at the start. */
  lemma FixedBuildsEnd(cfg: Config, s: Snap, log: seq<Step>, ks: seq<Turn>) returns (i: nat)
    requires Inv(cfg, s) && Legal(cfg, s, log) && Turns(cfg, s, log, ks) && Paced(cfg, s, log, ks)
    requires |ks| > Potential(s) + TURNS_A_DAY && TotalResets(log) == 0
    requires forall j | 0 <= j < |log| && log[j].Publish? :: log[j].input.Keys <= Builds(s)
    ensures i < |ks| && ks[i].to <= |log|
    ensures forall n | n in After(cfg, s, log[..ks[i].to]).state :: Ended(After(cfg, s, log), n)
  {
    hide Inv, Legal, After, Ended, CleanTick, TotalSends, TotalResets, Builds, Potential, NoReset;
    BuildsAreFixed(cfg, s, log);
    i := LoopEnds(cfg, s, log, ks);
    forall n | n in After(cfg, s, log[..ks[i].to]).state ensures Ended(After(cfg, s, log), n) {
      NoResetsAtAll(log, ks[i].to, n);
      assert log[..|log|] == log;
    }
  }

  lemma {:induction false} NoResetsAtAll(log: seq<Step>, p: nat, n: int)
    requires TotalResets(log) == 0 && p <= |log|
    ensures NoReset(log, p, |log|, n)
  {
    if p < |log| {
      var front := log[..|log| - 1];
      NoResetsAtAll(front, p, n);
      forall i | p <= i < |log| ensures !IsReset(log[i], n) {
        if i < |front| { assert front[i] == log[i]; }
      }
    }
  }

  lemma DayOfPauses(pauses: int)
    requires pauses >= TURNS_A_DAY
    ensures PAUSE * pauses >= WINDOW
  {
  }

  lemma RoundsAreNatural(cfg: Config, s: Snap, log: seq<Step>)
    requires Inv(cfg, s) && Legal(cfg, s, log)
    ensures Rounds(cfg, s, log) >= 0
  {
    hide Inv, Legal, TotalSends, TotalResets, After, Builds, Potential;
    SendsAreFinite(cfg, s, log);
  }

  // ---------- The worker's loop ----------

  lemma TurnsExtend(cfg: Config, s: Snap, log: seq<Step>, more: seq<Step>, ks: seq<Turn>)
    requires Turns(cfg, s, log, ks) && log <= more
    ensures Turns(cfg, s, more, ks)
  {
    hide CleanTick, TotalSends, After;
    forall i | 0 <= i < |ks| ensures IsTurn(cfg, s, more, ks[i]) {
      assert IsTurn(cfg, s, log, ks[i]);
      assert more[..ks[i].from] == log[..ks[i].from] && more[..ks[i].to] == log[..ks[i].to];
    }
  }

  lemma OneMoreTurn(cfg: Config, s: Snap, log: seq<Step>, ks: seq<Turn>, k: Turn)
    requires Turns(cfg, s, log, ks) && IsTurn(cfg, s, log, k) && forall i | 0 <= i < |ks| :: ks[i].to <= k.from
    ensures Turns(cfg, s, log, ks + [k])
  {
    hide IsTurn;
  }

  /** What the loop knows of its turns so far, with the earliest instant of the next one. */
  ghost predicate Served(cfg: Config, s: Snap, log: seq<Step>, ks: seq<Turn>, due: Time) {
    && Turns(cfg, s, log, ks) && Paced(cfg, s, log, ks)
    && (forall i | 0 <= i < |ks| :: ks[i].to <= |log|)
    && (ks != [] ==> due == DueAfter(cfg, s, log, ks[|ks| - 1]))
  }

  lemma ServedExtend(cfg: Config, s: Snap, log: seq<Step>, more: seq<Step>, ks: seq<Turn>, due: Time)
    requires Served(cfg, s, log, ks, due) && log <= more
    ensures Served(cfg, s, more, ks, due)
  {
    hide Turns, Paced, DueAfter;
    TurnsExtend(cfg, s, log, more, ks);
    PacedExtend(cfg, s, log, more, ks);
  }

  lemma ServedOneMore(cfg: Config, s: Snap, log: seq<Step>, ks: seq<Turn>, due: Time, k: Turn)
    requires Served(cfg, s, log, ks, due) && IsTurn(cfg, s, log, k) && k.to <= |log| && due <= k.at
    requires forall i | 0 <= i < |ks| :: ks[i].to <= k.from
    ensures Served(cfg, s, log, ks + [k], DueAfter(cfg, s, log, k))
  {
    hide Turns, Paced, DueAfter, IsTurn;
    OneMoreTurn(cfg, s, log, ks, k);
    OneMorePaced(cfg, s, log, ks, k, due);
  }

  /** One turn of the loop: tick, report, and wait five seconds if there was nothing to do. */
  method OneTurn(s: Spool, configured: bool) returns (err: Option<SpoolError>, ghost k: Turn)
    requires s.Valid() && s.Ready()
    modifies s`failed, s`slots, s.world, s.world.store
    ensures s.Valid() && s.Ready() && old(s.world.log) <= s.world.log
    ensures TotalResets(s.world.log) <= TotalResets(old(s.world.log))
    ensures err.None? ==> |old(s.world.log)| <= k.from && k.to <= |s.world.log| && old(s.world.now) <= k.at
    ensures err.None? ==> IsTurn(s.world.cfg, s.world.start, s.world.log, k)
    ensures err.None? ==> DueAfter(s.world.cfg, s.world.start, s.world.log, k) <= s.world.now
  {
    hide World.Sound, CleanTick, TotalSends, TotalResets, After, IsTurn, DueAfter, Quiet, NoneExhausted, TickFrame, NoResets,
         FirstInLine, RoundStored, AllInStep, Tallies, InStep, ItemOf, Paused, World.TotalBytes, World.Slots, Spool.Excused;
    var world := s.world;
    world.Interfere(s.failed);
    ghost var log, before := world.log, s.View();
    LogOfView(s);
    var canceled: bool := *;
    var worked, tickErr, round := s.Tick(configured, canceled);
    k := Turn(|log|, |world.log|, round.at, worked);
    if tickErr.Some? && tickErr != Some(PausedError) {
      return tickErr, k;
    }
    ghost var ticked, after := world.log, s.View();
    LogOfView(s);
    var report, e := s.Status(0);
    if e.Some? {
      return e, k;
    }
    if tickErr.Some? {
      return tickErr, k;
    }
    TickTime(before, after, round.at, worked);
    if !worked {
      var stopped: bool := *;
      if stopped {
        return Some(Canceled), k;
      }
      world.Wait(PAUSE, s.failed);
    }
    TurnAt(world.cfg, world.start, log, ticked, world.log, before, after, k);
    return None, k;
  }

  /**
   The loop of the run command, for a given number of turns. It goes on only while nothing reports an error. Its
   turns meet the premises of the theorems above.
   */
  method Serve(s: Spool, configured: bool, turns: nat) returns (err: Option<SpoolError>, ghost ks: seq<Turn>)
    requires s.Valid() && s.Ready()
    modifies s`failed, s`slots, s.world, s.world.store
    ensures s.Valid() && s.Ready() && old(s.world.log) <= s.world.log
    ensures Turns(s.world.cfg, s.world.start, s.world.log, ks) && forall i | 0 <= i < |ks| :: |old(s.world.log)| <= ks[i].from
    ensures err.None? ==> |ks| == turns
    ensures Paced(s.world.cfg, s.world.start, s.world.log, ks)
    ensures TotalResets(s.world.log) <= TotalResets(old(s.world.log))
  {
    hide World.Sound, TotalResets, After, Turns, Paced, IsTurn, DueAfter;
    var world := s.world;
    ks, err := [], None;
    NoTurns(world.cfg, world.start, world.log);
    ghost var due := world.now;
    var i := 0;
    while i < turns
      invariant 0 <= i <= turns && s.Valid() && s.Ready() && err.None? && |ks| == i
      invariant old(world.log) <= world.log && TotalResets(world.log) <= TotalResets(old(world.log))
      invariant Served(world.cfg, world.start, world.log, ks, due) && due <= world.now
      invariant forall j | 0 <= j < |ks| :: |old(world.log)| <= ks[j].from
    {
      ghost var last := world.log;
      ghost var k;
      err, k := OneTurn(s, configured);
      ServedExtend(world.cfg, world.start, last, world.log, ks, due);
      if err.Some? {
        return;
      }
      ServedOneMore(world.cfg, world.start, world.log, ks, due, k);
      ks, due := ks + [k], DueAfter(world.cfg, world.start, world.log, k);
      i := i + 1;
    }
  }

  lemma NoTurns(cfg: Config, s: Snap, log: seq<Step>)
    ensures Turns(cfg, s, log, []) && Paced(cfg, s, log, [])
  {
  }

  lemma PacedExtend(cfg: Config, s: Snap, log: seq<Step>, more: seq<Step>, ks: seq<Turn>)
    requires Paced(cfg, s, log, ks) && log <= more
    ensures Paced(cfg, s, more, ks)
    ensures ks != [] ==> DueAfter(cfg, s, more, ks[|ks| - 1]) == DueAfter(cfg, s, log, ks[|ks| - 1])
  {
    hide After;
    forall i | 0 <= i < |ks| ensures ks[i].to <= |more| && DueAfter(cfg, s, more, ks[i]) == DueAfter(cfg, s, log, ks[i]) {
      assert more[..ks[i].to] == log[..ks[i].to];
    }
  }

  lemma OneMorePaced(cfg: Config, s: Snap, log: seq<Step>, ks: seq<Turn>, k: Turn, due: Time)
    requires Paced(cfg, s, log, ks) && k.to <= |log| && due <= k.at
    requires ks != [] ==> due == DueAfter(cfg, s, log, ks[|ks| - 1])
    ensures Paced(cfg, s, log, ks + [k])
  {
    hide DueAfter;
  }

  /** What the loop has shown after enough turns, on a spool that started empty: an earlier tick's records have ended. */
  lemma ServedEnds(s: Spool, ks: seq<Turn>) returns (i: nat)
    requires s.Valid() && Turns(s.world.cfg, s.world.start, s.world.log, ks) && Paced(s.world.cfg, s.world.start, s.world.log, ks)
    requires |ks| > MAX_ROUNDS * (|Builds(s.View())| + TotalResets(s.world.log)) + TURNS_A_DAY
    ensures i < |ks| && !ks[i].worked && ks[i].to <= |s.world.log|
    ensures forall n | n in After(s.world.cfg, s.world.start, s.world.log[..ks[i].to]).state
                       && NoReset(s.world.log, ks[i].to, |s.world.log|, n) :: Ended(s.View(), n)
  {
    hide Turns, Paced, Ended, NoReset, CleanTick;
    var cfg, start, log := s.world.cfg, s.world.start, s.world.log;
    LogOfView(s);
    FreshStart(s);
    i := LoopEnds(cfg, start, log, ks);
    assert log[..|log|] == log;
  }

  lemma FreshStart(s: Spool)
    requires s.Valid()
    ensures Inv(s.world.cfg, s.world.start) && Legal(s.world.cfg, s.world.start, s.world.log)
    ensures Rounds(s.world.cfg, s.world.start, s.world.log) == MAX_ROUNDS * (|Builds(s.View())| + TotalResets(s.world.log))
  {
    LogOfView(s);
    var start := s.world.start;
    hide Legal, Inv, After, TotalResets;
    RunKeepsInv(s.world.cfg, start, []);
    EmptyRun(s.world.cfg, start);
    assert Credits(start) == map[] && Builds(start) == {} && Waiting(start) == {};
  }

  lemma LogOfView(s: Spool)
    requires s.Valid()
    ensures After(s.world.cfg, s.world.start, s.world.log) == s.View()
  {
    hide Legal, After, Initial;
  }

  lemma TickTime(s: Snap, t: Snap, at: Time, worked: bool)
    requires CleanTick(s, t, at, worked)
    ensures s.now <= at <= t.now
  {
  }

  lemma TurnAt(cfg: Config, s: Snap, before: seq<Step>, after: seq<Step>, log: seq<Step>, from: Snap, to: Snap, k: Turn)
    requires before <= after <= log && k.from == |before| && k.to == |after|
    requires from == After(cfg, s, before) && to == After(cfg, s, after)
    requires Continues(before, after, if k.worked then 1 else 0, 0) && CleanTick(from, to, k.at, k.worked)
    ensures IsTurn(cfg, s, log, k) && DueAfter(cfg, s, log, k) == to.now + if k.worked then 0 else PAUSE
  {
    hide CleanTick, TotalSends, TotalResets, After;
    assert log[..k.from] == before && log[..k.to] == after;
  }
}
