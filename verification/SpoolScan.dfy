/** What a tick knows while it scans the records, and what it may do with the one it chose. */
module SpoolScan {
  import opened Text
  import opened Payload
  import opened DeliveryError
  import opened SpoolRecords
  import opened SpoolLaws
  import opened SpoolProtocol
  import opened Receiver
  import opened SpoolWorld

  predicate PausedAt(s: Snap, n: int) {
    n in s.state && s.state[n].Full? && s.state[n].record.status.Blocked? && s.state[n].record.disposition.Pause?
  }

  /** A live record the scan has passed: within its budget, and not better than the chosen one if it is due. */
  predicate Settled(s: Snap, m: int, at: Time, chosen: Option<Record>) {
    LiveAt(s, m) ==>
      var r := s.state[m].record;
      && !Exhausted(r, at) && r.updated <= at
      && (r.next <= at ==> chosen.Some? && (chosen.value.next < r.next || (chosen.value.next == r.next && chosen.value.number <= m)))
  }

  predicate Choice(s: Snap, r: Record, at: Time) {
    && r.number in s.state && s.state[r.number] == Full(r) && Live(r)
    && !Exhausted(r, at) && r.next <= at && r.updated <= at
  }

  /** What the scan knows after its first `i` records. */
  ghost predicate Scanned(s: Snap, numbers: seq<int>, i: nat, at: Time, chosen: Option<Record>, paused: bool)
    requires i <= |numbers|
  {
    && (forall j | 0 <= j < i && DoneAt(s, numbers[j]) :: numbers[j] in s.acks)
    && (forall j | 0 <= j < i :: Settled(s, numbers[j], at, chosen))
    && (paused <==> exists j :: 0 <= j < i && PausedAt(s, numbers[j]))
    && (chosen.Some? ==> Choice(s, chosen.value, at) && chosen.value.number in numbers[..i])
  }

  /** What a tick does to a record that gets no round: nothing, or it blocks an exhausted one at the tick's instant. */
  predicate KeptOrExhausted(before: map<int, StateFile>, after: map<int, StateFile>, n: int, at: Time)
    requires n in before
  {
    && n in after
    && (after[n] == before[n]
        || (before[n].Full? && after[n].Full? && Exhausts(before[n].record, after[n].record, at)))
  }

  ghost predicate ScanFrame(before: map<int, StateFile>, after: map<int, StateFile>, at: Time) {
    after.Keys == before.Keys && forall n | n in before :: KeptOrExhausted(before, after, n, at)
  }

  lemma Untouched(state: map<int, StateFile>, n: int, at: Time)
    requires n in state
    ensures KeptOrExhausted(state, state, n, at)
  {
  }

  lemma NothingFramed(state: map<int, StateFile>, at: Time)
    ensures ScanFrame(state, state, at)
  {
  }

  /** The scan of one more record leaves every other one as it found it. */
  lemma FrameOneMore(before: map<int, StateFile>, mid: map<int, StateFile>, after: map<int, StateFile>, m: int, at: Time)
    requires ScanFrame(before, mid, at) && m in before && mid[m] == before[m]
    requires after.Keys == mid.Keys && KeptOrExhausted(mid, after, m, at)
    requires forall n | n != m && n in after :: after[n] == mid[n]
    ensures ScanFrame(before, after, at)
  {
    hide Exhausts;
  }

  lemma ReservedFirst(s: Snap, numbers: seq<int>, at: Time, r: Record)
    requires Scanned(s, numbers, |numbers|, at, Some(r), false)
    ensures Live(r) && r.updated <= at
  {
    hide Exhausted;
  }

  lemma NothingDue(s: Snap, numbers: seq<int>, at: Time)
    requires Scanned(s, numbers, |numbers|, at, None, false) && Listing(numbers, s.state.Keys)
    ensures Quiet(s, at)
  {
    hide Exhausted;
    forall m | m in s.state ensures (DoneAt(s, m) ==> m in s.acks) && Settled(s, m, at, None) && !PausedAt(s, m) {
      ScannedOne(s, numbers, at, None, false, m);
    }
  }

  /** Nothing for a tick to do at the instant `at`. */
  ghost predicate Quiet(s: Snap, at: Time) {
    && !Paused(s)
    && (forall n | DoneAt(s, n) :: n in s.acks)
    && (forall n | LiveAt(s, n) ::
          !Exhausted(s.state[n].record, at) && s.state[n].record.updated <= at && s.state[n].record.next > at)
  }

  /**
   Where a tick found nothing to do at an instant an hour past each live record's last change, no record is
   live: a live one would be due.
   */
  lemma QuietEnds(cfg: Config, s: Snap, at: Time)
    requires Inv(cfg, s) && Quiet(s, at)
    requires forall n | LiveAt(s, n) :: s.state[n].record.updated + HOUR <= at
    ensures forall n | n in s.state :: DoneAt(s, n) || s.state[n].record.status.Blocked?
  {
    hide Exhausted, Sendable, Matched, Paused;
    forall n | n in s.state ensures DoneAt(s, n) || s.state[n].record.status.Blocked? {
      assert FileOk(cfg, s, n);
    }
  }

  lemma NothingScanned(s: Snap, numbers: seq<int>, at: Time)
    ensures Scanned(s, numbers, 0, at, None, false)
  {
  }

  /** After an unpaused scan of every record, the chosen one is first in line. */
  lemma ChoiceIsFirst(cfg: Config, s: Snap, numbers: seq<int>, at: Time, r: Record)
    requires Inv(cfg, s) && s.phase.Idle? && at <= s.now
    requires Scanned(s, numbers, |numbers|, at, Some(r), false) && Listing(numbers, s.state.Keys)
    ensures var w := Reserve(r.number, at);
      MayWrite(cfg, s, w) && Writable(s, w) && Written(cfg, s, w) == Full(ReservedRecord(r, at))
    ensures InRange(cfg, r.number) && LiveAt(s, r.number) && FirstDue(s, r.number, at) && s.state[r.number] == Full(r)
    ensures r.next <= at && !Exhausted(r, at) && 0 <= r.number && 0 <= r.rounds && (r.first.None? <==> r.rounds == 0)
  {
    hide Exhausted, Sendable, Matched;
    assert FileOk(cfg, s, r.number);
    forall m | m in s.state
      ensures (DoneAt(s, m) ==> m in s.acks) && Settled(s, m, at, Some(r)) && !PausedAt(s, m) {
      ScannedOne(s, numbers, at, Some(r), false, m);
    }
  }

  lemma ScannedOne(s: Snap, numbers: seq<int>, at: Time, chosen: Option<Record>, paused: bool, m: int)
    requires Scanned(s, numbers, |numbers|, at, chosen, paused) && Listing(numbers, s.state.Keys) && m in s.state
    ensures (DoneAt(s, m) ==> m in s.acks) && Settled(s, m, at, chosen) && (!paused ==> !PausedAt(s, m))
  {
    hide Exhausted, Settled, PausedAt;
    assert m in numbers;
    var j :| 0 <= j < |numbers| && numbers[j] == m;
  }

  lemma ExhaustAllowed(cfg: Config, s: Snap, n: int, at: Time)
    requires s.phase.Idle? && LiveAt(s, n) && Exhausted(s.state[n].record, at) && s.state[n].record.updated <= at <= s.now
    ensures MayWrite(cfg, s, Exhaust(n, at)) && Writable(s, Exhaust(n, at))
    ensures Written(cfg, s, Exhaust(n, at)) == Full(ExhaustedRecord(s.state[n].record, at))
  {
  }

  /** Knowledge about the records passed so far outlives a change of any other record and of the acknowledgements. */
  lemma ScanKept(s: Snap, t: Snap, numbers: seq<int>, i: nat, at: Time, chosen: Option<Record>, paused: bool)
    requires i < |numbers| && Ascending(numbers) && Scanned(s, numbers, i, at, chosen, paused)
    requires forall m | m != numbers[i] :: m in t.state <==> m in s.state
    requires forall m | m != numbers[i] && m in s.state :: t.state[m] == s.state[m]
    requires forall m | m in s.acks :: m in t.acks
    ensures Scanned(t, numbers, i, at, chosen, paused)
    ensures chosen.Some? ==> chosen.value.number < numbers[i]
  {
    hide Exhausted;
    if chosen.Some? {
      var k :| 0 <= k < i && numbers[..i][k] == chosen.value.number;
      assert numbers[k] < numbers[i];
    }
    forall j | 0 <= j < i ensures Settled(t, numbers[j], at, chosen) && PausedAt(t, numbers[j]) == PausedAt(s, numbers[j])
                                  && DoneAt(t, numbers[j]) == DoneAt(s, numbers[j]) {
      assert numbers[j] < numbers[i];
      assert Settled(s, numbers[j], at, chosen);
    }
  }

  /** Passing one more record that does not change the choice. */
  lemma ScanOneMore(t: Snap, numbers: seq<int>, i: nat, at: Time, chosen: Option<Record>, paused: bool)
    requires i < |numbers| && Scanned(t, numbers, i, at, chosen, paused)
    requires DoneAt(t, numbers[i]) ==> numbers[i] in t.acks
    requires Settled(t, numbers[i], at, chosen)
    ensures Scanned(t, numbers, i + 1, at, chosen, paused || PausedAt(t, numbers[i]))
  {
    hide Exhausted, Settled, PausedAt, Choice;
    assert numbers[..i + 1] == numbers[..i] + [numbers[i]];
  }

  lemma ScanFinished(s: Snap, t: Snap, numbers: seq<int>, i: nat, at: Time, chosen: Option<Record>, paused: bool)
    requires i < |numbers| && Ascending(numbers) && Scanned(s, numbers, i, at, chosen, paused)
    requires t.state == s.state && DoneAt(s, numbers[i]) && numbers[i] in t.acks && forall m | m in s.acks :: m in t.acks
    ensures Scanned(t, numbers, i + 1, at, chosen, paused)
  {
    hide Scanned, Exhausted;
    ScanKept(s, t, numbers, i, at, chosen, paused);
    ScanOneMore(t, numbers, i, at, chosen, paused);
  }

  lemma ScanBlocked(s: Snap, t: Snap, numbers: seq<int>, i: nat, at: Time, chosen: Option<Record>, paused: bool)
    requires i < |numbers| && Ascending(numbers) && Scanned(s, numbers, i, at, chosen, paused)
    requires t.state == s.state && t.acks == s.acks && numbers[i] in s.state && s.state[numbers[i]].Full?
    requires s.state[numbers[i]].record.status.Blocked?
    ensures Scanned(t, numbers, i + 1, at, chosen, paused || s.state[numbers[i]].record.disposition.Pause?)
  {
    hide Exhausted;
    ScanKept(s, t, numbers, i, at, chosen, paused);
    ScanOneMore(t, numbers, i, at, chosen, paused);
  }

  lemma ScanExhausted(cfg: Config, s: Snap, full: Snap, t: Snap, numbers: seq<int>, i: nat, at: Time, chosen: Option<Record>, paused: bool)
    requires i < |numbers| && Ascending(numbers) && Scanned(s, numbers, i, at, chosen, paused)
    requires full == s.(now := full.now) && LiveAt(full, numbers[i])
    requires t == Renamed(cfg, full, Exhaust(numbers[i], at)).(phase := full.phase, now := t.now)
    ensures Scanned(t, numbers, i + 1, at, chosen, paused)
  {
    hide Scanned, Exhausted;
    ScanKept(s, t, numbers, i, at, chosen, paused);
    ScanOneMore(t, numbers, i, at, chosen, paused);
  }

  lemma BetterChoice(t: Snap, numbers: seq<int>, i: nat, at: Time, chosen: Option<Record>, r: Record, paused: bool)
    requires i < |numbers| && Scanned(t, numbers, i, at, chosen, paused)
    requires Choice(t, r, at) && r.number == numbers[i] && (chosen.None? || r.next < chosen.value.next)
    ensures Scanned(t, numbers, i + 1, at, Some(r), paused)
  {
    hide Exhausted;
    assert numbers[..i + 1] == numbers[..i] + [numbers[i]];
    forall j | 0 <= j < i + 1 ensures Settled(t, numbers[j], at, Some(r)) {
      if j < i { assert Settled(t, numbers[j], at, chosen); }
    }
  }

  lemma ScanLive(s: Snap, t: Snap, numbers: seq<int>, i: nat, at: Time, chosen: Option<Record>, paused: bool)
    requires i < |numbers| && Ascending(numbers) && Scanned(s, numbers, i, at, chosen, paused)
    requires t.state == s.state && t.acks == s.acks && LiveAt(s, numbers[i])
    requires var r := s.state[numbers[i]].record; r.number == numbers[i] && r.updated <= at && !Exhausted(r, at)
    ensures var r := s.state[numbers[i]].record;
      Scanned(t, numbers, i + 1, at, if r.next <= at && (chosen.None? || r.next < chosen.value.next) then Some(r) else chosen, paused)
  {
    hide Exhausted;
    ScanKept(s, t, numbers, i, at, chosen, paused);
    var r := s.state[numbers[i]].record;
    if r.next <= at && (chosen.None? || r.next < chosen.value.next) {
      BetterChoice(t, numbers, i, at, chosen, r, paused);
    } else {
      ScanOneMore(t, numbers, i, at, chosen, paused);
    }
  }

  lemma PauseIsTimeless(s: Snap, t: Snap)
    requires t == s.(now := t.now)
    ensures Paused(s) == Paused(t)
  {
  }

  /** A round as it went: the state in which it was granted, the record, the answer and the instant after it. */
  datatype Round = Round(at: Time, line: Snap, record: Record, answer: SendResult, ended: Time)

  const NO_RECORD := Record(0, "", 0, [], "", Pending, NoCode, NoDisposition, 0, 0, None, 0, 0, 0, None, "", [])

  function EmptyRound(s: Snap, at: Time): Round {
    Round(at, s, NO_RECORD, SendFailed(ErrDelivery), at)
  }

  /** The round went to a live, due record that no other due record preceded, in a source without a pause. */
  ghost predicate FirstInLine(d: Round) {
    var n := d.record.number;
    && n in d.line.state && d.line.state[n] == Full(d.record) && Live(d.record)
    && d.record.next <= d.at && !Exhausted(d.record, d.at) && d.record.rounds >= 0 && FirstDue(d.line, n, d.at)
    && InFront(d)
  }

  /** The same in plain words: live and within its budget, before every due live record, and no record pauses. */
  ghost predicate InFront(d: Round) {
    && IsLive(d.record) && !PastBudget(d.record, d.at) && d.record.next <= d.at
    && forall m | m in d.line.state && d.line.state[m].Full? ::
         var r := d.line.state[m].record;
         && !(r.status == Blocked && r.disposition == Disposition.Pause)
         && (IsLive(r) && r.next <= d.at ==> d.record.next < r.next || (d.record.next == r.next && d.record.number <= m))
  }

  lemma FirstIsInFront(d: Round)
    requires d.record.number in d.line.state && d.line.state[d.record.number] == Full(d.record) && Live(d.record)
    requires d.record.next <= d.at && !Exhausted(d.record, d.at) && FirstDue(d.line, d.record.number, d.at)
    ensures InFront(d)
  {
    forall m | m in d.line.state && d.line.state[m].Full? && IsLive(d.line.state[m].record) ensures LiveAt(d.line, m) { }
  }

  /** Unless a write failed, the outcome is on disk, and a delivery that reported no error is acknowledged. */
  ghost predicate RoundStored(cfg: Config, d: Round, s: Snap, err: Option<SpoolError>)
    requires d.record.rounds >= 0
  {
    var n := d.record.number;
    && (s.failed || (n in s.state && d.at <= d.ended <= s.now && s.state[n].Full?
                     && GivesRound(d.record, d.answer, s.state[n].record, d.ended)))
    && (err.None? ==> !s.failed && (DoneAt(s, n) ==> n in s.acks))
  }

  lemma ConcludeAllowed(cfg: Config, s: Snap, n: int, at: Time)
    requires s.phase.Answered? && s.phase.build == n && n in s.state && s.state[n].Full? && Live(s.state[n].record)
    requires s.state[n].record.rounds >= 1 && s.state[n].record.first.Some? && s.state[n].record.updated <= at <= s.now
    ensures var w := Write.Conclude(n, at);
      MayWrite(cfg, s, w) && Writable(s, w) && Written(cfg, s, w) == Full(OutcomeRecord(cfg, s.state[n].record, s.phase.result, at))
  {
    hide OutcomeRecord;
  }

  lemma OutcomeNumber(cfg: Config, r: Record, result: SendResult, at: Time)
    requires r.rounds >= 1 && r.first.Some?
    ensures OutcomeRecord(cfg, r, result, at).number == r.number
    ensures r.disposition.NoDisposition? && OutcomeRecord(cfg, r, result, at).disposition.Pause? ==>
              OutcomeRecord(cfg, r, result, at).status.Blocked?
  {
    hide Delay;
  }
}
