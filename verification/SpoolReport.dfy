/** What the survey of `Status` and the cleanup plan know, and when a delivered record may become a tombstone. */
module SpoolReport {
  import opened Text
  import opened Payload
  import opened DeliveryError
  import opened SpoolRecords
  import opened SpoolLaws
  import opened SpoolProtocol
  import opened SpoolRuns
  import opened SpoolWorld
  import opened SpoolImport
  import Collector

  /** The accumulations of `Status` over the records. */
  datatype Survey = Survey(
    paused: bool, candidates: set<int>, counts: map<string, nat>, oldestPending: Option<Time>, lastDelivered: Option<Time>)

  /** One record as `Status` shows it. */
  datatype Item = Item(
    number: int, state: string, reason: Code, rounds: int, resets: nat, next: Time, ciRunId: string, httpStatus: int)

  /** What `Status` observed, and when. */
  datatype Report = Report(at: Time, bytes: nat, remaining: int, survey: Survey, item: Option<Item>)

  const STATES: set<string> := {"pending", "in_flight", "retry_wait", "blocked", "delivered", "compacted"}

  function StateName(f: StateFile): string { if f.Full? then StatusText(f.record.status) else "compacted" }

  function ItemOf(f: StateFile): Item {
    match f
    case Full(r) => Item(r.number, StatusText(r.status), r.reason, r.rounds, |r.resets|, r.next, r.ciRunId, r.httpStatus)
    case Compact(c) => Item(c.number, "compacted", NoCode, 0, 0, ZERO_TIME, c.ciRunId, 0)
  }

  /** A delivered record at least the retention period old. */
  predicate Candidate(f: StateFile, at: Time) {
    f.Full? && f.record.status.Delivered? && f.record.delivered.Some? && f.record.delivered.value + RETENTION <= at
  }

  predicate Pauses(f: StateFile) { f.Full? && f.record.status.Blocked? && f.record.disposition.Pause? }

  function Named(state: map<int, StateFile>, ns: set<int>, name: string): set<int>
    requires ns <= state.Keys
  {
    set n | n in ns && StateName(state[n]) == name
  }

  ghost predicate AnyPauses(state: map<int, StateFile>, ns: set<int>)
    requires ns <= state.Keys
  {
    exists n :: n in ns && Pauses(state[n])
  }

  /** The delivered records of `ns` past the retention. */
  function OldEnough(state: map<int, StateFile>, ns: set<int>, at: Time): set<int>
    requires ns <= state.Keys
  {
    set n | n in ns && Candidate(state[n], at)
  }

  /** The oldest creation among the unfinished records of `ns`. */
  ghost predicate IsOldest(state: map<int, StateFile>, ns: set<int>, t: Option<Time>)
    requires ns <= state.Keys
  {
    && (forall n | n in ns && !Done(state[n]) :: t.Some? && t.value <= state[n].record.created)
    && (t.Some? ==> exists n :: n in ns && !Done(state[n]) && state[n].record.created == t.value)
  }

  /** The latest delivery among the records of `ns`. */
  ghost predicate IsLatest(state: map<int, StateFile>, ns: set<int>, t: Option<Time>)
    requires ns <= state.Keys
  {
    && (forall n | n in ns && DeliveredAt(state[n]).Some? :: t.Some? && DeliveredAt(state[n]).value <= t.value)
    && (t.Some? ==> exists n :: n in ns && DeliveredAt(state[n]) == t)
  }

  ghost predicate CountsFit(state: map<int, StateFile>, ns: set<int>, counts: map<string, nat>)
    requires ns <= state.Keys
  {
    counts.Keys == STATES && forall name | name in STATES :: counts[name] == |Named(state, ns, name)|
  }

  /** The accumulations are those of the records of `ns`. */
  ghost predicate Tallies(state: map<int, StateFile>, ns: set<int>, at: Time, v: Survey) {
    && ns <= state.Keys
    && (v.paused <==> AnyPauses(state, ns)) && v.candidates == OldEnough(state, ns, at)
    && CountsFit(state, ns, v.counts)
    && IsOldest(state, ns, v.oldestPending) && IsLatest(state, ns, v.lastDelivered)
  }

  const NO_SURVEY := Survey(false, {}, map name | name in STATES :: 0, None, None)

  function Earlier(t: Option<Time>, u: Time): Option<Time> { if t.None? || u < t.value then Some(u) else t }

  function Later(t: Option<Time>, u: Time): Option<Time> { if t.None? || u > t.value then Some(u) else t }

  /** The accumulations with one more record. */
  function Counted(v: Survey, n: int, f: StateFile, at: Time): Survey
    requires StateName(f) in v.counts
  {
    Survey(
      v.paused || Pauses(f),
      if Candidate(f, at) then v.candidates + {n} else v.candidates,
      v.counts[StateName(f) := v.counts[StateName(f)] + 1],
      if Done(f) then v.oldestPending else Earlier(v.oldestPending, f.record.created),
      if DeliveredAt(f).Some? then Later(v.lastDelivered, DeliveredAt(f).value) else v.lastDelivered)
  }

  lemma NothingTallied(state: map<int, StateFile>, at: Time)
    ensures Tallies(state, {}, at, NO_SURVEY)
  {
    hide Candidate, StateName;
    assert forall name | name in STATES :: Named(state, {}, name) == {};
  }

  lemma TallyOneMore(state: map<int, StateFile>, ns: set<int>, at: Time, v: Survey, n: int)
    requires Tallies(state, ns, at, v) && n in state && n !in ns && StateName(state[n]) in STATES
    ensures Tallies(state, ns + {n}, at, Counted(v, n, state[n], at))
  {
    hide IsOldest, IsLatest, CountsFit, Candidate, StateName, Pauses, AnyPauses, OldEnough, Done, DeliveredAt, Earlier, Later;
    CountsOneMore(state, ns, v.counts, n);
    OldestOneMore(state, ns, v.oldestPending, n);
    LatestOneMore(state, ns, v.lastDelivered, n);
    PauseOneMore(state, ns, n);
    OldEnoughOneMore(state, ns, at, n);
  }

  lemma PauseOneMore(state: map<int, StateFile>, ns: set<int>, n: int)
    requires ns <= state.Keys && n in state
    ensures AnyPauses(state, ns + {n}) <==> AnyPauses(state, ns) || Pauses(state[n])
  {
    hide Pauses;
    if AnyPauses(state, ns) {
      var m :| m in ns && Pauses(state[m]);
      assert m in ns + {n};
    }
    assert n in ns + {n};
  }

  lemma OldEnoughOneMore(state: map<int, StateFile>, ns: set<int>, at: Time, n: int)
    requires ns <= state.Keys && n in state
    ensures OldEnough(state, ns + {n}, at) == if Candidate(state[n], at) then OldEnough(state, ns, at) + {n} else OldEnough(state, ns, at)
  {
    hide Candidate;
  }

  lemma NamedOneMore(state: map<int, StateFile>, ns: set<int>, n: int)
    requires ns <= state.Keys && n in state && n !in ns
    ensures forall name :: |Named(state, ns + {n}, name)| == |Named(state, ns, name)| + if StateName(state[n]) == name then 1 else 0
  {
    hide StateName;
    forall name ensures |Named(state, ns + {n}, name)| == |Named(state, ns, name)| + if StateName(state[n]) == name then 1 else 0 {
      assert Named(state, ns + {n}, name) == Named(state, ns, name) + if StateName(state[n]) == name then {n} else {};
    }
  }

  lemma CountsOneMore(state: map<int, StateFile>, ns: set<int>, counts: map<string, nat>, n: int)
    requires ns <= state.Keys && n in state && n !in ns && CountsFit(state, ns, counts) && StateName(state[n]) in STATES
    ensures StateName(state[n]) in counts
    ensures CountsFit(state, ns + {n}, counts[StateName(state[n]) := counts[StateName(state[n])] + 1])
  {
    hide StateName, Named;
    NamedOneMore(state, ns, n);
  }

  lemma OldestOneMore(state: map<int, StateFile>, ns: set<int>, t: Option<Time>, n: int)
    requires ns <= state.Keys && n in state && IsOldest(state, ns, t)
    ensures IsOldest(state, ns + {n}, if Done(state[n]) then t else Earlier(t, state[n].record.created))
  {
    if t.Some? {
      var m :| m in ns && !Done(state[m]) && state[m].record.created == t.value;
      assert m in ns + {n};
    }
    assert n in ns + {n};
  }

  lemma LatestOneMore(state: map<int, StateFile>, ns: set<int>, t: Option<Time>, n: int)
    requires ns <= state.Keys && n in state && IsLatest(state, ns, t)
    ensures IsLatest(state, ns + {n}, if DeliveredAt(state[n]).Some? then Later(t, DeliveredAt(state[n]).value) else t)
  {
    if t.Some? {
      var m :| m in ns && DeliveredAt(state[m]) == t;
      assert m in ns + {n};
    }
    assert n in ns + {n};
  }

  ghost predicate Surveyed(cfg: Config, s: Snap, numbers: seq<int>, i: nat, at: Time, v: Survey)
    requires i <= |numbers|
  {
    && Tallies(s.state, Seen(numbers, i), at, v)
    && (forall j | 0 <= j < i && numbers[j] in s.input :: InStep(cfg, s.input, s.state, numbers[j]))
  }

  lemma NothingSurveyed(cfg: Config, s: Snap, numbers: seq<int>, at: Time)
    ensures Surveyed(cfg, s, numbers, 0, at, NO_SURVEY)
  {
    hide Tallies;
    NothingTallied(s.state, at);
    assert Seen(numbers, 0) == {};
  }

  lemma SurveyOneMore(cfg: Config, s: Snap, t: Snap, numbers: seq<int>, i: nat, at: Time, v: Survey)
    requires i < |numbers| && Surveyed(cfg, s, numbers, i, at, v) && numbers[i] !in numbers[..i]
    requires t == s.(now := t.now) && numbers[i] in s.state && StateName(s.state[numbers[i]]) in STATES
    requires numbers[i] in s.input ==> InStep(cfg, s.input, s.state, numbers[i])
    ensures StateName(s.state[numbers[i]]) in v.counts
    ensures Surveyed(cfg, t, numbers, i + 1, at, Counted(v, numbers[i], s.state[numbers[i]], at))
  {
    hide InStep, StateName, CountsFit, IsOldest, IsLatest, Candidate, Pauses, Done, DeliveredAt, Earlier, Later;
    CountsKeys(s.state, Seen(numbers, i), at, v);
    TallyOneMore(s.state, Seen(numbers, i), at, v, numbers[i]);
    hide Tallies, Counted;
    assert numbers[..i + 1] == numbers[..i] + [numbers[i]];
    assert Seen(numbers, i + 1) == Seen(numbers, i) + {numbers[i]};
  }

  lemma CountsKeys(state: map<int, StateFile>, ns: set<int>, at: Time, v: Survey)
    requires Tallies(state, ns, at, v)
    ensures v.counts.Keys == STATES
  {
  }

  lemma SurveyDone(cfg: Config, s: Snap, numbers: seq<int>, at: Time, v: Survey)
    requires Surveyed(cfg, s, numbers, |numbers|, at, v)
    requires forall n :: n in numbers <==> n in s.state.Keys
    ensures Tallies(s.state, s.state.Keys, at, v) && (v.paused <==> Paused(s))
    ensures forall n | n in s.state && n in s.input :: InStep(cfg, s.input, s.state, n)
  {
    hide InStep;
    assert numbers[..|numbers|] == numbers;
    assert forall n :: n in Seen(numbers, |numbers|) <==> n in numbers;
    assert forall n :: n in Seen(numbers, |numbers|) <==> n in s.state.Keys;
    assert Seen(numbers, |numbers|) == s.state.Keys;
    forall n | n in s.state ensures exists j :: 0 <= j < |numbers| && numbers[j] == n { assert n in s.state.Keys; }
    if Paused(s) {
      var n :| n in s.state && Pauses(s.state[n]);
      assert n in s.state.Keys;
    }
  }

  /** What a read record tells `Status` is what the file holds. */
  lemma ReadReported(cfg: Config, n: int, f: StateFile, t: Time)
    requires Read(cfg, n, f, t).Some?
    ensures var r := Read(cfg, n, f, t).value;
      && StatusText(r.status) == StateName(f) && StateName(f) in STATES && DeliveredAt(f) == r.delivered
      && (r.status.Blocked? && r.disposition.Pause? <==> Pauses(f))
      && (Done(f) <==> r.status.Delivered? || r.status.Compacted?) && (!Done(f) ==> f == Full(r))
      && ItemOf(f) == Item(r.number, StatusText(r.status), r.reason, r.rounds, |r.resets|, r.next, r.ciRunId, r.httpStatus)
  {
    hide Sendable;
  }

  datatype Reason = NoReason | DeliveryNotCompleted | RetentionNotMet | CollectorNotReady | InputPresent | AckRequired

  datatype Plan = Plan(eligible: bool, already: bool, reclaim: nat, reason: Reason, checkedAt: Time)

  ghost function ProofOf(c: Collector.Checkpoint, e: Collector.Entry): Proof {
    Proof(e.digest, e.handoff.GetOr(0), e.retired.GetOr(0), c.observed)
  }

  /** The only change is that build n's delivered record became its tombstone at the instant t. */
  ghost predicate CompactedAt(cfg: Config, before: map<int, StateFile>, after: map<int, StateFile>, n: int, t: Time) {
    && n in before && before[n].Full? && before[n].record.status.Delivered? && before[n].record.delivered.Some?
    && n in after && after[n].Compact? && Compacts(cfg, before[n].record, after[n].tombstone, t)
    && after == before[n := after[n]]
  }

  /** The evidence on both sides for compacting one finished build, as it stood at the instant `at`. */
  ghost predicate Warranted(cfg: Config, s: Snap, n: int, c: Collector.Checkpoint, e: Collector.Entry, at: Time) {
    && n in s.state && Done(s.state[n]) && DeliveredAt(s.state[n]).Some?
    && Collector.Supports(cfg, c, n, e, at) && at <= s.now
    && e.digest == DigestOf(s.state[n]) && DeliveredAt(s.state[n]).value <= e.handoff.value
    && DeliveredAt(s.state[n]).value + RETENTION <= at
    && n !in s.input && n in s.acks && s.acks[n] == AckOf(cfg, n, DigestOf(s.state[n]))
  }

  lemma WarrantAges(cfg: Config, s: Snap, t: Snap, n: int, c: Collector.Checkpoint, e: Collector.Entry, at: Time)
    requires Warranted(cfg, s, n, c, e, at) && t == s.(now := t.now) && s.now <= t.now
    ensures Warranted(cfg, t, n, c, e, at)
  {
    hide Collector.Supports;
  }

  lemma CompactionEffect(cfg: Config, s: Snap, w: Write)
    requires w.Compaction? && Writable(s, w) && s.state[w.build].record.status.Delivered?
    ensures CompactedAt(cfg, s.state, Renamed(cfg, s, w).state, w.build, w.at)
    ensures PhaseAfter(s, w) == s.phase
  {
  }

  lemma CompactionAllowed(cfg: Config, s: Snap, n: int, c: Collector.Checkpoint, e: Collector.Entry, checkedAt: Time, at: Time)
    requires s.phase.Idle? && n in s.state && s.state[n].Full? && s.state[n].record.status.Delivered?
    requires Warranted(cfg, s, n, c, e, checkedAt) && checkedAt <= at <= s.now && s.state[n].record.updated <= at
    ensures var w := Compaction(n, at, ProofOf(c, e));
      MayWrite(cfg, s, w) && Writable(s, w) && Written(cfg, s, w) == Compact(TombstoneOf(cfg, s.state[n].record, at))
  {
  }

  lemma ReadDelivered(cfg: Config, n: int, f: StateFile, t: Time)
    requires Read(cfg, n, f, t).Some?
    ensures var r := Read(cfg, n, f, t).value;
      && (r.status.Delivered? <==> f.Full? && f.record.status.Delivered?) && (r.status.Delivered? ==> f == Full(r))
      && (r.status.Blocked? ==> f == Full(r)) && (f.Full? && f.record.status.Blocked? ==> r.status.Blocked?)
  {
    hide Sendable;
  }

  /** The payload bytes a compaction would drop. */
  function PayloadBytes(f: StateFile): nat { if f.Full? then |f.record.payload| else 0 }

  lemma ReadFinished(cfg: Config, n: int, f: StateFile, t: Time)
    requires Read(cfg, n, f, t).Some?
    ensures |Read(cfg, n, f, t).value.payload| == PayloadBytes(f)
    ensures var r := Read(cfg, n, f, t).value;
      Finished(r) ==> DeliveredAt(f) == r.delivered && r.delivered.Some? && (r.status.Compacted? <==> f.Compact?)
  {
    hide Sendable;
  }

  /** At the instant t the checkpoint breaks its rules or has no table. */
  ghost predicate BrokenAt(clock: Collector.Clock, cfg: Config, c: Collector.Checkpoint, t: Time) {
    !Collector.CheckpointRules(cfg, c, t) || forall m :: !Collector.CheckedTable(clock, cfg, c, m)
  }

  /** At some instant of the operation the checkpoint was broken. */
  ghost predicate CorruptCheckpoint(clock: Collector.Clock, cfg: Config, c: Collector.Checkpoint, from: Time, to: Time) {
    exists t :: from <= t <= to && BrokenAt(clock, cfg, c, t)
  }

  lemma CorruptAt(clock: Collector.Clock, cfg: Config, c: Collector.Checkpoint, from: Time, t: Time, to: Time)
    requires from <= t <= to && (!Collector.CheckpointRules(cfg, c, t) || forall m :: !Collector.CheckedTable(clock, cfg, c, m))
    ensures CorruptCheckpoint(clock, cfg, c, from, to)
  {
    hide Collector.CheckpointRules, Collector.CheckedTable;
    assert BrokenAt(clock, cfg, c, t);
  }

  lemma CorruptLonger(clock: Collector.Clock, cfg: Config, c: Collector.Checkpoint, earlier: Time, from: Time, to: Time)
    requires earlier <= from && CorruptCheckpoint(clock, cfg, c, from, to)
    ensures CorruptCheckpoint(clock, cfg, c, earlier, to)
  {
    hide BrokenAt;
  }

  /** The collector retired the build with other content, or handed it over before it was delivered. */
  ghost predicate Contradicts(clock: Collector.Clock, cfg: Config, c: Collector.Checkpoint, n: int, f: StateFile) {
    exists m :: Collector.CheckedTable(clock, cfg, c, m) && Collector.Settles(c, m, n) && !Agrees(m[n], f)
  }

  predicate Agrees(e: Collector.Entry, f: StateFile) {
    e.digest == DigestOf(f) && (e.handoff.Some? && DeliveredAt(f).Some? ==> DeliveredAt(f).value <= e.handoff.value)
  }
}
