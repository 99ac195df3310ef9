/**
 What outlives a process: the three directories, the clock and the receiver, with the bounded listing of a
 directory and what a read of one of the worker's own files finds.
 */
module SpoolWorld {
  import opened Payload
  import opened DeliveryError
  import opened SpoolRecords
  import opened SpoolSize
  import opened SpoolProtocol
  import opened SpoolRuns
  import opened Receiver
  import opened Sums
  import opened SpoolSchedule

  const MAX_BYTES := 512 * 1024 * 1024

  datatype SpoolError =
    | IoFailed | StateError | CapacityError | PausedError | ConflictError | BindingError
    | CleanupError | ConfigurationError | MissingItem | Canceled

  /** Names in the producer's directory that are no build files, and what they occupy. */
  datatype Extras = Extras(temporaries: nat, foreign: nat, bytes: nat)

  /** What a crash leaves behind: the three directories, the clock and the receiver. */
  class World {
    const cfg: Config
    const store: Store
    const ownBytes: nat
    var input: map<int, Bytes>
    var extras: Extras
    var state: map<int, StateFile>
    var acks: map<int, Ack>
    var stateTemps: nat
    var ackTemps: nat
    var stateTempBytes: nat
    var ackTempBytes: nat
    var now: Time
    ghost const start: Snap
    ghost var published: set<(int, Bytes)>
    ghost var phase: Phase
    ghost var log: seq<Step>

    /** A freshly initialised spool with an arbitrary valid receiver. */
    constructor (cfg: Config, store: Store, now: Time, ownBytes: nat)
      requires ValidConfig(cfg) && 0 < now && Matched(store.Contents())
      ensures this.cfg == cfg && this.store == store && Sound(false)
    {
      this.cfg, this.store, this.now, this.ownBytes := cfg, store, now, ownBytes;
      input, extras, state, acks := map[], Extras(0, 0, 0), map[], map[];
      stateTemps, ackTemps, stateTempBytes, ackTempBytes := 0, 0, 0, 0;
      published, phase, log := {}, Idle, [];
      start := Snap(map[], {}, map[], map[], 0, now, false, Idle, store.Contents());
    }

    ghost function Snapshot(failed: bool): Snap
      reads this, store
    {
      Snap(input, published, state, acks, stateTemps + ackTemps, now, failed, phase, store.Contents())
    }

    /** The current state is reached by a legal run from a fresh spool. */
    ghost predicate Sound(failed: bool)
      reads this, store
    {
      && ValidConfig(cfg)
      && Initial(start) && Legal(cfg, start, log) && After(cfg, start, log) == Snapshot(failed)
      && (forall n | n in input :: (n, input[n]) in published)
    }

    /** Enters a step that has just been carried out into the log. */
    ghost method Note(e: Step, failed: bool)
      requires ValidConfig(cfg) && Initial(start) && Legal(cfg, start, log)
      requires Enabled(cfg, After(cfg, start, log), e) && Apply(cfg, After(cfg, start, log), e) == Snapshot(failed)
      requires forall n | n in input :: (n, input[n]) in published
      modifies this`log
      ensures Sound(failed) && log == old(log) + [e]
      ensures Continues(old(log), log, if e.Send? then 1 else 0, if IsAnyReset(e) then 1 else 0)
    {
      hide Legal, After, Enabled, Apply, Initial, ValidConfig;
      Extend(cfg, start, log, e);
      assert (log + [e])[..|log|] == log;
      log := log + [e];
    }

    lemma SoundConfig(failed: bool)
      requires Sound(failed)
      ensures ValidConfig(cfg)
    {
    }

    lemma Reached(failed: bool)
      requires Sound(failed)
      ensures Inv(cfg, Snapshot(failed))
    {
      RunKeepsInv(cfg, start, log);
    }

    /** The producer may publish, replace or remove its files at any time. */
    method Interfere(ghost failed: bool)
      requires Sound(failed)
      modifies this`input, this`extras, this`published, this`log
      ensures Sound(failed)
      ensures Snapshot(failed) == old(Snapshot(failed)).(input := input, published := old(published) + input.Items)
      ensures Continues(old(log), log, 0, 0)
    {
      hide Legal, After, Initial, ValidConfig;
      extras := *;
      input := *;
      published := published + input.Items;
      assert forall n | n in input :: (n, input[n]) in input.Items;
      Note(Publish(input), failed);
    }

    /** `s.now()`: the clock never goes back. */
    method Clock(ghost failed: bool) returns (t: Time)
      requires Sound(failed)
      modifies this`now, this`log
      ensures Sound(failed)
      ensures t == now && old(now) <= t && Snapshot(failed) == old(Snapshot(failed)).(now := t)
      ensures Continues(old(log), log, 0, 0)
    {
      hide Legal, After, Initial, ValidConfig;
      t := *;
      if t < now { t := now; }
      now := t;
      Note(Advance(t), failed);
    }

    /** A timer: the clock shows at least so much later when it is over. */
    method Wait(span: Time, ghost failed: bool)
      requires Sound(failed) && span >= 0
      modifies this`now, this`log
      ensures Sound(failed)
      ensures old(now) + span <= now && Snapshot(failed) == old(Snapshot(failed)).(now := now)
      ensures Continues(old(log), log, 0, 0)
    {
      hide Legal, After, Initial, ValidConfig;
      var t: Time := *;
      now := if t < now + span then now + span else t;
      Note(Advance(now), failed);
    }

    /** The process died somewhere: its volatile state is gone and a half-written temporary file may remain. */
    method Restart(ghost failedBefore: bool)
      requires Sound(failedBefore)
      modifies this`stateTemps, this`ackTemps, this`stateTempBytes, this`ackTempBytes, this`phase, this`log
      ensures Sound(false)
      ensures Snapshot(false) == old(Snapshot(failedBefore)).(failed := false, phase := Idle, leftovers := Snapshot(false).leftovers)
      ensures Continues(old(log), log, 0, 0)
    {
      hide Legal, After, Initial, ValidConfig;
      var leftover: bool := *;
      if leftover {
        var bytes :| bytes >= 0;
        var acknowledging: bool := *;
        if acknowledging {
          ackTemps, ackTempBytes := ackTemps + 1, ackTempBytes + bytes;
        } else {
          stateTemps, stateTempBytes := stateTemps + 1, stateTempBytes + bytes;
        }
      }
      phase := Idle;
      Note(Crash(leftover), false);
    }

    // ---------- Sizes and capacity ----------

    function InputSizes(): (sizes: map<int, nat>)
      reads this`input
      ensures sizes.Keys == input.Keys && |sizes| == |input|
    {
      map n | n in input :: |input[n]|
    }

    function StateSizes(): (sizes: map<int, nat>)
      reads this`state
      ensures sizes.Keys == state.Keys && |sizes| == |state|
    {
      map n | n in state :: SizeOf(cfg.codec, state[n])
    }

    function AckSizes(): (sizes: map<int, nat>)
      reads this`acks
      ensures sizes.Keys == acks.Keys && |sizes| == |acks|
    {
      map n | n in acks :: AckSize(acks[n])
    }

    ghost function TotalBytes(): nat
      reads this`input, this`extras, this`state, this`acks, this`stateTempBytes, this`ackTempBytes
    {
      Sum(InputSizes()) + extras.bytes + Sum(StateSizes()) + ownBytes + stateTempBytes + Sum(AckSizes()) + ackTempBytes
    }

    /** Every name the input directory holds is a build from the bound range or a temporary file. */
    ghost predicate ProperInput()
      reads this`input, this`extras
    {
      extras.foreign == 0 && forall n | n in input :: InRange(cfg, n)
    }

    lemma InputRange()
      requires ProperInput()
      ensures forall n | n in input :: InRange(cfg, n)
    {
    }

    function Slots(): nat
      reads this`input, this`extras, this`state, this`acks, this`stateTemps, this`ackTemps
    {
      |input.Keys + state.Keys + acks.Keys| + extras.temporaries + stateTemps + ackTemps
    }

    /** The identities of the three directories and every temporary file. */
    method CountSlots() returns (count: nat)
      ensures count == Slots()
    {
      var identities := input.Keys;
      identities := identities + state.Keys;
      identities := identities + acks.Keys;
      return |identities| + extras.temporaries + stateTemps + ackTemps;
    }

    ghost predicate InputFits()
      reads this`input, this`extras
    {
      |input| + extras.temporaries + extras.foreign <= MAX_ENTRIES + 4 && Sum(InputSizes()) + extras.bytes <= MAX_BYTES
    }

    ghost predicate StateFits()
      reads this`state, this`stateTemps, this`stateTempBytes
    {
      |state| + 2 + stateTemps <= MAX_ENTRIES + 4 && Sum(StateSizes()) + ownBytes + stateTempBytes <= MAX_BYTES
    }

    ghost predicate AcksFit()
      reads this`acks, this`ackTemps, this`ackTempBytes
    {
      |acks| + ackTemps <= MAX_ENTRIES + 4 && Sum(AckSizes()) + ackTempBytes <= MAX_BYTES
    }

    ghost predicate WithinCapacity()
      reads this`input, this`extras, this`state, this`acks, this`stateTemps, this`ackTemps, this`stateTempBytes, this`ackTempBytes
    {
      InputFits() && StateFits() && AcksFit() && Slots() <= MAX_ENTRIES && TotalBytes() <= MAX_BYTES
    }

    /** There is no room for one more record. */
    ghost predicate Crowded()
      reads this`input, this`extras, this`state, this`acks, this`stateTemps, this`ackTemps, this`stateTempBytes, this`ackTempBytes
    {
      !WithinCapacity() || TotalBytes() + MAX_RECORD > MAX_BYTES || |state| >= MAX_ENTRIES
    }

    ghost predicate Oversized()
      reads this`input
    {
      exists n :: n in input && |input[n]| > MAX_BODY
    }

    method ListInput() returns (names: seq<int>, bytes: nat, ok: bool)
      ensures (ok <==> InputFits()) && (!ok ==> Crowded())
      ensures ok ==> bytes == Sum(InputSizes()) + extras.bytes && Listing(names, input.Keys)
    {
      hide Sum;
      names, bytes, ok := BoundedNames(InputSizes(), extras.temporaries + extras.foreign, extras.bytes);
    }

    method ListState() returns (numbers: seq<int>, bytes: nat, ok: bool)
      ensures ok <==> StateFits()
      ensures ok ==> bytes == Sum(StateSizes()) + ownBytes + stateTempBytes && Ascending(numbers) && Listing(numbers, state.Keys)
    {
      hide Sum;
      numbers, bytes, ok := BoundedNames(StateSizes(), 2 + stateTemps, ownBytes + stateTempBytes);
      numbers := Sorted(state.Keys);
    }

    method ListAcks() returns (names: seq<int>, bytes: nat, ok: bool)
      ensures ok <==> AcksFit()
      ensures ok ==> bytes == Sum(AckSizes()) + ackTempBytes && Listing(names, acks.Keys)
    {
      hide Sum;
      names, bytes, ok := BoundedNames(AckSizes(), ackTemps, ackTempBytes);
    }
  }

  /** A log went on, with so many sends and at most so many resets. */
  ghost predicate Continues(before: seq<Step>, after: seq<Step>, sends: nat, resets: nat) {
    before <= after && TotalSends(after) == TotalSends(before) + sends && TotalResets(after) <= TotalResets(before) + resets
  }

  method AnyOf<T>(s: set<T>) returns (x: T)
    requires s != {}
    ensures x in s
  {
    x :| x in s;
  }

  /** `boundedNames`: lists one directory and stops as soon as it exceeds a limit. */
  method BoundedNames(sizes: map<int, nat>, otherNames: nat, otherBytes: nat) returns (names: seq<int>, bytes: nat, ok: bool)
    ensures ok <==> |sizes| + otherNames <= MAX_ENTRIES + 4 && Sum(sizes) + otherBytes <= MAX_BYTES
    ensures ok ==> bytes == Sum(sizes) + otherBytes && Listing(names, sizes.Keys)
  {
    names, bytes, ok := [], otherBytes, true;
    var rest := sizes;
    if otherNames > 10004 || otherBytes > 536870912 {
      ok := false;
      return;
    }
    while rest.Keys != {}
      invariant |names| + |rest| == |sizes| && bytes + Sum(rest) == Sum(sizes) + otherBytes
      invariant |names| + otherNames <= MAX_ENTRIES + 4 && bytes <= MAX_BYTES
      invariant rest.Keys <= sizes.Keys && Listing(names, sizes.Keys - rest.Keys)
      decreases |rest|
    {
      var name := AnyOf(rest.Keys);
      SumWithout(rest, name);
      names := names + [name];
      bytes := bytes + rest[name];
      rest := rest - {name};
      if |names| + otherNames > 10004 || bytes > 536870912 {
        ok := false;
        return;
      }
    }
  }

  /** The names without repetition, in no particular order. */
  ghost predicate Listing(names: seq<int>, keys: set<int>) {
    && (forall n | n in names :: n in keys)
    && (forall n | n in keys :: n in names)
    && (forall i, j | 0 <= i < j < |names| :: names[i] != names[j])
  }

  lemma Listed(names: seq<int>, keys: set<int>)
    requires Listing(names, keys)
    ensures forall n :: n in names <==> n in keys
  {
  }

  ghost predicate Ascending(ns: seq<int>) {
    forall i, j | 0 <= i < j < |ns| :: ns[i] < ns[j]
  }

  /** The build numbers in increasing order. */
  method Sorted(keys: set<int>) returns (ns: seq<int>)
    ensures Ascending(ns) && Listing(ns, keys)
  {
    ns := [];
    var rest := keys;
    while rest != {}
      invariant rest <= keys && Ascending(ns) && Listing(ns, keys - rest)
      invariant forall a, b | a in ns && b in rest :: a < b
      decreases rest
    {
      var least := AnyOf(rest);
      var others := rest - {least};
      while others != {}
        invariant others <= rest && least in rest
        invariant forall b | b in rest && b !in others :: least <= b
        decreases others
      {
        var other := AnyOf(others);
        if other < least { least := other; }
        others := others - {other};
      }
      forall i | 0 <= i < |ns| ensures ns[i] < least { assert ns[i] in ns; assert least in rest; }
      ns := ns + [least];
      rest := rest - {least};
    }
  }

  /** How a failed write leaves the files: as they were, or with the new file already in place. */
  ghost predicate HalfWritten(cfg: Config, before: Snap, w: Write, after: Snap)
    requires Writable(before, w)
  {
    && after.phase == before.phase && after.input == before.input && after.published == before.published
    && after.ledger == before.ledger && before.now <= after.now
    && ((after.state == before.state && after.acks == before.acks)
        || (after.state == Renamed(cfg, before, w).state && after.acks == Renamed(cfg, before, w).acks))
  }

  /** A round as the sender reports it is a step of the protocol. */
  lemma SendStep(cfg: Config, s: Snap, n: nat, reached: bool, facts: string, id: string, result: SendResult, l: Ledger)
    requires !s.failed && s.phase == Reserved(n)
    requires l == if reached then Deliver(s.ledger, DeliveryKey(cfg, n), facts, id).0 else s.ledger
    requires reached ==> CarriesFacts(cfg, s, n, facts)
    requires result.SendFailed? ==> Controlled(result.error)
    requires result.Sent? ==> |result.ciRunId| <= MAX_RESPONSE && DeliveryKey(cfg, n) in l.claims
                              && l.claims[DeliveryKey(cfg, n)].ciRunId == result.ciRunId
    ensures Enabled(cfg, s, Send(n, reached, facts, id, result))
    ensures Apply(cfg, s, Send(n, reached, facts, id, result)) == s.(ledger := l, phase := Answered(n, result))
  {
    hide Deliver, Controlled, CiRunIdPattern, CarriesFacts;
  }

  /** The three ways an allowed write can go, spelled out. */
  lemma CommitSteps(cfg: Config, s: Snap, w: Write)
    requires !s.failed && MayWrite(cfg, s, w) && Writable(s, w)
    ensures forall o: Outcome :: Enabled(cfg, s, Commit(w, o))
    ensures Apply(cfg, s, Commit(w, Synced)) == Renamed(cfg, s, w).(phase := PhaseAfter(s, w))
    ensures Apply(cfg, s, Commit(w, Torn)) == Renamed(cfg, s, w).(failed := true)
    ensures Apply(cfg, s, Commit(w, Lost(true))) == s.(failed := true, leftovers := s.leftovers + 1)
    ensures Apply(cfg, s, Commit(w, Lost(false))) == s.(failed := true)
  {
    hide Renamed, MayWrite;
  }

  lemma RenamedState(cfg: Config, s: Snap, w: Write)
    requires Writable(s, w) && !w.Acknowledge?
    ensures Renamed(cfg, s, w) == s.(state := s.state[w.build := Written(cfg, s, w)])
  {
  }

  lemma WrittenAges(cfg: Config, s: Snap, w: Write, t: Time)
    requires Writable(s, w) && !w.Acknowledge?
    ensures Writable(s.(now := t), w) && Written(cfg, s.(now := t), w) == Written(cfg, s, w)
  {
    hide ImportRecord, OutcomeRecord, ReservedRecord;
  }

  lemma AgedWrite(cfg: Config, s: Snap, w: Write, t: Time)
    requires MayWrite(cfg, s, w) && Writable(s, w) && s.now <= t
    ensures MayWrite(cfg, s.(now := t), w) && Writable(s.(now := t), w)
    ensures Renamed(cfg, s.(now := t), w) == Renamed(cfg, s, w).(now := t)
  {
    hide Justifies, Exhausted, Resettable, ImportRecord, OutcomeRecord, ReservedRecord;
    if w.Reserve? { assert FirstDue(s.(now := t), w.build, w.at) == FirstDue(s, w.build, w.at); }
  }

  lemma ListingSize(names: seq<int>, keys: set<int>)
    requires Listing(names, keys)
    ensures |names| == |keys|
  {
    DistinctSize(names);
    assert (set n | n in names) == keys;
  }

  lemma Unrepeated(names: seq<int>, keys: set<int>)
    requires Listing(names, keys)
    ensures forall i | 0 <= i < |names| :: names[i] !in names[..i]
  {
  }

  /** Some record carries a response status its own reader refuses. */
  ghost predicate OddStatus(state: map<int, StateFile>) {
    exists n :: n in state && state[n].Full? && !StoredStatus(state[n].record.httpStatus)
  }

  /** An unreadable file of a reachable state is one with such a status. */
  lemma UnreadableIsOdd(cfg: Config, s: Snap, n: int, t: Time)
    requires Inv(cfg, s) && n in s.state && s.now <= t && Read(cfg, n, s.state[n], t).None?
    ensures OddStatus(s.state)
  {
    hide Read, Matched;
    assert FileOk(cfg, s, n);
    OwnFileReadable(cfg, n, s.state[n], s.now, t);
  }

  predicate Finished(r: Record) { r.status.Delivered? || r.status.Compacted? }

  /** What `inventory` demands of one acknowledgement at the instant it reads the record. */
  predicate AckMatches(cfg: Config, state: map<int, StateFile>, acks: map<int, Ack>, n: int, t: Time)
    requires n in acks
  {
    && n in state && Read(cfg, n, state[n], t).Some? && Finished(Read(cfg, n, state[n], t).value)
    && acks[n] == AckOf(cfg, n, Read(cfg, n, state[n], t).value.digest) && AckSize(acks[n]) <= MAX_ACK
  }

  /** The acknowledgements of a reachable state pass that test at every later instant. */
  lemma OwnAcksMatch(cfg: Config, s: Snap, n: int, t: Time)
    requires ValidConfig(cfg) && Inv(cfg, s) && n in s.acks && s.now <= t
    ensures AckMatches(cfg, s.state, s.acks, n, t)
  {
    hide Consistent, ConsistentTombstone, Sendable, Matched;
    assert AckOk(cfg, s, n) && FileOk(cfg, s, n);
    OwnFileReadable(cfg, n, s.state[n], s.now, t);
    OwnFilesFit(cfg, n, s.state[n], s.now);
  }

  lemma OwnAcksNeverFail(cfg: Config, s: Snap)
    requires ValidConfig(cfg) && Inv(cfg, s)
    ensures !exists n, t :: n in s.acks && s.now <= t && !AckMatches(cfg, s.state, s.acks, n, t)
  {
    hide AckMatches, Inv;
    forall n, t | n in s.acks && s.now <= t ensures AckMatches(cfg, s.state, s.acks, n, t) {
      OwnAcksMatch(cfg, s, n, t);
    }
  }

  lemma ReadShape(cfg: Config, n: int, f: StateFile, t: Time)
    requires Read(cfg, n, f, t).Some?
    ensures var r := Read(cfg, n, f, t).value;
      && r.number == n && r.digest == DigestOf(f) && (Finished(r) <==> Done(f))
      && (!Finished(r) ==> f == Full(r)) && (Live(r) || r.status.Blocked? || Finished(r))
  {
    hide Sendable;
  }
}
