/**
 The worker itself: `Spool` and the files it works on. Every public operation is proved to take only steps
 of the protocol, from a state that a legal run reaches, and to do what its contract says beyond that.
 */
module SpoolWorker {
  import opened Text
  import opened Payload
  import opened DeliveryError
  import opened SpoolRecords
  import opened SpoolLaws
  import opened SpoolSize
  import opened SpoolProtocol
  import opened SpoolRuns
  import opened Receiver
  import opened Sums
  import opened SpoolSchedule
  import opened SpoolWorld
  import opened SpoolScan
  import opened SpoolImport
  import opened SpoolReport
  import opened SpoolTick
  import Sender
  import Collector
  import Backoff

  class Spool {
    const world: World
    const writeable: bool
    var locked: bool
    var failed: bool
    var slots: nat

    /** A new process on the files an earlier one left. */
    constructor Attach(world: World, writeable: bool, ghost failedBefore: bool)
      requires world.Sound(failedBefore)
      modifies world`stateTemps, world`ackTemps, world`stateTempBytes, world`ackTempBytes, world`phase, world`log
      ensures this.world == world && this.writeable == writeable && Valid() && locked && !failed
      ensures View() == old(world.Snapshot(failedBefore)).(failed := false, phase := Idle, leftovers := View().leftovers)
      ensures Continues(old(world.log), world.log, 0, 0)
    {
      this.world, this.writeable, locked, failed, slots := world, writeable, true, false, 0;
      new;
      hide World.Sound;
      world.Restart(failedBefore);
    }

    ghost function View(): Snap
      reads this, world, world.store
    {
      world.Snapshot(failed)
    }

    ghost predicate Valid()
      reads this, world, world.store
    {
      world.Sound(failed)
    }

    /** Between operations: no round is under way, unless this process failed in one. */
    ghost predicate Ready()
      reads this, world, world.store
    {
      failed || View().phase.Idle?
    }

    predicate Usable()
      reads this
    {
      writeable && locked && !failed
    }

    /**
     What stands behind an error. `StateError` never blames the worker's own files, except for a record that
     carries a response status outside the range its reader accepts.
     */
    ghost predicate Excused(e: SpoolError)
      reads this, world, world.store
    {
      match e
      case IoFailed => !Usable()
      case StateError => !world.ProperInput() || world.Oversized() || OddStatus(world.state)
      case CapacityError => world.Crowded()
      case ConflictError => exists n :: n in world.input && n in world.state && !InStep(world.cfg, world.input, world.state, n)
      case PausedError => Paused(View())
      case _ => false
    }

    lemma PauseIsExcused()
      requires Paused(View())
      ensures Excused(PausedError)
    {
    }

    lemma ReadNotLater(n: int)
      requires Valid() && n in world.state && Read(world.cfg, n, world.state[n], world.now).Some?
      ensures Read(world.cfg, n, world.state[n], world.now).value.updated <= world.now
    {
      hide Legal, After, Initial, Matched, Consistent, ConsistentTombstone, Sendable;
      world.Reached(failed);
      assert FileOk(world.cfg, View(), n);
    }

    lemma OddIsExcused()
      requires OddStatus(world.state)
      ensures Excused(StateError)
    {
    }

    /** Sets `failed`: this process writes and sends nothing any more. */
    method MarkFailed(ghost e: SpoolError)
      requires Valid()
      modifies this`failed, world`log
      ensures Valid() && View() == old(View()).(failed := true)
      ensures Continues(old(world.log), world.log, 0, 0)
      ensures old(Excused(e)) ==> Excused(e)
    {
      hide Legal, After, Initial, ValidConfig, InStep, World.ProperInput, World.Oversized, World.Crowded, OddStatus;
      failed := true;
      world.Note(Fail, true);
    }

    /** The acknowledgement half of `inventory`. */
    method CheckAcks(names: seq<int>) returns (ok: bool)
      requires Valid() && forall n | n in names :: n in world.acks
      modifies world`now, world`log
      ensures Valid() && old(world.now) <= world.now && View() == old(View()).(now := world.now)
      ensures Continues(old(world.log), world.log, 0, 0)
      ensures !ok ==> exists n, t ::
                n in world.acks && old(world.now) <= t <= world.now && !AckMatches(world.cfg, world.state, world.acks, n, t)
    {
      hide Legal, After, Initial, ValidConfig, AckMatches;
      var i := 0;
      while i < |names|
        invariant 0 <= i <= |names|
        invariant Valid() && old(world.now) <= world.now && View() == old(View()).(now := world.now)
        invariant Continues(old(world.log), world.log, 0, 0)
      {
        var t := world.Clock(failed);
        assert names[i] in names && world.acks == old(world.acks);
        var ok := CheckAck(names[i], t);
        if !ok {
          return false;
        }
        i := i + 1;
      }
      return true;
    }

    /** One acknowledgement: a readable finished record with the same digest, and nothing else in the file. */
    method CheckAck(n: int, t: Time) returns (ok: bool)
      requires n in world.acks
      ensures ok == AckMatches(world.cfg, world.state, world.acks, n, t)
    {
      hide Read;
      if n !in world.state {
        return false;
      }
      var read := ReadFile(n, world.state[n], t);
      if read.None? || (!read.value.status.Delivered? && !read.value.status.Compacted?) {
        return false;
      }
      return world.acks[n] == Ack(1, world.cfg.binding.sourceId, n, read.value.digest) && AckSize(world.acks[n]) <= 1024;
    }

    /** The listing half of `inventory`: names, sizes and limits of the three directories. */
    method ListDirectories() returns (numbers: seq<int>, acked: seq<int>, total: nat, err: Option<SpoolError>)
      ensures err in {None, Some(CapacityError), Some(StateError)}
      ensures err == Some(CapacityError) ==> !world.WithinCapacity()
      ensures err == Some(StateError) ==> !world.ProperInput()
      ensures err.None? ==> world.ProperInput() && Listing(acked, world.acks.Keys)
      ensures err.None? ==> Ascending(numbers) && Listing(numbers, world.state.Keys) && total == world.TotalBytes()
      ensures err.None? ==> (world.WithinCapacity() <==> world.Slots() <= MAX_ENTRIES && total <= MAX_BYTES)
    {
      hide Sum, World.InputSizes, World.StateSizes, World.AckSizes, World.InputFits, World.StateFits, World.AcksFit, World.Slots,
           Ascending, Listing, InRange;
      numbers, acked, total := [], [], 0;
      var names, bytes, ok := world.ListInput();
      if !ok {
        return numbers, acked, total, Some(CapacityError);
      }
      Listed(names, world.input.Keys);
      assert forall n | n in names :: n in world.input;
      assert forall n | n in world.input :: n in names;
      if world.extras.foreign > 0 || exists n :: n in names && !InRange(world.cfg, n) {
        return numbers, acked, total, Some(StateError);
      }
      total := bytes;
      numbers, bytes, ok := world.ListState();
      if !ok {
        return numbers, acked, total, Some(CapacityError);
      }
      total := total + bytes;
      acked, bytes, ok := world.ListAcks();
      if !ok {
        return numbers, acked, total, Some(CapacityError);
      }
      total := total + bytes;
      return numbers, acked, total, None;
    }

    /** One pass over the three directories. */
    method SurveyDirectories() returns (numbers: seq<int>, total: nat, err: Option<SpoolError>)
      requires Valid()
      modifies this`slots, world`now, world`log
      ensures Valid() && old(world.now) <= world.now && View() == old(View()).(now := world.now)
      ensures Continues(old(world.log), world.log, 0, 0)
      ensures err.None? ==> world.ProperInput() && world.WithinCapacity() && slots == world.Slots()
      ensures err.None? ==> Ascending(numbers) && Listing(numbers, world.state.Keys) && total == world.TotalBytes()
      ensures err == Some(CapacityError) ==> !world.WithinCapacity()
      ensures err == Some(StateError) ==> !world.ProperInput() || exists n, t ::
                n in world.acks && old(world.now) <= t <= world.now && !AckMatches(world.cfg, world.state, world.acks, n, t)
      ensures err in {None, Some(CapacityError), Some(StateError)}
    {
      hide World.Slots, World.Sound, World.WithinCapacity, World.TotalBytes, World.ProperInput, AckMatches, Ascending, Listing;
      var acked;
      numbers, acked, total, err := ListDirectories();
      if err.Some? {
        return;
      }
      assert forall n | n in acked :: n in world.acks by { Listed(acked, world.acks.Keys); }
      var ok := CheckAcks(acked);
      if !ok {
        return numbers, total, Some(StateError);
      }
      var count := world.CountSlots();
      if count > 10000 || total > 512 * 1024 * 1024 {
        return numbers, total, Some(CapacityError);
      }
      slots := count;
    }

    /** `inventory`: of the worker's own files it refuses none. */
    method Inventory() returns (numbers: seq<int>, total: nat, err: Option<SpoolError>)
      requires Valid()
      modifies this`slots, world`now, world`log
      ensures Valid() && old(world.now) <= world.now && View() == old(View()).(now := world.now)
      ensures Continues(old(world.log), world.log, 0, 0)
      ensures err.None? ==> world.ProperInput() && world.WithinCapacity() && slots == world.Slots()
      ensures err.None? ==> Ascending(numbers) && Listing(numbers, world.state.Keys) && total == world.TotalBytes()
      ensures err == Some(CapacityError) ==> !world.WithinCapacity()
      ensures err == Some(StateError) ==> !world.ProperInput()
      ensures err in {None, Some(CapacityError), Some(StateError)} && (err.Some? ==> Excused(err.value))
    {
      hide World.Sound, World.WithinCapacity, World.TotalBytes, World.ProperInput, World.Slots, World.Oversized,
           AckMatches, Ascending, Listing, Inv, OddStatus;
      ghost var before := View();
      world.Reached(failed);
      world.SoundConfig(failed);
      numbers, total, err := SurveyDirectories();
      OwnAcksNeverFail(world.cfg, before);
    }

    /** `read` of an existing state file, at the instant the clock shows. */
    method ReadRecord(n: int) returns (r: Option<Record>)
      requires Valid() && n in world.state
      modifies world`now, world`log
      ensures Valid() && old(world.now) <= world.now && View() == old(View()).(now := world.now)
      ensures Continues(old(world.log), world.log, 0, 0)
      ensures r == Read(world.cfg, n, world.state[n], world.now)
      ensures r.None? ==> OddStatus(world.state)
    {
      hide World.Sound, Read, Inv, OddStatus;
      var t := world.Clock(failed);
      r := ReadFile(n, world.state[n], t);
      world.Reached(failed);
      if r.None? { UnreadableIsOdd(world.cfg, View(), n, t); }
    }

    /** The checks of `read` and `readCompact`, one after the other. */
    method ReadFile(n: int, f: StateFile, t: Time) returns (r: Option<Record>)
      ensures r == Read(world.cfg, n, f, t)
    {
      hide ParsePayload, SafeReason, CiRunIdPattern, Sha256Pattern;
      match f {
        case Compact(c) =>
          if c.version != 2 || c.binding != world.cfg.bindingDigest || c.sourceId != world.cfg.binding.sourceId || c.number != n
             || !Sha256Pattern(c.digest) || !CiRunIdPattern(c.ciRunId) || c.delivered == 0 || c.compacted < c.delivered + 7 * DAY {
            return None;
          }
          return Some(Record(2, c.binding, c.number, [], c.digest, Compacted, NoCode, NoDisposition, 0, 0,
                             None, 0, 0, c.compacted, Some(c.delivered), c.ciRunId, []));
        case Full(q) =>
          if q.httpStatus != 0 && (q.httpStatus < 100 || q.httpStatus > 599) {
            return None;
          }
          if q.version != 1 || q.binding != world.cfg.bindingDigest || q.number != n || |q.payload| > 16384
             || q.digest != world.cfg.codec.digest(q.payload) || q.rounds < 0 || q.rounds > 12 || |q.resets| > 128
             || q.created == 0 || q.updated < q.created || q.next == 0 {
            return None;
          }
          if q.first.None? != (q.rounds == 0) || (q.first.Some? && (q.first.value == 0 || q.first.value < q.created)) {
            return None;
          }
          var ok := CheckStatus(q);
          if !ok || (!q.status.Delivered? && (q.delivered.Some? || q.ciRunId != "")) {
            return None;
          }
          if !q.status.Blocked? {
            var parse := ReadPayload(world.cfg.codec, q.payload, t);
            if !parse.Accepted? || parse.facts.version != 1 || parse.facts.job != world.cfg.binding.job || parse.facts.number != q.number {
              return None;
            }
          }
          return Some(q);
      }
    }

    /** The checks that depend on the state a record is in. */
    method CheckStatus(q: Record) returns (ok: bool)
      ensures ok == StatusRules(q)
    {
      hide SafeReason, CiRunIdPattern;
      match q.status {
        case Pending => return q.rounds == 0 && q.reason.NoCode? && q.disposition.NoDisposition?;
        case InFlight => return q.rounds >= 1 && q.reason.NoCode? && q.disposition.NoDisposition?;
        case RetryWait => return q.rounds >= 1 && q.disposition.Retry? && SafeReason(q.reason);
        case Blocked => return SafeReason(q.reason) && (q.disposition.Block? || q.disposition.Pause?);
        case Delivered =>
          return q.rounds >= 1 && q.delivered.Some? && q.delivered.value >= q.created && CiRunIdPattern(q.ciRunId)
                 && q.reason.NoCode? && q.disposition.NoDisposition?;
        case Compacted => return false;
        case OtherStatus(_) => return false;
      }
    }

    /**
     `atomicSpoolWrite` of a state file. A fault before the rename leaves the old file and perhaps a temporary
     one; a fault after it is reported although the new file is in place. The size guard in front of it is
     not needed: every file of the worker fits.
     */
    method WriteState(n: int, f: StateFile, ghost w: Write) returns (err: Option<SpoolError>)
      requires Valid() && !failed && MayWrite(world.cfg, View(), w) && !w.Acknowledge? && n == w.build
      requires Writable(View(), w) && f == Written(world.cfg, View(), w)
      modifies this`failed, world`state, world`stateTemps, world`stateTempBytes, world`phase, world`log
      ensures Valid() && Continues(old(world.log), world.log, 0, if w.Reset? then 1 else 0)
      ensures err.None? ==> View() == Renamed(world.cfg, old(View()), w).(phase := PhaseAfter(old(View()), w))
      ensures err.Some? ==> err == Some(IoFailed) && failed && HalfWritten(world.cfg, old(View()), w, View())
    {
      hide Legal, After, Initial, ValidConfig, MayWrite, Written, SizeOf, Renamed, Writable, Enabled, Apply, TotalSends, TotalResets;
      ghost var before := View();
      FitsBeforeWrite(before, w);
      RenamedState(world.cfg, before, w);
      CommitSteps(world.cfg, before, w);
      assert SizeOf(world.cfg.codec, f) <= MAX_RECORD;
      var fault: bool := *;
      if fault {
        var leftover: bool := *;
        if leftover {
          var bytes :| bytes >= 0;
          world.stateTemps, world.stateTempBytes := world.stateTemps + 1, world.stateTempBytes + bytes;
        }
        failed := true;
        world.Note(Commit(w, Lost(leftover)), true);
        return Some(IoFailed);
      }
      world.state := world.state[n := f];
      fault := *;
      if fault {
        failed := true;
        world.Note(Commit(w, Torn), true);
        return Some(IoFailed);
      }
      world.phase := PhaseAfter(before, w);
      world.Note(Commit(w, Synced), false);
      return None;
    }

    lemma FitsBeforeWrite(before: Snap, w: Write)
      requires Valid() && before == View() && !failed && MayWrite(world.cfg, before, w) && !w.Acknowledge?
      requires Writable(before, w)
      ensures SizeOf(world.cfg.codec, Written(world.cfg, before, w)) <= MAX_RECORD
    {
      hide Legal, After, Initial, MayWrite, Written, SizeOf, Matched, FileInv;
      world.Reached(failed);
      WrittenFileOk(world.cfg, before, w);
      WrittenFileInv(world.cfg, before, w);
      OwnFilesFit(world.cfg, w.build, Written(world.cfg, before, w), world.now);
    }

    /** `atomicSpoolWrite` of an acknowledgement. */
    method WriteAck(n: int, a: Ack) returns (err: Option<SpoolError>)
      requires Valid() && !failed && n in world.state && MayWrite(world.cfg, View(), Write.Acknowledge(n)) && a == AckOf(world.cfg, n, DigestOf(world.state[n]))
      modifies this`failed, world`acks, world`ackTemps, world`ackTempBytes, world`log
      ensures Valid() && Continues(old(world.log), world.log, 0, 0)
      ensures err.None? ==> View() == Renamed(world.cfg, old(View()), Write.Acknowledge(n))
      ensures err.Some? ==> err == Some(IoFailed) && failed && HalfWritten(world.cfg, old(View()), Write.Acknowledge(n), View())
    {
      hide Legal, After, Initial, ValidConfig, MayWrite, Enabled, Apply, TotalSends, TotalResets;
      ghost var w := Write.Acknowledge(n);
      CommitSteps(world.cfg, View(), w);
      var fault: bool := *;
      if fault {
        var leftover: bool := *;
        if leftover {
          var bytes :| bytes >= 0;
          world.ackTemps, world.ackTempBytes := world.ackTemps + 1, world.ackTempBytes + bytes;
        }
        failed := true;
        world.Note(Commit(w, Lost(leftover)), true);
        return Some(IoFailed);
      }
      world.acks := world.acks[n := a];
      fault := *;
      if fault {
        failed := true;
        world.Note(Commit(w, Torn), true);
        return Some(IoFailed);
      }
      world.Note(Commit(w, Synced), false);
      return None;
    }

    /** `save`: refuses an unusable or overfull spool, then replaces one record. */
    method Save(r: Record, ghost w: Write) returns (err: Option<SpoolError>)
      requires Valid() && !failed && MayWrite(world.cfg, View(), w) && !w.Acknowledge? && !w.Compaction?
      requires Writable(View(), w) && Full(r) == Written(world.cfg, View(), w) && r.number == w.build
      modifies this`failed, this`slots, world`now, world`state, world`stateTemps, world`stateTempBytes, world`phase, world`log
      ensures Valid() && old(world.now) <= world.now && Continues(old(world.log), world.log, 0, if w.Reset? then 1 else 0)
      ensures err.None? ==> Usable()
      ensures err.None? ==> View() == Renamed(world.cfg, old(View()), w).(phase := PhaseAfter(old(View()), w), now := world.now)
      ensures err.Some? ==> (failed || !Usable()) && HalfWritten(world.cfg, old(View()), w, View())
      ensures err in {None, Some(IoFailed), Some(CapacityError), Some(StateError)} && (err.Some? ==> Excused(err.value))
    {
      hide World.Sound, MayWrite, Written, Writable, Renamed, TotalSends, TotalResets, World.WithinCapacity, World.TotalBytes, World.ProperInput,
           World.Slots, World.Oversized, AckMatches, OddStatus;
      if !writeable || !locked || failed {
        return Some(IoFailed);
      }
      var _, size, e := Inventory();
      if e.Some? {
        MarkFailed(e.value);
        return e;
      }
      if size + 32768 > 536870912 {
        MarkFailed(CapacityError);
        return Some(CapacityError);
      }
      AgedWrite(world.cfg, old(View()), w, world.now);
      RenamedState(world.cfg, old(View()), w);
      WrittenAges(world.cfg, old(View()), w, world.now);
      err := WriteState(r.number, Full(r), w);
    }

    /** `acknowledge`: writes the acknowledgement of a finished record unless it is there already. */
    method Acknowledge(n: int, r: Record) returns (err: Option<SpoolError>)
      requires Valid() && View().phase.Idle? && DoneAt(View(), n) && r.digest == DigestOf(world.state[n])
      modifies this`failed, this`slots, world`now, world`acks, world`ackTemps, world`ackTempBytes, world`log
      ensures Valid() && Continues(old(world.log), world.log, 0, 0) && old(world.now) <= world.now
      ensures world.acks == old(world.acks) || world.acks == old(world.acks)[n := AckOf(world.cfg, n, r.digest)]
      ensures err.None? ==> n in world.acks && world.acks[n] == AckOf(world.cfg, n, r.digest) && failed == old(failed)
      ensures err.Some? ==> Excused(err.value)
    {
      hide World.Slots, World.Sound, World.WithinCapacity, World.TotalBytes, World.ProperInput, AckMatches, OddStatus, World.Oversized;
      var want := Ack(1, world.cfg.binding.sourceId, n, r.digest);
      AckIsOwn(n);
      if n in world.acks {
        return if world.acks[n] == want then None else Some(StateError);
      }
      if !writeable || failed {
        return Some(IoFailed);
      }
      var _, size, e := Inventory();
      if e.Some? {
        return e;
      }
      if size + AckSize(want) > 536870912 {
        return Some(CapacityError);
      }
      err := WriteAck(n, want);
    }

    lemma AckIsOwn(n: int)
      requires Valid() && DoneAt(View(), n)
      ensures n in world.acks ==> world.acks[n] == AckOf(world.cfg, n, DigestOf(world.state[n]))
      ensures AckSize(AckOf(world.cfg, n, DigestOf(world.state[n]))) <= MAX_RECORD
    {
      hide Legal, After, Initial, Matched, FileInv;
      world.Reached(failed);
      assert FileOk(world.cfg, View(), n);
      OwnFilesFit(world.cfg, n, world.state[n], world.now);
    }

    /** The part of `Import` for a build that has a record: its bytes must be the ones first imported. */
    method CompareInput(n: int, body: Bytes, ghost start: Snap) returns (err: Option<SpoolError>)
      requires Valid() && n in world.state && n in world.input && body == world.input[n] && Imported(world.cfg, start, View())
      modifies world`now, world`log
      ensures Valid() && Imported(world.cfg, start, View()) && Continues(old(world.log), world.log, 0, 0)
      ensures View() == old(View()).(now := world.now) && old(world.now) <= world.now
      ensures err in {None, Some(StateError), Some(ConflictError)}
      ensures err.None? ==> InStep(world.cfg, world.input, world.state, n)
      ensures err == Some(ConflictError) ==> !InStep(world.cfg, world.input, world.state, n)
      ensures err.Some? ==> Excused(err.value)
    {
      hide World.Sound, Read, Imported, OddStatus;
      var r := ReadRecord(n);
      ImportedAges(world.cfg, start, old(View()), View());
      if r.None? {
        return Some(StateError);
      }
      ReadDigest(world.cfg, n, world.state[n], world.now);
      return if r.value.digest == world.cfg.codec.digest(body) then None else Some(ConflictError);
    }

    /** The part of `Import` for a build without a record. */
    method ImportNew(n: int, body: Bytes, ghost start: Snap) returns (err: Option<SpoolError>)
      requires Valid() && !failed && View().phase.Idle? && n !in world.state && n in world.input && body == world.input[n]
      requires InRange(world.cfg, n) && |body| <= MAX_BODY && |world.state| < MAX_ENTRIES && Imported(world.cfg, start, View())
      modifies this`failed, this`slots, world`now, world`state, world`stateTemps, world`stateTempBytes, world`phase, world`log
      ensures Valid() && Imported(world.cfg, start, View()) && Continues(old(world.log), world.log, 0, 0)
      ensures |world.state| <= |old(world.state)| + 1 && View().phase == old(View().phase) && old(world.now) <= world.now
      ensures forall m | m != n :: m in world.state <==> m in old(world.state)
      ensures forall m | m != n && m in world.state :: world.state[m] == old(world.state)[m]
      ensures err.None? ==> Usable() && |world.state| == |old(world.state)| + 1 && InStep(world.cfg, world.input, world.state, n)
      ensures err != Some(ConflictError) && (err.Some? ==> Excused(err.value)) && err in {None, Some(IoFailed), Some(StateError), Some(CapacityError), Some(ConflictError)}
    {
      hide Renamed, HalfWritten, InStep, Legal, After, Initial, ValidConfig, MayWrite, Imported, ImportRecord, InRange, Inv, Excused;
      var cfg := world.cfg;
      var now := world.Clock(failed);
      ImportedAges(cfg, start, old(View()), View());
      ghost var before := View();
      world.Reached(failed);
      ImportAllowed(cfg, before, n, body);
      ImportIdentity(cfg, n, body, now);
      var r := DraftImport(n, body, now);
      err := Save(r, Write.Import(n, body, now));
      ImportEffect(cfg, start, before, View(), n, body, err.None?);
    }

    /** The record of a first import, field by field and refusal by refusal. */
    method DraftImport(n: int, body: Bytes, now: Time) returns (r: Record)
      ensures r == ImportRecord(world.cfg, n, body, now)
    {
      hide ParsePayload;
      r := Record(1, world.cfg.bindingDigest, n, body, world.cfg.codec.digest(body), Pending, NoCode, NoDisposition,
                  0, 0, None, now, now, now, None, "", []);
      var parse := ReadPayload(world.cfg.codec, body, now);
      var error: Option<SendError> := None;
      var known, version, job, number := false, 1, "", 0;
      match parse {
        case Accepted(p) => known, version, job, number := true, p.version, p.job, p.number;
        case NotCompleted(v, j, m) => known, version, job, number, error := true, v, j, m, Some(ErrRunNotCompleted);
        case UnsupportedResult(v, j, m) => known, version, job, number, error := true, v, j, m, Some(ErrUnsupportedResult);
        case Invalid => error := Some(ErrInvalid);
      }
      if known && version == 2 {
        known, error := false, Some(ErrInvalid);
      }
      if error.Some? {
        var f := ClassifyDelivery(error.value);
        r := r.(status := Blocked, reason := f.code, disposition := f.disposition);
      }
      if known && (number != n || job != world.cfg.binding.job) {
        r := r.(status := Blocked, reason := SourceBindingMismatch, disposition := Disposition.Pause);
      }
    }

    /** One name of the input directory. */
    method ImportName(numbers: seq<int>, names: seq<int>, i: nat, added: nat, ghost start: Snap)
      returns (err: Option<SpoolError>, addedNow: nat)
      requires Valid() && Usable() && View().phase.Idle? && i < |names| && added <= IMPORT_BATCH
      requires Progress(world.cfg, start, View(), names, i, added) && |numbers| == |start.state|
      requires names[i] in world.input && InRange(world.cfg, names[i]) && names[i] !in names[..i]
      requires forall n :: n in numbers <==> n in start.state
      modifies this`failed, this`slots, world`now, world`state, world`stateTemps, world`stateTempBytes, world`phase, world`log
      ensures Valid() && View().phase.Idle? && old(world.now) <= world.now && Continues(old(world.log), world.log, 0, 0)
      ensures err.None? ==> Usable() && addedNow <= IMPORT_BATCH && Progress(world.cfg, start, View(), names, i + 1, addedNow)
      ensures Imported(world.cfg, start, View()) && |world.state| <= |start.state| + IMPORT_BATCH
      ensures err == Some(ConflictError) ==> names[i] in world.state && !InStep(world.cfg, world.input, world.state, names[i])
      ensures (err.Some? ==> Excused(err.value)) && err in {None, Some(IoFailed), Some(StateError), Some(CapacityError), Some(ConflictError)}
    {
      hide World.Sound, Imported, InStep, InRange, Progress, TotalSends, TotalResets;
      err, addedNow := None, added;
      var n := names[i];
      ghost var before := View();
      ProgressFacts(world.cfg, start, before, names, i, added);
      if n !in numbers && added >= 100 {
        ProgressSkips(world.cfg, start, before, names, i);
        return;
      }
      var body := world.input[n];
      if |body| > MAX_BODY {
        return Some(StateError), added;
      }
      if n in numbers {
        err := CompareInput(n, body, start);
        if err.None? { ProgressKeeps(world.cfg, start, before, View(), names, i, added); }
        return;
      }
      if |numbers| + added >= 10000 {
        return Some(CapacityError), added;
      }
      ProgressNew(world.cfg, start, before, names, i, added);
      err := ImportNew(n, body, start);
      if err.None? {
        ProgressGrows(world.cfg, start, before, View(), names, i, added);
        addedNow := added + 1;
      }
    }

    /** The loop of `Import` over all names. */
    method ImportNames(numbers: seq<int>, names: seq<int>, ghost start: Snap) returns (err: Option<SpoolError>)
      requires Valid() && Usable() && View().phase.Idle? && Progress(world.cfg, start, View(), names, 0, 0)
      requires |numbers| == |start.state| && (forall n :: n in numbers <==> n in start.state)
      requires (forall n :: n in names <==> n in world.input) && (forall n | n in names :: InRange(world.cfg, n))
      requires ByName(names) && forall i | 0 <= i < |names| :: names[i] !in names[..i]
      modifies this`failed, this`slots, world`now, world`state, world`stateTemps, world`stateTempBytes, world`phase, world`log
      ensures Valid() && View().phase.Idle? && old(world.now) <= world.now && Continues(old(world.log), world.log, 0, 0)
      ensures Imported(world.cfg, start, View()) && |world.state| <= |start.state| + IMPORT_BATCH
      ensures err.None? ==> Usable() && forall n | n in world.input :: TakenOrLeft(world.cfg, world.input, start.state, world.state, n)
      ensures (err.Some? ==> Excused(err.value)) && err in {None, Some(IoFailed), Some(StateError), Some(CapacityError), Some(ConflictError)}
    {
      hide World.Sound, Imported, InStep, InRange, Progress, ByName, TakenOrLeft, TotalSends, TotalResets, Excused;
      ghost var keys := world.input.Keys;
      assert forall n | n in names :: n in keys;
      var added := 0;
      var i := 0;
      ProgressFacts(world.cfg, start, View(), names, i, added);
      while i < |names|
        invariant 0 <= i <= |names| && 0 <= added <= IMPORT_BATCH
        invariant Valid() && Usable() && View().phase.Idle? && Continues(old(world.log), world.log, 0, 0)
        invariant old(world.now) <= world.now && Progress(world.cfg, start, View(), names, i, added)
      {
        assert names[i] in names && names[i] in keys;
        err, added := ImportName(numbers, names, i, added, start);
        if err.Some? {
          return;
        }
        i := i + 1;
      }
      ProgressFacts(world.cfg, start, View(), names, i, added);
      ProgressDone(world.cfg, start, View(), names, added);
      return None;
    }

    /**
     `Import`: at most one hundred new records, in the order of their names, each made from the bytes the producer
     published. Existing records are only compared: a different digest is a conflict and changes nothing.
     */
    method Import() returns (err: Option<SpoolError>)
      requires Valid() && Ready()
      modifies this`failed, this`slots, world`now, world`state, world`stateTemps, world`stateTempBytes, world`phase, world`log
      ensures Valid() && Ready() && old(world.now) <= world.now && Continues(old(world.log), world.log, 0, 0)
      ensures Imported(world.cfg, old(View()), View()) && |world.state| <= |old(world.state)| + IMPORT_BATCH
      ensures err.None? ==> Usable() && forall n | n in world.input :: TakenOrLeft(world.cfg, world.input, old(world.state), world.state, n)
      ensures (err.Some? ==> Excused(err.value)) && err in {None, Some(IoFailed), Some(StateError), Some(CapacityError), Some(ConflictError)}
    {
      hide World.Crowded, World.Oversized, OddStatus, World.Sound, World.WithinCapacity, World.TotalBytes, World.ProperInput, World.Slots, AckMatches, Imported, InStep,
           Listing, Ascending, ByName, TakenOrLeft, InRange, Progress, Sum, TotalSends, TotalResets;
      ghost var start := View();
      NothingImported(world.cfg, start);
      if !writeable || failed || !locked {
        return Some(IoFailed);
      }
      var numbers, _, e := Inventory();
      ImportedAges(world.cfg, start, start, View());
      if e.Some? {
        return e;
      }
      var names, _, ok := world.ListInput();
      if !ok {
        return Some(CapacityError);
      }
      world.InputRange();
      assert forall n | n in world.input.Keys :: 0 <= n by { PositiveRange(); }
      names := SortedByName(world.input.Keys);
      Listed(names, world.input.Keys);
      assert forall n :: n in names <==> n in world.input;
      Listed(numbers, world.state.Keys);
      assert forall n :: n in numbers <==> n in world.state;
      ListingSize(numbers, world.state.Keys);
      Unrepeated(names, world.input.Keys);
      NoProgress(world.cfg, start, View(), names);
      err := ImportNames(numbers, names, start);
    }

    lemma PositiveRange()
      requires forall n | n in world.input :: InRange(world.cfg, n)
      ensures forall n | n in world.input :: 0 <= n
    {
    }

    /** One record of the scan in `tick`, at the instant `at` the tick has read. */
    method ScanOne(numbers: seq<int>, i: nat, at: Time, chosen: Option<Record>, paused: bool)
      returns (best: Option<Record>, pausedNow: bool, err: Option<SpoolError>)
      requires Valid() && Usable() && View().phase.Idle? && at <= world.now
      requires i < |numbers| && Ascending(numbers) && (forall n | n in numbers :: n in world.state)
      requires Scanned(View(), numbers, i, at, chosen, paused)
      modifies this`failed, this`slots, world`now, world`state, world`stateTemps, world`acks, world`ackTemps, world`stateTempBytes, world`ackTempBytes, world`phase, world`log
      ensures Valid() && View().phase.Idle? && old(world.now) <= world.now && Continues(old(world.log), world.log, 0, 0)
      ensures world.state.Keys == old(world.state.Keys)
      ensures err.None? ==> Usable() && Scanned(View(), numbers, i + 1, at, best, pausedNow)
      ensures forall n | n != numbers[i] && n in world.state :: world.state[n] == old(world.state)[n]
      ensures KeptOrExhausted(old(world.state), world.state, numbers[i], at)
      ensures err.None? || Excused(err.value) || (err == Some(StateError) && ChangedAfter(old(world.state), numbers[i], at))
    {
      hide KeptOrExhausted, ExhaustedRecord, Renamed, World.Sound, Scanned, MayWrite, TotalSends, TotalResets, Read, Exhausted, FirstDue, Ascending, Excused;
      best, pausedNow, err := chosen, paused, None;
      var n := numbers[i];
      assert n in numbers;
      ghost var before := View();
      Untouched(world.state, n, at);
      var read := ReadRecord(n);
      if read.None? {
        OddIsExcused();
        MarkFailed(StateError);
        return best, pausedNow, Some(StateError);
      }
      var r := read.value;
      ReadShape(world.cfg, n, world.state[n], world.now);
      if Finished(r) {
        err := Acknowledge(n, r);
        if err.None? { ScanFinished(before, View(), numbers, i, at, chosen, paused); }
        return;
      }
      if at < r.updated {
        return best, pausedNow, Some(StateError);
      }
      if r.status.Blocked? {
        pausedNow := paused || r.disposition.Pause?;
        ScanBlocked(before, View(), numbers, i, at, chosen, paused);
        return;
      }
      if r.rounds >= 12 || (r.first.Some? && at >= r.first.value + 24 * HOUR) {
        ExhaustedIsPast(r, at);
        ghost var full := View();
        err := BlockExhausted(n, r, at);
        if err.None? { ScanExhausted(world.cfg, before, full, View(), numbers, i, at, chosen, paused); }
        return;
      }
      ExhaustedIsPast(r, at);
      if r.next <= at && (chosen.None? || r.next < chosen.value.next) {
        best := Some(r);
      }
      ScanLive(before, View(), numbers, i, at, chosen, paused);
    }

    lemma ExhaustedIsPast(r: Record, at: Time)
      ensures Exhausted(r, at) <==> r.rounds >= 12 || (r.first.Some? && at >= r.first.value + 24 * HOUR)
    {
    }

    /** Blocks a record past its budget. */
    method BlockExhausted(n: int, r: Record, at: Time) returns (err: Option<SpoolError>)
      requires Valid() && Usable() && View().phase.Idle? && at <= world.now && n in world.state && world.state[n] == Full(r)
      requires r.number == n && Live(r) && Exhausted(r, at) && r.updated <= at
      modifies this`failed, this`slots, world`now, world`state, world`stateTemps, world`stateTempBytes, world`phase, world`log
      ensures Valid() && View().phase.Idle? && old(world.now) <= world.now && Continues(old(world.log), world.log, 0, 0)
      ensures world.state.Keys == old(world.state.Keys) && KeptOrExhausted(old(world.state), world.state, n, at)
      ensures forall m | m != n && m in world.state :: world.state[m] == old(world.state)[m]
      ensures err.None? ==> Usable() && LiveAt(old(View()), n)
      ensures err.None? ==>
        View() == Renamed(world.cfg, old(View()), Exhaust(n, at)).(phase := old(View()).phase, now := world.now)
      ensures err.Some? ==> Excused(err.value)
    {
      hide World.Sound, MayWrite, TotalSends, TotalResets, Excused, Exhausted;
      ExhaustAllowed(world.cfg, View(), n, at);
      ExhaustedGiven(r, at);
      err := Save(r.(status := Blocked, reason := RetryExhausted, disposition := Block, updated := at), Exhaust(n, at));
    }

    /** A record whose last change lies after the instant the tick works at. */
    ghost predicate ChangedAfter(state: map<int, StateFile>, n: int, at: Time) {
      n in state && state[n].Full? && at < state[n].record.updated
    }

    /** Records of a reachable state were changed no later than now. */
    lemma NoneChangedLater()
      requires Valid()
      ensures forall n :: !ChangedAfter(world.state, n, world.now)
    {
      hide Legal, After, Initial, Matched, Consistent, ConsistentTombstone;
      world.Reached(failed);
      forall n | n in world.state && world.state[n].Full? ensures world.state[n].record.updated <= world.now {
        assert FileOk(world.cfg, View(), n);
      }
    }

    lemma SameChange(before: map<int, StateFile>, after: map<int, StateFile>, n: int, at: Time)
      requires !ChangedAfter(before, n, at) && (n in after ==> n in before && after[n] == before[n])
      ensures !ChangedAfter(after, n, at)
    {
    }

    /** The loop of `tick` over all records. */
    method Scan(numbers: seq<int>, at: Time) returns (chosen: Option<Record>, paused: bool, err: Option<SpoolError>)
      requires Valid() && Usable() && View().phase.Idle? && at <= world.now
      requires Ascending(numbers) && Listing(numbers, world.state.Keys) && forall n :: !ChangedAfter(world.state, n, at)
      modifies this`failed, this`slots, world`now, world`state, world`stateTemps, world`acks, world`ackTemps, world`stateTempBytes, world`ackTempBytes, world`phase, world`log
      ensures Valid() && View().phase.Idle? && old(world.now) <= world.now && Continues(old(world.log), world.log, 0, 0)
      ensures err.None? ==> Usable() && Scanned(View(), numbers, |numbers|, at, chosen, paused) && Listing(numbers, world.state.Keys)
      ensures ScanFrame(old(world.state), world.state, at)
      ensures err.Some? ==> Excused(err.value)
    {
      hide World.Sound, Scanned, TotalSends, TotalResets, Listing, Excused, ChangedAfter, ScanFrame, KeptOrExhausted;
      Listed(numbers, world.state.Keys);
      Unrepeated(numbers, world.state.Keys);
      NothingFramed(world.state, at);
      assert forall n | n in numbers :: n in world.state;
      chosen, paused, err := None, false, None;
      NothingScanned(View(), numbers, at);
      var i := 0;
      while i < |numbers|
        invariant 0 <= i <= |numbers|
        invariant Valid() && Usable() && View().phase.Idle? && old(world.now) <= world.now
        invariant Continues(old(world.log), world.log, 0, 0) && world.state.Keys == old(world.state.Keys)
        invariant forall n | n in numbers :: n in world.state
        invariant Scanned(View(), numbers, i, at, chosen, paused) && err.None?
        invariant forall j | i <= j < |numbers| :: !ChangedAfter(world.state, numbers[j], at)
        invariant forall j | i <= j < |numbers| :: numbers[j] in old(world.state) && world.state[numbers[j]] == old(world.state)[numbers[j]]
        invariant ScanFrame(old(world.state), world.state, at)
      {
        ghost var keys, before := world.state.Keys, world.state;
        chosen, paused, err := ScanOne(numbers, i, at, chosen, paused);
        FrameOneMore(old(world.state), before, world.state, numbers[i], at);
        if err.Some? {
          return;
        }
        assert forall n | n in numbers :: n in keys && n in world.state.Keys;
        forall j | i < j < |numbers| ensures !ChangedAfter(world.state, numbers[j], at) {
          SameChange(before, world.state, numbers[j], at);
        }
        i := i + 1;
      }
    }

    /** Saves the reservation of a round: from here on a crash has used the round up. */
    method ReserveRound(r: Record, at: Time, numbers: seq<int>, first: Instant) returns (reserved: Record, err: Option<SpoolError>)
      requires Valid() && Usable() && View().phase.Idle? && at <= world.now
      requires Scanned(View(), numbers, |numbers|, at, Some(r), false) && Listing(numbers, world.state.Keys)
      requires first.at == if r.first.None? then at else r.first.value
      modifies this`failed, this`slots, world`now, world`state, world`stateTemps, world`stateTempBytes, world`phase, world`log
      ensures Valid() && old(world.now) <= world.now && Continues(old(world.log), world.log, 0, 0)
      ensures reserved == ReservedRecord(r, at)
      ensures InRange(world.cfg, r.number) && LiveAt(old(View()), r.number) && FirstDue(old(View()), r.number, at)
      ensures old(View()).state[r.number] == Full(r) && r.next <= at && !Exhausted(r, at)
      ensures 0 <= r.number && 0 <= r.rounds && (r.first.None? <==> r.rounds == 0)
      ensures err.None? ==> Usable() && world.phase == Reserved(r.number) && r.number in world.state
      ensures err.None? ==> world.state[r.number] == Full(reserved)
      ensures (err.Some? ==> failed) && (err.Some? ==> Excused(err.value))
      ensures world.state == old(world.state) || world.state == old(world.state)[r.number := Full(reserved)]
    {
      hide World.Sound, Scanned, MayWrite, TotalSends, TotalResets, FirstDue, Exhausted, Listing, Inv, InRange, Excused;
      world.Reached(failed);
      ChoiceIsFirst(world.cfg, View(), numbers, at, r);
      reserved := r.(first := Some(first.at), rounds := r.rounds + 1, status := InFlight, reason := NoCode,
                     disposition := NoDisposition, httpStatus := 0, updated := at);
      err := Save(reserved, Reserve(r.number, at));
    }

    /** The one call of `sendOne`; the producer may publish and the receiver may commit while it lasts. */
    method SendOne(n: nat, body: Bytes, configured: bool) returns (result: SendResult, posts: nat)
      requires Valid() && !failed && world.phase == Reserved(n)
      requires n in world.state && world.state[n].Full? && world.state[n].record.payload == body
      modifies world`input, world`extras, world`published, world`now, world`phase, world`log, world.store
      ensures Valid() && old(world.now) <= world.now && world.phase == Answered(n, result)
      ensures Continues(old(world.log), world.log, 1, 0)
      ensures posts <= Sender.MAX_ATTEMPTS
    {
      hide DeliveryKey, ClaimKey, Sender.Concludes, Sender.Settled, ParsePayload, Legal, After, Initial, TotalSends, TotalResets, Enabled, Apply, LedgerAfter, Deliver, AnswerFits, Controlled, CiRunIdPattern;
      world.Interfere(failed);
      var t := world.Clock(failed);
      world.SoundConfig(failed);
      ghost var facts := PayloadFacts(world.cfg, body, t);
      RoundIsSendable(n);
      ghost var reached, id;
      var waited;
      ghost var before := View();
      ghost var answers;
      result, posts, waited, reached, id, answers := Sender.Send(
        configured, world.cfg.codec, world.cfg.printer, world.cfg.source, body, t, world.store);
      SendStep(world.cfg, before, n, reached, facts, id, result, world.store.Contents());
      world.phase := Answered(n, result);
      world.Note(Send(n, reached, facts, id, result), failed);
    }

    /** The reserved record's payload still parses, to the key of its own build. */
    lemma RoundIsSendable(n: nat)
      requires Valid() && !failed && world.phase == Reserved(n)
      ensures n in world.state && world.state[n].Full?
      ensures ParsePayload(world.cfg.codec, world.state[n].record.payload, world.now).Accepted?
      ensures var p := ParsePayload(world.cfg.codec, world.state[n].record.payload, world.now).facts;
        ClaimKey(world.cfg.binding.workspaceId, world.cfg.binding.sourceId, p) == DeliveryKey(world.cfg, n)
    {
      hide Legal, After, Initial, ParsePayload;
      RoundClaimsOwnKey(world.cfg, world.start, world.log, n);
    }

    /** The record a round leaves, built field by field; `first` may be the very variable `clock`. */
    method Outcome(reserved: Record, result: SendResult, clock: Instant, first: Instant) returns (r: Record)
      requires reserved.rounds >= 1 && reserved.first.Some?
      requires first.at == if reserved.rounds == 1 then clock.at else reserved.first.value
      ensures r == OutcomeRecord(world.cfg, reserved, result, clock.at)
    {
      r := reserved.(updated := clock.at, first := Some(first.at));
      match if result.Sent? && !CiRunIdPattern(result.ciRunId) then SendFailed(ErrResponse) else result {
        case Sent(id) =>
          r := r.(status := Delivered, ciRunId := id, delivered := Some(clock.at));
        case SendFailed(e) =>
          var f := ClassifyDelivery(e);
          r := r.(reason := f.code, disposition := f.disposition, httpStatus := f.httpStatus);
          if f.disposition.Retry? && r.rounds < MAX_ROUNDS && clock.at < first.at + WINDOW {
            r := r.(status := RetryWait, next := clock.at + Backoff.SpoolDelay(world.cfg.codec.jitter(r.digest, r.rounds), r.rounds));
          } else {
            r := r.(status := Blocked);
            if f.disposition.Retry? {
              r := r.(reason := RetryExhausted, disposition := Block);
            }
          }
      }
    }

    /** Stores what became of a round, and acknowledges it if it delivered. */
    method Conclude(reserved: Record, result: SendResult, clock: Instant, first: Instant) returns (err: Option<SpoolError>, ghost stored: Record)
      requires Valid() && Usable() && world.phase == Answered(reserved.number, result)
      requires reserved.number in world.state && world.state[reserved.number] == Full(reserved)
      requires reserved.status.InFlight? && reserved.disposition.NoDisposition? && reserved.rounds >= 1 && reserved.first.Some? && reserved.updated <= world.now
      requires if reserved.rounds == 1 then first == clock else first != clock && first.at == reserved.first.value
      modifies this`failed, this`slots, world`now, world`state, world`stateTemps, world`acks, world`ackTemps, world`stateTempBytes, world`ackTempBytes,
               world`phase, world`log, clock
      ensures Valid() && old(world.now) <= world.now && Continues(old(world.log), world.log, 0, 0)
      ensures stored == OutcomeRecord(world.cfg, reserved, result, clock.at) && old(world.now) <= clock.at <= world.now
      ensures failed || (world.phase.Idle? && reserved.number in world.state && world.state[reserved.number] == Full(stored))
      ensures err.None? ==> !failed && (stored.status.Delivered? ==> reserved.number in world.acks)
      ensures world.state == old(world.state) || world.state == old(world.state)[reserved.number := Full(stored)]
      ensures err.Some? ==> Excused(err.value)
    {
      hide World.Sound, MayWrite, TotalSends, TotalResets, Inv, OutcomeRecord, World.Crowded, World.ProperInput, World.Oversized, OddStatus, InStep;
      var n := reserved.number;
      clock.at := world.Clock(failed);
      var r := Outcome(reserved, result, clock, first);
      stored := r;
      ConcludeAllowed(world.cfg, View(), n, clock.at);
      OutcomeNumber(world.cfg, reserved, result, clock.at);
      err := Save(r, Write.Conclude(n, clock.at));
      if err.None? {
        if r.status.Delivered? {
          err := Acknowledge(n, r);
        } else if r.disposition.Pause? {
          assert n in View().state && View().state[n] == Full(r);
          err := Some(PausedError);
        }
      }
    }

    /** The first half of `tick`: import, list, read the clock once and scan. */
    method Prepare() returns (numbers: seq<int>, now: Time, chosen: Option<Record>, paused: bool, err: Option<SpoolError>)
      requires Valid() && Ready()
      modifies this`failed, this`slots, world
      ensures Valid() && old(world.now) <= world.now && Ready() && now <= world.now
      ensures Continues(old(world.log), world.log, 0, 0)
      ensures Prepared(world.cfg, old(View()), View(), now) && old(world.now) <= now
      ensures err.None? ==> Usable() && Scanned(View(), numbers, |numbers|, now, chosen, paused) && Listing(numbers, world.state.Keys)
      ensures err.None? ==> AllInStep(world.cfg, View())
      ensures err.Some? ==> Excused(err.value)
    {
      hide World.Sound, World.ProperInput, World.WithinCapacity, World.TotalBytes, World.Slots, World.Crowded, World.Oversized,
           OddStatus, ChangedAfter, Scanned, TotalSends, TotalResets, Listing, Ascending, Imported, InStep, InRange, AckMatches,
           KeptOrExhausted, MadeFrom, ScanFrame, AllInStep, NewComeBefore;
      numbers, now, chosen, paused := [], world.now, None, false;
      ghost var before := View();
      NothingPrepared(world.cfg, before);
      if !writeable || failed || !locked {
        err := Some(IoFailed);
        return;
      }
      err := Import();
      ImportIsPrepared(world.cfg, before, View());
      if err.Some? {
        now := world.now;
        MarkFailed(err.value);
        return;
      }
      ghost var imported := View();
      var total;
      numbers, total, err := Inventory();
      ImportedAges(world.cfg, before, imported, View());
      if err.Some? {
        now := world.now;
        ImportIsPrepared(world.cfg, before, View());
        return;
      }
      now := world.Clock(failed);
      NoneChangedLater();
      chosen, paused, err := Scan(numbers, now);
      ScanAfterImport(world.cfg, before, imported, View(), now);
      if err.None? { StepsAgree(world.cfg, before, imported, View(), now); }
    }

    /** The second half of `tick`: reserve, send once, conclude. */
    method RunRound(r: Record, now: Time, numbers: seq<int>, configured: bool)
      returns (worked: bool, err: Option<SpoolError>, ghost round: Round)
      requires Valid() && Usable() && View().phase.Idle? && now <= world.now
      requires Scanned(View(), numbers, |numbers|, now, Some(r), false) && Listing(numbers, world.state.Keys)
      modifies this`failed, this`slots, world, world.store
      ensures Valid() && old(world.now) <= world.now && (failed || View().phase.Idle?)
      ensures Continues(old(world.log), world.log, if worked then 1 else 0, 0)
      ensures err.None? ==> worked
      ensures worked ==> FirstInLine(round) && RoundStored(world.cfg, round, View(), err)
      ensures round.record == r && round.at == now && round.line == old(View()) && r.rounds >= 0
      ensures RoundFrame(world.cfg, round, old(world.state), world.state)
      ensures err.Some? ==> Excused(err.value)
    {
      hide InFront, GivesRound, World.Sound, Scanned, TotalSends, TotalResets, FirstDue, Exhausted, Listing, InRange, Excused, RoundFrame, OutcomeRecord,
           Inv, Sendable;
      ghost var line := View();
      worked, round := false, Round(now, line, r, SendFailed(ErrDelivery), now);
      var clock := new Instant(now);
      var first := clock;
      if r.first.Some? {
        first := new Instant(r.first.value);
      }
      ReservedFirst(line, numbers, now, r);
      var reserved;
      reserved, err := ReserveRound(r, now, numbers, first);
      ghost var mid := world.state;
      if err.Some? {
        RoundFramed(world.cfg, round, line.state, mid, mid);
        return;
      }
      var result, posts := SendOne(r.number, r.payload, configured);
      worked := true;
      ghost var stored;
      err, stored := Conclude(reserved, result, clock, first);
      round := Round(now, line, r, result, clock.at);
      FirstIsInFront(round);
      RoundGiven(world.cfg, r, result, now, clock.at);
      RoundFramed(world.cfg, round, line.state, mid, world.state);
    }

    lemma PauseIsReal(numbers: seq<int>, at: Time, chosen: Option<Record>)
      requires Scanned(View(), numbers, |numbers|, at, chosen, true)
      ensures Excused(PausedError)
    {
      var j :| 0 <= j < |numbers| && PausedAt(View(), numbers[j]);
    }

    /**
     `tick`: imports, scans every record, and gives at most one round to the record that is first in line.
     Without a round and without an error nothing is due, nothing is past its budget, nothing pauses the
     source and every finished record is acknowledged. No round is given while an input contradicts a record.
     Records other than the round's own stay as they are or are blocked as exhausted, and no budget is reset.
     Every error has the cause it names.
     */
    method Tick(configured: bool, canceled: bool) returns (worked: bool, err: Option<SpoolError>, ghost round: Round)
      requires Valid() && Ready()
      modifies this`failed, this`slots, world, world.store
      ensures Valid() && old(world.now) <= world.now && Ready()
      ensures Continues(old(world.log), world.log, if worked then 1 else 0, 0)
      ensures TickFrame(world.cfg, round, old(View()), View()) && NoResets(old(world.state), world.state)
      ensures err.None? && !worked ==> Usable() && Quiet(View(), round.at) && round.at <= world.now
      ensures err.None? ==> CleanTick(old(View()), View(), round.at, worked)
      ensures worked ==> FirstInLine(round) && RoundStored(world.cfg, round, View(), err) && AllInStep(world.cfg, round.line)
      ensures err.None? || Excused(err.value) || (err == Some(Canceled) && canceled && !worked)
    {
      hide World.Sound, Scanned, TotalSends, TotalResets, Listing, Quiet, FirstInLine, RoundStored, Excused, Prepared, NoResets, AllInStep,
           RoundFrame, NoneExhausted;
      var numbers, now, chosen, paused, e := Prepare();
      worked, err, round := false, e, EmptyRound(View(), now);
      assert TickFrame(world.cfg, round, old(View()), View());
      FrameKeepsResets(world.cfg, round, old(View()), View());
      if e.Some? {
        return;
      }
      if paused {
        PauseIsReal(numbers, now, chosen);
        err := Some(PausedError);
        return;
      }
      if chosen.None? {
        NothingDue(View(), numbers, now);
        PreparedIsClean(world.cfg, old(View()), View(), now);
        return;
      }
      if canceled {
        err := Some(Canceled);
        return;
      }
      ReservedFirst(View(), numbers, now, chosen.value);
      worked, err, round := RunRound(chosen.value, now, numbers, configured);
      FrameKeepsResets(world.cfg, round, old(View()), View());
      if err.None? { RoundIsClean(world.cfg, round, View()); }
    }

    /**
     `Retry`: resets the budget of one blocked record whose reason allows it, after an import that finds no
     conflict. Anything else is refused and leaves every record as it was.
     */
    method Retry(number: int) returns (err: Option<SpoolError>)
      requires Valid() && Ready()
      modifies this`failed, this`slots, world`now, world`state, world`stateTemps, world`stateTempBytes, world`phase, world`log
      ensures Valid() && Ready() && old(world.now) <= world.now && Continues(old(world.log), world.log, 0, 1)
      ensures err.None? ==> old(Usable()) && number in old(world.state) && !RefusesReset(old(world.state)[number])
      ensures err.None? ==> exists t :: old(world.now) <= t <= world.now && number in world.state
                                        && world.state[number].Full? && Resets(old(world.state)[number].record, world.state[number].record, t)
      ensures forall n | n != number && n in old(world.state) :: n in world.state && world.state[n] == old(world.state)[n]
      ensures number in old(world.state) && RefusesReset(old(world.state)[number]) ==>
                err.Some? && View() == old(View()).(now := world.now)
      ensures err == Some(MissingItem) ==> number !in old(world.state)
      ensures err.None? || Excused(err.value) || err == Some(MissingItem) || (err == Some(StateError) && number in old(world.state) && RefusesReset(old(world.state)[number]))
    {
      hide World.Sound, TotalSends, TotalResets, Imported, InStep, MayWrite, Excused, RefusesReset, Resets;
      var r;
      r, err := RetryTarget(number);
      if err.Some? {
        return;
      }
      ghost var before := View();
      err := Import();
      ImportedKeeps(world.cfg, before, View());
      if err.Some? {
        return;
      }
      var now := world.Clock(failed);
      var reset := r.(resets := r.resets + [now], httpStatus := 0, status := Pending, reason := NoCode,
                      disposition := NoDisposition, rounds := 0, first := None, next := now, updated := now);
      BlockedUpdated(number, r);
      MayResetExactly(Full(r));
      ResetAllowed(world.cfg, View(), number, now);
      ResetGiven(r, now);
      assert reset == ResetRecord(r, now);
      err := Save(reset, Write.Reset(number, now));
      assert err.None? ==> world.state[number] == Full(reset) && Resets(r, reset, now);
    }

    /** The refusals of `Retry`, before anything is changed. */
    method RetryTarget(number: int) returns (r: Record, err: Option<SpoolError>)
      requires Valid()
      modifies world`now, world`log
      ensures Valid() && old(world.now) <= world.now && View() == old(View()).(now := world.now)
      ensures Continues(old(world.log), world.log, 0, 0)
      ensures err.None? ==> Usable() && number in world.state && world.state[number] == Full(r) && r.number == number && !RefusesReset(world.state[number])
      ensures err == Some(MissingItem) ==> number !in world.state
      ensures number in world.state && RefusesReset(world.state[number]) ==> err.Some?
      ensures err.None? || Excused(err.value) || err == Some(MissingItem) || (err == Some(StateError) && number in world.state && RefusesReset(world.state[number]))
    {
      hide World.Sound, TotalSends, TotalResets, Read, World.ProperInput, World.Oversized, OddStatus;
      r := NO_RECORD;
      if !writeable || failed || !locked {
        return r, Some(IoFailed);
      }
      if number !in world.state {
        return r, Some(MissingItem);
      }
      var read := ReadRecord(number);
      if read.None? {
        return r, Some(StateError);
      }
      r := read.value;
      ReadShape(world.cfg, number, world.state[number], world.now);
      ReadDelivered(world.cfg, number, world.state[number], world.now);
      if !r.status.Blocked? || |r.resets| >= 128 {
        return r, Some(StateError);
      }
      if r.reason.Conflict? || r.reason.InputConflict? || r.reason.SourceBindingMismatch? || r.reason.InvalidRequest?
         || r.reason.UnsupportedResultCode? || r.reason.RunNotCompleted? {
        return r, Some(StateError);
      }
      return r, None;
    }

    lemma BlockedUpdated(n: int, r: Record)
      requires Valid() && n in world.state && world.state[n] == Full(r)
      ensures r.updated <= world.now
    {
      hide Legal, After, Initial, Matched, Consistent, Sendable;
      world.Reached(failed);
      assert FileOk(world.cfg, View(), n);
    }

    /** One record of `Status`. */
    method SurveyOne(numbers: seq<int>, i: nat, at: Time, survey: Survey)
      returns (more: Survey, entry: Item, err: Option<SpoolError>)
      requires Valid() && i < |numbers| && numbers[i] in world.state && numbers[i] !in numbers[..i]
      requires Surveyed(world.cfg, View(), numbers, i, at, survey)
      modifies world`now, world`log
      ensures Valid() && old(world.now) <= world.now && View() == old(View()).(now := world.now)
      ensures Continues(old(world.log), world.log, 0, 0) && err in {None, Some(StateError), Some(ConflictError)}
      ensures err.None? ==> Surveyed(world.cfg, View(), numbers, i + 1, at, more) && entry == ItemOf(world.state[numbers[i]])
      ensures err == Some(ConflictError) ==> numbers[i] in world.input && !InStep(world.cfg, world.input, world.state, numbers[i])
      ensures err.Some? ==> Excused(err.value)
    {
      hide World.Sound, TotalSends, TotalResets, Read, Surveyed, OddStatus, StateName, StatusText, ItemOf, DeliveredAt, Pauses;
      var n := numbers[i];
      more, entry, err := survey, Item(n, "", NoCode, 0, 0, ZERO_TIME, "", 0), None;
      var read := ReadRecord(n);
      if read.None? {
        return more, entry, Some(StateError);
      }
      var r := read.value;
      ReadShape(world.cfg, n, world.state[n], world.now);
      ReadDelivered(world.cfg, n, world.state[n], world.now);
      ReadReported(world.cfg, n, world.state[n], world.now);
      if n in world.input {
        if |world.input[n]| > MAX_BODY {
          return more, entry, Some(StateError);
        }
        if world.cfg.codec.digest(world.input[n]) != r.digest {
          return more, entry, Some(ConflictError);
        }
      }
      SurveyOneMore(world.cfg, old(View()), View(), numbers, i, at, survey);
      var name := StatusText(r.status);
      more := more.(counts := more.counts[name := more.counts[name] + 1]);
      if r.status.Blocked? && r.disposition.Pause? {
        more := more.(paused := true);
      }
      if !r.status.Delivered? && !r.status.Compacted? {
        more := more.(oldestPending := Earlier(more.oldestPending, r.created));
      }
      if r.delivered.Some? {
        more := more.(lastDelivered := Later(more.lastDelivered, r.delivered.value));
        if r.status.Delivered? && r.delivered.value + RETENTION <= at {
          more := more.(candidates := more.candidates + {n});
        }
      }
      entry := Item(r.number, name, r.reason, r.rounds, |r.resets|, r.next, r.ciRunId, r.httpStatus);
    }

    /**
     `Status`: refuses a conflicting input and reports, of all records, the counts by state, the oldest unfinished
     and the latest delivered one, whether the source is paused, which delivered ones are past their retention,
     and one item. It changes nothing but the time.
     */
    method Status(number: int) returns (report: Report, err: Option<SpoolError>)
      requires Valid()
      modifies this`slots, world`now, world`log
      ensures Valid() && old(world.now) <= world.now && View() == old(View()).(now := world.now)
      ensures Continues(old(world.log), world.log, 0, 0)
      ensures err.None? ==> old(world.now) <= report.at <= world.now && (report.survey.paused <==> Paused(View()))
      ensures err.None? ==> Tallies(world.state, world.state.Keys, report.at, report.survey)
      ensures err.None? ==> report.bytes == world.TotalBytes() && report.remaining == MAX_ENTRIES - world.Slots()
      ensures err.None? ==> report.item == if number in world.state then Some(ItemOf(world.state[number])) else None
      ensures err.None? ==> forall n | n in world.state && n in world.input :: InStep(world.cfg, world.input, world.state, n)
      ensures err.None? && number != 0 ==> number in world.state
      ensures err.None? || Excused(err.value) || (err == Some(MissingItem) && number != 0 && number !in world.state)
      ensures err in {None, Some(StateError), Some(CapacityError), Some(ConflictError), Some(MissingItem)}
      ensures err == Some(MissingItem) ==> number !in world.state
    {
      hide World.Sound, World.WithinCapacity, World.TotalBytes, World.ProperInput, World.Slots, AckMatches, Listing, Ascending,
           TotalSends, TotalResets, Surveyed, InStep, Excused, ItemOf, Tallies;
      report := Report(world.now, 0, 0, NO_SURVEY, None);
      var numbers, size, e := Inventory();
      if e.Some? {
        return report, e;
      }
      var at := world.Clock(failed);
      var survey, item;
      survey, item, err := SurveyAll(numbers, number, at);
      if err.Some? {
        return;
      }
      if number != 0 && item.None? {
        return report, Some(MissingItem);
      }
      return Report(at, size, 10000 - slots, survey, item), None;
    }

    /** The loop of `Status` over all records. */
    method SurveyAll(numbers: seq<int>, number: int, at: Time) returns (survey: Survey, item: Option<Item>, err: Option<SpoolError>)
      requires Valid() && at <= world.now && Listing(numbers, world.state.Keys)
      modifies world`now, world`log
      ensures Valid() && old(world.now) <= world.now && View() == old(View()).(now := world.now)
      ensures Continues(old(world.log), world.log, 0, 0) && err in {None, Some(StateError), Some(ConflictError)}
      ensures err.None? ==> Tallies(world.state, world.state.Keys, at, survey) && (survey.paused <==> Paused(View()))
      ensures err.None? ==> item == if number in world.state then Some(ItemOf(world.state[number])) else None
      ensures err.None? ==> forall n | n in world.state && n in world.input :: InStep(world.cfg, world.input, world.state, n)
      ensures err.Some? ==> Excused(err.value)
    {
      hide World.Sound, Listing, TotalSends, TotalResets, Surveyed, InStep, Excused, ItemOf, Tallies;
      Listed(numbers, world.state.Keys);
      Unrepeated(numbers, world.state.Keys);
      ghost var keys := world.state.Keys;
      assert forall n | n in numbers :: n in keys;
      survey, item, err := NO_SURVEY, None, None;
      var i := 0;
      NothingSurveyed(world.cfg, View(), numbers, at);
      while i < |numbers|
        invariant 0 <= i <= |numbers| && err.None?
        invariant Valid() && at <= world.now && old(world.now) <= world.now && View() == old(View()).(now := world.now)
        invariant Continues(old(world.log), world.log, 0, 0)
        invariant Surveyed(world.cfg, View(), numbers, i, at, survey)
        invariant if number in numbers[..i] then number in world.state && item == Some(ItemOf(world.state[number])) else item == None
      {
        assert numbers[i] in numbers && numbers[i] in keys;
        assert numbers[..i + 1] == numbers[..i] + [numbers[i]];
        var entry;
        survey, entry, err := SurveyOne(numbers, i, at, survey);
        if err.Some? {
          return;
        }
        if numbers[i] == number {
          item := Some(entry);
        }
        i := i + 1;
      }
      assert numbers[..i] == numbers;
      SurveyDone(world.cfg, View(), numbers, at, survey);
    }

    /** The evidence half of `CleanupPlan`, for a finished record past its retention. */
    method CheckEvidence(number: int, r: Record, clock: Collector.Clock, manifest: Option<Binding>, checkpoint: Collector.Checkpoint)
      returns (plan: Plan, err: Option<SpoolError>, ghost entry: Collector.Entry)
      requires Valid() && number in world.state && Done(world.state[number]) && r.digest == DigestOf(world.state[number])
      requires r.status.Compacted? <==> world.state[number].Compact?
      requires r.delivered.Some? && DeliveredAt(world.state[number]) == r.delivered && r.delivered.value + RETENTION <= world.now
      requires |r.payload| == PayloadBytes(world.state[number])
      modifies world`now, world`log
      ensures Valid() && old(world.now) <= world.now && View() == old(View()).(now := world.now)
      ensures Continues(old(world.log), world.log, 0, 0)
      ensures plan.eligible ==> err.None? && plan.reason.NoReason? && (plan.already <==> r.status.Compacted?)
      ensures plan.reclaim == if plan.eligible then PayloadBytes(world.state[number]) else 0
      ensures plan.already ==> plan.eligible
      ensures plan.eligible ==> Warranted(world.cfg, View(), number, checkpoint, entry, plan.checkedAt)
      ensures err.None? && !plan.eligible ==> plan.reason in {CollectorNotReady, InputPresent, AckRequired}
      ensures plan.reason.InputPresent? ==> number in world.input
      ensures plan.reason.AckRequired? ==> number !in world.acks
      ensures err in {None, Some(StateError), Some(BindingError), Some(ConflictError)}
      ensures err == Some(BindingError) ==> manifest != Some(world.cfg.binding) || checkpoint.binding != world.cfg.binding
      ensures err == Some(StateError) ==> CorruptCheckpoint(clock, world.cfg, checkpoint, old(world.now), world.now)
      ensures err == Some(ConflictError) ==> Contradicts(clock, world.cfg, checkpoint, number, world.state[number])
    {
      hide World.Sound, TotalSends, TotalResets, Collector.Supports, Collector.WellFormed, Collector.CheckpointRules, Collector.CheckedTable,
           CorruptCheckpoint;
      AckIsOwn(number);
      plan, entry, err := Plan(false, false, 0, NoReason, world.now), Collector.Entry("", "", None, None), None;
      var now := world.Clock(failed);
      var proof := Collector.CollectorProof(clock, world.cfg, manifest, checkpoint, number, now);
      match proof {
        case NotReady => plan := plan.(reason := CollectorNotReady); return;
        case Corrupt =>
          CorruptAt(clock, world.cfg, checkpoint, old(world.now), now, world.now);
          err := Some(StateError);
          return;
        case OtherBinding => err := Some(BindingError); return;
        case Proven(_) =>
      }
      var found := proof.entry;
      entry := found;
      Collector.SupportedTimes(world.cfg, checkpoint, number, found, now);
      if found.digest != r.digest || found.handoff.value < r.delivered.value {
        err := Some(ConflictError);
        return;
      }
      if number in world.input {
        plan := plan.(reason := InputPresent);
        return;
      }
      if number !in world.acks {
        plan := plan.(reason := AckRequired);
        return;
      }
      if world.acks[number] != Ack(1, world.cfg.binding.sourceId, number, r.digest) {
        err := Some(ConflictError);
        return;
      }
      var checkedAt := world.Clock(failed);
      Collector.SupportsLater(world.cfg, checkpoint, number, found, now, checkedAt);
      plan := Plan(true, r.status.Compacted?, if r.status.Compacted? then 0 else |r.payload|, NoReason, checkedAt);
    }

    /**
     `CleanupPlan`: decides from both sides whether one build may be compacted, and writes neither. Only a
     finished record past its retention, with the collector's proof, no input and its acknowledgement, is
     eligible; every other outcome carries the first reason against it.
     */
    method CleanupPlan(number: int, clock: Collector.Clock, manifest: Option<Binding>, checkpoint: Collector.Checkpoint)
      returns (plan: Plan, err: Option<SpoolError>, ghost entry: Collector.Entry)
      requires Valid()
      modifies this`slots, world`now, world`log
      ensures Valid() && old(world.now) <= world.now && View() == old(View()).(now := world.now)
      ensures Continues(old(world.log), world.log, 0, 0)
      ensures plan.eligible ==> err.None? && number in world.state && Done(world.state[number]) && plan.reason.NoReason?
      ensures plan.eligible ==> Warranted(world.cfg, View(), number, checkpoint, entry, plan.checkedAt)
      ensures plan.eligible ==> (plan.already <==> world.state[number].Compact?) && !Paused(View())
      ensures plan.reclaim == if plan.eligible then PayloadBytes(world.state[number]) else 0
      ensures plan.already ==> plan.eligible
      ensures err.None? && !plan.eligible ==> number in world.state && !plan.reason.NoReason?
      ensures err.None? ==> (plan.reason.DeliveryNotCompleted? <==> !Done(world.state[number]))
      ensures err.None? && plan.reason.RetentionNotMet? ==> DeliveredAt(world.state[number]).Some?
      ensures err.None? && plan.reason.RetentionNotMet? ==> old(world.now) < DeliveredAt(world.state[number]).value + RETENTION
      ensures plan.reason.InputPresent? ==> number in world.input
      ensures plan.reason.AckRequired? ==> number !in world.acks
      ensures err != Some(CleanupError) && (err == Some(ConfigurationError) <==> !InRange(world.cfg, number))
      ensures err == Some(BindingError) ==> manifest != Some(world.cfg.binding) || checkpoint.binding != world.cfg.binding
      ensures err == Some(MissingItem) ==> number !in world.state
      ensures err == Some(StateError) ==> Excused(StateError) || CorruptCheckpoint(clock, world.cfg, checkpoint, old(world.now), world.now)
      ensures err != Some(ConflictError) || Excused(ConflictError)
              || (number in world.state && Contradicts(clock, world.cfg, checkpoint, number, world.state[number]))
      ensures err.None? || Excused(err.value) || err in {Some(ConfigurationError), Some(BindingError), Some(MissingItem), Some(StateError), Some(ConflictError)}
    {
      hide PayloadBytes, World.Sound, TotalSends, TotalResets, Read, Paused, Warranted, Excused, CorruptCheckpoint, Contradicts;
      plan, entry, err := Plan(false, false, 0, NoReason, world.now), Collector.Entry("", "", None, None), None;
      var r, reason;
      r, reason, err := PlanTarget(number);
      if err.Some? {
        return;
      }
      if !reason.NoReason? {
        plan := plan.(reason := reason);
        return;
      }
      ghost var from, surveyed := world.now, View();
      plan, err, entry := CheckEvidence(number, r, clock, manifest, checkpoint);
      if err == Some(StateError) { CorruptLonger(clock, world.cfg, checkpoint, old(world.now), from, world.now); }
      PauseIsTimeless(surveyed, View());
    }

    /** The worker's own half of `CleanupPlan`: a finished record past its retention, in a source without a pause. */
    method PlanTarget(number: int) returns (r: Record, reason: Reason, err: Option<SpoolError>)
      requires Valid()
      modifies this`slots, world`now, world`log
      ensures Valid() && old(world.now) <= world.now && View() == old(View()).(now := world.now)
      ensures Continues(old(world.log), world.log, 0, 0)
      ensures err.None? ==> number in world.state && !Paused(View()) && reason in {NoReason, DeliveryNotCompleted, RetentionNotMet}
      ensures err.None? ==> (reason.DeliveryNotCompleted? <==> !Done(world.state[number]))
      ensures err.None? && Done(world.state[number]) ==> r.delivered.Some? && DeliveredAt(world.state[number]) == r.delivered
      ensures err.None? && reason.RetentionNotMet? ==> old(world.now) < r.delivered.value + RETENTION
      ensures err.None? && reason.NoReason? ==> r.delivered.value + RETENTION <= world.now && r.digest == DigestOf(world.state[number])
      ensures err.None? && reason.NoReason? ==> (r.status.Compacted? <==> world.state[number].Compact?)
      ensures err.None? && reason.NoReason? ==> |r.payload| == PayloadBytes(world.state[number])
      ensures err == Some(ConfigurationError) <==> !InRange(world.cfg, number)
      ensures err == Some(MissingItem) ==> number !in world.state
      ensures err.None? || Excused(err.value) || err == Some(ConfigurationError) || err == Some(MissingItem)
      ensures err in {None, Some(ConfigurationError), Some(StateError), Some(CapacityError), Some(ConflictError), Some(MissingItem),
                      Some(PausedError)}
    {
      hide World.Sound, TotalSends, TotalResets, Read, InStep, Candidate, Paused, Excused, Tallies, ItemOf, World.TotalBytes, World.Slots;
      r, reason, err := NO_RECORD, NoReason, None;
      world.SoundConfig(failed);
      if number < world.cfg.binding.firstBuild || number > 2147483647 {
        err := Some(ConfigurationError);
        return;
      }
      var report, e := Status(number);
      if e.Some? {
        err := e;
        return;
      }
      if report.survey.paused {
        PauseIsExcused();
        err := Some(PausedError);
        return;
      }
      ghost var surveyed := View();
      if number !in world.state {
        err := Some(MissingItem);
        return;
      }
      var read := ReadRecord(number);
      PauseIsTimeless(surveyed, View());
      if read.None? {
        OddIsExcused();
        err := Some(StateError);
        return;
      }
      r := read.value;
      ReadNotLater(number);
      ReadShape(world.cfg, number, world.state[number], world.now);
      ReadFinished(world.cfg, number, world.state[number], world.now);
      if !Finished(r) || r.delivered.None? {
        reason := DeliveryNotCompleted;
        return;
      }
      var now := world.Clock(failed);
      PauseIsTimeless(surveyed, View());
      if r.updated > now {
        err := Some(StateError);
        return;
      }
      now := world.Clock(failed);
      PauseIsTimeless(surveyed, View());
      if r.delivered.value + RETENTION > now {
        reason := RetentionNotMet;
      }
    }

    /** The writing half of `Cleanup`. */
    method WriteTombstone(number: int, r: Record, checkedAt: Time, ghost checkpoint: Collector.Checkpoint, ghost entry: Collector.Entry)
      returns (err: Option<SpoolError>)
      requires Valid() && !failed && View().phase.Idle? && number in world.state && world.state[number] == Full(r)
      requires r.number == number && r.status.Delivered? && Warranted(world.cfg, View(), number, checkpoint, entry, checkedAt)
      modifies this`failed, this`slots, world`now, world`state, world`stateTemps, world`stateTempBytes, world`phase, world`log
      ensures Valid() && View().phase.Idle? && old(world.now) <= world.now && Continues(old(world.log), world.log, 0, 0)
      ensures err.None? ==> exists t :: CompactedAt(world.cfg, old(world.state), world.state, number, t)
      ensures err.Some? ==> world.state == old(world.state) || exists t :: CompactedAt(world.cfg, old(world.state), world.state, number, t)
      ensures err in {None, Some(IoFailed), Some(StateError), Some(CapacityError)}
    {
      hide World.Sound, TotalSends, TotalResets, Warranted, MayWrite, SizeOf, CompactedAt, Renamed,
           World.WithinCapacity, World.ProperInput, World.TotalBytes, World.Slots, AckMatches;
      var at := world.Clock(failed);
      if at < checkedAt || r.delivered.None? || at < r.delivered.value + RETENTION || at < r.updated {
        return Some(StateError);
      }
      var tombstone := Compact(Tombstone(
        2, world.cfg.bindingDigest, world.cfg.binding.sourceId, number, r.digest, r.ciRunId, r.delivered.value, at));
      assert tombstone == Compact(TombstoneOf(world.cfg, r, at));
      var _, size, e := Inventory();
      if e.Some? {
        return e;
      }
      if size + SizeOf(world.cfg.codec, tombstone) > 536870912 {
        return Some(CapacityError);
      }
      ghost var before, w := View(), Compaction(number, at, ProofOf(checkpoint, entry));
      WarrantAges(world.cfg, old(View()), before, number, checkpoint, entry, checkedAt);
      CompactionAllowed(world.cfg, before, number, checkpoint, entry, checkedAt, at);
      err := WriteState(number, tombstone, w);
      CompactionEffect(world.cfg, before, w);
    }

    /** `Cleanup`: replaces one warranted record by its tombstone, and does nothing else to any file. */
    method Cleanup(number: int, clock: Collector.Clock, manifest: Option<Binding>, checkpoint: Collector.Checkpoint)
      returns (plan: Plan, err: Option<SpoolError>)
      requires Valid() && Ready()
      modifies this`failed, this`slots, world`now, world`state, world`stateTemps, world`stateTempBytes, world`phase, world`log
      ensures Valid() && Ready() && old(world.now) <= world.now && Continues(old(world.log), world.log, 0, 0)
      ensures world.state == old(world.state) || exists t :: CompactedAt(world.cfg, old(world.state), world.state, number, t)
      ensures err.None? ==> old(Usable()) && plan.eligible && number in old(world.state) && Done(old(world.state)[number])
      ensures err.None? && plan.already ==> world.state == old(world.state)
      ensures err.None? && !plan.already ==> exists t :: CompactedAt(world.cfg, old(world.state), world.state, number, t)
      ensures err == Some(CleanupError) ==> !plan.eligible && !plan.reason.NoReason? && world.state == old(world.state)
    {
      hide World.Sound, TotalSends, TotalResets, Read, Warranted, Paused, CompactedAt;
      plan := Plan(false, false, 0, NoReason, world.now);
      if !writeable || failed || !locked {
        return plan, Some(IoFailed);
      }
      ghost var entry;
      plan, err, entry := CleanupPlan(number, clock, manifest, checkpoint);
      if err.Some? || plan.already {
        return;
      }
      if !plan.eligible {
        return plan, Some(CleanupError);
      }
      ghost var planned := View();
      var read := ReadRecord(number);
      if read.None? {
        return plan, Some(StateError);
      }
      var r := read.value;
      ReadShape(world.cfg, number, world.state[number], world.now);
      ReadDelivered(world.cfg, number, world.state[number], world.now);
      WarrantAges(world.cfg, planned, View(), number, checkpoint, entry, plan.checkedAt);
      err := WriteTombstone(number, r, plan.checkedAt, checkpoint, entry);
    }
  }

  lemma MayResetExactly(f: StateFile)
    ensures MayReset(f) <==> !RefusesReset(f)
  {
  }

  /** The records `Retry` accepts. */
  predicate MayReset(f: StateFile) {
    f.Full? && f.record.status.Blocked? && |f.record.resets| < MAX_RESETS && Resettable(f.record.reason)
  }

  /**
   `OpenSpool` in run mode, after any earlier process stopped anywhere: the files it left are never the reason
   to refuse. Only a foreign binding, an improper input directory or an exhausted capacity is.
   */
  method OpenSpool(world: World, manifest: Option<Binding>, ghost failedBefore: bool) returns (s: Spool, err: Option<SpoolError>)
    requires world.Sound(failedBefore)
    modifies world`stateTemps, world`ackTemps, world`stateTempBytes, world`ackTempBytes, world`phase, world`now, world`log
    ensures s.world == world && s.Valid() && !s.failed && s.View().phase.Idle?
    ensures Continues(old(world.log), world.log, 0, 0)
    ensures err in {None, Some(StateError), Some(BindingError), Some(CapacityError)}
    ensures err == Some(BindingError) ==> manifest != Some(world.cfg.binding)
    ensures err == Some(StateError) ==> manifest.None? || !world.ProperInput()
    ensures err == Some(CapacityError) ==> !world.WithinCapacity()
    ensures err.None? ==> s.Usable() && world.ProperInput() && world.WithinCapacity()
  {
    hide World.Sound, World.ProperInput, World.WithinCapacity, World.TotalBytes, World.Slots, AckMatches, Listing, Ascending, TotalSends, TotalResets, Inv;
    s := new Spool.Attach(world, true, failedBefore);
    if manifest.None? {
      return s, Some(StateError);
    }
    if manifest.value != world.cfg.binding {
      return s, Some(BindingError);
    }
    ghost var reopened := s.View();
    world.Reached(false);
    world.SoundConfig(false);
    OwnAcksNeverFail(world.cfg, reopened);
    var _, _, e := s.Inventory();
    return s, e;
  }

  /** A shared variable: `first_attempt` points at the one that holds the tick's instant. */
  class Instant {
    var at: Time

    constructor (at: Time)
      ensures this.at == at
    {
      this.at := at;
    }
  }

  lemma ResetAllowed(cfg: Config, s: Snap, n: int, at: Time)
    requires s.phase.Idle? && n in s.state && MayReset(s.state[n]) && s.state[n].record.updated <= at <= s.now
    ensures var w := Write.Reset(n, at);
      MayWrite(cfg, s, w) && Writable(s, w) && Written(cfg, s, w) == Full(ResetRecord(s.state[n].record, at))
  {
  }
}
