/** What an import knows while it goes through the input directory. */
module SpoolImport {
  import opened Payload
  import opened Text
  import opened SpoolNames
  import opened SpoolWorld
  import opened SpoolRecords
  import opened SpoolLaws
  import opened SpoolProtocol
  import opened Receiver

  const IMPORT_BATCH := 100

  /** The record of build `n` stands for the bytes the input directory holds for it. */
  ghost predicate InStep(cfg: Config, input: map<int, Bytes>, state: map<int, StateFile>, n: int) {
    n in input && n in state && DigestOf(state[n]) == cfg.codec.digest(input[n])
  }

  /** Nothing changed but the clock and new records made from the present input. */
  ghost predicate Imported(cfg: Config, before: Snap, after: Snap) {
    && after.input == before.input && after.published == before.published && after.acks == before.acks
    && after.ledger == before.ledger && after.phase == before.phase && before.now <= after.now
    && (forall n | n in before.state :: n in after.state && after.state[n] == before.state[n])
    && (forall n | n in after.state && n !in before.state ::
          n in after.input && MadeFrom(cfg, n, after.input[n], after.state[n], before.now, after.now))
  }

  /** The file is the import of `body` at some instant of the given span. */
  ghost predicate MadeFrom(cfg: Config, n: int, body: Bytes, f: StateFile, from: Time, to: Time) {
    exists t :: from <= t <= to && f.Full? && Imports(cfg, n, body, f.record, t)
  }

  lemma ImportIdentity(cfg: Config, n: int, body: Bytes, t: Time)
    ensures var r := ImportRecord(cfg, n, body, t); r.number == n && r.payload == body && r.digest == cfg.codec.digest(body)
  {
    hide ParsePayload, ImportError, ForeignIdentity;
  }

  /** A published build of the range without a record may be imported at the present instant. */
  lemma ImportAllowed(cfg: Config, s: Snap, n: int, body: Bytes)
    requires Inv(cfg, s) && s.phase.Idle? && n !in s.state && InRange(cfg, n) && (n, body) in s.published
    requires |body| <= MAX_BODY && |s.state| < MAX_ENTRIES
    ensures var w := Write.Import(n, body, s.now);
      MayWrite(cfg, s, w) && Writable(s, w) && Written(cfg, s, w) == Full(ImportRecord(cfg, n, body, s.now))
  {
    hide FileOk, AckOk, PhaseOk, Matched, ImportRecord;
  }

  /** An import keeps the account of everything imported so far, also when its write fails half-way. */
  lemma ImportedOne(cfg: Config, start: Snap, s: Snap, t: Snap, n: int, body: Bytes)
    requires Imported(cfg, start, s) && n !in s.state && n in s.input && s.input[n] == body
    requires t.input == s.input && t.published == s.published && t.acks == s.acks && t.ledger == s.ledger && t.phase == s.phase
    requires s.now <= t.now && (t.state == s.state || t.state == s.state[n := Full(ImportRecord(cfg, n, body, s.now))])
    ensures Imported(cfg, start, t) && |t.state| <= |s.state| + 1
  {
    hide ImportRecord, MadeFrom;
    forall m | m in t.state && m !in start.state ensures MadeFrom(cfg, m, t.input[m], t.state[m], start.now, t.now) {
      if m in s.state { MadeLater(cfg, m, t.input[m], t.state[m], start.now, s.now, t.now); }
      else { MadeNow(cfg, n, body, start.now, s.now, t.now); }
    }
  }

  /** What saving an imported record leaves, reported or not. */
  lemma ImportEffect(cfg: Config, start: Snap, s: Snap, t: Snap, n: int, body: Bytes, done: bool)
    requires Imported(cfg, start, s) && n !in s.state && n in s.input && s.input[n] == body
    requires var w := Write.Import(n, body, s.now);
      && Writable(s, w) && s.now <= t.now
      && (if done then t == Renamed(cfg, s, w).(phase := PhaseAfter(s, w), now := t.now) else HalfWritten(cfg, s, w, t))
    requires t.published == s.published && t.ledger == s.ledger && t.acks == s.acks
    ensures Imported(cfg, start, t) && |t.state| <= |s.state| + 1 && t.phase == s.phase
    ensures forall m | m != n :: m in t.state <==> m in s.state
    ensures forall m | m != n && m in t.state :: t.state[m] == s.state[m]
    ensures done ==> |t.state| == |s.state| + 1 && InStep(cfg, t.input, t.state, n)
  {
    ImportIdentity(cfg, n, body, s.now);
    hide ImportRecord, Imported;
    ImportedOne(cfg, start, s, t, n, body);
  }

  lemma ImportedAges(cfg: Config, start: Snap, s: Snap, t: Snap)
    requires Imported(cfg, start, s) && s.now <= t.now && t == s.(now := t.now)
    ensures Imported(cfg, start, t)
  {
    hide MadeFrom;
    forall m | m in t.state && m !in start.state ensures MadeFrom(cfg, m, t.input[m], t.state[m], start.now, t.now) {
      MadeLater(cfg, m, t.input[m], t.state[m], start.now, s.now, t.now);
    }
  }

  lemma ImportedKeeps(cfg: Config, s: Snap, t: Snap)
    requires Imported(cfg, s, t)
    ensures s.now <= t.now && forall n | n in s.state :: n in t.state && t.state[n] == s.state[n]
  {
    hide MadeFrom;
  }

  lemma MadeLater(cfg: Config, n: int, body: Bytes, f: StateFile, from: Time, to: Time, later: Time)
    requires MadeFrom(cfg, n, body, f, from, to) && to <= later
    ensures MadeFrom(cfg, n, body, f, from, later)
  {
    hide Imports;
  }

  lemma MadeNow(cfg: Config, n: int, body: Bytes, from: Time, t: Time, to: Time)
    requires from <= t <= to
    ensures MadeFrom(cfg, n, body, Full(ImportRecord(cfg, n, body, t)), from, to)
  {
    ImportsRecord(cfg, n, body, t);
    hide ImportRecord, Imports;
  }

  ghost predicate ByName(names: seq<int>) {
    forall i, j | 0 <= i < j < |names| :: NameLess(names[i], names[j])
  }

  /** The builds with the names in the order of a sorted listing. */
  method SortedByName(keys: set<int>) returns (names: seq<int>)
    requires forall n | n in keys :: 0 <= n
    ensures ByName(names) && Listing(names, keys)
  {
    hide NameLess;
    names := [];
    var rest := keys;
    while rest != {}
      invariant rest <= keys && ByName(names) && Listing(names, keys - rest)
      invariant forall a, b | a in names && b in rest :: NameLess(a, b)
      decreases rest
    {
      var least := FirstName(rest);
      assert forall i | 0 <= i < |names| :: names[i] in names && NameLess(names[i], least);
      names := names + [least];
      rest := rest - {least};
    }
  }

  method FirstName(keys: set<int>) returns (least: int)
    requires keys != {} && forall n | n in keys :: 0 <= n
    ensures least in keys && forall n | n in keys && n != least :: NameLess(least, n)
  {
    hide NameLess;
    least := AnyOf(keys);
    var others := keys - {least};
    while others != {}
      invariant others <= keys && least in keys
      invariant forall n | n in keys && n !in others && n != least :: NameLess(least, n)
      decreases others
    {
      var other := AnyOf(others);
      var before := NameLess(other, least);
      if before {
        forall n | n in keys && n !in others && n != least ensures NameLess(other, n) {
          NameOrderIsTransitive(other, least, n);
        }
        least := other;
      } else if other != least {
        NamesAreOrdered(other, least);
      }
      others := others - {other};
    }
  }

  /** Every new record has a name before that of build n. */
  ghost predicate NewComeBefore(before: map<int, StateFile>, after: map<int, StateFile>, n: int) {
    forall m | m in after && m !in before :: NameLess(m, n)
  }

  /** Build n agrees with its input, or it has no record yet and a full batch of earlier names came before it. */
  ghost predicate TakenOrLeft(cfg: Config, input: map<int, Bytes>, before: map<int, StateFile>, after: map<int, StateFile>, n: int) {
    InStep(cfg, input, after, n)
    || (n !in before && n !in after && |after| == |before| + IMPORT_BATCH && NewComeBefore(before, after, n))
  }

  /** How far `Import` has come after the first `i` names, with `added` new records. */
  ghost predicate Progress(cfg: Config, start: Snap, s: Snap, names: seq<int>, i: nat, added: nat)
    requires i <= |names|
  {
    && Imported(cfg, start, s) && |s.state| == |start.state| + added
    && (forall j | 0 <= j < i :: InStep(cfg, s.input, s.state, names[j])
          || (added == IMPORT_BATCH && names[j] !in start.state && s.state.Keys - start.state.Keys <= Seen(names, j)))
    && s.state.Keys - start.state.Keys <= Seen(names, i)
  }

  ghost function Seen(names: seq<int>, i: nat): set<int>
    requires i <= |names|
  {
    set n | n in names[..i]
  }

  lemma NoProgress(cfg: Config, start: Snap, s: Snap, names: seq<int>)
    requires Imported(cfg, start, s) && s.state == start.state
    ensures Progress(cfg, start, s, names, 0, 0)
  {
    hide Imported, InStep;
  }

  lemma ProgressFacts(cfg: Config, start: Snap, s: Snap, names: seq<int>, i: nat, added: nat)
    requires i <= |names| && Progress(cfg, start, s, names, i, added)
    ensures Imported(cfg, start, s) && |s.state| == |start.state| + added && s.input == start.input
    ensures forall n | n in start.state :: n in s.state
  {
    hide InStep, MadeFrom;
  }

  lemma ProgressNew(cfg: Config, start: Snap, s: Snap, names: seq<int>, i: nat, added: nat)
    requires i < |names| && Progress(cfg, start, s, names, i, added)
    requires names[i] !in names[..i] && names[i] !in start.state
    ensures names[i] !in s.state
  {
    hide Imported, InStep;
    assert names[i] !in Seen(names, i);
  }

  lemma ProgressSkips(cfg: Config, start: Snap, s: Snap, names: seq<int>, i: nat)
    requires i < |names| && Progress(cfg, start, s, names, i, IMPORT_BATCH) && names[i] !in start.state
    ensures Progress(cfg, start, s, names, i + 1, IMPORT_BATCH)
  {
    hide Imported, InStep;
    assert names[..i + 1] == names[..i] + [names[i]];
  }

  lemma ProgressKeeps(cfg: Config, start: Snap, s: Snap, t: Snap, names: seq<int>, i: nat, added: nat)
    requires i < |names| && Progress(cfg, start, s, names, i, added)
    requires t == s.(now := t.now) && Imported(cfg, start, t) && InStep(cfg, t.input, t.state, names[i])
    ensures Progress(cfg, start, t, names, i + 1, added)
  {
    hide Imported, InStep;
    assert names[..i + 1] == names[..i] + [names[i]];
  }

  lemma ProgressGrows(cfg: Config, start: Snap, s: Snap, t: Snap, names: seq<int>, i: nat, added: nat)
    requires i < |names| && Progress(cfg, start, s, names, i, added) && added < IMPORT_BATCH
    requires Imported(cfg, start, t) && |t.state| == |s.state| + 1 && t.input == s.input
    requires forall m | m != names[i] :: m in t.state <==> m in s.state
    requires forall m | m != names[i] && m in t.state :: t.state[m] == s.state[m]
    requires names[i] !in names[..i] && InStep(cfg, t.input, t.state, names[i])
    ensures Progress(cfg, start, t, names, i + 1, added + 1)
  {
    hide Imported;
    assert names[..i + 1] == names[..i] + [names[i]];
    assert Seen(names, i + 1) == Seen(names, i) + {names[i]};
    forall m | m in t.state.Keys - start.state.Keys ensures m in Seen(names, i + 1) {
      if m != names[i] { assert m in s.state && m in s.state.Keys - start.state.Keys; }
    }
    forall j | 0 <= j < i ensures InStep(cfg, t.input, t.state, names[j]) {
      assert names[j] in names[..i];
    }
  }

  lemma NameIsNotBeforeItself(n: int)
    ensures !NameLess(n, n)
  {
    if 0 <= n { LexIrreflexive(SpoolName(n)); }
  }

  lemma ProgressDone(cfg: Config, start: Snap, s: Snap, names: seq<int>, added: nat)
    requires Progress(cfg, start, s, names, |names|, added) && (forall n :: n in names <==> n in s.input) && ByName(names)
    ensures forall n | n in s.input :: TakenOrLeft(cfg, s.input, start.state, s.state, n)
  {
    hide Imported, InStep, NameLess;
    forall n | n in s.input && !InStep(cfg, s.input, s.state, n) ensures n !in s.state && NewComeBefore(start.state, s.state, n) {
      var j :| 0 <= j < |names| && names[j] == n;
      forall m | m in s.state && m !in start.state ensures NameLess(m, n) {
        assert m in s.state.Keys - start.state.Keys && m in Seen(names, j);
        var k :| 0 <= k < j && names[k] == m;
      }
      if n in s.state {
        assert n in s.state.Keys - start.state.Keys && n in Seen(names, j);
        var k :| 0 <= k < j && names[k] == n;
        NameIsNotBeforeItself(n);
      }
    }
  }

  lemma NothingImported(cfg: Config, s: Snap)
    ensures Imported(cfg, s, s)
  {
  }

  lemma ReadDigest(cfg: Config, n: int, f: StateFile, t: Time)
    requires Read(cfg, n, f, t).Some?
    ensures Read(cfg, n, f, t).value.digest == DigestOf(f) && Read(cfg, n, f, t).value.number == n
  {
    hide Sendable;
  }
}
