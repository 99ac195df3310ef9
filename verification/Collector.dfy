/**
 The collector's checkpoint as the worker checks it before a compaction: the dynamic table of builds, its
 contiguous prefix, and the one retired entry that serves as proof.
 */
module Collector {
  import opened Text
  import opened Json
  import opened Payload
  import opened SpoolNames
  import opened SpoolRecords
  import opened SpoolProtocol

  datatype Entry = Entry(kind: string, digest: string, handoff: Option<Time>, retired: Option<Time>)

  /** The checkpoint after decoding; the table of entries keeps its keys in order and with repetitions. */
  datatype Checkpoint = Checkpoint(
    version: int, binding: Binding, prefix: int, high: int, scanHigh: int, cursor: int,
    observed: Time, lastSweep: Option<Time>, lifecycle: string, error: string, entries: seq<(string, Value)>)

  /** An instant of any zone, as `time.Time` is unmarshalled. */
  type Clock = string -> Option<Time>

  const PUBLISHED_NAMES := ["kind", "digest", "handoff_at"]
  const RETIRED_NAMES := ["kind", "digest", "handoff_at", "retired_at"]

  function OptionalTime(clock: Clock, v: Value): Option<Option<Time>> {
    if v.Null? then Some(None)
    else if !v.String? then None
    else match clock(v.text)
         case None => None
         case Some(t) => Some(Some(t))
  }

  /** The rules each kind of entry obeys. */
  predicate EntryRules(version: int, e: Entry) {
    if e.kind == "published" || e.kind == "retired" then
      && Sha256Pattern(e.digest)
      && (e.handoff.Some? ==> e.handoff.value != ZERO_TIME)
      && (e.kind == "retired" ==> version == 2 && e.handoff.Some? && e.retired.Some?
                                  && e.retired.value >= e.handoff.value + RETENTION)
    else
      (e.kind == "running" || e.kind == "missing" || e.kind == "unreadable") && e.digest == "" && e.handoff.None?
  }

  function ParseEntry(clock: Clock, version: int, v: Value): Option<Entry> {
    var retires := version == 2 && Member(v, "kind") == String("retired");
    match Fields(v, if retires then RETIRED_NAMES else PUBLISHED_NAMES)
    case None => None
    case Some(f) =>
      assert PUBLISHED_NAMES == ["kind", "digest", "handoff_at"] && RETIRED_NAMES == PUBLISHED_NAMES + ["retired_at"];
      var handoff := OptionalTime(clock, f["handoff_at"]);
      var retired := if retires then OptionalTime(clock, f["retired_at"]) else Some(None);
      if !f["kind"].String? || !f["digest"].String? || handoff.None? || retired.None? then None
      else
        var e := Entry(f["kind"].text, f["digest"].text, handoff.value, retired.value);
        if EntryRules(version, e) then Some(e) else None
  }

  /** The build a table key names: canonical, and inside the observed range. */
  function KeyNumber(key: string, first: int, high: int): Option<int> {
    if !BuildNumberToken(key) then None
    else if first <= Text.Value(key) <= high then Some(Text.Value(key)) else None
  }

  /** A table is well formed when every key and entry is, and no build occurs twice. */
  ghost predicate WellFormed(clock: Clock, version: int, first: int, high: int, fields: seq<(string, Value)>) {
    && |fields| <= MAX_ENTRIES
    && (forall i | 0 <= i < |fields| :: KeyNumber(fields[i].0, first, high).Some? && ParseEntry(clock, version, fields[i].1).Some?)
    && DistinctKeys(fields)
  }

  ghost predicate TableOf(clock: Clock, version: int, first: int, high: int, fields: seq<(string, Value)>, m: map<int, Entry>) {
    && (forall n | n in m :: exists i :: 0 <= i < |fields| && KeyNumber(fields[i].0, first, high) == Some(n)
                                         && ParseEntry(clock, version, fields[i].1) == Some(m[n]))
    && (forall i | 0 <= i < |fields| :: KeyNumber(fields[i].0, first, high).Some? && KeyNumber(fields[i].0, first, high).value in m)
  }

  /** Two keys of the same build are the same text. */
  lemma KeysAreCanonical(a: string, b: string, first: int, high: int)
    requires KeyNumber(a, first, high).Some? && KeyNumber(a, first, high) == KeyNumber(b, first, high)
    ensures a == b
  {
    FormatOfValue(a);
    FormatOfValue(b);
  }

  /** One more field keeps the table well formed exactly when its key and entry are good and its build is new. */
  lemma OneMoreEntry(clock: Clock, version: int, first: int, high: int, fields: seq<(string, Value)>, i: nat, m: map<int, Entry>)
    requires i < |fields| && WellFormed(clock, version, first, high, fields[..i]) && i < MAX_ENTRIES
    requires TableOf(clock, version, first, high, fields[..i], m)
    ensures var key, entry := KeyNumber(fields[i].0, first, high), ParseEntry(clock, version, fields[i].1);
      if key.None? || entry.None? || key.value in m then !WellFormed(clock, version, first, high, fields)
      else WellFormed(clock, version, first, high, fields[..i + 1])
           && TableOf(clock, version, first, high, fields[..i + 1], m[key.value := entry.value])
  {
    hide ParseEntry, KeyNumber;
    var front, more := fields[..i], fields[..i + 1];
    var key, entry := KeyNumber(fields[i].0, first, high), ParseEntry(clock, version, fields[i].1);
    assert more == front + [fields[i]];
    if key.Some? && entry.Some? {
      if key.value in m {
        RepeatedBuild(clock, version, first, high, fields, i, m, key.value);
      } else {
        NewBuild(clock, version, first, high, front, fields[i], m, key.value, entry.value);
      }
    }
  }

  lemma RepeatedBuild(clock: Clock, version: int, first: int, high: int, fields: seq<(string, Value)>, i: nat, m: map<int, Entry>, n: int)
    requires i < |fields| && TableOf(clock, version, first, high, fields[..i], m)
    requires KeyNumber(fields[i].0, first, high) == Some(n) && n in m
    ensures !DistinctKeys(fields)
  {
    hide ParseEntry, KeyNumber;
    var j :| 0 <= j < i && KeyNumber(fields[..i][j].0, first, high) == Some(n);
    KeysAreCanonical(fields[i].0, fields[j].0, first, high);
  }

  lemma NewBuild(clock: Clock, version: int, first: int, high: int, front: seq<(string, Value)>, field: (string, Value),
                 m: map<int, Entry>, n: int, e: Entry)
    requires WellFormed(clock, version, first, high, front) && |front| < MAX_ENTRIES && TableOf(clock, version, first, high, front, m)
    requires KeyNumber(field.0, first, high) == Some(n) && ParseEntry(clock, version, field.1) == Some(e) && n !in m
    ensures WellFormed(clock, version, first, high, front + [field])
    ensures TableOf(clock, version, first, high, front + [field], m[n := e])
  {
    hide ParseEntry, KeyNumber;
    var more, t := front + [field], m[n := e];
    assert forall i | 0 <= i < |front| :: more[i] == front[i];
    assert forall i | 0 <= i < |front| :: front[i].0 != field.0;
    forall k | k in t ensures exists i :: 0 <= i < |more| && KeyNumber(more[i].0, first, high) == Some(k)
                                         && ParseEntry(clock, version, more[i].1) == Some(t[k]) {
      if k == n { assert more[|front|] == field; } else {
        var i :| 0 <= i < |front| && KeyNumber(front[i].0, first, high) == Some(k) && ParseEntry(clock, version, front[i].1) == Some(m[k]);
        assert more[i] == front[i];
      }
    }
  }

  /** `collectorEntries`: one pass that refuses a bad key, a repeated build, a bad entry or too many of them. */
  /** A key of the table: a canonical number of the observed range. */
  method ReadKey(key: string, first: int, high: int) returns (n: Option<int>)
    ensures n == KeyNumber(key, first, high)
  {
    hide Text.Value;
    if |key| < 1 || |key| > 10 || key[0] == '0' || exists c :: c in key && !IsDigit(c) {
      return None;
    }
    var number := Text.Value(key);
    if number < first || number > high {
      return None;
    }
    return Some(number);
  }

  method ReadTime(clock: Clock, v: Value) returns (t: Option<Option<Time>>)
    ensures t == OptionalTime(clock, v)
  {
    if v.Null? {
      return Some(None);
    }
    if !v.String? || clock(v.text).None? {
      return None;
    }
    return Some(clock(v.text));
  }

  /** One entry: the closed fields of its kind, and then the rules of its kind. */
  method ReadEntry(clock: Clock, version: int, v: Value) returns (r: Option<Entry>)
    ensures r == ParseEntry(clock, version, v)
  {
    hide Closed, Collect, Sha256Pattern, OptionalTime;
    var retires := Member(v, "kind") == String("retired") && version == 2;
    var names := ["kind", "digest", "handoff_at"];
    if retires {
      names := names + ["retired_at"];
    }
    assert PUBLISHED_NAMES == ["kind", "digest", "handoff_at"] && RETIRED_NAMES == PUBLISHED_NAMES + ["retired_at"];
    assert names == if retires then RETIRED_NAMES else PUBLISHED_NAMES;
    var fields := DecodeObject(v, names);
    if fields.None? {
      return None;
    }
    NamesPresent(v, names);
    assert names[0] in names && names[1] in names && names[2] in names && (retires ==> names[3] in names);
    var f := fields.value;
    var handoff := ReadTime(clock, f["handoff_at"]);
    var retired := Some(None);
    if retires {
      retired := ReadTime(clock, f["retired_at"]);
    }
    if !f["kind"].String? || !f["digest"].String? || handoff.None? || retired.None? {
      return None;
    }
    var e := Entry(f["kind"].text, f["digest"].text, handoff.value, retired.value);
    if e.kind == "published" || e.kind == "retired" {
      if !Sha256Pattern(e.digest) || (e.handoff.Some? && e.handoff.value == 0) {
        return None;
      }
      if e.kind == "retired" && (version != 2 || e.handoff.None? || e.retired.None? || e.retired.value < e.handoff.value + 7 * DAY) {
        return None;
      }
    } else if e.kind == "running" || e.kind == "missing" || e.kind == "unreadable" {
      if e.digest != "" || e.handoff.Some? {
        return None;
      }
    } else {
      return None;
    }
    return Some(e);
  }

  method CollectorEntries(clock: Clock, version: int, first: int, high: int, fields: seq<(string, Value)>)
    returns (r: Option<map<int, Entry>>)
    ensures r.Some? <==> WellFormed(clock, version, first, high, fields)
    ensures r.Some? ==> TableOf(clock, version, first, high, fields, r.value)
  {
    hide ParseEntry, BuildNumberToken, KeyNumber, WellFormed, TableOf;
    var entries: map<int, Entry> := map[];
    var i := 0;
    NoEntries(clock, version, first, high);
    while i < |fields|
      invariant 0 <= i <= |fields| && i <= MAX_ENTRIES && |entries| == i
      invariant WellFormed(clock, version, first, high, fields[..i])
      invariant TableOf(clock, version, first, high, fields[..i], entries)
    {
      if |entries| >= 10000 {
        TooManyEntries(clock, version, first, high, fields);
        return None;
      }
      OneMoreEntry(clock, version, first, high, fields, i, entries);
      var key := ReadKey(fields[i].0, first, high);
      if key.None? || key.value in entries {
        return None;
      }
      var entry := ReadEntry(clock, version, fields[i].1);
      if entry.None? {
        return None;
      }
      entries := entries[key.value := entry.value];
      i := i + 1;
    }
    assert fields[..i] == fields;
    return Some(entries);
  }

  lemma NoEntries(clock: Clock, version: int, first: int, high: int)
    ensures WellFormed(clock, version, first, high, []) && TableOf(clock, version, first, high, [], map[])
  {
  }

  lemma TooManyEntries(clock: Clock, version: int, first: int, high: int, fields: seq<(string, Value)>)
    requires |fields| > MAX_ENTRIES
    ensures !WellFormed(clock, version, first, high, fields)
  {
  }

  predicate Collected(entries: map<int, Entry>, n: int) {
    n in entries && (entries[n].kind == "published" || entries[n].kind == "retired")
  }

  /** The longest run of collected builds from `first`. */
  method Prefix(entries: map<int, Entry>, first: int, high: int) returns (prefix: int)
    requires first <= high + 1 && forall n | n in entries :: n <= high
    ensures first - 1 <= prefix <= high
    ensures forall n | first <= n <= prefix :: Collected(entries, n)
    ensures !Collected(entries, prefix + 1)
  {
    prefix := first - 1;
    while prefix + 1 in entries && (entries[prefix + 1].kind == "published" || entries[prefix + 1].kind == "retired")
      invariant first - 1 <= prefix <= high
      invariant forall n | first <= n <= prefix :: Collected(entries, n)
      decreases high - prefix
    {
      prefix := prefix + 1;
    }
  }

  /** The range and time rules of a checkpoint. */
  predicate CheckpointRules(cfg: Config, c: Checkpoint, now: Time) {
    var first := cfg.binding.firstBuild;
    && (c.version == 1 || c.version == 2)
    && first - 1 <= c.high <= MAX_BUILD && c.high - first < MAX_ENTRIES
    && first - 1 <= c.scanHigh <= c.high && first <= c.cursor <= c.scanHigh + 1
    && c.observed != ZERO_TIME && c.observed <= now
    && (c.lastSweep.Some? ==> c.lastSweep.value != ZERO_TIME && c.lastSweep.value <= c.observed)
    && (c.lifecycle == "running" || c.lifecycle == "stopped" || c.lifecycle == "paused")
  }

  predicate NoLaterThan(e: Entry, observed: Time) {
    && (e.handoff.Some? ==> e.handoff.value <= observed)
    && (e.retired.Some? ==> e.retired.value <= observed)
  }

  datatype ProofResult = Proven(entry: Entry) | NotReady | Corrupt | OtherBinding

  /** Everything a proven entry guarantees about the checkpoint it was found in. */
  ghost predicate Supports(cfg: Config, c: Checkpoint, number: int, e: Entry, now: Time) {
    && c.binding == cfg.binding && c.error == "" && c.lifecycle == "stopped" && c.version == 2
    && e.kind == "retired" && Sha256Pattern(e.digest) && e.handoff.Some? && e.retired.Some?
    && e.handoff.value + RETENTION <= e.retired.value <= c.observed <= now
    && cfg.binding.firstBuild <= number <= c.high
  }

  lemma SupportedTimes(cfg: Config, c: Checkpoint, number: int, e: Entry, now: Time)
    requires Supports(cfg, c, number, e, now)
    ensures e.handoff.Some? && e.retired.Some? && e.handoff.value + RETENTION <= e.retired.value <= c.observed <= now
  {
  }

  lemma SupportsLater(cfg: Config, c: Checkpoint, number: int, e: Entry, now: Time, later: Time)
    requires Supports(cfg, c, number, e, now) && now <= later
    ensures Supports(cfg, c, number, e, later)
  {
  }

  /** `prefix` ends the run of collected builds from `first`. */
  ghost predicate IsPrefix(entries: map<int, Entry>, first: int, prefix: int) {
    first - 1 <= prefix && (forall n | first <= n <= prefix :: Collected(entries, n)) && !Collected(entries, prefix + 1)
  }

  /** The checkpoint's entries are well formed, read as `m`, not ahead of its observation, and match its prefix. */
  ghost predicate CheckedTable(clock: Clock, cfg: Config, c: Checkpoint, m: map<int, Entry>) {
    && WellFormed(clock, c.version, cfg.binding.firstBuild, c.high, c.entries)
    && TableOf(clock, c.version, cfg.binding.firstBuild, c.high, c.entries, m)
    && (forall n | n in m :: NoLaterThan(m[n], c.observed))
    && IsPrefix(m, cfg.binding.firstBuild, c.prefix)
  }

  /** The stopped collector has retired the build. */
  predicate Settles(c: Checkpoint, m: map<int, Entry>, number: int) {
    number in m && m[number].kind == "retired" && c.error == "" && c.lifecycle == "stopped"
  }

  /** A checkpoint determines its table. */
  lemma TableIsUnique(clock: Clock, version: int, first: int, high: int, fields: seq<(string, Value)>, a: map<int, Entry>, b: map<int, Entry>)
    requires DistinctKeys(fields) && TableOf(clock, version, first, high, fields, a) && TableOf(clock, version, first, high, fields, b)
    ensures a == b
  {
    hide ParseEntry, KeyNumber;
    SameEntries(clock, version, first, high, fields, a, b);
    SameEntries(clock, version, first, high, fields, b, a);
    assert forall n :: n in a <==> n in b;
    assert forall n | n in a :: a[n] == b[n];
  }

  lemma SameEntries(clock: Clock, version: int, first: int, high: int, fields: seq<(string, Value)>, a: map<int, Entry>, b: map<int, Entry>)
    requires DistinctKeys(fields) && TableOf(clock, version, first, high, fields, a) && TableOf(clock, version, first, high, fields, b)
    ensures forall n | n in a :: n in b && b[n] == a[n]
  {
    hide ParseEntry, KeyNumber;
    forall n | n in a ensures n in b && b[n] == a[n] {
      var i :| 0 <= i < |fields| && KeyNumber(fields[i].0, first, high) == Some(n) && ParseEntry(clock, version, fields[i].1) == Some(a[n]);
      var j :| 0 <= j < |fields| && KeyNumber(fields[j].0, first, high) == Some(n) && ParseEntry(clock, version, fields[j].1) == Some(b[n]);
      KeysAreCanonical(fields[i].0, fields[j].0, first, high);
      assert i == j;
    }
  }

  lemma Unchecked(clock: Clock, cfg: Config, c: Checkpoint, entries: map<int, Entry>)
    requires WellFormed(clock, c.version, cfg.binding.firstBuild, c.high, c.entries)
    requires TableOf(clock, c.version, cfg.binding.firstBuild, c.high, c.entries, entries)
    requires (exists n :: n in entries && !NoLaterThan(entries[n], c.observed)) || !IsPrefix(entries, cfg.binding.firstBuild, c.prefix)
    ensures forall m :: !CheckedTable(clock, cfg, c, m)
  {
    hide ParseEntry, KeyNumber, IsPrefix, NoLaterThan;
    forall m | CheckedTable(clock, cfg, c, m) ensures m == entries {
      TableIsUnique(clock, c.version, cfg.binding.firstBuild, c.high, c.entries, m, entries);
    }
  }

  lemma OnePrefix(entries: map<int, Entry>, first: int, a: int, b: int)
    requires IsPrefix(entries, first, a) && IsPrefix(entries, first, b)
    ensures a == b
  {
    hide Collected;
    assert a < b ==> Collected(entries, a + 1);
    assert b < a ==> Collected(entries, b + 1);
  }

  /** `collectorProof` on a decoded manifest and checkpoint, at the instant the clock showed. */
  method CollectorProof(clock: Clock, cfg: Config, manifest: Option<Binding>, c: Checkpoint, number: int, now: Time)
    returns (r: ProofResult)
    ensures r.Proven? ==> manifest == Some(cfg.binding) && Supports(cfg, c, number, r.entry, now)
    ensures r.Proven? || r.NotReady? ==>
      CheckpointRules(cfg, c, now) && WellFormed(clock, c.version, cfg.binding.firstBuild, c.high, c.entries)
    ensures r.OtherBinding? <==> manifest != Some(cfg.binding) || c.binding != cfg.binding
    ensures r.Proven? ==> exists m :: CheckedTable(clock, cfg, c, m) && Settles(c, m, number) && r.entry == m[number]
    ensures r.NotReady? ==> exists m :: CheckedTable(clock, cfg, c, m) && !Settles(c, m, number)
    ensures r.Corrupt? ==> !CheckpointRules(cfg, c, now) || forall m :: !CheckedTable(clock, cfg, c, m)
  {
    hide ParseEntry, KeyNumber, DistinctKeys;
    var first := cfg.binding.firstBuild;
    if manifest != Some(cfg.binding) || c.binding != cfg.binding {
      return OtherBinding;
    }
    if (c.version != 1 && c.version != 2) || c.high < first - 1 || c.high > 2147483647 || c.high - first >= 10000
       || c.scanHigh < first - 1 || c.scanHigh > c.high || c.cursor < first || c.cursor > c.scanHigh + 1
       || c.observed == 0 || c.observed > now
       || (c.lastSweep.Some? && (c.lastSweep.value == 0 || c.lastSweep.value > c.observed))
       || (c.lifecycle != "running" && c.lifecycle != "stopped" && c.lifecycle != "paused") {
      return Corrupt;
    }
    var table := CollectorEntries(clock, c.version, first, c.high, c.entries);
    if table.None? {
      return Corrupt;
    }
    var entries := table.value;
    TableEntries(clock, c.version, first, c.high, c.entries, entries);
    if exists n :: n in entries && ((entries[n].handoff.Some? && entries[n].handoff.value > c.observed)
                                    || (entries[n].retired.Some? && entries[n].retired.value > c.observed)) {
      Unchecked(clock, cfg, c, entries);
      return Corrupt;
    }
    var prefix := Prefix(entries, first, c.high);
    assert IsPrefix(entries, first, prefix);
    if prefix != c.prefix {
      if IsPrefix(entries, first, c.prefix) { OnePrefix(entries, first, prefix, c.prefix); }
      Unchecked(clock, cfg, c, entries);
      return Corrupt;
    }
    assert CheckedTable(clock, cfg, c, entries);
    if number !in entries || entries[number].kind != "retired" || c.error != "" || c.lifecycle != "stopped" {
      return NotReady;
    }
    if entries[number].retired.Some? && entries[number].retired.value > now {
      return Corrupt;
    }
    return Proven(entries[number]);
  }

  lemma TableEntries(clock: Clock, version: int, first: int, high: int, fields: seq<(string, Value)>, m: map<int, Entry>)
    requires TableOf(clock, version, first, high, fields, m)
    ensures forall n | n in m :: first <= n <= high && EntryRules(version, m[n])
  {
    forall n | n in m ensures first <= n <= high && EntryRules(version, m[n]) {
      var i :| 0 <= i < |fields| && KeyNumber(fields[i].0, first, high) == Some(n)
               && ParseEntry(clock, version, fields[i].1) == Some(m[n]);
      EntryOfParse(clock, version, fields[i].1);
    }
  }

  lemma EntryOfParse(clock: Clock, version: int, v: Value)
    requires ParseEntry(clock, version, v).Some?
    ensures EntryRules(version, ParseEntry(clock, version, v).value)
  {
  }

  /** A proven entry is the evidence a compaction's guard asks for. */
  lemma ProvenJustifies(cfg: Config, c: Checkpoint, number: int, e: Entry, seen: Time, r: Record, at: Time)
    requires Supports(cfg, c, number, e, seen) && seen <= at
    requires r.delivered.Some? && e.digest == r.digest && r.delivered.value <= e.handoff.value && r.updated <= at
    ensures Justifies(Proof(e.digest, e.handoff.value, e.retired.value, c.observed), r, at)
  {
  }
}
