/** Sizes of the encoded files: everything the worker writes stays below its own write and read limits. */
module SpoolSize {
  import opened Text
  import opened Payload
  import opened DeliveryError
  import opened SpoolNames
  import opened SpoolRecords

  const MAX_RECORD := 32768
  const MAX_ACK := 1024

  /** Length of one member of a JSON object: the quoted name, a colon, the value, and a comma or the closing brace. */
  function Field(name: string, value: nat): nat { |name| + 4 + value }

  /** A string of characters that JSON does not escape. */
  function Quoted(s: string): nat { |s| + 2 }

  function Numeral(n: int): nat { if n < 0 then 1 + |Format(-n)| else |Format(n)| }

  function Base64(length: nat): nat { 4 * ((length + 2) / 3) }

  function Stamp(c: Codec, t: Time): nat { c.stampLength(t) + 2 }

  function OptionalStamp(c: Codec, t: Option<Time>): nat { if t.None? then 4 else Stamp(c, t.value) }

  function Stamps(c: Codec, ts: seq<Time>): nat {
    if ts == [] then 0 else Stamps(c, ts[..|ts| - 1]) + Stamp(c, ts[|ts| - 1]) + 1
  }

  function DispositionText(d: Disposition): string {
    match d
    case NoDisposition => ""
    case Retry => "retry"
    case Block => "block"
    case Pause => "pause"
    case OtherDisposition(text) => text
  }

  function IdentitySize(r: Record): nat {
    Field("version", Numeral(r.version)) + Field("binding_sha256", Quoted(r.binding)) + Field("build_number", Numeral(r.number))
    + Field("payload", Base64(|r.payload|) + 2) + Field("payload_sha256", Quoted(r.digest))
  }

  function ProgressSize(r: Record): nat {
    Field("state", Quoted(StatusText(r.status))) + Field("reason", Quoted(CodeText(r.reason)))
    + Field("disposition", Quoted(DispositionText(r.disposition))) + Field("last_http_status", Numeral(r.httpStatus))
    + Field("rounds", Numeral(r.rounds))
  }

  function HistorySize(c: Codec, r: Record): nat {
    Field("first_attempt", OptionalStamp(c, r.first)) + Field("next_attempt", Stamp(c, r.next))
    + Field("created_at", Stamp(c, r.created)) + Field("updated_at", Stamp(c, r.updated))
    + Field("delivered_at", OptionalStamp(c, r.delivered)) + Field("ci_run_id", Quoted(r.ciRunId))
    + Field("manual_retries", 2 + Stamps(c, r.resets))
  }

  function RecordSize(c: Codec, r: Record): nat { 1 + IdentitySize(r) + ProgressSize(r) + HistorySize(c, r) }

  function TombstoneSize(c: Codec, t: Tombstone): nat {
    1 + Field("version", Numeral(t.version)) + Field("binding_sha256", Quoted(t.binding)) + Field("source_id", Quoted(t.sourceId))
      + Field("build_number", Numeral(t.number)) + Field("payload_sha256", Quoted(t.digest)) + Field("ci_run_id", Quoted(t.ciRunId))
      + Field("delivered_at", Stamp(c, t.delivered)) + Field("compacted_at", Stamp(c, t.compacted))
  }

  function SizeOf(c: Codec, f: StateFile): nat {
    if f.Full? then RecordSize(c, f.record) else TombstoneSize(c, f.tombstone)
  }

  function AckSize(a: Ack): nat {
    1 + Field("version", Numeral(a.version)) + Field("source_id", Quoted(a.sourceId))
                  + Field("build_number", Numeral(a.number)) + Field("payload_sha256", Quoted(a.digest))
  }

  lemma {:induction false} StampsLength(c: Codec, ts: seq<Time>)
    ensures Stamps(c, ts) <= 33 * |ts|
  {
    if ts != [] { StampsLength(c, ts[..|ts| - 1]); }
  }

  lemma NumeralLength(n: int, k: nat)
    requires 0 <= n < Pow10(k) && k >= 1
    ensures Numeral(n) <= k
  {
    FormatLength(n, k);
  }

  lemma Powers()
    ensures Pow10(1) == 10 && Pow10(2) == 100 && Pow10(3) == 1000 && Pow10(10) == 10_000_000_000
  {
    assert Pow10(4) == 10_000;
    assert Pow10(6) == 1_000_000;
    assert Pow10(8) == 100_000_000;
  }

  lemma CodeLength(c: Code)
    requires !c.OtherCode?
    ensures |CodeText(c)| <= 25
  {
  }

  /**
   Every record and tombstone of the worker fits the record limit, and every acknowledgement its read limit:
   neither the write guard nor the limit of a later read can refuse the worker's own file.
   */
  lemma OwnFilesFit(cfg: Config, n: int, f: StateFile, now: Time)
    requires ValidConfig(cfg) && 0 < n <= MAX_BUILD && FileInv(cfg, n, f, now)
    ensures SizeOf(cfg.codec, f) <= MAX_RECORD
    ensures AckSize(AckOf(cfg, n, DigestOf(f))) <= MAX_ACK
  {
    if f.Full? { OwnRecordBounded(cfg, n, f.record, now); RecordFits(cfg.codec, f.record); } else { TombstoneFits(cfg, n, f.tombstone, now); }
    Powers();
    NumeralLength(n, 10);
    NumeralLength(1, 1);
    AckFits(AckOf(cfg, n, DigestOf(f)));
  }

  lemma AckFits(a: Ack)
    requires Numeral(a.version) <= 1 && Numeral(a.number) <= 10 && |a.sourceId| <= 64 && |a.digest| == 64
    ensures AckSize(a) <= MAX_ACK
  {
  }

  lemma TombstoneFits(cfg: Config, n: int, t: Tombstone, now: Time)
    requires ValidConfig(cfg) && 0 < n <= MAX_BUILD && TombstoneInv(cfg, n, t, now)
    ensures TombstoneSize(cfg.codec, t) <= MAX_RECORD && |t.digest| == 64
  {
    hide Numeral;
    Powers();
    NumeralLength(t.version, 1);
    NumeralLength(t.number, 10);
  }

  /** The bounds of a record that matter for its size. */
  predicate Bounded(r: Record) {
    && r.version == 1 && 0 < r.number <= MAX_BUILD && |r.binding| == 64 && |r.digest| == 64
    && |r.payload| <= MAX_BODY && 0 <= r.rounds <= MAX_ROUNDS && |r.resets| <= MAX_RESETS
    && 0 <= r.httpStatus <= 999 && |r.ciRunId| <= MAX_RESPONSE && !r.reason.OtherCode?
    && |StatusText(r.status)| <= 10 && |DispositionText(r.disposition)| <= 5
  }

  lemma OwnRecordBounded(cfg: Config, n: int, r: Record, now: Time)
    requires ValidConfig(cfg) && 0 < n <= MAX_BUILD && RecordInv(cfg, n, r, now)
    ensures Bounded(r)
  {
    hide Sendable, ValidJob;
  }

  lemma IdentityFits(r: Record)
    requires Bounded(r)
    ensures IdentitySize(r) <= 22100
  {
    hide Numeral, CodeText, StatusText, DispositionText, Base64;
    Powers();
    NumeralLength(r.version, 1);
    NumeralLength(r.number, 10);
    Base64Length(|r.payload|);
  }

  lemma ProgressFits(r: Record)
    requires Bounded(r)
    ensures ProgressSize(r) <= 120
  {
    hide Numeral, CodeText, StatusText, DispositionText;
    Powers();
    NumeralLength(r.rounds, 2);
    NumeralLength(r.httpStatus, 3);
    CodeLength(r.reason);
  }

  lemma HistoryFits(c: Codec, r: Record)
    requires Bounded(r)
    ensures HistorySize(c, r) <= 8600
  {
    hide StatusText, DispositionText, Stamps;
    StampsLength(c, r.resets);
  }

  lemma RecordFits(c: Codec, r: Record)
    requires Bounded(r)
    ensures RecordSize(c, r) <= MAX_RECORD
  {
    hide Bounded, IdentitySize, ProgressSize, HistorySize;
    IdentityFits(r);
    ProgressFits(r);
    HistoryFits(c, r);
  }

  lemma Base64Length(length: nat)
    requires length <= MAX_BODY
    ensures Base64(length) <= 21848
  {
  }
}
