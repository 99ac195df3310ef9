/** The delivery payload: the strict decoder `ParsePayload` and its version gate. */
module Payload {
  import opened Text
  import opened Json
  import opened Sums
  import opened Checkout

  newtype byte = x: int | 0 <= x < 256
  type Bytes = seq<byte>

  /** Nanoseconds since Go's zero time, so the zero time is 0. */
  type Time = int
  const ZERO_TIME: Time := 0
  const SECOND: Time := 1_000_000_000
  const MINUTE: Time := 60 * SECOND
  const HOUR: Time := 60 * MINUTE
  const DAY: Time := 24 * HOUR

  const MAX_BODY := 16384

  /** `^[0-9a-f]{64}$` */
  predicate Sha256Pattern(s: string) { LowerHex(s, 64) }

  type Digest = s: string | Sha256Pattern(s) witness seq(64, _ => '0')
  type Word = x: nat | x < 65536
  type StampLength = x: nat | x <= 30

  /**
   The foreign functions the worker relies on: SHA-256 of bytes, the JSON text decoder, the parser
   of a UTC instant (none unless the text has the protocol's shape and is a calendar time), the first
   two hash bytes that `spoolDelay` draws its jitter from, and the length of an instant printed with
   up to nine fraction digits. Every theorem holds for all of them.
   */
  datatype Codec = Codec(
    digest: Bytes -> Digest,
    decode: Bytes -> Option<Value>,
    instant: string -> Option<Time>,
    jitter: (string, int) -> Word,
    stampLength: Time -> StampLength)

  datatype Facts = Facts(
    version: int, job: string, number: int, result: string,
    startedAt: Option<Time>, completedAt: Time, checkout: Option<CICheckout>)

  /** The two late refusals carry the identity the decoder had already established. */
  datatype Parse =
    | Accepted(facts: Facts)
    | NotCompleted(version: int, job: string, number: int)
    | UnsupportedResult(version: int, job: string, number: int)
    | Invalid

  /** `Payload.DeliveryID`: what the sender names a delivery by. */
  function DeliveryId(p: Facts): string { "build-" + FormatInt(p.number) }

  const V1_NAMES := ["version", "job_full_name", "build_number", "building", "in_progress", "result", "started_at", "completed_at"]
  const V2_NAMES := V1_NAMES + ["checkout"]

  const CHECKOUT_NAMES := ["binding_id", "state", "reason", "revision"]
  const REVISION_NAMES := ["algorithm", "oid"]

  predicate ValidJob(job: string) {
    && job != "" && ByteLength(job) <= 255 && Trimmed(job)
    && forall c :: c in job ==> !IsControl(c) && c != '\U{FFFD}'
  }

  function CoreStatus(result: string): string {
    match result
    case "SUCCESS" => "succeeded"
    case "FAILURE" => "failed"
    case "ABORTED" => "canceled"
    case _ => ""
  }

  /** The schema probe: the version a lenient decoder sees, 0 when there is none. */
  function Probe(v: Value): int {
    if v.Object? && "version" in Collect(v.fields) then
      match ToInt(Collect(v.fields)["version"])
      case Some(n) => n
      case None => 0
    else 0
  }

  function Instant(codec: Codec, v: Value): Option<Time> {
    match ToText(v)
    case None => None
    case Some(text) =>
      match codec.instant(text)
      case Some(t) => if t == ZERO_TIME then None else Some(t)
      case None => None
  }

  function ParseCheckout(v: Value): Option<CICheckout> {
    match Fields(v, CHECKOUT_NAMES)
    case None => None
    case Some(f) =>
      assert CHECKOUT_NAMES == ["binding_id", "state", "reason", "revision"];
      if !f["binding_id"].String? || !f["state"].String? then None
      else if !f["reason"].Null? && !f["reason"].String? then None
      else
        var reason := if f["reason"].Null? then None else Some(f["reason"].text);
        var revision := ParseRevision(f["revision"]);
        if revision.None? && !f["revision"].Null? then None
        else
          var c := CICheckout(f["binding_id"].text, f["state"].text, reason, revision);
          if ValidCheckout(c) then Some(c) else None
  }

  function ParseRevision(v: Value): Option<GitRevision> {
    match Fields(v, REVISION_NAMES)
    case None => None
    case Some(f) =>
      assert REVISION_NAMES == ["algorithm", "oid"];
      if f["algorithm"].String? && f["oid"].String?
      then Some(GitRevision(f["algorithm"].text, f["oid"].text)) else None
  }

  function ParsePayload(codec: Codec, body: Bytes, now: Time): Parse {
    if |body| > MAX_BODY then Invalid
    else match codec.decode(body)
         case None => Invalid
         case Some(v) =>
           var probe := Probe(v);
           if probe != 1 && probe != 2 then Invalid
           else match Fields(v, SchemaOf(probe))
                case None => Invalid
                case Some(f) =>
                  SchemaNames(v, probe);
                  ParseFields(codec, probe, f, now)
  }

  function SchemaOf(version: int): seq<string> {
    if version == 2 then V2_NAMES else V1_NAMES
  }

  lemma SchemaNames(v: Value, version: int)
    ensures Fields(v, SchemaOf(version)).Some? ==> HasNames(version, Fields(v, SchemaOf(version)).value)
  {
    var names := SchemaOf(version);
    assert "version" in names && "job_full_name" in names && "build_number" in names && "building" in names;
    assert "in_progress" in names && "result" in names && "started_at" in names && "completed_at" in names;
    assert version == 2 ==> "checkout" in names;
  }

  predicate HasNames(version: int, f: map<string, Value>) {
    && "version" in f && "job_full_name" in f && "build_number" in f && "building" in f
    && "in_progress" in f && "result" in f && "started_at" in f && "completed_at" in f
    && (version == 2 ==> "checkout" in f)
  }

  function ParseFields(codec: Codec, version: int, f: map<string, Value>, now: Time): Parse
    requires HasNames(version, f)
  {
    var job := ToText(f["job_full_name"]);
    var number := ToInt(f["build_number"]);
    var building := ToBool(f["building"]);
    var inProgress := ToBool(f["in_progress"]);
    if job.None? || number.None? || building.None? || inProgress.None? || ToInt(f["version"]).None? then Invalid
    else if !ValidJob(job.value) || !BuildNumberToken(Token(f["build_number"])) || number.value > 2147483647 then Invalid
    else if building.value || inProgress.value then NotCompleted(version, job.value, number.value)
    else if f["result"].Null? then UnsupportedResult(version, job.value, number.value)
    else if !f["result"].String? then Invalid
    else if CoreStatus(f["result"].text) == "" then UnsupportedResult(version, job.value, number.value)
    else
      var completed := Instant(codec, f["completed_at"]);
      var started := Instant(codec, f["started_at"]);
      if completed.None? || completed.value > now + 300 * SECOND then Invalid
      else if !f["started_at"].Null? && (started.None? || started.value > completed.value) then Invalid
      else if version == 2 then
        match ParseCheckout(f["checkout"])
        case None => Invalid
        case Some(c) => Accepted(Facts(version, job.value, number.value, f["result"].text, started, completed.value, Some(c)))
      else Accepted(Facts(version, job.value, number.value, f["result"].text, started, completed.value, None))
  }

  lemma FieldsStayAccepted(codec: Codec, version: int, f: map<string, Value>, now: Time, later: Time)
    requires HasNames(version, f) && now <= later && ParseFields(codec, version, f, now).Accepted?
    ensures ParseFields(codec, version, f, later) == ParseFields(codec, version, f, now)
  {
  }

  lemma FieldsAccepted(codec: Codec, version: int, f: map<string, Value>, now: Time)
    requires HasNames(version, f) && (version == 1 || version == 2)
    requires ParseFields(codec, version, f, now).Accepted?
    ensures var p := ParseFields(codec, version, f, now).facts;
      && p.version == version && ValidJob(p.job) && 1 <= p.number <= 2147483647
      && CoreStatus(p.result) in {"succeeded", "failed", "canceled"}
      && p.completedAt != ZERO_TIME && p.completedAt <= now + 300 * SECOND
      && (p.startedAt.Some? ==> p.startedAt.value <= p.completedAt)
      && (version == 2 <==> p.checkout.Some?)
      && (p.checkout.Some? ==> ValidCheckout(p.checkout.value))
  {
    FormatOfValue(f["build_number"].token);
  }

  /** An accepted payload keeps its meaning at every later instant; no clock reading can turn it invalid again. */
  lemma AcceptedStaysAccepted(codec: Codec, body: Bytes, now: Time, later: Time)
    requires now <= later && ParsePayload(codec, body, now).Accepted?
    ensures ParsePayload(codec, body, later) == ParsePayload(codec, body, now)
  {
    var v := codec.decode(body).value;
    SchemaNames(v, Probe(v));
    FieldsStayAccepted(codec, Probe(v), Fields(v, SchemaOf(Probe(v))).value, now, later);
  }

  /** Every accepted payload has a canonical build number, a terminal status and ordered times. */
  lemma AcceptedFacts(codec: Codec, body: Bytes, now: Time)
    requires ParsePayload(codec, body, now).Accepted?
    ensures var p := ParsePayload(codec, body, now).facts;
      && (p.version == 1 || p.version == 2)
      && ValidJob(p.job) && 1 <= p.number <= 2147483647
      && CoreStatus(p.result) in {"succeeded", "failed", "canceled"}
      && p.completedAt != ZERO_TIME && p.completedAt <= now + 300 * SECOND
      && (p.startedAt.Some? ==> p.startedAt.value <= p.completedAt)
      && (p.version == 2 <==> p.checkout.Some?)
      && (p.checkout.Some? ==> ValidCheckout(p.checkout.value))
  {
    var v := codec.decode(body).value;
    SchemaNames(v, Probe(v));
    FieldsAccepted(codec, Probe(v), Fields(v, SchemaOf(Probe(v))).value, now);
  }

  // ---------- The decoder step by step, and what it accepts ----------

  method ReadCheckout(v: Value) returns (r: Option<CICheckout>)
    ensures r == ParseCheckout(v)
  {
    hide Closed, Collect;
    var fields := DecodeObject(v, ["binding_id", "state", "reason", "revision"]);
    if fields.None? {
      return None;
    }
    assert CHECKOUT_NAMES == ["binding_id", "state", "reason", "revision"];
    NamesPresent(v, CHECKOUT_NAMES);
    assert CHECKOUT_NAMES[0] in CHECKOUT_NAMES && CHECKOUT_NAMES[1] in CHECKOUT_NAMES;
    assert CHECKOUT_NAMES[2] in CHECKOUT_NAMES && CHECKOUT_NAMES[3] in CHECKOUT_NAMES;
    var f := fields.value;
    if !f["binding_id"].String? || !f["state"].String? {
      return None;
    }
    var c := CICheckout(f["binding_id"].text, f["state"].text, None, None);
    if !f["reason"].Null? {
      if !f["reason"].String? {
        return None;
      }
      c := c.(reason := Some(f["reason"].text));
    }
    if !f["revision"].Null? {
      var revision := ReadRevision(f["revision"]);
      if revision.None? {
        return None;
      }
      c := c.(revision := revision);
    } else {
      NullIsNoRevision();
    }
    if !ValidCheckout(c) {
      return None;
    }
    return Some(c);
  }

  lemma NullIsNoRevision()
    ensures ParseRevision(Null) == None
  {
  }

  method ReadRevision(v: Value) returns (r: Option<GitRevision>)
    ensures r == ParseRevision(v)
  {
    hide Closed, Collect;
    var fields := DecodeObject(v, ["algorithm", "oid"]);
    if fields.None? {
      return None;
    }
    assert REVISION_NAMES == ["algorithm", "oid"];
    NamesPresent(v, REVISION_NAMES);
    assert REVISION_NAMES[0] in REVISION_NAMES && REVISION_NAMES[1] in REVISION_NAMES;
    var f := fields.value;
    if !f["algorithm"].String? || !f["oid"].String? {
      return None;
    }
    return Some(GitRevision(f["algorithm"].text, f["oid"].text));
  }

  /** `ParsePayload`, statement by statement. */
  method ReadPayload(codec: Codec, body: Bytes, now: Time) returns (r: Parse)
    ensures r == ParsePayload(codec, body, now)
  {
    hide Closed, Collect, ParseCheckout, HasNames;
    if |body| > 16384 {
      return Invalid;
    }
    var decoded := codec.decode(body);
    if decoded.None? {
      return Invalid;
    }
    var v := decoded.value;
    var version := Probe(v);
    if version != 1 && version != 2 {
      return Invalid;
    }
    var names := ["version", "job_full_name", "build_number", "building", "in_progress", "result", "started_at", "completed_at"];
    if version == 2 {
      names := names + ["checkout"];
    }
    assert names == SchemaOf(version);
    var fields := DecodeObject(v, names);
    if fields.None? {
      return Invalid;
    }
    SchemaNames(v, version);
    r := ReadFields(codec, version, fields.value, now);
  }

  /** The typed members, in the order the decoder looks at them. */
  method ReadFields(codec: Codec, version: int, f: map<string, Value>, now: Time) returns (r: Parse)
    requires HasNames(version, f)
    ensures r == ParseFields(codec, version, f, now)
  {
    hide ParseCheckout, ValidJob, ParseInt;
    if ToInt(f["version"]).None? || !f["job_full_name"].String? || ToInt(f["build_number"]).None?
       || !f["building"].Bool? || !f["in_progress"].Bool? {
      return Invalid;
    }
    var job, number := f["job_full_name"].text, ToInt(f["build_number"]).value;
    if !ValidJob(job) || !BuildNumberToken(Token(f["build_number"])) || number > 2147483647 {
      return Invalid;
    }
    if f["building"].flag || f["in_progress"].flag {
      return NotCompleted(version, job, number);
    }
    if !f["result"].String? {
      return if f["result"].Null? then UnsupportedResult(version, job, number) else Invalid;
    }
    var result := f["result"].text;
    if result != "SUCCESS" && result != "FAILURE" && result != "ABORTED" {
      return UnsupportedResult(version, job, number);
    }
    var completed := ReadInstant(codec, f["completed_at"]);
    if completed.None? || completed.value > now + 300 * SECOND {
      return Invalid;
    }
    var started := None;
    if !f["started_at"].Null? {
      started := ReadInstant(codec, f["started_at"]);
      if started.None? || started.value > completed.value {
        return Invalid;
      }
    }
    var checkout := None;
    if version == 2 {
      checkout := ReadCheckout(f["checkout"]);
      if checkout.None? {
        return Invalid;
      }
    }
    return Accepted(Facts(version, job, number, result, started, completed.value, checkout));
  }

  /** `parseTime` */
  method ReadInstant(codec: Codec, v: Value) returns (t: Option<Time>)
    ensures t == Instant(codec, v)
  {
    if !v.String? {
      return None;
    }
    t := codec.instant(v.text);
    if t == Some(0) {
      return None;
    }
  }

  /** The object has the names of the version's closed schema, each once, and no other. */
  predicate HasSchema(v: Value, version: int) {
    && v.Object? && DistinctKeys(v.fields)
    && Collect(v.fields).Keys == {"version", "job_full_name", "build_number", "building", "in_progress", "result",
                                  "started_at", "completed_at"} + (if version == 2 then {"checkout"} else {})
  }

  /** The members say exactly these facts: a finished run of the job, with times in order and not in the far future. */
  predicate Say(codec: Codec, f: map<string, Value>, now: Time, p: Facts)
    requires HasNames(p.version, f)
  {
    && ToInt(f["version"]) == Some(p.version)
    && f["job_full_name"] == String(p.job) && p.job != "" && ByteLength(p.job) <= 255 && Trimmed(p.job)
    && (forall c | c in p.job :: !IsControl(c) && c != '\U{FFFD}')
    && ToInt(f["build_number"]) == Some(p.number) && 1 <= p.number <= 2147483647 && Token(f["build_number"]) == Format(p.number)
    && f["building"] == Bool(false) && f["in_progress"] == Bool(false)
    && f["result"] == String(p.result) && (p.result == "SUCCESS" || p.result == "FAILURE" || p.result == "ABORTED")
    && SaysInstant(codec, f["completed_at"], p.completedAt) && p.completedAt <= now + 300_000_000_000
    && (match p.startedAt
        case None => f["started_at"] == Null
        case Some(t) => SaysInstant(codec, f["started_at"], t) && t <= p.completedAt)
    && (if p.version == 2 then p.checkout.Some? && ParseCheckout(f["checkout"]) == p.checkout else p.checkout.None?)
  }

  predicate SaysInstant(codec: Codec, v: Value, t: Time) {
    v.String? && codec.instant(v.text) == Some(t) && t != 0
  }

  predicate Says(codec: Codec, v: Value, now: Time, p: Facts) {
    (p.version == 1 || p.version == 2) && HasSchema(v, p.version) && Say(codec, Collect(v.fields), now, p)
  }

  /** A payload is accepted with facts p exactly when it is not too long and its object says p. */
  lemma AcceptedExactly(codec: Codec, body: Bytes, now: Time, p: Facts)
    ensures ParsePayload(codec, body, now) == Accepted(p)
            <==> |body| <= 16384 && codec.decode(body).Some? && Says(codec, codec.decode(body).value, now, p)
  {
    if |body| <= 16384 && codec.decode(body).Some? {
      var v := codec.decode(body).value;
      SchemaExactly(v, 1);
      SchemaExactly(v, 2);
      if HasSchema(v, 1) { FieldsSay(codec, 1, Collect(v.fields), now, p); }
      if HasSchema(v, 2) { FieldsSay(codec, 2, Collect(v.fields), now, p); }
      hide ParseFields, HasSchema, Say, Fields, HasNames, SchemaOf;
    }
  }

  /** The closed-schema rule and the set of names are the same. */
  lemma SchemaExactly(v: Value, version: int)
    requires version == 1 || version == 2
    ensures Fields(v, SchemaOf(version)).Some? <==> HasSchema(v, version)
    ensures HasSchema(v, version) ==> Fields(v, SchemaOf(version)) == Some(Collect(v.fields)) && HasNames(version, Collect(v.fields))
  {
    var names := SchemaOf(version);
    hide Collect, DistinctNames, SchemaOf;
    NamesAreDistinct(version);
    if Fields(v, names).Some? {
      FieldsKeys(v, names);
    } else if HasSchema(v, version) {
      CollectSize(v.fields);
      SizeOfNames(names);
      assert forall n | n in names :: n in Collect(v.fields).Keys;
    }
  }

  lemma SizeOfNames(names: seq<string>)
    requires DistinctNames(names)
    ensures |set n | n in names| == |names|
  {
    DistinctSize(names);
  }

  lemma NamesAreDistinct(version: int)
    ensures DistinctNames(SchemaOf(version))
    ensures (set n | n in SchemaOf(version)) == {"version", "job_full_name", "build_number", "building", "in_progress", "result",
                                                 "started_at", "completed_at"} + (if version == 2 then {"checkout"} else {})
  {
  }

  /** A canonical numeral is the printed form of its value. */
  lemma TokenIsFormat(v: Value, n: int)
    requires ToInt(v) == Some(n) && n <= 2147483647
    ensures BuildNumberToken(Token(v)) <==> n >= 1 && Token(v) == Format(n)
  {
    var s := Token(v);
    if BuildNumberToken(s) { FormatOfValue(s); }
    if n >= 1 && s == Format(n) {
      assert Pow10(10) == 1_0000_000_000 by {
        assert Pow10(2) == 100 && Pow10(4) == 10_000 && Pow10(6) == 1_000_000 && Pow10(8) == 100_000_000;
      }
      FormatLength(n, 10);
    }
  }

  lemma FieldsSay(codec: Codec, version: int, f: map<string, Value>, now: Time, p: Facts)
    requires HasNames(version, f) && (version == 1 || version == 2)
    ensures ParseFields(codec, version, f, now) == Accepted(p) && ToInt(f["version"]) == Some(version)
            <==> p.version == version && Say(codec, f, now, p)
  {
    hide ParseCheckout, ParseInt, Format, BuildNumberToken;
    var n := ToInt(f["build_number"]);
    if n.Some? && n.value <= 2147483647 { TokenIsFormat(f["build_number"], n.value); }
    ResultSays(f["result"]);
    assert ValidJob(p.job) <==> p.job != "" && ByteLength(p.job) <= 255 && Trimmed(p.job) && forall c | c in p.job :: !IsControl(c) && c != '\U{FFFD}';
    hide ToInt, Token, CoreStatus, ValidJob, ByteLength, Trimmed, IsControl;
  }

  lemma ResultSays(v: Value)
    ensures v.String? ==> (CoreStatus(v.text) != "" <==> v.text == "SUCCESS" || v.text == "FAILURE" || v.text == "ABORTED")
  {
  }
}
