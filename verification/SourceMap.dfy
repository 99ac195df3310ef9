/** `Source.Map`: from a parsed payload to the core command, and why the core always accepts it. */
module SourceMap {
  import opened Text
  import opened Json
  import opened Checkout
  import opened Payload
  import opened RepositoryIdentity
  import opened CoreCommand
  import opened SourceConfig

  /** The JSON encoder of a value and the printed form of an instant. */
  datatype Printer = Printer(encode: Value -> Bytes, stamp: Time -> string)

  datatype Mapping =
    | Mapped(delivery: Delivery, input: Input)
    | BindingMismatch
    | InvalidRequest

  // ---------- The facts that are hashed ----------

  function TextOrNull(s: Option<string>): Value {
    match s
    case None => Null
    case Some(text) => String(text)
  }

  function FactsValue(printer: Printer, s: Source, p: Facts): Value {
    Object([
      ("version", Number(FormatInt(p.version))),
      ("workspace_id", String(s.workspaceId)),
      ("component_id", String(s.componentId)),
      ("source_id", String(s.id)),
      ("job_full_name", String(p.job)),
      ("build_number", Number(FormatInt(p.number))),
      ("result", String(p.result)),
      ("started_at", TextOrNull(if p.startedAt.None? then None else Some(printer.stamp(p.startedAt.value)))),
      ("completed_at", String(printer.stamp(p.completedAt)))
    ])
  }

  function BindingValue(b: Binding): Value {
    Object([
      ("binding_id", String(b.bindingId)),
      ("repository_id", String(b.repositoryId)),
      ("provider", String(b.provider)),
      ("provider_origin", String(b.providerOrigin)),
      ("external_id", String(b.externalId)),
      ("profile", String(b.profile)),
      ("effective_from_build", Number(FormatInt(b.effectiveFrom)))
    ])
  }

  function CheckoutValue(c: CICheckout): Value {
    Object([
      ("binding_id", String(c.bindingId)),
      ("state", String(c.state)),
      ("reason", TextOrNull(c.reason)),
      ("revision", match c.revision
                   case None => Null
                   case Some(r) => Object([("algorithm", String(r.algorithm)), ("oid", String(r.oid))]))
    ])
  }

  /** Version 2 embeds the version 1 object instead of extending it. */
  function Canonical(printer: Printer, s: Source, p: Facts): Value {
    if p.version == 2 && s.binding.Some? && p.checkout.Some? then
      Object([("facts", FactsValue(printer, s, p)), ("checkout_binding", BindingValue(s.binding.value)),
        ("checkout", CheckoutValue(p.checkout.value))])
    else FactsValue(printer, s, p)
  }

  /** The digest that identifies a delivery's facts at the receiver. */
  function FactsDigest(codec: Codec, printer: Printer, s: Source, p: Facts): string {
    codec.digest(printer.encode(Canonical(printer, s, p)))
  }

  /** Whether the payload's version and checkout are the ones the source expects of this build. */
  function Gate(s: Source, p: Facts): Option<Mapping> {
    match s.binding
    case None => if p.version != 1 || p.checkout.Some? then Some(InvalidRequest) else None
    case Some(b) =>
      var wanted := if p.number >= b.effectiveFrom then 2 else 1;
      if p.version != wanted || (p.version == 2 && (p.checkout.None? || !ValidCheckout(p.checkout.value)))
         || (p.version == 1 && p.checkout.Some?) then Some(InvalidRequest)
      else if p.checkout.Some? && p.checkout.value.bindingId != b.bindingId then Some(BindingMismatch)
      else None
  }

  function Map(codec: Codec, printer: Printer, s: Source, p: Facts, deliveryId: string): Mapping
    requires p.number >= 0
  {
    if p.job != s.job then BindingMismatch
    else if DeliveryId(p) != deliveryId then InvalidRequest
    else match Gate(s, p)
      case Some(refusal) => refusal
      case None =>
        Mapped(
          Delivery(s.workspaceId, s.id, deliveryId, FactsDigest(codec, printer, s, p), s.job, s.binding),
          Input(s.componentId, Format(p.number), CoreStatus(p.result), p.startedAt, p.completedAt, p.checkout))
  }

  // ---------- The core accepts every mapped command ----------

  lemma IdentifierIsExact(s: string)
    requires s != "" && forall c | c in s :: IsIdChar(c)
    ensures Exact(s) && ByteLength(s) == |s|
  {
    assert s[0] in s && s[|s| - 1] in s;
    AsciiLength(s);
  }

  lemma ScopedIsExact(id: string, prefix: string)
    requires |prefix| == 4 && (prefix == "wrk_" || prefix == "cmp_") && ScopedId(id, prefix)
    ensures Exact(id)
  {
    assert id[|id| - 1] == id[4..][|id| - 5] && id[4..][|id| - 5] in id[4..];
    assert id[0] == prefix[0];
  }

  /** The run key is a canonical number, and with its prefix a canonical delivery ID. */
  lemma RunKeyIsExact(number: nat)
    requires 1 <= number <= 2147483647
    ensures var key := Format(number);
      && Exact(key) && ByteLength(key) <= 10 && Exact("build-" + key) && ByteLength("build-" + key) <= 16
      && ParseInt(key) == Some(number) && FormatInt(number) == key
  {
    var key := Format(number);
    DecimalRoundTrip(number);
    assert Pow10(10) == 1_0000_000_000 by {
      assert Pow10(2) == 100 && Pow10(4) == 10_000 && Pow10(6) == 1_000_000 && Pow10(8) == 100_000_000;
    }
    FormatLength(number, 10);
    assert forall c | c in key :: IsIdChar(c);
    IdentifierIsExact(key);
    IdentifierIsExact("build-" + key);
  }

  lemma MappedDelivery(codec: Codec, printer: Printer, net: Net, s: Source, p: Facts, deliveryId: string)
    requires 1 <= p.number <= 2147483647 && ValidSource(net, s)
    requires Map(codec, printer, s, p, deliveryId).Mapped?
    ensures ValidDelivery(Map(codec, printer, s, p, deliveryId).delivery)
  {
    hide Canonical, ByteLength, Trimmed, NormalizeBinding, ValidJob;
    RunKeyIsExact(p.number);
    ScopedIsExact(s.workspaceId, "wrk_");
    IdentifierIsExact(s.id);
  }

  predicate SoundFacts(p: Facts) {
    && (p.version == 1 || p.version == 2) && ValidJob(p.job) && 1 <= p.number <= 2147483647
    && CoreStatus(p.result) in {"succeeded", "failed", "canceled"}
    && p.completedAt != ZERO_TIME && (p.startedAt.Some? ==> p.startedAt.value <= p.completedAt)
    && (p.version == 2 <==> p.checkout.Some?) && (p.checkout.Some? ==> ValidCheckout(p.checkout.value))
  }

  lemma MappedInput(codec: Codec, printer: Printer, net: Net, s: Source, p: Facts, deliveryId: string)
    requires SoundFacts(p) && ValidSource(net, s) && Map(codec, printer, s, p, deliveryId).Mapped?
    ensures ValidInput(Map(codec, printer, s, p, deliveryId).input)
  {
    hide Canonical, ByteLength, Trimmed, NormalizeBinding, ValidJob, CoreStatus;
    RunKeyIsExact(p.number);
    ScopedIsExact(s.componentId, "cmp_");
  }

  lemma MappedPair(codec: Codec, printer: Printer, net: Net, s: Source, p: Facts, deliveryId: string)
    requires SoundFacts(p) && ValidSource(net, s) && Map(codec, printer, s, p, deliveryId).Mapped?
    ensures var m := Map(codec, printer, s, p, deliveryId); ValidPair(net, m.delivery, m.input)
  {
    hide Canonical, ByteLength, Trimmed, NormalizeBinding, CoreStatus, ValidCheckout;
    RunKeyIsExact(p.number);
  }

  /**
   For every configured source and every payload the decoder accepts, a mapped command passes all three of the
   core's validators; a refusal can only come from `Map` itself.
   */
  lemma MappedIsAccepted(
      env: Environment, printer: Printer, config: Bytes, s: Source, body: Bytes, now: Time, deliveryId: string)
    requires Lawful(env.net) && Loaded(env, config).Some? && s in Loaded(env, config).value
    requires ParsePayload(env.codec, body, now).Accepted?
    ensures var p := ParsePayload(env.codec, body, now).facts;
      && p.number >= 0
      && (Map(env.codec, printer, s, p, deliveryId).Mapped? ==>
            var m := Map(env.codec, printer, s, p, deliveryId); AcceptedByCore(env.net, m.delivery, m.input))
  {
    hide Lawful, Loaded, Map, ParsePayload, ValidSource, ValidDelivery, ValidInput, ValidPair, ValidJob, CoreStatus, ValidCheckout;
    LoadedSourcesAreValid(env, config);
    AcceptedFacts(env.codec, body, now);
    var p := ParsePayload(env.codec, body, now).facts;
    if Map(env.codec, printer, s, p, deliveryId).Mapped? {
      MappedDelivery(env.codec, printer, env.net, s, p, deliveryId);
      MappedInput(env.codec, printer, env.net, s, p, deliveryId);
      MappedPair(env.codec, printer, env.net, s, p, deliveryId);
    }
  }

  /** `Map` answers exactly by job, delivery ID, version and binding. */
  lemma MapsExactly(codec: Codec, printer: Printer, s: Source, p: Facts, deliveryId: string)
    requires SoundFacts(p)
    ensures Map(codec, printer, s, p, deliveryId).Mapped? <==>
      && p.job == s.job && deliveryId == "build-" + Format(p.number)
      && (p.version == 2 <==> s.binding.Some? && p.number >= s.binding.value.effectiveFrom)
      && (p.version == 2 ==> p.checkout.value.bindingId == s.binding.value.bindingId)
  {
    hide Canonical, CoreStatus, ValidCheckout, ValidJob;
  }

  // ---------- The command says what the payload says ----------

  /** Everything a mapped command carries is the payload's or the source's own. */
  lemma MappedFaithfully(codec: Codec, printer: Printer, s: Source, p: Facts, deliveryId: string)
    requires SoundFacts(p) && Map(codec, printer, s, p, deliveryId).Mapped?
    ensures var i := Map(codec, printer, s, p, deliveryId).input;
      && (i.status == "succeeded" <==> p.result == "SUCCESS")
      && (i.status == "failed" <==> p.result == "FAILURE")
      && (i.status == "canceled" <==> p.result == "ABORTED")
      && i.startedAt == p.startedAt && i.completedAt == p.completedAt && i.checkout == p.checkout
      && i.componentId == s.componentId && ParseInt(i.externalRunKey) == Some(p.number)
    ensures var d := Map(codec, printer, s, p, deliveryId).delivery;
      && d.workspaceId == s.workspaceId && d.sourceId == s.id && d.job == s.job == p.job && d.binding == s.binding
      && d.deliveryId == deliveryId == "build-" + Map(codec, printer, s, p, deliveryId).input.externalRunKey
  {
    hide Canonical, ValidCheckout, ValidJob;
    DecimalRoundTrip(p.number);
  }

  /**
   From the body to the command: whatever `Map` returns for an accepted payload has the status that the object's
   `result` names, the times its members name, its build number as written and its job.
   */
  lemma RecordedAsReported(codec: Codec, printer: Printer, s: Source, body: Bytes, now: Time, deliveryId: string, v: Value)
    requires codec.decode(body) == Some(v) && ParsePayload(codec, body, now).Accepted?
    requires ParsePayload(codec, body, now).facts.number >= 0
    requires Map(codec, printer, s, ParsePayload(codec, body, now).facts, deliveryId).Mapped?
    ensures var i := Map(codec, printer, s, ParsePayload(codec, body, now).facts, deliveryId).input;
      && (Member(v, "result") == String("SUCCESS") <==> i.status == "succeeded")
      && (Member(v, "result") == String("FAILURE") <==> i.status == "failed")
      && (Member(v, "result") == String("ABORTED") <==> i.status == "canceled")
      && SaysInstant(codec, Member(v, "completed_at"), i.completedAt)
      && (match i.startedAt
          case None => Member(v, "started_at") == Null
          case Some(t) => SaysInstant(codec, Member(v, "started_at"), t))
      && Token(Member(v, "build_number")) == i.externalRunKey
      && Member(v, "job_full_name") == String(s.job)
      && Member(v, "building") == Bool(false) && Member(v, "in_progress") == Bool(false)
  {
    var p := ParsePayload(codec, body, now).facts;
    AcceptedExactly(codec, body, now, p);
    AcceptedFacts(codec, body, now);
    hide ParsePayload, Map, Canonical, ParseInt;
    MappedFaithfully(codec, printer, s, p, deliveryId);
    MapsExactly(codec, printer, s, p, deliveryId);
    RunKeyIsNumber(codec, printer, s, p, deliveryId);
    SaidMembers(codec, v, now, p);
  }

  lemma RunKeyIsNumber(codec: Codec, printer: Printer, s: Source, p: Facts, deliveryId: string)
    requires p.number >= 0 && Map(codec, printer, s, p, deliveryId).Mapped?
    ensures Map(codec, printer, s, p, deliveryId).input.externalRunKey == Format(p.number)
  {
    hide Canonical, CoreStatus, ValidCheckout;
  }

  /** What an accepted object says, member by member. */
  lemma SaidMembers(codec: Codec, v: Value, now: Time, p: Facts)
    requires Says(codec, v, now, p)
    ensures Member(v, "result") == String(p.result) && SaysInstant(codec, Member(v, "completed_at"), p.completedAt)
    ensures match p.startedAt
            case None => Member(v, "started_at") == Null
            case Some(t) => SaysInstant(codec, Member(v, "started_at"), t)
    ensures 1 <= p.number && Token(Member(v, "build_number")) == Format(p.number) && Member(v, "job_full_name") == String(p.job)
    ensures Member(v, "building") == Bool(false) && Member(v, "in_progress") == Bool(false)
  {
    hide Collect, ParseCheckout, ValidJob;
  }

  // ---------- The hashed facts are the command ----------

  ghost predicate Injective(printer: Printer) {
    forall a: Time, b: Time | printer.stamp(a) == printer.stamp(b) :: a == b
  }

  lemma FormatIntInjective(a: int, b: int)
    requires FormatInt(a) == FormatInt(b)
    ensures a == b
  {
    IntRoundTrip(a);
    IntRoundTrip(b);
  }

  lemma FactsDetermine(printer: Printer, s: Source, p: Facts, s': Source, p': Facts)
    requires Injective(printer) && FactsValue(printer, s, p) == FactsValue(printer, s', p')
    ensures p.(checkout := None) == p'.(checkout := None)
    ensures s.workspaceId == s'.workspaceId && s.componentId == s'.componentId && s.id == s'.id
  {
    hide FormatInt;
    var a, b := FactsValue(printer, s, p).fields, FactsValue(printer, s', p').fields;
    assert a[0] == b[0] && a[1] == b[1] && a[2] == b[2] && a[3] == b[3] && a[4] == b[4];
    assert a[5] == b[5] && a[6] == b[6] && a[7] == b[7] && a[8] == b[8];
    FormatIntInjective(p.version, p'.version);
    FormatIntInjective(p.number, p'.number);
    StampDetermines(printer, p.completedAt, p'.completedAt);
    if p.startedAt.Some? && p'.startedAt.Some? {
      StampDetermines(printer, p.startedAt.value, p'.startedAt.value);
    }
  }

  lemma StampDetermines(printer: Printer, a: Time, b: Time)
    requires Injective(printer) && printer.stamp(a) == printer.stamp(b)
    ensures a == b
  {
  }

  lemma CheckoutDetermines(c: CICheckout, c': CICheckout)
    requires CheckoutValue(c) == CheckoutValue(c')
    ensures c == c'
  {
    var a, b := CheckoutValue(c).fields, CheckoutValue(c').fields;
    assert a[0] == b[0] && a[1] == b[1] && a[2] == b[2] && a[3] == b[3];
    if c.revision.Some? {
      var x, y := a[3].1.fields, b[3].1.fields;
      assert x[0] == y[0] && x[1] == y[1];
    }
  }

  lemma BindingDetermines(c: Binding, c': Binding)
    requires BindingValue(c) == BindingValue(c')
    ensures c == c'
  {
    hide FormatInt;
    var a, b := BindingValue(c).fields, BindingValue(c').fields;
    assert a[0] == b[0] && a[1] == b[1] && a[2] == b[2] && a[3] == b[3] && a[4] == b[4] && a[5] == b[5] && a[6] == b[6];
    FormatIntInjective(c.effectiveFrom, c'.effectiveFrom);
  }

  /**
   The hashed value determines the command: two mapped payloads with the same canonical facts give the same input
   and the same delivery, except that a version 1 fact does not name the source's binding.
   */
  lemma CanonicalDeterminesCommand(
      codec: Codec, printer: Printer, s: Source, p: Facts, id: string, s': Source, p': Facts, id': string)
    requires Injective(printer) && SoundFacts(p) && SoundFacts(p')
    requires Map(codec, printer, s, p, id).Mapped? && Map(codec, printer, s', p', id').Mapped?
    requires Canonical(printer, s, p) == Canonical(printer, s', p')
    ensures var m, m' := Map(codec, printer, s, p, id), Map(codec, printer, s', p', id');
      && m.input == m'.input && m.delivery.(binding := None) == m'.delivery.(binding := None)
      && (p.version == 2 ==> m.delivery == m'.delivery)
  {
    hide FormatInt, Format, CoreStatus, ValidCheckout, ValidJob, FactsValue, BindingValue, CheckoutValue, Injective;
    CanonicalVersion(printer, s, p, s', p');
    if p.version == 2 {
      var a, b := Canonical(printer, s, p).fields, Canonical(printer, s', p').fields;
      assert a[0] == b[0] && a[1] == b[1] && a[2] == b[2];
      FactsDetermine(printer, s, p, s', p');
      BindingDetermines(s.binding.value, s'.binding.value);
      CheckoutDetermines(p.checkout.value, p'.checkout.value);
    } else {
      FactsDetermine(printer, s, p, s', p');
    }
  }

  predicate Bound(s: Source, p: Facts) { p.version == 2 && s.binding.Some? && p.checkout.Some? }

  /** The two encodings cannot be confused: their first keys differ. */
  lemma CanonicalVersion(printer: Printer, s: Source, p: Facts, s': Source, p': Facts)
    requires Canonical(printer, s, p) == Canonical(printer, s', p')
    ensures Bound(s, p) <==> Bound(s', p')
  {
    assert Canonical(printer, s, p).fields[0].0 == if Bound(s, p) then "facts" else "version";
    assert Canonical(printer, s', p').fields[0].0 == if Bound(s', p') then "facts" else "version";
    assert |"facts"| != |"version"|;
  }
}
