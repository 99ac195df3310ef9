/** The core command that records a completed CI run: its inputs and the three validators it applies. */
module CoreCommand {
  import opened Text
  import opened Checkout
  import opened RepositoryIdentity
  import opened Payload

  const CHECKOUT_PROFILE := "jenkins-git-single-checkout-v1"

  datatype Binding = Binding(
    bindingId: string, repositoryId: string, provider: string, providerOrigin: string, externalId: string,
    profile: string, effectiveFrom: int)

  const CONFIGURATION_PREFIXES := ["wrk_", "usr_", "tem_", "prj_", "chn_", "cmp_", "env_", "dpa_", "rep_", "lnk_"]

  predicate ValidConfigurationId(id: string, prefix: string) {
    && ByteLength(id) <= 128 && HasPrefix(id, prefix)
    && |id| > 4 && id[..4] in CONFIGURATION_PREFIXES && forall c | c in id[4..] :: IsIdChar(c)
  }

  /** The binding with its origin in normal form; none when it is not valid. */
  function NormalizeBinding(net: Net, b: Binding): Option<Binding> {
    match NormalizeRepositoryIdentity(net, b.provider, b.providerOrigin, b.externalId)
    case None => None
    case Some(origin) =>
      if TokenPattern(b.bindingId) && ValidConfigurationId(b.repositoryId, "rep_") && b.profile == CHECKOUT_PROFILE
         && 0 < b.effectiveFrom <= 2147483647
      then Some(b.(providerOrigin := origin)) else None
  }

  /** Which bindings are normalised: those of three providers, with the one profile, from a positive build on. */
  lemma BindingExactly(net: Net, b: Binding, n: Binding)
    ensures NormalizeBinding(net, b) == Some(n) <==>
      && n == b.(providerOrigin := n.providerOrigin) && Origin(net, b.providerOrigin) == Some(n.providerOrigin)
      && b.provider in {"github", "gitlab", "gitea"} && 1 <= ByteLength(b.externalId) <= 255
      && (forall c | c in b.externalId :: !IsSpace(c) && !IsControl(c))
      && TokenPattern(b.bindingId) && |b.repositoryId| > 4 && b.repositoryId[..4] == "rep_" && ByteLength(b.repositoryId) <= 128
      && (forall c | c in b.repositoryId[4..] :: IsIdChar(c))
      && b.profile == "jenkins-git-single-checkout-v1" && 1 <= b.effectiveFrom <= 2147483647
  {
    hide Origin, ByteLength, TokenPattern;
  }

  /** The core's equality test accepts whatever the configuration normalised. */
  lemma BindingIsIdempotent(net: Net, b: Binding)
    requires Lawful(net) && NormalizeBinding(net, b).Some?
    ensures var n := NormalizeBinding(net, b).value;
      NormalizeBinding(net, n) == Some(n) && n.bindingId == b.bindingId && n.effectiveFrom == b.effectiveFrom
  {
    hide NormalizeRepositoryIdentity, Lawful;
    IdentityIsIdempotent(net, b.provider, b.providerOrigin, b.externalId);
  }

  datatype Delivery = Delivery(
    workspaceId: string, sourceId: string, deliveryId: string, payloadSha256: string, job: string,
    binding: Option<Binding>)

  datatype Input = Input(
    componentId: string, externalRunKey: string, status: string, startedAt: Option<Time>, completedAt: Time,
    checkout: Option<CICheckout>)

  predicate Exact(s: string) { s != "" && Trimmed(s) }

  /** `validateVerifiedJenkinsDelivery` */
  predicate ValidDelivery(d: Delivery) {
    && Exact(d.workspaceId) && Exact(d.sourceId) && Exact(d.deliveryId)
    && ByteLength(d.sourceId) <= 255 && ByteLength(d.deliveryId) <= 512
    && Sha256Pattern(d.payloadSha256)
  }

  /** `validateCompletedCIRunInput` */
  predicate ValidInput(i: Input) {
    && Exact(i.componentId) && Exact(i.externalRunKey) && ByteLength(i.externalRunKey) <= 512
    && (i.status == "succeeded" || i.status == "failed" || i.status == "canceled")
    && i.completedAt != ZERO_TIME
    && (i.startedAt.Some? ==> i.startedAt.value <= i.completedAt)
  }

  /** `validateCICheckout` */
  predicate ValidPair(net: Net, d: Delivery, i: Input) {
    match d.binding
    case None => i.checkout.None?
    case Some(b) =>
      var n := ParseInt(i.externalRunKey);
      && NormalizeBinding(net, b) == Some(b)
      && d.job != "" && ByteLength(d.job) <= 255 && Trimmed(d.job)
      && n.Some? && 1 <= n.value <= 2147483647 && FormatInt(n.value) == i.externalRunKey
      && d.deliveryId == "build-" + i.externalRunKey
      && (n.value >= b.effectiveFrom <==> i.checkout.Some?)
      && (i.checkout.Some? ==> ValidCheckout(i.checkout.value) && i.checkout.value.bindingId == b.bindingId)
  }

  /** `RecordCompletedJenkinsRun` goes on to the store only past all three. */
  predicate AcceptedByCore(net: Net, d: Delivery, i: Input) {
    ValidDelivery(d) && ValidInput(i) && ValidPair(net, d, i)
  }
}
