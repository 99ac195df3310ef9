/** Checkout facts attached to a version 2 payload, and their validator. */
module Checkout {
  import opened Text

  datatype GitRevision = GitRevision(algorithm: string, oid: string)

  datatype CICheckout = CICheckout(bindingId: string, state: string, reason: Option<string>, revision: Option<GitRevision>)

  /** `^[A-Za-z][A-Za-z0-9_-]{0,63}$` */
  predicate TokenPattern(s: string) {
    1 <= |s| <= 64 && IsLetter(s[0]) && forall c :: c in s ==> IsIdChar(c)
  }

  predicate LowerHex(s: string, length: nat) {
    |s| == length && forall c :: c in s ==> IsLowerHex(c)
  }

  predicate ValidGitRevision(r: GitRevision) {
    r.algorithm == "sha1" && LowerHex(r.oid, 40) && exists i :: 0 <= i < |r.oid| && r.oid[i] != '0'
  }

  predicate ValidReason(reason: string) {
    reason == "checkout_not_observed" || reason == "unsupported_checkout" || reason == "binding_changed_during_run"
  }

  predicate ValidCheckout(c: CICheckout) {
    && TokenPattern(c.bindingId)
    && (if c.state == "observed" then c.reason.None? && c.revision.Some? && ValidGitRevision(c.revision.value)
        else c.state == "unavailable" && c.revision.None? && c.reason.Some? && ValidReason(c.reason.value))
  }

  /** A checkout was observed at a full SHA-1 that is not zero, or is unavailable for one of three reasons. */
  lemma CheckoutExactly(c: CICheckout)
    ensures ValidCheckout(c) <==>
      && 1 <= |c.bindingId| <= 64 && ('a' <= c.bindingId[0] <= 'z' || 'A' <= c.bindingId[0] <= 'Z')
      && (forall k | k in c.bindingId :: 'a' <= k <= 'z' || 'A' <= k <= 'Z' || '0' <= k <= '9' || k == '_' || k == '-')
      && match c.revision
         case Some(GitRevision(algorithm, oid)) =>
           && c.state == "observed" && c.reason == None && algorithm == "sha1" && |oid| == 40 && oid != seq(40, _ => '0')
           && forall k | k in oid :: '0' <= k <= '9' || 'a' <= k <= 'f'
         case None =>
           && c.state == "unavailable"
           && c.reason in {Some("checkout_not_observed"), Some("unsupported_checkout"), Some("binding_changed_during_run")}
  {
  }
}
