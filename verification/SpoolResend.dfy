/** A delivery that is sent again: why the receiver answers it with the original receipt. */
module SpoolResend {
  import opened Payload
  import opened SpoolRecords
  import opened Receiver
  import opened SpoolProtocol
  import opened SpoolRuns

  /** If build n's key is claimed, it is claimed with the facts of the payload that build n's record holds. */
  ghost predicate ClaimedAsHeld(cfg: Config, s: Snap, n: int)
    requires n >= 0
  {
    DeliveryKey(cfg, n) in s.ledger.claims ==>
      n in s.state && (s.state[n].Full? ==> HeldFacts(cfg, s.state[n].record.payload, s.now, s.ledger.claims[DeliveryKey(cfg, n)].facts))
  }

  /** The payload was accepted at some instant and has these facts. */
  ghost predicate HeldFacts(cfg: Config, payload: Bytes, now: Time, facts: string) {
    exists t :: t <= now && AcceptedWith(cfg, payload, t, facts)
  }

  predicate AcceptedWith(cfg: Config, payload: Bytes, t: Time, facts: string) {
    ParsePayload(cfg.codec, payload, t).Accepted? && PayloadFacts(cfg, payload, t) == facts
  }

  lemma HeldLater(cfg: Config, payload: Bytes, now: Time, later: Time, facts: string)
    requires now <= later && HeldFacts(cfg, payload, now, facts)
    ensures HeldFacts(cfg, payload, later, facts)
  {
    hide AcceptedWith;
  }

  /** An accepted payload has the same facts at every later instant. */
  lemma HeldFactsAreFacts(cfg: Config, payload: Bytes, now: Time, facts: string)
    requires HeldFacts(cfg, payload, now, facts)
    ensures PayloadFacts(cfg, payload, now) == facts
  {
    hide ParsePayload;
    var t :| t <= now && AcceptedWith(cfg, payload, t, facts);
    AcceptedStaysAccepted(cfg.codec, payload, t, now);
  }

  lemma SendClaims(cfg: Config, s: Snap, e: Step, n: int)
    requires n >= 0 && e.Send? && Inv(cfg, s) && Enabled(cfg, s, e) && ClaimedAsHeld(cfg, s, n)
    ensures ClaimedAsHeld(cfg, Apply(cfg, s, e), n)
  {
    hide Consistent, Matched, AnswerFits, ParsePayload, PayloadFacts, Sendable;
    var m := e.build;
    if e.reached && m == n && DeliveryKey(cfg, n) !in s.ledger.claims {
      assert FileOk(cfg, s, n);
      SendableKey(cfg, n, s.state[n].record.payload, s.now);
      assert AcceptedWith(cfg, s.state[n].record.payload, s.now, e.facts);
    } else if e.reached && m != n && DeliveryKey(cfg, n) == DeliveryKey(cfg, m) {
      DeliveryKeysDiffer(cfg, n, m);
    }
  }

  lemma CommitKeepsClaim(cfg: Config, s: Snap, w: Write, n: int, t: Snap)
    requires n >= 0 && Inv(cfg, s) && !s.failed && MayWrite(cfg, s, w) && Writable(s, w) && ClaimedAsHeld(cfg, s, n)
    requires t.ledger == s.ledger && t.now == s.now && (t.state == s.state || t.state == Renamed(cfg, s, w).state)
    ensures ClaimedAsHeld(cfg, t, n)
  {
    hide Inv, HeldFacts, MayWrite, Renamed;
    RenameKeepsIdentity(cfg, s, w, n);
  }

  lemma StepKeepsClaim(cfg: Config, s: Snap, e: Step, n: int)
    requires n >= 0 && Inv(cfg, s) && Enabled(cfg, s, e) && ClaimedAsHeld(cfg, s, n)
    requires !(e.Elsewhere? && e.key == DeliveryKey(cfg, n))
    ensures ClaimedAsHeld(cfg, Apply(cfg, s, e), n)
  {
    match e
    case Send(_, _, _, _, _) => SendClaims(cfg, s, e, n);
    case Commit(w, outcome) =>
      WriteIsWritable(cfg, s, w);
      CommitLeaves(cfg, s, w, outcome);
      CommitKeepsClaim(cfg, s, w, n, Apply(cfg, s, e));
    case Advance(to) =>
      if n in s.state && s.state[n].Full? && DeliveryKey(cfg, n) in s.ledger.claims {
        HeldLater(cfg, s.state[n].record.payload, s.now, to, s.ledger.claims[DeliveryKey(cfg, n)].facts);
      }
    case _ =>
  }

  lemma CommitLeaves(cfg: Config, s: Snap, w: Write, outcome: Outcome)
    requires Writable(s, w)
    ensures var t := Apply(cfg, s, Commit(w, outcome));
      t.ledger == s.ledger && t.now == s.now && (t.state == s.state || t.state == Renamed(cfg, s, w).state)
  {
    hide Written;
  }

  lemma {:induction false} RunKeepsClaim(cfg: Config, s0: Snap, log: seq<Step>, n: int)
    requires n >= 0 && Initial(s0) && Legal(cfg, s0, log) && DeliveryKey(cfg, n) !in s0.ledger.claims
    requires forall i | 0 <= i < |log| && log[i].Elsewhere? :: log[i].key != DeliveryKey(cfg, n)
    ensures ClaimedAsHeld(cfg, After(cfg, s0, log), n)
  {
    hide Apply, Enabled, Inv, ClaimedAsHeld, Initial;
    if log == [] {
      NothingClaimed(cfg, s0, n);
    } else {
      var front, e := log[..|log| - 1], log[|log| - 1];
      RunKeepsClaim(cfg, s0, front, n);
      RunKeepsInv(cfg, s0, front);
      StepKeepsClaim(cfg, After(cfg, s0, front), e, n);
    }
  }

  lemma NothingClaimed(cfg: Config, s: Snap, n: int)
    requires n >= 0 && DeliveryKey(cfg, n) !in s.ledger.claims
    ensures ClaimedAsHeld(cfg, s, n)
  {
  }

  /**
   Where no other deliverer used build n's key, a round that repeats a committed delivery - its reply was lost, the
   process crashed, the budget was reset - is answered as a duplicate of the original CI Run and changes nothing.
   */
  lemma ResendIsDuplicate(cfg: Config, s0: Snap, log: seq<Step>, n: int, id: string)
    requires n >= 0 && Initial(s0) && Legal(cfg, s0, log) && DeliveryKey(cfg, n) !in s0.ledger.claims
    requires forall i | 0 <= i < |log| && log[i].Elsewhere? :: log[i].key != DeliveryKey(cfg, n)
    requires var s := After(cfg, s0, log); !s.failed && s.phase == Reserved(n) && DeliveryKey(cfg, n) in s.ledger.claims
    ensures var s, key := After(cfg, s0, log), DeliveryKey(cfg, n);
      && n in s.state && s.state[n].Full?
      && Deliver(s.ledger, key, PayloadFacts(cfg, s.state[n].record.payload, s.now), id)
         == (s.ledger, Duplicate(s.ledger.claims[key].ciRunId))
  {
    hide PayloadFacts, HeldFacts, Legal, After, Initial, ParsePayload;
    RoundClaimsOwnKey(cfg, s0, log, n);
    RunKeepsClaim(cfg, s0, log, n);
    var s := After(cfg, s0, log);
    HeldFactsAreFacts(cfg, s.state[n].record.payload, s.now, s.ledger.claims[DeliveryKey(cfg, n)].facts);
  }
}
