/**
 The receiving side of a delivery: one transaction that first claims (workspace, source, delivery ID)
 and only then creates the CI Run.
 */
module Receiver {
  import opened Text
  import opened Payload

  datatype Key = Key(workspaceId: string, sourceId: string, deliveryId: string)

  /** The key of a delivery: the source it was posted to, in that source's workspace, and the payload's delivery ID. */
  function ClaimKey(workspaceId: string, sourceId: string, p: Facts): Key {
    Key(workspaceId, sourceId, DeliveryId(p))
  }

  /** `facts` is the canonical digest of the mapped facts. */
  datatype Claim = Claim(facts: string, ciRunId: string)

  datatype CIRun = CIRun(key: Key, id: string)

  datatype Ledger = Ledger(claims: map<Key, Claim>, runs: seq<CIRun>)

  datatype Receipt = Recorded(id: string) | Duplicate(original: string) | Conflict | Refused

  /** The committed effect of one delivery, and its answer. */
  function Deliver(l: Ledger, key: Key, facts: string, id: string): (Ledger, Receipt) {
    if key in l.claims then
      if l.claims[key].facts == facts then (l, Duplicate(l.claims[key].ciRunId)) else (l, Conflict)
    else (Ledger(l.claims[key := Claim(facts, id)], l.runs + [CIRun(key, id)]), Recorded(id))
  }

  /** How many CI Runs a key has. */
  function Created(runs: seq<CIRun>, key: Key): nat {
    if runs == [] then 0
    else Created(runs[..|runs| - 1], key) + if runs[|runs| - 1].key == key then 1 else 0
  }

  /** Claims and CI Runs correspond one to one. */
  ghost predicate Matched(l: Ledger) {
    && (forall key :: Created(l.runs, key) == if key in l.claims then 1 else 0)
    && (forall key <- l.claims :: CIRun(key, l.claims[key].ciRunId) in l.runs)
  }

  lemma DeliverKeepsMatched(l: Ledger, key: Key, facts: string, id: string)
    requires Matched(l)
    ensures Matched(Deliver(l, key, facts, id).0)
  {
    if key !in l.claims {
      var runs := l.runs + [CIRun(key, id)];
      assert runs[..|runs| - 1] == l.runs;
    }
  }

  /** A claim, once made, is never changed or removed, whatever is delivered afterwards. */
  lemma ClaimsArePermanent(l: Ledger, key: Key, facts: string, id: string, earlier: Key)
    requires earlier in l.claims
    ensures earlier in Deliver(l, key, facts, id).0.claims
    ensures Deliver(l, key, facts, id).0.claims[earlier] == l.claims[earlier]
  {
  }

  /** The receiver's database; a transaction works on the tables and is undone when it does not commit. */
  class Store {
    var claims: map<Key, Claim>
    var runs: seq<CIRun>

    constructor ()
      ensures Contents() == Ledger(map[], [])
    {
      claims, runs := map[], [];
    }

    function Contents(): Ledger
      reads this
    {
      Ledger(claims, runs)
    }

    /**
     `RecordCompletedCIRun`: check, claim, insert, commit. `admitted` says whether the component exists and the
     source's checkout binding is the active one; otherwise nothing is claimed, not even a duplicate receipt. Each
     database call may fail, and then the transaction leaves the tables as they were.
     */
    method RecordCompletedCIRun(key: Key, facts: string, id: string, admitted: bool) returns (receipt: Option<Receipt>)
      modifies this
      ensures receipt.Some? ==>
        (Contents(), receipt.value) == if admitted then Deliver(old(Contents()), key, facts, id) else (old(Contents()), Refused)
      ensures receipt.None? ==> Contents() == old(Contents())
    {
      var before, runsBefore := claims, runs;
      var failed: bool := *;
      if failed {
        return None;
      }
      if !admitted {
        return Some(Refused);
      }
      if key in claims {
        var existing := claims[key];
        return Some(if existing.facts == facts then Duplicate(existing.ciRunId) else Conflict);
      }
      claims := claims[key := Claim(facts, id)];
      failed := *;
      if failed {
        claims := before;
        return None;
      }
      runs := runs + [CIRun(key, id)];
      failed := *;
      if failed {
        claims, runs := before, runsBefore;
        return None;
      }
      return Some(Recorded(id));
    }
  }
}
