/**
 The projection of one webhook delivery: claimed under a lease, refreshed and written, then committed
 together with the wakeup it causes, or released for another try.
 */
module Deliveries {
  import opened Wrappers
  import opened Text
  import MergeView

  const DEFAULT_LEASE := 300_000_000_000
  const NO_LEASE := 0

  datatype Status = Claimed | Retryable | Committed
  datatype Record = Record(status: Status, leaseUntil: int, attempts: int)
  datatype Wakeup = Wakeup(key: Name, repository: Name, event: Name)
  datatype Documents = Documents(records: map<Name, Record>, wakeups: map<Name, Wakeup>)

  // ----- The delivery store -----

  predicate IsCommitted(d: Documents, id: Name) { id in d.records && d.records[id].status == Committed }

  predicate Claimable(d: Documents, id: Name, now: int) {
    || id !in d.records || d.records[id].status == Retryable
    || (d.records[id].status == Claimed && d.records[id].leaseUntil <= now)
  }

  function Attempts(d: Documents, id: Name): int {
    if id in d.records then d.records[id].attempts else 0
  }

  function ClaimDocs(d: Documents, id: Name, now: int, lease: int): Documents {
    if Claimable(d, id, now) then d.(records :=
        d.records[id := Record(Claimed, now + lease, Attempts(d, id) + 1)]) else d
  }

  function CommitDocs(d: Documents, id: Name, wakeup: Wakeup): Documents {
    if IsCommitted(d, id) then d
    else Documents(d.records[id := Record(Committed, NO_LEASE, Attempts(d, id))], d.wakeups[wakeup.key := wakeup])
  }

  /** Release overwrites whatever status the record has by then. */
  function ReleaseDocs(d: Documents, id: Name): Documents {
    if id in d.records then d.(records := d.records[id := Record(Retryable, NO_LEASE, d.records[id].attempts)]) else d
  }

  // ----- Projections -----

  datatype Scope = Repository | Organization
  datatype Projection = Projection(scope: Scope, id: Name, body: Name, wellFormed: bool)
  datatype ProjectionKey = ProjectionKey(scope: Scope, id: Name)

  function Written(stored: map<ProjectionKey, Projection>, documents: seq<Projection>): map<ProjectionKey, Projection> {
    if documents == [] then stored
    else
      var n := |documents| - 1;
      Written(stored, documents[..n])[ProjectionKey(documents[n].scope, documents[n].id) := documents[n]]
  }

  /** canonical is the outcome of the form check on the merges' repository. */
  datatype Snapshot = Snapshot(repositories: seq<Projection>, organizations: seq<Projection>,
      merges: Option<MergeView.Batch>, canonical: bool) {
    predicate Valid() {
      && (forall p | p in repositories :: p.scope == Repository && p.wellFormed)
      && (forall p | p in organizations :: p.scope == Organization && p.wellFormed)
      && (merges.Some? ==> merges.value.Valid(canonical))
    }
  }

  datatype Delivery = Delivery(id: Name, event: Name, repository: Name, signed: bool) {
    predicate Valid() { !IsBlank(id) && !IsBlank(event) && signed }
    function Wakes(): Wakeup {
      var key := Trim(repository);
      Wakeup(if key == BLANK then Name("installation") else key, repository, event)
    }
  }

  /** Which calls fail: reading the record, claiming it, one of the writes, committing, releasing. */
  datatype Faults = Faults(read: bool, claim: bool, write: Option<nat>, merge: bool, commit: bool, release: bool)

  datatype Outcome = Ignored | Failed | Queued

  class ProjectionEngine {
    var docs: Documents
    var projections: map<ProjectionKey, Projection>
    var merges: seq<MergeView.Entry>
    const lease: int

    constructor (configured: int)
      ensures docs == Documents(map[], map[]) && projections == map[] && merges == []
      ensures lease == if configured > 0 then configured else DEFAULT_LEASE
    {
      docs, projections, merges := Documents(map[], map[]), map[], [];
      lease := if configured > 0 then configured else DEFAULT_LEASE;
    }

    method HasDelivery(id: Name) returns (has: bool)
      ensures has == IsCommitted(docs, id)
    {
      var found := Lookup(docs.records, id);
      has := found.Some? && found.value.status == Committed;
    }

    method ClaimDelivery(id: Name, now: int) returns (claimed: bool)
      modifies this`docs
      ensures claimed == Claimable(old(docs), id, now)
      ensures docs == ClaimDocs(old(docs), id, now, lease)
    {
      var found := Lookup(docs.records, id);
      if found.Some? && (found.value.status == Committed || (found.value.status == Claimed
          && found.value.leaseUntil > now)) {
        return false;
      }
      var attempts := if found.Some? then found.value.attempts else 0;
      docs := docs.(records := docs.records[id := Record(Claimed, now + lease, attempts + 1)]);
      claimed := true;
    }

    method CommitDeliveryAndWakeup(id: Name, wakeup: Wakeup) returns (committed: bool)
      modifies this`docs
      ensures committed == !IsCommitted(old(docs), id)
      ensures docs == CommitDocs(old(docs), id, wakeup)
    {
      var found := Lookup(docs.records, id);
      if found.Some? && found.value.status == Committed { return false; }
      var attempts := if found.Some? then found.value.attempts else 0;
      docs := docs.(records := docs.records[id := Record(Committed, NO_LEASE, attempts)]);
      docs := docs.(wakeups := docs.wakeups[wakeup.key := wakeup]);
      committed := true;
    }

    method UpdateStatus(id: Name, status: Status)
      modifies this`docs
      ensures docs == if id !in old(docs).records then old(docs)
                      else old(docs).(records := old(docs).records[id :=
                          Record(status, NO_LEASE, old(docs).records[id].attempts)])
    {
      var found := Lookup(docs.records, id);
      if found.None? { return; }
      docs := docs.(records := docs.records[id := found.value.(status := status, leaseUntil := NO_LEASE)]);
    }

    /** Projections are set one by one; the one that fails or is of another scope, and those after it, are not. */
    method WriteDocuments(scope: Scope, documents: seq<Projection>, fails: Option<nat>) returns (written: nat)
      modifies this`projections
      ensures written <= |documents| && (forall i | 0 <= i < written :: documents[i].scope == scope)
      ensures (fails.Some? ==> written <= fails.value)
      ensures written < |documents| ==> documents[written].scope != scope || fails == Some(written)
      ensures projections == Written(old(projections), documents[..written])
    {
      written := 0;
      while written < |documents|
        invariant written <= |documents| && (forall i | 0 <= i < written :: documents[i].scope == scope)
        invariant (fails.Some? ==> written <= fails.value)
        invariant projections == Written(old(projections), documents[..written])
      {
        var document := documents[written];
        if document.scope != scope || fails == Some(written) { return; }
        assert documents[..written + 1][..written] == documents[..written];
        projections := projections[ProjectionKey(scope, document.id) := document];
        written := written + 1;
      }
    }

    /** refreshed is the snapshot GitHub's answers gave, if they did. */
    method Process(delivery: Delivery, now: int, refreshed: Option<Snapshot>, faults: Faults) returns (outcome: Outcome)
      modifies this
      ensures !delivery.Valid() || faults.read || faults.claim ==> docs == old(docs)
      ensures !Claims(old(docs), delivery, now, faults) ==>
                outcome != Queued && docs == old(docs) && projections == old(projections) && merges == old(merges)
      ensures Claims(old(docs), delivery, now, faults) ==>
                var claimed := ClaimDocs(old(docs), delivery.id, now, lease);
                var sound := refreshed.Some? && refreshed.value.Valid();
                var applied := sound && Applies(refreshed.value, faults);
                && projections == (if sound then Written(old(projections), Reached(refreshed.value, faults))
                    else old(projections))
                && merges == (if applied then WithMerges(old(merges), refreshed.value.merges) else old(merges))
                && if applied && !faults.commit then
                     outcome == Queued && docs == CommitDocs(claimed, delivery.id, delivery.Wakes())
                   else
                     outcome == Failed && docs == (if faults.release then claimed else ReleaseDocs(claimed,
                         delivery.id))
    {
      if !delivery.Valid() { return Failed; }
      if faults.read { return Failed; }
      var seen := HasDelivery(delivery.id);
      if seen { return Ignored; }
      if faults.claim { return Failed; }
      var claimed := ClaimDelivery(delivery.id, now);
      if !claimed { return Ignored; }
      var committed := false;
      outcome := Failed;
      if refreshed.Some? && refreshed.value.Valid() {
        var applied := ApplySnapshot(refreshed.value, faults);
        if applied && !faults.commit {
          var queued := CommitDeliveryAndWakeup(delivery.id, delivery.Wakes());
          committed := true;
          outcome := if queued then Queued else Ignored;
        }
      }
      if !committed && !faults.release {
        UpdateStatus(delivery.id, Retryable);
      }
    }

    /** Repositories, then organizations, then the merge view: the first failure ends it, and what is written stays. */
    method ApplySnapshot(s: Snapshot, faults: Faults) returns (applied: bool)
      requires s.Valid()
      modifies this`projections, this`merges
      ensures applied == Applies(s, faults)
      ensures projections == Written(old(projections), Reached(s, faults))
      ensures merges == if applied then WithMerges(old(merges), s.merges) else old(merges)
    {
      var n := |s.repositories|;
      var written := WriteDocuments(Repository, s.repositories, faults.write);
      if written < n {
        CutInFirst(s, faults, written);
        return false;
      }
      assert s.repositories[..n] == s.repositories;
      var later := if faults.write.Some? && faults.write.value >= n then Some(faults.write.value - n) else None;
      var more := WriteDocuments(Organization, s.organizations, later);
      WrittenInTwo(old(projections), s.repositories, s.organizations[..more]);
      CutInSecond(s, faults, more);
      if more < |s.organizations| { return false; }
      if s.merges.Some? {
        if faults.merge { return false; }
        merges := MergeView.Merged(merges, s.merges.value);
      }
      applied := true;
    }
  }

  /** Everything up to the write that fails. */
  function Reached(s: Snapshot, faults: Faults): seq<Projection> {
    var all := s.repositories + s.organizations;
    if faults.write.Some? && faults.write.value < |all| then all[..faults.write.value] else all
  }

  lemma CutInFirst(s: Snapshot, faults: Faults, written: nat)
    requires faults.write == Some(written) && written < |s.repositories|
    ensures !Fits(s, faults) && Reached(s, faults) == s.repositories[..written]
  {
  }

  lemma CutInSecond(s: Snapshot, faults: Faults, more: nat)
    requires more <= |s.organizations| && (faults.write.Some? ==> |s.repositories| + more <= faults.write.value)
    requires more < |s.organizations| ==> faults.write == Some(|s.repositories| + more)
    ensures Reached(s, faults) == s.repositories + s.organizations[..more]
    ensures (Fits(s, faults) <==> more == |s.organizations|)
  {
    var n := |s.repositories|;
    assert (s.repositories + s.organizations)[..n + more] == s.repositories + s.organizations[..more];
  }

  predicate Applies(s: Snapshot, faults: Faults) { Fits(s, faults) && (s.merges.Some? ==> !faults.merge) }

  lemma {:induction false} WrittenInTwo(stored: map<ProjectionKey, Projection>, first: seq<Projection>,
      second: seq<Projection>)
    ensures Written(stored, first + second) == Written(Written(stored, first), second)
  {
    if second == [] {
      assert first + second == first;
    } else {
      var n := |second| - 1;
      assert (first + second)[..|first + second| - 1] == first + second[..n];
      WrittenInTwo(stored, first, second[..n]);
    }
  }

  function WithMerges(merges: seq<MergeView.Entry>, batch: Option<MergeView.Batch>): seq<MergeView.Entry> {
    if batch.Some? then MergeView.Merged(merges, batch.value) else merges
  }

  predicate Claims(d: Documents, delivery: Delivery, now: int, faults: Faults) {
    delivery.Valid() && !faults.read && !faults.claim && Claimable(d, delivery.id, now)
  }

  /** No write fails. */
  predicate Fits(s: Snapshot, faults: Faults) {
    faults.write.Some? ==> faults.write.value >= |s.repositories| + |s.organizations|
  }

  // ----- A retry after a crash -----

  lemma {:induction false} WrittenHolds(stored: map<ProjectionKey, Projection>, documents: seq<Projection>,
      k: ProjectionKey)
    requires forall p | p in documents :: ProjectionKey(p.scope, p.id) != k
    ensures k in Written(stored, documents) <==> k in stored
    ensures k in stored ==> Written(stored, documents)[k] == stored[k]
  {
    if documents != [] {
      WrittenHolds(stored, documents[..|documents| - 1], k);
    }
  }

  /** A crash part way through does not show: writing part of a list and then all of it is writing all of it. */
  lemma {:induction false} WriteAgain(stored: map<ProjectionKey, Projection>, documents: seq<Projection>, n: nat)
    requires n <= |documents|
    ensures Written(Written(stored, documents[..n]), documents) == Written(stored, documents)
  {
    var partly := Written(stored, documents[..n]);
    forall k: ProjectionKey
      ensures k in Written(partly, documents) <==> k in Written(stored, documents)
      ensures k in Written(partly, documents) ==> Written(partly, documents)[k] == Written(stored, documents)[k]
    {
      if forall p | p in documents :: ProjectionKey(p.scope, p.id) != k {
        WrittenHolds(partly, documents, k);
        WrittenHolds(stored, documents, k);
        WrittenHolds(stored, documents[..n], k);
      } else {
        LastWriteWins(partly, stored, documents, k);
      }
    }
  }

  lemma {:induction false} LastWriteWins(a: map<ProjectionKey, Projection>, b: map<ProjectionKey, Projection>,
      documents: seq<Projection>, k: ProjectionKey)
    requires exists p | p in documents :: ProjectionKey(p.scope, p.id) == k
    ensures k in Written(a, documents) && k in Written(b, documents) && Written(a, documents)[k]
        == Written(b, documents)[k]
  {
    var n := |documents| - 1;
    if ProjectionKey(documents[n].scope, documents[n].id) != k {
      LastWriteWins(a, b, documents[..n], k);
    }
  }
}
