/** Who gets to process a delivery, what its records and wakeups tell, and what a snapshot may write. */
module DeliveryLaws {
  import opened Wrappers
  import opened Text
  import opened Deliveries
  import opened DeliveryRuns
  import MergeView
  import MergeLaws

  // ----- Claims -----

  /**
   A signed delivery with an ID and an event is processed exactly when it is new, was released, or its lease
   has run out.
   */
  lemma ClaimsIff(d: Documents, delivery: Delivery, now: int, faults: Faults)
    ensures Claims(d, delivery, now, faults) <==>
              && delivery.signed && !IsBlank(delivery.id) && !IsBlank(delivery.event) && !faults.read && !faults.claim
              && (delivery.id in d.records ==>
                    var r := d.records[delivery.id];
                    r.status == Retryable || (r.status == Claimed && r.leaseUntil <= now))
  {
  }

  /**
   A claim that is due leaves a record with a new lease and one attempt more, and one that is not leaves
   everything.
   */
  lemma ClaimRecords(d: Documents, id: Name, now: int, lease: int)
    ensures var free := id in d.records ==>
                          var r := d.records[id]; r.status == Retryable || (r.status == Claimed && r.leaseUntil <= now);
            ClaimDocs(d, id, now, lease) ==
              if free then
                d.(records := d.records[id :=
                                Record(Claimed, now + lease, 1 + if id in d.records then d.records[id].attempts else 0)])
              else d
  {
  }

  /** A call that looked goes on to hold its delivery exactly when it claims it without failing. */
  predicate Wins(w: World, step: Step, id: Name, lease: int) {
    && step.Claim? && step.call in w.calls && w.calls[step.call].delivery == id && w.calls[step.call].phase == Looked
    && var v := Apply(w, step, lease); step.call in v.calls && v.calls[step.call].phase == Holding
  }

  lemma WinsIff(w: World, step: Step, id: Name, lease: int)
    requires step.Claim? && step.call in w.calls && w.calls[step.call].delivery == id
    requires w.calls[step.call].phase == Looked
    ensures Wins(w, step, id, lease) <==>
              !step.fails && (id in w.docs.records ==>
                                var r := w.docs.records[id];
                                r.status == Retryable || (r.status == Claimed && r.leaseUntil <= step.now))
    ensures Wins(w, step, id, lease) ==>
              var v := Apply(w, step, lease);
              v.calls[step.call].until == step.now + lease && id in v.docs.records
              && v.docs.records[id].status == Claimed && v.docs.records[id].leaseUntil == step.now + lease
  {
  }

  /** The claims of a delivery that were won. */
  function Won(steps: seq<Step>, id: Name, lease: int): nat {
    if steps == [] then 0
    else
      var n := |steps| - 1;
      Won(steps[..n], id, lease) + if Wins(Run(steps[..n], lease), steps[n], id, lease) then 1 else 0
  }

  predicate HoldersRecorded(w: World) {
    forall c | c in w.calls && w.calls[c].phase != Looked :: w.calls[c].delivery in w.docs.records
  }

  lemma StepCounts(w: World, step: Step, id: Name, lease: int)
    requires HoldersRecorded(w)
    ensures var v := Apply(w, step, lease);
            && Attempts(v.docs, id) == Attempts(w.docs, id) + (if Wins(w, step, id, lease) then 1 else 0)
            && (id in v.docs.records <==> id in w.docs.records || Wins(w, step, id, lease))
  {
  }

  lemma StepKeepsRecords(w: World, step: Step, lease: int)
    requires HoldersRecorded(w)
    ensures HoldersRecorded(Apply(w, step, lease))
  {
  }

  lemma {:induction false} HeldAreRecorded(steps: seq<Step>, lease: int)
    ensures HoldersRecorded(Run(steps, lease))
  {
    if steps != [] {
      HeldAreRecorded(steps[..|steps| - 1], lease);
      StepKeepsRecords(Run(steps[..|steps| - 1], lease), steps[|steps| - 1], lease);
    }
  }

  /**
   Through releases, commits and crashes, timely or not, a record counts exactly the claims of its delivery
   that were won.
   */
  lemma {:induction false} AttemptsAreClaimsWon(steps: seq<Step>, lease: int, id: Name)
    ensures var d := Run(steps, lease).docs;
            if id in d.records then d.records[id].attempts == Won(steps, id, lease) > 0 else Won(steps, id, lease) == 0
  {
    if steps != [] {
      var n := |steps| - 1;
      AttemptsAreClaimsWon(steps[..n], lease, id);
      HeldAreRecorded(steps[..n], lease);
      StepCounts(Run(steps[..n], lease), steps[n], id, lease);
    }
  }

  // ----- A call that nothing comes between -----

  /**
   The steps of a call that is not interrupted: what it does ends in a commit, or in a release, or not even
   in that.
   */
  function CallSteps(delivery: Delivery, now: int, applied: bool, commits: bool, releases: bool): seq<Step> {
    [Look(0, delivery.id, delivery.Wakes()), Claim(0, now, false)]
    + (if applied && commits then [Commit(0, Answered)]
       else [if applied then Commit(0, NoEffect) else Fail(0), Release(0, !releases)])
  }

  /**
   An uninterrupted call of Process is those steps: whatever it applies and wherever it fails, they leave the
   records and wakeups it leaves, and tell the same of whether it queued.
   */
  lemma ProcessIsSteps(w: World, delivery: Delivery, now: int, applied: bool, commits: bool, releases: bool, lease: int)
    requires w.calls == map[] && Claimable(w.docs, delivery.id, now)
    ensures var v := From(w, CallSteps(delivery, now, applied, commits, releases), lease);
            var claimed := ClaimDocs(w.docs, delivery.id, now, lease);
            && v.calls == map[]
            && v.docs == (if applied && commits then CommitDocs(claimed, delivery.id, delivery.Wakes())
                          else if releases then ReleaseDocs(claimed, delivery.id) else claimed)
            && v.queued == w.queued + if applied && commits then [Returned(delivery.id, delivery.Wakes())] else []
  {
    var looked := Apply(w, Look(0, delivery.id, delivery.Wakes()), lease);
    var held := Apply(looked, Claim(0, now, false), lease);
    var call := Call(delivery.id, delivery.Wakes(), Holding, now + lease);
    assert held == World(ClaimDocs(w.docs, delivery.id, now, lease), map[0 := call], w.queued);
    var rest := CallSteps(delivery, now, applied, commits, releases)[2..];
    FromTwo(w, CallSteps(delivery, now, applied, commits, releases), lease);
    if applied && commits {
      assert rest == [Commit(0, Answered)] && rest[1..] == [];
      HeldCommits(held, call, lease);
    } else {
      assert rest == [if applied then Commit(0, NoEffect) else Fail(0), Release(0, !releases)];
      FromTwo(held, rest, lease);
      assert rest[2..] == [];
      HeldReleases(held, call, applied, releases, lease);
    }
  }

  lemma FromTwo(w: World, steps: seq<Step>, lease: int)
    requires |steps| >= 2
    ensures From(w, steps, lease) == From(Apply(Apply(w, steps[0], lease), steps[1], lease), steps[2..], lease)
  {
    assert steps[1..][1..] == steps[2..];
  }

  lemma HeldCommits(held: World, call: Call, lease: int)
    requires held.calls == map[0 := call] && call.phase == Holding && !IsCommitted(held.docs, call.delivery)
    ensures var v := Apply(held, Commit(0, Answered), lease);
            && v.calls == map[] && v.docs == CommitDocs(held.docs, call.delivery, call.wakeup)
            && v.queued == held.queued + [Returned(call.delivery, call.wakeup)]
  {
  }

  lemma HeldReleases(held: World, call: Call, applied: bool, releases: bool, lease: int)
    requires held.calls == map[0 := call] && call.phase == Holding
    ensures var v := Apply(Apply(held, if applied then Commit(0, NoEffect) else Fail(0), lease), Release(0,
        !releases), lease);
            && v.calls == map[] && v.queued == held.queued
            && v.docs == if releases then ReleaseDocs(held.docs, call.delivery) else held.docs
  {
  }

  // ----- Wakeups -----

  /**
   A wakeup tells the delivery's repository and event, under the repository's name, or under one of its own
   if there is none.
   */
  lemma WakesItsRepository(delivery: Delivery)
    ensures delivery.Wakes().repository == delivery.repository && delivery.Wakes().event == delivery.event
    ensures delivery.Wakes().key == if Trim(delivery.repository) == Name("") then Name("installation")
        else Trim(delivery.repository)
  {
  }

  /** Deliveries of one repository are woken for once, whatever the white space around its name. */
  lemma WakeupsCoalesce(d: Documents, a: Delivery, b: Delivery)
    requires Trim(a.repository) == Trim(b.repository) && !IsCommitted(d, a.id) && !IsCommitted(d, b.id) && a.id != b.id
    ensures var e := CommitDocs(CommitDocs(d, a.id, a.Wakes()), b.id, b.Wakes());
            e.wakeups.Keys == d.wakeups.Keys + {a.Wakes().key} && e.wakeups[a.Wakes().key] == b.Wakes()
  {
  }

  /** Committing a committed delivery once more changes nothing, its wakeup included. */
  lemma CommitTwice(d: Documents, id: Name, first: Wakeup, second: Wakeup)
    ensures CommitDocs(CommitDocs(d, id, first), id, second) == CommitDocs(d, id, first)
    ensures IsCommitted(CommitDocs(d, id, first), id)
  {
  }

  /** The wakeups in a store are those of the calls whose commits took effect. */
  lemma WakeupsAreCommits(w: World, step: Step, lease: int, key: Name)
    ensures var v := Apply(w, step, lease);
            key in v.docs.wakeups && (key !in w.docs.wakeups || v.docs.wakeups[key] != w.docs.wakeups[key]) ==>
              && step.Commit? && step.fate != NoEffect && step.call in w.calls && w.calls[step.call].phase == Holding
              && !IsCommitted(w.docs, w.calls[step.call].delivery) && v.docs.wakeups[key] == w.calls[step.call].wakeup
  {
  }

  // ----- What a snapshot may write -----

  /** Every projection is well formed and under its own scope and ID. */
  predicate AreKeyed(stored: map<ProjectionKey, Projection>) {
    forall k | k in stored :: stored[k].scope == k.scope && stored[k].id == k.id && stored[k].wellFormed
  }

  lemma {:induction false} WrittenIsKeyed(stored: map<ProjectionKey, Projection>, documents: seq<Projection>)
    requires AreKeyed(stored) && forall p | p in documents :: p.wellFormed
    ensures AreKeyed(Written(stored, documents))
  {
    if documents != [] {
      WrittenIsKeyed(stored, documents[..|documents| - 1]);
    }
  }

  /** No record of the key's scope has its ID. */
  predicate IsApart(s: Snapshot, k: ProjectionKey) {
    match k.scope
    case Repository => forall p | p in s.repositories :: p.id != k.id
    case Organization => forall p | p in s.organizations :: p.id != k.id
  }

  /**
   Whatever a snapshot writes, in full or up to a failure, projections stay well formed and under their own
   keys; its repositories change nothing of organizations, nor its organizations anything of repositories.
   */
  lemma SnapshotKeepsProjections(stored: map<ProjectionKey, Projection>, s: Snapshot, faults: Faults, k: ProjectionKey)
    requires s.Valid() && AreKeyed(stored)
    ensures AreKeyed(Written(stored, Reached(s, faults)))
    ensures IsApart(s, k) ==> Lookup(Written(stored, Reached(s, faults)), k) == Lookup(stored, k)
  {
    var documents := Reached(s, faults);
    assert forall p | p in documents :: p in s.repositories || p in s.organizations;
    WrittenIsKeyed(stored, documents);
    if IsApart(s, k) {
      WrittenHolds(stored, documents, k);
    }
  }

  /** A snapshot is taken exactly when all it holds is well formed and in its place, and its merges may be written. */
  lemma SnapshotIsTakenIff(s: Snapshot)
    ensures s.Valid() <==>
              && (forall i | 0 <= i < |s.repositories| :: s.repositories[i].scope == Repository && s.repositories[i].wellFormed)
              && (forall i | 0 <= i < |s.organizations| ::
                    s.organizations[i].scope == Organization && s.organizations[i].wellFormed)
              && (s.merges.Some? ==> MergeLaws.Acceptable(MergeView.Write(true, s.canonical, s.merges.value)))
  {
    if s.merges.Some? { MergeLaws.AcceptedIffAcceptable(MergeView.Write(true, s.canonical, s.merges.value)); }
  }

  /** A snapshot applies exactly when none of its writes fails, and its merges are then written as any batch is. */
  lemma SnapshotAppliesIff(s: Snapshot, faults: Faults, view: seq<MergeView.Entry>)
    ensures Applies(s, faults) <==>
              && (faults.write == None || faults.write.value >= |s.repositories| + |s.organizations|)
              && (faults.merge ==> s.merges.None?)
    ensures s.merges.None? ==> WithMerges(view, s.merges) == view
    ensures s.merges.Some? && s.Valid() ==>
              WithMerges(view, s.merges) == MergeView.After(view, MergeView.Write(true, s.canonical, s.merges.value))
  {
  }
}
