/** What every life of the installation store guarantees to those who ask it about entitlements. */
module InstallationLaws {
  import opened Wrappers
  import opened ConnectionState
  import opened Installations
  import opened InstallationRuns

  /** The triples (GitHub user, installation, repository) an event takes away. */
  predicate Takes(event: Event, user: int, owner: Key, repository: int) {
    Concerns(event, user, owner) && (event.TakesRepositories() ==> repository in event.Removed())
  }

  predicate Granted(grants: Grants, owner: Key, repository: int) {
    owner in grants && grants[owner].status == Installed && HasId(grants[owner].repositories, repository)
  }

  /** Some chunk holds a repository exactly when the whole list does. */
  lemma InSomeChunk(s: seq<Repo>, id: int)
    ensures HasId(s, id) <==> exists i :: 0 <= i < ChunkCount(|s|) && HasId(ChunkOf(s, i), id)
  {
    if HasId(s, id) {
      var n :| 0 <= n < |s| && s[n].id == id;
      var i := n / CHUNK_SIZE;
      ChunkBounds(|s|, i);
      assert ChunkOf(s, i)[n - i * CHUNK_SIZE] == s[n];
      assert HasId(ChunkOf(s, i), id);
    }
    if i :| 0 <= i < ChunkCount(|s|) && HasId(ChunkOf(s, i), id) {
      var r :| r in ChunkOf(s, i) && r.id == id;
      assert r in s;
    }
  }

  /** What the scan finds under a generation is what the whole list holds. */
  lemma ScanFinds(d: Documents, owner: Key, g: Generation, s: seq<Repo>, id: int)
    requires Stores(d.chunks, owner, g, s)
    ensures HasId(s, id) <==>
        exists k | k in d.chunks :: k.owner == owner && k.generation == g && HasId(d.chunks[k], id)
  {
    InSomeChunk(s, id);
    if HasId(s, id) {
      var i :| 0 <= i < ChunkCount(|s|) && HasId(ChunkOf(s, i), id);
      assert ChunkKey(owner, g, i) in d.chunks;
    }
    if k :| k in d.chunks && k.owner == owner && k.generation == g && HasId(d.chunks[k], id) {
      assert k == ChunkKey(owner, g, k.number);
    }
  }

  /** The documents entitle exactly whom the grants do. */
  lemma EntitlementIsGrant(w: World, identity: Name, installation: int, repository: int)
    requires Ok(w)
    ensures Entitled(w.docs, identity, installation, repository) <==>
        Granted(w.grants, Key(identity, installation), repository)
  {
    var k := Key(identity, installation);
    if k in w.docs.installations {
      assert GrantOk(w, k);
      ScanFinds(w.docs, k, w.docs.installations[k].generation, w.grants[k].repositories, repository);
    }
  }

  lemma CutTakes(g: Grant, event: Event, id: int)
    requires event.Valid()
    ensures Cut(g, event).status == Installed && HasId(Cut(g, event).repositories, id) <==>
              g.status == Installed && HasId(g.repositories, id) && event.TakesRepositories() && id !in event.Removed()
  {
    WithoutHolds(g.repositories, event.Removed());
  }

  function UserOf(d: Documents, identity: Name): int {
    if identity in d.identities then d.identities[identity].user else 0
  }

  /**
   Applying a delivery for the first time never fails and is exactly set subtraction: whoever was
   entitled still is, but for the triples the event names.
   */
  lemma LifecycleIsSubtraction(steps: seq<Step>, event: Event, identity: Name, installation: int, repository: int)
    requires event.Valid() && event.delivery !in Run(steps).docs.receipts
    ensures var d := Run(steps).docs;
            && LifecycleAnswer(d, event).None?
            && (Entitled(LifecycleDocs(d, event), identity, installation, repository) <==>
                Entitled(d, identity, installation, repository)
                && !Takes(event, UserOf(d, identity), Key(identity, installation), repository))
  {
    RunIsOk(steps);
    var w, k := Run(steps), Key(identity, installation);
    LifecycleSucceeds(w, event);
    LifecycleIsOk(w, event);
    EntitlementIsGrant(w, identity, installation, repository);
    EntitlementIsGrant(Apply(w, Lifecycle(event)), identity, installation, repository);
    CutAllTakes(w, event, k, repository);
  }

  lemma CutAllTakes(w: World, event: Event, k: Key, repository: int)
    requires ChunksOk(w) && event.Valid()
    ensures Granted(CutAll(w.grants, event), k, repository) <==>
              Granted(w.grants, k, repository) && !Takes(event, UserOf(w.docs, k.identity), k, repository)
  {
    if k in w.grants {
      assert GrantOk(w, k);
      CutTakes(w.grants[k], event, repository);
    }
  }

  lemma RunSplits(steps: seq<Step>, more: seq<Step>)
    requires more != []
    ensures Run(steps + more) == Apply(Run(steps + more[..|more| - 1]), more[|more| - 1])
  {
    assert (steps + more)[..|steps + more| - 1] == steps + more[..|more| - 1];
  }

  lemma {:induction false} ReceiptsStay(steps: seq<Step>, more: seq<Step>, delivery: Name)
    requires delivery in Run(steps).docs.receipts
    ensures delivery in Run(steps + more).docs.receipts
    ensures Run(steps + more).docs.receipts[delivery] == Run(steps).docs.receipts[delivery]
    decreases |more|
  {
    if more == [] {
      assert steps + more == steps;
    } else {
      var init := more[..|more| - 1];
      ReceiptsStay(steps, init, delivery);
      RunSplits(steps, more);
      ReceiptStays(Run(steps + init), more[|more| - 1], delivery);
    }
  }

  lemma ReceiptStays(w: World, step: Step, delivery: Name)
    requires delivery in w.docs.receipts
    ensures delivery in Apply(w, step).docs.receipts && Apply(w, step).docs.receipts[delivery]
        == w.docs.receipts[delivery]
  {
    if step.Lifecycle? && LifecycleAnswer(w.docs, step.event).None? && step.event.delivery !in w.docs.receipts {
      UpdatesLeaveReceipts(w.docs, Updates(w.docs, step.event).value);
    }
  }

  lemma {:induction false} UpdatesLeaveReceipts(d: Documents, updates: seq<Update>)
    ensures WithUpdates(d, updates).receipts == d.receipts
  {
    if updates != [] {
      UpdatesLeaveReceipts(d, updates[..|updates| - 1]);
    }
  }

  /**
   Once applied, a delivery that comes again, however much later, succeeds and changes nothing; another
   event under its ID is refused.
   */
  lemma RedeliveryChangesNothing(steps: seq<Step>, event: Event, more: seq<Step>, again: Event)
    requires event.Valid() && event.delivery !in Run(steps).docs.receipts
    requires again.Valid() && again.delivery == event.delivery
    ensures var d := Run(steps + [Lifecycle(event)] + more).docs;
            && LifecycleDocs(d, again) == d
            && LifecycleAnswer(d, again) == if again == event then None else Some(DeliveryReused)
  {
    RunIsOk(steps);
    LifecycleSucceeds(Run(steps), event);
    var first := steps + [Lifecycle(event)];
    assert first[..|steps|] == steps;
    assert Run(first).docs.receipts[event.delivery] == event;
    ReceiptsStay(first, more, event.delivery);
  }

  /** On documents only this store wrote, nothing stored is ever found missing or invalid. */
  lemma StoredDataIsSound(steps: seq<Step>, event: Event, digest: Name, expected: State, now: int, b: Binding)
    ensures LifecycleAnswer(Run(steps).docs, event) in {None, Some(Unavailable), Some(DeliveryReused)}
    ensures BindAnswer(Run(steps).docs, digest, expected, now, b)
            !in {Some(InvalidIdentity), Some(InvalidIndex), Some(InvalidUserIndex)}
    ensures forall i | i in Run(steps).docs.identities :: Presentable(Run(steps).docs.identities[i], i)
  {
    RunIsOk(steps);
    if event.Valid() && event.delivery !in Run(steps).docs.receipts {
      LifecycleSucceeds(Run(steps), event);
    }
  }

  /** A binding grants its own repositories if its installation is live, and touches no other pair. */
  lemma BindingGrants(steps: seq<Step>, digest: Name, expected: State, now: int, b: Binding,
                      identity: Name, installation: int, repository: int)
    requires BindAnswer(Run(steps).docs, digest, expected, now, b).None?
    ensures var d := Run(steps).docs;
            Entitled(BindDocs(d, digest, expected, now, b), identity, installation, repository) <==>
            if Key(identity, installation) == b.Owner()
            then b.installation.status == Installed && HasId(b.installation.repositories, repository)
            else Entitled(d, identity, installation, repository)
  {
    RunIsOk(steps);
    var w := Run(steps);
    var step := Bind(digest, expected, now, b);
    BindIsOk(w, step);
    EntitlementIsGrant(w, identity, installation, repository);
    EntitlementIsGrant(Apply(w, step), identity, installation, repository);
  }

  /** Both readers see the grant: the one that counts the chunks and the one that scans for them. */
  lemma ReadersAgree(steps: seq<Step>, k: Key)
    requires k in Run(steps).docs.installations
    ensures var d, h := Run(steps).docs, Run(steps).docs.installations[k];
            && k in Run(steps).grants
            && var s := Run(steps).grants[k].repositories;
               && ReadChunks(d, k, h.generation, h.chunks) == Success(Chunks(s)) && Flatten(Chunks(s)) == s
               && (forall i :: ChunkKey(k, h.generation, i) in d.chunks <==> 0 <= i < h.chunks)
               && (forall c | c in d.chunks && c.owner == k && c.generation
                   == h.generation :: 1 <= |d.chunks[c]| <= CHUNK_SIZE)
               && (forall id :: HasId(s, id) <==>
                     exists c | c in d.chunks :: c.owner == k && c.generation == h.generation && HasId(d.chunks[c], id))
  {
    RunIsOk(steps);
    var d, h, s := Run(steps).docs, Run(steps).docs.installations[k], Run(steps).grants[k].repositories;
    assert GrantOk(Run(steps), k);
    ReadsStored(d, k, h.generation, s, ChunkCount(|s|));
    assert Chunks(s)[..|Chunks(s)|] == Chunks(s);
    ChunksKeepTheList(s);
    forall c | c in d.chunks && c.owner == k && c.generation == h.generation
      ensures 1 <= |d.chunks[c]| <= CHUNK_SIZE
    {
      assert c == ChunkKey(k, h.generation, c.number);
      ChunkSizes(s, c.number);
    }
    forall id
      ensures HasId(s, id) <==>
          exists c | c in d.chunks :: c.owner == k && c.generation == h.generation && HasId(d.chunks[c], id)
    {
      ScanFinds(d, k, h.generation, s, id);
    }
  }

  /** The three views of who is bound to what agree, sorted, duplicate-free and within their limits. */
  lemma IndexesAgreeInEveryRun(steps: seq<Step>)
    ensures ListsOk(Run(steps).docs) && IndexesAgree(Run(steps).docs)
  {
    RunIsOk(steps);
  }

  lemma CutGrantsNothing(grants: Grants, event: Event, k: Key, repository: int)
    requires event.Valid() && !Granted(grants, k, repository)
    ensures !Granted(CutAll(grants, event), k, repository)
  {
    if k in grants {
      CutTakes(grants[k], event, repository);
    }
  }

  lemma StepGrantsNothing(w: World, step: Step, k: Key, repository: int)
    requires !Granted(w.grants, k, repository) && (step.Bind? ==> step.binding.Owner() != k)
    ensures !Granted(Apply(w, step).grants, k, repository)
  {
    if step.Lifecycle? && step.event.Valid() {
      CutGrantsNothing(w.grants, step.event, k, repository);
    }
  }

  lemma {:induction false} StaysUngranted(steps: seq<Step>, more: seq<Step>, k: Key, repository: int)
    requires !Granted(Run(steps).grants, k, repository)
    requires forall s | s in more :: s.Bind? ==> s.binding.Owner() != k
    ensures !Granted(Run(steps + more).grants, k, repository)
    decreases |more|
  {
    if more == [] {
      assert steps + more == steps;
    } else {
      var init := more[..|more| - 1];
      StaysUngranted(steps, init, k, repository);
      RunSplits(steps, more);
      StepGrantsNothing(Run(steps + init), more[|more| - 1], k, repository);
    }
  }

  /** What was taken away stays away until that identity binds that installation again. */
  lemma LostUntilBoundAgain(steps: seq<Step>, more: seq<Step>, identity: Name, installation: int, repository: int)
    requires !Entitled(Run(steps).docs, identity, installation, repository)
    requires forall s | s in more :: s.Bind? ==> s.binding.Owner() != Key(identity, installation)
    ensures !Entitled(Run(steps + more).docs, identity, installation, repository)
  {
    RunIsOk(steps);
    RunIsOk(steps + more);
    EntitlementIsGrant(Run(steps), identity, installation, repository);
    StaysUngranted(steps, more, Key(identity, installation), repository);
    EntitlementIsGrant(Run(steps + more), identity, installation, repository);
  }
}
