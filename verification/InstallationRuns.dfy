/**
 Whole lives of the installation store: bindings and lifecycle events in any order, next to the plain
 record of who was granted what, which the documents must refine.
 */
module InstallationRuns {
  import opened Wrappers
  import opened Sorting
  import opened ConnectionState
  import opened Installations

  /** What one binding grants: the repositories last bound, less every later removal. */
  datatype Grant = Grant(user: int, status: Status, repositories: seq<Repo>)
  type Grants = map<Key, Grant>

  datatype World = World(docs: Documents, grants: Grants)

  const START := World(EMPTY, map[])

  /** States is anything that happens to the pending states between the two. */
  datatype Step = Bind(digest: Name, expected: State, now: int,
      binding: Binding) | Lifecycle(event: Event) | States(states: map<Name, State>)

  /** The bindings an event concerns, given the GitHub user each identity is bound to. */
  predicate Concerns(event: Event, user: int, owner: Key) {
    && (event.action != AuthorizationRevoked ==> owner.installation == event.installation)
    && (event.ForOneUser() ==> user == event.user)
  }

  /** What an event leaves of a grant it concerns. */
  function Cut(g: Grant, event: Event): Grant {
    if event.action == InstallationSuspended then g.(status := Suspended)
    else if event.TakesRepositories() then g.(repositories := Without(g.repositories, event.Removed()))
    else g.(status := Revoked)
  }

  function CutAll(grants: Grants, event: Event): Grants {
    map k | k in grants :: if Concerns(event, grants[k].user, k) then Cut(grants[k], event) else grants[k]
  }

  function Apply(w: World, step: Step): World {
    match step
    case Bind(digest, expected, now, b) =>
      if BindAnswer(w.docs, digest, expected, now, b).Some? then w
      else World(BindDocs(w.docs, digest, expected, now, b),
                 w.grants[b.Owner() := Grant(b.user, b.installation.status, b.installation.repositories)])
    case Lifecycle(event) =>
      if LifecycleAnswer(w.docs, event).Some? || event.delivery in w.docs.receipts then w
      else World(LifecycleDocs(w.docs, event), CutAll(w.grants, event))
    case States(states) => w.(docs := w.docs.(states := states))
  }

  function Run(steps: seq<Step>): World {
    if steps == [] then START else Apply(Run(steps[..|steps| - 1]), steps[|steps| - 1])
  }

  // ----- What holds in every reachable state -----

  ghost predicate ListsOk(d: Documents) {
    && (forall i | i in d.identities ::
          && Presentable(d.identities[i], i)
          && IsSorted(d.identities[i].installations, IntLess)
              && |d.identities[i].installations| <= MAX_IDENTITY_INSTALLATIONS)
    && (forall n | n in d.indexes ::
          && d.indexes[n].installation == n
          && IsSorted(d.indexes[n].identities, NameLess) && |d.indexes[n].identities| <= MAX_INSTALLATION_IDENTITIES)
    && (forall u | u in d.users ::
          && d.users[u].user == u
          && IsSorted(d.users[u].identities, NameLess) && |d.users[u].identities| <= MAX_INSTALLATION_IDENTITIES)
  }

  predicate Listed(d: Documents, k: Key) {
    k.identity in d.identities && k.installation in d.identities[k.identity].installations
  }

  predicate Indexed(d: Documents, k: Key) {
    k.installation in d.indexes && k.identity in d.indexes[k.installation].identities
  }

  predicate BoundTo(d: Documents, identity: Name, user: int) {
    identity in d.identities && d.identities[identity].user == user
  }

  predicate UserIndexed(d: Documents, identity: Name, user: int) {
    user in d.users && identity in d.users[user].identities
  }

  ghost predicate IndexesAgree(d: Documents) {
    && (forall k :: Listed(d, k) <==> k in d.installations)
    && (forall k :: Indexed(d, k) <==> k in d.installations)
    && (forall i, u :: BoundTo(d, i, u) <==> UserIndexed(d, i, u))
  }

  /** The documents under a generation are exactly the chunks of s. */
  ghost predicate Stores(chunks: map<ChunkKey, seq<Repo>>, owner: Key, g: Generation, s: seq<Repo>) {
    && (forall i :: ChunkKey(owner, g, i) in chunks <==> 0 <= i < ChunkCount(|s|))
    && (forall i | 0 <= i < ChunkCount(|s|) :: chunks[ChunkKey(owner, g, i)] == ChunkOf(s, i))
  }

  /** Where a chunk document can come from. */
  predicate Sourced(d: Documents, c: ChunkKey) {
    match c.generation
    case Unnamed => false
    case Bound(repositories, _) => 0 <= c.number < ChunkCount(|repositories|) && c in d.chunks && d.chunks[c]
        == ChunkOf(repositories, c.number)
    case Reduced(_, delivery) => delivery in d.receipts
  }

  ghost predicate GrantOk(w: World, k: Key)
    requires k in w.docs.installations
  {
    var h := w.docs.installations[k];
    && k in w.grants && k.identity in w.docs.identities
    && h.id == k.installation && h.generation != Unnamed
    && w.grants[k].user == w.docs.identities[k.identity].user && w.grants[k].status == h.status
    && h.chunks == ChunkCount(|w.grants[k].repositories|)
    && Stores(w.docs.chunks, k, h.generation, w.grants[k].repositories)
  }

  ghost predicate ChunksOk(w: World) {
    && w.grants.Keys == w.docs.installations.Keys
    && (forall k | k in w.docs.installations :: GrantOk(w, k))
    && (forall c | c in w.docs.chunks :: Sourced(w.docs, c))
  }

  ghost predicate Ok(w: World) {
    ListsOk(w.docs) && IndexesAgree(w.docs) && ChunksOk(w)
  }

  // ----- Bindings keep it -----

  /** The three lists a binding leaves hold the old members and the new one, still sorted. */
  lemma ListsAfter(d: Documents, b: Binding)
    requires ListsOk(d)
    ensures IsSorted(IdentityAfter(d, b).installations, IntLess)
    ensures IsSorted(IndexAfter(d, b).identities, NameLess)
    ensures IsSorted(UserIndexAfter(d, b).identities, NameLess)
    ensures forall n ::
              n in IdentityAfter(d, b).installations <==> n == b.installation.id || Listed(d, Key(b.identity, n))
    ensures forall i :: i in IndexAfter(d, b).identities <==> i == b.identity || Indexed(d, Key(i, b.installation.id))
    ensures forall i :: i in UserIndexAfter(d, b).identities <==> i == b.identity || UserIndexed(d, i, b.user)
  {
    IntsAreOrdered();
    NamesAreOrdered();
    WithMemberHolds(if b.identity in d.identities then d.identities[b.identity].installations else [],
        b.installation.id, IntLess);
    WithMemberHolds(if b.installation.id in d.indexes then d.indexes[b.installation.id].identities else [],
        b.identity, NameLess);
    WithMemberHolds(if b.user in d.users then d.users[b.user].identities else [], b.identity, NameLess);
  }

  lemma BindKeepsLists(d: Documents, digest: Name, b: Binding)
    requires ListsOk(d) && b.Valid() && ListsAnswer(d, b).Success?
    ensures ListsOk(BoundDocs(d, digest, b, ListsAnswer(d, b).value))
  {
    ListsAfter(d, b);
  }

  lemma BindKeepsIndexes(d: Documents, digest: Name, b: Binding)
    requires ListsOk(d) && IndexesAgree(d) && b.Valid() && ListsAnswer(d, b).Success?
    ensures IndexesAgree(BoundDocs(d, digest, b, ListsAnswer(d, b).value))
  {
    ListsAfter(d, b);
    var after := BoundDocs(d, digest, b, ListsAnswer(d, b).value);
    forall k: Key
      ensures Listed(after, k) <==> k in after.installations
      ensures Indexed(after, k) <==> k in after.installations
    {
      assert Listed(d, k) <==> k in d.installations;
      assert Indexed(d, k) <==> k in d.installations;
      if k.identity == b.identity { assert k == Key(b.identity, k.installation); }
      if k.installation == b.installation.id { assert k == Key(k.identity, b.installation.id); }
    }
    forall i: Name, u: int
      ensures BoundTo(after, i, u) <==> UserIndexed(after, i, u)
    {
      assert BoundTo(d, i, u) <==> UserIndexed(d, i, u);
    }
  }

  /** The chunks a binding writes are all there is under its generation. */
  lemma BindStores(d: Documents, b: Binding, chunks: map<ChunkKey, seq<Repo>>)
    requires forall c | c in d.chunks :: Sourced(d, c)
    requires chunks == WithChunks(d.chunks, b.Owner(), HeaderOf(b).generation, Chunks(b.installation.repositories))
    ensures Stores(chunks, b.Owner(), HeaderOf(b).generation, b.installation.repositories)
  {
    var s, g := b.installation.repositories, HeaderOf(b).generation;
    WithChunksHolds(d.chunks, b.Owner(), g, Chunks(s));
    forall i
      ensures ChunkKey(b.Owner(), g, i) in chunks <==> 0 <= i < ChunkCount(|s|)
    {
      var c := ChunkKey(b.Owner(), g, i);
      assert c in d.chunks ==> Sourced(d, c);
    }
  }

  lemma BindSources(d: Documents, b: Binding, after: Documents)
    requires forall c | c in d.chunks :: Sourced(d, c)
    requires after.chunks == WithChunks(d.chunks, b.Owner(), HeaderOf(b).generation,
        Chunks(b.installation.repositories))
    requires after.receipts == d.receipts
    ensures forall c | c in after.chunks :: Sourced(after, c)
  {
    WithChunksHolds(d.chunks, b.Owner(), HeaderOf(b).generation, Chunks(b.installation.repositories));
    forall c | c in after.chunks
      ensures Sourced(after, c)
    {
      assert c in d.chunks ==> Sourced(d, c);
    }
  }

  /** Another owner's chunks are not touched. */
  lemma BindLeavesStores(d: Documents, b: Binding, chunks: map<ChunkKey, seq<Repo>>, k: Key, g: Generation,
      s: seq<Repo>)
    requires k != b.Owner() && Stores(d.chunks, k, g, s)
    requires chunks == WithChunks(d.chunks, b.Owner(), HeaderOf(b).generation, Chunks(b.installation.repositories))
    ensures Stores(chunks, k, g, s)
  {
    WithChunksHolds(d.chunks, b.Owner(), HeaderOf(b).generation, Chunks(b.installation.repositories));
    forall i
      ensures ChunkKey(k, g, i) in chunks <==> 0 <= i < ChunkCount(|s|)
    {
      assert ChunkKey(k, g, i) in d.chunks <==> 0 <= i < ChunkCount(|s|);
    }
  }

  lemma BindKeepsChunks(w: World, digest: Name, b: Binding)
    requires ListsOk(w.docs) && ChunksOk(w) && b.Valid() && ListsAnswer(w.docs, b).Success?
    ensures ChunksOk(World(BoundDocs(w.docs, digest, b, ListsAnswer(w.docs, b).value),
                           w.grants[b.Owner() := Grant(b.user, b.installation.status, b.installation.repositories)]))
  {
    var d := w.docs;
    var after := BoundDocs(d, digest, b, ListsAnswer(d, b).value);
    var v := World(after, w.grants[b.Owner() := Grant(b.user, b.installation.status, b.installation.repositories)]);
    BindSources(d, b, after);
    BindStores(d, b, after.chunks);
    forall k | k in after.installations
      ensures GrantOk(v, k)
    {
      if k != b.Owner() {
        assert GrantOk(w, k);
        BindLeavesStores(d, b, after.chunks, k, d.installations[k].generation, w.grants[k].repositories);
      }
    }
  }

  // ----- Lifecycle events keep it -----

  /** The counted reader gets back exactly the chunks stored. */
  lemma {:induction false} ReadsStored(d: Documents, owner: Key, g: Generation, s: seq<Repo>, n: nat)
    requires Stores(d.chunks, owner, g, s) && n <= ChunkCount(|s|)
    ensures ReadChunks(d, owner, g, n) == Success(Chunks(s)[..n])
  {
    if n > 0 {
      ReadsStored(d, owner, g, s, n - 1);
      assert ChunkKey(owner, g, n - 1) in d.chunks;
      assert Chunks(s)[..n] == Chunks(s)[..n - 1] + [Chunks(s)[n - 1]];
    }
  }

  /** The update an event makes to one binding, said in terms of what the binding grants. */
  function Expected(w: World, event: Event, k: Key): Update {
    if k !in w.docs.installations || k !in w.grants then Update(k, Header(0, BLANK, Revoked, Unnamed, 0), [])
    else
      var h, left := w.docs.installations[k], Cut(w.grants[k], event);
      if event.TakesRepositories() then
        Update(k, h.(generation := Reduced(h.generation, event.delivery), chunks := ChunkCount(|left.repositories|)),
            Chunks(left.repositories))
      else Update(k, h.(status := left.status), [])
  }

  lemma UpdateIsExpected(w: World, event: Event, k: Key)
    requires ChunksOk(w) && event.Valid()
    ensures UpdateOf(w.docs, event, k) == if k in w.docs.installations then Success([Expected(w, event, k)])
        else Success([])
  {
    if k in w.docs.installations {
      assert GrantOk(w, k);
      var h, s := w.docs.installations[k], w.grants[k].repositories;
      assert Key(k.identity, h.id) == k;
      ReadsStored(w.docs, k, h.generation, s, ChunkCount(|s|));
      assert Chunks(s)[..ChunkCount(|s|)] == Chunks(s);
      ChunksKeepTheList(s);
    }
  }

  /** The updates gathered are the expected ones of the targets, and of nothing else. */
  ghost predicate Gathers(w: World, event: Event, r: Result<seq<Update>, Error>, targets: set<Key>) {
    && r.Success?
    && (forall k | k in targets :: Expected(w, event, k) in r.value)
    && (forall u | u in r.value :: u.owner in targets && u == Expected(w, event, u.owner))
  }

  lemma GathersJoin(w: World, event: Event, a: Result<seq<Update>, Error>, b: Result<seq<Update>, Error>, s: set<Key>,
      t: set<Key>)
    requires Gathers(w, event, a, s) && Gathers(w, event, b, t)
    ensures Gathers(w, event, Joined(a, b), s + t)
  {
  }

  function KeysOf(d: Documents, identity: Name, ids: seq<int>): set<Key> {
    set k | k in d.installations && k.identity == identity && k.installation in ids
  }

  lemma {:induction false} InstallationsGather(w: World, event: Event, identity: Name, ids: seq<int>)
    requires ChunksOk(w) && event.Valid()
    ensures Gathers(w, event, UpdatesOfInstallations(w.docs, event, identity, ids), KeysOf(w.docs, identity, ids))
  {
    if ids != [] {
      var n := |ids| - 1;
      var k := Key(identity, ids[n]);
      InstallationsGather(w, event, identity, ids[..n]);
      UpdateIsExpected(w, event, k);
      var one := if k in w.docs.installations then {k} else {};
      assert Gathers(w, event, UpdateOf(w.docs, event, k), one);
      GathersJoin(w, event, UpdatesOfInstallations(w.docs, event, identity, ids[..n]), UpdateOf(w.docs, event, k),
                  KeysOf(w.docs, identity, ids[..n]), one);
      assert ids == ids[..n] + [ids[n]];
      assert KeysOf(w.docs, identity, ids) == KeysOf(w.docs, identity, ids[..n]) + one;
    }
  }

  /** Every binding of these identities that the event concerns. */
  function Targets(d: Documents, event: Event, identities: seq<Name>): set<Key> {
    set k | k in d.installations && k.identity in identities && k.identity in d.identities
            && Concerns(event, d.identities[k.identity].user, k)
  }

  lemma IdentityGathers(w: World, event: Event, identity: Name)
    requires Ok(w) && event.Valid() && identity in w.docs.identities
    ensures Gathers(w, event, UpdatesOfIdentity(w.docs, event, identity), Targets(w.docs, event, [identity]))
  {
    var d := w.docs;
    if event.ForOneUser() && d.identities[identity].user != event.user {
      assert Targets(d, event, [identity]) == {};
    } else {
      var ids := if event.action == AuthorizationRevoked then d.identities[identity].installations
          else [event.installation];
      InstallationsGather(w, event, identity, ids);
      assert Targets(d, event, [identity]) == KeysOf(d, identity, ids) by {
        forall k | k in d.installations && k.identity == identity
          ensures k.installation in d.identities[identity].installations
        {
          assert Listed(d, k);
        }
      }
    }
  }

  lemma {:induction false} IdentitiesGather(w: World, event: Event, identities: seq<Name>)
    requires Ok(w) && event.Valid() && forall i | i in identities :: i in w.docs.identities
    ensures Gathers(w, event, UpdatesOf(w.docs, event, identities), Targets(w.docs, event, identities))
  {
    if identities != [] {
      var n := |identities| - 1;
      IdentitiesGather(w, event, identities[..n]);
      IdentityGathers(w, event, identities[n]);
      GathersJoin(w, event, UpdatesOf(w.docs, event, identities[..n]), UpdatesOfIdentity(w.docs, event, identities[n]),
                  Targets(w.docs, event, identities[..n]), Targets(w.docs, event, [identities[n]]));
      assert identities == identities[..n] + [identities[n]];
      assert Targets(w.docs, event, identities)
          == Targets(w.docs, event, identities[..n]) + Targets(w.docs, event, [identities[n]]);
    }
  }

  function Concerned(w: World, event: Event): set<Key> {
    set k | k in w.grants && Concerns(event, w.grants[k].user, k)
  }

  /** The index an event goes by reaches every binding the event concerns. */
  lemma UpdatesReachAll(w: World, event: Event)
    requires Ok(w) && event.Valid()
    ensures Gathers(w, event, Updates(w.docs, event), Concerned(w, event))
  {
    var d := w.docs;
    assert Reached(d, event).Success?;
    var identities := Reached(d, event).value;
    forall i | i in identities
      ensures i in d.identities
    {
      if event.action == AuthorizationRevoked {
        assert UserIndexed(d, i, event.user);
        assert BoundTo(d, i, event.user);
      } else {
        assert Indexed(d, Key(i, event.installation));
        assert Listed(d, Key(i, event.installation));
      }
    }
    IdentitiesGather(w, event, identities);
    TargetsAreConcerned(w, event, identities);
  }

  lemma TargetsAreConcerned(w: World, event: Event, identities: seq<Name>)
    requires Ok(w) && event.Valid() && Reached(w.docs, event) == Success(identities)
    ensures Targets(w.docs, event, identities) == Concerned(w, event)
  {
    var d := w.docs;
    forall k | k in Concerned(w, event)
      ensures k in Targets(d, event, identities)
    {
      assert GrantOk(w, k);
      if event.action == AuthorizationRevoked {
        assert BoundTo(d, k.identity, event.user);
        assert UserIndexed(d, k.identity, event.user);
      } else {
        assert Indexed(d, k);
      }
    }
    forall k | k in Targets(d, event, identities)
      ensures k in Concerned(w, event)
    {
      assert GrantOk(w, k);
    }
  }

  /** Chunk documents that differ from w's by the new ones of the targets alone. */
  ghost predicate ChunksUpdated(w: World, event: Event, targets: set<Key>, chunks: map<ChunkKey, seq<Repo>>) {
    && (forall c :: c in chunks <==> c in w.docs.chunks || IsNew(w, event, targets, c))
    && (forall c | c in chunks ::
          chunks[c] == if IsNew(w, event, targets, c) then Expected(w, event, c.owner).chunks[c.number]
              else w.docs.chunks[c])
  }

  /** Documents that differ from w's by the expected updates of the targets alone. */
  ghost predicate Updated(w: World, event: Event, targets: set<Key>, after: Documents) {
    && after == w.docs.(installations := after.installations, chunks := after.chunks)
    && (forall k :: k in after.installations <==> k in w.docs.installations || k in targets)
    && (forall k | k in after.installations ::
          after.installations[k] == if k in targets then Expected(w, event, k).header else w.docs.installations[k])
    && ChunksUpdated(w, event, targets, after.chunks)
  }

  predicate IsNew(w: World, event: Event, targets: set<Key>, c: ChunkKey) {
    var u := Expected(w, event, c.owner);
    c.owner in targets && c.generation == u.header.generation && 0 <= c.number < |u.chunks|
  }

  lemma NewOfOneMore(w: World, event: Event, targets: set<Key>, k: Key, c: ChunkKey)
    ensures IsNew(w, event, targets + {k}, c) <==> IsNew(w, event, targets, c) || IsNew(w, event, {k}, c)
  {
  }

  lemma OneMoreUpdate(w: World, event: Event, targets: set<Key>, before: Documents, k: Key)
    requires ChunksOk(w) && Updated(w, event, targets, before) && k in w.docs.installations
    ensures Updated(w, event, targets + {k}, WithUpdate(before, Expected(w, event, k)))
  {
    assert GrantOk(w, k);
    var u := Expected(w, event, k);
    assert u.owner == k && Key(k.identity, u.header.id) == k;
    OneMoreChunks(w, event, targets, before.chunks, k);
  }

  lemma OneMoreChunks(w: World, event: Event, targets: set<Key>, before: map<ChunkKey, seq<Repo>>, k: Key)
    requires ChunksUpdated(w, event, targets, before)
    ensures var u := Expected(w, event, k);
            ChunksUpdated(w, event, targets + {k}, WithChunks(before, k, u.header.generation, u.chunks))
  {
    var u := Expected(w, event, k);
    WithChunksHolds(before, k, u.header.generation, u.chunks);
    forall c: ChunkKey
      ensures IsNew(w, event, targets + {k}, c) <==> IsNew(w, event, targets, c) || IsNew(w, event, {k}, c)
    {
      NewOfOneMore(w, event, targets, k, c);
    }
  }

  function OwnersOf(updates: seq<Update>): set<Key> {
    set u | u in updates :: u.owner
  }

  lemma OwnersAppend(updates: seq<Update>, u: Update)
    ensures OwnersOf(updates + [u]) == OwnersOf(updates) + {u.owner}
  {
    assert forall x :: x in updates + [u] <==> x in updates || x == u;
  }

  lemma {:induction false} UpdatesApply(w: World, event: Event, updates: seq<Update>)
    requires ChunksOk(w)
    requires forall u | u in updates :: u.owner in w.docs.installations && u == Expected(w, event, u.owner)
    ensures Updated(w, event, OwnersOf(updates), WithUpdates(w.docs, updates))
  {
    if updates != [] {
      var n := |updates| - 1;
      UpdatesApply(w, event, updates[..n]);
      OneMoreUpdate(w, event, OwnersOf(updates[..n]), WithUpdates(w.docs, updates[..n]), updates[n].owner);
      assert updates == updates[..n] + [updates[n]];
      OwnersAppend(updates[..n], updates[n]);
    }
  }

  /** No event ever fails on the documents this store writes, and its updates are the expected ones. */
  lemma LifecycleSucceeds(w: World, event: Event)
    requires Ok(w) && event.Valid() && event.delivery !in w.docs.receipts
    ensures LifecycleAnswer(w.docs, event).None?
    ensures Updated(w, event, Concerned(w, event), LifecycleDocs(w.docs, event).(receipts := w.docs.receipts))
    ensures LifecycleDocs(w.docs, event).receipts == w.docs.receipts[event.delivery := event]
  {
    UpdatesReachAll(w, event);
    var updates := Updates(w.docs, event).value;
    UpdatesApply(w, event, updates);
    assert OwnersOf(updates) == Concerned(w, event) by {
      forall k | k in Concerned(w, event)
        ensures exists u :: u in updates && u.owner == k
      {
        assert Expected(w, event, k) in updates;
      }
    }
  }

  /** A generation ended by a new delivery holds nothing but what that delivery's update writes. */
  lemma NewGenerationStores(w: World, event: Event, after: Documents, k: Key)
    requires ChunksOk(w) && event.delivery !in w.docs.receipts && event.TakesRepositories()
    requires k in Concerned(w, event) && Updated(w, event, Concerned(w, event), after)
    ensures Stores(after.chunks, k, Expected(w, event, k).header.generation, Cut(w.grants[k], event).repositories)
  {
    var u, s := Expected(w, event, k), Cut(w.grants[k], event).repositories;
    forall i
      ensures ChunkKey(k, u.header.generation, i) in after.chunks <==> 0 <= i < ChunkCount(|s|)
      ensures 0 <= i < ChunkCount(|s|) ==> after.chunks[ChunkKey(k, u.header.generation, i)] == ChunkOf(s, i)
    {
      var c := ChunkKey(k, u.header.generation, i);
      assert c in w.docs.chunks ==> Sourced(w.docs, c);
      assert IsNew(w, event, Concerned(w, event), c) <==> 0 <= i < ChunkCount(|s|);
    }
  }

  /** A generation no update writes to is as it was. */
  lemma OldGenerationStores(w: World, event: Event, after: Documents, k: Key)
    requires ChunksOk(w) && k in w.docs.installations
    requires Updated(w, event, Concerned(w, event), after)
    requires k !in Concerned(w, event) || !event.TakesRepositories()
    ensures Stores(after.chunks, k, w.docs.installations[k].generation, w.grants[k].repositories)
  {
    assert GrantOk(w, k);
    forall i
      ensures !IsNew(w, event, Concerned(w, event), ChunkKey(k, w.docs.installations[k].generation, i))
    {
    }
  }

  lemma CutKeepsGrant(w: World, event: Event, after: Documents, k: Key)
    requires ChunksOk(w) && event.delivery !in w.docs.receipts && k in w.docs.installations
    requires Updated(w, event, Concerned(w, event), after)
    ensures k in after.installations && GrantOk(World(after, CutAll(w.grants, event)), k)
  {
    assert GrantOk(w, k);
    if k in Concerned(w, event) && event.TakesRepositories() {
      NewGenerationStores(w, event, after, k);
    } else {
      OldGenerationStores(w, event, after, k);
    }
  }

  lemma CutKeepsSources(w: World, event: Event, after: Documents, c: ChunkKey)
    requires ChunksOk(w) && c in after.chunks
    requires Updated(w, event, Concerned(w, event), after.(receipts := w.docs.receipts))
    requires after.receipts == w.docs.receipts[event.delivery := event]
    ensures Sourced(after, c)
  {
    if IsNew(w, event, Concerned(w, event), c) {
      assert c.generation.Reduced? && c.generation.delivery == event.delivery;
    } else {
      assert Sourced(w.docs, c);
    }
  }

  lemma LifecycleKeepsChunks(w: World, event: Event, after: Documents)
    requires ChunksOk(w) && event.delivery !in w.docs.receipts
    requires Updated(w, event, Concerned(w, event), after.(receipts := w.docs.receipts))
    requires after.receipts == w.docs.receipts[event.delivery := event]
    ensures ChunksOk(World(after, CutAll(w.grants, event)))
  {
    var v, u := World(after, CutAll(w.grants, event)),
        World(after.(receipts := w.docs.receipts), CutAll(w.grants, event));
    assert forall k :: k in after.installations <==> k in w.docs.installations;
    forall k | k in after.installations
      ensures GrantOk(v, k)
    {
      CutKeepsGrant(w, event, u.docs, k);
      assert GrantOk(u, k);
    }
    forall c | c in after.chunks
      ensures Sourced(after, c)
    {
      CutKeepsSources(w, event, after, c);
    }
  }

  lemma LifecycleIsOk(w: World, event: Event)
    requires Ok(w)
    ensures Ok(Apply(w, Lifecycle(event)))
  {
    if event.Valid() && event.delivery !in w.docs.receipts {
      LifecycleSucceeds(w, event);
      var after := LifecycleDocs(w.docs, event);
      LifecycleKeepsChunks(w, event, after);
      assert forall k :: Listed(after, k) <==> Listed(w.docs, k);
      assert forall k :: Indexed(after, k) <==> Indexed(w.docs, k);
      assert forall i, u :: BoundTo(after, i, u) <==> BoundTo(w.docs, i, u);
      assert forall i, u :: UserIndexed(after, i, u) <==> UserIndexed(w.docs, i, u);
      assert forall k :: k in after.installations <==> k in w.docs.installations;
    }
  }

  lemma BindIsOk(w: World, step: Step)
    requires Ok(w) && step.Bind?
    ensures Ok(Apply(w, step))
  {
    var b := step.binding;
    if BindAnswer(w.docs, step.digest, step.expected, step.now, b).None? {
      BindKeepsLists(w.docs, step.digest, b);
      BindKeepsIndexes(w.docs, step.digest, b);
      BindKeepsChunks(w, step.digest, b);
    }
  }

  lemma StatesAreApart(w: World, states: map<Name, State>)
    requires Ok(w)
    ensures Ok(Apply(w, States(states)))
  {
    var v := Apply(w, States(states));
    assert forall k :: Listed(v.docs, k) <==> Listed(w.docs, k);
    assert forall k :: Indexed(v.docs, k) <==> Indexed(w.docs, k);
    assert forall i, u :: BoundTo(v.docs, i, u) <==> BoundTo(w.docs, i, u);
    assert forall i, u :: UserIndexed(v.docs, i, u) <==> UserIndexed(w.docs, i, u);
    forall k | k in v.docs.installations
      ensures GrantOk(v, k)
    {
      assert GrantOk(w, k);
    }
    forall c | c in v.docs.chunks
      ensures Sourced(v.docs, c)
    {
      assert Sourced(w.docs, c);
    }
  }

  lemma {:induction false} RunIsOk(steps: seq<Step>)
    ensures Ok(Run(steps))
  {
    if steps != [] {
      var n := |steps| - 1;
      RunIsOk(steps[..n]);
      match steps[n]
      case Bind(_, _, _, _) => BindIsOk(Run(steps[..n]), steps[n]);
      case Lifecycle(event) => LifecycleIsOk(Run(steps[..n]), event);
      case States(states) => StatesAreApart(Run(steps[..n]), states);
    }
  }
}
