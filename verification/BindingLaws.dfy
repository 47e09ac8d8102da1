/** Which bindings and lifecycle events are taken, and what each action takes away, told by the fields alone. */
module BindingLaws {
  import opened Wrappers
  import opened Sorting
  import opened ConnectionState
  import opened Installations
  import opened InstallationRuns
  import InstallationLaws

  // ----- What an event takes away -----

  /** The triples (GitHub user, installation, repository) each action names. */
  predicate Names(event: Event, user: int, installation: int, repository: int) {
    match event.action
    case InstallationSuspended => installation == event.installation
    case InstallationRevoked => installation == event.installation
    case RepositoriesRemoved => installation == event.installation && repository in event.repositories
    case UserAccessRemoved => installation == event.installation && user == event.user
    case AuthorizationRevoked => user == event.user
    case RepositoryAccessRemoved =>
      installation == event.installation && user == event.user && repository == event.repository
  }

  lemma TakesIffNames(event: Event, user: int, owner: Key, repository: int)
    ensures InstallationLaws.Takes(event, user, owner, repository) <==> Names(event, user, owner.installation,
        repository)
  {
  }

  /** Applied for the first time, an event leaves everybody's entitlements but those its action names. */
  lemma EachActionTakesItsOwn(steps: seq<Step>, event: Event, identity: Name, installation: int, repository: int)
    requires event.Valid() && event.delivery !in Run(steps).docs.receipts
    ensures var d := Run(steps).docs;
            var user := if identity in d.identities then d.identities[identity].user else 0;
            Entitled(LifecycleDocs(d, event), identity, installation, repository) <==>
              Entitled(d, identity, installation, repository) && !Names(event, user, installation, repository)
  {
    InstallationLaws.LifecycleIsSubtraction(steps, event, identity, installation, repository);
    TakesIffNames(event, InstallationLaws.UserOf(Run(steps).docs, identity), Key(identity, installation), repository);
  }

  /** What an action leaves of the status of a binding it concerns. */
  function StatusAfter(action: Action, status: Status): Status {
    match action
    case InstallationSuspended => Suspended
    case InstallationRevoked => Revoked
    case UserAccessRemoved => Revoked
    case AuthorizationRevoked => Revoked
    case RepositoriesRemoved => status
    case RepositoryAccessRemoved => status
  }

  /** The bindings an action concerns, whatever its repositories. */
  predicate IsConcerned(event: Event, user: int, installation: int) {
    && (event.action != AuthorizationRevoked ==> installation == event.installation)
    && (event.action in {UserAccessRemoved, AuthorizationRevoked, RepositoryAccessRemoved} ==> user == event.user)
  }

  /**
   The grants an event leaves: each binding it concerns has the status of its action, and keeps its other
   repositories.
   */
  lemma EventMarks(steps: seq<Step>, event: Event, k: Key)
    requires event.Valid() && event.delivery !in Run(steps).docs.receipts && k in Run(steps).docs.installations
    ensures var w, v := Run(steps), Apply(Run(steps), Lifecycle(event));
            && k in w.grants && k in v.docs.installations && k in v.grants
            && v.docs.installations[k].status ==
                 (if IsConcerned(event, w.grants[k].user, k.installation)
                  then StatusAfter(event.action, w.docs.installations[k].status) else w.docs.installations[k].status)
            && v.docs.installations[k].status == v.grants[k].status && v.grants[k].user == w.grants[k].user
            && event.delivery in v.docs.receipts && v.docs.receipts[event.delivery] == event
  {
    RunIsOk(steps);
    var w := Run(steps);
    LifecycleSucceeds(w, event);
    LifecycleIsOk(w, event);
    StatusIsGrants(w, k);
    var v := Apply(w, Lifecycle(event));
    CutMarks(w.grants, event, k);
    LifecycleCuts(w, v, event);
    StatusIsGrants(v, k);
  }

  lemma StatusIsGrants(w: World, k: Key)
    requires Ok(w)
    ensures k in w.docs.installations <==> k in w.grants
    ensures k in w.grants ==> w.docs.installations[k].status == w.grants[k].status
  {
    if k in w.docs.installations { assert GrantOk(w, k); }
  }

  lemma CutMarks(grants: Grants, event: Event, k: Key)
    requires k in grants
    ensures var cut := CutAll(grants, event);
            && k in cut && cut[k].user == grants[k].user
            && cut[k].status == (if IsConcerned(event, grants[k].user, k.installation)
                                 then StatusAfter(event.action, grants[k].status) else grants[k].status)
  {
  }

  lemma LifecycleCuts(w: World, v: World, event: Event)
    requires LifecycleAnswer(w.docs, event).None? && event.delivery !in w.docs.receipts
    requires v == Apply(w, Lifecycle(event))
    ensures v.grants == CutAll(w.grants, event)
    ensures event.delivery in v.docs.receipts && v.docs.receipts[event.delivery] == event
  {
  }

  /** What an event must say, action by action. */
  predicate IsFit(event: Event) {
    && event.delivery != Name("")
    && (event.action == AuthorizationRevoked <==> event.installation == 0) && event.installation >= 0
    && (event.action in {UserAccessRemoved, AuthorizationRevoked, RepositoryAccessRemoved} <==> event.user != 0)
    && event.user >= 0
    && (event.action == RepositoryAccessRemoved <==> event.repository != 0) && event.repository >= 0
    && (event.action == RepositoriesRemoved <==> |event.repositories| > 0)
    && forall i | 0 <= i < |event.repositories| :: event.repositories[i] >= 1
  }

  lemma FitIffValid(event: Event)
    ensures event.Valid() <==> IsFit(event)
  {
    assert forall i | 0 <= i < |event.repositories| :: event.repositories[i] in event.repositories;
  }

  /** In every run an event is refused for its form, or for a delivery another event came with; else it is taken. */
  lemma EventIsAnswered(steps: seq<Step>, event: Event)
    ensures var r, d := LifecycleAnswer(Run(steps).docs, event), Run(steps).docs;
            && (r == Some(Unavailable) <==> !IsFit(event))
            && (r == Some(DeliveryReused) <==>
                  IsFit(event) && event.delivery in d.receipts && d.receipts[event.delivery] != event)
            && (r.Some? ==> r.value in {Unavailable, DeliveryReused})
  {
    FitIffValid(event);
    RunIsOk(steps);
    if event.Valid() && event.delivery !in Run(steps).docs.receipts {
      LifecycleSucceeds(Run(steps), event);
    }
  }

  // ----- Bindings -----

  /** What GitHub must have said of the installation, and of the user who binds it. */
  predicate IsSound(b: Binding) {
    && b.user >= 1 && b.login != Name("") && b.verifiedAt != 0
    && b.installation.id >= 1 && b.installation.wellFormed && |b.installation.repositories| <= 10_000
    && var repositories := b.installation.repositories;
       && (forall i | 0 <= i < |repositories| :: repositories[i].id >= 1)
       && (forall i, j | 0 <= i < j < |repositories| ::
             repositories[i].id != repositories[j].id && NameLess(repositories[i].name, repositories[j].name))
  }

  lemma SoundIffValid(b: Binding)
    ensures b.Valid() <==> IsSound(b)
  {
    var repositories := b.installation.repositories;
    assert forall i | 0 <= i < |repositories| :: repositories[i] in repositories;
  }

  /** The bindings an identity, an installation or a user would have by then. */
  function Joined<T(==)>(s: seq<T>, x: T): nat { if x in s then |s| else |s| + 1 }

  function InstallationsOf(d: Documents, identity: Name): seq<int> {
    if identity in d.identities then d.identities[identity].installations else []
  }

  function IdentitiesOf(d: Documents, installation: int): seq<Name> {
    if installation in d.indexes then d.indexes[installation].identities else []
  }

  function IdentitiesOfUser(d: Documents, user: int): seq<Name> {
    if user in d.users then d.users[user].identities else []
  }

  /** The state a binding consumes: current, not over yet, and for that identity and installation. */
  predicate IsRipe(d: Documents, digest: Name, expected: State, now: int) {
    digest in d.states && d.states[digest] == expected && now < expected.expiresAt
  }

  /** The identity is nobody else's on GitHub, and there is room for the binding in all three lists. */
  predicate HasRoom(d: Documents, b: Binding) {
    && (b.identity in d.identities ==> d.identities[b.identity].user == b.user)
    && Joined(InstallationsOf(d, b.identity), b.installation.id) <= 40
    && Joined(IdentitiesOf(d, b.installation.id), b.identity) <= 10
    && Joined(IdentitiesOfUser(d, b.user), b.identity) <= 10
  }

  lemma {:induction false} InsertLength<T>(s: seq<T>, x: T, less: (T, T) -> bool)
    ensures |WithMember(s, x, less)| == Joined(s, x)
  {
  }

  /**
   In every run a binding is made exactly when what GitHub said is sound and for the state's own identity and
   installation, the state is current, the identity belongs to no other GitHub user, and no limit is passed;
   and each refusal says which of these failed first.
   */
  lemma BindingIsAnswered(steps: seq<Step>, digest: Name, expected: State, now: int, b: Binding)
    ensures var d, r := Run(steps).docs, BindAnswer(Run(steps).docs, digest, expected, now, b);
            var sound := now != 0 && IsSound(b) && expected.identity == b.identity
                         && expected.installation == b.installation.id;
            var ripe := IsRipe(d, digest, expected, now);
            var other := b.identity in d.identities && d.identities[b.identity].user != b.user;
            && (r == Some(Unavailable) <==> !sound) && (r == Some(InvalidState) <==> sound && !ripe)
            && (r == Some(Unauthorized) <==> sound && ripe && other)
            && (r == Some(IdentityLimit) <==>
                  sound && ripe && !other && Joined(InstallationsOf(d, b.identity), b.installation.id) > 40)
            && (r.None? <==> sound && ripe && HasRoom(d, b))
            && (r.Some? ==>
                  r.value in {Unavailable, InvalidState, Unauthorized, IdentityLimit, InstallationLimit, UserLimit})
  {
    RunIsOk(steps);
    var d := Run(steps).docs;
    SoundIffValid(b);
    InsertLength(InstallationsOf(d, b.identity), b.installation.id, IntLess);
    InsertLength(IdentitiesOf(d, b.installation.id), b.identity, NameLess);
    InsertLength(IdentitiesOfUser(d, b.user), b.identity, NameLess);
    ListsAreAnswered(d, b);
  }

  lemma ListsAreAnswered(d: Documents, b: Binding)
    requires ListsOk(d)
    ensures var r := ListsAnswer(d, b);
            var other := b.identity in d.identities && d.identities[b.identity].user != b.user;
            && (r == Failure(Unauthorized) <==> other)
            && (r == Failure(IdentityLimit) <==> !other && |IdentityAfter(d, b).installations| > 40)
            && (r.Success? <==>
                  && !other && |IdentityAfter(d, b).installations| <= 40 && |IndexAfter(d, b).identities| <= 10
                  && |UserIndexAfter(d, b).identities| <= 10)
            && (r.Failure? ==> r.error in {Unauthorized, IdentityLimit, InstallationLimit, UserLimit})
  {
  }

  /**
   What a binding records: who is bound to which GitHub user, what GitHub said, and a consumed state; and of
   others nothing.
   */
  lemma BindingRecords(d: Documents, digest: Name, expected: State, now: int, b: Binding)
    requires BindAnswer(d, digest, expected, now, b).None?
    ensures var e, k := BindDocs(d, digest, expected, now, b), Key(b.identity, b.installation.id);
            && b.identity in e.identities && e.identities[b.identity].id == b.identity
            && e.identities[b.identity].user == b.user && e.identities[b.identity].login == b.login
            && e.identities[b.identity].verifiedAt == b.verifiedAt
            && (forall i | i != b.identity :: Lookup(e.identities, i) == Lookup(d.identities, i))
            && k in e.installations && e.installations[k].id == b.installation.id
            && e.installations[k].details == b.installation.details && e.installations[k].status == b.installation.status
            && (forall j | j != k :: Lookup(e.installations, j) == Lookup(d.installations, j))
            && (forall n | n != b.installation.id :: Lookup(e.indexes, n) == Lookup(d.indexes, n))
            && (forall u | u != b.user :: Lookup(e.users, u) == Lookup(d.users, u))
            && e.states == d.states - {digest} && e.receipts == d.receipts
  {
  }

  // ----- Documents this store did not write -----

  /** A list document that does not say whose it is, or an identity without a GitHub user, stops a binding. */
  lemma UnsoundListsStopBindings(d: Documents, b: Binding)
    ensures var r := ListsAnswer(d, b);
            var unsound := b.identity in d.identities
                           && (d.identities[b.identity].id != b.identity || d.identities[b.identity].user < 1);
            && (r == Failure(InvalidIdentity) <==> unsound)
            && (r.Success? ==>
                  && (b.installation.id in d.indexes ==> d.indexes[b.installation.id].installation == b.installation.id)
                  && (b.user in d.users ==> d.users[b.user].user == b.user))
            && (r == Failure(InvalidIndex) ==>
                  b.installation.id in d.indexes && d.indexes[b.installation.id].installation != b.installation.id)
            && (r == Failure(InvalidUserIndex) ==> b.user in d.users && d.users[b.user].user != b.user)
  {
  }

  /** An event goes by the index of its user when an authorization is revoked, and else by that of its installation. */
  lemma IndexIsReadIff(d: Documents, event: Event)
    ensures var r := Reached(d, event);
            if event.action == AuthorizationRevoked then
              if event.user in d.users && d.users[event.user].user != event.user then r == Failure(InvalidUserIndex)
              else r == Success(if event.user in d.users then d.users[event.user].identities else [])
            else
              if event.installation in d.indexes && d.indexes[event.installation].installation != event.installation
              then r == Failure(InvalidIndex)
              else r == Success(if event.installation in d.indexes then d.indexes[event.installation].identities else [])
  {
  }

  /** An indexed identity that is missing, or is somebody else, stops an event. */
  lemma MissingIdentityStopsEvents(d: Documents, event: Event, identity: Name)
    requires identity !in d.identities || d.identities[identity].id != identity
    ensures UpdatesOfIdentity(d, event, identity) == Failure(InvalidIdentity)
  {
  }

  /** Chunks are read exactly when all of them are there. */
  lemma {:induction false} ChunksAreReadIff(d: Documents, owner: Key, g: Generation, n: int)
    ensures ReadChunks(d, owner, g, n).Success? <==> forall i | 0 <= i < n :: ChunkKey(owner, g, i) in d.chunks
    ensures ReadChunks(d, owner, g, n).Failure? ==> ReadChunks(d, owner, g, n).error == ChunkMissing
    decreases n
  {
    if n > 0 { ChunksAreReadIff(d, owner, g, n - 1); }
  }

  /**
   Repositories are taken only from a binding that has a generation and all of its chunks; any other stops
   the event.
   */
  lemma MissingChunksStopEvents(d: Documents, event: Event, k: Key)
    requires event.action in {RepositoriesRemoved, RepositoryAccessRemoved} && k in d.installations
    ensures var h, r := d.installations[k], UpdateOf(d, event, k);
            && (r == Failure(GenerationMissing) <==> h.generation == Unnamed && h.chunks == 0)
            && (r == Failure(ChunkMissing) <==>
                  exists i :: 0 <= i < h.chunks && ChunkKey(Key(k.identity, h.id), h.generation, i) !in d.chunks)
            && (r.Failure? ==> r.error in {GenerationMissing, ChunkMissing})
  {
    var h := d.installations[k];
    ChunksAreReadIff(d, Key(k.identity, h.id), h.generation, h.chunks);
  }

  /** Nobody is entitled by documents that do not belong together. */
  lemma EntitledDocumentsAgree(d: Documents, identity: Name, installation: int, repository: int)
    requires Entitled(d, identity, installation, repository)
    ensures identity in d.identities && Key(identity, installation) in d.installations
    ensures var h := d.installations[Key(identity, installation)]; h.id == installation && h.status == Installed
  {
  }
}
