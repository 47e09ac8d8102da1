/**
 The store of GitHub installation bindings: each identity's installations with their repositories in
 chunks, the inverse indexes, and the lifecycle events that take entitlements away.

 The functions say what each atomic step does to the documents; the class performs the steps document
 by document, and each method is proved against its function.
 */
module Installations {
  import opened Wrappers
  import opened Transactions
  import opened Sorting
  import opened ConnectionState

  const MAX_IDENTITY_INSTALLATIONS := 40
  const MAX_INSTALLATION_IDENTITIES := 10
  const CHUNK_SIZE := 1000
  const MAX_REPOSITORIES := 10000

  datatype Repo = Repo(id: int, name: Name)

  /**
   A generation names one set of chunks. Hashes are replaced by what they are the hash of: the bound
   repositories and their verification time, or the generation before and the delivery that ended it.
   */
  datatype Generation = Unnamed | Bound(repositories: seq<Repo>, verifiedAt: int) | Reduced(before: Generation,
      delivery: Name)

  datatype Status = Installed | Suspended | Revoked
  datatype Header = Header(id: int, details: Name, status: Status, generation: Generation, chunks: int)
  datatype Identity = Identity(id: Name, user: int, login: Name, installations: seq<int>, verifiedAt: int)
  datatype Index = Index(installation: int, identities: seq<Name>)
  datatype UserIndex = UserIndex(user: int, identities: seq<Name>)

  datatype Key = Key(identity: Name, installation: int)
  datatype ChunkKey = ChunkKey(owner: Key, generation: Generation, number: int)

  datatype Action = InstallationSuspended | InstallationRevoked | RepositoriesRemoved | UserAccessRemoved
    | AuthorizationRevoked | RepositoryAccessRemoved

  datatype Event = Event(delivery: Name, action: Action, installation: int, user: int, repository: int,
      repositories: seq<int>) {
    predicate Valid() {
      delivery != BLANK &&
      match action
      case InstallationSuspended => installation > 0 && repositories == [] && repository == 0 && user == 0
      case InstallationRevoked => installation > 0 && repositories == [] && repository == 0 && user == 0
      case RepositoriesRemoved =>
        installation > 0 && repositories != [] && repository == 0 && user == 0
            && forall id | id in repositories :: id > 0
      case UserAccessRemoved => installation > 0 && user > 0 && repository == 0 && repositories == []
      case AuthorizationRevoked => installation == 0 && user > 0 && repository == 0 && repositories == []
      case RepositoryAccessRemoved => installation > 0 && user > 0 && repository > 0 && repositories == []
    }

    predicate ForOneUser() {
      action == AuthorizationRevoked || action == UserAccessRemoved || action == RepositoryAccessRemoved
    }

    predicate TakesRepositories() { action == RepositoriesRemoved || action == RepositoryAccessRemoved }

    function Removed(): seq<int> { if action == RepositoryAccessRemoved then [repository] else repositories }
  }

  /** wellFormed is the outcome of the checks on logins, accounts, links and names. */
  datatype Installation = Installation(id: int, details: Name, wellFormed: bool, status: Status,
      repositories: seq<Repo>) {
    predicate Valid() {
      && id > 0 && wellFormed && |repositories| <= MAX_REPOSITORIES
      && (forall r | r in repositories :: r.id > 0)
      && (forall i, j | 0 <= i < j < |repositories| :: repositories[i].id != repositories[j].id)
      && (forall i, j | 0 <= i < j < |repositories| :: NameLess(repositories[i].name, repositories[j].name))
    }
  }

  datatype Binding = Binding(identity: Name, user: int, login: Name, installation: Installation, verifiedAt: int) {
    predicate Valid() { user > 0 && login != BLANK && verifiedAt != UNSET && installation.Valid() }
    function Owner(): Key { Key(identity, installation.id) }
  }

  /** One field for each collection; hashed document IDs are replaced by what they are the hash of. */
  datatype Documents = Documents(
    states: map<Name, State>,
    identities: map<Name, Identity>,
    installations: map<Key, Header>,
    chunks: map<ChunkKey, seq<Repo>>,
    indexes: map<int, Index>,
    users: map<int, UserIndex>,
    receipts: map<Name, Event>)

  const EMPTY := Documents(map[], map[], map[], map[], map[], map[], map[])

  datatype Error = Unavailable | InvalidState | Unauthorized | InvalidIdentity | InvalidIndex | InvalidUserIndex
    | IdentityLimit | InstallationLimit | UserLimit | DeliveryReused | GenerationMissing | ChunkMissing

  // ----- Repositories in chunks -----

  function ChunkCount(n: nat): (count: nat) { (n + CHUNK_SIZE - 1) / CHUNK_SIZE }

  function Smaller(a: int, b: int): int { if a < b then a else b }

  /** The i-th slice of a list cut every thousand. */
  function ChunkOf(s: seq<Repo>, i: int): (c: seq<Repo>) {
    if 0 <= i && i * CHUNK_SIZE <= |s| then s[i * CHUNK_SIZE..Smaller((i + 1) * CHUNK_SIZE, |s|)] else []
  }

  function Chunks(s: seq<Repo>): (c: seq<seq<Repo>>)
    ensures |c| == ChunkCount(|s|) && forall i | 0 <= i < |c| :: c[i] == ChunkOf(s, i)
  {
    seq(ChunkCount(|s|), i => ChunkOf(s, i))
  }

  function Flatten(chunks: seq<seq<Repo>>): seq<Repo> {
    if chunks == [] then [] else Flatten(chunks[..|chunks| - 1]) + chunks[|chunks| - 1]
  }

  function Without(s: seq<Repo>, removed: seq<int>): seq<Repo> {
    if s == [] then []
    else
      var init := Without(s[..|s| - 1], removed);
      if s[|s| - 1].id in removed then init else init + [s[|s| - 1]]
  }

  lemma ChunkBounds(n: nat, i: nat)
    ensures i < ChunkCount(n) <==> i * CHUNK_SIZE < n
  {
  }

  /** Every chunk is full but the last, and none is empty. */
  lemma ChunkSizes(s: seq<Repo>, i: nat)
    requires i < ChunkCount(|s|)
    ensures 1 <= |ChunkOf(s, i)| <= CHUNK_SIZE
    ensures i + 1 < ChunkCount(|s|) ==> |ChunkOf(s, i)| == CHUNK_SIZE
  {
    ChunkBounds(|s|, i);
    ChunkBounds(|s|, i + 1);
  }

  lemma {:induction false} FlattenPrefix(s: seq<Repo>, n: nat)
    requires n <= ChunkCount(|s|)
    ensures Flatten(Chunks(s)[..n]) == s[..Smaller(n * CHUNK_SIZE, |s|)]
  {
    if n > 0 {
      FlattenPrefix(s, n - 1);
      ChunkBounds(|s|, n - 1);
      assert Chunks(s)[..n][..n - 1] == Chunks(s)[..n - 1];
    }
  }

  /** Cutting a list into chunks and putting them back together gives the list. */
  lemma ChunksKeepTheList(s: seq<Repo>)
    ensures Flatten(Chunks(s)) == s
  {
    FlattenPrefix(s, ChunkCount(|s|));
    ChunkBounds(|s|, ChunkCount(|s|));
    assert Chunks(s)[..|Chunks(s)|] == Chunks(s);
  }

  lemma {:induction false} WithoutHolds(s: seq<Repo>, removed: seq<int>)
    ensures forall r :: r in Without(s, removed) <==> r in s && r.id !in removed
  {
    if s != [] {
      WithoutHolds(s[..|s| - 1], removed);
      assert s == s[..|s| - 1] + [s[|s| - 1]];
    }
  }

  lemma WithoutAppends(s: seq<Repo>, r: Repo, removed: seq<int>)
    ensures Without(s + [r], removed) == if r.id in removed then Without(s, removed) else Without(s, removed) + [r]
  {
    assert (s + [r])[..|s|] == s;
  }

  /** The chunk documents once a list of chunks is written under a generation. */
  function WithChunks(m: map<ChunkKey, seq<Repo>>, owner: Key, g: Generation, cs: seq<seq<Repo>>)
    : map<ChunkKey, seq<Repo>>
  {
    if cs == [] then m
    else
      var n := |cs| - 1;
      WithChunks(m, owner, g, cs[..n])[ChunkKey(owner, g, n) := cs[n]]
  }

  lemma WithOneMore(m: map<ChunkKey, seq<Repo>>, owner: Key, g: Generation, cs: seq<seq<Repo>>, n: nat)
    requires n < |cs|
    ensures WithChunks(m, owner, g, cs[..n + 1]) == WithChunks(m, owner, g, cs[..n])[ChunkKey(owner, g, n) := cs[n]]
  {
    assert cs[..n + 1][..n] == cs[..n];
  }

  lemma {:induction false} WithChunksHolds(m: map<ChunkKey, seq<Repo>>, owner: Key, g: Generation, cs: seq<seq<Repo>>)
    ensures forall k :: k in WithChunks(m, owner, g, cs) <==>
              k in m || (k.owner == owner && k.generation == g && 0 <= k.number < |cs|)
    ensures forall k | k in WithChunks(m, owner, g, cs) ::
              WithChunks(m, owner, g, cs)[k] ==
              if k.owner == owner && k.generation == g && 0 <= k.number < |cs| then cs[k.number] else m[k]
  {
    if cs != [] {
      WithChunksHolds(m, owner, g, cs[..|cs| - 1]);
    }
  }

  // ----- Binding -----

  function IdentityAfter(d: Documents, b: Binding): Identity {
    var before := if b.identity in d.identities then d.identities[b.identity].installations else [];
    Identity(b.identity, b.user, b.login, WithMember(before, b.installation.id, IntLess), b.verifiedAt)
  }

  function IndexAfter(d: Documents, b: Binding): Index {
    var before := if b.installation.id in d.indexes then d.indexes[b.installation.id].identities else [];
    Index(b.installation.id, WithMember(before, b.identity, NameLess))
  }

  function UserIndexAfter(d: Documents, b: Binding): UserIndex {
    var before := if b.user in d.users then d.users[b.user].identities else [];
    UserIndex(b.user, WithMember(before, b.identity, NameLess))
  }

  function HeaderOf(b: Binding): Header {
    Header(b.installation.id, b.installation.details, b.installation.status,
           Bound(b.installation.repositories, b.verifiedAt), ChunkCount(|b.installation.repositories|))
  }

  predicate Holds(states: map<Name, State>, digest: Name, expected: State, now: int) {
    digest in states && states[digest] == expected && expected.expiresAt > now
  }

  /** The three lists a binding joins. */
  datatype Lists = Lists(identity: Identity, index: Index, user: UserIndex)

  function ListsAnswer(d: Documents, b: Binding): Result<Lists, Error> {
    if b.identity in d.identities && (d.identities[b.identity].id != b.identity || d.identities[b.identity].user <= 0) then
      Failure(InvalidIdentity)
    else if b.identity in d.identities && d.identities[b.identity].user != b.user then Failure(Unauthorized)
    else if |IdentityAfter(d, b).installations| > MAX_IDENTITY_INSTALLATIONS then Failure(IdentityLimit)
    else if b.installation.id in d.indexes && d.indexes[b.installation.id].installation != b.installation.id then
        Failure(InvalidIndex)
    else if |IndexAfter(d, b).identities| > MAX_INSTALLATION_IDENTITIES then Failure(InstallationLimit)
    else if b.user in d.users && d.users[b.user].user != b.user then Failure(InvalidUserIndex)
    else if |UserIndexAfter(d, b).identities| > MAX_INSTALLATION_IDENTITIES then Failure(UserLimit)
    else Success(Lists(IdentityAfter(d, b), IndexAfter(d, b), UserIndexAfter(d, b)))
  }

  /** Why a binding is refused; None when it is made. */
  function BindAnswer(d: Documents, digest: Name, expected: State, now: int, b: Binding): Option<Error> {
    if now == UNSET || !b.Valid() then Some(Unavailable)
    else if expected.identity != b.identity || expected.installation != b.installation.id then Some(Unavailable)
    else if !Holds(d.states, digest, expected, now) then Some(InvalidState)
    else
      match ListsAnswer(d, b)
      case Failure(e) => Some(e)
      case Success(_) => None
  }

  function BoundDocs(d: Documents, digest: Name, b: Binding, lists: Lists): Documents {
    d.(chunks := WithChunks(d.chunks, b.Owner(), HeaderOf(b).generation, Chunks(b.installation.repositories)),
       installations := d.installations[b.Owner() := HeaderOf(b)],
       identities := d.identities[b.identity := lists.identity],
       indexes := d.indexes[b.installation.id := lists.index],
       users := d.users[b.user := lists.user],
       states := d.states - {digest})
  }

  function BindDocs(d: Documents, digest: Name, expected: State, now: int, b: Binding): Documents {
    if BindAnswer(d, digest, expected, now, b).Some? then d
    else BoundDocs(d, digest, b, ListsAnswer(d, b).value)
  }

  // ----- Lifecycle events -----

  /** What a lifecycle event leaves of one binding. */
  datatype Update = Update(owner: Key, header: Header, chunks: seq<seq<Repo>>)

  /** The first n chunks under a generation, one read at a time. */
  function ReadChunks(d: Documents, owner: Key, g: Generation, n: int): Result<seq<seq<Repo>>, Error> {
    if n <= 0 then Success([])
    else
      var before := ReadChunks(d, owner, g, n - 1);
      if before.Failure? then before
      else if ChunkKey(owner, g, n - 1) !in d.chunks then Failure(ChunkMissing)
      else Success(before.value + [d.chunks[ChunkKey(owner, g, n - 1)]])
  }

  function UpdateOf(d: Documents, event: Event, owner: Key): Result<seq<Update>, Error> {
    if owner !in d.installations then Success([])
    else
      var h := d.installations[owner];
      if event.action == InstallationSuspended then Success([Update(owner, h.(status := Suspended), [])])
      else if !event.TakesRepositories() then Success([Update(owner, h.(status := Revoked), [])])
      else if h.generation == Unnamed && h.chunks == 0 then Failure(GenerationMissing)
      else
        match ReadChunks(d, Key(owner.identity, h.id), h.generation, h.chunks)
        case Failure(e) => Failure(e)
        case Success(chunks) =>
          var left := Chunks(Without(Flatten(chunks), event.Removed()));
          Success([Update(owner, h.(generation := Reduced(h.generation, event.delivery), chunks := |left|), left)])
  }

  function Joined(a: Result<seq<Update>, Error>, b: Result<seq<Update>, Error>): Result<seq<Update>, Error> {
    if a.Failure? then a else if b.Failure? then b else Success(a.value + b.value)
  }

  function UpdatesOfInstallations(d: Documents, event: Event, identity: Name, ids: seq<int>): Result<seq<Update>,
      Error> {
    if ids == [] then Success([])
    else
      var n := |ids| - 1;
      Joined(UpdatesOfInstallations(d, event, identity, ids[..n]), UpdateOf(d, event, Key(identity, ids[n])))
  }

  function UpdatesOfIdentity(d: Documents, event: Event, identity: Name): Result<seq<Update>, Error> {
    if identity !in d.identities || d.identities[identity].id != identity then Failure(InvalidIdentity)
    else if event.ForOneUser() && d.identities[identity].user != event.user then Success([])
    else
      UpdatesOfInstallations(d, event, identity,
        if event.action == AuthorizationRevoked then d.identities[identity].installations else [event.installation])
  }

  function UpdatesOf(d: Documents, event: Event, identities: seq<Name>): Result<seq<Update>, Error> {
    if identities == [] then Success([])
    else
      var n := |identities| - 1;
      Joined(UpdatesOf(d, event, identities[..n]), UpdatesOfIdentity(d, event, identities[n]))
  }

  /** The identities whose bindings an event may concern, by user or by installation. */
  function Reached(d: Documents, event: Event): Result<seq<Name>, Error> {
    if event.action == AuthorizationRevoked then
      if event.user !in d.users then Success([])
      else if d.users[event.user].user != event.user then Failure(InvalidUserIndex)
      else Success(d.users[event.user].identities)
    else if event.installation !in d.indexes then Success([])
    else if d.indexes[event.installation].installation != event.installation then Failure(InvalidIndex)
    else Success(d.indexes[event.installation].identities)
  }

  function Updates(d: Documents, event: Event): Result<seq<Update>, Error> {
    match Reached(d, event)
    case Failure(e) => Failure(e)
    case Success(identities) => UpdatesOf(d, event, identities)
  }

  function WithUpdate(d: Documents, u: Update): Documents {
    d.(chunks := WithChunks(d.chunks, Key(u.owner.identity, u.header.id), u.header.generation, u.chunks),
       installations := d.installations[u.owner := u.header])
  }

  function WithUpdates(d: Documents, updates: seq<Update>): Documents {
    if updates == [] then d
    else
      var n := |updates| - 1;
      WithUpdate(WithUpdates(d, updates[..n]), updates[n])
  }

  function LifecycleAnswer(d: Documents, event: Event): Option<Error> {
    if !event.Valid() then Some(Unavailable)
    else if event.delivery in d.receipts then
      if d.receipts[event.delivery] != event then Some(DeliveryReused) else None
    else
      match Updates(d, event)
      case Failure(e) => Some(e)
      case Success(_) => None
  }

  function LifecycleDocs(d: Documents, event: Event): Documents {
    if LifecycleAnswer(d, event).Some? || event.delivery in d.receipts then d
    else
      var after := WithUpdates(d, Updates(d, event).value);
      after.(receipts := after.receipts[event.delivery := event])
  }

  // ----- Entitlement -----

  /** An identity document the readers accept. */
  predicate Presentable(stored: Identity, id: Name) {
    stored.id == id && stored.user > 0 && stored.login != BLANK && stored.verifiedAt != UNSET
  }

  predicate HasId(repositories: seq<Repo>, id: int) {
    exists r | r in repositories :: r.id == id
  }

  /** Some document under the installation's current generation holds the repository. */
  ghost predicate Entitled(d: Documents, identity: Name, installation: int, repository: int) {
    var owner := Key(identity, installation);
    && identity in d.identities && owner in d.installations
    && d.installations[owner].id == installation && d.installations[owner].status == Installed
    && exists k | k in d.chunks :: k.owner == owner && k.generation == d.installations[owner].generation
        && HasId(d.chunks[k], repository)
  }

  // ----- The store -----

  class InstallationBindingStore {
    var docs: Documents

    constructor ()
      ensures docs == EMPTY
    {
      docs := EMPTY;
    }

    method CompleteIdentityInstallationBinding(digest: Name, expected: State, now: int, b: Binding)
        returns (e: Option<Error>)
      modifies this
      ensures e == BindAnswer(old(docs), digest, expected, now, b)
      ensures docs == BindDocs(old(docs), digest, expected, now, b)
    {
      if now == UNSET || !b.Valid() || expected.identity != b.identity || expected.installation != b.installation.id {
        return Some(Unavailable);
      }
      var tx := new Transaction(docs);
      var stored := tx.Get((d: Documents) => Lookup(d.states, digest));
      if stored.None? || stored.value != expected || stored.value.expiresAt <= now { return Some(InvalidState); }

      var lists := ReadLists(tx, b);
      if lists.Failure? { return Some(lists.error); }
      WriteBinding(tx, digest, b, lists.value);
      docs := tx.view;
      e := None;
    }

    /** The identity, the installation index and the user index, each with the new member in its place. */
    static method ReadLists(tx: Transaction<Documents>, b: Binding) returns (r: Result<Lists, Error>)
      requires !tx.written
      ensures r == ListsAnswer(tx.view, b)
    {
      var found := tx.Get((d: Documents) => Lookup(d.identities, b.identity));
      if found.Some? && (found.value.id != b.identity || found.value.user <= 0) { return Failure(InvalidIdentity); }
      if found.Some? && found.value.user != b.user { return Failure(Unauthorized); }
      var ids := if found.Some? then found.value.installations else [];
      if b.installation.id !in ids { ids := Insert(ids, b.installation.id, IntLess); }
      if |ids| > MAX_IDENTITY_INSTALLATIONS { return Failure(IdentityLimit); }

      var index := tx.Get((d: Documents) => Lookup(d.indexes, b.installation.id));
      if index.Some? && index.value.installation != b.installation.id { return Failure(InvalidIndex); }
      var members := if index.Some? then index.value.identities else [];
      if b.identity !in members { members := Insert(members, b.identity, NameLess); }
      if |members| > MAX_INSTALLATION_IDENTITIES { return Failure(InstallationLimit); }
      var user := tx.Get((d: Documents) => Lookup(d.users, b.user));
      if user.Some? && user.value.user != b.user { return Failure(InvalidUserIndex); }
      var same := if user.Some? then user.value.identities else [];
      if b.identity !in same { same := Insert(same, b.identity, NameLess); }
      if |same| > MAX_INSTALLATION_IDENTITIES { return Failure(UserLimit); }
      r := Success(Lists(Identity(b.identity, b.user, b.login, ids, b.verifiedAt), Index(b.installation.id, members),
          UserIndex(b.user, same)));
    }

    static method WriteBinding(tx: Transaction<Documents>, digest: Name, b: Binding, lists: Lists)
      modifies tx
      ensures tx.view == BoundDocs(old(tx.view), digest, b, lists)
    {
      WriteRepositories(tx, b.Owner(), HeaderOf(b).generation, b.installation.repositories);
      tx.Put((d: Documents) => d.(installations := d.installations[b.Owner() := HeaderOf(b)]));
      tx.Put((d: Documents) => d.(identities := d.identities[b.identity := lists.identity]));
      tx.Put((d: Documents) => d.(indexes := d.indexes[b.installation.id := lists.index]));
      tx.Put((d: Documents) => d.(users := d.users[b.user := lists.user]));
      tx.Put((d: Documents) => d.(states := d.states - {digest}));
    }

    /** Cut the repositories every thousand and write each piece as it is cut. */
    static method WriteRepositories(tx: Transaction<Documents>, owner: Key, g: Generation, repositories: seq<Repo>)
      modifies tx
      ensures tx.view == old(tx.view).(chunks := WithChunks(old(tx.view).chunks, owner, g, Chunks(repositories)))
    {
      ghost var was, all := tx.view, Chunks(repositories);
      var offset := 0;
      ghost var n := 0;
      while offset < |repositories|
        invariant 0 <= n <= |all| && offset == n * CHUNK_SIZE
        invariant offset >= |repositories| ==> n == |all|
        invariant tx.view == was.(chunks := WithChunks(was.chunks, owner, g, all[..n]))
      {
        var number := offset / CHUNK_SIZE;
        assert number == n;
        var end := Smaller(offset + CHUNK_SIZE, |repositories|);
        var chunk := repositories[offset..end];
        ChunkBounds(|repositories|, n);
        ChunkBounds(|repositories|, n + 1);
        assert all[n] == chunk;
        WithOneMore(was.chunks, owner, g, all, n);
        tx.Put((d: Documents) => d.(chunks := d.chunks[ChunkKey(owner, g, number) := chunk]));
        offset, n := offset + CHUNK_SIZE, n + 1;
      }
      assert all[..|all|] == all;
    }

    static method ReadRepositoryChunks(tx: Transaction<Documents>, owner: Key, header: Header)
        returns (r: Result<seq<seq<Repo>>, Error>)
      requires !tx.written
      ensures r == ReadChunks(tx.view, Key(owner.identity, header.id), header.generation, header.chunks)
    {
      var collection := Key(owner.identity, header.id);
      var chunks, i := [], 0;
      while i < header.chunks
        invariant 0 <= i && (i <= header.chunks || i == 0)
        invariant ReadChunks(tx.view, collection, header.generation, i) == Success(chunks)
      {
        var chunk := tx.Get((d: Documents) => Lookup(d.chunks, ChunkKey(collection, header.generation, i)));
        if chunk.None? {
          MissingStays(tx.view, collection, header.generation, i + 1, header.chunks);
          return Failure(ChunkMissing);
        }
        chunks, i := chunks + [chunk.value], i + 1;
      }
      r := Success(chunks);
    }

    static method RemoveRepositories(chunks: seq<seq<Repo>>, removed: seq<int>) returns (left: seq<Repo>)
      ensures left == Without(Flatten(chunks), removed)
    {
      var ids := set id | id in removed;
      left := [];
      for i := 0 to |chunks|
        invariant left == Without(Flatten(chunks[..i]), removed)
      {
        var chunk := chunks[i];
        ghost var before := Flatten(chunks[..i]);
        assert before + chunk[..0] == before;
        for j := 0 to |chunk|
          invariant left == Without(before + chunk[..j], removed)
        {
          assert before + chunk[..j + 1] == before + chunk[..j] + [chunk[j]];
          WithoutAppends(before + chunk[..j], chunk[j], removed);
          if chunk[j].id !in ids { left := left + [chunk[j]]; }
        }
        assert chunk[..|chunk|] == chunk && chunks[..i + 1][..i] == chunks[..i];
      }
      assert chunks[..|chunks|] == chunks;
    }

    static method ChunkRepositories(repositories: seq<Repo>) returns (chunks: seq<seq<Repo>>)
      ensures chunks == Chunks(repositories)
    {
      chunks := [];
      var offset := 0;
      while offset < |repositories|
        invariant offset == |chunks| * CHUNK_SIZE && |chunks| <= ChunkCount(|repositories|)
        invariant offset >= |repositories| ==> |chunks| == ChunkCount(|repositories|)
        invariant forall i | 0 <= i < |chunks| :: chunks[i] == ChunkOf(repositories, i)
      {
        var end := Smaller(offset + CHUNK_SIZE, |repositories|);
        ChunkBounds(|repositories|, |chunks|);
        ChunkBounds(|repositories|, |chunks| + 1);
        chunks := chunks + [repositories[offset..end]];
        offset := offset + CHUNK_SIZE;
      }
    }

    method ApplyInstallationLifecycle(event: Event) returns (e: Option<Error>)
      modifies this
      ensures e == LifecycleAnswer(old(docs), event)
      ensures docs == LifecycleDocs(old(docs), event)
    {
      if !event.Valid() { return Some(Unavailable); }
      var tx := new Transaction(docs);
      var recorded := tx.Get((d: Documents) => Lookup(d.receipts, event.delivery));
      if recorded.Some? {
        if recorded.value != event { return Some(DeliveryReused); }
        return None;
      }
      var identities := [];
      if event.action == AuthorizationRevoked {
        var index := tx.Get((d: Documents) => Lookup(d.users, event.user));
        if index.Some? && index.value.user != event.user { return Some(InvalidUserIndex); }
        identities := if index.Some? then index.value.identities else [];
      } else {
        var index := tx.Get((d: Documents) => Lookup(d.indexes, event.installation));
        if index.Some? && index.value.installation != event.installation { return Some(InvalidIndex); }
        identities := if index.Some? then index.value.identities else [];
      }
      var updates := GatherAll(tx, event, identities);
      if updates.Failure? { return Some(updates.error); }
      WriteUpdates(tx, updates.value);
      tx.Put((d: Documents) => d.(receipts := d.receipts[event.delivery := event]));
      docs := tx.view;
      e := None;
    }

    /** Everything is read, and every update worked out, before the first write. */
    static method GatherAll(tx: Transaction<Documents>, event: Event, identities: seq<Name>)
        returns (r: Result<seq<Update>, Error>)
      requires !tx.written
      ensures r == UpdatesOf(tx.view, event, identities)
    {
      var updates := [];
      for n := 0 to |identities|
        invariant UpdatesOf(tx.view, event, identities[..n]) == Success(updates)
      {
        assert identities[..n + 1][..n] == identities[..n];
        var more := GatherIdentity(tx, event, identities[n]);
        if more.Failure? {
          UpdatesFailAtOnce(tx.view, event, identities, n + 1);
          return more;
        }
        updates := updates + more.value;
      }
      assert identities[..|identities|] == identities;
      r := Success(updates);
    }

    static method GatherIdentity(tx: Transaction<Documents>, event: Event, identity: Name)
        returns (r: Result<seq<Update>, Error>)
      requires !tx.written
      ensures r == UpdatesOfIdentity(tx.view, event, identity)
    {
      var found := tx.Get((d: Documents) => Lookup(d.identities, identity));
      if found.None? || found.value.id != identity { return Failure(InvalidIdentity); }
      if event.ForOneUser() && found.value.user != event.user { return Success([]); }
      var ids := if event.action == AuthorizationRevoked then found.value.installations else [event.installation];
      var updates := [];
      for n := 0 to |ids|
        invariant UpdatesOfInstallations(tx.view, event, identity, ids[..n]) == Success(updates)
      {
        assert ids[..n + 1][..n] == ids[..n];
        var more := GatherInstallation(tx, event, Key(identity, ids[n]));
        if more.Failure? {
          InstallationsFailAtOnce(tx.view, event, identity, ids, n + 1);
          assert ids[..|ids|] == ids;
          return more;
        }
        updates := updates + more.value;
      }
      assert ids[..|ids|] == ids;
      r := Success(updates);
    }

    static method GatherInstallation(tx: Transaction<Documents>, event: Event, owner: Key)
        returns (r: Result<seq<Update>, Error>)
      requires !tx.written
      ensures r == UpdateOf(tx.view, event, owner)
    {
      var found := tx.Get((d: Documents) => Lookup(d.installations, owner));
      if found.None? { return Success([]); }
      var header := found.value;
      match event.action
      case InstallationSuspended => r := Success([Update(owner, header.(status := Suspended), [])]);
      case InstallationRevoked => r := Success([Update(owner, header.(status := Revoked), [])]);
      case UserAccessRemoved => r := Success([Update(owner, header.(status := Revoked), [])]);
      case AuthorizationRevoked => r := Success([Update(owner, header.(status := Revoked), [])]);
      case _ =>
        if header.generation == Unnamed && header.chunks == 0 { return Failure(GenerationMissing); }
        var read := ReadRepositoryChunks(tx, owner, header);
        if read.Failure? { return Failure(read.error); }
        var left := RemoveRepositories(read.value, event.Removed());
        var chunks := ChunkRepositories(left);
        var after := header.(generation := Reduced(header.generation, event.delivery), chunks := |chunks|);
        r := Success([Update(owner, after, chunks)]);
    }

    static method WriteUpdates(tx: Transaction<Documents>, updates: seq<Update>)
      modifies tx
      ensures tx.view == WithUpdates(old(tx.view), updates)
    {
      ghost var was := tx.view;
      for n := 0 to |updates|
        invariant tx.view == WithUpdates(was, updates[..n])
      {
        assert updates[..n + 1][..n] == updates[..n];
        var u := updates[n];
        WriteChunks(tx, Key(u.owner.identity, u.header.id), u.header.generation, u.chunks);
        tx.Put((d: Documents) => d.(installations := d.installations[u.owner := u.header]));
      }
      assert updates[..|updates|] == updates;
    }

    static method WriteChunks(tx: Transaction<Documents>, owner: Key, g: Generation, chunks: seq<seq<Repo>>)
      modifies tx
      ensures tx.view == old(tx.view).(chunks := WithChunks(old(tx.view).chunks, owner, g, chunks))
    {
      ghost var was := tx.view;
      for i := 0 to |chunks|
        invariant tx.view == was.(chunks := WithChunks(was.chunks, owner, g, chunks[..i]))
      {
        assert chunks[..i + 1][..i] == chunks[..i];
        tx.Put((d: Documents) => d.(chunks := d.chunks[ChunkKey(owner, g, i) := chunks[i]]));
      }
      assert chunks[..|chunks|] == chunks;
    }

    /** An unordered scan of the chunk documents under one generation. */
    method QueryChunks(owner: Key, g: Generation) returns (found: seq<seq<Repo>>)
      ensures forall c :: c in found <==>
          exists k | k in docs.chunks :: k.owner == owner && k.generation == g && docs.chunks[k] == c
    {
      var left := set k | k in docs.chunks && k.owner == owner && k.generation == g;
      ghost var all := left;
      found := [];
      while left != {}
        invariant left <= all
        invariant forall c :: c in found <==> exists k | k in all - left :: docs.chunks[k] == c
      {
        var k :| k in left;
        found := found + [docs.chunks[k]];
        left := left - {k};
      }
    }

    method IdentityHasRepositoryEntitlement(identity: Name, installation: int, repository: int)
        returns (r: Result<bool, Error>)
      ensures installation <= 0 || repository <= 0 ==> r == Failure(Unavailable)
      ensures installation > 0 && repository > 0 ==>
                if identity in docs.identities && !Presentable(docs.identities[identity], identity)
                then r == Failure(InvalidIdentity)
                else r.Success? && (r.value <==> Entitled(docs, identity, installation, repository))
    {
      if installation <= 0 || repository <= 0 { return Failure(Unavailable); }
      var current := Lookup(docs.identities, identity);
      if current.None? { return Success(false); }
      if !Presentable(current.value, identity) { return Failure(InvalidIdentity); }
      var owner := Key(identity, installation);
      var header := Lookup(docs.installations, owner);
      if header.None? || header.value.id != installation || header.value.status != Installed { return Success(false); }
      var chunks := QueryChunks(owner, header.value.generation);
      for i := 0 to |chunks|
        invariant forall c | c in chunks[..i] :: !HasId(c, repository)
      {
        for j := 0 to |chunks[i]|
          invariant !HasId(chunks[i][..j], repository)
        {
          if chunks[i][j].id == repository {
            assert chunks[i][j] in chunks[i] && chunks[i] in chunks;
            return Success(true);
          }
        }
        assert chunks[i][..|chunks[i]|] == chunks[i];
      }
      assert chunks[..|chunks|] == chunks;
      r := Success(false);
    }
  }

  // ----- Proofs about the loops -----

  lemma {:induction false} MissingStays(d: Documents, owner: Key, g: Generation, i: int, n: int)
    requires 0 <= i <= n && ReadChunks(d, owner, g, i) == Failure(ChunkMissing)
    ensures ReadChunks(d, owner, g, n) == Failure(ChunkMissing)
    decreases n - i
  {
    if i < n {
      MissingStays(d, owner, g, i + 1, n);
    }
  }

  lemma {:induction false} InstallationsFailAtOnce(d: Documents, event: Event, identity: Name, ids: seq<int>, n: nat)
    requires n <= |ids| && UpdatesOfInstallations(d, event, identity, ids[..n]).Failure?
    ensures UpdatesOfInstallations(d, event, identity, ids) == UpdatesOfInstallations(d, event, identity, ids[..n])
  {
    if n < |ids| {
      assert ids[..|ids| - 1][..n] == ids[..n];
      InstallationsFailAtOnce(d, event, identity, ids[..|ids| - 1], n);
    } else {
      assert ids[..n] == ids;
    }
  }

  lemma {:induction false} UpdatesFailAtOnce(d: Documents, event: Event, identities: seq<Name>, n: nat)
    requires n <= |identities| && UpdatesOf(d, event, identities[..n]).Failure?
    ensures UpdatesOf(d, event, identities) == UpdatesOf(d, event, identities[..n])
  {
    if n < |identities| {
      assert identities[..|identities| - 1][..n] == identities[..n];
      UpdatesFailAtOnce(d, event, identities[..|identities| - 1], n);
    } else {
      assert identities[..n] == identities;
    }
  }
}
