/**
 Machine credentials and peers: enrolling a machine, inviting a peer, rotating either one's token, and
 blocking and unblocking, over four collections of documents.

 A token's document ID is a digest of the token under a fixed pepper; the token itself stands for it.
 */
module Credentials {
  import opened Wrappers
  import opened Text
  import opened Transactions

  const UNSET := 0
  const RESERVED := Name("connect")

  /** A machine's ID is a digest of its identity and name, and stands as the two of them. */
  datatype MachineId = MachineId(identity: Name, name: Name)

  datatype Scopes = Enrollment | Peer | Other

  datatype Binding = Binding(machine: MachineId, name: Name, identity: Name, displayName: Name, issuedAt: int,
      scopes: Scopes) {
    predicate Complete() { !IsBlank(name) && !IsBlank(identity) && issuedAt != UNSET }
    predicate Valid() { Complete() && scopes != Other }
  }

  datatype Enrolled = Enrolled(binding: Binding, token: Name)

  datatype Trust = Active | Blocked
  datatype PeerRecord = PeerRecord(machine: MachineId, name: Name, identity: Name, node: Name, trust: Trust,
                                   createdAt: int, trustChangedAt: int, resetPending: bool) {
    predicate Valid() { name != BLANK && identity != BLANK && createdAt != UNSET }
  }

  datatype Stats = Stats(machine: MachineId, counters: int)

  datatype Documents = Documents(
    enrollments: map<MachineId, Enrolled>,
    credentials: map<Name, Binding>,
    trust: map<MachineId, PeerRecord>,
    stats: map<MachineId, Stats>)

  const EMPTY := Documents(map[], map[], map[], map[])

  /** configured covers the pepper and the wired stores; memory is the engine that forgets on exit. */
  datatype Settings = Settings(local: Name, hub: Name, configured: bool, memory: bool)

  datatype Error = Unavailable | Unauthorized | InvalidName | AlreadyPeer | HeldByMachine | WouldShadowPeer
    | DigestExists
    | PeerNotFound | InvalidPeer

  // ----- Enrolling -----

  /** The document ID's pre-image. */
  function IdText(m: MachineId): string { m.identity.text + "\0" + m.name.text }

  function WithCredential(d: Documents, b: Binding, token: Name): Documents {
    var previous := if b.machine in d.enrollments then d.enrollments[b.machine].token else BLANK;
    d.(credentials := (if previous != BLANK && previous != token then d.credentials - {previous}
        else d.credentials)[token := b],
       enrollments := d.enrollments[b.machine := Enrolled(b, token)])
  }

  function RotateAnswer(d: Documents, b: Binding, token: Name): Result<Binding, Error> {
    var stored := b.(machine := MachineId(b.identity, b.name));
    if !b.Complete() then Failure(Unavailable)
    else if stored.machine in d.trust then Failure(WouldShadowPeer)
    else if token in d.credentials then Failure(DigestExists)
    else Success(stored)
  }

  function RotateDocs(d: Documents, b: Binding, token: Name): Documents {
    match RotateAnswer(d, b, token)
    case Failure(_) => d
    case Success(stored) => WithCredential(d, stored, token)
  }

  function EnrollmentBinding(viewer: Name, displayName: Name, name: Name, now: int): Binding {
    Binding(MachineId(viewer, name), name, viewer, displayName, now, Enrollment)
  }

  /**
   What enrolling answers: the token drawn, or the first thing against it; the store's own reasons are not
   passed on.
   */
  function EnrollAnswer(d: Documents, b: Binding, nameOk: bool, configured: bool, drawn: Option<Name>): Result<Name,
      Error> {
    if IsBlank(b.identity) then Failure(Unauthorized)
    else if !nameOk then Failure(InvalidName)
    else if !configured || drawn.None? || RotateAnswer(d, b, drawn.value).Failure? then Failure(Unavailable)
    else Success(drawn.value)
  }

  // ----- Inviting -----

  function PeerBinding(local: Name, name: Name, now: int): Binding {
    Binding(MachineId(local, name), name, local, BLANK, now, Peer)
  }

  function InviteAnswer(d: Documents, m: MachineId, rotate: bool, token: Name): Option<Error> {
    if m in d.trust && !rotate then Some(AlreadyPeer)
    else if m !in d.trust && m in d.enrollments then Some(HeldByMachine)
    else if token in d.credentials then Some(Unavailable)
    else None
  }

  /** A new peer is trusted; a rotated one keeps its trust, forgets its node and starts over. */
  function Admitted(d: Documents, m: MachineId, now: int): PeerRecord {
    if m in d.trust then d.trust[m].(node := BLANK, resetPending := true)
    else PeerRecord(m, m.name, m.identity, BLANK, Active, now, now, false)
  }

  function InviteDocs(d: Documents, m: MachineId, rotate: bool, token: Name, now: int): Documents {
    if InviteAnswer(d, m, rotate, token).Some? then d
    else
      WithCredential(d, PeerBinding(m.identity, m.name, now), token)
        .(trust := d.trust[m := Admitted(d, m, now)],
          stats := if m in d.trust || m in d.stats then d.stats else d.stats[m := Stats(m, 0)])
  }

  /** What inviting answers: the token drawn, or the first thing against it. */
  function InviteReply(d: Documents, m: MachineId, nameOk: bool, rotate: bool, settings: Settings, drawn: Option<Name>):
      Result<Name, Error>
  {
    if m.name == BLANK || !nameOk || SameFold(m.name, RESERVED) then Failure(InvalidName)
    else if settings.memory || !settings.configured then Failure(Unavailable)
    else if SameFold(m.name, settings.hub) then Failure(InvalidName)
    else if m in d.trust && !d.trust[m].Valid() then Failure(InvalidPeer)
    else if m in d.trust && !rotate then Failure(AlreadyPeer)
    else if drawn.None? then Failure(Unavailable)
    else if InviteAnswer(d, m, rotate, drawn.value).Some? then Failure(InviteAnswer(d, m, rotate, drawn.value).value)
    else Success(drawn.value)
  }

  // ----- Blocking -----

  function UpdateAnswer(d: Documents, m: MachineId, next: PeerRecord): Option<Error> {
    if m !in d.trust then Some(PeerNotFound)
    else if !next.Valid() || next.machine != m then Some(InvalidPeer)
    else None
  }

  function UpdateDocs(d: Documents, m: MachineId, next: PeerRecord): Documents {
    if UpdateAnswer(d, m, next).Some? then d else d.(trust := d.trust[m := next])
  }

  function BlockedRecord(r: PeerRecord, now: int): PeerRecord { r.(trust := Blocked, trustChangedAt := now) }
  function UnblockedRecord(r: PeerRecord, now: int): PeerRecord { r.(trust := Active, trustChangedAt := now,
      resetPending := true) }

  /** Blocking is the mutation of the record as the transaction finds it. */
  function ChangeDocs(d: Documents, m: MachineId, block: bool, now: int): Documents {
    if m !in d.trust then d
    else UpdateDocs(d, m, if block then BlockedRecord(d.trust[m], now) else UnblockedRecord(d.trust[m], now))
  }

  /** Which machine a text stands for: an ID's own, or that of some peer of the name. */
  ghost predicate Denotes(d: Documents, asId: Option<MachineId>, name: Name, m: MachineId) {
    if asId.Some? && asId.value in d.trust then m == d.trust[asId.value].machine
    else exists k | k in d.trust :: d.trust[k].name == name && d.trust[k].machine == m
  }

  /** Why a text stands for none. */
  ghost function PeerError(d: Documents, asId: Option<MachineId>, name: Name): Option<Error> {
    if name == BLANK then Some(InvalidName)
    else if asId.Some? && asId.value in d.trust then (if d.trust[asId.value].Valid() then None else Some(InvalidPeer))
    else if exists k | k in d.trust :: !d.trust[k].Valid() then Some(InvalidPeer)
    else if exists k | k in d.trust :: d.trust[k].name == name then None
    else Some(PeerNotFound)
  }

  /** Every trust document is valid and under its own machine's ID. */
  predicate TrustIsKeyed(d: Documents) {
    forall k | k in d.trust :: d.trust[k].Valid() && d.trust[k].machine == k
  }

  // ----- Resolving a token -----

  predicate WellFormedToken(token: Name) {
    1 <= |token.text| <= 1024 && forall c | c in token.text :: c != ' ' && c != '\t' && c != '\r' && c != '\n'
  }

  /** What one token resolves to when the credential is read in d and the peer in later. */
  function ResolveAcross(d: Documents, later: Documents, token: Name): Option<Binding> {
    if !WellFormedToken(token) || token !in d.credentials || !d.credentials[token].Valid() then None
    else
      var b := d.credentials[token];
      if b.machine !in later.trust then (if b.scopes == Peer then None else Some(b))
      else if !later.trust[b.machine].Valid() || later.trust[b.machine].trust == Blocked then None
      else Some(b)
  }

  function Resolve(d: Documents, token: Name): Option<Binding> { ResolveAcross(d, d, token) }

  class CredentialStores {
    var docs: Documents

    constructor ()
      ensures docs == EMPTY
    {
      docs := EMPTY;
    }

    method RotateMachineCredential(b: Binding, token: Name) returns (r: Result<Binding, Error>)
      modifies this
      ensures r == RotateAnswer(old(docs), b, token)
      ensures docs == RotateDocs(old(docs), b, token)
    {
      if !b.Complete() { return Failure(Unavailable); }
      var stored := b.(machine := MachineId(b.identity, b.name));
      var tx := new Transaction(docs);
      var current := tx.Get((d: Documents) => Lookup(d.enrollments, stored.machine));
      var trust := tx.Get((d: Documents) => Lookup(d.trust, stored.machine));
      if trust.Some? { return Failure(WouldShadowPeer); }
      var collision := tx.Get((d: Documents) => Lookup(d.credentials, token));
      if collision.Some? { return Failure(DigestExists); }
      WriteCredential(tx, current, stored, token);
      docs := tx.view;
      r := Success(stored);
    }

    /** The previous token's document goes before the new one's is written. */
    static method WriteCredential(tx: Transaction<Documents>, current: Option<Enrolled>, b: Binding, token: Name)
      requires current == Lookup(tx.view.enrollments, b.machine)
      modifies tx
      ensures tx.view == WithCredential(old(tx.view), b, token)
    {
      if current.Some? && current.value.token != BLANK && current.value.token != token {
        tx.Put((d: Documents) => d.(credentials := d.credentials - {current.value.token}));
      }
      tx.Put((d: Documents) => d.(credentials := d.credentials[token := b]));
      tx.Put((d: Documents) => d.(enrollments := d.enrollments[b.machine := Enrolled(b, token)]));
    }

    /** nameOk is the outcome of the identifier's form check; drawn is the token, unless the random source failed. */
    method Enroll(viewer: Name, displayName: Name, name: Name, nameOk: bool, settings: Settings, drawn: Option<Name>,
        now: int)
      returns (r: Result<Name, Error>)
      modifies this
      ensures var b := EnrollmentBinding(viewer, displayName, name, now);
              && r == EnrollAnswer(old(docs), b, nameOk, settings.configured, drawn)
              && docs == if r.Success? then RotateDocs(old(docs), b, r.value) else old(docs)
    {
      if IsBlank(viewer) { return Failure(Unauthorized); }
      if !nameOk { return Failure(InvalidName); }
      if !settings.configured || drawn.None? { return Failure(Unavailable); }
      var b := EnrollmentBinding(viewer, displayName, name, now);
      var stored := RotateMachineCredential(b, drawn.value);
      if stored.Failure? || !stored.value.Valid() || stored.value.identity != b.identity
         || stored.value.name != b.name || stored.value.issuedAt != b.issuedAt {
        return Failure(Unavailable);
      }
      r := Success(drawn.value);
    }

    method GetPeer(m: MachineId) returns (r: Result<Option<PeerRecord>, Error>)
      ensures r == if m in docs.trust && !docs.trust[m].Valid() then Failure(InvalidPeer)
          else Success(Lookup(docs.trust, m))
    {
      var found := Lookup(docs.trust, m);
      if found.Some? && !found.value.Valid() { return Failure(InvalidPeer); }
      r := Success(found);
    }

    method Invite(given: Name, nameOk: bool, rotate: bool, settings: Settings, drawn: Option<Name>, now: int)
        returns (r: Result<Name, Error>)
      modifies this
      ensures var m := MachineId(settings.local, Trim(given));
              && r == InviteReply(old(docs), m, nameOk, rotate, settings, drawn)
              && docs == if r.Success? then InviteDocs(old(docs), m, rotate, r.value, now) else old(docs)
    {
      var name := Trim(given);
      if name == BLANK || !nameOk || SameFold(name, RESERVED) { return Failure(InvalidName); }
      if settings.memory || !settings.configured { return Failure(Unavailable); }
      if SameFold(name, settings.hub) { return Failure(InvalidName); }
      var m := MachineId(settings.local, name);
      var known := GetPeer(m);
      if known.Failure? { return Failure(known.error); }
      if known.value.Some? && !rotate { return Failure(AlreadyPeer); }
      if drawn.None? { return Failure(Unavailable); }
      var e := Admit(m, rotate, drawn.value, now);
      if e.Some? { return Failure(e.value); }
      r := Success(drawn.value);
    }

    /** The transaction of an invitation: everything it reads comes before its first write. */
    method Admit(m: MachineId, rotate: bool, token: Name, now: int) returns (e: Option<Error>)
      modifies this
      ensures e == InviteAnswer(old(docs), m, rotate, token)
      ensures docs == InviteDocs(old(docs), m, rotate, token, now)
    {
      var tx := new Transaction(docs);
      var enrollment := tx.Get((d: Documents) => Lookup(d.enrollments, m));
      var trust := tx.Get((d: Documents) => Lookup(d.trust, m));
      if trust.Some? && !rotate { return Some(AlreadyPeer); }
      if trust.None? && enrollment.Some? { return Some(HeldByMachine); }
      var collision := tx.Get((d: Documents) => Lookup(d.credentials, token));
      if collision.Some? { return Some(Unavailable); }
      var stats := None;
      if trust.None? { stats := tx.Get((d: Documents) => Lookup(d.stats, m)); }
      WriteCredential(tx, enrollment, PeerBinding(m.identity, m.name, now), token);
      if trust.Some? {
        var record := trust.value.(node := BLANK, resetPending := true);
        tx.Put((d: Documents) => d.(trust := d.trust[m := record]));
      } else {
        var record := PeerRecord(m, m.name, m.identity, BLANK, Active, now, now, false);
        tx.Put((d: Documents) => d.(trust := d.trust[m := record]));
        if stats.None? { tx.Put((d: Documents) => d.(stats := d.stats[m := Stats(m, 0)])); }
      }
      docs := tx.view;
      e := None;
    }

    /** The first record of that name, in whatever order the engine lists them. */
    method FindPeerByName(name: Name) returns (r: Result<Option<PeerRecord>, Error>)
      ensures (exists m | m in docs.trust :: !docs.trust[m].Valid()) ==> r == Failure(InvalidPeer)
      ensures (forall m | m in docs.trust :: docs.trust[m].Valid()) ==> r.Success?
      ensures r.Success? && r.value.Some?
          ==> r.value.value.name == name && exists m | m in docs.trust :: docs.trust[m] == r.value.value
      ensures r == Success(None) ==> forall m | m in docs.trust :: docs.trust[m].name != name
    {
      if exists m | m in docs.trust :: !docs.trust[m].Valid() { return Failure(InvalidPeer); }
      var left := docs.trust.Keys;
      while left != {}
        invariant left <= docs.trust.Keys
        invariant forall m | m in docs.trust.Keys - left :: docs.trust[m].name != name
      {
        var m :| m in left;
        if docs.trust[m].name == name { return Success(Some(docs.trust[m])); }
        left := left - {m};
      }
      r := Success(None);
    }

    method UpdateTrust(m: MachineId, mutate: PeerRecord -> PeerRecord) returns (r: Result<PeerRecord, Error>)
      modifies this
      ensures m !in old(docs).trust ==> r == Failure(PeerNotFound) && docs == old(docs)
      ensures m in old(docs).trust ==>
                var next := mutate(old(docs).trust[m]);
                && docs == UpdateDocs(old(docs), m, next)
                && r == if UpdateAnswer(old(docs), m, next).Some? then Failure(InvalidPeer) else Success(next)
    {
      var tx := new Transaction(docs);
      var found := tx.Get((d: Documents) => Lookup(d.trust, m));
      if found.None? { return Failure(PeerNotFound); }
      var next := mutate(found.value);
      if !next.Valid() || next.machine != m { return Failure(InvalidPeer); }
      tx.Put((d: Documents) => d.(trust := d.trust[m := next]));
      docs := tx.view;
      r := Success(next);
    }

    /** A peer is named by its ID, if the text is one, or else by its name. */
    method ResolvePeer(asId: Option<MachineId>, given: Name) returns (r: Result<MachineId, Error>)
      ensures PeerError(docs, asId, Trim(given)).Some? ==> r == Failure(PeerError(docs, asId, Trim(given)).value)
      ensures PeerError(docs, asId, Trim(given)).None? ==> r.Success? && Denotes(docs, asId, Trim(given), r.value)
    {
      var name := Trim(given);
      if name == BLANK { return Failure(InvalidName); }
      if asId.Some? {
        var known := GetPeer(asId.value);
        if known.Failure? { return Failure(known.error); }
        if known.value.Some? {
          assert asId.value in docs.trust;
          return Success(known.value.value.machine);
        }
      }
      var named := FindPeerByName(name);
      if named.Failure? { return Failure(named.error); }
      if named.value.None? { return Failure(PeerNotFound); }
      r := Success(named.value.value.machine);
    }

    method Block(asId: Option<MachineId>, given: Name, now: int) returns (r: Result<PeerRecord, Error>)
      modifies this
      ensures PeerError(old(docs), asId, Trim(given)).Some? ==>
                r == Failure(PeerError(old(docs), asId, Trim(given)).value)
      ensures r.Success? ==>
                && Denotes(old(docs), asId, Trim(given), r.value.machine) && r.value.machine in old(docs).trust
                && r.value == BlockedRecord(old(docs).trust[r.value.machine], now)
                && docs == old(docs).(trust := old(docs).trust[r.value.machine := r.value])
      ensures r.Failure? ==> docs == old(docs)
      ensures PeerError(old(docs), asId, Trim(given)).None? && TrustIsKeyed(old(docs)) ==> r.Success?
    {
      var peer := ResolvePeer(asId, given);
      if peer.Failure? { return Failure(peer.error); }
      r := UpdateTrust(peer.value, (record: PeerRecord) => record.(trust := Blocked, trustChangedAt := now));
    }

    method Unblock(asId: Option<MachineId>, given: Name, now: int) returns (r: Result<PeerRecord, Error>)
      modifies this
      ensures PeerError(old(docs), asId, Trim(given)).Some? ==>
                r == Failure(PeerError(old(docs), asId, Trim(given)).value)
      ensures r.Success? ==>
                && Denotes(old(docs), asId, Trim(given), r.value.machine) && r.value.machine in old(docs).trust
                && r.value == UnblockedRecord(old(docs).trust[r.value.machine], now)
                && docs == old(docs).(trust := old(docs).trust[r.value.machine := r.value])
      ensures r.Failure? ==> docs == old(docs)
      ensures PeerError(old(docs), asId, Trim(given)).None? && TrustIsKeyed(old(docs)) ==> r.Success?
    {
      var peer := ResolvePeer(asId, given);
      if peer.Failure? { return Failure(peer.error); }
      r := UpdateTrust(peer.value, (record: PeerRecord) =>
          record.(trust := Active, trustChangedAt := now, resetPending := true));
    }

    method ResolveMachineCredential(token: Name) returns (r: Option<Binding>)
      ensures r == if token in docs.credentials && docs.credentials[token].Complete() then
          Some(docs.credentials[token]) else None
    {
      var found := Lookup(docs.credentials, token);
      if found.None? || !found.value.Complete() { return None; }
      r := found;
    }

    /** The peer-aware bearer resolver, with nothing between its two reads. */
    method ResolveMachineBearer(token: Name) returns (r: Option<Binding>)
      ensures r == Resolve(docs, token)
    {
      if !WellFormedToken(token) { return None; }
      var b := ResolveMachineCredential(token);
      if b.None? || !b.value.Valid() { return None; }
      var peer := GetPeer(b.value.machine);
      if peer.Failure? { return None; }
      if peer.value.None? {
        if b.value.scopes == Peer { return None; }
        return b;
      }
      if peer.value.value.trust == Blocked { return None; }
      r := b;
    }
  }

  lemma EndsInName(m: MachineId, k: nat)
    requires |m.identity.text| < k < |IdText(m)|
    ensures IdText(m)[k] in m.name.text
  {
    assert IdText(m)[k] == m.name.text[k - |m.identity.text| - 1];
  }

  /** Names hold no control characters, so one ID text comes from one identity and name. */
  lemma IdTextIsInjective(m: MachineId, n: MachineId)
    requires (forall c | c in m.name.text :: c != '\0') && (forall c | c in n.name.text :: c != '\0')
    requires IdText(m) == IdText(n)
    ensures m == n
  {
    var a, b := m.identity.text, n.identity.text;
    if |a| < |b| {
      EndsInName(m, |b|);
    } else if |b| < |a| {
      EndsInName(n, |a|);
    }
    assert a == IdText(m)[..|a|] && b == IdText(n)[..|b|];
    assert m.name.text == IdText(m)[|a| + 1..] && n.name.text == IdText(n)[|b| + 1..];
  }
}
