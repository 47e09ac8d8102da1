/**
 The hub's repository event store: a global sequence, a deduplication marker for each event, a queue
 for each machine, poll receipts, and cumulative acknowledgement.

 The functions say what each atomic step does to the documents. The class performs the steps the
 way the store does, document by document, and each method is proved against its function.
 */
module EventQueue {
  import opened Wrappers
  import opened Transactions
  import Cursor

  const MAX_FANOUT := 150
  const MAX_LIMIT := 100
  const MAX_CURSOR_BYTES := 1024

  datatype Reason = DefaultBranchUpdated | RepositoryRenamed

  /** wellFormed is the outcome of the contract's field-form checks. */
  datatype Event = Event(id: Name, repository: Name, reason: Reason, wellFormed: bool) {
    predicate Valid() { wellFormed && id != BLANK }
  }

  datatype Machine = Machine(id: Name, name: Name, identity: Name) {
    predicate Valid() { id != BLANK && name != BLANK && identity != BLANK }
  }

  datatype Marker = Marker(eventId: Name, sequence: int, enqueuedAt: int)
  datatype Queued = Queued(sequence: int, identity: Name, machine: Name, enqueuedAt: int, event: Event)
  datatype Receipt = Receipt(machine: Name, identity: Name, cursor: Name, events: seq<Event>,
                             sequences: seq<int>, deliveredAt: int)
  datatype AckState = AckState(sequence: int, at: int, queuedWork: int)
  datatype DeliveryMark = DeliveryMark(deliveryId: Name, reason: Reason, occurredAt: int)
  datatype IdentityStatus = IdentityStatus(lastReceived: Option<DeliveryMark>, lastAcknowledged: Option<DeliveryMark>)
  datatype Pending = Pending(id: Name, repository: Name, reason: Reason, queuedAt: int, machine: Name)

  datatype QueueKey = QueueKey(machine: Name, sequence: int)
  datatype ReceiptKey = ReceiptKey(machine: Name, cursor: Name)
  datatype PendingKey = PendingKey(identity: Name, machine: Name, event: Name)

  /** One field for each collection; hashed document IDs are replaced by what they are the hash of. */
  datatype Documents = Documents(
    sequence: Option<int>,
    markers: map<Name, Marker>,
    queues: map<QueueKey, Queued>,
    receipts: map<ReceiptKey, Receipt>,
    acks: map<Name, AckState>,
    statuses: map<Name, IdentityStatus>,
    pending: map<PendingKey, Pending>)

  const EMPTY := Documents(None, map[], map[], map[], map[], map[], map[])

  datatype Error = Unavailable | FanoutExceeded | InvalidMarker | InvalidSequence | SequenceExhausted
    | InvalidCursor | InvalidQueueState | InvalidStoredEvent
  datatype EnqueueResult = Duplicate | Enqueued(count: nat)

  // ----- Enqueueing -----

  function Ids(machines: seq<Machine>): set<Name> {
    set m | m in machines :: m.id
  }

  /** Of several machines with one ID, the first is the one the event is queued for. */
  function Owner(machines: seq<Machine>, id: Name): (m: Machine)
    ensures id in Ids(machines) ==> m in machines
    ensures m.id == id
  {
    if machines == [] then Machine(id, BLANK, BLANK)
    else if machines[0].id == id then machines[0]
    else Owner(machines[1..], id)
  }

  function Identities(machines: seq<Machine>): set<Name> {
    set id | id in Ids(machines) :: Owner(machines, id).identity
  }

  function CurrentSequence(d: Documents): int {
    if d.sequence.Some? then d.sequence.value else 0
  }

  function EnqueueAnswer(d: Documents, event: Event, machines: seq<Machine>): Result<EnqueueResult, Error> {
    if !event.Valid() || exists m | m in machines :: !m.Valid() then Failure(Unavailable)
    else if |Ids(machines)| > MAX_FANOUT then Failure(FanoutExceeded)
    else if event.id in d.markers then
      if d.markers[event.id].eventId != event.id || d.markers[event.id].sequence < 1 then Failure(InvalidMarker)
      else Success(Duplicate)
    else if CurrentSequence(d) < 0 then Failure(InvalidSequence)
    else if CurrentSequence(d) == Cursor.MAX_INT64 then Failure(SequenceExhausted)
    else Success(Enqueued(|Ids(machines)|))
  }

  function QueueKeys(machines: seq<Machine>, n: int): set<QueueKey> {
    set id | id in Ids(machines) :: QueueKey(id, n)
  }

  function QueueEntries(machines: seq<Machine>, event: Event, n: int, now: int): map<QueueKey, Queued> {
    map k | k in QueueKeys(machines, n) :: Queued(n, Owner(machines, k.machine).identity, k.machine, now, event)
  }

  function PendingKeys(machines: seq<Machine>, eventId: Name): set<PendingKey> {
    set id | id in Ids(machines) :: PendingKey(Owner(machines, id).identity, id, eventId)
  }

  function PendingEntries(machines: seq<Machine>, event: Event, now: int): map<PendingKey, Pending> {
    map k | k in PendingKeys(machines, event.id) :: Pending(event.id, event.repository, event.reason, now, k.machine)
  }

  function StatusOf(d: Documents, identity: Name): IdentityStatus {
    if identity in d.statuses then d.statuses[identity] else IdentityStatus(None, None)
  }

  function ReceivedEntries(d: Documents, identities: set<Name>, mark: DeliveryMark): map<Name, IdentityStatus> {
    map identity | identity in identities :: StatusOf(d, identity).(lastReceived := Some(mark))
  }

  function EnqueueDocs(d: Documents, event: Event, machines: seq<Machine>, now: int): Documents {
    match EnqueueAnswer(d, event, machines)
    case Success(Enqueued(_)) =>
      var n := CurrentSequence(d) + 1;
      d.(sequence := Some(n),
         markers := d.markers[event.id := Marker(event.id, n, now)],
         queues := d.queues + QueueEntries(machines, event, n, now),
         pending := d.pending + PendingEntries(machines, event, now),
         statuses := d.statuses
           + ReceivedEntries(d, Identities(machines), DeliveryMark(event.id, event.reason, now)))
    case _ => d
  }

  // ----- Polling -----

  /** The sequence a poll starts after: its cursor's, or the acknowledged one if that is later. */
  function PollAfter(d: Documents, machine: Machine, cursor: string, limit: int): Result<int, Error> {
    if !machine.Valid() || limit < 1 || limit > MAX_LIMIT then Failure(Unavailable)
    else
      match Cursor.Decode(cursor)
      case Failure(_) => Failure(InvalidCursor)
      case Success(after) =>
        if machine.id !in d.acks then Success(after)
        else if d.acks[machine.id].sequence < 0 then Failure(InvalidQueueState)
        else if d.acks[machine.id].sequence > after then Success(d.acks[machine.id].sequence)
        else Success(after)
  }

  ghost predicate IsStrict(s: seq<int>) {
    forall i, j | 0 <= i < j < |s| :: s[i] < s[j]
  }

  /** What one scan of the queue hands out: the lowest sequences beyond after, at most limit of them. */
  ghost predicate IsBatch(d: Documents, machine: Name, after: int, limit: int, b: seq<int>) {
    && IsStrict(b) && |b| <= limit
    && (forall s | s in b :: s > after && QueueKey(machine, s) in d.queues)
    && (forall k | k in d.queues && k.machine == machine && k.sequence > after ::
          k.sequence in b || (|b| == limit && (b == [] || k.sequence > b[|b| - 1])))
  }

  ghost predicate AreEventsOf(d: Documents, machine: Name, b: seq<int>, events: seq<Event>) {
    && |events| == |b|
    && forall i | 0 <= i < |b| :: QueueKey(machine, b[i]) in d.queues && d.queues[QueueKey(machine, b[i])].event
        == events[i]
  }

  /**
   The lowest of a machine's sequences beyond two others, at most limit of them: none at or before either,
   and none left out but for a full batch of lower ones.
   */
  ghost predicate IsNextBatch(d: Documents, machine: Name, cursor: int, acked: int, limit: int, b: seq<int>) {
    && (forall i, j | 0 <= i < j < |b| :: b[i] < b[j]) && |b| <= limit
    && (forall s | s in b :: s > cursor && s > acked && QueueKey(machine, s) in d.queues)
    && (forall k | k in d.queues && k.machine == machine && k.sequence > cursor && k.sequence > acked && k.sequence !in b ::
          |b| == limit && forall s | s in b :: s < k.sequence)
  }

  /**
   The answer to a poll and what it leaves: the next batch beyond its cursor and the acknowledgement, a cursor
   for its last sequence, and a receipt of it.
   */
  ghost predicate IsHandedOut(d: Documents, e: Documents, machine: Machine, cursor: string, from: int, limit: int,
      now: int, r: Result<PollResponse, Error>, b: seq<int>, events: seq<Event>)
  {
    var next := if b != [] then b[|b| - 1] else if from > AckSequence(d, machine.id) then from
        else AckSequence(d, machine.id);
    && IsNextBatch(d, machine.id, from, AckSequence(d, machine.id), limit, b) && AreEventsOf(d, machine.id, b, events)
    && 0 <= next <= Cursor.MAX_INT64 && r == Success(PollResponse(cursor, Cursor.Encode(next), events))
    && e == if b == [] then d
            else
              var key := ReceiptKey(machine.id, Name(Cursor.Encode(next)));
              d.(receipts := d.receipts[key := Receipt(machine.id, machine.identity, key.cursor, events, b, now)])
  }

  ghost predicate HandsOut(d: Documents, e: Documents, machine: Machine, cursor: string, from: int, limit: int,
      now: int, r: Result<PollResponse, Error>)
  {
    exists b, events :: IsHandedOut(d, e, machine, cursor, from, limit, now, r, b, events)
  }

  function NextSequence(after: int, b: seq<int>): int {
    if b == [] then after else b[|b| - 1]
  }

  /** Every queue document says its own key and holds a valid event. */
  predicate WellKeyed(d: Documents) {
    forall k | k in d.queues ::
      d.queues[k].sequence == k.sequence && d.queues[k].machine == k.machine && d.queues[k].event.Valid()
  }

  function RecordDocs(d: Documents, machine: Machine, after: int, events: seq<Event>, sequences: seq<int>,
      now: int): Documents
    requires -Cursor.MAX_INT64 - 1 <= NextSequence(after, sequences) <= Cursor.MAX_INT64
  {
    if events == [] then d
    else
      var next := Name(Cursor.Encode(NextSequence(after, sequences)));
      d.(receipts := d.receipts[ReceiptKey(machine.id, next) :=
                                Receipt(machine.id, machine.identity, next, events, sequences, now)])
  }

  datatype PollResponse = PollResponse(cursor: string, nextCursor: string, events: seq<Event>)

  // ----- Acknowledging -----

  /** wellFormed is the outcome of the form checks on the version and on every event ID. */
  datatype AckRequest = AckRequest(cursor: Name, eventIds: seq<Name>, wellFormed: bool) {
    predicate Valid() {
      && wellFormed && cursor != BLANK && |cursor.text| <= MAX_CURSOR_BYTES
      && (forall c | c in cursor.text :: c != '\0' && !Cursor.IsNewline(c))
      && 1 <= |eventIds| <= MAX_LIMIT
      && (forall id | id in eventIds :: id != BLANK)
      && (forall i, j | 0 <= i < j < |eventIds| :: eventIds[i] != eventIds[j])
    }
  }

  function EventIds(events: seq<Event>): (ids: seq<Name>)
    ensures |ids| == |events| && forall i | 0 <= i < |ids| :: ids[i] == events[i].id
  {
    seq(|events|, i requires 0 <= i < |events| => events[i].id)
  }

  function AckSequence(d: Documents, machine: Name): int {
    if machine in d.acks then d.acks[machine].sequence else 0
  }

  function AckAnswer(d: Documents, machine: Machine, request: AckRequest): Result<Name, Error> {
    if !machine.Valid() || !request.Valid() then Failure(Unavailable)
    else if Cursor.Decode(request.cursor.text).Failure? || Cursor.Decode(request.cursor.text).value < 1 then
        Failure(InvalidCursor)
    else
      match Lookup(d.receipts, ReceiptKey(machine.id, request.cursor))
      case None => Failure(InvalidCursor)
      case Some(receipt) =>
        if receipt.machine != machine.id || receipt.identity != machine.identity
           || receipt.cursor != request.cursor || EventIds(receipt.events) != request.eventIds
        then Failure(InvalidCursor)
        else if AckSequence(d, machine.id) < 0 then Failure(InvalidQueueState)
        else Success(request.cursor)
  }

  function AckedQueueKeys(machine: Name, sequences: seq<int>): set<QueueKey> {
    set s | s in sequences :: QueueKey(machine, s)
  }

  function AckedPendingKeys(machine: Machine, events: seq<Event>): set<PendingKey> {
    set e | e in events :: PendingKey(machine.identity, machine.id, e.id)
  }

  function Advanced(d: Documents, machine: Machine, sequence: int, last: Event, now: int): Documents {
    if sequence <= AckSequence(d, machine.id) then d
    else
      var work := if machine.id in d.acks then d.acks[machine.id].queuedWork else 0;
      var mark := DeliveryMark(last.id, last.reason, now);
      d.(acks := d.acks[machine.id := AckState(sequence, now, work)],
         statuses := d.statuses[machine.identity := StatusOf(d, machine.identity).(lastAcknowledged := Some(mark))])
  }

  function AckDocs(d: Documents, machine: Machine, request: AckRequest, now: int): Documents {
    if AckAnswer(d, machine, request).Failure? then d
    else
      var receipt := d.receipts[ReceiptKey(machine.id, request.cursor)];
      assert |receipt.events| == |EventIds(receipt.events)| == |request.eventIds|;
      var moved := Advanced(d, machine, Cursor.Decode(request.cursor.text).value,
          receipt.events[|receipt.events| - 1], now);
      moved.(pending := d.pending - AckedPendingKeys(machine, receipt.events),
             queues := d.queues - AckedQueueKeys(machine.id, receipt.sequences))
  }

  // ----- The store -----

  predicate SequencesAscend(items: seq<Queued>) {
    forall i, j | 0 <= i < j < |items| :: items[i].sequence <= items[j].sequence
  }

  /** Where an item belongs in a sorted list: after everything with a sequence no higher than its own. */
  function Position(sorted: seq<Queued>, item: Queued): (at: nat)
    ensures at <= |sorted|
    ensures at > 0 ==> sorted[at - 1].sequence <= item.sequence
    ensures forall i | at <= i < |sorted| :: sorted[i].sequence > item.sequence
  {
    if sorted == [] || sorted[|sorted| - 1].sequence <= item.sequence then |sorted|
    else Position(sorted[..|sorted| - 1], item)
  }

  function Insert(sorted: seq<Queued>, item: Queued): seq<Queued> {
    var at := Position(sorted, item);
    sorted[..at] + [item] + sorted[at..]
  }

  lemma InsertAscends(sorted: seq<Queued>, item: Queued)
    requires SequencesAscend(sorted)
    ensures SequencesAscend(Insert(sorted, item))
  {
    var at, longer := Position(sorted, item), Insert(sorted, item);
    forall i, j | 0 <= i < j < |longer|
      ensures longer[i].sequence <= longer[j].sequence
    {
      if i < at {
        assert longer[i] == sorted[i] && sorted[i].sequence <= sorted[at - 1].sequence;
      }
      if j > at {
        assert longer[j] == sorted[j - 1];
      }
    }
  }

  lemma InsertKeeps(sorted: seq<Queued>, item: Queued)
    ensures multiset(Insert(sorted, item)) == multiset(sorted) + multiset{item}
  {
    var at := Position(sorted, item);
    assert sorted == sorted[..at] + sorted[at..];
  }

  /** A queue's documents in the order of their sequences, as the library sort leaves them. */
  method Sorted(items: seq<Queued>) returns (sorted: seq<Queued>)
    ensures multiset(sorted) == multiset(items) && SequencesAscend(sorted)
  {
    sorted := [];
    for n := 0 to |items|
      invariant multiset(sorted) == multiset(items[..n]) && SequencesAscend(sorted)
    {
      InsertAscends(sorted, items[n]);
      InsertKeeps(sorted, items[n]);
      assert items[..n + 1] == items[..n] + [items[n]];
      sorted := Insert(sorted, items[n]);
    }
    assert items[..|items|] == items;
  }

  class RepositoryEventStore {
    var docs: Documents

    constructor ()
      ensures docs == EMPTY
    {
      docs := EMPTY;
    }

    static method Unique(machines: seq<Machine>) returns (unique: seq<Machine>)
      ensures Ids(unique) == Ids(machines) && |unique| == |Ids(machines)|
      ensures forall i, j | 0 <= i < j < |unique| :: unique[i].id != unique[j].id
      ensures forall m | m in unique :: m == Owner(machines, m.id)
    {
      var seen := {};
      unique := [];
      for n := 0 to |machines|
        invariant seen == Ids(unique) == Ids(machines[..n]) && |unique| == |seen|
        invariant AreOwners(machines, unique)
      {
        var m := machines[n];
        IdsOfPrefix(machines, n);
        if m.id !in seen {
          FirstIsOwner(machines, n);
          OneMoreUnique(machines, unique, m);
          seen := seen + {m.id};
          unique := unique + [m];
        }
      }
      assert machines[..|machines|] == machines;
    }

    method EnqueueForMachines(event: Event, machines: seq<Machine>, now: int) returns (r: Result<EnqueueResult, Error>)
      modifies this
      ensures r == EnqueueAnswer(old(docs), event, machines)
      ensures docs == EnqueueDocs(old(docs), event, machines, now)
    {
      if !event.Valid() || exists m | m in machines :: !m.Valid() { return Failure(Unavailable); }
      var unique := Unique(machines);
      if |unique| > MAX_FANOUT { return Failure(FanoutExceeded); }
      var tx := new Transaction(docs);
      var marker := tx.Get((d: Documents) => Lookup(d.markers, event.id));
      if marker.Some? {
        if marker.value.eventId != event.id || marker.value.sequence < 1 { return Failure(InvalidMarker); }
        return Success(Duplicate);
      }
      var sequence := tx.Get(CurrentSequence);
      if sequence < 0 { return Failure(InvalidSequence); }
      if sequence == Cursor.MAX_INT64 { return Failure(SequenceExhausted); }
      var states := ReadStatuses(tx, unique);
      sequence := sequence + 1;
      tx.Put((d: Documents) => d.(sequence := Some(sequence)));
      tx.Put((d: Documents) => d.(markers := d.markers[event.id := Marker(event.id, sequence, now)]));
      WriteEntries(tx, unique, event, sequence, now);
      WriteReceived(tx, docs, states, DeliveryMark(event.id, event.reason, now));
      UniqueEntries(machines, unique, event, sequence, now);
      docs := tx.view;
      r := Success(Enqueued(|unique|));
    }

    /** Every identity's status is read before the first write. */
    static method ReadStatuses(tx: Transaction<Documents>, unique: seq<Machine>)
        returns (states: map<Name, IdentityStatus>)
      requires !tx.written
      requires forall i, j | 0 <= i < j < |unique| :: unique[i].id != unique[j].id
      ensures states.Keys == Identities(unique)
      ensures forall identity | identity in states :: states[identity] == StatusOf(tx.view, identity)
    {
      states := map[];
      for n := 0 to |unique|
        invariant states.Keys == set m | m in unique[..n] :: m.identity
        invariant forall identity | identity in states :: states[identity] == StatusOf(tx.view, identity)
      {
        assert unique[..n + 1] == unique[..n] + [unique[n]];
        var identity := unique[n].identity;
        if identity !in states {
          var state := tx.Get((d: Documents) => StatusOf(d, identity));
          states := states[identity := state];
        }
      }
      assert unique[..|unique|] == unique;
      OwnersAreMembers(unique);
    }

    /** One queue document and one pending refresh for each machine. */
    static method WriteEntries(tx: Transaction<Documents>, unique: seq<Machine>, event: Event, sequence: int, now: int)
      requires forall i, j | 0 <= i < j < |unique| :: unique[i].id != unique[j].id
      modifies tx
      ensures tx.view == old(tx.view).(queues := old(tx.view).queues + QueueEntries(unique, event, sequence, now),
                                       pending := old(tx.view).pending + PendingEntries(unique, event, now))
    {
      ghost var was := tx.view;
      for n := 0 to |unique|
        invariant tx.view == was.(queues := tx.view.queues, pending := tx.view.pending)
        invariant tx.view.queues == was.queues + QueueEntries(unique[..n], event, sequence, now)
        invariant tx.view.pending == was.pending + PendingEntries(unique[..n], event, now)
      {
        var m := unique[n];
        var queueKey, pendingKey := QueueKey(m.id, sequence), PendingKey(m.identity, m.id, event.id);
        var queued := Queued(sequence, m.identity, m.id, now, event);
        var pending := Pending(event.id, event.repository, event.reason, now, m.id);
        QueueEntriesExtend(unique, n, event, sequence, now);
        PendingEntriesExtend(unique, n, event, now);
        UnionThenUpdate(was.queues, QueueEntries(unique[..n], event, sequence, now), queueKey, queued);
        UnionThenUpdate(was.pending, PendingEntries(unique[..n], event, now), pendingKey, pending);
        tx.Put((d: Documents) => d.(queues := d.queues[queueKey := queued]));
        tx.Put((d: Documents) => d.(pending := d.pending[pendingKey := pending]));
      }
      assert unique[..|unique|] == unique;
    }

    static method WriteReceived(tx: Transaction<Documents>, ghost d0: Documents, states: map<Name, IdentityStatus>,
        mark: DeliveryMark)
      requires tx.view.statuses == d0.statuses
      requires forall identity | identity in states :: states[identity] == StatusOf(d0, identity)
      modifies tx
      ensures tx.view == old(tx.view).(statuses := d0.statuses + ReceivedEntries(d0, states.Keys, mark))
    {
      var remaining := states.Keys;
      ghost var was := tx.view;
      while remaining != {}
        invariant remaining <= states.Keys
        invariant tx.view == was.(statuses := tx.view.statuses)
        invariant tx.view.statuses == d0.statuses + ReceivedEntries(d0, states.Keys - remaining, mark)
      {
        var identity :| identity in remaining;
        var state := states[identity].(lastReceived := Some(mark));
        ReceivedExtends(d0, states.Keys - remaining, identity, mark);
        UnionThenUpdate(d0.statuses, ReceivedEntries(d0, states.Keys - remaining, mark), identity, state);
        assert states.Keys - (remaining - {identity}) == states.Keys - remaining + {identity};
        tx.Put((d: Documents) => d.(statuses := d.statuses[identity := state]));
        remaining := remaining - {identity};
      }
    }

    /** First step of a poll: read how far the machine has acknowledged. */
    method PollStart(machine: Machine, cursor: string, limit: int) returns (after: Result<int, Error>)
      ensures after == PollAfter(docs, machine, cursor, limit)
    {
      if !machine.Valid() || limit < 1 || limit > MAX_LIMIT { return Failure(Unavailable); }
      var decoded := Cursor.Decode(cursor);
      if decoded.Failure? { return Failure(InvalidCursor); }
      after := Success(decoded.value);
      var state := Lookup(docs.acks, machine.id);
      if state.Some? {
        if state.value.sequence < 0 { return Failure(InvalidQueueState); }
        if state.value.sequence > decoded.value { after := Success(state.value.sequence); }
      }
    }

    /** An unordered scan of one machine's queue. */
    method Query(machine: Name) returns (items: seq<Queued>)
      ensures forall q :: q in items <==> exists k | k in docs.queues :: k.machine == machine && docs.queues[k] == q
      ensures WellKeyed(docs) ==> forall i, j | 0 <= i < j < |items| :: items[i].sequence != items[j].sequence
    {
      var keys := set k | k in docs.queues && k.machine == machine;
      var left := keys;
      items := [];
      while left != {}
        invariant left <= keys
        invariant forall q :: q in items <==> exists k | k in keys - left :: docs.queues[k] == q
        invariant WellKeyed(docs) ==> forall i, j | 0 <= i < j < |items| :: items[i].sequence != items[j].sequence
      {
        var k :| k in left;
        forall i | 0 <= i < |items|
          ensures WellKeyed(docs) ==> items[i].sequence != k.sequence
        {
          assert items[i] in items;
        }
        items := items + [docs.queues[k]];
        left := left - {k};
      }
    }

    /**
     Second step of a poll: scan the queue, sort it and walk it upwards from after. Only a queue holding
     a document that is not keyed by what it says, or whose event is invalid, can make it fail.
     */
    method PollScan(machine: Machine, after: int, limit: int)
      returns (r: Result<(seq<Event>, seq<int>), Error>)
      requires 1 <= limit
      ensures WellKeyed(docs) ==> r.Success?
      ensures WellKeyed(docs) && r.Success? ==>
                IsBatch(docs, machine.id, after, limit, r.value.1)
                    && AreEventsOf(docs, machine.id, r.value.1, r.value.0)
      ensures r.Failure? ==> r.error == InvalidStoredEvent
      ensures r.Success? ==>
                && IsStrict(r.value.1) && |r.value.0| == |r.value.1| <= limit
                && (forall i | 0 <= i < |r.value.1| ::
                      r.value.1[i] > after && r.value.0[i].Valid()
                      && exists k | k in docs.queues :: docs.queues[k].sequence == r.value.1[i]
                          && docs.queues[k].event == r.value.0[i])
    {
      var found := Query(machine.id);
      var queued := Sorted(found);
      SameMembers(found, queued);
      ghost var n;
      r, n := WalkQueue(queued, after, limit);
      if WellKeyed(docs) {
        SortedIsStrict(docs, machine.id, found, queued);
        PickedAreEvents(docs, machine.id, queued, r.value.0, r.value.1);
        WalkedIsBatch(docs, machine.id, queued, after, limit, n, r.value.1);
      }
    }

    /** Take what lies beyond after, in order, until there are enough; n tells how far the walk got. */
    static method WalkQueue(queued: seq<Queued>, after: int, limit: int)
      returns (r: Result<(seq<Event>, seq<int>), Error>, ghost n: nat)
      requires 1 <= limit
      ensures r.Failure? ==> r.error == InvalidStoredEvent
      ensures r.Success? ==> Picked(queued, after, r.value.0, r.value.1) && |r.value.0| <= limit
      ensures StrictlyAscend(queued) && (forall q | q in queued :: q.event.Valid()) ==>
                && r.Success? && n <= |queued| && Walked(queued, after, n, r.value.1)
                && (|r.value.1| == limit || n == |queued|)
    {
      var events, sequences, next := [], [], after;
      var i := 0;
      while i < |queued|
        invariant 0 <= i <= |queued| && |sequences| < limit
        invariant next == NextSequence(after, sequences) && Picked(queued, after, events, sequences)
        invariant StrictlyAscend(queued) ==> Walked(queued, after, i, sequences)
      {
        var item := queued[i];
        if StrictlyAscend(queued) { WalkOn(queued, after, i, sequences); }
        i := i + 1;
        if item.sequence <= after { continue; }
        if item.sequence <= next || !item.event.Valid() { return Failure(InvalidStoredEvent), 0; }
        PickOneMore(queued, after, events, sequences, item);
        next, events, sequences := item.sequence, events + [item.event], sequences + [item.sequence];
        if |events| == limit { break; }
      }
      r, n := Success((events, sequences)), i;
    }

    /** Third step of a poll: record what is about to be delivered. */
    method PollRecord(machine: Machine, after: int, events: seq<Event>, sequences: seq<int>, now: int)
      requires -Cursor.MAX_INT64 - 1 <= NextSequence(after, sequences) <= Cursor.MAX_INT64
      modifies this
      ensures docs == RecordDocs(old(docs), machine, after, events, sequences, now)
    {
      if events == [] { return; }
      var next := Name(Cursor.Encode(NextSequence(after, sequences)));
      docs := docs.(receipts := docs.receipts[ReceiptKey(machine.id, next) :=
                                              Receipt(machine.id, machine.identity, next, events, sequences, now)]);
    }

    /** The whole of a poll that nothing interleaves with. Sequences fit in 64 bits. */
    method Poll(machine: Machine, cursor: string, limit: int, now: int) returns (r: Result<PollResponse, Error>)
      requires forall k | k in docs.queues :: docs.queues[k].sequence <= Cursor.MAX_INT64
      requires AckSequence(docs, machine.id) <= Cursor.MAX_INT64
      modifies this
      ensures r.Failure? ==> docs == old(docs)
      ensures !machine.Valid() || limit < 1 || limit > MAX_LIMIT ==> r == Failure(Unavailable)
      ensures machine.Valid() && 1 <= limit <= MAX_LIMIT && Cursor.Decode(cursor).Failure? ==> r == Failure(InvalidCursor)
      ensures machine.Valid() && 1 <= limit <= MAX_LIMIT && Cursor.Decode(cursor).Success? ==>
                if AckSequence(old(docs), machine.id) < 0 then r == Failure(InvalidQueueState)
                else WellKeyed(old(docs)) ==>
                  HandsOut(old(docs), docs, machine, cursor, Cursor.Decode(cursor).value, limit, now, r)
    {
      var start := PollStart(machine, cursor, limit);
      if start.Failure? { return Failure(start.error); }
      var scan := PollScan(machine, start.value, limit);
      if scan.Failure? { return Failure(scan.error); }
      var (events, sequences) := scan.value;
      assert sequences != [] ==> sequences[|sequences| - 1] > start.value;
      PollRecord(machine, start.value, events, sequences, now);
      r := Success(PollResponse(cursor, Cursor.Encode(NextSequence(start.value, sequences)), events));
      PollStartsBeyond(old(docs), machine, cursor, limit);
      if WellKeyed(old(docs)) {
        BatchIsNext(old(docs), machine.id, Cursor.Decode(cursor).value, start.value, limit, sequences);
        assert IsHandedOut(old(docs), docs, machine, cursor, Cursor.Decode(cursor).value, limit, now, r, sequences,
            events);
      }
    }

    method Acknowledge(machine: Machine, request: AckRequest, now: int) returns (r: Result<Name, Error>)
      modifies this
      ensures r == AckAnswer(old(docs), machine, request)
      ensures docs == AckDocs(old(docs), machine, request, now)
    {
      if !machine.Valid() || !request.Valid() { return Failure(Unavailable); }
      var decoded := Cursor.Decode(request.cursor.text);
      if decoded.Failure? || decoded.value < 1 { return Failure(InvalidCursor); }
      var sequence := decoded.value;
      var tx := new Transaction(docs);
      var found := tx.Get((d: Documents) => Lookup(d.receipts, ReceiptKey(machine.id, request.cursor)));
      if found.None? { return Failure(InvalidCursor); }
      var receipt := found.value;
      if receipt.machine != machine.id || receipt.identity != machine.identity
         || receipt.cursor != request.cursor || EventIds(receipt.events) != request.eventIds {
        return Failure(InvalidCursor);
      }
      assert |receipt.events| == |EventIds(receipt.events)|;
      var state := tx.Get((d: Documents) => if machine.id in d.acks then d.acks[machine.id] else AckState(0, 0, 0));
      if state.sequence < 0 { return Failure(InvalidQueueState); }
      if sequence > state.sequence {
        var status := tx.Get((d: Documents) => StatusOf(d, machine.identity));
        tx.Put((d: Documents) => d.(acks := d.acks[machine.id := state.(sequence := sequence, at := now)]));
        var last := receipt.events[|receipt.events| - 1];
        var acknowledged := status.(lastAcknowledged := Some(DeliveryMark(last.id, last.reason, now)));
        tx.Put((d: Documents) => d.(statuses := d.statuses[machine.identity := acknowledged]));
      }
      RetirePending(tx, machine, receipt.events);
      RetireQueued(tx, machine.id, receipt.sequences);
      docs := tx.view;
      r := Success(request.cursor);
    }

    static method RetirePending(tx: Transaction<Documents>, machine: Machine, events: seq<Event>)
      modifies tx
      ensures tx.view == old(tx.view).(pending := old(tx.view).pending - AckedPendingKeys(machine, events))
    {
      ghost var was := tx.view;
      for n := 0 to |events|
        invariant tx.view == was.(pending := tx.view.pending)
        invariant tx.view.pending == was.pending - AckedPendingKeys(machine, events[..n])
      {
        var key := PendingKey(machine.identity, machine.id, events[n].id);
        assert events[..n + 1] == events[..n] + [events[n]];
        assert AckedPendingKeys(machine, events[..n + 1]) == AckedPendingKeys(machine, events[..n]) + {key};
        RemoveThenRemove(was.pending, AckedPendingKeys(machine, events[..n]), key);
        tx.Put((d: Documents) => d.(pending := d.pending - {key}));
      }
      assert events[..|events|] == events;
    }

    static method RetireQueued(tx: Transaction<Documents>, machine: Name, sequences: seq<int>)
      modifies tx
      ensures tx.view == old(tx.view).(queues := old(tx.view).queues - AckedQueueKeys(machine, sequences))
    {
      ghost var was := tx.view;
      for n := 0 to |sequences|
        invariant tx.view == was.(queues := tx.view.queues)
        invariant tx.view.queues == was.queues - AckedQueueKeys(machine, sequences[..n])
      {
        var key := QueueKey(machine, sequences[n]);
        assert sequences[..n + 1] == sequences[..n] + [sequences[n]];
        assert AckedQueueKeys(machine, sequences[..n + 1]) == AckedQueueKeys(machine, sequences[..n]) + {key};
        RemoveThenRemove(was.queues, AckedQueueKeys(machine, sequences[..n]), key);
        tx.Put((d: Documents) => d.(queues := d.queues - {key}));
      }
      assert sequences[..|sequences|] == sequences;
    }
  }

  // ----- Proofs about the loops -----

  /** Distinct machines, each the first of its ID. */
  ghost predicate AreOwners(machines: seq<Machine>, unique: seq<Machine>) {
    && (forall i, j | 0 <= i < j < |unique| :: unique[i].id != unique[j].id)
    && (forall m | m in unique :: m == Owner(machines, m.id))
  }

  lemma OneMoreUnique(machines: seq<Machine>, unique: seq<Machine>, m: Machine)
    requires AreOwners(machines, unique) && m.id !in Ids(unique) && m == Owner(machines, m.id)
    ensures AreOwners(machines, unique + [m]) && Ids(unique + [m]) == Ids(unique) + {m.id}
  {
    IdsAppend(unique, m);
    assert forall x | x in unique :: x.id in Ids(unique);
  }

  lemma IdsOfPrefix(machines: seq<Machine>, n: nat)
    requires n < |machines|
    ensures Ids(machines[..n + 1]) == Ids(machines[..n]) + {machines[n].id}
  {
    IdsAppend(machines[..n], machines[n]);
    assert machines[..n + 1] == machines[..n] + [machines[n]];
  }

  lemma IdsAppend(machines: seq<Machine>, m: Machine)
    ensures Ids(machines + [m]) == Ids(machines) + {m.id}
  {
    var longer := machines + [m];
    assert longer[|machines|] == m;
    assert forall x | x in machines :: x in longer;
  }

  lemma IdsOfOne(m: Machine)
    ensures Ids([m]) == {m.id}
  {
    IdsAppend([], m);
    assert [] + [m] == [m];
  }

  lemma {:induction false} FirstIsOwner(machines: seq<Machine>, n: nat)
    requires n < |machines| && machines[n].id !in Ids(machines[..n])
    ensures Owner(machines, machines[n].id) == machines[n]
  {
    if n > 0 {
      assert machines[0] in machines[..n];
      assert machines[1..][..n - 1] == machines[..n][1..];
      FirstIsOwner(machines[1..], n - 1);
    }
  }

  lemma {:induction false} OwnerIsStable(machines: seq<Machine>, n: nat, id: Name)
    requires n <= |machines| && id in Ids(machines[..n])
    ensures id in Ids(machines) && Owner(machines, id) == Owner(machines[..n], id)
  {
    var m :| m in machines[..n] && m.id == id;
    assert m in machines;
    if machines[0].id != id {
      assert machines[..n][1..] == machines[1..][..n - 1];
      OwnerIsStable(machines[1..], n - 1, id);
    }
  }

  lemma OwnersExtend(unique: seq<Machine>, n: nat)
    requires n < |unique|
    requires forall i, j | 0 <= i < j < |unique| :: unique[i].id != unique[j].id
    ensures Ids(unique[..n + 1]) == Ids(unique[..n]) + {unique[n].id} && unique[n].id !in Ids(unique[..n])
    ensures Owner(unique[..n + 1], unique[n].id) == unique[n]
    ensures forall id | id in Ids(unique[..n]) :: Owner(unique[..n + 1], id) == Owner(unique[..n], id)
  {
    var longer, shorter := unique[..n + 1], unique[..n];
    assert longer == shorter + [unique[n]] && longer[..n] == shorter;
    IdsAppend(shorter, unique[n]);
    FirstIsOwner(longer, n);
    forall id | id in Ids(shorter)
      ensures Owner(longer, id) == Owner(shorter, id)
    {
      OwnerIsStable(longer, n, id);
    }
  }

  lemma QueueEntriesExtend(unique: seq<Machine>, n: nat, event: Event, sequence: int, now: int)
    requires n < |unique|
    requires forall i, j | 0 <= i < j < |unique| :: unique[i].id != unique[j].id
    ensures var m := unique[n];
            QueueEntries(unique[..n + 1], event, sequence, now)
            == QueueEntries(unique[..n], event, sequence, now)[QueueKey(m.id, sequence) :=
                Queued(sequence, m.identity, m.id, now, event)]
  {
    OwnersExtend(unique, n);
  }

  lemma PendingEntriesExtend(unique: seq<Machine>, n: nat, event: Event, now: int)
    requires n < |unique|
    requires forall i, j | 0 <= i < j < |unique| :: unique[i].id != unique[j].id
    ensures var m := unique[n];
            PendingEntries(unique[..n + 1], event, now)
            == PendingEntries(unique[..n], event, now)[PendingKey(m.identity, m.id, event.id) :=
                                                       Pending(event.id, event.repository, event.reason, now, m.id)]
  {
    OwnersExtend(unique, n);
  }

  lemma ReceivedExtends(d: Documents, identities: set<Name>, identity: Name, mark: DeliveryMark)
    ensures ReceivedEntries(d, identities + {identity}, mark)
            == ReceivedEntries(d, identities, mark)[identity := StatusOf(d, identity).(lastReceived := Some(mark))]
  {
  }

  lemma OwnersAreMembers(unique: seq<Machine>)
    requires forall i, j | 0 <= i < j < |unique| :: unique[i].id != unique[j].id
    ensures forall m | m in unique :: m.id in Ids(unique) && Owner(unique, m.id) == m
    ensures Identities(unique) == set m | m in unique :: m.identity
  {
    forall i | 0 <= i < |unique|
      ensures Owner(unique, unique[i].id) == unique[i]
    {
      FirstIsOwner(unique, i);
    }
  }

  lemma UniqueEntries(machines: seq<Machine>, unique: seq<Machine>, event: Event, n: int, now: int)
    requires Ids(unique) == Ids(machines)
    requires forall i, j | 0 <= i < j < |unique| :: unique[i].id != unique[j].id
    requires forall m | m in unique :: m == Owner(machines, m.id)
    ensures QueueEntries(unique, event, n, now) == QueueEntries(machines, event, n, now)
    ensures PendingEntries(unique, event, now) == PendingEntries(machines, event, now)
    ensures Identities(unique) == Identities(machines)
  {
    OwnersAreMembers(unique);
    assert forall id | id in Ids(machines) :: Owner(unique, id) == Owner(machines, id);
  }

  lemma SortedIsStrict(d: Documents, machine: Name, found: seq<Queued>, queued: seq<Queued>)
    requires WellKeyed(d) && multiset(queued) == multiset(found)
    requires forall q :: q in found <==> exists k | k in d.queues :: k.machine == machine && d.queues[k] == q
    requires forall i, j | 0 <= i < j < |found| :: found[i].sequence != found[j].sequence
    requires SequencesAscend(queued)
    ensures IsSortedQueue(d, machine, queued)
  {
    SameMembers(found, queued);
    DistinctTransfers(found, queued);
  }

  lemma DistinctTransfers(found: seq<Queued>, queued: seq<Queued>)
    requires multiset(queued) == multiset(found)
    requires forall i, j | 0 <= i < j < |found| :: found[i].sequence != found[j].sequence
    ensures forall i, j | 0 <= i < j < |queued| :: queued[i].sequence != queued[j].sequence
  {
    forall i, j | 0 <= i < j < |queued|
      ensures queued[i].sequence != queued[j].sequence
    {
      if queued[i].sequence == queued[j].sequence {
        assert queued[i] in multiset(found) && queued[j] in multiset(found);
        assert queued[i] in found && queued[j] in found;
        assert queued[i] == queued[j];
        TwiceInMultiset(queued, i, j);
        OnceInMultiset(found, queued[i]);
      }
    }
  }

  lemma TwiceInMultiset(items: seq<Queued>, i: nat, j: nat)
    requires i < j < |items| && items[i] == items[j]
    ensures multiset(items)[items[i]] >= 2
  {
    assert items == items[..i] + [items[i]] + items[i + 1..j] + [items[j]] + items[j + 1..];
  }

  lemma OnceInMultiset(items: seq<Queued>, q: Queued)
    requires forall i, j | 0 <= i < j < |items| :: items[i].sequence != items[j].sequence
    ensures multiset(items)[q] <= 1
  {
    if q in items {
      var i :| 0 <= i < |items| && items[i] == q;
      assert items == items[..i] + [q] + items[i + 1..];
      assert q !in items[..i] && q !in items[i + 1..];
    }
  }

  predicate StrictlyAscend(items: seq<Queued>) {
    forall i, j | 0 <= i < j < |items| :: items[i].sequence < items[j].sequence
  }

  /** What Query and Sorted together know about the list they leave. */
  ghost predicate IsSortedQueue(d: Documents, machine: Name, queued: seq<Queued>) {
    && StrictlyAscend(queued)
    && (forall q | q in queued :: QueueKey(machine, q.sequence) in d.queues && d.queues[QueueKey(machine,
        q.sequence)] == q)
    && (forall k | k in d.queues && k.machine == machine :: d.queues[k] in queued)
  }

  /** What a walk has picked so far: valid events and ascending sequences of documents beyond after. */
  ghost predicate Picked(queued: seq<Queued>, after: int, events: seq<Event>, sequences: seq<int>) {
    && IsStrict(sequences) && |events| == |sequences|
    && (forall i | 0 <= i < |sequences| ::
           sequences[i] > after && events[i].Valid() && HasPair(queued, sequences[i], events[i]))
  }

  ghost predicate HasPair(queued: seq<Queued>, sequence: int, event: Event) {
    exists q | q in queued :: q.sequence == sequence && q.event == event
  }

  lemma PickOneMore(queued: seq<Queued>, after: int, events: seq<Event>, sequences: seq<int>, item: Queued)
    requires Picked(queued, after, events, sequences) && item in queued && item.event.Valid() && item.sequence > after
    requires item.sequence > NextSequence(after, sequences)
    ensures Picked(queued, after, events + [item.event], sequences + [item.sequence])
  {
    assert HasPair(queued, item.sequence, item.event);
    assert sequences != [] ==> forall i | 0 <= i < |sequences| :: sequences[i] <= sequences[|sequences| - 1];
  }

  lemma PickedAreEvents(d: Documents, machine: Name, queued: seq<Queued>, events: seq<Event>, sequences: seq<int>)
    requires |events| == |sequences| && forall i | 0 <= i < |sequences| :: HasPair(queued, sequences[i], events[i])
    requires IsSortedQueue(d, machine, queued)
    ensures AreEventsOf(d, machine, sequences, events)
  {
    forall i | 0 <= i < |sequences|
      ensures QueueKey(machine, sequences[i]) in d.queues && d.queues[QueueKey(machine, sequences[i])].event
          == events[i]
    {
      assert HasPair(queued, sequences[i], events[i]);
    }
  }

  lemma SameMembers(found: seq<Queued>, queued: seq<Queued>)
    requires multiset(queued) == multiset(found)
    ensures forall q :: q in queued <==> q in found
  {
    forall q: Queued
      ensures q in queued <==> q in found
    {
      assert q in queued <==> q in multiset(queued);
      assert q in found <==> q in multiset(found);
    }
  }

  /** The first n documents have been walked, and sequences is what they left. */
  ghost predicate Walked(queued: seq<Queued>, after: int, n: int, sequences: seq<int>)
    requires 0 <= n <= |queued|
  {
    && IsStrict(sequences) && (forall s | s in sequences :: s > after)
    && (forall i | 0 <= i < n :: queued[i].sequence <= after || queued[i].sequence in sequences)
    && (forall i | n <= i < |queued| :: sequences == [] || queued[i].sequence > sequences[|sequences| - 1])
  }

  lemma WalkOn(queued: seq<Queued>, after: int, n: nat, sequences: seq<int>)
    requires n < |queued| && StrictlyAscend(queued) && Walked(queued, after, n, sequences)
    ensures queued[n].sequence <= after ==> Walked(queued, after, n + 1, sequences)
    ensures queued[n].sequence > after ==>
              queued[n].sequence > NextSequence(after, sequences)
                  && Walked(queued, after, n + 1, sequences + [queued[n].sequence])
  {
    var longer := sequences + [queued[n].sequence];
    assert forall s :: s in longer <==> s in sequences || s == queued[n].sequence;
  }

  lemma WalkedIsBatch(d: Documents, machine: Name, queued: seq<Queued>, after: int, limit: int, n: nat,
      sequences: seq<int>)
    requires WellKeyed(d) && n <= |queued| && IsSortedQueue(d, machine, queued) && Walked(queued, after, n, sequences)
    requires forall i | 0 <= i < |sequences| :: QueueKey(machine, sequences[i]) in d.queues
    requires |sequences| == limit || (|sequences| < limit && n == |queued|)
    ensures IsBatch(d, machine, after, limit, sequences)
  {
    forall k | k in d.queues && k.machine == machine && k.sequence > after && k.sequence !in sequences
      ensures |sequences| == limit && (sequences == [] || k.sequence > sequences[|sequences| - 1])
    {
      var i :| 0 <= i < |queued| && queued[i] == d.queues[k];
      assert queued[i].sequence == k.sequence;
    }
  }

  /**
   A poll is refused exactly for its machine, its limit, its cursor or the stored acknowledgement, and starts
   after its cursor or what the machine has acknowledged, whichever is later.
   */
  lemma PollStartsBeyond(d: Documents, machine: Machine, cursor: string, limit: int)
    ensures var r := PollAfter(d, machine, cursor, limit);
            && (r.Success? <==> machine.Valid() && 1 <= limit <= 100 && Cursor.Decode(cursor).Success?
                                && AckSequence(d, machine.id) >= 0)
            && (r.Success? ==>
                  && r.value >= Cursor.Decode(cursor).value && r.value >= AckSequence(d, machine.id)
                  && (r.value == Cursor.Decode(cursor).value || r.value == AckSequence(d, machine.id)))
  {
  }

  lemma BatchIsNext(d: Documents, machine: Name, cursor: int, after: int, limit: int, b: seq<int>)
    requires IsBatch(d, machine, after, limit, b) && limit >= 1
    requires after >= cursor && after >= AckSequence(d, machine)
    requires after == cursor || after == AckSequence(d, machine)
    ensures IsNextBatch(d, machine, cursor, AckSequence(d, machine), limit, b)
  {
    forall k | k in d.queues && k.machine == machine && k.sequence > after && k.sequence !in b
      ensures |b| == limit && forall s | s in b :: s < k.sequence
    {
      assert forall i | 0 <= i < |b| :: b[i] <= b[|b| - 1];
    }
  }

  /** The batch depends on the queue alone, not on the order the engine scans it in. */
  lemma BatchIsUnique(d: Documents, machine: Name, after: int, limit: int, a: seq<int>, b: seq<int>)
    requires IsBatch(d, machine, after, limit, a) && IsBatch(d, machine, after, limit, b)
    ensures a == b
  {
    AgreeUpTo(d, machine, after, limit, a, b, |a|);
    AgreeUpTo(d, machine, after, limit, b, a, |b|);
  }

  lemma {:induction false} AgreeUpTo(d: Documents, machine: Name, after: int, limit: int, a: seq<int>, b: seq<int>,
      n: nat)
    requires IsBatch(d, machine, after, limit, a) && IsBatch(d, machine, after, limit, b)
    requires n <= |a|
    ensures n <= |b| && a[..n] == b[..n]
  {
    if n > 0 {
      AgreeUpTo(d, machine, after, limit, a, b, n - 1);
      TakesTheNext(d, machine, after, limit, a, b, n - 1);
      TakesTheNext(d, machine, after, limit, b, a, n - 1);
    }
  }

  /** Two batches that agree so far: the other one goes on, and with nothing higher. */
  lemma TakesTheNext(d: Documents, machine: Name, after: int, limit: int, a: seq<int>, b: seq<int>, n: nat)
    requires IsBatch(d, machine, after, limit, a) && IsBatch(d, machine, after, limit, b)
    requires n <= |b| && (n < |a| ==> a[..n] == b[..n])
    ensures n < |a| ==> n < |b| && b[n] <= a[n]
  {
    if n < |a| {
      var key := QueueKey(machine, a[n]);
      assert a[n] in a && key in d.queues;
      if a[n] in b {
        var i :| 0 <= i < |b| && b[i] == a[n];
        assert i >= n by {
          assert forall j | 0 <= j < n :: b[j] == b[..n][j] == a[..n][j] == a[j];
        }
      }
    }
  }
}
