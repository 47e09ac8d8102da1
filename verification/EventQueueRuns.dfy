/**
 Whole runs of the event store: atomic enqueues and acknowledgements interleaved in any way with polls
 whose three steps are separate, some of which never finish.
 */
module EventQueueRuns {
  import opened Wrappers
  import opened EventQueue
  import Cursor

  datatype PollCall =
    | Started(machine: Machine, cursor: Name, limit: int, after: int)
    | Scanned(machine: Machine, cursor: Name, after: int, events: seq<Event>, sequences: seq<int>)

  /** One sequence number of one machine's queue. */
  datatype Slot = Slot(machine: Name, sequence: int)

  /**
   The stored documents and the polls in progress, with what the run has seen so far: the slots events
   were enqueued at, the slots some recorded batch contained, and the cursors handed to each machine.
   */
  datatype World = World(
    docs: Documents,
    polls: map<nat, PollCall>,
    addressed: set<Slot>,
    recorded: set<Slot>,
    given: set<Slot>)

  const START := World(EMPTY, map[], {}, {}, {})

  datatype Step =
    | Enqueue(event: Event, machines: seq<Machine>, now: int)
    | StartPoll(call: nat, machine: Machine, cursor: string, limit: int)
    | ScanPoll(call: nat, events: seq<Event>, sequences: seq<int>)
    | FinishPoll(call: nat, now: int)
    | Crash(call: nat)
    | Ack(machine: Machine, request: AckRequest, now: int)

  function Slots(machine: Name, sequences: seq<int>): set<Slot> {
    set s | s in sequences :: Slot(machine, s)
  }

  function NewSlots(machines: seq<Machine>, n: int): set<Slot> {
    set id | id in Ids(machines) :: Slot(id, n)
  }

  ghost predicate Enabled(w: World, step: Step) {
    match step
    case Enqueue(event, machines, now) => true
    case StartPoll(call, machine, cursor, limit) =>
      call !in w.polls && PollAfter(w.docs, machine, cursor, limit).Success?
    case ScanPoll(call, events, sequences) =>
      && call in w.polls && w.polls[call].Started?
      && IsBatch(w.docs, w.polls[call].machine.id, w.polls[call].after, w.polls[call].limit, sequences)
      && AreEventsOf(w.docs, w.polls[call].machine.id, sequences, events)
    case FinishPoll(call, now) =>
      && call in w.polls && w.polls[call].Scanned?
      && 0 <= NextSequence(w.polls[call].after, w.polls[call].sequences) <= Cursor.MAX_INT64
    case Crash(call) => true
    case Ack(machine, request, now) => true
  }

  ghost function Apply(w: World, step: Step): World {
    if !Enabled(w, step) then w
    else
      match step
      case Enqueue(event, machines, now) =>
        var docs := EnqueueDocs(w.docs, event, machines, now);
        if docs == w.docs then w
        else w.(docs := docs, addressed := w.addressed + NewSlots(machines, CurrentSequence(docs)))
      case StartPoll(call, machine, cursor, limit) =>
        var after := PollAfter(w.docs, machine, cursor, limit).value;
        w.(polls := w.polls[call := Started(machine, Name(cursor), limit, after)])
      case ScanPoll(call, events, sequences) =>
        var p := w.polls[call];
        w.(polls := w.polls[call := Scanned(p.machine, p.cursor, p.after, events, sequences)])
      case FinishPoll(call, now) =>
        var p := w.polls[call];
        w.(docs := RecordDocs(w.docs, p.machine, p.after, p.events, p.sequences, now),
           polls := w.polls - {call},
           recorded := w.recorded + Slots(p.machine.id, p.sequences),
           given := w.given + {Slot(p.machine.id, NextSequence(p.after, p.sequences))})
      case Crash(call) => w.(polls := w.polls - {call})
      case Ack(machine, request, now) => w.(docs := AckDocs(w.docs, machine, request, now))
  }

  ghost function Run(steps: seq<Step>): World {
    if steps == [] then START else Apply(Run(steps[..|steps| - 1]), steps[|steps| - 1])
  }

  /** The machine polls from the start or from a cursor a poll of its own was answered with. */
  ghost predicate UsesGivenCursor(w: World, step: Step) {
    step.StartPoll? && Cursor.Decode(step.cursor).Success? ==>
      Holds(w, step.machine.id, Cursor.Decode(step.cursor).value)
  }

  ghost predicate Holds(w: World, machine: Name, v: int) {
    v == 0 || Slot(machine, v) in w.given
  }

  ghost predicate Disciplined(steps: seq<Step>) {
    steps == [] || (Disciplined(steps[..|steps| - 1]) && UsesGivenCursor(Run(steps[..|steps| - 1]), steps[|steps| - 1]))
  }

  // ----- What every run keeps, whatever cursors are used -----

  predicate Matches(d: Documents, event: Event, sequence: int) {
    event.Valid() && event.id in d.markers && d.markers[event.id].sequence == sequence
  }

  /** Every marker is for its own event, in range, and no two share a sequence. */
  ghost predicate MarkersOk(d: Documents) {
    && 0 <= CurrentSequence(d) <= Cursor.MAX_INT64
    && (forall id | id in d.markers :: d.markers[id].eventId == id && 1 <= d.markers[id].sequence <= CurrentSequence(d))
    && (forall a, b | a in d.markers && b in d.markers && d.markers[a].sequence == d.markers[b].sequence :: a == b)
  }

  ghost predicate QueuesOk(w: World) {
    && WellKeyed(w.docs)
    && (forall k | k in w.docs.queues ::
           Slot(k.machine, k.sequence) in w.addressed && Matches(w.docs, w.docs.queues[k].event, k.sequence))
    && (forall slot | slot in w.addressed :: 1 <= slot.sequence <= CurrentSequence(w.docs))
  }

  /** An event leaves a machine's queue only after some batch of that machine's contained it. */
  ghost predicate Kept(w: World) {
    forall slot | slot in w.addressed :: QueueKey(slot.machine, slot.sequence) in w.docs.queues || slot in w.recorded
  }

  ghost predicate BatchOk(w: World, events: seq<Event>, sequences: seq<int>) {
    && |events| == |sequences| && IsStrict(sequences)
    && forall i | 0 <= i < |sequences| :: 1 <= sequences[i] <= CurrentSequence(w.docs)
        && Matches(w.docs, events[i], sequences[i])
  }

  ghost predicate ReceiptOk(w: World, k: ReceiptKey, r: Receipt) {
    && r.machine == k.machine && r.cursor == k.cursor && r.sequences != []
    && BatchOk(w, r.events, r.sequences)
    && (forall s | s in r.sequences :: Slot(r.machine, s) in w.recorded)
    && Cursor.Decode(r.cursor.text) == Success(r.sequences[|r.sequences| - 1])
  }

  ghost predicate ReceiptsOk(w: World) {
    forall k | k in w.docs.receipts :: ReceiptOk(w, k, w.docs.receipts[k])
  }

  /** No poll starts before its cursor. */
  predicate IsBeyond(cursor: Name, after: int) {
    Cursor.Decode(cursor.text).Success? && Cursor.Decode(cursor.text).value <= after
  }

  ghost predicate PollOk(w: World, p: PollCall) {
    && 0 <= p.after && IsBeyond(p.cursor, p.after)
    && (p.Scanned? ==> BatchOk(w, p.events, p.sequences) && forall s | s in p.sequences :: s > p.after)
  }

  ghost predicate PollsOk(w: World) {
    && (forall c | c in w.polls :: PollOk(w, w.polls[c]))
    && (forall m | m in w.docs.acks :: 0 <= w.docs.acks[m].sequence <= Cursor.MAX_INT64)
  }

  ghost predicate Sound(w: World) {
    MarkersOk(w.docs) && QueuesOk(w) && Kept(w) && ReceiptsOk(w) && PollsOk(w)
  }

  // ----- Each step keeps it -----

  lemma EntriesFacts(q: map<QueueKey, Queued>, machines: seq<Machine>, event: Event, n: int, now: int)
    ensures var e := q + QueueEntries(machines, event, n, now);
            && (forall k :: k in e <==> k in q || (k.sequence == n && k.machine in Ids(machines)))
            && (forall k | k in e && k.sequence != n :: e[k] == q[k])
            && (forall k | k in e && k.sequence == n && k.machine in Ids(machines) ::
                  e[k].sequence == n && e[k].machine == k.machine && e[k].event == event)
  {
    forall k: QueueKey
      ensures k in QueueKeys(machines, n) <==> k.sequence == n && k.machine in Ids(machines)
    {
      assert k == QueueKey(k.machine, k.sequence);
    }
  }

  /** What an enqueue that admits its event does, collection by collection. */
  lemma AdmittedFacts(d: Documents, event: Event, machines: seq<Machine>, now: int)
    requires EnqueueAnswer(d, event, machines).Success? && EnqueueAnswer(d, event, machines).value.Enqueued?
    requires CurrentSequence(d) <= Cursor.MAX_INT64
    ensures var e := EnqueueDocs(d, event, machines, now);
            var n := CurrentSequence(d) + 1;
            && event.Valid() && event.id !in d.markers && 1 <= n <= Cursor.MAX_INT64
            && CurrentSequence(e) == n && e.markers == d.markers[event.id := Marker(event.id, n, now)]
            && e.receipts == d.receipts && e.acks == d.acks
            && e.queues == d.queues + QueueEntries(machines, event, n, now)
            && e.pending == d.pending + PendingEntries(machines, event, now)
  {
  }

  lemma RefusedFacts(d: Documents, event: Event, machines: seq<Machine>, now: int)
    requires EnqueueAnswer(d, event, machines).Failure? || EnqueueAnswer(d, event, machines).value.Duplicate?
    ensures EnqueueDocs(d, event, machines, now) == d
  {
  }

  /** A later state in which documents only accumulated keeps batches and receipts good. */
  ghost predicate Extends(d: Documents, e: Documents) {
    && CurrentSequence(d) <= CurrentSequence(e)
    && forall id | id in d.markers :: id in e.markers && e.markers[id] == d.markers[id]
  }

  lemma BatchStaysOk(w: World, v: World, events: seq<Event>, sequences: seq<int>)
    requires BatchOk(w, events, sequences) && Extends(w.docs, v.docs)
    ensures BatchOk(v, events, sequences)
  {
  }

  lemma ReceiptsStayOk(w: World, v: World)
    requires ReceiptsOk(w) && Extends(w.docs, v.docs) && v.docs.receipts == w.docs.receipts && w.recorded <= v.recorded
    ensures ReceiptsOk(v)
  {
    forall k | k in v.docs.receipts
      ensures ReceiptOk(v, k, v.docs.receipts[k])
    {
      var r := w.docs.receipts[k];
      assert ReceiptOk(w, k, r);
      BatchStaysOk(w, v, r.events, r.sequences);
    }
  }

  lemma PollsStayOk(w: World, v: World)
    requires PollsOk(w) && Extends(w.docs, v.docs) && v.docs.acks == w.docs.acks
    requires forall c | c in v.polls :: c in w.polls && v.polls[c] == w.polls[c]
    ensures PollsOk(v)
  {
    forall c | c in v.polls
      ensures PollOk(v, v.polls[c])
    {
      assert PollOk(w, w.polls[c]);
      if v.polls[c].Scanned? {
        BatchStaysOk(w, v, v.polls[c].events, v.polls[c].sequences);
      }
    }
  }

  lemma EnqueueIsSound(w: World, step: Step)
    requires Sound(w) && step.Enqueue?
    ensures Sound(Apply(w, step))
  {
    var v := Apply(w, step);
    var answer := EnqueueAnswer(w.docs, step.event, step.machines);
    if answer.Success? && answer.value.Enqueued? {
      AdmittedFacts(w.docs, step.event, step.machines, step.now);
      AdmittedMarkersOk(w.docs, v.docs, step.event, step.now);
      ReceiptsStayOk(w, v);
      PollsStayOk(w, v);
      AdmittedQueuesOk(w, v, step.machines, step.event, step.now);
      AdmittedIsKept(w, v, step.machines, step.event, CurrentSequence(v.docs), step.now);
    } else {
      RefusedFacts(w.docs, step.event, step.machines, step.now);
    }
  }

  lemma AdmittedMarkersOk(d: Documents, e: Documents, event: Event, now: int)
    requires MarkersOk(d) && event.id !in d.markers && CurrentSequence(d) < Cursor.MAX_INT64
    requires CurrentSequence(e) == CurrentSequence(d) + 1
    requires e.markers == d.markers[event.id := Marker(event.id, CurrentSequence(e), now)]
    ensures MarkersOk(e) && Extends(d, e)
  {
  }

  lemma AdmittedQueuesOk(w: World, v: World, machines: seq<Machine>, event: Event, now: int)
    requires MarkersOk(w.docs) && QueuesOk(w) && Extends(w.docs, v.docs) && v.recorded == w.recorded
    requires CurrentSequence(v.docs) == CurrentSequence(w.docs) + 1 && Matches(v.docs, event, CurrentSequence(v.docs))
    requires v.docs.queues == w.docs.queues + QueueEntries(machines, event, CurrentSequence(v.docs), now)
    requires v.addressed == w.addressed + NewSlots(machines, CurrentSequence(v.docs))
    ensures QueuesOk(v)
  {
    var n := CurrentSequence(v.docs);
    EntriesFacts(w.docs.queues, machines, event, n, now);
    forall k | k in v.docs.queues
      ensures Slot(k.machine, k.sequence) in v.addressed && Matches(v.docs, v.docs.queues[k].event, k.sequence)
    {
      if k.sequence == n {
        assert k in w.docs.queues ==> Slot(k.machine, k.sequence) in w.addressed;
        assert Slot(k.machine, n) in NewSlots(machines, n);
      } else {
        assert Matches(w.docs, w.docs.queues[k].event, k.sequence);
      }
    }
  }

  lemma AdmittedIsKept(w: World, v: World, machines: seq<Machine>, event: Event, n: int, now: int)
    requires Kept(w) && v.recorded == w.recorded
    requires v.docs.queues == w.docs.queues + QueueEntries(machines, event, n, now)
    requires v.addressed == w.addressed + NewSlots(machines, n)
    ensures Kept(v)
  {
    EntriesFacts(w.docs.queues, machines, event, n, now);
  }

  lemma ScanIsSound(w: World, step: Step)
    requires Sound(w) && step.ScanPoll? && Enabled(w, step)
    ensures Sound(Apply(w, step))
  {
    var v, p := Apply(w, step), w.polls[step.call];
    assert PollOk(w, p);
    forall i | 0 <= i < |step.sequences|
      ensures 1 <= step.sequences[i] <= CurrentSequence(w.docs) && Matches(w.docs, step.events[i], step.sequences[i])
      ensures step.sequences[i] > p.after
    {
      var k := QueueKey(p.machine.id, step.sequences[i]);
      assert step.sequences[i] in step.sequences;
      assert k in w.docs.queues && Slot(k.machine, k.sequence) in w.addressed;
    }
    forall c | c in v.polls
      ensures PollOk(v, v.polls[c])
    {
      if c != step.call {
        assert PollOk(w, w.polls[c]);
      }
    }
    ReceiptsStayOk(w, v);
  }

  lemma RecordedIsOk(w: World, v: World, p: PollCall, cursor: Name, now: int)
    requires p.Scanned? && PollOk(w, p) && p.sequences != [] && Extends(w.docs, v.docs)
    requires v.recorded == w.recorded + Slots(p.machine.id, p.sequences)
    requires Cursor.Decode(cursor.text) == Success(p.sequences[|p.sequences| - 1])
    ensures ReceiptOk(v, ReceiptKey(p.machine.id, cursor),
        Receipt(p.machine.id, p.machine.identity, cursor, p.events, p.sequences, now))
  {
    BatchStaysOk(w, v, p.events, p.sequences);
    forall s | s in p.sequences
      ensures Slot(p.machine.id, s) in v.recorded
    {
      assert Slot(p.machine.id, s) in Slots(p.machine.id, p.sequences);
    }
  }

  lemma FinishIsSound(w: World, step: Step)
    requires Sound(w) && step.FinishPoll? && Enabled(w, step)
    ensures Sound(Apply(w, step))
  {
    var v, p := Apply(w, step), w.polls[step.call];
    assert PollOk(w, p);
    PollsStayOk(w, v);
    var next := NextSequence(p.after, p.sequences);
    Cursor.EncodeThenDecode(next);
    var cursor := Name(Cursor.Encode(next));
    if p.events != [] {
      RecordedIsOk(w, v, p, cursor, step.now);
    }
    forall k | k in v.docs.receipts
      ensures ReceiptOk(v, k, v.docs.receipts[k])
    {
      if k != ReceiptKey(p.machine.id, cursor) || p.events == [] {
        assert ReceiptOk(w, k, v.docs.receipts[k]);
      }
    }
  }

  /** What an accepted acknowledgement does, collection by collection. */
  lemma AckFacts(d: Documents, machine: Machine, request: AckRequest, now: int)
    requires AckAnswer(d, machine, request).Success?
    ensures var e := AckDocs(d, machine, request, now);
            var k := ReceiptKey(machine.id, request.cursor);
            && k in d.receipts && d.receipts[k].machine == machine.id && d.receipts[k].identity == machine.identity
            && e.sequence == d.sequence && e.markers == d.markers && e.receipts == d.receipts
            && e.queues == d.queues - AckedQueueKeys(machine.id, d.receipts[k].sequences)
            && e.pending == d.pending - AckedPendingKeys(machine, d.receipts[k].events)
            && Cursor.Decode(request.cursor.text).Success? && Cursor.Decode(request.cursor.text).value >= 1
            && (forall m | m != machine.id :: m in e.acks <==> m in d.acks)
            && (forall m | m != machine.id && m in d.acks :: e.acks[m] == d.acks[m])
            && AckSequence(e, machine.id) ==
                 (if Cursor.Decode(request.cursor.text).value > AckSequence(d, machine.id)
                  then Cursor.Decode(request.cursor.text).value else AckSequence(d, machine.id))
            && (Cursor.Decode(request.cursor.text).value <= AckSequence(d, machine.id)
                ==> e.acks == d.acks && e.statuses == d.statuses)
  {
  }

  lemma AckedQueuesOk(w: World, v: World, gone: set<QueueKey>)
    requires QueuesOk(w) && Kept(w) && v.docs.markers == w.docs.markers && v.docs.sequence == w.docs.sequence
    requires v.docs.queues == w.docs.queues - gone && v.addressed == w.addressed && v.recorded == w.recorded
    requires forall k | k in gone :: Slot(k.machine, k.sequence) in w.recorded
    ensures QueuesOk(v) && Kept(v)
  {
    forall slot | slot in v.addressed
      ensures QueueKey(slot.machine, slot.sequence) in v.docs.queues || slot in v.recorded
    {
      var k := QueueKey(slot.machine, slot.sequence);
      assert Slot(k.machine, k.sequence) == slot;
    }
    forall k | k in v.docs.queues
      ensures Matches(v.docs, v.docs.queues[k].event, k.sequence)
    {
      assert Matches(w.docs, w.docs.queues[k].event, k.sequence);
    }
  }

  lemma AckIsSound(w: World, step: Step)
    requires Sound(w) && step.Ack?
    ensures Sound(Apply(w, step))
  {
    var v := Apply(w, step);
    if AckAnswer(w.docs, step.machine, step.request).Success? {
      AckFacts(w.docs, step.machine, step.request, step.now);
      AckedIsSound(w, v, step.machine.id, ReceiptKey(step.machine.id, step.request.cursor));
    }
  }

  lemma AckedIsSound(w: World, v: World, machine: Name, k: ReceiptKey)
    requires Sound(w) && k in w.docs.receipts && k.machine == machine
    requires v == w.(docs := v.docs) && v.docs.markers == w.docs.markers && v.docs.sequence == w.docs.sequence
    requires v.docs.receipts == w.docs.receipts && v.docs.queues
        == w.docs.queues - AckedQueueKeys(machine, w.docs.receipts[k].sequences)
    requires forall m | m in v.docs.acks :: 0 <= AckSequence(v.docs, m) <= Cursor.MAX_INT64
    ensures Sound(v)
  {
    assert ReceiptOk(w, k, w.docs.receipts[k]);
    ReceiptsStayOk(w, v);
    AckedQueuesOk(w, v, AckedQueueKeys(machine, w.docs.receipts[k].sequences));
    AckedPollsOk(w, v);
  }

  lemma AckedPollsOk(w: World, v: World)
    requires PollsOk(w) && v.polls == w.polls && v.docs.markers == w.docs.markers && v.docs.sequence == w.docs.sequence
    requires forall m | m in v.docs.acks :: 0 <= AckSequence(v.docs, m) <= Cursor.MAX_INT64
    ensures PollsOk(v)
  {
    forall c | c in v.polls
      ensures PollOk(v, v.polls[c])
    {
      assert PollOk(w, w.polls[c]);
    }
    assert forall m | m in v.docs.acks :: AckSequence(v.docs, m) == v.docs.acks[m].sequence;
  }

  lemma StepIsSound(w: World, step: Step)
    requires Sound(w)
    ensures Sound(Apply(w, step))
  {
    if Enabled(w, step) {
      match step
      case Enqueue(_, _, _) => EnqueueIsSound(w, step);
      case StartPoll(call, machine, cursor, limit) =>
        var v := Apply(w, step);
        ReceiptsStayOk(w, v);
        assert forall c | c in v.polls && c != call :: PollOk(w, w.polls[c]);
      case ScanPoll(_, _, _) => ScanIsSound(w, step);
      case FinishPoll(_, _) => FinishIsSound(w, step);
      case Crash(call) =>
        ReceiptsStayOk(w, Apply(w, step));
        PollsStayOk(w, Apply(w, step));
      case Ack(_, _, _) => AckIsSound(w, step);
    }
  }

  lemma {:induction false} RunIsSound(steps: seq<Step>)
    ensures Sound(Run(steps))
  {
    if steps != [] {
      RunIsSound(steps[..|steps| - 1]);
      StepIsSound(Run(steps[..|steps| - 1]), steps[|steps| - 1]);
    }
  }

  // ----- No event is lost -----

  /** Every event enqueued for the machine up to v has been in some recorded batch of the machine's. */
  ghost predicate Covered(w: World, machine: Name, v: int) {
    && 0 <= v <= CurrentSequence(w.docs)
    && forall slot | slot in w.addressed && slot.machine == machine && slot.sequence <= v :: slot in w.recorded
  }

  ghost predicate PollCovered(w: World, p: PollCall) {
    && Covered(w, p.machine.id, p.after)
    && (p.Scanned? ==>
          && 0 <= NextSequence(p.after, p.sequences) <= CurrentSequence(w.docs)
          && forall slot | slot in w.addressed && slot.machine == p.machine.id
              && slot.sequence <= NextSequence(p.after, p.sequences) ::
               slot.sequence in p.sequences || slot in w.recorded)
  }

  ghost predicate ReceiptCovered(w: World, k: ReceiptKey) {
    Cursor.Decode(k.cursor.text).Success? ==> Covered(w, k.machine, Cursor.Decode(k.cursor.text).value)
  }

  ghost predicate AllCovered(w: World) {
    && (forall slot | slot in w.given :: Covered(w, slot.machine, slot.sequence))
    && (forall m | m in w.docs.acks :: Covered(w, m, w.docs.acks[m].sequence))
    && (forall k | k in w.docs.receipts :: ReceiptCovered(w, k))
    && (forall c | c in w.polls :: PollCovered(w, w.polls[c]))
  }

  /** Slots are only ever added beyond the current sequence, and what was recorded stays recorded. */
  ghost predicate Grows(w: World, v: World) {
    && CurrentSequence(w.docs) <= CurrentSequence(v.docs) && w.recorded <= v.recorded
    && forall slot | slot in v.addressed :: slot in w.addressed || slot.sequence > CurrentSequence(w.docs)
  }

  lemma StepGrows(w: World, step: Step)
    requires Sound(w)
    ensures Grows(w, Apply(w, step))
  {
    if step.Enqueue? {
      var answer := EnqueueAnswer(w.docs, step.event, step.machines);
      if answer.Success? && answer.value.Enqueued? {
        AdmittedFacts(w.docs, step.event, step.machines, step.now);
      } else {
        RefusedFacts(w.docs, step.event, step.machines, step.now);
      }
    } else if step.Ack? && AckAnswer(w.docs, step.machine, step.request).Success? {
      AckFacts(w.docs, step.machine, step.request, step.now);
    }
  }

  lemma PollStaysCovered(w: World, v: World, p: PollCall)
    requires PollCovered(w, p) && Grows(w, v)
    ensures PollCovered(v, p)
  {
  }

  lemma AllStayCovered(w: World, v: World)
    requires AllCovered(w) && Grows(w, v)
    ensures forall slot | slot in w.given :: Covered(v, slot.machine, slot.sequence)
    ensures forall m | m in w.docs.acks :: Covered(v, m, w.docs.acks[m].sequence)
    ensures forall k | k in w.docs.receipts :: ReceiptCovered(v, k)
    ensures forall c | c in w.polls :: PollCovered(v, w.polls[c])
  {
    forall k | k in w.docs.receipts
      ensures ReceiptCovered(v, k)
    {
      assert ReceiptCovered(w, k);
    }
    forall c | c in w.polls
      ensures PollCovered(v, w.polls[c])
    {
      PollStaysCovered(w, v, w.polls[c]);
    }
  }

  lemma StartIsCovered(w: World, step: Step)
    requires Sound(w) && AllCovered(w) && step.StartPoll? && Enabled(w, step) && UsesGivenCursor(w, step)
    ensures AllCovered(Apply(w, step))
  {
    var after := PollAfter(w.docs, step.machine, step.cursor, step.limit).value;
    assert Covered(w, step.machine.id, after);
    StepGrows(w, step);
    AllStayCovered(w, Apply(w, step));
  }

  /** Whatever the scan passes over is either in its batch or was recorded before. */
  lemma ScanIsCovered(w: World, p: PollCall, limit: int, events: seq<Event>, sequences: seq<int>)
    requires Sound(w) && PollCovered(w, p)
    requires IsBatch(w.docs, p.machine.id, p.after, limit, sequences)
    ensures PollCovered(w, Scanned(p.machine, p.cursor, p.after, events, sequences))
  {
    if sequences != [] {
      var last := sequences[|sequences| - 1];
      assert last in sequences;
      assert Slot(p.machine.id, last) in w.addressed by {
        assert QueueKey(p.machine.id, last) in w.docs.queues;
      }
    }
    forall slot | slot in w.addressed && slot.machine == p.machine.id
        && slot.sequence <= NextSequence(p.after, sequences)
      ensures slot.sequence in sequences || slot in w.recorded
    {
      var k := QueueKey(slot.machine, slot.sequence);
      assert k in w.docs.queues || slot in w.recorded;
    }
  }

  lemma FinishIsCovered(w: World, step: Step)
    requires Sound(w) && AllCovered(w) && step.FinishPoll? && Enabled(w, step)
    ensures AllCovered(Apply(w, step))
  {
    var v, p := Apply(w, step), w.polls[step.call];
    StepGrows(w, step);
    AllStayCovered(w, v);
    var next := NextSequence(p.after, p.sequences);
    assert Covered(v, p.machine.id, next) by {
      assert PollCovered(w, p);
      forall slot | slot in v.addressed && slot.machine == p.machine.id && slot.sequence <= next
        ensures slot in v.recorded
      {
        if slot.sequence in p.sequences {
          assert slot in Slots(p.machine.id, p.sequences);
        }
      }
    }
    Cursor.EncodeThenDecode(next);
    var key := ReceiptKey(p.machine.id, Name(Cursor.Encode(next)));
    forall k | k in v.docs.receipts
      ensures ReceiptCovered(v, k)
    {
      assert k == key || k in w.docs.receipts;
    }
  }

  lemma AckMovesToCovered(w: World, v: World, machine: Name, n: int)
    requires n >= 1 && Covered(v, machine, n)
    requires forall m | m in w.docs.acks :: Covered(v, m, w.docs.acks[m].sequence)
    requires forall m | m != machine && m in v.docs.acks :: m in w.docs.acks && v.docs.acks[m] == w.docs.acks[m]
    requires AckSequence(v.docs, machine) == if n > AckSequence(w.docs, machine) then n
        else AckSequence(w.docs, machine)
    ensures forall m | m in v.docs.acks :: Covered(v, m, v.docs.acks[m].sequence)
  {
    forall m | m in v.docs.acks
      ensures Covered(v, m, v.docs.acks[m].sequence)
    {
      assert v.docs.acks[m].sequence == AckSequence(v.docs, m);
    }
  }

  lemma AckIsCovered(w: World, step: Step)
    requires Sound(w) && AllCovered(w) && step.Ack?
    ensures AllCovered(Apply(w, step))
  {
    var v := Apply(w, step);
    StepGrows(w, step);
    AllStayCovered(w, v);
    if AckAnswer(w.docs, step.machine, step.request).Success? {
      AckFacts(w.docs, step.machine, step.request, step.now);
      assert ReceiptCovered(v, ReceiptKey(step.machine.id, step.request.cursor));
      AckMovesToCovered(w, v, step.machine.id, Cursor.Decode(step.request.cursor.text).value);
    }
  }

  lemma EnqueueIsCovered(w: World, step: Step)
    requires Sound(w) && AllCovered(w) && step.Enqueue?
    ensures AllCovered(Apply(w, step))
  {
    var v := Apply(w, step);
    StepGrows(w, step);
    AllStayCovered(w, v);
    var answer := EnqueueAnswer(w.docs, step.event, step.machines);
    if answer.Success? && answer.value.Enqueued? {
      AdmittedFacts(w.docs, step.event, step.machines, step.now);
    } else {
      RefusedFacts(w.docs, step.event, step.machines, step.now);
    }
  }

  lemma ScanStepIsCovered(w: World, step: Step)
    requires Sound(w) && AllCovered(w) && step.ScanPoll? && Enabled(w, step)
    ensures AllCovered(Apply(w, step))
  {
    var p := w.polls[step.call];
    ScanIsCovered(w, p, p.limit, step.events, step.sequences);
    OnePollIsCovered(w, Apply(w, step), step.call, Scanned(p.machine, p.cursor, p.after, step.events, step.sequences));
  }

  lemma OnePollIsCovered(w: World, v: World, call: nat, p: PollCall)
    requires AllCovered(w) && PollCovered(w, p) && v == w.(polls := w.polls[call := p])
    ensures AllCovered(v)
  {
    AllStayCovered(w, v);
  }

  lemma StepIsCovered(w: World, step: Step)
    requires Sound(w) && AllCovered(w) && UsesGivenCursor(w, step)
    ensures AllCovered(Apply(w, step))
  {
    if Enabled(w, step) {
      match step
      case Enqueue(_, _, _) => EnqueueIsCovered(w, step);
      case StartPoll(_, _, _, _) => StartIsCovered(w, step);
      case ScanPoll(_, _, _) => ScanStepIsCovered(w, step);
      case FinishPoll(_, _) => FinishIsCovered(w, step);
      case Crash(_) =>
      case Ack(_, _, _) => AckIsCovered(w, step);
    }
  }

  lemma {:induction false} RunIsCovered(steps: seq<Step>)
    requires Disciplined(steps)
    ensures AllCovered(Run(steps))
  {
    if steps != [] {
      var before := steps[..|steps| - 1];
      RunIsCovered(before);
      RunIsSound(before);
      StepIsCovered(Run(before), steps[|steps| - 1]);
    }
  }

  /**
   No event is lost: in every run in which machines poll with cursors they were given, an event
   enqueued for a machine is still queued beyond what the machine acknowledged, or a batch recorded
   for the machine contained it.
   */
  lemma NoEventIsLost(steps: seq<Step>, slot: Slot)
    requires Disciplined(steps) && slot in Run(steps).addressed
    ensures var w := Run(steps);
            || slot in w.recorded
            || (QueueKey(slot.machine, slot.sequence) in w.docs.queues
                && slot.sequence > AckSequence(w.docs, slot.machine))
  {
    RunIsSound(steps);
    RunIsCovered(steps);
    var w := Run(steps);
    if slot.machine in w.docs.acks {
      assert Covered(w, slot.machine, w.docs.acks[slot.machine].sequence);
    }
  }

  /** An event no batch has contained yet is still ahead of every poll the machine can make. */
  lemma UndeliveredIsAhead(steps: seq<Step>, slot: Slot, machine: Machine, cursor: string, limit: int)
    requires Disciplined(steps) && slot in Run(steps).addressed && slot !in Run(steps).recorded
    requires machine.id == slot.machine && PollAfter(Run(steps).docs, machine, cursor, limit).Success?
    requires UsesGivenCursor(Run(steps), StartPoll(0, machine, cursor, limit))
    ensures slot.sequence > PollAfter(Run(steps).docs, machine, cursor, limit).value
    ensures QueueKey(slot.machine, slot.sequence) in Run(steps).docs.queues
  {
    RunIsSound(steps);
    RunIsCovered(steps);
    var w := Run(steps);
    assert Kept(w);
    var v := Cursor.Decode(cursor).value;
    if v != 0 {
      assert Covered(w, slot.machine, v);
    }
    if slot.machine in w.docs.acks {
      assert Covered(w, slot.machine, w.docs.acks[slot.machine].sequence);
    }
  }
}
