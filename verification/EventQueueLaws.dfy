/** Further laws of the event store: exactly-once queueing, acknowledgement, and the pending-refresh view. */
module EventQueueLaws {
  import opened Wrappers
  import opened EventQueue
  import opened EventQueueRuns
  import Cursor

  // ----- Exactly-once queueing -----

  /** In every run, an event has one sequence, a sequence has one event, and a scan of a queue cannot fail. */
  lemma OneSequencePerEvent(steps: seq<Step>)
    ensures var d := Run(steps).docs;
            && (forall j, k | j in d.queues && k in d.queues ::
                  d.queues[j].event.id == d.queues[k].event.id <==> j.sequence == k.sequence)
            && WellKeyed(d) && (forall k | k in d.queues :: 1 <= k.sequence <= Cursor.MAX_INT64)
            && forall m | m in d.acks :: AckSequence(d, m) <= Cursor.MAX_INT64
  {
    RunIsSound(steps);
    var w := Run(steps);
    forall k | k in w.docs.queues
      ensures Matches(w.docs, w.docs.queues[k].event, k.sequence) && 1 <= k.sequence <= Cursor.MAX_INT64
    {
      assert Slot(k.machine, k.sequence) in w.addressed;
    }
  }

  /** Documents a run only accumulates, and slots it cannot fill again. */
  ghost predicate Later(w: World, v: World) {
    && Extends(w.docs, v.docs) && w.addressed <= v.addressed
    && forall slot | slot in w.addressed && QueueKey(slot.machine, slot.sequence) !in w.docs.queues ::
         QueueKey(slot.machine, slot.sequence) !in v.docs.queues
  }

  lemma EnqueueIsLater(w: World, event: Event, machines: seq<Machine>, now: int)
    requires Sound(w)
    ensures Later(w, Apply(w, Enqueue(event, machines, now)))
  {
    var answer := EnqueueAnswer(w.docs, event, machines);
    if answer.Success? && answer.value.Enqueued? {
      AdmittedFacts(w.docs, event, machines, now);
      EntriesFacts(w.docs.queues, machines, event, CurrentSequence(w.docs) + 1, now);
      AdmittedStep(w, event, machines, now);
    } else {
      RefusedFacts(w.docs, event, machines, now);
    }
  }

  lemma StepIsLater(w: World, step: Step)
    requires Sound(w)
    ensures Later(w, Apply(w, step))
  {
    if step.Enqueue? {
      EnqueueIsLater(w, step.event, step.machines, step.now);
    } else if step.Ack? && AckAnswer(w.docs, step.machine, step.request).Success? {
      AckFacts(w.docs, step.machine, step.request, step.now);
    }
  }

  lemma {:induction false} RunIsLater(steps: seq<Step>, more: seq<Step>)
    ensures Later(Run(steps), Run(steps + more))
    decreases |more|
  {
    if more == [] {
      assert steps + more == steps;
    } else {
      var init := more[..|more| - 1];
      RunIsLater(steps, init);
      RunIsSound(steps + init);
      assert (steps + more)[..|steps + more| - 1] == steps + init;
      StepIsLater(Run(steps + init), more[|more| - 1]);
      LaterIsTransitive(Run(steps), Run(steps + init), Run(steps + more));
    }
  }

  lemma LaterIsTransitive(u: World, v: World, w: World)
    requires Later(u, v) && Later(v, w)
    ensures Later(u, w)
  {
  }

  /**
   Once an event has left a machine's queue it never re-enters it, however often and for whichever
   machines it is delivered again, and its sequence never changes.
   */
  lemma RetiredStaysOut(steps: seq<Step>, more: seq<Step>, slot: Slot)
    requires slot in Run(steps).addressed && QueueKey(slot.machine, slot.sequence) !in Run(steps).docs.queues
    ensures QueueKey(slot.machine, slot.sequence) !in Run(steps + more).docs.queues
    ensures forall id | id in Run(steps).docs.markers ::
              id in Run(steps + more).docs.markers && Run(steps + more).docs.markers[id] == Run(steps).docs.markers[id]
  {
    RunIsLater(steps, more);
  }

  /** Enqueueing an admitted event again, for any machines, is answered as a duplicate and changes nothing. */
  lemma EnqueueTwice(d: Documents, event: Event, machines: seq<Machine>, now: int, others: seq<Machine>, later: int)
    requires 0 <= CurrentSequence(d) <= Cursor.MAX_INT64
    requires EnqueueAnswer(d, event, machines).Success? && EnqueueAnswer(d, event, machines).value.Enqueued?
    requires (forall m | m in others :: m.Valid()) && |Ids(others)| <= MAX_FANOUT
    ensures var e := EnqueueDocs(d, event, machines, now);
            EnqueueAnswer(e, event, others) == Success(Duplicate) && EnqueueDocs(e, event, others, later) == e
  {
    AdmittedFacts(d, event, machines, now);
  }

  // ----- Polls move on -----

  /** Step n finishes a poll, and records what it scanned. */
  ghost predicate Finishes(steps: seq<Step>, n: nat, p: PollCall) {
    && n < |steps| && steps[n].FinishPoll? && Enabled(Run(steps[..n]), steps[n])
    && Run(steps[..n]).polls[steps[n].call] == p
  }

  lemma FinishedIsOk(steps: seq<Step>, n: nat, p: PollCall)
    requires Finishes(steps, n, p)
    ensures p.Scanned? && IsStrict(p.sequences) && IsBeyond(p.cursor, p.after)
    ensures forall s | s in p.sequences :: s > p.after
    ensures 0 <= NextSequence(p.after, p.sequences) <= Cursor.MAX_INT64
  {
    RunIsSound(steps[..n]);
    assert PollOk(Run(steps[..n]), p);
  }

  /**
   A machine that polls with the cursor an earlier poll was answered with is handed nothing that poll
   handed out, and nothing from before it: every sequence of the one comes after every sequence of the other.
   */
  lemma NextPollMovesOn(steps: seq<Step>, i: nat, j: nat, p: PollCall, q: PollCall)
    requires Finishes(steps, i, p) && Finishes(steps, j, q)
    requires 0 <= NextSequence(p.after, p.sequences) <= Cursor.MAX_INT64
    requires q.cursor == Name(Cursor.Encode(NextSequence(p.after, p.sequences)))
    ensures forall s, t | s in p.sequences && t in q.sequences :: s < t
    ensures Slots(p.machine.id, p.sequences) !! Slots(q.machine.id, q.sequences)
  {
    FinishedIsOk(steps, i, p);
    FinishedIsOk(steps, j, q);
    var next := NextSequence(p.after, p.sequences);
    Cursor.EncodeThenDecode(next);
    NoneIsHigher(p.after, p.sequences);
  }

  lemma NoneIsHigher(after: int, sequences: seq<int>)
    requires IsStrict(sequences)
    ensures forall s | s in sequences :: s <= NextSequence(after, sequences)
  {
  }

  /** The start of a poll: its cursor's sequence, or the acknowledged one if that is later. */
  lemma NextIsBatch(d: Documents, machine: Name, from: int, after: int, limit: int, b: seq<int>)
    requires IsNextBatch(d, machine, from, AckSequence(d, machine), limit, b)
    requires after >= from && after >= AckSequence(d, machine) && (after == from || after == AckSequence(d, machine))
    ensures IsBatch(d, machine, after, limit, b)
  {
    forall k | k in d.queues && k.machine == machine && k.sequence > after && k.sequence !in b
      ensures |b| == limit && (b == [] || k.sequence > b[|b| - 1])
    {
      if b != [] { assert b[|b| - 1] in b; }
    }
  }

  /** A poll nothing comes between is its three steps: the same documents, and the batch it hands out is recorded. */
  lemma PollIsSteps(w: World, e: Documents, machine: Machine, cursor: string, limit: int, now: int,
      r: Result<PollResponse, Error>, b: seq<int>, events: seq<Event>)
    requires w.polls == map[] && machine.Valid() && 1 <= limit <= MAX_LIMIT && Cursor.Decode(cursor).Success?
    requires AckSequence(w.docs, machine.id) >= 0
    requires IsHandedOut(w.docs, e, machine, cursor, Cursor.Decode(cursor).value, limit, now, r, b, events)
    ensures var u := Apply(w, StartPoll(0, machine, cursor, limit));
            var v := Apply(Apply(u, ScanPoll(0, events, b)), FinishPoll(0, now));
            v.docs == e && v.recorded == w.recorded + Slots(machine.id, b)
  {
    PollStartsBeyond(w.docs, machine, cursor, limit);
    var after := PollAfter(w.docs, machine, cursor, limit).value;
    NextIsBatch(w.docs, machine.id, Cursor.Decode(cursor).value, after, limit, b);
    var u := Apply(w, StartPoll(0, machine, cursor, limit));
    assert u == w.(polls := map[0 := Started(machine, Name(cursor), limit, after)]);
    ScanAndFinish(u, machine, Name(cursor), limit, after, b, events, now);
  }

  lemma ScanAndFinish(u: World, machine: Machine, cursor: Name, limit: int, after: int, b: seq<int>, events: seq<Event>,
      now: int)
    requires u.polls == map[0 := Started(machine, cursor, limit, after)]
    requires IsBatch(u.docs, machine.id, after, limit, b) && AreEventsOf(u.docs, machine.id, b, events)
    requires 0 <= NextSequence(after, b) <= Cursor.MAX_INT64
    ensures var v := Apply(Apply(u, ScanPoll(0, events, b)), FinishPoll(0, now));
            && v.docs == RecordDocs(u.docs, machine, after, events, b, now)
            && v.recorded == u.recorded + Slots(machine.id, b)
  {
    var s := Apply(u, ScanPoll(0, events, b));
    assert s == u.(polls := map[0 := Scanned(machine, cursor, after, events, b)]);
  }

  // ----- Acknowledgement -----

  lemma StepNeverRetreats(w: World, step: Step, machine: Name)
    requires 0 <= CurrentSequence(w.docs) <= Cursor.MAX_INT64
    ensures AckSequence(Apply(w, step).docs, machine) >= AckSequence(w.docs, machine)
  {
    if step.Enqueue? {
      var answer := EnqueueAnswer(w.docs, step.event, step.machines);
      if answer.Success? && answer.value.Enqueued? {
        AdmittedFacts(w.docs, step.event, step.machines, step.now);
      } else {
        RefusedFacts(w.docs, step.event, step.machines, step.now);
      }
    } else if step.Ack? && AckAnswer(w.docs, step.machine, step.request).Success? {
      AckFacts(w.docs, step.machine, step.request, step.now);
    }
  }

  lemma NextNeverRetreats(steps: seq<Step>, step: Step, machine: Name)
    ensures AckSequence(Apply(Run(steps), step).docs, machine) >= AckSequence(Run(steps).docs, machine)
  {
    RunIsSound(steps);
    StepNeverRetreats(Run(steps), step, machine);
  }

  /** A machine's acknowledged sequence never decreases. */
  lemma {:induction false} AckNeverRetreats(steps: seq<Step>, more: seq<Step>, machine: Name)
    ensures AckSequence(Run(steps + more).docs, machine) >= AckSequence(Run(steps).docs, machine)
    decreases |more|
  {
    if more == [] {
      assert steps + more == steps;
    } else {
      var init := more[..|more| - 1];
      AckNeverRetreats(steps, init, machine);
      assert (steps + more)[..|steps + more| - 1] == steps + init;
      NextNeverRetreats(steps + init, more[|more| - 1], machine);
    }
  }

  /** Repeating an acknowledgement at once gives the same answer and changes no document. */
  lemma AckTwice(d: Documents, machine: Machine, request: AckRequest, now: int, later: int)
    ensures var e := AckDocs(d, machine, request, now);
            AckAnswer(e, machine, request) == AckAnswer(d, machine, request) && AckDocs(e, machine, request, later) == e
  {
    if AckAnswer(d, machine, request).Success? {
      var e := AckDocs(d, machine, request, now);
      AckFacts(d, machine, request, now);
      AckAnswersAgain(d, e, machine, request);
      AckFacts(e, machine, request, later);
      AckLeaves(e, AckDocs(e, machine, request, later), machine, d.receipts[ReceiptKey(machine.id, request.cursor)],
          d.queues, d.pending);
    }
  }

  lemma AckAnswersAgain(d: Documents, e: Documents, machine: Machine, request: AckRequest)
    requires AckAnswer(d, machine, request).Success? && e.receipts == d.receipts
    requires AckSequence(e, machine.id) >= AckSequence(d, machine.id)
    ensures AckAnswer(e, machine, request) == AckAnswer(d, machine, request)
  {
  }

  lemma AckLeaves(e: Documents, f: Documents, machine: Machine, r: Receipt, queues: map<QueueKey, Queued>,
      pending: map<PendingKey, Pending>)
    requires f == e.(queues := f.queues, pending := f.pending)
    requires e.queues == queues - AckedQueueKeys(machine.id, r.sequences)
    requires f.queues == e.queues - AckedQueueKeys(machine.id, r.sequences)
    requires e.pending == pending - AckedPendingKeys(machine, r.events)
    requires f.pending == e.pending - AckedPendingKeys(machine, r.events)
    ensures f == e
  {
    assert f.queues == e.queues && f.pending == e.pending;
  }

  /** An acknowledgement is taken only for exactly the events of a batch recorded for that very machine. */
  lemma AckNamesItsBatch(d: Documents, machine: Machine, request: AckRequest)
    requires AckAnswer(d, machine, request).Success?
    ensures var k := ReceiptKey(machine.id, request.cursor);
            && k in d.receipts && d.receipts[k].machine == machine.id && d.receipts[k].identity == machine.identity
            && |d.receipts[k].events| == |request.eventIds|
            && forall i | 0 <= i < |request.eventIds| :: d.receipts[k].events[i].id == request.eventIds[i]
  {
    var r := d.receipts[ReceiptKey(machine.id, request.cursor)];
    assert EventIds(r.events) == request.eventIds;
    assert forall i | 0 <= i < |request.eventIds| :: EventIds(r.events)[i] == request.eventIds[i];
  }

  /**
   A machine's acknowledgement retires from its queue exactly the events it names, and from no other queue
   anything.
   */
  lemma AckRetiresTheNamed(steps: seq<Step>, machine: Machine, request: AckRequest, now: int)
    requires AckAnswer(Run(steps).docs, machine, request).Success?
    ensures var d, e := Run(steps).docs, AckDocs(Run(steps).docs, machine, request, now);
            forall k :: k in e.queues <==>
              k in d.queues && !(k.machine == machine.id && d.queues[k].event.id in request.eventIds)
    ensures AckDocs(Run(steps).docs, machine, request, now).markers == Run(steps).docs.markers
  {
    RunIsSound(steps);
    var w := Run(steps);
    var d := w.docs;
    var r := d.receipts[ReceiptKey(machine.id, request.cursor)];
    AckNamesItsBatch(d, machine, request);
    AckFacts(d, machine, request, now);
    assert ReceiptOk(w, ReceiptKey(machine.id, request.cursor), r);
    forall k | k in d.queues && k.machine == machine.id
      ensures k.sequence in r.sequences <==> d.queues[k].event.id in request.eventIds
    {
      NamedIsRetired(w, k, r, request.eventIds);
    }
  }

  lemma NamedIsRetired(w: World, k: QueueKey, r: Receipt, ids: seq<Name>)
    requires MarkersOk(w.docs) && QueuesOk(w) && k in w.docs.queues && BatchOk(w, r.events, r.sequences)
    requires |ids| == |r.events| && forall i | 0 <= i < |ids| :: r.events[i].id == ids[i]
    ensures k.sequence in r.sequences <==> w.docs.queues[k].event.id in ids
  {
    var event := w.docs.queues[k].event;
    assert Matches(w.docs, event, k.sequence);
    if k.sequence in r.sequences {
      var i :| 0 <= i < |r.sequences| && r.sequences[i] == k.sequence;
      assert Matches(w.docs, r.events[i], r.sequences[i]) && r.events[i].id == event.id;
      assert ids[i] == event.id;
    }
    if event.id in ids {
      var i :| 0 <= i < |ids| && ids[i] == event.id;
      assert Matches(w.docs, r.events[i], r.sequences[i]);
      assert r.sequences[i] == k.sequence;
    }
  }

  // ----- The pending-refresh view -----

  /** Every machine a step names belongs to the identity that owns it. */
  predicate Owned(step: Step, owner: Name -> Name) {
    match step
    case Enqueue(_, machines, _) => forall m | m in machines :: m.identity == owner(m.id)
    case StartPoll(_, machine, _, _) => machine.identity == owner(machine.id)
    case Ack(machine, _, _) => machine.identity == owner(machine.id)
    case _ => true
  }

  ghost predicate IsQueued(d: Documents, machine: Name, event: Name) {
    event in d.markers && QueueKey(machine, d.markers[event].sequence) in d.queues
  }

  ghost predicate PendingAgrees(d: Documents, owner: Name -> Name) {
    forall key: PendingKey :: key in d.pending
        <==> key.identity == owner(key.machine) && IsQueued(d, key.machine, key.event)
  }

  lemma PendingEntriesFacts(machines: seq<Machine>, event: Event, now: int, owner: Name -> Name, key: PendingKey)
    requires forall m | m in machines :: m.identity == owner(m.id)
    ensures key in PendingEntries(machines, event, now) <==>
            key.event == event.id && key.machine in Ids(machines) && key.identity == owner(key.machine)
  {
    if key.machine in Ids(machines) {
      assert Owner(machines, key.machine) in machines;
    }
    assert key == PendingKey(key.identity, key.machine, key.event);
  }

  lemma EnqueueAgrees(w: World, step: Step, owner: Name -> Name)
    requires Sound(w) && PendingAgrees(w.docs, owner) && step.Enqueue? && Owned(step, owner)
    requires var answer := EnqueueAnswer(w.docs, step.event, step.machines); answer.Success? && answer.value.Enqueued?
    ensures PendingAgrees(EnqueueDocs(w.docs, step.event, step.machines, step.now), owner)
  {
    var d, e := w.docs, EnqueueDocs(w.docs, step.event, step.machines, step.now);
    var n := CurrentSequence(d) + 1;
    AdmittedFacts(d, step.event, step.machines, step.now);
    EntriesFacts(d.queues, step.machines, step.event, n, step.now);
    forall key: PendingKey
      ensures key in e.pending <==> key.identity == owner(key.machine) && IsQueued(e, key.machine, key.event)
    {
      PendingEntriesFacts(step.machines, step.event, step.now, owner, key);
      if key.event == step.event.id {
        assert !IsQueued(d, key.machine, key.event);
        assert QueueKey(key.machine, n) in d.queues ==> Slot(key.machine, n) in w.addressed;
      } else {
        assert IsQueued(e, key.machine, key.event) <==> IsQueued(d, key.machine, key.event);
      }
    }
  }

  /** Of a receipt's events, exactly those whose sequence the receipt lists are cleared. */
  lemma ReceiptPairs(w: World, events: seq<Event>, sequences: seq<int>, id: Name)
    requires MarkersOk(w.docs) && BatchOk(w, events, sequences) && id in w.docs.markers
    ensures (exists e | e in events :: e.id == id) <==> w.docs.markers[id].sequence in sequences
  {
    if e :| e in events && e.id == id {
      var i :| 0 <= i < |events| && events[i] == e;
      assert Matches(w.docs, events[i], sequences[i]);
    }
    if w.docs.markers[id].sequence in sequences {
      var i :| 0 <= i < |sequences| && sequences[i] == w.docs.markers[id].sequence;
      assert Matches(w.docs, events[i], sequences[i]);
    }
  }

  lemma AckAgrees(w: World, step: Step, owner: Name -> Name)
    requires Sound(w) && PendingAgrees(w.docs, owner) && step.Ack? && Owned(step, owner)
    requires AckAnswer(w.docs, step.machine, step.request).Success?
    ensures PendingAgrees(AckDocs(w.docs, step.machine, step.request, step.now), owner)
  {
    var d, e := w.docs, AckDocs(w.docs, step.machine, step.request, step.now);
    AckFacts(d, step.machine, step.request, step.now);
    var receiptKey := ReceiptKey(step.machine.id, step.request.cursor);
    var r := d.receipts[receiptKey];
    assert ReceiptOk(w, receiptKey, r);
    forall key: PendingKey
      ensures key in e.pending <==> key.identity == owner(key.machine) && IsQueued(e, key.machine, key.event)
    {
      if key in d.pending {
        ReceiptPairs(w, r.events, r.sequences, key.event);
        var k := QueueKey(key.machine, d.markers[key.event].sequence);
        assert key in AckedPendingKeys(step.machine, r.events) <==>
            k in AckedQueueKeys(step.machine.id, r.sequences) by {
          assert key == PendingKey(key.identity, key.machine, key.event);
        }
      }
    }
  }

  /**
   With every machine owned by one identity, a pending refresh exists for a machine and an event
   exactly while the event is in the machine's queue.
   */
  lemma {:induction false} PendingAgreesInEveryRun(steps: seq<Step>, owner: Name -> Name)
    requires forall step | step in steps :: Owned(step, owner)
    ensures PendingAgrees(Run(steps).docs, owner)
  {
    if steps != [] {
      var before, step := steps[..|steps| - 1], steps[|steps| - 1];
      PendingAgreesInEveryRun(before, owner);
      RunIsSound(before);
      var w := Run(before);
      if step.Enqueue? {
        var answer := EnqueueAnswer(w.docs, step.event, step.machines);
        if answer.Success? && answer.value.Enqueued? {
          EnqueueAgrees(w, step, owner);
        } else {
          RefusedFacts(w.docs, step.event, step.machines, step.now);
        }
      } else if step.Ack? && AckAnswer(w.docs, step.machine, step.request).Success? {
        AckAgrees(w, step, owner);
      }
    }
  }

  // ----- The cursor discipline is needed -----

  /** A machine that made up its cursor, and the cursor its answer carries. */
  datatype Skip = Skip(first: Event, second: Event, machine: Machine, cursor: string, reply: Name, last: int) {
    predicate Valid() {
      && first.Valid() && second.Valid() && first.id != second.id && machine.Valid()
      && Cursor.Decode(cursor) == Success(1) && last == 2 && reply == Name(Cursor.Encode(last))
    }

    function Polling(): Step { StartPoll(0, machine, cursor, 1) }
    function Scanning(): Step { ScanPoll(0, [second], [last]) }
    function Finishing(): Step { FinishPoll(0, 3) }
    function Acking(): Step { Ack(machine, AckRequest(reply, [second.id], true), 4) }
  }

  lemma OneMachine(d: Documents, event: Event, machine: Machine)
    requires 0 <= CurrentSequence(d) < Cursor.MAX_INT64 && event.Valid() && machine.Valid() && event.id !in d.markers
    ensures EnqueueAnswer(d, event, [machine]) == Success(Enqueued(1))
    ensures Ids([machine]) == {machine.id}
  {
    IdsOfOne(machine);
  }

  /** One more event queued. */
  ghost predicate OneMore(w: World, v: World, event: Event, machines: seq<Machine>, now: int) {
    var n := CurrentSequence(w.docs) + 1;
    && CurrentSequence(v.docs) == n && v.docs.markers.Keys == w.docs.markers.Keys + {event.id}
    && v.docs.queues == w.docs.queues + QueueEntries(machines, event, n, now)
    && v.docs.acks == w.docs.acks && v.addressed == w.addressed + NewSlots(machines, n)
    && v.polls == w.polls && v.recorded == w.recorded && v.given == w.given
  }

  lemma AdmittedIsOneMore(w: World, v: World, event: Event, machines: seq<Machine>, now: int)
    requires EnqueueAnswer(w.docs, event, machines).Success? && EnqueueAnswer(w.docs, event, machines).value.Enqueued?
    requires CurrentSequence(w.docs) <= Cursor.MAX_INT64
    requires v == w.(docs := v.docs, addressed := w.addressed + NewSlots(machines, CurrentSequence(v.docs)))
    requires v.docs == EnqueueDocs(w.docs, event, machines, now)
    ensures OneMore(w, v, event, machines, now)
  {
    AdmittedFacts(w.docs, event, machines, now);
  }

  lemma EnqueueForOne(w: World, v: World, event: Event, machine: Machine, now: int)
    requires 0 <= CurrentSequence(w.docs) < Cursor.MAX_INT64 && event.Valid() && machine.Valid()
        && event.id !in w.docs.markers
    requires v == Apply(w, Enqueue(event, [machine], now))
    ensures OneMore(w, v, event, [machine], now)
  {
    OneMachine(w.docs, event, machine);
    AdmittedStep(w, event, [machine], now);
    AdmittedIsOneMore(w, v, event, [machine], now);
  }

  lemma SlotsOfOne(machine: Machine, n: int)
    ensures NewSlots([machine], n) == {Slot(machine.id, n)}
  {
    IdsOfOne(machine);
  }

  lemma AdmittedStep(w: World, event: Event, machines: seq<Machine>, now: int)
    requires EnqueueAnswer(w.docs, event, machines).Success? && EnqueueAnswer(w.docs, event, machines).value.Enqueued?
    ensures var e := EnqueueDocs(w.docs, event, machines, now);
            Apply(w, Enqueue(event, machines, now)) == w.(docs := e, addressed :=
                w.addressed + NewSlots(machines, CurrentSequence(e)))
  {
  }

  lemma EntryForOne(q: map<QueueKey, Queued>, event: Event, machine: Machine, n: int, now: int)
    ensures var e := q + QueueEntries([machine], event, n, now);
            e.Keys == q.Keys + {QueueKey(machine.id, n)} && e[QueueKey(machine.id, n)].event == event
  {
    IdsOfOne(machine);
    assert QueueKeys([machine], n) == {QueueKey(machine.id, n)};
  }

  ghost predicate BothQueued(w: World, skip: Skip) {
    && w.docs.queues.Keys == {QueueKey(skip.machine.id, 1), QueueKey(skip.machine.id, skip.last)}
    && w.docs.queues[QueueKey(skip.machine.id, skip.last)].event == skip.second
    && w.polls == map[] && w.docs.acks == map[] && w.recorded == {}
  }

  lemma StartBeyondTheFirst(w: World, skip: Skip)
    requires skip.Valid() && w.polls == map[] && w.docs.acks == map[]
    ensures Apply(w, skip.Polling()) == w.(polls := map[0 := Started(skip.machine, Name(skip.cursor), 1, 1)])
  {
    assert PollAfter(w.docs, skip.machine, skip.cursor, 1) == Success(1);
  }

  lemma SecondIsBatch(d: Documents, machine: Name, last: int)
    requires d.queues.Keys == {QueueKey(machine, 1), QueueKey(machine, last)} && last > 1
    ensures IsBatch(d, machine, 1, 1, [last])
  {
  }

  lemma ScanTheSecond(w: World, skip: Skip)
    requires skip.last > 1 && w.polls == map[0 := Started(skip.machine, Name(skip.cursor), 1, 1)]
    requires w.docs.queues.Keys == {QueueKey(skip.machine.id, 1), QueueKey(skip.machine.id, skip.last)}
    requires w.docs.queues[QueueKey(skip.machine.id, skip.last)].event == skip.second
    ensures Apply(w, skip.Scanning()) == w.(polls := map[0 := Scanned(skip.machine, Name(skip.cursor), 1,
        [skip.second], [skip.last])])
  {
    SecondIsBatch(w.docs, skip.machine.id, skip.last);
  }

  lemma FinishTheSecond(w: World, skip: Skip)
    requires 0 <= skip.last <= Cursor.MAX_INT64 && skip.reply == Name(Cursor.Encode(skip.last))
    requires w.polls == map[0 := Scanned(skip.machine, Name(skip.cursor), 1, [skip.second], [skip.last])]
    ensures var v := Apply(w, skip.Finishing());
            && v.recorded == w.recorded + {Slot(skip.machine.id, skip.last)} && v.addressed == w.addressed
                && v.docs.acks == w.docs.acks
            && Lookup(v.docs.receipts, ReceiptKey(skip.machine.id, skip.reply))
               == Some(Receipt(skip.machine.id, skip.machine.identity, skip.reply, [skip.second], [skip.last], 3))
  {
    assert Slots(skip.machine.id, [skip.last]) == {Slot(skip.machine.id, skip.last)};
  }

  lemma AckTheSecond(d: Documents, machine: Machine, second: Event, request: AckRequest, last: int)
    requires d.acks == map[] && machine.Valid() && request.Valid() && request.eventIds == [second.id]
    requires Cursor.Decode(request.cursor.text) == Success(last) && last >= 1
    requires Lookup(d.receipts, ReceiptKey(machine.id, request.cursor))
             == Some(Receipt(machine.id, machine.identity, request.cursor, [second], [last], 3))
    ensures AckSequence(AckDocs(d, machine, request, 4), machine.id) == last
  {
    assert EventIds([second]) == [second.id];
    AckFacts(d, machine, request, 4);
  }

  lemma ReplyIsClean(text: string, last: int)
    requires 0 <= last <= Cursor.MAX_INT64 && text == Cursor.Encode(last)
    ensures text != "" && |text| <= MAX_CURSOR_BYTES && Cursor.Decode(text) == Success(last)
    ensures forall c | c in text :: c != '\0' && !Cursor.IsNewline(c)
  {
    Cursor.EncodeThenDecode(last);
    Cursor.EncodedCursorIsClean(last);
  }

  lemma RequestIsValid(skip: Skip)
    requires skip.Valid()
    ensures AckRequest(skip.reply, [skip.second.id], true).Valid()
    ensures Cursor.Decode(skip.reply.text) == Success(skip.last)
  {
    ReplyIsClean(skip.reply.text, skip.last);
    CleanRequest(skip.reply, skip.second.id);
  }

  lemma CleanRequest(cursor: Name, id: Name)
    requires cursor.text != "" && |cursor.text| <= MAX_CURSOR_BYTES && id != BLANK
    requires forall c | c in cursor.text :: c != '\0' && !Cursor.IsNewline(c)
    ensures AckRequest(cursor, [id], true).Valid()
  {
  }

  lemma BothAreQueued(skip: Skip, w: World, v: World)
    requires skip.Valid()
    requires w == Apply(START, Enqueue(skip.first, [skip.machine], 1)) && v
        == Apply(w, Enqueue(skip.second, [skip.machine], 2))
    ensures BothQueued(v, skip) && Slot(skip.machine.id, 1) in v.addressed && v.given == {}
  {
    EnqueueForOne(START, w, skip.first, skip.machine, 1);
    EntryForOne(START.docs.queues, skip.first, skip.machine, 1, 1);
    SlotsOfOne(skip.machine, 1);
    EnqueueForOne(w, v, skip.second, skip.machine, 2);
    EntryForOne(w.docs.queues, skip.second, skip.machine, 2, 2);
  }

  /**
   Any machine that polls with a cursor it made up, and acknowledges what it gets, loses the events it
   skipped: they stay queued at or below its acknowledged sequence, in no recorded batch. The one step
   of this run that breaks the discipline is the poll.
   */
  lemma SkippingLoses(skip: Skip, w1: World, w2: World, w3: World, w4: World, w5: World, w6: World)
    requires skip.Valid()
    requires w1 == Apply(START, Enqueue(skip.first, [skip.machine], 1))
    requires w2 == Apply(w1, Enqueue(skip.second, [skip.machine], 2))
    requires w3 == Apply(w2, skip.Polling()) && w4 == Apply(w3, skip.Scanning())
    requires w5 == Apply(w4, skip.Finishing()) && w6 == Apply(w5, skip.Acking())
    ensures var slot := Slot(skip.machine.id, 1);
            && slot in w6.addressed && slot !in w6.recorded && AckSequence(w6.docs, skip.machine.id) == 2
    ensures !UsesGivenCursor(w2, skip.Polling())
  {
    BothAreQueued(skip, w1, w2);
    StartBeyondTheFirst(w2, skip);
    ScanTheSecond(w3, skip);
    FinishTheSecond(w4, skip);
    RequestIsValid(skip);
    SkippedIsLost(skip, w5, w6);
  }

  lemma AckingOnlyMovesDocuments(w: World, machine: Machine, request: AckRequest, now: int)
    ensures Apply(w, Ack(machine, request, now)) == w.(docs := AckDocs(w.docs, machine, request, now))
  {
  }

  lemma SkippedIsLost(skip: Skip, w5: World, w6: World)
    requires skip.machine.Valid() && AckRequest(skip.reply, [skip.second.id], true).Valid()
    requires Cursor.Decode(skip.reply.text) == Success(skip.last) && skip.last >= 1
    requires w6 == Apply(w5, skip.Acking()) && w5.docs.acks == map[]
    requires Lookup(w5.docs.receipts, ReceiptKey(skip.machine.id, skip.reply))
             == Some(Receipt(skip.machine.id, skip.machine.identity, skip.reply, [skip.second], [skip.last], 3))
    ensures w6.addressed == w5.addressed && w6.recorded == w5.recorded && AckSequence(w6.docs, skip.machine.id)
        == skip.last
  {
    var request := AckRequest(skip.reply, [skip.second.id], true);
    AckingOnlyMovesDocuments(w5, skip.machine, request, 4);
    AckTheSecond(w5.docs, skip.machine, skip.second, request, skip.last);
  }
}
