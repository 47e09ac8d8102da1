/** Which events are admitted, what an admission and an acknowledgement write, and what the statuses tell of both. */
module EnqueueLaws {
  import opened Wrappers
  import opened EventQueue
  import opened EventQueueRuns
  import Cursor

  // ----- Admission -----

  /** Step n admits an event of that ID. */
  ghost predicate AdmitsAt(steps: seq<Step>, n: nat, id: Name) {
    && n < |steps| && steps[n].Enqueue? && steps[n].event.id == id
    && var r := EnqueueAnswer(Run(steps[..n]).docs, steps[n].event, steps[n].machines); r.Success? && r.value.Enqueued?
  }

  ghost predicate WasAdmitted(steps: seq<Step>, id: Name) {
    exists n: nat :: AdmitsAt(steps, n, id)
  }

  lemma OneMoreAdmitted(steps: seq<Step>, id: Name)
    requires steps != []
    ensures WasAdmitted(steps, id) <==> WasAdmitted(steps[..|steps| - 1], id) || AdmitsAt(steps, |steps| - 1, id)
  {
    var last := |steps| - 1;
    forall n: nat | n < last
      ensures AdmitsAt(steps[..last], n, id) <==> AdmitsAt(steps, n, id)
    {
      assert steps[..last][..n] == steps[..n];
    }
    if WasAdmitted(steps[..last], id) {
      var n: nat :| AdmitsAt(steps[..last], n, id);
      assert AdmitsAt(steps, n, id);
    }
  }

  lemma StepMarks(w: World, step: Step, id: Name)
    requires Sound(w)
    ensures id in Apply(w, step).docs.markers <==>
              || id in w.docs.markers
              || (step.Enqueue? && step.event.id == id
                  && var r := EnqueueAnswer(w.docs, step.event, step.machines); r.Success? && r.value.Enqueued?)
  {
    if step.Enqueue? {
      var answer := EnqueueAnswer(w.docs, step.event, step.machines);
      if answer.Success? && answer.value.Enqueued? {
        AdmittedFacts(w.docs, step.event, step.machines, step.now);
      } else {
        RefusedFacts(w.docs, step.event, step.machines, step.now);
      }
    }
  }

  lemma {:induction false} MarkedIffAdmitted(steps: seq<Step>, id: Name)
    ensures id in Run(steps).docs.markers <==> WasAdmitted(steps, id)
  {
    if steps == [] {
      assert forall n: nat :: !AdmitsAt(steps, n, id);
    } else {
      var init := steps[..|steps| - 1];
      MarkedIffAdmitted(init, id);
      RunIsSound(init);
      StepMarks(Run(init), steps[|steps| - 1], id);
      OneMoreAdmitted(steps, id);
    }
  }

  predicate IsNamed(m: Machine) {
    m.id != Name("") && m.name != Name("") && m.identity != Name("")
  }

  /** The event passed its form checks, and so did every machine. */
  predicate AreFit(event: Event, machines: seq<Machine>) {
    event.wellFormed && event.id != Name("") && forall m | m in machines :: IsNamed(m)
  }

  /**
   In every run: an event is refused for its form, or for more than a hundred and fifty machines; otherwise it
   is a duplicate exactly when an event of its ID was admitted before, and admitted for all the machines if
   there is a sequence left for it.
   */
  lemma AdmittedIffNew(steps: seq<Step>, event: Event, machines: seq<Machine>)
    ensures var r, d := EnqueueAnswer(Run(steps).docs, event, machines), Run(steps).docs;
            var fits := AreFit(event, machines) && |Ids(machines)| <= 150;
            && (r == Failure(Unavailable) <==> !AreFit(event, machines))
            && (r == Failure(FanoutExceeded) <==> AreFit(event, machines) && |Ids(machines)| > 150)
            && (r == Success(Duplicate) <==> fits && WasAdmitted(steps, event.id))
            && (r == Success(Enqueued(|Ids(machines)|)) <==>
                  fits && !WasAdmitted(steps, event.id) && CurrentSequence(d) < Cursor.MAX_INT64)
            && (r == Failure(SequenceExhausted) <==>
                  fits && !WasAdmitted(steps, event.id) && CurrentSequence(d) == Cursor.MAX_INT64)
  {
    RunIsSound(steps);
    MarkedIffAdmitted(steps, event.id);
  }

  predicate IsFirstOf(machines: seq<Machine>, id: Name, i: nat) {
    i < |machines| && machines[i].id == id && forall j | 0 <= j < i :: machines[j].id != id
  }

  /** Of several machines with one ID, the one an event is queued for is the first. */
  lemma {:induction false} OwnerIsFirst(machines: seq<Machine>, id: Name)
    requires id in Ids(machines)
    ensures exists i: nat :: IsFirstOf(machines, id, i) && machines[i] == Owner(machines, id)
  {
    if machines[0].id == id {
      assert IsFirstOf(machines, id, 0);
    } else {
      OwnerIsFirst(machines[1..], id);
      var i: nat :| IsFirstOf(machines[1..], id, i) && machines[1..][i] == Owner(machines[1..], id);
      assert IsFirstOf(machines, id, i + 1);
    }
  }

  /**
   What an admission leaves at the sequence it takes: the event, for exactly the machines given, each under
   its own identity.
   */
  lemma AdmissionWrites(d: Documents, event: Event, machines: seq<Machine>, now: int)
    requires EnqueueAnswer(d, event, machines).Success? && EnqueueAnswer(d, event, machines).value.Enqueued?
    requires CurrentSequence(d) <= Cursor.MAX_INT64
    ensures var e, n := EnqueueDocs(d, event, machines, now), CurrentSequence(d) + 1;
            && CurrentSequence(e) == n && e.markers == d.markers[event.id := Marker(event.id, n, now)]
            && (forall k: QueueKey | k.sequence != n :: Lookup(e.queues, k) == Lookup(d.queues, k))
            && (forall id | id in Ids(machines) :: Lookup(e.queues, QueueKey(id, n))
                  == Some(Queued(n, Owner(machines, id).identity, id, now, event)))
            && (forall k: PendingKey | k.event != event.id :: Lookup(e.pending, k) == Lookup(d.pending, k))
            && (forall id | id in Ids(machines) :: Lookup(e.pending, PendingKey(Owner(machines, id).identity, id,
                event.id))
                  == Some(Pending(event.id, event.repository, event.reason, now, id)))
            && e.receipts == d.receipts && e.acks == d.acks
  {
    AdmittedFacts(d, event, machines, now);
    EntriesFacts(d.queues, machines, event, CurrentSequence(d) + 1, now);
    PendingFacts(d.pending, machines, event, now);
    forall id | id in Ids(machines)
      ensures QueueKey(id, CurrentSequence(d) + 1) in QueueKeys(machines, CurrentSequence(d) + 1)
    {
    }
  }

  lemma PendingFacts(pending: map<PendingKey, Pending>, machines: seq<Machine>, event: Event, now: int)
    ensures var e := pending + PendingEntries(machines, event, now);
            && (forall k: PendingKey | k.event != event.id :: Lookup(e, k) == Lookup(pending, k))
            && (forall id | id in Ids(machines) :: Lookup(e, PendingKey(Owner(machines, id).identity, id, event.id))
                  == Some(Pending(event.id, event.repository, event.reason, now, id)))
  {
    forall id | id in Ids(machines)
      ensures PendingKey(Owner(machines, id).identity, id, event.id) in PendingKeys(machines, event.id)
    {
    }
  }

  // ----- Statuses -----

  function ReceivedOf(d: Documents, identity: Name): Option<DeliveryMark> {
    if identity in d.statuses then d.statuses[identity].lastReceived else None
  }

  function AcknowledgedOf(d: Documents, identity: Name): Option<DeliveryMark> {
    if identity in d.statuses then d.statuses[identity].lastAcknowledged else None
  }

  /** A machine of that identity is among those the event is queued for. */
  predicate Concerns(machines: seq<Machine>, identity: Name) {
    exists id :: id in Ids(machines) && Owner(machines, id).identity == identity
  }

  /** An acknowledgement that succeeds and is for more than was acknowledged before. */
  predicate Advances(d: Documents, machine: Machine, request: AckRequest) {
    AckAnswer(d, machine, request).Success? && Cursor.Decode(request.cursor.text).value > AckSequence(d, machine.id)
  }

  /**
   What a step makes of an identity's status: an admission for one of its machines is its last received, an
   acknowledgement that gets a machine of its further is its last acknowledged, and neither touches the other.
   */
  lemma StatusTellsTheLast(w: World, step: Step, identity: Name)
    ensures var d, e := w.docs, Apply(w, step).docs;
            && ReceivedOf(e, identity) ==
                 (if step.Enqueue? && Concerns(step.machines, identity) && EnqueueAnswer(d, step.event,
                     step.machines).Success?
                     && EnqueueAnswer(d, step.event, step.machines).value.Enqueued?
                  then Some(DeliveryMark(step.event.id, step.event.reason, step.now))
                  else ReceivedOf(d, identity))
            && (step.Ack? && step.machine.identity == identity && Advances(d, step.machine, step.request) ==>
                  var batch := d.receipts[ReceiptKey(step.machine.id, step.request.cursor)].events;
                  batch != [] && AcknowledgedOf(e, identity)
                      == Some(DeliveryMark(batch[|batch| - 1].id, batch[|batch| - 1].reason, step.now)))
            && (!(step.Ack? && step.machine.identity == identity && Advances(d, step.machine, step.request)) ==>
                  AcknowledgedOf(e, identity) == AcknowledgedOf(d, identity))
  {
    match step
    case Enqueue(event, machines, now) => EnqueueStatuses(w.docs, event, machines, now, identity);
    case Ack(machine, request, now) => AckStatuses(w.docs, machine, request, now, identity);
    case _ =>
  }

  lemma EnqueueStatuses(d: Documents, event: Event, machines: seq<Machine>, now: int, identity: Name)
    ensures var e := EnqueueDocs(d, event, machines, now);
            && ReceivedOf(e, identity) ==
                 (if Concerns(machines, identity) && EnqueueAnswer(d, event, machines).Success?
                     && EnqueueAnswer(d, event, machines).value.Enqueued?
                  then Some(DeliveryMark(event.id, event.reason, now)) else ReceivedOf(d, identity))
            && AcknowledgedOf(e, identity) == AcknowledgedOf(d, identity)
  {
    assert identity in Identities(machines) <==> Concerns(machines, identity);
  }

  lemma AckStatuses(d: Documents, machine: Machine, request: AckRequest, now: int, identity: Name)
    ensures var e := AckDocs(d, machine, request, now);
            && ReceivedOf(e, identity) == ReceivedOf(d, identity)
            && (machine.identity == identity && Advances(d, machine, request) ==>
                  var batch := d.receipts[ReceiptKey(machine.id, request.cursor)].events;
                  batch != [] && AcknowledgedOf(e, identity)
                      == Some(DeliveryMark(batch[|batch| - 1].id, batch[|batch| - 1].reason, now)))
            && (!(machine.identity == identity && Advances(d, machine, request)) ==>
                  AcknowledgedOf(e, identity) == AcknowledgedOf(d, identity))
  {
    if AckAnswer(d, machine, request).Success? {
      assert |EventIds(d.receipts[ReceiptKey(machine.id, request.cursor)].events)| == |request.eventIds|;
    }
  }

  // ----- Acknowledging what was delivered -----

  /** The request that names a recorded batch. */
  function RequestFor(r: Receipt): AckRequest { AckRequest(r.cursor, EventIds(r.events), true) }

  /**
   In every run the machine a batch was recorded for can acknowledge it, by its cursor and its events in
   order; and nothing else under that cursor.
   */
  lemma BatchIsAcknowledgedIff(steps: seq<Step>, k: ReceiptKey, machine: Machine, request: AckRequest)
    requires k in Run(steps).docs.receipts && machine.id == k.machine && request.cursor == k.cursor
    requires machine.Valid() && request.Valid()
    ensures var d := Run(steps).docs;
            AckAnswer(d, machine, request).Success? <==>
              machine.identity == d.receipts[k].identity && request.eventIds == EventIds(d.receipts[k].events)
    ensures AckAnswer(Run(steps).docs, machine, request).Success? ==>
              AckAnswer(Run(steps).docs, machine, request).value == request.cursor
  {
    RunIsSound(steps);
    var w := Run(steps);
    assert ReceiptOk(w, k, w.docs.receipts[k]);
    var s := w.docs.receipts[k].sequences;
    assert 1 <= s[|s| - 1];
    assert machine.id in w.docs.acks ==> w.docs.acks[machine.id].sequence >= 0;
  }

  /**
   In every run: an acknowledgement is refused for its form or its machine's, or because it does not name a
   batch of that machine and identity; else it is taken.
   */
  lemma AcknowledgementIsAnswered(steps: seq<Step>, machine: Machine, request: AckRequest)
    ensures var d, r := Run(steps).docs, AckAnswer(Run(steps).docs, machine, request);
            var k := ReceiptKey(machine.id, request.cursor);
            && (r == Failure(Unavailable) <==> !IsNamed(machine) || !request.Valid())
            && (r.Success? <==>
                  && IsNamed(machine) && request.Valid() && k in d.receipts
                  && d.receipts[k].identity == machine.identity && request.eventIds == EventIds(d.receipts[k].events))
            && (r.Failure? ==> r.error in {Unavailable, InvalidCursor})
  {
    var k := ReceiptKey(machine.id, request.cursor);
    if k in Run(steps).docs.receipts && machine.Valid() && request.Valid() {
      BatchIsAcknowledgedIff(steps, k, machine, request);
    }
    RunIsSound(steps);
    assert machine.id in Run(steps).docs.acks ==> Run(steps).docs.acks[machine.id].sequence >= 0;
  }

  /** On documents it did not write, an acknowledged sequence below zero is an error, for a batch that is there. */
  lemma NegativeStateIsReported(d: Documents, machine: Machine, request: AckRequest)
    requires machine.Valid() && request.Valid() && ReceiptKey(machine.id, request.cursor) in d.receipts
    requires var r := d.receipts[ReceiptKey(machine.id, request.cursor)];
             && r.machine == machine.id && r.identity == machine.identity && r.cursor == request.cursor
             && EventIds(r.events) == request.eventIds
    requires Cursor.Decode(request.cursor.text).Success? && Cursor.Decode(request.cursor.text).value >= 1
    ensures AckAnswer(d, machine, request) == Failure(InvalidQueueState) <==>
              machine.id in d.acks && d.acks[machine.id].sequence < 0
  {
  }

  /**
   In every run an acknowledgement gets the machine as far as the last event of its batch, if it was not
   there before, and tells when; it leaves every other machine where it was.
   */
  lemma AckGetsAsFarAsItsBatch(steps: seq<Step>, machine: Machine, request: AckRequest, now: int)
    requires AckAnswer(Run(steps).docs, machine, request).Success?
    ensures var d, e := Run(steps).docs, AckDocs(Run(steps).docs, machine, request, now);
            var k := ReceiptKey(machine.id, request.cursor);
            && k in d.receipts && d.receipts[k].sequences != []
            && var s := d.receipts[k].sequences;
               && (if s[|s| - 1] > AckSequence(d, machine.id) then
                     machine.id in e.acks && e.acks[machine.id].sequence == s[|s| - 1] && e.acks[machine.id].at == now
                   else e.acks == d.acks)
               && (forall m | m != machine.id :: Lookup(e.acks, m) == Lookup(d.acks, m))
               && e.sequence == d.sequence && e.markers == d.markers && e.receipts == d.receipts
  {
    RunIsSound(steps);
    var w := Run(steps);
    var k := ReceiptKey(machine.id, request.cursor);
    BatchEndsAtItsCursor(w, k);
    AckMovesOneMachine(w.docs, machine, request, now, Cursor.Decode(request.cursor.text).value);
  }

  lemma BatchEndsAtItsCursor(w: World, k: ReceiptKey)
    requires Sound(w) && k in w.docs.receipts
    ensures var s := w.docs.receipts[k].sequences; s != [] && Cursor.Decode(k.cursor.text) == Success(s[|s| - 1])
  {
    assert ReceiptOk(w, k, w.docs.receipts[k]);
  }

  lemma AckMovesOneMachine(d: Documents, machine: Machine, request: AckRequest, now: int, n: int)
    requires AckAnswer(d, machine, request).Success? && Cursor.Decode(request.cursor.text) == Success(n)
    ensures var e := AckDocs(d, machine, request, now);
            && ReceiptKey(machine.id, request.cursor) in d.receipts
            && (if n > AckSequence(d, machine.id) then
                  machine.id in e.acks && e.acks[machine.id].sequence == n && e.acks[machine.id].at == now
                else e.acks == d.acks)
            && (forall m | m != machine.id :: Lookup(e.acks, m) == Lookup(d.acks, m))
            && e.sequence == d.sequence && e.markers == d.markers && e.receipts == d.receipts
  {
    assert |EventIds(d.receipts[ReceiptKey(machine.id, request.cursor)].events)| == |request.eventIds|;
  }

  /** Exactly the pending refreshes of the events named go, of that machine under that identity. */
  lemma AckClearsTheNamed(d: Documents, machine: Machine, request: AckRequest, now: int)
    requires AckAnswer(d, machine, request).Success?
    ensures forall k :: k in AckDocs(d, machine, request, now).pending <==>
              k in d.pending && !(k.identity == machine.identity && k.machine == machine.id && k.event in request.eventIds)
  {
    var events := d.receipts[ReceiptKey(machine.id, request.cursor)].events;
    AckFacts(d, machine, request, now);
    assert EventIds(events) == request.eventIds;
    forall id: Name
      ensures id in request.eventIds <==> exists e :: e in events && e.id == id
    {
      NamedIffInBatch(events, id);
    }
  }

  lemma NamedIffInBatch(events: seq<Event>, id: Name)
    ensures id in EventIds(events) <==> exists e :: e in events && e.id == id
  {
    if id in EventIds(events) {
      var i :| 0 <= i < |events| && EventIds(events)[i] == id;
      assert events[i] in events;
    }
    if e :| e in events && e.id == id {
      var i :| 0 <= i < |events| && events[i] == e;
      assert EventIds(events)[i] == id;
    }
  }

  /** A request is fit to be sent when it names one to a hundred events, none twice, under a clean cursor. */
  lemma RequestIsFitIff(request: AckRequest)
    ensures request.Valid() <==>
              && request.wellFormed && 1 <= |request.cursor.text| <= 1024
              && (forall i | 0 <= i < |request.cursor.text| ::
                    request.cursor.text[i] != '\0' && request.cursor.text[i] != '\r' && request.cursor.text[i] != '\n')
              && 1 <= |request.eventIds| <= 100
              && (forall i | 0 <= i < |request.eventIds| :: request.eventIds[i] != Name(""))
              && (forall i, j | 0 <= i < j < |request.eventIds| :: request.eventIds[i] != request.eventIds[j])
  {
    assert request.cursor == Name("") <==> request.cursor.text == "";
    assert forall i | 0 <= i < |request.cursor.text| :: request.cursor.text[i] in request.cursor.text;
    assert forall i | 0 <= i < |request.eventIds| :: request.eventIds[i] in request.eventIds;
  }
}
