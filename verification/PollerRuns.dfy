/**
 Whole lives of the poller on top of the event store: it can crash between reading, enqueueing and
 saving, and anything else can happen to the store in between.
 */
module PollerRuns {
  import opened Wrappers
  import opened PollIds
  import opened Poller
  import EventQueue
  import EventQueueRuns

  /** A pass over one repository that has an event to enqueue, or an observation to save. */
  datatype Flight = Enqueueing(event: EventQueue.Event, next: Observation) | Saving(next: Observation)

  /** A head the store took in, and did not find already marked. */
  datatype Head = Head(repository: Name, sha: Name)

  datatype World = World(store: EventQueueRuns.World, observations: Observations, firsts: map<Name, Name>,
                         queued: seq<Head>, flight: Option<Flight>)

  const START := World(EventQueueRuns.START, map[], map[], [], None)

  /** The repository read keeps its name. Others never make up an identifier of the poller's. */
  datatype Step =
    | Observe(reading: Reading, now: int)
    | Enqueue(now: int)
    | Save(fails: bool)
    | Crash
    | Elsewhere(step: EventQueueRuns.Step)

  predicate Foreign(step: EventQueueRuns.Step) { step.Enqueue? ==> !IsPollId(step.event.id) }

  function Observed(w: World, r: Reading, now: int): World {
    if w.flight.Some? || !Loadable(w.observations, r.current) then w
    else
      match PlanFor(Lookup(w.observations, r.current), r)
      case Record => w.(flight := Some(Saving(r.Seen(now))))
      case Push(event) => w.(flight := Some(Enqueueing(event, r.Seen(now))))
      case _ => w
  }

  ghost function Offered(w: World, machine: EventQueue.Machine, now: int): World {
    if w.flight.None? || w.flight.value.Saving? then w
    else
      var f := w.flight.value;
      match EventQueue.EnqueueAnswer(w.store.docs, f.event, [machine])
      case Failure(_) => w.(flight := None)
      case Success(Duplicate) => w.(flight := Some(Saving(f.next)))
      case Success(Enqueued(_)) =>
        w.(store := EventQueueRuns.Apply(w.store, EventQueueRuns.Enqueue(f.event, [machine], now)),
           queued := w.queued + [Head(f.next.repository, f.next.sha)], flight := Some(Saving(f.next)))
  }

  function Saved(w: World, fails: bool): World {
    if w.flight.None? || w.flight.value.Enqueueing? then w
    else
      var next := w.flight.value.next;
      if fails || !next.Valid() then w.(flight := None)
      else
        w.(observations := w.observations[next.repository := next], flight := None,
           firsts := if next.repository in w.observations then w.firsts else w.firsts[next.repository := next.sha])
  }

  ghost function Apply(w: World, step: Step, machine: EventQueue.Machine): World {
    match step
    case Observe(r, now) => Observed(w, r, now)
    case Enqueue(now) => Offered(w, machine, now)
    case Save(fails) => Saved(w, fails)
    case Crash => w.(flight := None)
    case Elsewhere(s) => if Foreign(s) then w.(store := EventQueueRuns.Apply(w.store, s)) else w
  }

  ghost function Run(steps: seq<Step>, machine: EventQueue.Machine): World {
    if steps == [] then START else Apply(Run(steps[..|steps| - 1], machine), steps[|steps| - 1], machine)
  }

  // ----- What holds in every reachable state -----

  predicate IsMarked(w: World, repository: Name, sha: Name) { HeadId(repository, sha) in w.store.docs.markers }

  ghost predicate ObservationsOk(w: World) {
    forall k | k in w.observations ::
      && k in w.firsts && w.observations[k].repository == k && w.observations[k].Valid()
      && (w.observations[k].sha == w.firsts[k] || IsMarked(w, k, w.observations[k].sha))
  }

  ghost predicate FlightOk(w: World) {
    w.flight.Some? ==>
      var next := w.flight.value.next;
      match w.flight.value
      case Saving(_) => next.repository !in w.observations || IsMarked(w, next.repository, next.sha)
      case Enqueueing(event, _) => event.id == HeadId(next.repository, next.sha) && next.repository in w.observations
  }

  function IdOf(h: Head): Name { HeadId(h.repository, h.sha) }

  /** The poller's markers are those of the heads queued, one for each. */
  ghost predicate QueuedOk(w: World) {
    && (forall h | h in w.queued :: IdOf(h) in w.store.docs.markers)
    && (forall id | id in w.store.docs.markers && IsPollId(id) :: exists h | h in w.queued :: IdOf(h) == id)
    && (forall i, j | 0 <= i < j < |w.queued| :: IdOf(w.queued[i]) != IdOf(w.queued[j]))
  }

  ghost predicate Ok(w: World) {
    EventQueueRuns.Sound(w.store) && ObservationsOk(w) && FlightOk(w) && QueuedOk(w)
  }

  /** Markers are never dropped, and only an enqueue adds one, for its own event. */
  lemma MarkersGrow(w: EventQueueRuns.World, step: EventQueueRuns.Step)
    requires EventQueueRuns.Sound(w)
    ensures var v := EventQueueRuns.Apply(w, step);
            && (forall id | id in w.docs.markers :: id in v.docs.markers)
            && (forall id | id in v.docs.markers && id !in w.docs.markers :: step.Enqueue? && id == step.event.id)
    ensures EventQueueRuns.Sound(EventQueueRuns.Apply(w, step))
  {
    EventQueueRuns.StepIsSound(w, step);
    if step.Enqueue? {
      var answer := EventQueue.EnqueueAnswer(w.docs, step.event, step.machines);
      if answer.Success? && answer.value.Enqueued? {
        EventQueueRuns.AdmittedFacts(w.docs, step.event, step.machines, step.now);
      } else {
        EventQueueRuns.RefusedFacts(w.docs, step.event, step.machines, step.now);
      }
    }
  }

  lemma ElsewhereIsOk(w: World, s: EventQueueRuns.Step)
    requires Ok(w) && Foreign(s)
    ensures Ok(w.(store := EventQueueRuns.Apply(w.store, s)))
  {
    MarkersGrow(w.store, s);
  }

  lemma ObserveIsOk(w: World, r: Reading, now: int)
    requires FlightOk(w) && ObservationsOk(w)
    ensures FlightOk(Observed(w, r, now)) && Observed(w, r, now) == w.(flight := Observed(w, r, now).flight)
  {
  }

  lemma SaveIsOk(w: World, fails: bool)
    requires FlightOk(w) && ObservationsOk(w)
    ensures FlightOk(Saved(w, fails)) && ObservationsOk(Saved(w, fails))
    ensures Saved(w, fails).store == w.store && Saved(w, fails).queued == w.queued
  {
  }

  lemma OfferIsOk(w: World, machine: EventQueue.Machine, now: int)
    requires Ok(w)
    ensures Ok(Offered(w, machine, now))
  {
    if w.flight.Some? && w.flight.value.Enqueueing? {
      var f := w.flight.value;
      var answer := EventQueue.EnqueueAnswer(w.store.docs, f.event, [machine]);
      if answer.Success? && answer.value.Enqueued? {
        AdmittedIsOk(w, machine, now);
      }
    }
  }

  lemma AdmittedIsOk(w: World, machine: EventQueue.Machine, now: int)
    requires Ok(w) && w.flight.Some? && w.flight.value.Enqueueing?
    requires var answer := EventQueue.EnqueueAnswer(w.store.docs, w.flight.value.event, [machine]);
        answer.Success? && answer.value.Enqueued?
    ensures Ok(Offered(w, machine, now))
  {
    var f, v := w.flight.value, Offered(w, machine, now);
    var step := EventQueueRuns.Enqueue(f.event, [machine], now);
    MarkersGrow(w.store, step);
    EventQueueRuns.AdmittedFacts(w.store.docs, f.event, [machine], now);
    QueuedGrows(w, v, Head(f.next.repository, f.next.sha));
  }

  lemma QueuedGrows(w: World, v: World, h: Head)
    requires QueuedOk(w) && IdOf(h) !in w.store.docs.markers && v.queued == w.queued + [h]
    requires forall id :: id in v.store.docs.markers <==> id in w.store.docs.markers || id == IdOf(h)
    ensures QueuedOk(v)
  {
    assert v.queued[|w.queued|] == h;
    assert forall g | g in w.queued :: g in v.queued;
    assert forall i | 0 <= i < |w.queued| :: w.queued[i] in w.queued;
  }

  lemma StepIsOk(w: World, step: Step, machine: EventQueue.Machine)
    requires Ok(w)
    ensures Ok(Apply(w, step, machine))
  {
    match step
    case Observe(r, now) => ObserveIsOk(w, r, now);
    case Enqueue(now) => OfferIsOk(w, machine, now);
    case Save(fails) => SaveIsOk(w, fails);
    case Crash =>
    case Elsewhere(s) => if Foreign(s) { ElsewhereIsOk(w, s); }
  }

  lemma StartIsOk()
    ensures Ok(START)
  {
    EventQueueRuns.RunIsSound([]);
  }

  lemma {:induction false} RunIsOk(steps: seq<Step>, machine: EventQueue.Machine)
    ensures Ok(Run(steps, machine))
  {
    if steps == [] {
      StartIsOk();
    } else {
      var n := |steps| - 1;
      RunIsOk(steps[..n], machine);
      StepIsOk(Run(steps[..n], machine), steps[n], machine);
    }
  }

  // ----- What follows -----

  /** Every stored head is the one the repository was first seen at, or has its marker in the store. */
  lemma StoredHeadsAreMarked(steps: seq<Step>, machine: EventQueue.Machine, k: Name)
    requires k in Run(steps, machine).observations
    ensures var w := Run(steps, machine);
            k in w.firsts && (w.observations[k].sha == w.firsts[k] || HeadId(k,
                w.observations[k].sha) in w.store.docs.markers)
  {
    RunIsOk(steps, machine);
  }

  /** Through any crashes and replays, no head is queued twice. */
  lemma NoHeadIsQueuedTwice(steps: seq<Step>, machine: EventQueue.Machine)
    ensures var heads := Run(steps, machine).queued;
            forall i, j | 0 <= i < j < |heads| :: heads[i] != heads[j] && IdOf(heads[i]) != IdOf(heads[j])
  {
    RunIsOk(steps, machine);
  }

  lemma MarkedIsDuplicate(d: EventQueue.Documents, event: EventQueue.Event, machine: EventQueue.Machine)
    requires EventQueueRuns.MarkersOk(d) && event.Valid() && machine.Valid() && event.id in d.markers
    ensures EventQueue.EnqueueAnswer(d, event, [machine]) == Success(EventQueue.Duplicate)
  {
    EventQueue.IdsOfOne(machine);
  }

  /** A head that is marked already goes from the store's answer straight to being saved, and changes nothing there. */
  lemma ReplayChangesNothing(w: World, machine: EventQueue.Machine, now: int)
    requires Ok(w) && w.flight.Some? && w.flight.value.Enqueueing? && machine.Valid()
    requires w.flight.value.event.Valid() && w.flight.value.event.id in w.store.docs.markers
    ensures Apply(w, Enqueue(now), machine) == w.(flight := Some(Saving(w.flight.value.next)))
  {
    MarkedIsDuplicate(w.store.docs, w.flight.value.event, machine);
  }

  /** A repository under an owner whose name has no underscore, at a commit. */
  ghost predicate Plain(repository: Name, sha: Name) {
    IsCommit(sha) && exists owner, name :: IsNamed(repository, owner, name)
  }

  predicate IsNamed(repository: Name, owner: string, name: string) {
    WellFormed(owner, name) && Lacks(owner, '_') && repository == Canonical(owner, name)
  }

  lemma PlainHeadsAreApart(g: Head, h: Head)
    requires Plain(g.repository, g.sha) && Plain(h.repository, h.sha) && IdOf(g) == IdOf(h)
    ensures g == h
  {
    var o1, n1 :| IsNamed(g.repository, o1, n1);
    var o2, n2 :| IsNamed(h.repository, o2, n2);
    PlainOwnersAreApart(o1, n1, g.sha, o2, n2, h.sha);
  }

  ghost predicate AllPlain(steps: seq<Step>) {
    forall s | s in steps :: s.Observe? ==> Plain(s.reading.current, s.reading.sha)
  }

  ghost predicate HeadsPlain(w: World) {
    && (forall h | h in w.queued :: Plain(h.repository, h.sha))
    && (forall k | k in w.observations :: Plain(k, w.observations[k].sha))
    && (w.flight.Some? ==> Plain(w.flight.value.next.repository, w.flight.value.next.sha))
  }

  lemma StepStaysPlain(w: World, step: Step, machine: EventQueue.Machine)
    requires HeadsPlain(w) && (step.Observe? ==> Plain(step.reading.current, step.reading.sha))
    ensures HeadsPlain(Apply(w, step, machine))
  {
  }

  lemma {:induction false} RunStaysPlain(steps: seq<Step>, machine: EventQueue.Machine)
    requires AllPlain(steps)
    ensures HeadsPlain(Run(steps, machine))
  {
    if steps != [] {
      var n := |steps| - 1;
      RunStaysPlain(steps[..n], machine);
      StepStaysPlain(Run(steps[..n], machine), steps[n], machine);
    }
  }

  /** When no owner's name has an underscore, every stored head but a first one was queued, as itself. */
  lemma StoredHeadsWereQueued(steps: seq<Step>, machine: EventQueue.Machine, k: Name)
    requires AllPlain(steps) && k in Run(steps, machine).observations
    ensures var w := Run(steps, machine);
            k in w.firsts && (w.observations[k].sha == w.firsts[k] || Head(k, w.observations[k].sha) in w.queued)
  {
    RunIsOk(steps, machine);
    RunStaysPlain(steps, machine);
    var w := Run(steps, machine);
    var sha := w.observations[k].sha;
    if sha != w.firsts[k] {
      PollIdsArePrefixed(k, EventQueue.DefaultBranchUpdated, sha);
      var h :| h in w.queued && IdOf(h) == HeadId(k, sha);
      PlainHeadsAreApart(h, Head(k, sha));
    }
  }
}
