/** Which pushes the poller queues, and the two ways it loses one. */
module PollerLaws {
  import opened Wrappers
  import opened Text
  import opened PollIds
  import opened Poller
  import opened PollerRuns
  import Cursor
  import EventQueue
  import EventQueueRuns

  /** One uninterrupted pass over a repository that keeps its name; a step with nothing to do does nothing. */
  ghost function Pass(w: World, r: Reading, now: int, machine: EventQueue.Machine): World {
    Apply(Apply(Apply(w, Observe(r, now), machine), Enqueue(now), machine), Save(false), machine)
  }

  /** A pass may start, on a reading worth storing and enqueueing. */
  predicate Ready(w: World, r: Reading, now: int, machine: EventQueue.Machine) {
    && w.flight.None? && r.Seen(now).Valid() && r.wellFormed && machine.Valid()
    && EventQueue.CurrentSequence(w.store.docs) < Cursor.MAX_INT64
  }

  /** The repository was seen before, on another branch or at another commit. */
  predicate Changed(w: World, r: Reading) {
    && r.current in w.observations
    && (r.sha != w.observations[r.current].sha || r.branch != w.observations[r.current].branch)
  }

  lemma PassIsOk(w: World, r: Reading, now: int, machine: EventQueue.Machine)
    requires Ok(w)
    ensures Ok(Pass(w, r, now, machine))
  {
    var u := Apply(w, Observe(r, now), machine);
    StepIsOk(w, Observe(r, now), machine);
    StepIsOk(u, Enqueue(now), machine);
    StepIsOk(Apply(u, Enqueue(now), machine), Save(false), machine);
  }

  /** First sight is remembered and nothing else. */
  lemma FirstSight(w: World, r: Reading, now: int, machine: EventQueue.Machine)
    requires Ready(w, r, now, machine) && r.current !in w.observations
    ensures Pass(w, r, now, machine)
            == w.(observations := w.observations[r.current := r.Seen(now)], firsts := w.firsts[r.current := r.sha])
  {
  }

  /** What a change has the poller enqueue. */
  function Pushed(r: Reading): EventQueue.Event {
    EventQueue.Event(HeadId(r.current, r.sha), r.current, EventQueue.DefaultBranchUpdated, r.wellFormed)
  }

  lemma ChangeIsObserved(w: World, r: Reading, now: int, machine: EventQueue.Machine)
    requires ObservationsOk(w) && Ready(w, r, now, machine) && Changed(w, r)
    ensures Apply(w, Observe(r, now), machine) == w.(flight := Some(Enqueueing(Pushed(r), r.Seen(now))))
  {
  }

  lemma SavingEnds(w: World, next: Observation, machine: EventQueue.Machine)
    requires w.flight == Some(Saving(next)) && next.Valid() && next.repository in w.observations
    ensures Apply(w, Save(false), machine)
            == w.(observations := w.observations[next.repository := next], flight := None)
  {
  }

  lemma UnmarkedIsQueued(w: World, f: Flight, machine: EventQueue.Machine, now: int)
    requires Ok(w) && w.flight == Some(f) && f.Enqueueing? && f.event.Valid() && machine.Valid()
    requires f.event.id !in w.store.docs.markers && EventQueue.CurrentSequence(w.store.docs) < Cursor.MAX_INT64
    ensures var step := EventQueueRuns.Enqueue(f.event, [machine], now);
            Apply(w, Enqueue(now), machine)
            == w.(store := EventQueueRuns.Apply(w.store, step),
                  queued := w.queued + [Head(f.next.repository, f.next.sha)],
                  flight := Some(Saving(f.next)))
  {
    EventQueue.IdsOfOne(machine);
  }

  /** A change at a head whose identifier is marked leaves the store and the queue alone and is remembered. */
  lemma MarkedChange(w: World, r: Reading, now: int, machine: EventQueue.Machine)
    requires Ok(w) && Ready(w, r, now, machine) && Changed(w, r) && HeadId(r.current, r.sha) in w.store.docs.markers
    ensures Pass(w, r, now, machine) == w.(observations := w.observations[r.current := r.Seen(now)])
  {
    PollIdsArePrefixed(r.current, EventQueue.DefaultBranchUpdated, r.sha);
    ChangeIsObserved(w, r, now, machine);
    var u := w.(flight := Some(Enqueueing(Pushed(r), r.Seen(now))));
    StepIsOk(w, Observe(r, now), machine);
    ReplayChangesNothing(u, machine, now);
    SavingEnds(u.(flight := Some(Saving(r.Seen(now)))), r.Seen(now), machine);
  }

  /** A change at any other head is queued and remembered. */
  lemma UnmarkedChange(w: World, r: Reading, now: int, machine: EventQueue.Machine)
    requires Ok(w) && Ready(w, r, now, machine) && Changed(w, r) && HeadId(r.current, r.sha) !in w.store.docs.markers
    ensures var v := Pass(w, r, now, machine);
            && v == w.(store := v.store, queued := w.queued + [Head(r.current, r.sha)],
                       observations := w.observations[r.current := r.Seen(now)])
            && v.store == EventQueueRuns.Apply(w.store, EventQueueRuns.Enqueue(Pushed(r), [machine], now))
  {
    PollIdsArePrefixed(r.current, EventQueue.DefaultBranchUpdated, r.sha);
    ChangeIsObserved(w, r, now, machine);
    var f := Enqueueing(Pushed(r), r.Seen(now));
    var u := w.(flight := Some(f));
    StepIsOk(w, Observe(r, now), machine);
    UnmarkedIsQueued(u, f, machine, now);
    SavingEnds(Apply(u, Enqueue(now), machine), r.Seen(now), machine);
  }

  /**
   A changed reading is remembered in any case, and queued if and only if no head with its identifier was
   queued before.
   */
  lemma QueuedIffIdIsNew(steps: seq<Step>, r: Reading, now: int, machine: EventQueue.Machine)
    requires Ready(Run(steps, machine), r, now, machine) && Changed(Run(steps, machine), r)
    ensures var w := Run(steps, machine);
            var v := Pass(w, r, now, machine);
            && v.observations == w.observations[r.current := r.Seen(now)]
            && (v.queued == w.queued + [Head(r.current, r.sha)] <==>
                  forall h | h in w.queued :: IdOf(h) != HeadId(r.current, r.sha))
            && (v.queued != w.queued + [Head(r.current, r.sha)] ==> v.queued == w.queued && v.store == w.store)
  {
    var w := Run(steps, machine);
    RunIsOk(steps, machine);
    PollIdsArePrefixed(r.current, EventQueue.DefaultBranchUpdated, r.sha);
    if HeadId(r.current, r.sha) in w.store.docs.markers {
      MarkedChange(w, r, now, machine);
      var h :| h in w.queued && IdOf(h) == HeadId(r.current, r.sha);
      assert |w.queued + [Head(r.current, r.sha)]| != |w.queued|;
    } else {
      UnmarkedChange(w, r, now, machine);
    }
  }

  /** Between owners without an underscore: if and only if that repository was not queued at that commit before. */
  lemma PlainIsQueuedIffNew(steps: seq<Step>, r: Reading, now: int, machine: EventQueue.Machine)
    requires Ready(Run(steps, machine), r, now, machine) && Changed(Run(steps, machine), r)
    requires AllPlain(steps) && Plain(r.current, r.sha)
    ensures var w := Run(steps, machine);
            Pass(w, r, now, machine).queued == w.queued + [Head(r.current, r.sha)] <==>
              Head(r.current, r.sha) !in w.queued
  {
    var w := Run(steps, machine);
    QueuedIffIdIsNew(steps, r, now, machine);
    RunStaysPlain(steps, machine);
    forall h | h in w.queued && IdOf(h) == HeadId(r.current, r.sha)
      ensures h == Head(r.current, r.sha)
    {
      PlainHeadsAreApart(h, Head(r.current, r.sha));
    }
  }

  // ----- One reading, told by its fields -----

  /**
   What is made of a reading: remembered at first sight, nothing while branch and commit are the same, and
   otherwise a push of that commit or, under another name, a rename.
   */
  lemma ReadingIsJudged(previous: Option<Observation>, r: Reading)
    ensures match PlanFor(previous, r)
            case Record => previous.None?
            case Quiet => previous.Some? && previous.value.repository == r.current
                && previous.value.branch == r.branch && previous.value.sha == r.sha
            case Push(event) =>
              && previous.Some? && previous.value.repository == r.current
              && (previous.value.branch != r.branch || previous.value.sha != r.sha)
              && event == EventQueue.Event(HeadId(r.current, r.sha), r.current, EventQueue.DefaultBranchUpdated,
                  r.wellFormed)
            case Rename(event) =>
              && previous.Some? && previous.value.repository != r.current
              && event == EventQueue.Event(EventId(r.current, EventQueue.RepositoryRenamed, r.current), r.current,
                  EventQueue.RepositoryRenamed, r.wellFormed)
  {
  }

  /** An observation is worth storing, and one stored is read back, when every text and its time are set. */
  lemma ObservationIsStoredIff(observations: Observations, next: Observation)
    ensures var complete := !IsBlank(next.repository) && !IsBlank(next.fullName) && !IsBlank(next.branch)
                            && !IsBlank(next.sha) && next.observedAt != 0;
            && Stored(observations, next) == (if complete then observations[next.repository := next] else observations)
            && (complete ==> Loadable(Stored(observations, next), next.repository))
    ensures forall key | key in observations :: Loadable(observations, key) <==>
              && !IsBlank(key) && observations[key].repository == key && !IsBlank(observations[key].fullName)
              && !IsBlank(observations[key].branch) && !IsBlank(observations[key].sha) && observations[key].observedAt != 0
    ensures forall key | key !in observations :: Loadable(observations, key) <==> !IsBlank(key)
  {
  }

  // ----- The two ways to lose a push, from nothing stored -----

  lemma SequenceGrowsByOne(w: EventQueueRuns.World, event: EventQueue.Event, machine: EventQueue.Machine, now: int)
    requires EventQueueRuns.Sound(w)
    ensures EventQueue.CurrentSequence(EventQueueRuns.Apply(w, EventQueueRuns.Enqueue(event, [machine], now)).docs)
            <= EventQueue.CurrentSequence(w.docs) + 1
  {
    var answer := EventQueue.EnqueueAnswer(w.docs, event, [machine]);
    if answer.Success? && answer.value.Enqueued? {
      EventQueueRuns.AdmittedFacts(w.docs, event, [machine], now);
    } else {
      EventQueueRuns.RefusedFacts(w.docs, event, [machine], now);
    }
  }

  /** What a pass may start from: an invariant state with nothing in flight, and at most n sequences used. */
  ghost predicate Calm(w: World, n: int) {
    Ok(w) && w.flight.None? && EventQueue.CurrentSequence(w.store.docs) <= n
  }

  /** What a change leaves for the passes after it: heads stay marked, and at most one sequence is used up. */
  lemma ChangeGoesOn(w: World, n: int, r: Reading, now: int, machine: EventQueue.Machine, v: World)
    requires Calm(w, n) && Ready(w, r, now, machine) && Changed(w, r) && v == Pass(w, r, now, machine)
    ensures Calm(v, n + 1) && v.observations == w.observations[r.current := r.Seen(now)]
    ensures forall id | id in w.store.docs.markers :: id in v.store.docs.markers
  {
    PassIsOk(w, r, now, machine);
    if HeadId(r.current, r.sha) in w.store.docs.markers {
      MarkedChange(w, r, now, machine);
    } else {
      UnmarkedChange(w, r, now, machine);
      MarkersGrow(w.store, EventQueueRuns.Enqueue(Pushed(r), [machine], now));
      SequenceGrowsByOne(w.store, Pushed(r), machine, now);
    }
  }

  /** The same, of a head not marked yet. */
  lemma PushGoesOn(w: World, n: int, r: Reading, now: int, machine: EventQueue.Machine, v: World)
    requires Calm(w, n) && Ready(w, r, now, machine) && Changed(w, r) && v == Pass(w, r, now, machine)
    requires HeadId(r.current, r.sha) !in w.store.docs.markers
    ensures Calm(v, n + 1) && v.observations == w.observations[r.current := r.Seen(now)]
    ensures v.queued == w.queued + [Head(r.current, r.sha)] && HeadId(r.current, r.sha) in v.store.docs.markers
  {
    ChangeGoesOn(w, n, r, now, machine, v);
    UnmarkedChange(w, r, now, machine);
    QueuedIsMarked(v, Head(r.current, r.sha));
  }

  lemma QueuedIsMarked(w: World, h: Head)
    requires QueuedOk(w) && h in w.queued
    ensures IdOf(h) in w.store.docs.markers
  {
  }

  /** First sight leaves no less. */
  lemma SightGoesOn(w: World, n: int, r: Reading, now: int, machine: EventQueue.Machine, v: World)
    requires Calm(w, n) && Ready(w, r, now, machine) && r.current !in w.observations && v == Pass(w, r, now, machine)
    ensures Calm(v, n) && v.observations == w.observations[r.current := r.Seen(now)]
    ensures v.store == w.store && v.queued == w.queued
  {
    PassIsOk(w, r, now, machine);
    FirstSight(w, r, now, machine);
  }

  /** A reading whose contents do not stand in the way of a pass. */
  predicate Usable(r: Reading, now: int) { r.Seen(now).Valid() && r.wellFormed }

  /** What is known of a world whose latest pass was over r. */
  ghost predicate After(w: World, n: int, r: Reading, now: int) {
    Calm(w, n) && r.current in w.observations && w.observations[r.current] == r.Seen(now)
  }

  lemma AfterIsReady(w: World, n: int, r1: Reading, r2: Reading, now: int, machine: EventQueue.Machine)
    requires After(w, n, r1, now) && n < Cursor.MAX_INT64 && Usable(r2, now) && machine.Valid()
    requires r1.current == r2.current && r1.sha != r2.sha
    ensures Ready(w, r2, now, machine) && Changed(w, r2)
  {
  }

  lemma SightFromStart(r: Reading, now: int, machine: EventQueue.Machine, w: World)
    requires Usable(r, now) && machine.Valid() && w == Pass(START, r, now, machine)
    ensures After(w, 0, r, now) && (forall k | k in w.observations :: k == r.current)
    ensures w.queued == [] && w.store.docs.markers == map[]
  {
    StartIsOk();
    SightGoesOn(START, 0, r, now, machine, w);
  }

  /** What is known after the first push anybody made. */
  lemma FirstPush(r1: Reading, r2: Reading, now: int, machine: EventQueue.Machine, w1: World, w2: World)
    requires r1.current == r2.current && r1.sha != r2.sha && machine.Valid() && Usable(r1, now) && Usable(r2, now)
    requires w1 == Pass(START, r1, now, machine) && w2 == Pass(w1, r2, now, machine)
    ensures After(w2, 1, r2, now) && (forall k | k in w2.observations :: k == r2.current)
    ensures w2.queued == [Head(r2.current, r2.sha)] && HeadId(r2.current, r2.sha) in w2.store.docs.markers
  {
    SightFromStart(r1, now, machine, w1);
    AfterIsReady(w1, 0, r1, r2, now, machine);
    PushGoesOn(w1, 0, r2, now, machine, w2);
  }

  lemma Back(w: World, a: Reading, b: Reading, now: int, machine: EventQueue.Machine, v: World)
    requires After(w, 1, b, now) && HeadId(b.current, b.sha) in w.store.docs.markers
    requires a.current == b.current && a.sha != b.sha && machine.Valid() && Usable(a, now)
    requires v == Pass(w, a, now, machine)
    ensures After(v, 2, a, now)
    ensures HeadId(b.current, b.sha) in v.store.docs.markers
  {
    AfterIsReady(w, 1, b, a, now, machine);
    ChangeGoesOn(w, 1, a, now, machine, v);
  }

  lemma Again(w: World, a: Reading, b: Reading, now: int, machine: EventQueue.Machine, v: World)
    requires After(w, 2, a, now) && HeadId(b.current, b.sha) in w.store.docs.markers
    requires a.current == b.current && a.sha != b.sha && machine.Valid() && Usable(b, now)
    requires v == Pass(w, b, now, machine)
    ensures v == w.(observations := w.observations[b.current := b.Seen(now)])
  {
    AfterIsReady(w, 2, a, b, now, machine);
    MarkedChange(w, b, now, machine);
  }

  /** Pushed from a to b, back to a, and to b again: the last push is remembered and never queued. */
  lemma ReturnIsSwallowed(a: Reading, b: Reading, now: int, machine: EventQueue.Machine, w1: World, w2: World,
      w3: World, w4: World)
    requires a.current == b.current && a.sha != b.sha && machine.Valid() && Usable(a, now) && Usable(b, now)
    requires w1 == Pass(START, a, now, machine) && w2 == Pass(w1, b, now, machine)
    requires w3 == Pass(w2, a, now, machine) && w4 == Pass(w3, b, now, machine)
    ensures a.current in w3.observations && w3.observations[a.current] == a.Seen(now)
    ensures w4 == w3.(observations := w3.observations[b.current := b.Seen(now)])
  {
    FirstPush(a, b, now, machine, w1, w2);
    Back(w2, a, b, now, machine, w3);
    Again(w3, a, b, now, machine, w4);
  }

  /**
   Two repositories whose flattened names are one, pushed to the same commit: the second push is taken for
   a replay of the first, remembered, and never queued.
   */
  lemma CollidingHeadIsSwallowed(t1: Reading, t2: Reading, m1: Reading, m2: Reading, now: int,
      machine: EventQueue.Machine,
      w1: World, w2: World, w3: World, w4: World)
    requires t1.current == t2.current != m1.current == m2.current
    requires t2.sha == m2.sha && t1.sha != t2.sha && m1.sha != m2.sha
    requires HeadId(t2.current, t2.sha) == HeadId(m2.current, m2.sha)
    requires machine.Valid() && Usable(t1, now) && Usable(t2, now) && Usable(m1, now) && Usable(m2, now)
    requires w1 == Pass(START, t1, now, machine) && w2 == Pass(w1, t2, now, machine)
    requires w3 == Pass(w2, m1, now, machine) && w4 == Pass(w3, m2, now, machine)
    ensures m2.current in w4.observations && w4.observations[m2.current] == m2.Seen(now)
    ensures w4.queued == [Head(t2.current, t2.sha)] && w4.store == w2.store
  {
    FirstPush(t1, t2, now, machine, w1, w2);
    SightGoesOn(w2, 1, m1, now, machine, w3);
    MarkedChange(w3, m2, now, machine);
  }

  /** So it is for every owner with an underscore inside, and the owner that is left when it is cut there. */
  lemma UnderscoredOwnersLosePushes(left: string, right: string, name: string, longer: string, sha: Name,
      t1: Reading, t2: Reading, m1: Reading, m2: Reading, now: int, machine: EventQueue.Machine)
    requires longer == right + ("_" + name) && WellFormed(left + ("_" + right), name) && WellFormed(left, longer)
    requires t1.current == t2.current == Canonical(left + ("_" + right), name)
    requires m1.current == m2.current == Canonical(left, longer)
    requires t2.sha == m2.sha == sha && t1.sha != sha && m1.sha != sha
    requires machine.Valid() && Usable(t1, now) && Usable(t2, now) && Usable(m1, now) && Usable(m2, now)
    ensures var w2 := Pass(Pass(START, t1, now, machine), t2, now, machine);
            var w4 := Pass(Pass(w2, m1, now, machine), m2, now, machine);
            && m2.current in w4.observations && w4.observations[m2.current] == m2.Seen(now)
            && w4.queued == [Head(t2.current, sha)] && w4.store == w2.store
  {
    UnderscoredOwnersCollide(left + ("_" + right), left, right, name, longer, sha);
    var w1 := Pass(START, t1, now, machine);
    var w2 := Pass(w1, t2, now, machine);
    var w3 := Pass(w2, m1, now, machine);
    CollidingHeadIsSwallowed(t1, t2, m1, m2, now, machine, w1, w2, w3, Pass(w3, m2, now, machine));
  }
}
