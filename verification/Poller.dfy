/**
 The poller that stands in for webhooks: it compares what GitHub says of a repository with what it saw
 last, and enqueues the difference.
 */
module Poller {
  import opened Wrappers
  import opened Text
  import opened PollIds
  import EventQueue

  const UNSET := 0
  const MAX_BACKOFF := 600_000_000_000
  const DEFAULT_INTERVAL := 60_000_000_000

  datatype Observation = Observation(repository: Name, fullName: Name, branch: Name, sha: Name, observedAt: int) {
    predicate Valid() { !IsBlank(repository) && !IsBlank(fullName) && !IsBlank(branch) && !IsBlank(sha)
        && observedAt != UNSET }
  }

  type Observations = map<Name, Observation>

  /** One reading of a repository; wellFormed is the outcome of the event contract's checks. */
  datatype Reading = Reading(current: Name, fullName: Name, branch: Name, sha: Name, wellFormed: bool) {
    function Seen(now: int): Observation { Observation(current, fullName, branch, sha, now) }
  }

  datatype Plan = Record | Quiet | Rename(event: EventQueue.Event) | Push(event: EventQueue.Event)

  function PlanFor(previous: Option<Observation>, r: Reading): Plan {
    if previous.None? then Record
    else if r.current != previous.value.repository then
      Rename(EventQueue.Event(EventId(r.current, EventQueue.RepositoryRenamed, r.current), r.current,
          EventQueue.RepositoryRenamed, r.wellFormed))
    else if r.sha == previous.value.sha && r.branch == previous.value.branch then Quiet
    else Push(EventQueue.Event(HeadId(r.current, r.sha), r.current, EventQueue.DefaultBranchUpdated, r.wellFormed))
  }

  predicate Loadable(observations: Observations, key: Name) {
    !IsBlank(key) && (key in observations ==> observations[key].Valid() && observations[key].repository == key)
  }

  function Stored(observations: Observations, next: Observation): Observations {
    if next.Valid() then observations[next.repository := next] else observations
  }

  class Poller {
    const events: EventQueue.RepositoryEventStore
    const machine: EventQueue.Machine
    const interval: int
    var observations: Observations
    var backoff: int

    constructor (events: EventQueue.RepositoryEventStore, machine: EventQueue.Machine, configured: int)
      ensures this.events == events && this.machine == machine && observations == map[]
      ensures interval == (if configured <= 0 then DEFAULT_INTERVAL else configured) && backoff == interval
    {
      this.events, this.machine, observations := events, machine, map[];
      interval := if configured <= 0 then DEFAULT_INTERVAL else configured;
      backoff := if configured <= 0 then DEFAULT_INTERVAL else configured;
    }

    method LoadPollObservation(key: Name) returns (previous: Option<Observation>, failed: bool)
      ensures failed == !Loadable(observations, key)
      ensures !failed ==> previous == Lookup(observations, key)
    {
      previous := Lookup(observations, key);
      failed := IsBlank(key) || (previous.Some? && (!previous.value.Valid() || previous.value.repository != key));
    }

    method SavePollObservation(next: Observation) returns (failed: bool)
      modifies this`observations
      ensures failed == !next.Valid() && observations == Stored(old(observations), next)
    {
      failed := !next.Valid();
      if !failed { observations := observations[next.repository := next]; }
    }

    method DeletePollObservation(key: Name) returns (failed: bool)
      modifies this`observations
      ensures failed == IsBlank(key) && observations == if failed then old(observations) else old(observations) - {key}
    {
      failed := IsBlank(key);
      if !failed { observations := observations - {key}; }
    }

    /** A reading enqueues at most one event, before the observation that remembers it is saved. */
    method Reconcile(key: Name, r: Reading, now: int) returns (failed: bool)
      modifies this`observations, events
      ensures !Loadable(old(observations), key)
          ==> failed && observations == old(observations) && events.docs == old(events.docs)
      ensures Loadable(old(observations), key) ==>
                match PlanFor(Lookup(old(observations), key), r)
                case Quiet => !failed && observations == old(observations) && events.docs == old(events.docs)
                case Record => failed == !r.Seen(now).Valid() && observations
                    == Stored(old(observations), r.Seen(now)) && events.docs == old(events.docs)
                case Push(event) =>
                  && events.docs == EventQueue.EnqueueDocs(old(events.docs), event, [machine], now)
                  && (if EventQueue.EnqueueAnswer(old(events.docs), event, [machine]).Failure? then failed
                      && observations == old(observations)
                      else failed == !r.Seen(now).Valid() && observations == Stored(old(observations), r.Seen(now)))
                case Rename(event) =>
                  && events.docs == EventQueue.EnqueueDocs(old(events.docs), event, [machine], now)
                  && (if EventQueue.EnqueueAnswer(old(events.docs), event, [machine]).Failure? then failed
                      && observations == old(observations)
                      else if !r.Seen(now).Valid() then failed && observations == old(observations)
                      else !failed && observations == Stored(old(observations), r.Seen(now)) - {key})
    {
      var previous, unreadable := LoadPollObservation(key);
      if unreadable { return true; }
      var next := r.Seen(now);
      if previous.None? {
        failed := SavePollObservation(next);
        return;
      }
      if r.current != previous.value.repository {
        var renamed := EventQueue.Event(EventId(r.current, EventQueue.RepositoryRenamed, r.current), r.current,
            EventQueue.RepositoryRenamed, r.wellFormed);
        var answer := events.EnqueueForMachines(renamed, [machine], now);
        if answer.Failure? { return true; }
        failed := SavePollObservation(next);
        if failed { return; }
        failed := DeletePollObservation(previous.value.repository);
        return;
      }
      if r.sha == previous.value.sha && r.branch == previous.value.branch { return false; }
      var pushed := EventQueue.Event(HeadId(r.current, r.sha), r.current, EventQueue.DefaultBranchUpdated,
          r.wellFormed);
      var answer := events.EnqueueForMachines(pushed, [machine], now);
      if answer.Failure? { return true; }
      failed := SavePollObservation(next);
    }

    /** The current backoff, doubled for next time up to the cap. */
    method TransientDelay() returns (delay: int)
      requires interval > 0
      modifies this`backoff
      ensures delay == if old(backoff) <= 0 then interval else old(backoff)
      ensures delay < backoff <= 2 * delay || backoff == MAX_BACKOFF
      ensures backoff <= MAX_BACKOFF
    {
      delay := backoff;
      if delay <= 0 { delay := interval; }
      backoff := if delay * 2 < MAX_BACKOFF then delay * 2 else MAX_BACKOFF;
    }
  }
}
