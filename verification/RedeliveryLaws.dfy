/**
 How far apart redeliver calls really are, what a listing and a whole pass have to do with the steps of a
 run, and how long a pruned GUID is safe.
 */
module RedeliveryLaws {
  import opened Wrappers
  import opened Text
  import opened Listing
  import opened Redelivery
  import opened RedeliveryRuns

  // ----- The gap between calls -----

  lemma {:induction false} SweepsSpan(calls: seq<Call>, interval: int, i: nat, j: nat)
    requires Spaced(calls, interval) && i <= j < |calls|
    ensures calls[j].sweptAt - calls[i].sweptAt >= (j - i) * interval
  {
    if i < j {
      SweepsSpan(calls, interval, i, j - 1);
      assert (j - i) * interval == (j - 1 - i) * interval + interval;
    }
  }

  /**
   Two calls for one GUID are as many intervals apart as there are calls between, less what the earlier
   one was late after its sweep's start.
   */
  lemma GapIsIntervalLessDelay(steps: seq<Step>, interval: int, original: Name -> int, guid: Name, i: nat, j: nat)
    requires interval > 0 && AllListed(steps, interval, original)
    requires i < j < |CallsOf(Run(steps, interval), guid)|
    ensures var calls := CallsOf(Run(steps, interval), guid);
            calls[j].at - calls[i].at >= (j - i) * interval - (calls[i].at - calls[i].sweptAt)
  {
    RunIsOk(steps, interval, original);
    var calls := CallsOf(Run(steps, interval), guid);
    assert GuidOk(Run(steps, interval), guid, interval, original(guid));
    SweepsSpan(calls, interval, i, j);
    assert calls[j] in calls;
  }

  /** A sweep that starts at s and lists the item asks GitHub for it again. */
  predicate AsksAt(w: World, s: int, item: Delivery, newest: int, earliest: int, interval: int) {
    PlanFor(Lookup(w.records, item.guid), item, s, interval, newest, earliest).Ask?
  }

  /** A sweep after w that starts at s asks for the item again by a call at t. */
  predicate CallsAgain(w: World, s: int, t: int, item: Delivery, newest: int, earliest: int, interval: int) {
    w.clock <= s <= t && AsksAt(w, s, item, newest, earliest, interval)
  }

  /** Which it does by these steps, at any reading no earlier than its start. */
  lemma AskIsCalled(w: World, s: int, item: Delivery, newest: int, earliest: int, outcome: Outcome, t: int,
      interval: int, u: World, v: World)
    requires w.flight.None? && s >= w.clock && t >= s && AsksAt(w, s, item, newest, earliest, interval)
    requires u == Apply(Apply(w, Begin(s), interval), Act(item, newest, earliest), interval)
    requires v == Apply(u, Return(outcome, t), interval)
    ensures exists c :: CallsOf(v, item.guid) == CallsOf(w, item.guid) + [c] && c.sweptAt == s && c.at == t
  {
    var p := PlanFor(Lookup(w.records, item.guid), item, s, interval, newest, earliest);
    var call := Call(s, t, p.counted, outcome);
    assert CallsOf(v, item.guid) == CallsOf(w, item.guid) + [call];
  }

  function Later(a: int, b: int): int { if a > b then a else b }

  /** The record still says what the last call left, and there is budget and age left for another. */
  predicate IsRetryable(w: World, guid: Name, c: Call, interval: int) {
    && guid in w.records && !w.records[guid].abandoned && w.records[guid].attempts < MAX_ATTEMPTS
    && w.records[guid].lastAttemptAt == c.sweptAt
    && Later(c.at, c.sweptAt + interval) - w.records[guid].firstDeliveredAt <= MAX_DELIVERY_AGE
  }

  /**
   Right after a call, every later sweep that asks again does so at least an interval after it if and only
   if the call was no later than its sweep's start.
   */
  lemma GapIsExact(w: World, c: Call, item: Delivery, newest: int, earliest: int, interval: int)
    requires interval > 0 && w.clock == c.at && c.sweptAt <= c.at && IsRetryable(w, item.guid, c, interval)
    ensures (forall s, t | CallsAgain(w, s, t, item, newest, earliest, interval) :: t - c.at >= interval)
            <==> c.at <= c.sweptAt
  {
    if c.at > c.sweptAt {
      var s := Later(c.at, c.sweptAt + interval);
      assert CallsAgain(w, s, s, item, newest, earliest, interval);
      assert s - c.at < interval;
    }
  }

  /** Two sweeps, the first of which calls late and crashes. */
  datatype Restart = Restart(first: Delivery, again: Delivery, start: int, delay: int, interval: int, seen: int,
      newest: int) {
    predicate Valid() {
      && 0 < delay <= interval && first.guid == again.guid && !IsBlank(first.guid)
      && NEVER < seen <= first.deliveredAt <= start && seen <= again.deliveredAt <= start + RETENTION - MAX_DELIVERY_AGE
      && start + interval - seen <= MAX_DELIVERY_AGE
    }
  }

  /** What the sweep before the crash leaves. */
  lemma FirstSweep(r: Restart, w1: World, w2: World, w3: World)
    requires r.Valid() && w1 == Apply(START, Begin(r.start), r.interval)
    requires w2 == Apply(w1, Act(r.first, r.newest, r.seen), r.interval)
    requires w3 == Apply(Apply(w2, Return(Accepted, r.start + r.delay), r.interval), Crash, r.interval)
    ensures w3.flight.None? && w3.clock == r.start + r.delay && r.first.guid in w3.records
    ensures var known := w3.records[r.first.guid];
            !known.abandoned && known.attempts <= 1 && known.firstDeliveredAt == r.seen && known.lastAttemptAt == r.start
    ensures exists c :: CallsOf(w3, r.first.guid) == [c] && c.sweptAt == r.start && c.at == r.start + r.delay
  {
    var w := Apply(w2, Return(Accepted, r.start + r.delay), r.interval);
    AskIsCalled(START, r.start, r.first, r.newest, r.seen, Accepted, r.start + r.delay, r.interval, w2, w);
    var c :| CallsOf(w, r.first.guid) == [] + [c] && c.sweptAt == r.start && c.at == r.start + r.delay;
    assert CallsOf(w3, r.first.guid) == [c];
  }

  /** From nothing stored: the call before the crash and the call after the restart are less than an interval apart. */
  lemma RestartCallsTooSoon(r: Restart, w1: World, w2: World, w3: World, w4: World, w5: World, w6: World)
    requires r.Valid() && w1 == Apply(START, Begin(r.start), r.interval)
    requires w2 == Apply(w1, Act(r.first, r.newest, r.seen), r.interval)
    requires w3 == Apply(Apply(w2, Return(Accepted, r.start + r.delay), r.interval), Crash, r.interval)
    requires w4 == Apply(w3, Begin(r.start + r.interval), r.interval)
    requires w5 == Apply(w4, Act(r.again, r.newest, r.seen), r.interval)
    requires w6 == Apply(w5, Return(Accepted, r.start + r.interval), r.interval)
    ensures var calls := CallsOf(w6, r.first.guid);
            |calls| == 2 && calls[1].at - calls[0].at == r.interval - r.delay < r.interval
  {
    FirstSweep(r, w1, w2, w3);
    var s := r.start + r.interval;
    assert AsksAt(w3, s, r.again, r.newest, r.seen, r.interval);
    AskIsCalled(w3, s, r.again, r.newest, r.seen, Accepted, s, r.interval, w5, w6);
  }

  /** Nothing of what runs take for granted about GitHub's list is broken in it. */
  lemma RestartIsListed(r: Restart, original: Name -> int, w1: World, w2: World, w3: World, w4: World)
    requires r.Valid() && original(r.first.guid) == r.first.deliveredAt
    requires w1 == Apply(START, Begin(r.start), r.interval)
    requires w2 == Apply(w1, Act(r.first, r.newest, r.seen), r.interval)
    requires w3 == Apply(Apply(w2, Return(Accepted, r.start + r.delay), r.interval), Crash, r.interval)
    requires w4 == Apply(w3, Begin(r.start + r.interval), r.interval)
    ensures Listed(w1, Act(r.first, r.newest, r.seen), original) && Listed(w4, Act(r.again, r.newest, r.seen), original)
  {
    FirstSweep(r, w1, w2, w3);
    var c :| CallsOf(w3, r.first.guid) == [c] && c.sweptAt == r.start && c.at == r.start + r.delay;
    assert CallsOf(w4, r.first.guid) == [c] && c in CallsOf(w4, r.first.guid);
  }

  // ----- How long a pruned GUID is safe -----

  /**
   A record last acted on by one reading is pruned at another, and a sweep after that finds the attempt in
   its window.
   */
  predicate IsListedAgain(lastActedAt: int, deliveredAt: int, pruned: int, swept: int) {
    lastActedAt < pruned - RETENTION && pruned <= swept && deliveredAt >= swept - MAX_DELIVERY_AGE
  }

  /**
   Some prune and some sweep after it find an attempt of a pruned GUID in the window exactly when GitHub
   lists it more than Retention less MaxDeliveryAge after the reading the hub last acted by.
   */
  lemma PrunedIsListedAgainIff(lastActedAt: int, deliveredAt: int)
    ensures (exists pruned, swept :: IsListedAgain(lastActedAt, deliveredAt, pruned, swept))
            <==> deliveredAt > lastActedAt + RETENTION - MAX_DELIVERY_AGE
  {
    if deliveredAt > lastActedAt + RETENTION - MAX_DELIVERY_AGE {
      var pruned := lastActedAt + RETENTION + 1;
      assert IsListedAgain(lastActedAt, deliveredAt, pruned, pruned);
    }
  }

  // ----- A listing gives what a sweep takes for granted of its items -----

  /** Every item a sweep acts on is in its window, with the earliest time its listing reports. */
  lemma ReportedIsInWindow(all: seq<Delivery>, now: int, listing: Findings, item: Delivery)
    requires Reports(all, now - MAX_DELIVERY_AGE, listing) && item in listing.failed
    requires forall x | x in all :: x.deliveredAt > NEVER
    ensures item.guid in listing.earliest && InWindow(item, listing.earliest[item.guid], now)
    ensures listing.earliest[item.guid] == EarliestOf(Sweep(now, 0, 0, listing.earliest), item.guid)
  {
    assert IsLatest(all, now - MAX_DELIVERY_AGE, item);
    var i :| 0 <= i < |all| && all[i] == item;
    assert item in all;
  }

  // ----- A whole pass is a run of steps -----

  /** What both a run and a pass tell of a call. */
  datatype Made = Made(sweptAt: int, counted: bool, outcome: Outcome)

  function MadeByCalls(calls: seq<Call>): seq<Made> {
    if calls == [] then []
    else
      var n := |calls| - 1;
      MadeByCalls(calls[..n]) + [Made(calls[n].sweptAt, calls[n].counted, calls[n].outcome)]
  }

  function MadeByRequests(requests: seq<Request>, guid: Name): seq<Made> {
    if requests == [] then []
    else
      var n := |requests| - 1;
      var before := MadeByRequests(requests[..n], guid);
      if requests[n].guid != guid then before
      else before + [Made(requests[n].sweptAt, requests[n].counted, requests[n].outcome)]
  }

  lemma MadeByOneMore(calls: seq<Call>, call: Call)
    ensures MadeByCalls(calls + [call]) == MadeByCalls(calls) + [Made(call.sweptAt, call.counted, call.outcome)]
  {
    assert (calls + [call])[..|calls|] == calls;
  }

  lemma RequestedOneMore(requests: seq<Request>, r: Request, guid: Name)
    ensures MadeByRequests(requests + [r], guid)
            == MadeByRequests(requests, guid) +
               if r.guid != guid then [] else [Made(r.sweptAt, r.counted, r.outcome)]
  {
    assert (requests + [r])[..|requests|] == requests;
  }

  /** Between two items the run and the pass tell the same: records, calls, and whether the sweep goes on. */
  ghost predicate Tracks(w: World, p: Pass, sweep: Sweep) {
    && w.flight.None? && w.records == p.records
    && w.sweep == (if p.stopped then None else Some(sweep.now))
    && forall guid :: MadeByCalls(CallsOf(w, guid)) == MadeByRequests(p.requests, guid)
  }

  /** Records the sweep can have written, and so will read back. */
  predicate AllReadable(records: Records) {
    forall guid | guid in records :: records[guid].Valid() && records[guid].guid == guid
  }

  function ItemSteps(sweep: Sweep, item: Delivery, outcome: Outcome, at: int): seq<Step> {
    [Act(item, sweep.newest, EarliestOf(sweep, item.guid)), Return(outcome, at), Finish]
  }

  /** The steps of a pass nothing interrupts, each call at its own reading. */
  function PassSteps(sweep: Sweep, items: seq<Delivery>, outcomes: seq<Outcome>, times: seq<int>): seq<Step>
    requires |outcomes| == |items| == |times|
  {
    if items == [] then []
    else
      var n := |items| - 1;
      PassSteps(sweep, items[..n], outcomes[..n], times[..n]) + ItemSteps(sweep, items[n], outcomes[n], times[n])
  }

  function Fold<S, T>(f: (S, T) -> S, s: S, xs: seq<T>): S {
    if xs == [] then s else f(Fold(f, s, xs[..|xs| - 1]), xs[|xs| - 1])
  }

  lemma FoldOneMore<S, T>(f: (S, T) -> S, s: S, xs: seq<T>, x: T)
    ensures Fold(f, s, xs + [x]) == f(Fold(f, s, xs), x)
  {
    assert (xs + [x])[..|xs|] == xs;
  }

  lemma FoldThreeMore<S, T>(f: (S, T) -> S, s: S, xs: seq<T>, a: T, b: T, c: T)
    ensures Fold(f, s, xs + [a, b, c]) == f(f(f(Fold(f, s, xs), a), b), c)
  {
    FoldOneMore(f, s, xs, a);
    FoldOneMore(f, s, xs + [a], b);
    FoldOneMore(f, s, xs + [a] + [b], c);
    assert xs + [a, b, c] == xs + [a] + [b] + [c];
  }

  /** A run of steps from any world. */
  function From(w: World, steps: seq<Step>, interval: int): World {
    Fold((v: World, step: Step) => Apply(v, step, interval), w, steps)
  }

  lemma FromThree(w: World, steps: seq<Step>, a: Step, b: Step, c: Step, interval: int)
    ensures From(w, steps + [a, b, c], interval)
            == Apply(Apply(Apply(From(w, steps, interval), a, interval), b, interval), c, interval)
  {
    FoldThreeMore((v: World, step: Step) => Apply(v, step, interval), w, steps, a, b, c);
  }

  /** Nothing in flight and no sweep under way: the steps of an item do nothing. */
  lemma StoppedDoesNothing(w: World, item: Delivery, newest: int, earliest: int, outcome: Outcome, at: int,
      interval: int)
    requires w.flight.None? && w.sweep.None?
    ensures Apply(Apply(Apply(w, Act(item, newest, earliest), interval),
                  Return(outcome, at), interval), Finish, interval) == w
  {
  }

  /** The steps of an item GitHub is asked for. */
  lemma AskedTracks(w: World, p: Pass, sweep: Sweep, item: Delivery, outcome: Outcome, at: int, saved: Record,
      counted: bool,
      u: World, v: World)
    requires Tracks(w, p, sweep) && !p.stopped && at >= w.clock && saved.guid == item.guid
    requires saved.lastAttemptAt == sweep.now
    requires u == w.(records := w.records[item.guid := saved], flight := Some(Saved(item, saved, counted)))
    requires v == Apply(Apply(u, Return(outcome, at), sweep.interval), Finish, sweep.interval)
    ensures Tracks(v, Ended(p, saved, counted, item, outcome, sweep.now), sweep) && v.clock == at
  {
    var call := Call(sweep.now, at, counted, outcome);
    var request := Request(item.id, item.guid, sweep.now, counted, outcome);
    assert CallsOf(v, item.guid) == CallsOf(w, item.guid) + [call];
    forall guid
      ensures MadeByCalls(CallsOf(v, guid)) == MadeByRequests(p.requests + [request], guid)
    {
      RequestedOneMore(p.requests, request, guid);
      if guid == item.guid {
        MadeByOneMore(CallsOf(w, guid), call);
      } else {
        assert CallsOf(v, guid) == CallsOf(w, guid);
      }
    }
    AskedRecords(w, p, sweep, item, outcome, at, saved, counted, u, v);
  }

  lemma AskedRecords(w: World, p: Pass, sweep: Sweep, item: Delivery, outcome: Outcome, at: int, saved: Record,
      counted: bool, u: World, v: World)
    requires w.records == p.records && at >= w.clock && saved.guid == item.guid
    requires u == w.(records := w.records[item.guid := saved], flight := Some(Saved(item, saved, counted)))
    requires v == Apply(Apply(u, Return(outcome, at), sweep.interval), Finish, sweep.interval)
    ensures v.records == Ended(p, saved, counted, item, outcome, sweep.now).records && v.flight.None?
  {
    var settled := Settle(saved, counted, outcome);
    if settled.Some? {
      assert w.records[item.guid := saved][item.guid := settled.value] == w.records[item.guid := settled.value];
    }
  }

  lemma ItemTracks(w: World, p: Pass, sweep: Sweep, item: Delivery, outcome: Outcome, at: int, v: World)
    requires Tracks(w, p, sweep) && AllReadable(p.records) && at >= w.clock && sweep.now != NEVER
    requires !IsBlank(item.guid) && EarliestOf(sweep, item.guid) != NEVER
    requires v == Apply(Apply(Apply(w, Act(item, sweep.newest, EarliestOf(sweep, item.guid)), sweep.interval),
                              Return(outcome, at), sweep.interval), Finish, sweep.interval)
    ensures Tracks(v, OneItem(p, sweep, item, outcome), sweep) && v.clock <= at
    ensures AllReadable(OneItem(p, sweep, item, outcome).records)
  {
    var earliest := EarliestOf(sweep, item.guid);
    if p.stopped {
      StoppedDoesNothing(w, item, sweep.newest, earliest, outcome, at, sweep.interval);
    } else {
      var plan := PlanFor(Lookup(p.records, item.guid), item, sweep.now, sweep.interval, sweep.newest, earliest);
      if plan.Ask? {
        AskedTracks(w, p, sweep, item, outcome, at, plan.saved, plan.counted,
                    Apply(w, Act(item, sweep.newest, earliest), sweep.interval), v);
      } else {
        NotAskedTracks(w, p, sweep, item, outcome, at, v);
      }
    }
  }

  /** The steps of an item that is left alone or given up on. */
  lemma NotAskedTracks(w: World, p: Pass, sweep: Sweep, item: Delivery, outcome: Outcome, at: int, v: World)
    requires Tracks(w, p, sweep) && !p.stopped && AllReadable(p.records) && sweep.now != NEVER
    requires !IsBlank(item.guid) && EarliestOf(sweep, item.guid) != NEVER
    requires !PlanFor(Lookup(p.records, item.guid), item, sweep.now, sweep.interval, sweep.newest,
                      EarliestOf(sweep, item.guid)).Ask?
    requires v == Apply(Apply(Apply(w, Act(item, sweep.newest, EarliestOf(sweep, item.guid)), sweep.interval),
                              Return(outcome, at), sweep.interval), Finish, sweep.interval)
    ensures Tracks(v, OneItem(p, sweep, item, outcome), sweep) && v.clock == w.clock
  {
    assert forall guid :: CallsOf(v, guid) == CallsOf(w, guid);
  }

  /**
   A pass nothing interrupts is a run of steps: it leaves the same records, makes the same calls, and stops
   where the run's sweep ends.
   */
  lemma {:induction false} PassIsSteps(w: World, p: Pass, sweep: Sweep, items: seq<Delivery>, outcomes: seq<Outcome>,
      times: seq<int>)
    requires |outcomes| == |items| == |times| && sweep.now != NEVER
    requires Tracks(w, p, sweep) && AllReadable(p.records)
    requires forall item | item in items :: !IsBlank(item.guid) && EarliestOf(sweep, item.guid) != NEVER
    requires forall i | 0 <= i < |times| :: times[i] >= w.clock
    requires forall i, j | 0 <= i < j < |times| :: times[i] <= times[j]
    ensures var v := From(w, PassSteps(sweep, items, outcomes, times), sweep.interval);
            && Tracks(v, WholePass(p, sweep, items, outcomes), sweep)
            && AllReadable(WholePass(p, sweep, items, outcomes).records)
            && v.clock <= if times == [] then w.clock else times[|times| - 1]
  {
    if items != [] {
      var n := |items| - 1;
      PassIsSteps(w, p, sweep, items[..n], outcomes[..n], times[..n]);
      var steps := PassSteps(sweep, items[..n], outcomes[..n], times[..n]);
      var u := From(w, steps, sweep.interval);
      var earliest := EarliestOf(sweep, items[n].guid);
      FromThree(w, steps, Act(items[n], sweep.newest, earliest), Return(outcomes[n], times[n]), Finish, sweep.interval);
      ItemTracks(u, WholePass(p, sweep, items[..n], outcomes[..n]), sweep, items[n], outcomes[n], times[n],
                 From(w, PassSteps(sweep, items, outcomes, times), sweep.interval));
    }
  }
}
