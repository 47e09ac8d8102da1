/** When the sweep asks, when an attempt is spent, and when a GUID is given up, told by the fields of what it reads. */
module SweepLaws {
  import opened Wrappers
  import opened Text
  import opened Listing
  import opened Redelivery
  import opened RedeliveryRuns

  // ----- One decision -----

  /** GitHub got an answer other than a gateway's for this attempt. */
  predicate GotThrough(item: Delivery) {
    item.status != 0 && item.status != 502 && item.status != 504 && item.status != 530
  }

  /** When the hub last acted on the GUID, and by which attempt. */
  function LastAt(w: World, guid: Name): int { if guid in w.records then w.records[guid].lastAttemptAt else NEVER }
  function LastId(w: World, guid: Name): int { if guid in w.records then w.records[guid].lastAttemptId else 0 }
  function Spent(w: World, guid: Name): int { if guid in w.records then w.records[guid].attempts else 0 }
  function FirstAt(w: World, guid: Name, earliest: int): int {
    if guid in w.records then w.records[guid].firstDeliveredAt else earliest
  }

  /** Something was answered since the hub last acted on the GUID, or this very attempt was and is another one. */
  predicate HasEvidence(w: World, item: Delivery, newest: int) {
    newest > LastAt(w, item.guid) || (GotThrough(item) && item.id != LastId(w, item.guid))
  }

  predicate IsOver(w: World, guid: Name) { guid in w.records && w.records[guid].abandoned }

  predicate IsTooSoon(w: World, guid: Name, now: int, interval: int) {
    guid in w.records && now < w.records[guid].lastAttemptAt + interval
  }

  predicate IsTooOld(w: World, guid: Name, now: int, earliest: int) {
    now > FirstAt(w, guid, earliest) + 72 * HOUR
  }

  /** An item is asked for, with a call due. */
  predicate IsAsked(w: World, item: Delivery, now: int, earliest: int, interval: int) {
    && !IsOver(w, item.guid) && !IsTooOld(w, item.guid, now, earliest) && !IsTooSoon(w, item.guid, now, interval)
    && Spent(w, item.guid) < 3
  }

  /** An item is given up on: too old at any time, or out of attempts once the interval has passed. */
  predicate IsGivenUp(w: World, item: Delivery, now: int, earliest: int, interval: int) {
    && !IsOver(w, item.guid)
    && (IsTooOld(w, item.guid, now, earliest) || (Spent(w, item.guid) >= 3 && !IsTooSoon(w, item.guid, now, interval)))
  }

  /**
   What a sweep makes of one item. A call is due exactly when it is asked for, and then the attempt is spent,
   before the call, exactly when there is evidence; a GUID given up on is marked so; everything else is left alone.
   */
  lemma DecisionIsExact(w: World, item: Delivery, newest: int, earliest: int, interval: int)
    requires w.flight.None? && w.sweep.Some?
    ensures var v, now := Apply(w, Act(item, newest, earliest), interval), w.sweep.value;
            var first := FirstAt(w, item.guid, earliest);
            if IsAsked(w, item, now, earliest, interval) then
              var spent := Spent(w, item.guid) + if HasEvidence(w, item, newest) then 1 else 0;
              var saved := Record(item.guid, spent, false, now, item.id, first);
              v == w.(records := w.records[item.guid := saved], flight := Some(Saved(item, saved, HasEvidence(w, item,
                  newest))))
            else if IsGivenUp(w, item, now, earliest, interval) then
              v == w.(records := w.records[item.guid := Record(item.guid, Spent(w, item.guid), true, now, item.id,
                  first)])
            else v == w
  {
    EvidenceIsReachable(w, item, newest);
  }

  lemma EvidenceIsReachable(w: World, item: Delivery, newest: int)
    ensures HasEvidence(w, item, newest) <==>
              Reachable(newest, LastAt(w, item.guid), item, LastId(w, item.guid))
  {
  }

  // ----- What follows over runs -----

  /** Nothing tells the sweep that the endpoint answers, whenever it acts on this GUID. */
  ghost predicate AllSilent(steps: seq<Step>, interval: int, guid: Name) {
    forall n | 0 <= n < |steps| :: IsSilent(Run(steps[..n], interval), steps[n], guid)
  }

  predicate IsSilent(w: World, step: Step, guid: Name) {
    step.Act? && step.item.guid == guid ==> !GotThrough(step.item) && step.newest <= LastAt(w, guid)
  }

  predicate Untried(w: World, guid: Name) {
    && (guid in w.records ==>
          var r := w.records[guid];
          r.attempts == 0 && (r.abandoned ==> r.lastAttemptAt - r.firstDeliveredAt > 72 * HOUR))
    && (w.flight.Some? && w.flight.value.Saved? ==> w.flight.value.record.guid == w.flight.value.item.guid)
    && (w.flight.Some? && w.flight.value.Guid() == guid ==> w.flight.value.Saved? && !w.flight.value.counted)
  }

  lemma StepLeavesUntried(w: World, step: Step, interval: int, guid: Name)
    requires Untried(w, guid) && IsSilent(w, step, guid)
    ensures Untried(Apply(w, step, interval), guid)
  {
    if step.Act? && Enabled(w, step) {
      DecisionIsExact(w, step.item, step.newest, step.earliest, interval);
    }
  }

  /**
   While nothing is seen to be answered, a GUID costs no attempt, however many calls are made, and it is
   given up only once it is older than the maximum age.
   */
  lemma {:induction false} OutageSpendsNothing(steps: seq<Step>, interval: int, guid: Name)
    requires AllSilent(steps, interval, guid)
    ensures Untried(Run(steps, interval), guid)
  {
    if steps != [] {
      var n := |steps| - 1;
      assert forall k | 0 <= k < n :: steps[..n][..k] == steps[..k] && steps[..n][k] == steps[k];
      OutageSpendsNothing(steps[..n], interval, guid);
      assert IsSilent(Run(steps[..n], interval), steps[n], guid);
      StepLeavesUntried(Run(steps[..n], interval), steps[n], interval, guid);
    }
  }

  /** The counted calls that were not taken back: GitHub took or rejected them, or was not reached at all. */
  function Kept(calls: seq<Call>): nat {
    if calls == [] then 0
    else
      var last := calls[|calls| - 1];
      Kept(calls[..|calls| - 1]) + (if last.counted && last.outcome != Systemic then 1 else 0)
  }

  lemma KeptAppends(calls: seq<Call>, call: Call)
    ensures Kept(calls + [call]) == Kept(calls) + (if call.counted && call.outcome != Systemic then 1 else 0)
  {
    assert (calls + [call])[..|calls|] == calls;
  }

  /** No crash comes between a save and the call or the save it announces. */
  ghost predicate NoneCutShort(steps: seq<Step>, interval: int) {
    forall n | 0 <= n < |steps| :: steps[n].Crash? ==> Run(steps[..n], interval).flight.None?
  }

  /** The attempts stored, or about to be, are those of the counted calls that were not taken back. */
  predicate Balanced(w: World, guid: Name) {
    if w.flight.Some? && w.flight.value.Guid() == guid then
      var f := w.flight.value;
      && (f.Saved? ==> guid in w.records && w.records[guid] == f.record && f.record.guid == guid)
      && f.record.attempts == Kept(CallsOf(w, guid)) + (if f.Saved? && f.counted then 1 else 0)
    else guid in w.records ==> w.records[guid].attempts == Kept(CallsOf(w, guid))
  }

  lemma ActBalances(w: World, step: Step, interval: int, original: Name -> int, guid: Name)
    requires interval > 0 && Ok(w, interval, original) && Listed(w, step, original) && step.Act? && Enabled(w, step)
    requires Balanced(w, guid)
    ensures Balanced(Apply(w, step, interval), guid)
  {
    RetiredIsNotListed(w, step, interval, original);
    assert GuidOk(w, guid, interval, original(guid));
    DecisionIsExact(w, step.item, step.newest, step.earliest, interval);
    assert CallsOf(Apply(w, step, interval), guid) == CallsOf(w, guid);
  }

  lemma ReturnBalances(w: World, step: Step, interval: int, guid: Name)
    requires step.Return? && Enabled(w, step) && Balanced(w, guid)
    requires w.flight.value.record.guid == w.flight.value.item.guid
    ensures Balanced(Apply(w, step, interval), guid)
  {
    var f := w.flight.value;
    var call := Call(f.record.lastAttemptAt, step.at, f.counted, step.outcome);
    var v := Apply(w, step, interval);
    if guid == f.item.guid {
      KeptAppends(CallsOf(w, guid), call);
      assert CallsOf(v, guid) == CallsOf(w, guid) + [call];
    } else {
      assert CallsOf(v, guid) == CallsOf(w, guid);
    }
  }

  lemma QuietBalances(w: World, step: Step, interval: int, guid: Name)
    requires Enabled(w, step) && !step.Act? && !step.Return? && Balanced(w, guid)
    requires step.Crash? ==> w.flight.None?
    requires w.flight.Some? && w.flight.value.Saved? ==> w.flight.value.record.guid == w.flight.value.item.guid
    ensures Balanced(Apply(w, step, interval), guid)
  {
    assert CallsOf(Apply(w, step, interval), guid) == CallsOf(w, guid);
  }

  lemma {:induction false} RunBalances(steps: seq<Step>, interval: int, original: Name -> int, guid: Name)
    requires interval > 0 && AllListed(steps, interval, original) && NoneCutShort(steps, interval)
    ensures Balanced(Run(steps, interval), guid)
  {
    if steps != [] {
      var n := |steps| - 1;
      assert forall k | 0 <= k < n :: steps[..n][..k] == steps[..k] && steps[..n][k] == steps[k];
      RunBalances(steps[..n], interval, original, guid);
      RunIsOk(steps[..n], interval, original);
      var w, step := Run(steps[..n], interval), steps[n];
      if Enabled(w, step) {
        match step
        case Act(_, _, _) => ActBalances(w, step, interval, original, guid);
        case Return(_, _) => ReturnBalances(w, step, interval, guid);
        case _ => QuietBalances(w, step, interval, guid);
      }
    }
  }

  /**
   With no crash in the middle of an item, what is stored between items is exactly the counted calls that
   were not taken back: a systemic failure gives its attempt back, and nothing else does.
   */
  lemma AttemptsAreExact(steps: seq<Step>, interval: int, original: Name -> int, guid: Name)
    requires interval > 0 && AllListed(steps, interval, original) && NoneCutShort(steps, interval)
    requires Run(steps, interval).flight.None? && guid in Run(steps, interval).records
    ensures var w := Run(steps, interval);
            w.records[guid].attempts == Kept(CallsOf(w, guid)) <= 3
  {
    RunBalances(steps, interval, original, guid);
    AttemptsCoverCalls(steps, interval, original, guid);
  }

  /** A rejection gives a GUID up exactly when it was the third counted attempt. */
  lemma RejectionGivesUpIff(w: World, at: int, interval: int)
    requires w.flight.Some? && w.flight.value.Saved? && at >= w.clock
    requires w.flight.value.record.guid == w.flight.value.item.guid
    requires w.flight.value.item.guid in w.records && w.records[w.flight.value.item.guid] == w.flight.value.record
    requires !w.flight.value.record.abandoned
    ensures var f, v := w.flight.value, Apply(Apply(w, Return(Rejected, at), interval), Finish, interval);
            && v.flight.None? && f.item.guid in v.records && v.records[f.item.guid].attempts == f.record.attempts
            && (v.records[f.item.guid].abandoned <==> f.counted && f.record.attempts >= 3)
  {
  }

  // ----- What a pass reports -----

  /** The calls a pass made, told apart by whether they were counted and by how they ended. */
  function RequestsWith(requests: seq<Request>, counted: bool, outcomes: set<Outcome>): nat {
    if requests == [] then 0
    else
      var last := requests[|requests| - 1];
      RequestsWith(requests[..|requests| - 1], counted, outcomes)
      + (if last.counted == counted && last.outcome in outcomes then 1 else 0)
  }

  function GivenUp(records: Records): set<Name> {
    set guid | guid in records && records[guid].abandoned
  }

  /** Since another pass, the counts went up by what was done. */
  predicate Tallies(from: Pass, p: Pass) {
    && from.requests <= p.requests && GivenUp(from.records) <= GivenUp(p.records)
    && var made := p.requests[|from.requests|..];
       && p.tally.redelivered == from.tally.redelivered + RequestsWith(made, true, {Accepted})
       && p.tally.uncounted == from.tally.uncounted + RequestsWith(made, false, {Accepted, Rejected})
       && p.tally.abandoned == from.tally.abandoned + |GivenUp(p.records) - GivenUp(from.records)|
  }

  lemma OneMoreRequest(requests: seq<Request>, r: Request, counted: bool, outcomes: set<Outcome>)
    ensures RequestsWith(requests + [r], counted, outcomes)
        == RequestsWith(requests, counted, outcomes) + (if r.counted == counted && r.outcome in outcomes then 1 else 0)
  {
    assert (requests + [r])[..|requests|] == requests;
  }

  lemma GivenUpGrows(records: Records, guid: Name, last: Record)
    requires guid !in GivenUp(records)
    ensures GivenUp(records[guid := last]) == GivenUp(records) + if last.abandoned then {guid} else {}
  {
  }

  lemma ItemTallies(from: Pass, p: Pass, sweep: Sweep, item: Delivery, outcome: Outcome)
    requires Tallies(from, p)
    ensures Tallies(from, OneItem(p, sweep, item, outcome))
  {
    if !p.stopped && Readable(p.records, item.guid) {
      var plan := PlanFor(Lookup(p.records, item.guid), item, sweep.now, sweep.interval, sweep.newest,
                          EarliestOf(sweep, item.guid));
      PlanSparesTheGivenUp(p.records, item, sweep.now, sweep.interval, sweep.newest, EarliestOf(sweep, item.guid));
      if plan.GiveUp? && plan.last.Valid() {
        GiveUpTallies(from, p, item.guid, plan.last);
      } else if plan.Ask? && plan.saved.Valid() {
        AskTallies(from, p, plan.saved, plan.counted, item, outcome, sweep.now);
      }
    }
  }

  lemma PlanSparesTheGivenUp(records: Records, item: Delivery, now: int, interval: int, newest: int, earliest: int)
    ensures var plan := PlanFor(Lookup(records, item.guid), item, now, interval, newest, earliest);
            && (!plan.LeaveAlone? ==> item.guid !in GivenUp(records))
            && (plan.GiveUp? ==> plan.last.abandoned) && (plan.Ask? ==> !plan.saved.abandoned)
  {
  }

  lemma GiveUpTallies(from: Pass, p: Pass, guid: Name, last: Record)
    requires Tallies(from, p) && guid !in GivenUp(p.records) && last.abandoned
    ensures Tallies(from, p.(records := p.records[guid := last], tally := p.tally.(abandoned := p.tally.abandoned + 1)))
  {
    GivenUpGrows(p.records, guid, last);
    OneMoreGivenUp(GivenUp(from.records), GivenUp(p.records), guid);
  }

  lemma OneMoreGivenUp(before: set<Name>, after: set<Name>, guid: Name)
    requires before <= after && guid !in after
    ensures |after + {guid} - before| == |after - before| + 1
  {
    assert after + {guid} - before == (after - before) + {guid};
  }

  lemma AskTallies(from: Pass, p: Pass, saved: Record, counted: bool, item: Delivery, outcome: Outcome, now: int)
    requires Tallies(from, p) && item.guid !in GivenUp(p.records) && !saved.abandoned
    ensures Tallies(from, Ended(p, saved, counted, item, outcome, now))
  {
    var v, n := Ended(p, saved, counted, item, outcome, now), |from.requests|;
    var request := Request(item.id, item.guid, now, counted, outcome);
    assert v.requests[n..] == p.requests[n..] + [request];
    OneMoreRequest(p.requests[n..], request, true, {Accepted});
    OneMoreRequest(p.requests[n..], request, false, {Accepted, Rejected});
    GivenUpGrows(p.records, item.guid, v.records[item.guid]);
    assert v.records == p.records[item.guid := v.records[item.guid]];
    if v.records[item.guid].abandoned {
      OneMoreGivenUp(GivenUp(from.records), GivenUp(p.records), item.guid);
    }
  }

  /**
   A pass reports what it did: counted calls GitHub took, uncounted ones it answered, and GUIDs given up on
   that were not before.
   */
  lemma {:induction false} PassTallies(p: Pass, sweep: Sweep, items: seq<Delivery>, outcomes: seq<Outcome>)
    requires |outcomes| == |items|
    ensures Tallies(p, WholePass(p, sweep, items, outcomes))
  {
    if items == [] {
      assert p.requests[|p.requests|..] == [] && GivenUp(p.records) - GivenUp(p.records) == {};
    } else {
      var n := |items| - 1;
      PassTallies(p, sweep, items[..n], outcomes[..n]);
      ItemTallies(p, WholePass(p, sweep, items[..n], outcomes[..n]), sweep, items[n], outcomes[n]);
    }
  }

  // ----- What ends a pass -----

  /** A record the sweep itself could have written for that GUID. */
  predicate IsSound(r: Record, guid: Name) {
    !IsBlank(guid) && r.guid == guid && r.attempts >= 0 && r.lastAttemptAt != 0 && r.firstDeliveredAt != 0
  }

  /** The GUID is named, and what is stored of it is sound. */
  predicate CanBeRead(records: Records, guid: Name) {
    !IsBlank(guid) && (guid in records ==> IsSound(records[guid], guid))
  }

  /** What would be saved has its times: the sweep's own, and the first delivery's, stored or listed. */
  predicate CanBeSaved(p: Pass, sweep: Sweep, item: Delivery) {
    sweep.now != 0 && (item.guid in p.records || EarliestOf(sweep, item.guid) != 0)
  }

  /**
   One item ends the pass exactly when it cannot be read, when there is something to save that cannot be, or
   when its call was not answered; and one that cannot be read, or saved, leaves everything else as it was.
   */
  lemma ItemStopsIff(p: Pass, sweep: Sweep, item: Delivery, outcome: Outcome)
    requires !p.stopped
    ensures var v, plan := OneItem(p, sweep, item, outcome), PlanFor(Lookup(p.records, item.guid), item, sweep.now,
                sweep.interval, sweep.newest, EarliestOf(sweep, item.guid));
            var fails := !CanBeRead(p.records, item.guid) || (!plan.LeaveAlone? && !CanBeSaved(p, sweep, item));
            && (fails ==> v == p.(stopped := true))
            && (!fails ==> (v.stopped <==> plan.Ask? && outcome in {Systemic, Transport}))
            && (!fails && plan.Ask? ==> v.requests == p.requests + [Request(item.id, item.guid, sweep.now,
                plan.counted, outcome)])
  {
    assert Readable(p.records, item.guid) <==> CanBeRead(p.records, item.guid);
  }

  /** A pass that has ended does nothing more. */
  lemma StoppedStays(p: Pass, sweep: Sweep, item: Delivery, outcome: Outcome)
    requires p.stopped
    ensures OneItem(p, sweep, item, outcome) == p
  {
  }

  // ----- Retention and delays -----

  /** A prune keeps a record, as it is, exactly when it was acted on within seven days. */
  lemma PruneKeepsIff(records: Records, now: int, guid: Name)
    ensures guid in Pruned(records, now) <==> guid in records && now <= records[guid].lastAttemptAt + 168 * HOUR
    ensures guid in Pruned(records, now) ==> Pruned(records, now)[guid] == records[guid]
    ensures guid in Expired(records, now) <==> guid in records && guid !in Pruned(records, now)
  {
  }
}
