/**
 Whole lives of the sweep's memory: sweeps one after another, any of which may crash between a save and
 the call it announces, between the call and what is saved after it, or between two batches of a prune.
 */
module RedeliveryRuns {
  import opened Wrappers
  import opened Text
  import opened Listing
  import opened Redelivery

  /**
   One redeliver call: when its sweep started, which is the reading the record keeps; when the call itself
   went out; and what became of it.
   */
  datatype Call = Call(sweptAt: int, at: int, counted: bool, outcome: Outcome)

  /** What a sweep is in the middle of: a saved record whose call is due, or a save the call led to. */
  datatype Flight = Saved(item: Delivery, record: Record, counted: bool) | Settling(record: Record) {
    function Guid(): Name { if Saved? then item.guid else record.guid }
  }

  /**
   sweep is the one reading of the clock the sweep under way acts by, clock the latest reading of all.
   Pruned GUIDs are remembered with the last reading the hub acted on them by.
   */
  datatype World = World(records: Records, sweep: Option<int>, clock: int, flight: Option<Flight>,
      calls: map<Name, seq<Call>>, retired: map<Name, int>)

  const START := World(map[], None, NEVER, None, map[], map[])

  /** A sweep begins, acts on items, and calls at readings of their own; a failed call ends it. */
  datatype Step =
    | Begin(now: int)
    | Act(item: Delivery, newest: int, earliest: int)
    | Return(outcome: Outcome, at: int)
    | NoToken
    | Finish
    | Crash
    | Prune(now: int, guids: set<Name>)

  function CallsOf(w: World, guid: Name): seq<Call> {
    if guid in w.calls then w.calls[guid] else []
  }

  function PlanAt(w: World, item: Delivery, newest: int, earliest: int, interval: int): Plan
    requires w.sweep.Some?
  {
    PlanFor(Lookup(w.records, item.guid), item, w.sweep.value, interval, newest, earliest)
  }

  predicate Enabled(w: World, step: Step) {
    match step
    case Begin(now) => w.flight.None? && now >= w.clock
    case Act(_, _, _) => w.flight.None? && w.sweep.Some?
    case Return(_, at) => w.flight.Some? && w.flight.value.Saved? && at >= w.clock
    case NoToken => w.flight.Some? && w.flight.value.Saved?
    case Finish => w.flight.Some? && w.flight.value.Settling?
    case Crash => true
    case Prune(now, guids) => w.flight.None? && now >= w.clock && guids <= Expired(w.records, now)
  }

  function Settled(w: World, outcome: Outcome): Option<Flight>
    requires w.flight.Some? && w.flight.value.Saved?
  {
    match Settle(w.flight.value.record, w.flight.value.counted, outcome)
    case None => None
    case Some(record) => Some(Settling(record))
  }

  function Apply(w: World, step: Step, interval: int): World {
    if !Enabled(w, step) then w
    else
      match step
      case Begin(now) => w.(sweep := Some(now), clock := now)
      case Act(item, newest, earliest) =>
        (match PlanAt(w, item, newest, earliest, interval)
         case LeaveAlone => w
         case GiveUp(last) => w.(records := w.records[item.guid := last])
         case Ask(record, counted) =>
           w.(records := w.records[item.guid := record], flight := Some(Saved(item, record, counted))))
      case Return(outcome, at) => Called(w, w.flight.value, outcome, at)
      case NoToken => w.(flight := Settled(w, Systemic), sweep := None)
      case Finish => w.(records := w.records[w.flight.value.record.guid := w.flight.value.record], flight := None)
      case Crash => w.(flight := None, sweep := None)
      case Prune(now, guids) =>
        w.(sweep := None, clock := now, records := w.records - guids, retired := w.retired + RetiredBy(w.records,
            guids))
  }

  /** The call of a saved flight, at its own reading; an error that is not about the GUID ends the sweep. */
  function Called(w: World, f: Flight, outcome: Outcome, at: int): World
    requires w.flight == Some(f) && f.Saved?
  {
    var call := Call(f.record.lastAttemptAt, at, f.counted, outcome);
    w.(calls := w.calls[f.item.guid := CallsOf(w, f.item.guid) + [call]], flight := Settled(w, outcome), clock := at,
       sweep := if outcome.Answers() then w.sweep else None)
  }

  function RetiredBy(records: Records, guids: set<Name>): map<Name, int> {
    map guid | guid in guids && guid in records :: records[guid].lastAttemptAt
  }

  function Run(steps: seq<Step>, interval: int): World {
    if steps == [] then START else Apply(Run(steps[..|steps| - 1], interval), steps[|steps| - 1], interval)
  }

  // ----- What is taken for granted about GitHub's list and the clocks -----

  /**
   A listed attempt is the original delivery or one of this hub's own calls, which GitHub lists no later
   than Retention less MaxDeliveryAge after the start of the sweep that made the call.
   */
  ghost predicate Explained(w: World, guid: Name, deliveredAt: int, original: int) {
    deliveredAt <= original || exists c :: c in CallsOf(w, guid) && deliveredAt <= c.sweptAt + RETENTION - MAX_DELIVERY_AGE
  }

  /** What a listing of the sweep's window shows of an item. */
  predicate InWindow(item: Delivery, earliest: int, now: int) {
    !IsBlank(item.guid) && NEVER < earliest <= item.deliveredAt && earliest >= now - MAX_DELIVERY_AGE
  }

  /** A sweep acts on what a listing of its window shows, and on nothing first delivered after it started. */
  ghost predicate Listed(w: World, step: Step, original: Name -> int) {
    step.Act? && w.sweep.Some? ==>
      && InWindow(step.item, step.earliest, w.sweep.value)
      && (step.item.guid !in w.records ==> step.earliest <= w.sweep.value)
      && original(step.item.guid) <= w.sweep.value
      && Explained(w, step.item.guid, step.item.deliveredAt, original(step.item.guid))
  }

  ghost predicate AllListed(steps: seq<Step>, interval: int, original: Name -> int) {
    steps == [] || (var n := |steps| - 1;
                    AllListed(steps[..n], interval, original) && Listed(Run(steps[..n], interval), steps[n], original))
  }

  // ----- What every run keeps -----

  /** The counted calls GitHub took or rejected. */
  function Counted(calls: seq<Call>): nat {
    if calls == [] then 0
    else Counted(calls[..|calls| - 1]) + (if calls[|calls| - 1].counted && calls[|calls| - 1].outcome.Answers() then 1 else 0)
  }

  /** The sweeps that called are an interval apart. */
  ghost predicate Spaced(calls: seq<Call>, interval: int) {
    forall i | 0 < i < |calls| :: calls[i].sweptAt - calls[i - 1].sweptAt >= interval
  }

  ghost predicate Between(calls: seq<Call>, from: int, to: int) {
    forall c | c in calls :: from <= c.sweptAt <= to
  }

  ghost predicate WithinAge(calls: seq<Call>) {
    forall c, d | c in calls && d in calls :: d.sweptAt - c.sweptAt <= MAX_DELIVERY_AGE
  }

  /** A reading no later than the latest, nor than the one the sweep under way goes by. */
  predicate IsPast(w: World, reading: int) {
    reading <= w.clock && (w.sweep.Some? ==> reading <= w.sweep.value)
  }

  ghost predicate RecordOk(w: World, guid: Name, original: int)
    requires guid in w.records
  {
    var r, calls := w.records[guid], CallsOf(w, guid);
    && guid !in w.retired && r.guid == guid && r.Valid()
    && 0 <= Counted(calls) <= r.attempts <= MAX_ATTEMPTS
    && NEVER < r.firstDeliveredAt <= r.lastAttemptAt && IsPast(w, r.lastAttemptAt) && original <= r.lastAttemptAt
    && Between(calls, r.firstDeliveredAt, r.firstDeliveredAt + MAX_DELIVERY_AGE)
    && Between(calls, r.firstDeliveredAt, r.lastAttemptAt)
  }

  ghost predicate RetiredOk(w: World, guid: Name, original: int)
    requires guid in w.retired
  {
    var calls := CallsOf(w, guid);
    && guid !in w.records && IsPast(w, w.retired[guid] + RETENTION + 1) && original <= w.retired[guid]
    && Counted(calls) <= MAX_ATTEMPTS
    && (forall c | c in calls :: c.sweptAt <= w.retired[guid])
    && WithinAge(calls)
  }

  ghost predicate GuidOk(w: World, guid: Name, interval: int, original: int)
  {
    && Spaced(CallsOf(w, guid), interval)
    && (forall c | c in CallsOf(w, guid) :: c.sweptAt <= c.at <= w.clock)
    && (guid in w.records ==> RecordOk(w, guid, original))
    && (guid in w.retired ==> RetiredOk(w, guid, original))
    && (guid !in w.records && guid !in w.retired ==> CallsOf(w, guid) == [])
  }

  ghost predicate FlightOk(w: World, interval: int) {
    w.flight.Some? ==>
      var f := w.flight.value;
      var r, calls := f.record, CallsOf(w, f.Guid());
      && r.guid == f.Guid() && f.Guid() in w.records
      && w.records[r.guid].firstDeliveredAt == r.firstDeliveredAt && w.records[r.guid].lastAttemptAt == r.lastAttemptAt
      && !w.records[r.guid].abandoned && r.Valid()
      && (f.Settling? ==> Counted(calls) <= r.attempts <= MAX_ATTEMPTS)
      && (f.Saved? ==>
            && w.records[r.guid] == r
            && (forall c | c in calls :: r.lastAttemptAt - c.sweptAt >= interval)
            && r.lastAttemptAt <= r.firstDeliveredAt + MAX_DELIVERY_AGE && IsPast(w, r.lastAttemptAt)
            && (f.counted ==> Counted(calls) < r.attempts))
  }

  ghost predicate Ok(w: World, interval: int, original: Name -> int) {
    && (forall guid :: GuidOk(w, guid, interval, original(guid)))
    && FlightOk(w, interval) && IsPast(w, NEVER) && (w.sweep.Some? ==> w.sweep.value <= w.clock)
  }

  // ----- Each step keeps it -----

  lemma GuidStays(w: World, v: World, guid: Name, interval: int, original: int)
    requires GuidOk(w, guid, interval, original) && w.clock <= v.clock && CallsOf(v, guid) == CallsOf(w, guid)
    requires v.sweep == w.sweep || v.sweep.None? || v.sweep == Some(v.clock)
    requires guid in v.records <==> guid in w.records
    requires guid in w.records ==> v.records[guid] == w.records[guid]
    requires guid in v.retired <==> guid in w.retired
    requires guid in w.retired ==> v.retired[guid] == w.retired[guid]
    ensures GuidOk(v, guid, interval, original)
  {
  }

  /** A GUID whose record was pruned cannot be in a listing any more. */
  lemma RetiredIsNotListed(w: World, step: Step, interval: int, original: Name -> int)
    requires Ok(w, interval, original) && step.Act? && Enabled(w, step) && Listed(w, step, original)
    ensures step.item.guid !in w.retired
  {
    assert GuidOk(w, step.item.guid, interval, original(step.item.guid));
  }

  /** What a sweep saves for the GUID it acts on. */
  lemma PlanIsOk(w: World, v: World, step: Step, interval: int, original: int)
    requires interval > 0 && step.Act? && Enabled(w, step) && v == Apply(w, step, interval)
    requires GuidOk(w, step.item.guid, interval, original) && step.item.guid !in w.retired
    requires NEVER <= w.sweep.value <= w.clock
    requires InWindow(step.item, step.earliest, w.sweep.value)
    requires step.item.guid !in w.records ==> step.earliest <= w.sweep.value
    requires original <= w.sweep.value
    ensures GuidOk(v, step.item.guid, interval, original)
    ensures FlightOk(v, interval)
  {
    var g := step.item.guid;
    var calls := CallsOf(w, g);
    assert CallsOf(v, g) == calls;
  }

  lemma ActKeepsOther(w: World, step: Step, interval: int, guid: Name, original: int)
    requires step.Act? && Enabled(w, step) && GuidOk(w, guid, interval, original) && guid != step.item.guid
    ensures GuidOk(Apply(w, step, interval), guid, interval, original)
  {
    GuidStays(w, Apply(w, step, interval), guid, interval, original);
  }

  lemma ActIsOk(w: World, step: Step, interval: int, original: Name -> int)
    requires interval > 0 && Ok(w, interval, original) && step.Act? && Enabled(w, step) && Listed(w, step, original)
    ensures Ok(Apply(w, step, interval), interval, original)
  {
    var v, g := Apply(w, step, interval), step.item.guid;
    RetiredIsNotListed(w, step, interval, original);
    assert GuidOk(w, g, interval, original(g));
    PlanIsOk(w, v, step, interval, original(g));
    forall guid
      ensures GuidOk(v, guid, interval, original(guid))
    {
      if guid != g {
        assert GuidOk(w, guid, interval, original(guid));
        ActKeepsOther(w, step, interval, guid, original(guid));
      }
    }
  }

  lemma CountedAppends(calls: seq<Call>, call: Call)
    ensures Counted(calls + [call]) == Counted(calls) + (if call.counted && call.outcome.Answers() then 1 else 0)
  {
    assert (calls + [call])[..|calls|] == calls;
  }

  lemma SpacedAppends(calls: seq<Call>, call: Call, interval: int)
    requires Spaced(calls, interval) && forall c | c in calls :: call.sweptAt - c.sweptAt >= interval
    ensures Spaced(calls + [call], interval)
  {
    assert calls != [] ==> calls[|calls| - 1] in calls;
  }

  /** The call itself, whatever is saved because of it. */
  function WithCall(w: World, guid: Name, call: Call, flight: Option<Flight>, sweep: Option<int>): World {
    w.(calls := w.calls[guid := CallsOf(w, guid) + [call]], flight := flight, clock := call.at, sweep := sweep)
  }

  lemma CallKeepsGuid(w: World, f: Flight, call: Call, next: Option<Flight>, sweep: Option<int>, interval: int,
      original: int)
    requires w.flight == Some(f) && f.Saved? && FlightOk(w, interval) && GuidOk(w, f.item.guid, interval, original)
    requires call.sweptAt == f.record.lastAttemptAt && call.counted == f.counted && call.at >= w.clock
    requires sweep == w.sweep || sweep.None?
    ensures GuidOk(WithCall(w, f.item.guid, call, next, sweep), f.item.guid, interval, original)
  {
    var v, g, calls := WithCall(w, f.item.guid, call, next, sweep), f.item.guid, CallsOf(w, f.item.guid);
    CountedAppends(calls, call);
    SpacedAppends(calls, call, interval);
    assert CallsOf(v, g) == calls + [call];
    assert forall c :: c in calls + [call] <==> c in calls || c == call;
  }

  lemma CallKeepsOther(w: World, g: Name, call: Call, next: Option<Flight>, sweep: Option<int>, guid: Name,
      interval: int, original: int)
    requires GuidOk(w, guid, interval, original) && guid != g && call.at >= w.clock
    requires sweep == w.sweep || sweep.None?
    ensures GuidOk(WithCall(w, g, call, next, sweep), guid, interval, original)
  {
    GuidStays(w, WithCall(w, g, call, next, sweep), guid, interval, original);
  }

  lemma CallKeepsFlight(w: World, f: Flight, call: Call, outcome: Outcome, sweep: Option<int>, interval: int,
      original: int)
    requires w.flight == Some(f) && f.Saved? && FlightOk(w, interval) && GuidOk(w, f.item.guid, interval, original)
    requires call.counted == f.counted && call.outcome == outcome
    ensures FlightOk(WithCall(w, f.item.guid, call, Settled(w, outcome), sweep), interval)
  {
    CountedAppends(CallsOf(w, f.item.guid), call);
  }

  lemma ReturnIsOk(w: World, step: Step, interval: int, original: Name -> int)
    requires interval > 0 && Ok(w, interval, original) && step.Return? && Enabled(w, step)
    ensures Ok(Apply(w, step, interval), interval, original)
  {
    var v, f := Apply(w, step, interval), w.flight.value;
    var g, call := f.item.guid, Call(f.record.lastAttemptAt, step.at, f.counted, step.outcome);
    assert v == WithCall(w, g, call, Settled(w, step.outcome), v.sweep);
    assert GuidOk(w, g, interval, original(g));
    CallKeepsGuid(w, f, call, Settled(w, step.outcome), v.sweep, interval, original(g));
    CallKeepsFlight(w, f, call, step.outcome, v.sweep, interval, original(g));
    forall guid
      ensures GuidOk(v, guid, interval, original(guid))
    {
      if guid != g {
        assert GuidOk(w, guid, interval, original(guid));
        CallKeepsOther(w, g, call, Settled(w, step.outcome), v.sweep, guid, interval, original(guid));
      }
    }
  }

  lemma QuietStepIsOk(w: World, step: Step, interval: int, original: Name -> int)
    requires interval > 0 && Ok(w, interval, original) && Enabled(w, step)
    requires step.Begin? || step.NoToken? || step.Finish? || step.Crash?
    ensures Ok(Apply(w, step, interval), interval, original)
  {
    var v := Apply(w, step, interval);
    if w.flight.Some? {
      assert GuidOk(w, w.flight.value.Guid(), interval, original(w.flight.value.Guid()));
    }
    forall guid
      ensures GuidOk(v, guid, interval, original(guid))
    {
      assert GuidOk(w, guid, interval, original(guid));
      if !step.Finish? || guid != w.flight.value.record.guid {
        GuidStays(w, v, guid, interval, original(guid));
      }
    }
  }

  lemma PruneIsOk(w: World, step: Step, interval: int, original: Name -> int)
    requires interval > 0 && Ok(w, interval, original) && step.Prune? && Enabled(w, step)
    ensures Ok(Apply(w, step, interval), interval, original)
  {
    var v := Apply(w, step, interval);
    forall guid
      ensures GuidOk(v, guid, interval, original(guid))
    {
      assert GuidOk(w, guid, interval, original(guid));
      if guid !in step.guids {
        GuidStays(w, v, guid, interval, original(guid));
      } else {
        assert guid in Expired(w.records, step.now);
        assert RecordOk(w, guid, original(guid));
      }
    }
  }

  lemma {:induction false} RunIsOk(steps: seq<Step>, interval: int, original: Name -> int)
    requires interval > 0 && AllListed(steps, interval, original)
    ensures Ok(Run(steps, interval), interval, original)
  {
    if steps != [] {
      var n := |steps| - 1;
      RunIsOk(steps[..n], interval, original);
      var w, step := Run(steps[..n], interval), steps[n];
      if Enabled(w, step) {
        match step
        case Act(_, _, _) => ActIsOk(w, step, interval, original);
        case Return(_, _) => ReturnIsOk(w, step, interval, original);
        case Prune(_, _) => PruneIsOk(w, step, interval, original);
        case _ => QuietStepIsOk(w, step, interval, original);
      }
    }
  }

  // ----- What follows -----

  lemma {:induction false} SpacedSpans(calls: seq<Call>, interval: int, n: nat)
    requires Spaced(calls, interval) && n < |calls|
    ensures calls[n].sweptAt - calls[0].sweptAt >= n * interval
  {
    if n > 0 {
      SpacedSpans(calls, interval, n - 1);
      assert n * interval == (n - 1) * interval + interval;
    }
  }

  lemma ProductsGrow(m: int, n: int, d: int)
    requires m <= n && d >= 0
    ensures m * d <= n * d
  {
  }

  lemma QuotientBounds(n: int, d: int, total: int)
    requires d > 0 && n * d <= total
    ensures n <= total / d
  {
    var q := total / d;
    assert total < (q + 1) * d;
    if q + 1 <= n {
      ProductsGrow(q + 1, n, d);
    }
  }

  lemma SpacedFits(calls: seq<Call>, interval: int, age: int)
    requires interval > 0 && age >= 0 && Spaced(calls, interval)
    requires forall c, d | c in calls && d in calls :: d.sweptAt - c.sweptAt <= age
    ensures |calls| <= age / interval + 1
  {
    if calls != [] {
      var n := |calls| - 1;
      SpacedSpans(calls, interval, n);
      assert calls[n] in calls && calls[0] in calls;
      QuotientBounds(n, interval, age);
    }
  }

  /**
   Across failures, crashes and prunes, the sweeps that call GitHub for one GUID start an interval apart, so
   there are never more than MaxDeliveryAge / Interval + 1 calls. No call goes out before its sweep starts.
   */
  lemma CallsAreBounded(steps: seq<Step>, interval: int, original: Name -> int, guid: Name)
    requires interval > 0 && AllListed(steps, interval, original)
    ensures var calls := CallsOf(Run(steps, interval), guid);
            && Spaced(calls, interval) && |calls| <= MAX_DELIVERY_AGE / interval + 1
            && (forall c | c in calls :: c.sweptAt <= c.at)
  {
    RunIsOk(steps, interval, original);
    var w := Run(steps, interval);
    assert GuidOk(w, guid, interval, original(guid));
    var calls := CallsOf(w, guid);
    assert WithinAge(calls);
    SpacedFits(calls, interval, MAX_DELIVERY_AGE);
  }

  /**
   A stored count never exceeds MaxAttempts and covers every counted call GitHub took or rejected, so
   there are at most MaxAttempts such calls ever, pruned records included.
   */
  lemma AttemptsCoverCalls(steps: seq<Step>, interval: int, original: Name -> int, guid: Name)
    requires interval > 0 && AllListed(steps, interval, original)
    ensures var w := Run(steps, interval);
            && Counted(CallsOf(w, guid)) <= MAX_ATTEMPTS
            && (guid in w.records ==> Counted(CallsOf(w, guid)) <= w.records[guid].attempts <= MAX_ATTEMPTS)
  {
    RunIsOk(steps, interval, original);
    assert GuidOk(Run(steps, interval), guid, interval, original(guid));
  }

  /** A pruned GUID is never in a later listing, so it never gets a second budget. */
  lemma PrunedNeverReturns(steps: seq<Step>, interval: int, original: Name -> int, act: Step)
    requires interval > 0 && AllListed(steps + [act], interval, original)
    requires act.Act? && Enabled(Run(steps, interval), act)
    ensures act.item.guid !in Run(steps, interval).retired
  {
    assert (steps + [act])[..|steps|] == steps;
    RunIsOk(steps, interval, original);
    RetiredIsNotListed(Run(steps, interval), act, interval, original);
  }

  /** One step keeps a record's first delivery and whether it was given up on, or prunes it for good. */
  lemma StepKeepsFirst(w: World, step: Step, interval: int, original: Name -> int, guid: Name)
    requires Ok(w, interval, original)
    ensures guid in w.retired ==> guid in Apply(w, step, interval).retired
    ensures guid in w.records ==> guid in Apply(w, step, interval).retired || KeepsFirst(w, Apply(w, step, interval),
        guid)
  {
  }

  predicate KeepsFirst(w: World, v: World, guid: Name) {
    && guid in w.records && guid in v.records
    && v.records[guid].firstDeliveredAt == w.records[guid].firstDeliveredAt
    && (w.records[guid].abandoned ==> v.records[guid].abandoned)
  }

  lemma {:induction false} KeptOrRetired(steps: seq<Step>, more: seq<Step>, interval: int, original: Name -> int,
      guid: Name)
    requires interval > 0 && AllListed(steps + more, interval, original) && guid in Run(steps, interval).records
    ensures guid in Run(steps + more, interval).retired || KeepsFirst(Run(steps, interval),
        Run(steps + more, interval), guid)
    decreases |more|
  {
    if more == [] {
      assert steps + more == steps;
    } else {
      var init := more[..|more| - 1];
      assert (steps + more)[..|steps + more| - 1] == steps + init;
      KeptOrRetired(steps, init, interval, original, guid);
      RunIsOk(steps + init, interval, original);
      StepKeepsFirst(Run(steps + init, interval), more[|more| - 1], interval, original, guid);
    }
  }

  /** As long as a GUID's record is stored, its first delivery never changes and giving up is for good. */
  lemma FirstDeliveryIsFixed(steps: seq<Step>, more: seq<Step>, interval: int, original: Name -> int, guid: Name)
    requires interval > 0 && AllListed(steps + more, interval, original)
    requires guid in Run(steps, interval).records && guid in Run(steps + more, interval).records
    ensures var r, later := Run(steps, interval).records[guid], Run(steps + more, interval).records[guid];
            later.firstDeliveredAt == r.firstDeliveredAt && (r.abandoned ==> later.abandoned)
  {
    KeptOrRetired(steps, more, interval, original, guid);
    RunIsOk(steps + more, interval, original);
    assert GuidOk(Run(steps + more, interval), guid, interval, original(guid));
  }

  /** The sweep is done with a GUID it gave up on or pruned. */
  ghost predicate Done(w: World, guid: Name) {
    && (guid in w.retired || (guid in w.records && w.records[guid].abandoned))
    && (w.flight.Some? ==> w.flight.value.Guid() != guid)
  }

  lemma DoneStays(w: World, step: Step, interval: int, original: Name -> int, guid: Name)
    requires interval > 0 && Ok(w, interval, original) && Listed(w, step, original) && Done(w, guid)
    ensures Done(Apply(w, step, interval), guid) && CallsOf(Apply(w, step, interval), guid) == CallsOf(w, guid)
  {
    if Enabled(w, step) && step.Act? {
      RetiredIsNotListed(w, step, interval, original);
    }
  }

  /** A GUID the sweep gave up on is never called again, before or after its record is pruned. */
  lemma {:induction false} AbandonedIsNeverTouched(steps: seq<Step>, more: seq<Step>, interval: int,
      original: Name -> int, guid: Name)
    requires interval > 0 && AllListed(steps + more, interval, original) && Done(Run(steps, interval), guid)
    ensures Done(Run(steps + more, interval), guid)
    ensures CallsOf(Run(steps + more, interval), guid) == CallsOf(Run(steps, interval), guid)
    decreases |more|
  {
    if more == [] {
      assert steps + more == steps;
    } else {
      var init := more[..|more| - 1];
      assert (steps + more)[..|steps + more| - 1] == steps + init;
      AbandonedIsNeverTouched(steps, init, interval, original, guid);
      RunIsOk(steps + init, interval, original);
      DoneStays(Run(steps + init, interval), more[|more| - 1], interval, original, guid);
    }
  }
}
