/**
 The missed-webhook sweep: what it decides for one failed delivery, one pass over all of them, and the
 retention of what it remembers.
 */
module Redelivery {
  import opened Wrappers
  import opened Text
  import opened Listing

  const HOUR := 3_600_000_000_000
  const DEFAULT_INTERVAL := HOUR
  const MAX_DELIVERY_AGE := 72 * HOUR
  const MAX_ATTEMPTS := 3
  const RETENTION := 7 * 24 * HOUR
  const MAX_BACKOFF := 6 * HOUR
  const PRUNE_BATCH := 100

  datatype Record = Record(guid: Name, attempts: int, abandoned: bool, lastAttemptAt: int, lastAttemptId: int,
                           firstDeliveredAt: int) {
    predicate Valid() {
      !IsBlank(guid) && attempts >= 0 && lastAttemptAt != NEVER && firstDeliveredAt != NEVER
    }
  }

  type Records = map<Name, Record>

  /**
   What became of one redeliver call: GitHub took it, GitHub rejected this delivery (400, 404 or 422),
   the call failed with a status that ends the sweep or no token could be minted for it, or GitHub was not
   reached at all.
   */
  datatype Outcome = Accepted | Rejected | Systemic | Transport {
    predicate Answers() { Accepted? || Rejected? }
  }

  // ----- What is decided for one failed delivery -----

  datatype Plan =
    | LeaveAlone
    | GiveUp(last: Record)
    | Ask(saved: Record, counted: bool)

  /** Evidence that the operator's endpoint is answering at all. */
  predicate Reachable(newestAnsweredAt: int, lastAttemptAt: int, item: Delivery, previousId: int) {
    newestAnsweredAt > lastAttemptAt || (item.Answered() && item.id != previousId)
  }

  /** The stored record, or the blank one a GUID starts from. */
  function Known(stored: Option<Record>, guid: Name, earliest: int): Record {
    if stored.Some? then stored.value else Record(guid, 0, false, NEVER, 0, earliest)
  }

  function PlanFor(stored: Option<Record>, item: Delivery, now: int, interval: int, newest: int, earliest: int): Plan {
    var known := Known(stored, item.guid, earliest);
    var touched := known.(guid := item.guid, abandoned := false, lastAttemptAt := now, lastAttemptId := item.id);
    if known.abandoned then LeaveAlone
    else if now - known.firstDeliveredAt > MAX_DELIVERY_AGE then GiveUp(touched.(abandoned := true))
    else if stored.Some? && now - known.lastAttemptAt < interval then LeaveAlone
    else if known.attempts >= MAX_ATTEMPTS then GiveUp(touched.(abandoned := true))
    else if !Reachable(newest, known.lastAttemptAt, item, known.lastAttemptId) then Ask(touched, false)
    else Ask(touched.(attempts := known.attempts + 1), true)
  }

  /** What is saved once the call's outcome is known, if anything. */
  function Settle(saved: Record, counted: bool, outcome: Outcome): Option<Record> {
    if counted && outcome.Systemic? then Some(saved.(attempts := saved.attempts - 1))
    else if counted && outcome.Rejected? && saved.attempts >= MAX_ATTEMPTS then Some(saved.(abandoned := true))
    else None
  }

  // ----- One pass -----

  datatype Request = Request(id: int, guid: Name, sweptAt: int, counted: bool, outcome: Outcome)
  datatype Tally = Tally(redelivered: nat, abandoned: nat, uncounted: nat)

  /**
   The records, the calls made with the start of the sweep that made them, the counts, and whether an error
   ended the pass.
   */
  datatype Pass = Pass(records: Records, requests: seq<Request>, tally: Tally, stopped: bool)

  datatype Sweep = Sweep(now: int, interval: int, newest: int, earliest: map<Name, int>)

  function EarliestOf(sweep: Sweep, guid: Name): int {
    if guid in sweep.earliest then sweep.earliest[guid] else NEVER
  }

  predicate Readable(records: Records, guid: Name) {
    !IsBlank(guid) && (guid in records ==> records[guid].Valid() && records[guid].guid == guid)
  }

  function Ended(p: Pass, saved: Record, counted: bool, item: Delivery, outcome: Outcome, now: int): Pass {
    var settled := Settle(saved, counted, outcome);
    var records := p.records[item.guid := if settled.Some? then settled.value else saved];
    var tally :=
      if !outcome.Answers() then p.tally
      else if !counted then p.tally.(uncounted := p.tally.uncounted + 1)
      else if outcome.Accepted? then p.tally.(redelivered := p.tally.redelivered + 1)
      else if settled.Some? then p.tally.(abandoned := p.tally.abandoned + 1)
      else p.tally;
    Pass(records, p.requests + [Request(item.id, item.guid, now, counted, outcome)], tally, !outcome.Answers())
  }

  function OneItem(p: Pass, sweep: Sweep, item: Delivery, outcome: Outcome): Pass {
    if p.stopped then p
    else if !Readable(p.records, item.guid) then p.(stopped := true)
    else
      match PlanFor(Lookup(p.records, item.guid), item, sweep.now, sweep.interval, sweep.newest,
          EarliestOf(sweep, item.guid))
      case LeaveAlone => p
      case GiveUp(last) =>
        if !last.Valid() then p.(stopped := true)
        else p.(records := p.records[item.guid := last], tally := p.tally.(abandoned := p.tally.abandoned + 1))
      case Ask(saved, counted) =>
        if !saved.Valid() then p.(stopped := true)
        else Ended(p, saved, counted, item, outcome, sweep.now)
  }

  function WholePass(p: Pass, sweep: Sweep, items: seq<Delivery>, outcomes: seq<Outcome>): Pass
    requires |outcomes| == |items|
  {
    if items == [] then p
    else
      var n := |items| - 1;
      OneItem(WholePass(p, sweep, items[..n], outcomes[..n]), sweep, items[n], outcomes[n])
  }

  // ----- Retention -----

  function Pruned(records: Records, now: int): Records {
    map guid | guid in records && records[guid].lastAttemptAt >= now - RETENTION :: records[guid]
  }

  function Expired(records: Records, now: int): set<Name> {
    set guid | guid in records && records[guid].lastAttemptAt < now - RETENTION
  }

  function Members(guids: seq<Name>): set<Name> {
    set guid | guid in guids
  }

  lemma MembersAppend(a: seq<Name>, b: seq<Name>)
    ensures Members(a + b) == Members(a) + Members(b)
  {
  }

  /** The delay the k-th failure in a row waits. */
  function Backoff(interval: int, k: nat): (delay: int)
  {
    if k == 0 then interval else if 2 * Backoff(interval, k - 1) < MAX_BACKOFF then 2 * Backoff(interval, k - 1)
        else MAX_BACKOFF
  }

  class Sweeper {
    const interval: int
    var backoff: int
    var records: Records
    var requests: seq<Request>

    constructor (configured: int)
      ensures interval == (if configured <= 0 then DEFAULT_INTERVAL else configured)
      ensures backoff == interval && records == map[] && requests == []
    {
      interval := if configured <= 0 then DEFAULT_INTERVAL else configured;
      backoff := if configured <= 0 then DEFAULT_INTERVAL else configured;
      records, requests := map[], [];
    }

    method Load(guid: Name) returns (stored: Option<Record>, failed: bool)
      ensures failed == !Readable(records, guid)
      ensures !failed ==> stored == Lookup(records, guid)
    {
      stored := Lookup(records, guid);
      failed := IsBlank(guid) || (stored.Some? && (!stored.value.Valid() || stored.value.guid != guid));
    }

    method Save(record: Record) returns (failed: bool)
      modifies this`records
      ensures failed == !record.Valid()
      ensures records == if failed then old(records) else old(records)[record.guid := record]
    {
      failed := !record.Valid();
      if !failed { records := records[record.guid := record]; }
    }

    /** Ask GitHub to deliver one attempt again. */
    method Redeliver(item: Delivery, now: int, counted: bool, outcome: Outcome)
      modifies this`requests
      ensures requests == old(requests) + [Request(item.id, item.guid, now, counted, outcome)]
    {
      requests := requests + [Request(item.id, item.guid, now, counted, outcome)];
    }

    ghost function State(tally: Tally, stopped: bool): Pass
      reads this
    {
      Pass(records, requests, tally, stopped)
    }

    method ActOnItem(sweep: Sweep, item: Delivery, outcome: Outcome, tally: Tally) returns (t: Tally, stopped: bool)
      requires sweep.interval == interval
      modifies this`records, this`requests
      ensures State(t, stopped) == OneItem(old(State(tally, false)), sweep, item, outcome)
    {
      t := tally;
      var now := sweep.now;
      var stored, loadFailed := Load(item.guid);
      if loadFailed { return t, true; }
      if stored.Some? && stored.value.abandoned { return t, false; }
      var last, first, previousId, attempts := NEVER, EarliestOf(sweep, item.guid), 0, 0;
      if stored.Some? {
        last, first := stored.value.lastAttemptAt, stored.value.firstDeliveredAt;
        previousId, attempts := stored.value.lastAttemptId, stored.value.attempts;
      }
      if now - first > MAX_DELIVERY_AGE {
        stopped := Save(Record(item.guid, attempts, true, now, item.id, first));
        if !stopped { t := t.(abandoned := t.abandoned + 1); }
        return;
      }
      if stored.Some? && now - last < interval { return t, false; }
      if attempts >= MAX_ATTEMPTS {
        stopped := Save(Record(item.guid, attempts, true, now, item.id, first));
        if !stopped { t := t.(abandoned := t.abandoned + 1); }
        return;
      }
      if !Reachable(sweep.newest, last, item, previousId) {
        stopped := Save(Record(item.guid, attempts, false, now, item.id, first));
        if stopped { return; }
        Redeliver(item, now, false, outcome);
        if !outcome.Answers() { return t, true; }
        return t.(uncounted := t.uncounted + 1), false;
      }
      t, stopped := SpendAttempt(Record(item.guid, attempts + 1, false, now, item.id, first), item, outcome, t);
    }

    /** Persist the spent attempt, ask, and take the attempt back if nothing was learned about the GUID. */
    method SpendAttempt(saved: Record, item: Delivery, outcome: Outcome, tally: Tally) returns (t: Tally, stopped: bool)
      requires saved.guid == item.guid && saved.attempts >= 1
      modifies this`records, this`requests
      ensures State(t, stopped) == if !saved.Valid() then old(State(tally, true))
                                   else Ended(old(State(tally, false)), saved, true, item, outcome, saved.lastAttemptAt)
    {
      t := tally;
      stopped := Save(saved);
      if stopped { return; }
      Redeliver(item, saved.lastAttemptAt, true, outcome);
      if !outcome.Answers() {
        if !outcome.Transport? {
          var failed := Save(saved.(attempts := saved.attempts - 1));
        }
        return t, true;
      }
      if outcome.Rejected? {
        if saved.attempts >= MAX_ATTEMPTS {
          stopped := Save(saved.(abandoned := true));
          t := t.(abandoned := t.abandoned + 1);
        }
        return;
      }
      t := t.(redelivered := t.redelivered + 1);
    }

    method ActOn(sweep: Sweep, failed: seq<Delivery>, outcomes: seq<Outcome>) returns (tally: Tally, stopped: bool)
      requires sweep.interval == interval && |outcomes| == |failed|
      modifies this`records, this`requests
      ensures State(tally, stopped) == WholePass(old(State(Tally(0, 0, 0), false)), sweep, failed, outcomes)
    {
      tally, stopped := Tally(0, 0, 0), false;
      for n := 0 to |failed|
        invariant State(tally, stopped) == WholePass(old(State(Tally(0, 0, 0), false)), sweep, failed[..n],
            outcomes[..n])
      {
        assert failed[..n + 1][..n] == failed[..n] && outcomes[..n + 1][..n] == outcomes[..n];
        if !stopped {
          tally, stopped := ActOnItem(sweep, failed[n], outcomes[n], tally);
        }
      }
      assert failed[..|failed|] == failed && outcomes[..|outcomes|] == outcomes;
    }

    /** Delete records a batch at a time; each batch is one transaction. */
    method Delete(guids: seq<Name>)
      modifies this`records
      ensures records == old(records) - Members(guids)
    {
      ghost var was, gone := records, [];
      var left := guids;
      while left != []
        invariant guids == gone + left && records == was - Members(gone)
        decreases |left|
      {
        var batch := if |left| > PRUNE_BATCH then left[..PRUNE_BATCH] else left;
        records := records - Members(batch);
        MembersAppend(gone, batch);
        assert guids == gone + batch + left[|batch|..];
        left, gone := left[|batch|..], gone + batch;
      }
      assert gone == guids;
    }

    method Prune(now: int)
      modifies this`records
      ensures records == Pruned(old(records), now)
    {
      var left := records.Keys;
      var expired := [];
      while left != {}
        invariant left <= records.Keys && records == old(records)
        invariant Members(expired) == Expired(records, now) - left
      {
        var guid :| guid in left;
        MembersAppend(expired, [guid]);
        if records[guid].lastAttemptAt < now - RETENTION { expired := expired + [guid]; }
        left := left - {guid};
      }
      Delete(expired);
    }

    /** The delay after a sweep that failed, and the next one doubled. */
    method TransientDelay(ghost k: nat) returns (delay: int)
      requires interval > 0 && backoff == Backoff(interval, k)
      modifies this`backoff
      ensures delay == Backoff(interval, k) && backoff == Backoff(interval, k + 1)
    {
      BackoffIsBounded(interval, k);
      delay := backoff;
      if delay <= 0 { delay := interval; }
      backoff := if delay * 2 < MAX_BACKOFF then delay * 2 else MAX_BACKOFF;
    }
  }

  // ----- The backoff series -----

  function Power2(k: nat): (p: nat)
    ensures p >= 1
  {
    if k == 0 then 1 else 2 * Power2(k - 1)
  }

  /** After k failures in a row the delay has doubled k times, and stays at the cap once it would pass it. */
  lemma {:induction false} BackoffIsBounded(interval: int, k: nat)
    requires interval > 0
    ensures Backoff(interval, k) > 0
    ensures k > 0 ==> Backoff(interval, k) == if interval * Power2(k) < MAX_BACKOFF then interval * Power2(k)
        else MAX_BACKOFF
  {
    if k > 0 {
      BackoffIsBounded(interval, k - 1);
      assert interval * Power2(k) == 2 * (interval * Power2(k - 1));
    }
  }
}
