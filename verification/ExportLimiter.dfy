/** The token bucket each machine's reads of the export are counted against. */
module ExportLimiter {
  import opened Wrappers

  const BURST := 5
  const INTERVAL := 1_000_000_000

  datatype Bucket = Bucket(tokens: real, at: int)
  type Buckets = map<Name, Bucket>

  function Least(a: real, b: real): real { if a < b then a else b }

  /** An unknown machine starts full, at the reading of its first call. */
  function BucketOf(buckets: Buckets, machine: Name, now: int): Bucket {
    if machine in buckets then buckets[machine] else Bucket(BURST as real, now)
  }

  /** A reading that does not advance the bucket's refills nothing. */
  function Refilled(b: Bucket, now: int): Bucket {
    if now > b.at then Bucket(Least(BURST as real, b.tokens + (now - b.at) as real / INTERVAL as real), now) else b
  }

  predicate Allows(b: Bucket, now: int) { Refilled(b, now).tokens >= 1.0 }

  function Taken(b: Bucket, now: int): Bucket {
    var r := Refilled(b, now);
    if r.tokens >= 1.0 then r.(tokens := r.tokens - 1.0) else r
  }

  class Limiter {
    var buckets: Buckets

    constructor ()
      ensures buckets == map[]
    {
      buckets := map[];
    }

    method Allow(machine: Name, now: int) returns (allowed: bool)
      modifies this
      ensures allowed == Allows(BucketOf(old(buckets), machine, now), now)
      ensures buckets == old(buckets)[machine := Taken(BucketOf(old(buckets), machine, now), now)]
    {
      var bucket := Bucket(BURST as real, now);
      if machine in buckets { bucket := buckets[machine]; }
      var elapsed := now - bucket.at;
      if elapsed > 0 {
        var tokens := bucket.tokens + elapsed as real / INTERVAL as real;
        bucket := Bucket(if tokens < BURST as real then tokens else BURST as real, now);
      }
      allowed := bucket.tokens >= 1.0;
      if allowed { bucket := bucket.(tokens := bucket.tokens - 1.0); }
      buckets := buckets[machine := bucket];
    }
  }

  // ----- One machine's calls -----

  /** The bucket after calls at the given readings, which need not ascend. */
  function After(b: Bucket, readings: seq<int>): Bucket {
    if readings == [] then b else Taken(After(b, readings[..|readings| - 1]), readings[|readings| - 1])
  }

  function AllowedCount(b: Bucket, readings: seq<int>): nat {
    if readings == [] then 0
    else
      var init := readings[..|readings| - 1];
      AllowedCount(b, init) + (if Allows(After(b, init), readings[|readings| - 1]) then 1 else 0)
  }

  ghost predicate Ok(b: Bucket) { 0.0 <= b.tokens <= BURST as real }

  /** The bucket keeps the latest reading it has been given. */
  function Latest(from: int, readings: seq<int>): int {
    if readings == [] then from
    else
      var before := Latest(from, readings[..|readings| - 1]);
      if readings[|readings| - 1] > before then readings[|readings| - 1] else before
  }

  lemma {:induction false} BucketStaysOk(b: Bucket, readings: seq<int>)
    requires Ok(b)
    ensures Ok(After(b, readings)) && After(b, readings).at == Latest(b.at, readings) >= b.at
  {
    if readings != [] {
      BucketStaysOk(b, readings[..|readings| - 1]);
      TakenStaysOk(After(b, readings[..|readings| - 1]), readings[|readings| - 1]);
    }
  }

  function Earned(from: int, to: int): real { (to - from) as real / INTERVAL as real }

  lemma EarnedIsPositive(from: int, to: int)
    requires from <= to
    ensures Earned(from, to) >= 0.0
  {
  }

  lemma EarnedAdds(from: int, mid: int, to: int)
    ensures Earned(from, mid) + Earned(mid, to) == Earned(from, to)
  {
  }

  lemma TakenStaysOk(b: Bucket, now: int)
    requires Ok(b)
    ensures Ok(Taken(b, now)) && Taken(b, now).at == if now > b.at then now else b.at
  {
    if now > b.at {
      EarnedIsPositive(b.at, now);
    }
  }

  /** What a call takes and what is left come out of what was there and what the clock's advance earned. */
  lemma TakenBalance(b: Bucket, now: int)
    requires Ok(b)
    ensures (if Allows(b, now) then 1.0 else 0.0) + Taken(b, now).tokens <= b.tokens + Earned(b.at, Taken(b, now).at)
  {
  }

  /**
   Whatever the clock reads, the calls allowed in any stretch number at most what the bucket held at its
   start and what the advance of the latest reading earned.
   */
  lemma {:induction false} AllowedAreEarned(b: Bucket, readings: seq<int>)
    requires Ok(b)
    ensures AllowedCount(b, readings) as real + After(b, readings).tokens <= b.tokens + Earned(b.at,
        After(b, readings).at)
  {
    if readings != [] {
      var init, now := readings[..|readings| - 1], readings[|readings| - 1];
      AllowedAreEarned(b, init);
      BucketStaysOk(b, init);
      TakenBalance(After(b, init), now);
      EarnedAdds(b.at, After(b, init).at, After(b, readings).at);
    } else {
      EarnedAdds(b.at, b.at, b.at);
    }
  }

  /** The rate bound: a burst, and one more for each interval the latest reading advanced. */
  lemma RateIsBounded(b: Bucket, readings: seq<int>)
    requires Ok(b)
    ensures AllowedCount(b, readings) as real <= BURST as real + (Latest(b.at,
        readings) - b.at) as real / INTERVAL as real
  {
    AllowedAreEarned(b, readings);
    BucketStaysOk(b, readings);
  }

  lemma WholeIntervalEarnsOne(from: int, to: int)
    requires to >= from + INTERVAL
    ensures Earned(from, to) >= 1.0
  {
    var extra := to - from - INTERVAL;
    assert (to - from) as real == INTERVAL as real + extra as real;
  }

  /** One interval past the latest reading a call is sure to be allowed, and no sooner. */
  lemma AllowedAnIntervalAfterTheLatest(latest: int, now: int)
    ensures (forall b | Ok(b) && b.at == latest :: Allows(b, now)) <==> now >= latest + INTERVAL
  {
    if now >= latest + INTERVAL {
      WholeIntervalEarnsOne(latest, now);
      forall b | Ok(b) && b.at == latest
        ensures Allows(b, now)
      {
      }
    } else {
      var empty := Bucket(0.0, latest);
      if now > latest {
        assert (now - latest) as real / INTERVAL as real < 1.0;
      }
      assert Ok(empty) && !Allows(empty, now);
    }
  }

  /**
   A call is counted against exactly what the bucket held and the clock's advance earned, up to a burst: it is
   allowed if that makes one, which it then costs, and a refused call costs nothing.
   */
  lemma CallIsExact(b: Bucket, now: int)
    ensures var earned := if now > b.at then (now - b.at) as real / 1_000_000_000.0 else 0.0;
            var held := if now > b.at && b.tokens + earned > 5.0 then 5.0 else b.tokens + earned;
            && (Allows(b, now) <==> held >= 1.0)
            && Taken(b, now).tokens == held - (if Allows(b, now) then 1.0 else 0.0)
            && Taken(b, now).at == if now > b.at then now else b.at
  {
  }

  /** A machine not seen before may make five calls at once, whatever the clock reads. */
  lemma {:induction false} BurstIsAllowed(buckets: Buckets, machine: Name, first: int, readings: seq<int>)
    requires machine !in buckets && |readings| <= 5
    ensures var b := BucketOf(buckets, machine, first);
            AllowedCount(b, readings) == |readings| && After(b, readings).tokens >= (5 - |readings|) as real
  {
    if readings != [] {
      var init, now := readings[..|readings| - 1], readings[|readings| - 1];
      var b := BucketOf(buckets, machine, first);
      BurstIsAllowed(buckets, machine, first, init);
      BucketStaysOk(b, init);
      RefillLosesNothing(After(b, init), now);
    }
  }

  lemma RefillLosesNothing(b: Bucket, now: int)
    requires Ok(b)
    ensures Refilled(b, now).tokens >= b.tokens
  {
    if now > b.at { EarnedIsPositive(b.at, now); }
  }

  /** A reading an interval past the one before it, or past the bucket's own. */
  predicate IsSpaced(from: int, readings: seq<int>, i: nat)
    requires i < |readings|
  {
    readings[i] >= (if i == 0 then from else readings[i - 1]) + 1_000_000_000
  }

  /** Calls an interval apart are allowed one and all, however many there are. */
  lemma {:induction false} SpacedCallsAreAllowed(b: Bucket, readings: seq<int>)
    requires Ok(b) && forall i | 0 <= i < |readings| :: IsSpaced(b.at, readings, i)
    ensures AllowedCount(b, readings) == |readings|
    ensures readings != [] ==> After(b, readings).at == readings[|readings| - 1]
  {
    if readings != [] {
      var init, now := readings[..|readings| - 1], readings[|readings| - 1];
      forall i | 0 <= i < |init|
        ensures IsSpaced(b.at, init, i)
      {
        assert IsSpaced(b.at, readings, i);
      }
      SpacedCallsAreAllowed(b, init);
      BucketStaysOk(b, init);
      assert IsSpaced(b.at, readings, |init|);
      AllowedAnIntervalAfterTheLatest(After(b, init).at, now);
    }
  }

  /** A drained bucket: five calls at one reading, and a sixth refused. */
  lemma DrainedBy(at: int)
    ensures After(Bucket(BURST as real, at), [at, at, at, at, at]) == Bucket(0.0, at)
  {
    var b := Bucket(BURST as real, at);
    OneMoreCall(b, [], at);
    OneMoreCall(b, [at], at);
    OneMoreCall(b, [at, at], at);
    OneMoreCall(b, [at, at, at], at);
    OneMoreCall(b, [at, at, at, at], at);
    assert [] + [at] == [at] && [at] + [at] == [at, at] && [at, at] + [at] == [at, at, at];
    assert [at, at, at] + [at] == [at, at, at, at] && [at, at, at, at] + [at] == [at, at, at, at, at];
  }

  lemma OneMoreCall(b: Bucket, readings: seq<int>, now: int)
    ensures After(b, readings + [now]) == Taken(After(b, readings), now)
  {
    assert (readings + [now])[..|readings|] == readings;
  }

  /**
   A call an interval after the call before it can be refused: once the clock has gone back, the time it
   makes up again refills nothing.
   */
  lemma WaitingIsNotEnough(at: int, back: int, now: int)
    requires back + INTERVAL <= now <= at
    ensures var b := After(Bucket(BURST as real, at), [at, at, at, at, at]);
            !Allows(b, back) && !Allows(Taken(b, back), now)
  {
    DrainedBy(at);
  }

  // ----- All machines' calls -----

  datatype Request = Request(machine: Name, now: int)

  function Served(buckets: Buckets, r: Request): Buckets {
    buckets[r.machine := Taken(BucketOf(buckets, r.machine, r.now), r.now)]
  }

  /** The buckets after any calls of any machines, from none. */
  function AllServed(requests: seq<Request>): Buckets {
    if requests == [] then map[] else Served(AllServed(requests[..|requests| - 1]), requests[|requests| - 1])
  }

  /** The readings of one machine's calls. */
  function ReadingsOf(requests: seq<Request>, machine: Name): seq<int> {
    if requests == [] then []
    else
      var before, last := ReadingsOf(requests[..|requests| - 1], machine), requests[|requests| - 1];
      if last.machine == machine then before + [last.now] else before
  }

  /** How many of one machine's calls are allowed. */
  function AllowedTo(requests: seq<Request>, machine: Name): nat {
    if requests == [] then 0
    else
      var init, last := requests[..|requests| - 1], requests[|requests| - 1];
      AllowedTo(init, machine)
      + if last.machine == machine && Allows(BucketOf(AllServed(init), machine, last.now), last.now) then 1 else 0
  }

  /**
   Each machine's calls are counted against a bucket of its own, which starts full at its first and is kept
   ever after.
   */
  lemma {:induction false} MachinesAreApart(requests: seq<Request>, machine: Name)
    ensures var readings := ReadingsOf(requests, machine);
            if readings == [] then machine !in AllServed(requests) && AllowedTo(requests, machine) == 0
            else
              && machine in AllServed(requests)
              && AllServed(requests)[machine] == After(Bucket(5.0, readings[0]), readings)
              && AllowedTo(requests, machine) == AllowedCount(Bucket(5.0, readings[0]), readings)
  {
    if requests != [] {
      var init, last := requests[..|requests| - 1], requests[|requests| - 1];
      MachinesAreApart(init, machine);
      var before := ReadingsOf(init, machine);
      if last.machine == machine {
        assert (before + [last.now])[..|before|] == before;
      }
    }
  }

  /**
   So whatever others do, and whatever the clock reads, a machine is allowed a burst and one call for each
   second since.
   */
  lemma EachMachineIsBounded(requests: seq<Request>, machine: Name)
    requires ReadingsOf(requests, machine) != []
    ensures var readings := ReadingsOf(requests, machine);
            AllowedTo(requests, machine) as real
            <= 5.0 + (Latest(readings[0], readings) - readings[0]) as real / 1_000_000_000.0
  {
    var readings := ReadingsOf(requests, machine);
    MachinesAreApart(requests, machine);
    RateIsBounded(Bucket(5.0, readings[0]), readings);
  }
}
