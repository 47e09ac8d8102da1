/**
 Any number of Process calls at once, on any deliveries, any of which may crash anywhere or lose the
 answer to its commit.
 */
module DeliveryRuns {
  import opened Wrappers
  import opened Deliveries

  /** Looked: found the delivery uncommitted. Holding: claimed it. Failing: about to release it. */
  datatype Phase = Looked | Holding | Failing

  /** until is the end of the lease the call was given. */
  datatype Call = Call(delivery: Name, wakeup: Wakeup, phase: Phase, until: int) {
    predicate Holds(id: Name) { delivery == id && phase != Looked }
  }

  /** A call's return of queued: its delivery, and the wakeup it announced. */
  datatype Returned = Returned(delivery: Name, wakeup: Wakeup)

  datatype World = World(docs: Documents, calls: map<nat, Call>, queued: seq<Returned>)

  const START := World(Documents(map[], map[]), map[], [])

  /** A commit answers, fails without effect, takes effect but its answer is lost, or is the call's last act. */
  datatype Fate = Answered | NoEffect | AnswerLost | Unseen

  datatype Step =
    | Look(call: nat, delivery: Name, wakeup: Wakeup)
    | Claim(call: nat, now: int, fails: bool)
    | Fail(call: nat)
    | Commit(call: nat, fate: Fate)
    | Release(call: nat, fails: bool)
    | Crash(call: nat)

  function Ended(w: World, call: nat): World {
    w.(calls := w.calls - {call})
  }

  function InPhase(w: World, call: nat, phase: Phase): World {
    if call in w.calls then w.(calls := w.calls[call := w.calls[call].(phase := phase)]) else w
  }

  predicate Enabled(w: World, step: Step) {
    match step
    case Look(call, _, _) => call !in w.calls
    case Claim(call, _, _) => call in w.calls && w.calls[call].phase == Looked
    case Fail(call) => call in w.calls && w.calls[call].phase == Holding
    case Commit(call, _) => call in w.calls && w.calls[call].phase == Holding
    case Release(call, _) => call in w.calls && w.calls[call].phase == Failing
    case Crash(call) => call in w.calls
  }

  function Claimed(w: World, call: nat, now: int, lease: int): World
    requires call in w.calls
  {
    var c := w.calls[call];
    if !Claimable(w.docs, c.delivery, now) then Ended(w, call)
    else World(ClaimDocs(w.docs, c.delivery, now, lease), w.calls[call := c.(phase := Holding, until := now + lease)],
        w.queued)
  }

  function Committing(w: World, call: nat, fate: Fate): World
    requires call in w.calls
  {
    var c := w.calls[call];
    var docs := CommitDocs(w.docs, c.delivery, c.wakeup);
    match fate
    case NoEffect => InPhase(w, call, Failing)
    case AnswerLost => InPhase(w.(docs := docs), call, Failing)
    case Unseen => Ended(w.(docs := docs), call)
    case Answered =>
      if IsCommitted(w.docs, c.delivery) then Ended(w, call)
      else Ended(w.(docs := docs, queued := w.queued + [Returned(c.delivery, c.wakeup)]), call)
  }

  function Apply(w: World, step: Step, lease: int): World {
    if !Enabled(w, step) then w
    else
      match step
      case Look(call, delivery, wakeup) =>
        if IsCommitted(w.docs, delivery) then w else w.(calls :=
            w.calls[call := Call(delivery, wakeup, Looked, NO_LEASE)])
      case Claim(call, now, fails) => if fails then Ended(w, call) else Claimed(w, call, now, lease)
      case Fail(call) => InPhase(w, call, Failing)
      case Commit(call, fate) => Committing(w, call, fate)
      case Release(call, fails) =>
        if fails then Ended(w, call) else Ended(w.(docs := ReleaseDocs(w.docs, w.calls[call].delivery)), call)
      case Crash(call) => Ended(w, call)
  }

  function Run(steps: seq<Step>, lease: int): World {
    if steps == [] then START else Apply(Run(steps[..|steps| - 1], lease), steps[|steps| - 1], lease)
  }

  /**
   No lease runs out while its holder is still in Process, and no commit's answer is lost: at every
   claim, whoever holds that delivery has time left.
   */
  predicate Timely(w: World, step: Step) {
    && (step.Claim? && Enabled(w, step) ==>
          forall c | c in w.calls && w.calls[c].Holds(w.calls[step.call].delivery) :: w.calls[c].until > step.now)
    && (step.Commit? ==> step.fate != AnswerLost)
  }

  ghost predicate AllTimely(steps: seq<Step>, lease: int) {
    forall n | 0 <= n < |steps| :: Timely(Run(steps[..n], lease), steps[n])
  }

  // ----- What holds in every timely run -----

  /** The record of a delivery somebody holds is their claim. */
  predicate ClaimOk(w: World, c: nat)
    requires c in w.calls
  {
    var call := w.calls[c];
    call.phase != Looked ==>
      && call.delivery in w.docs.records
      && w.docs.records[call.delivery].status == Status.Claimed && w.docs.records[call.delivery].leaseUntil
          == call.until
  }

  ghost predicate Exclusive(w: World) {
    forall b, c, id | b in w.calls && c in w.calls && w.calls[b].Holds(id) && w.calls[c].Holds(id) :: b == c
  }

  ghost predicate QueuedOnce(w: World) {
    && (forall q | q in w.queued :: IsCommitted(w.docs, q.delivery))
    && (forall i, j | 0 <= i < j < |w.queued| :: w.queued[i].delivery != w.queued[j].delivery)
  }

  ghost predicate Ok(w: World) {
    (forall c | c in w.calls :: ClaimOk(w, c)) && Exclusive(w) && QueuedOnce(w)
  }

  lemma ClaimIsOk(w: World, call: nat, now: int, lease: int)
    requires Ok(w) && Enabled(w, Claim(call, now, false)) && Timely(w, Claim(call, now, false))
    ensures Ok(Claimed(w, call, now, lease))
  {
    var id, v := w.calls[call].delivery, Claimed(w, call, now, lease);
    forall c | c in w.calls && w.calls[c].Holds(id)
      ensures !Claimable(w.docs, id, now)
    {
      assert ClaimOk(w, c);
    }
    forall c | c in v.calls
      ensures ClaimOk(v, c)
    {
      assert ClaimOk(w, c);
    }
  }

  lemma CommitIsOk(w: World, call: nat, fate: Fate)
    requires Ok(w) && Enabled(w, Commit(call, fate)) && fate != AnswerLost
    ensures Ok(Committing(w, call, fate))
  {
    var id, v := w.calls[call].delivery, Committing(w, call, fate);
    assert ClaimOk(w, call) && w.calls[call].Holds(id);
    forall c | c in v.calls
      ensures ClaimOk(v, c)
    {
      assert ClaimOk(w, c);
      assert c != call ==> !w.calls[c].Holds(id);
    }
  }

  lemma ReleaseIsOk(w: World, call: nat, fails: bool, lease: int)
    requires Ok(w) && Enabled(w, Release(call, fails))
    ensures Ok(Apply(w, Release(call, fails), lease))
  {
    var id, v := w.calls[call].delivery, Apply(w, Release(call, fails), lease);
    assert ClaimOk(w, call) && w.calls[call].Holds(id);
    forall c | c in v.calls
      ensures ClaimOk(v, c)
    {
      assert ClaimOk(w, c);
      assert !w.calls[c].Holds(id);
    }
  }

  lemma QuietStepIsOk(w: World, step: Step, lease: int)
    requires Ok(w) && Enabled(w, step) && (step.Look? || step.Fail? || step.Crash? || (step.Claim? && step.fails))
    ensures Ok(Apply(w, step, lease))
  {
    var v := Apply(w, step, lease);
    forall c | c in v.calls
      ensures ClaimOk(v, c)
    {
      assert c in w.calls ==> ClaimOk(w, c);
    }
    assert forall c, id | c in v.calls && v.calls[c].Holds(id) :: c in w.calls && w.calls[c].Holds(id);
  }

  lemma StepIsOk(w: World, step: Step, lease: int)
    requires Ok(w) && Timely(w, step)
    ensures Ok(Apply(w, step, lease))
  {
    if Enabled(w, step) {
      match step
      case Claim(call, now, fails) => if fails { QuietStepIsOk(w, step, lease); }
          else { ClaimIsOk(w, call, now, lease); }
      case Commit(call, fate) => CommitIsOk(w, call, fate);
      case Release(call, fails) => ReleaseIsOk(w, call, fails, lease);
      case _ => QuietStepIsOk(w, step, lease);
    }
  }

  lemma {:induction false} RunIsOk(steps: seq<Step>, lease: int)
    requires AllTimely(steps, lease)
    ensures Ok(Run(steps, lease))
  {
    if steps != [] {
      var n := |steps| - 1;
      PrefixIsTimely(steps, n, lease);
      RunIsOk(steps[..n], lease);
      StepIsOk(Run(steps[..n], lease), steps[n], lease);
    }
  }

  lemma PrefixIsTimely(steps: seq<Step>, n: nat, lease: int)
    requires n <= |steps| && AllTimely(steps, lease)
    ensures AllTimely(steps[..n], lease)
  {
    forall k | 0 <= k < n
      ensures Timely(Run(steps[..n][..k], lease), steps[..n][k])
    {
      assert steps[..n][..k] == steps[..k];
    }
  }

  // ----- What follows -----

  /** At most one call is between its claim and its commit or release, for each delivery. */
  lemma OneHolderAtATime(steps: seq<Step>, lease: int, b: nat, c: nat, id: Name)
    requires AllTimely(steps, lease)
    requires var calls := Run(steps, lease).calls; b in calls && c in calls && calls[b].Holds(id) && calls[c].Holds(id)
    ensures b == c && !IsCommitted(Run(steps, lease).docs, id)
  {
    RunIsOk(steps, lease);
    assert ClaimOk(Run(steps, lease), b);
  }

  /** At most one call ever returns queued for a delivery, and the delivery is committed by then. */
  lemma QueuedAtMostOnce(steps: seq<Step>, lease: int)
    requires AllTimely(steps, lease)
    ensures QueuedOnce(Run(steps, lease))
  {
    RunIsOk(steps, lease);
  }

  lemma CommittedStays(w: World, step: Step, lease: int, id: Name)
    requires Ok(w) && Timely(w, step) && IsCommitted(w.docs, id)
    ensures IsCommitted(Apply(w, step, lease).docs, id)
  {
    if Enabled(w, step) && !step.Look? {
      assert ClaimOk(w, step.call);
    }
  }

  /** In a timely run committed is final. */
  lemma {:induction false} CommittedIsFinal(steps: seq<Step>, more: seq<Step>, lease: int, id: Name)
    requires AllTimely(steps + more, lease) && IsCommitted(Run(steps, lease).docs, id)
    ensures IsCommitted(Run(steps + more, lease).docs, id)
    decreases |more|
  {
    if more == [] {
      assert steps + more == steps;
    } else {
      var all, init := steps + more, more[..|more| - 1];
      var n := |all| - 1;
      assert all[..n] == steps + init && all[n] == more[|more| - 1];
      PrefixIsTimely(all, n, lease);
      CommittedIsFinal(steps, init, lease, id);
      RunIsOk(steps + init, lease);
      assert Timely(Run(all[..n], lease), all[n]);
      CommittedStays(Run(steps + init, lease), all[n], lease, id);
    }
  }

  /** Every call that returned queued left its wakeup in the store, timely or not. */
  lemma {:induction false} QueuedLeavesItsWakeup(steps: seq<Step>, lease: int)
    ensures forall q | q in Run(steps, lease).queued :: q.wakeup.key in Run(steps, lease).docs.wakeups
  {
    if steps != [] {
      QueuedLeavesItsWakeup(steps[..|steps| - 1], lease);
      StepLeavesWakeups(Run(steps[..|steps| - 1], lease), steps[|steps| - 1], lease);
    }
  }

  lemma StepLeavesWakeups(w: World, step: Step, lease: int)
    ensures forall key | key in w.docs.wakeups :: key in Apply(w, step, lease).docs.wakeups
    ensures forall q | q in Apply(w, step, lease).queued && q !in w.queued ::
              q.wakeup.key in Apply(w, step, lease).docs.wakeups
  {
  }

  /** The lease is exact: a second call gets in just when the holder's lease has run out. */
  lemma ExclusionIsExact(w: World, holder: nat, call: nat, now: int, lease: int)
    requires Ok(w) && holder in w.calls && w.calls[holder].phase != Looked
    requires call in w.calls && w.calls[call].phase == Looked && w.calls[call].delivery == w.calls[holder].delivery
    ensures var v, id := Apply(w, Claim(call, now, false), lease), w.calls[holder].delivery;
            (call in v.calls && v.calls[call].Holds(id) && v.calls[holder].Holds(id)) <==> w.calls[holder].until <= now
  {
    assert ClaimOk(w, holder);
  }

  // ----- When committed is final, and when it is not -----

  /** A release that goes through, of a call for this delivery. */
  predicate Undoes(w: World, step: Step, id: Name) {
    step.Release? && Enabled(w, step) && !step.fails && w.calls[step.call].delivery == id
  }

  /** Nothing else un-commits a delivery, and that always does. */
  lemma OnlyReleaseUndoes(w: World, step: Step, lease: int, id: Name)
    requires IsCommitted(w.docs, id)
    ensures IsCommitted(Apply(w, step, lease).docs, id) <==> !Undoes(w, step, id)
  {
  }

  /** The world after more steps. */
  function From(w: World, more: seq<Step>, lease: int): World
    decreases |more|
  {
    if more == [] then w else From(Apply(w, more[0], lease), more[1..], lease)
  }

  predicate IsHeld(w: World, id: Name) {
    exists c :: c in w.calls && w.calls[c].Holds(id)
  }

  /** While nobody holds a committed delivery, nobody comes to hold it. */
  lemma UnheldStays(w: World, step: Step, lease: int, id: Name)
    requires IsCommitted(w.docs, id) && !IsHeld(w, id)
    ensures IsCommitted(Apply(w, step, lease).docs, id) && !IsHeld(Apply(w, step, lease), id)
  {
    OnlyReleaseUndoes(w, step, lease, id);
    var v := Apply(w, step, lease);
    assert forall c | c in w.calls :: !w.calls[c].Holds(id);
    forall c | c in v.calls
      ensures !v.calls[c].Holds(id)
    {
    }
  }

  lemma {:induction false} UnheldIsFinal(w: World, more: seq<Step>, lease: int, id: Name)
    requires IsCommitted(w.docs, id) && !IsHeld(w, id)
    ensures IsCommitted(From(w, more, lease).docs, id)
    decreases |more|
  {
    if more != [] {
      UnheldStays(w, more[0], lease, id);
      UnheldIsFinal(Apply(w, more[0], lease), more[1..], lease, id);
    }
  }

  /** Fail, if it has not yet, and release. */
  function GivesUp(call: nat): seq<Step> { [Fail(call), Release(call, false)] }

  lemma HolderCanUndo(w: World, call: nat, lease: int, id: Name)
    requires IsCommitted(w.docs, id) && call in w.calls && w.calls[call].Holds(id)
    ensures !IsCommitted(From(w, GivesUp(call), lease).docs, id)
  {
    var u := Apply(w, Fail(call), lease);
    OnlyReleaseUndoes(u, Release(call, false), lease, id);
    var more := GivesUp(call);
    assert more[1..] == [Release(call, false)] && more[1..][1..] == [];
    assert From(u, more[1..], lease) == Apply(u, Release(call, false), lease);
  }

  /**
   Whatever happened before, and however late: a committed delivery stays committed in every continuation
   if and only if no call holds it.
   */
  lemma FinalIffUnheld(w: World, lease: int, id: Name)
    requires IsCommitted(w.docs, id)
    ensures (forall more :: IsCommitted(From(w, more, lease).docs, id)) <==> !IsHeld(w, id)
  {
    if IsHeld(w, id) {
      var c :| c in w.calls && w.calls[c].Holds(id);
      HolderCanUndo(w, c, lease, id);
    } else {
      forall more: seq<Step>
        ensures IsCommitted(From(w, more, lease).docs, id)
      {
        UnheldIsFinal(w, more, lease, id);
      }
    }
  }

  /**
   A commit that takes effect leaves a final delivery if and only if its answer arrives and nobody else
   holds the delivery.
   */
  lemma CommitIsFinalIff(w: World, call: nat, fate: Fate, lease: int)
    requires Enabled(w, Commit(call, fate)) && fate != NoEffect
    ensures var v, id := Apply(w, Commit(call, fate), lease), w.calls[call].delivery;
            && IsCommitted(v.docs, id)
            && ((forall more :: IsCommitted(From(v, more, lease).docs, id))
                <==> fate != AnswerLost && forall c | c in w.calls && c != call :: !w.calls[c].Holds(id))
  {
    var v, id := Apply(w, Commit(call, fate), lease), w.calls[call].delivery;
    FinalIffUnheld(v, lease, id);
    if fate == AnswerLost {
      assert call in v.calls && v.calls[call].Holds(id);
    }
    if c :| c in w.calls && c != call && w.calls[c].Holds(id) {
      assert c in v.calls && v.calls[c].Holds(id);
    }
  }

  /**
   From every state in which a lease has run out under its holder and another call is about to claim: the
   other claims and commits, the holder fails and releases, and the delivery is committed no more.
   */
  lemma LateHolderUndoes(w: World, holder: nat, call: nat, now: int, lease: int, v: World)
    requires Ok(w) && holder in w.calls && w.calls[holder].phase != Looked && w.calls[holder].until <= now
    requires call in w.calls && w.calls[call].phase == Looked && w.calls[call].delivery == w.calls[holder].delivery
    requires v == Apply(Apply(w, Claim(call, now, false), lease), Commit(call, Answered), lease)
    ensures var id := w.calls[holder].delivery;
            IsCommitted(v.docs, id) && !IsCommitted(From(v, GivesUp(holder), lease).docs, id)
  {
    assert ClaimOk(w, holder);
    HolderCanUndo(v, holder, lease, w.calls[holder].delivery);
  }

  /**
   From every state in which a call holds a delivery: its commit takes effect, the answer is lost, and it
   releases.
   */
  lemma LostAnswerUndoes(w: World, call: nat, lease: int, v: World)
    requires call in w.calls && w.calls[call].phase == Holding && v == Apply(w, Commit(call, AnswerLost), lease)
    ensures var id := w.calls[call].delivery;
            IsCommitted(v.docs, id) && !IsCommitted(From(v, GivesUp(call), lease).docs, id)
  {
    HolderCanUndo(v, call, lease, w.calls[call].delivery);
  }

  /**
   From nothing stored: a call that lost its lease releases what another committed, and the delivery is
   queued again.
   */
  lemma ExpiredLeaseQueuesTwice(id: Name, wakeup: Wakeup, lease: int, late: int, w1: World, w2: World, w3: World,
      w4: World)
    requires lease > 0 && late >= lease
    requires w1 == Apply(Apply(Apply(START, Look(1, id, wakeup), lease), Claim(1, 0, false), lease),
                   Look(2, id, wakeup), lease)
    requires w2 == Apply(Apply(w1, Claim(2, late, false), lease), Commit(2, Answered), lease)
    requires w3 == Apply(Apply(w2, Fail(1), lease), Release(1, false), lease)
    requires w4 == Apply(Apply(Apply(w3, Look(3, id, wakeup), lease), Claim(3, late, false), lease),
                   Commit(3, Answered), lease)
    ensures IsCommitted(w2.docs, id) && !IsCommitted(w3.docs, id)
    ensures w4.queued == [Returned(id, wakeup), Returned(id, wakeup)]
  {
    assert w1.calls == map[1 := Call(id, wakeup, Holding, lease), 2 := Call(id, wakeup, Looked, NO_LEASE)];
    assert w2.calls == map[1 := Call(id, wakeup, Holding, lease)];
    assert w3.calls == map[];
  }
}
