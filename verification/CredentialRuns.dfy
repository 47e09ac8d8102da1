/** Enrolling, inviting, rotating, blocking and unblocking in any order, by any number of callers. */
module CredentialRuns {
  import opened Wrappers
  import opened Text
  import opened Credentials

  /** newest is the last token issued for each machine. */
  datatype World = World(docs: Documents, newest: map<MachineId, Name>)

  const START := World(EMPTY, map[])

  /** Each step is one transaction; what its caller read before, and may have refused over, is in the past. */
  datatype Step =
    | Enroll(viewer: Name, displayName: Name, name: Name, token: Name, now: int)
    | Invite(machine: MachineId, rotate: bool, token: Name, now: int)
    | Block(machine: MachineId, now: int)
    | Unblock(machine: MachineId, now: int)

  /** Tokens are drawn well formed, names are checked before a token is drawn, and the clock is set. */
  predicate Sensible(step: Step) {
    match step
    case Enroll(_, _, _, token, now) => WellFormedToken(token) && now != UNSET
    case Invite(m, _, token, now) => WellFormedToken(token) && now != UNSET && !IsBlank(m.name) && !IsBlank(m.identity)
    case _ => true
  }

  function Apply(w: World, step: Step): World {
    match step
    case Enroll(viewer, displayName, name, token, now) =>
      var b := EnrollmentBinding(viewer, displayName, name, now);
      if RotateAnswer(w.docs, b, token).Failure? then w
      else World(RotateDocs(w.docs, b, token), w.newest[b.machine := token])
    case Invite(m, rotate, token, now) =>
      if InviteAnswer(w.docs, m, rotate, token).Some? then w
      else World(InviteDocs(w.docs, m, rotate, token, now), w.newest[m := token])
    case Block(m, now) => w.(docs := ChangeDocs(w.docs, m, true, now))
    case Unblock(m, now) => w.(docs := ChangeDocs(w.docs, m, false, now))
  }

  function Run(steps: seq<Step>): World {
    if steps == [] then START else Apply(Run(steps[..|steps| - 1]), steps[|steps| - 1])
  }

  // ----- What holds in every reachable state -----

  /** A machine's enrollment and its credential name each other. */
  predicate Paired(d: Documents, m: MachineId)
    requires m in d.enrollments
  {
    var e := d.enrollments[m];
    && e.binding.machine == m && e.binding.name == m.name && e.binding.identity == m.identity && e.binding.Valid()
    && WellFormedToken(e.token) && e.token in d.credentials && d.credentials[e.token] == e.binding
  }

  ghost predicate Bijection(d: Documents) {
    && (forall m | m in d.enrollments :: Paired(d, m))
    && (forall t | t in d.credentials ::
           d.credentials[t].machine in d.enrollments && d.enrollments[d.credentials[t].machine].token == t)
  }

  predicate IsPeer(d: Documents, m: MachineId) {
    m in d.enrollments && d.enrollments[m].binding.scopes == Peer
  }

  ghost predicate TrustOk(d: Documents) {
    && (forall m :: m in d.trust <==> IsPeer(d, m))
    && (forall m | m in d.trust ::
           d.trust[m].machine == m && d.trust[m].name == m.name && d.trust[m].identity == m.identity && d.trust[m].Valid())
    && (forall m | m in d.trust :: m in d.stats)
  }

  ghost predicate NewestOk(d: Documents, newest: map<MachineId, Name>) {
    && (forall m :: m in newest <==> m in d.enrollments)
    && (forall m | m in newest :: newest[m] == d.enrollments[m].token)
  }

  ghost predicate Ok(w: World) {
    Bijection(w.docs) && TrustOk(w.docs) && NewestOk(w.docs, w.newest)
  }

  lemma CredentialKeepsBijection(d: Documents, b: Binding, token: Name)
    requires Bijection(d) && token !in d.credentials && WellFormedToken(token)
    requires b.Valid() && b.machine == MachineId(b.identity, b.name)
    ensures Bijection(WithCredential(d, b, token))
  {
    var v := WithCredential(d, b, token);
    forall m | m in v.enrollments
      ensures Paired(v, m)
    {
      if m != b.machine {
        assert Paired(d, m);
        if b.machine in d.enrollments { assert Paired(d, b.machine); }
      }
    }
    forall t | t in v.credentials
      ensures v.credentials[t].machine in v.enrollments && v.enrollments[v.credentials[t].machine].token == t
    {
      if t != token && b.machine in d.enrollments {
        assert Paired(d, b.machine);
      }
    }
  }

  /** A credential of the kind its machine already has, or of a new machine's, leaves trust matched. */
  lemma CredentialKeepsTrust(d: Documents, b: Binding, token: Name, trust: map<MachineId, PeerRecord>,
      stats: map<MachineId, Stats>)
    requires TrustOk(d)
    requires forall m :: m in trust <==> m in d.trust || (m == b.machine && b.scopes == Peer)
    requires b.machine in d.trust ==> b.scopes == Peer
    requires forall m | m in trust :: m in d.trust && m != b.machine ==> trust[m] == d.trust[m]
    requires b.machine in trust ==> trust[b.machine].machine == b.machine && trust[b.machine].name == b.machine.name
                                    && trust[b.machine].identity == b.machine.identity && trust[b.machine].Valid()
    requires forall m | m in d.stats || m in trust :: m in stats
    ensures TrustOk(WithCredential(d, b, token).(trust := trust, stats := stats))
  {
    var v := WithCredential(d, b, token).(trust := trust, stats := stats);
    forall m: MachineId
      ensures m in v.trust <==> IsPeer(v, m)
    {
      assert m in d.trust <==> IsPeer(d, m);
    }
  }

  lemma EnrollIsOk(w: World, step: Step)
    requires Ok(w) && Sensible(step) && step.Enroll?
    ensures Ok(Apply(w, step))
  {
    var b := EnrollmentBinding(step.viewer, step.displayName, step.name, step.now);
    if RotateAnswer(w.docs, b, step.token).Success? {
      CredentialKeepsBijection(w.docs, b, step.token);
      CredentialKeepsTrust(w.docs, b, step.token, w.docs.trust, w.docs.stats);
      assert Apply(w, step).docs == WithCredential(w.docs, b, step.token).(trust := w.docs.trust, stats :=
          w.docs.stats);
    }
  }

  lemma InviteKeepsBijection(d: Documents, m: MachineId, rotate: bool, token: Name, now: int)
    requires Bijection(d) && InviteAnswer(d, m, rotate, token).None? && WellFormedToken(token)
    requires now != UNSET && !IsBlank(m.name) && !IsBlank(m.identity)
    ensures Bijection(InviteDocs(d, m, rotate, token, now))
  {
    var b := PeerBinding(m.identity, m.name, now);
    CredentialKeepsBijection(d, b, token);
    BijectionIsApart(WithCredential(d, b, token), InviteDocs(d, m, rotate, token, now));
  }

  lemma InviteKeepsTrust(d: Documents, m: MachineId, rotate: bool, token: Name, now: int)
    requires TrustOk(d) && InviteAnswer(d, m, rotate, token).None?
    requires now != UNSET && !IsBlank(m.name) && !IsBlank(m.identity)
    ensures TrustOk(InviteDocs(d, m, rotate, token, now))
  {
    var v := InviteDocs(d, m, rotate, token, now);
    AdmittedIsValid(d, m, now);
    CredentialKeepsTrust(d, PeerBinding(m.identity, m.name, now), token, v.trust, v.stats);
  }

  lemma InviteIsOk(w: World, step: Step)
    requires Ok(w) && Sensible(step) && step.Invite?
    ensures Ok(Apply(w, step))
  {
    if InviteAnswer(w.docs, step.machine, step.rotate, step.token).None? {
      InviteKeepsBijection(w.docs, step.machine, step.rotate, step.token, step.now);
      InviteKeepsTrust(w.docs, step.machine, step.rotate, step.token, step.now);
    }
  }

  lemma AdmittedIsValid(d: Documents, m: MachineId, now: int)
    requires TrustOk(d) && now != UNSET && !IsBlank(m.name) && !IsBlank(m.identity)
    ensures var r := Admitted(d, m, now); r.machine == m && r.name == m.name && r.identity == m.identity && r.Valid()
  {
  }

  lemma BijectionIsApart(d: Documents, v: Documents)
    requires Bijection(d) && v.enrollments == d.enrollments && v.credentials == d.credentials
    ensures Bijection(v)
  {
    forall m | m in v.enrollments
      ensures Paired(v, m)
    {
      assert Paired(d, m);
    }
  }

  lemma ChangeKeepsTrust(d: Documents, m: MachineId, block: bool, now: int)
    requires TrustOk(d)
    ensures TrustOk(ChangeDocs(d, m, block, now))
  {
    var v := ChangeDocs(d, m, block, now);
    forall n: MachineId
      ensures n in v.trust <==> IsPeer(v, n)
    {
      assert n in d.trust <==> IsPeer(d, n);
    }
  }

  lemma ChangeIsOk(w: World, m: MachineId, block: bool, now: int)
    requires Ok(w)
    ensures Ok(w.(docs := ChangeDocs(w.docs, m, block, now)))
  {
    BijectionIsApart(w.docs, ChangeDocs(w.docs, m, block, now));
    ChangeKeepsTrust(w.docs, m, block, now);
  }

  lemma {:induction false} RunIsOk(steps: seq<Step>)
    requires forall s | s in steps :: Sensible(s)
    ensures Ok(Run(steps))
  {
    if steps != [] {
      var n := |steps| - 1;
      RunIsOk(steps[..n]);
      match steps[n]
      case Enroll(_, _, _, _, _) => EnrollIsOk(Run(steps[..n]), steps[n]);
      case Invite(_, _, _, _) => InviteIsOk(Run(steps[..n]), steps[n]);
      case Block(m, now) => ChangeIsOk(Run(steps[..n]), m, true, now);
      case Unblock(m, now) => ChangeIsOk(Run(steps[..n]), m, false, now);
    }
  }

  // ----- What follows -----

  /**
   Enrollments and credentials correspond one to one; a trust document exists exactly for the machines
   whose credential has the peer scope, under that machine's ID, and statistics exist with it.
   */
  lemma CredentialsCorrespond(steps: seq<Step>)
    requires forall s | s in steps :: Sensible(s)
    ensures var d := Run(steps).docs;
            && (forall m | m in d.enrollments ::
                  d.enrollments[m].token in d.credentials
                  && d.credentials[d.enrollments[m].token] == d.enrollments[m].binding && d.enrollments[m].binding.machine == m)
            && (forall t | t in d.credentials ::
                  d.credentials[t].machine in d.enrollments && d.enrollments[d.credentials[t].machine].token == t)
            && (forall m ::
                  m in d.trust <==> m in d.enrollments && d.credentials[d.enrollments[m].token].scopes == Peer)
            && (forall m | m in d.trust :: m in d.stats)
            && TrustIsKeyed(d)
  {
    RunIsOk(steps);
    var d := Run(steps).docs;
    forall m | m in d.enrollments
      ensures d.enrollments[m].token in d.credentials
      ensures d.credentials[d.enrollments[m].token] == d.enrollments[m].binding && d.enrollments[m].binding.machine == m
    {
      assert Paired(d, m);
    }
    forall m: MachineId
      ensures m in d.trust <==> m in d.enrollments && d.credentials[d.enrollments[m].token].scopes == Peer
    {
      assert m in d.trust <==> IsPeer(d, m);
    }
  }

  predicate IsBlocked(d: Documents, m: MachineId) { m in d.trust && d.trust[m].trust == Blocked }

  /** A token resolves exactly when it is the newest issued for its machine and that machine is not a blocked peer. */
  lemma ResolvesIffNewest(steps: seq<Step>, token: Name)
    requires forall s | s in steps :: Sensible(s)
    ensures Resolve(Run(steps).docs, token).Some? <==>
              exists m | m in Run(steps).newest :: Run(steps).newest[m] == token && !IsBlocked(Run(steps).docs, m)
    ensures Resolve(Run(steps).docs, token).Some? ==>
              Resolve(Run(steps).docs, token).value.machine in Run(steps).newest
              && Run(steps).newest[Resolve(Run(steps).docs, token).value.machine] == token
  {
    RunIsOk(steps);
    var w := Run(steps);
    var d := w.docs;
    if token in d.credentials {
      var m := d.credentials[token].machine;
      assert Paired(d, m);
      assert m in d.trust <==> IsPeer(d, m);
      forall n | n in w.newest && w.newest[n] == token
        ensures n == m
      {
        assert Paired(d, n);
      }
    } else {
      forall n | n in w.newest
        ensures w.newest[n] != token
      {
        assert Paired(d, n);
      }
    }
  }

  lemma TrustStays(w: World, step: Step, m: MachineId)
    requires TrustOk(w.docs)
    ensures m in w.docs.trust ==> m in Apply(w, step).docs.trust
    ensures m in w.docs.enrollments ==> m in Apply(w, step).docs.enrollments
    ensures m in w.docs.trust && !(step.Unblock? && step.machine == m) && w.docs.trust[m].trust == Blocked ==>
              Apply(w, step).docs.trust[m].trust == Blocked
    ensures m in w.docs.enrollments && m !in w.docs.trust ==> m !in Apply(w, step).docs.trust
  {
  }

  lemma {:induction false} RunTrustStays(steps: seq<Step>, more: seq<Step>, m: MachineId)
    requires forall s | s in steps + more :: Sensible(s)
    ensures m in Run(steps).docs.trust ==> m in Run(steps + more).docs.trust
    ensures m in Run(steps).docs.enrollments && m !in Run(steps).docs.trust ==>
              m in Run(steps + more).docs.enrollments && m !in Run(steps + more).docs.trust
    ensures IsBlocked(Run(steps).docs, m) && (forall s | s in more :: !(s.Unblock? && s.machine == m)) ==>
        IsBlocked(Run(steps + more).docs, m)
    decreases |more|
  {
    if more == [] {
      assert steps + more == steps;
    } else {
      var init, last := more[..|more| - 1], more[|more| - 1];
      assert (steps + more)[..|steps + more| - 1] == steps + init;
      assert forall s | s in steps + init :: s in steps + more;
      RunTrustStays(steps, init, m);
      RunIsOk(steps + init);
      TrustStays(Run(steps + init), last, m);
    }
  }

  /** A machine enrolled plainly never becomes a peer, and a peer never stops being one. */
  lemma KindIsFixed(steps: seq<Step>, more: seq<Step>, m: MachineId)
    requires forall s | s in steps + more :: Sensible(s)
    requires m in Run(steps).docs.enrollments
    ensures m in Run(steps + more).docs.trust <==> m in Run(steps).docs.trust
  {
    RunTrustStays(steps, more, m);
  }

  /** Until it is unblocked, no token of a blocked peer resolves, not even one reissued meanwhile. */
  lemma BlockedIsRefused(steps: seq<Step>, more: seq<Step>, m: MachineId, token: Name)
    requires forall s | s in steps + more :: Sensible(s)
    requires IsBlocked(Run(steps).docs, m) && forall s | s in more :: !(s.Unblock? && s.machine == m)
    ensures var r := Resolve(Run(steps + more).docs, token); r.Some? ==> r.value.machine != m
  {
    RunTrustStays(steps, more, m);
  }

  /**
   The resolver reads the credential and the peer at two instants. What it returns was the newest token
   at the first, of a machine that is no blocked peer at the second.
   */
  lemma ResolvedAcrossSteps(steps: seq<Step>, more: seq<Step>, token: Name)
    requires forall s | s in steps + more :: Sensible(s)
    ensures var r := ResolveAcross(Run(steps).docs, Run(steps + more).docs, token);
            r.Some? <==>
                exists m | m in Run(steps).newest :: Run(steps).newest[m] == token && !IsBlocked(Run(steps + more).docs, m)
  {
    RunIsOk(steps);
    RunIsOk(steps + more);
    var d, later := Run(steps).docs, Run(steps + more).docs;
    if token in d.credentials {
      var m := d.credentials[token].machine;
      assert Paired(d, m);
      assert m in d.trust <==> IsPeer(d, m);
      RunTrustStays(steps, more, m);
      OnlyItsMachine(Run(steps), token);
    } else {
      OnlyItsMachine(Run(steps), token);
    }
  }

  lemma OnlyItsMachine(w: World, token: Name)
    requires Ok(w)
    ensures forall n | n in w.newest && w.newest[n] == token ::
          token in w.docs.credentials && w.docs.credentials[token].machine == n
  {
    forall n | n in w.newest && w.newest[n] == token
      ensures token in w.docs.credentials && w.docs.credentials[token].machine == n
    {
      assert Paired(w.docs, n);
    }
  }
}
