/** What the history of a machine says of its peer record, and of the token it was handed last. */
module CredentialLaws {
  import opened Wrappers
  import opened Text
  import opened Credentials
  import opened CredentialRuns

  predicate AllSensible(steps: seq<Step>) {
    forall s | s in steps :: Sensible(s)
  }

  lemma PrefixIsSensible(steps: seq<Step>, n: nat)
    requires AllSensible(steps) && n <= |steps|
    ensures AllSensible(steps[..n])
  {
  }

  // ----- Trust is what the last block or unblock left -----

  /** Step n blocks the machine, which is a peer by then. */
  predicate BlocksAt(steps: seq<Step>, n: nat, m: MachineId) {
    n < |steps| && steps[n].Block? && steps[n].machine == m && m in Run(steps[..n]).docs.trust
  }

  predicate UnblocksAt(steps: seq<Step>, n: nat, m: MachineId) {
    n < |steps| && steps[n].Unblock? && steps[n].machine == m
  }

  /** The last block or unblock of the machine since it became a peer is a block. */
  ghost predicate LastBlocks(steps: seq<Step>, m: MachineId) {
    exists n: nat :: BlocksAt(steps, n, m) && forall k: nat | n < k :: !UnblocksAt(steps, k, m)
  }

  lemma ChangeBlocks(d: Documents, k: MachineId, block: bool, now: int, m: MachineId)
    requires m in d.trust ==> d.trust[m].Valid() && d.trust[m].machine == m
    ensures IsBlocked(ChangeDocs(d, k, block, now), m) <==>
              if k == m then block && m in d.trust else IsBlocked(d, m)
  {
  }

  lemma InviteKeepsBlocked(d: Documents, k: MachineId, rotate: bool, token: Name, now: int, m: MachineId)
    ensures IsBlocked(InviteDocs(d, k, rotate, token, now), m) <==> IsBlocked(d, m)
  {
  }

  lemma StepBlocks(w: World, step: Step, m: MachineId)
    requires m in w.docs.trust ==> w.docs.trust[m].Valid() && w.docs.trust[m].machine == m
    ensures IsBlocked(Apply(w, step).docs, m) <==>
              || (step.Block? && step.machine == m && m in w.docs.trust)
              || (IsBlocked(w.docs, m) && !(step.Unblock? && step.machine == m))
  {
    match step
    case Enroll(_, _, _, _, _) =>
    case Invite(k, rotate, token, now) => InviteKeepsBlocked(w.docs, k, rotate, token, now, m);
    case Block(k, now) => ChangeBlocks(w.docs, k, true, now, m);
    case Unblock(k, now) => ChangeBlocks(w.docs, k, false, now, m);
  }

  lemma InitAgrees(steps: seq<Step>, n: nat, k: nat, m: MachineId)
    requires k < n < |steps|
    ensures BlocksAt(steps, k, m) <==> BlocksAt(steps[..n], k, m)
    ensures UnblocksAt(steps, k, m) <==> UnblocksAt(steps[..n], k, m)
  {
    assert steps[..n][..k] == steps[..k];
  }

  lemma LastStepBlocks(steps: seq<Step>, m: MachineId)
    requires steps != []
    ensures var n := |steps| - 1;
            LastBlocks(steps, m) <==>
              || BlocksAt(steps, n, m)
              || (LastBlocks(steps[..n], m) && !UnblocksAt(steps, n, m))
  {
    var n := |steps| - 1;
    var init := steps[..n];
    forall k: nat | k < n
      ensures BlocksAt(steps, k, m) <==> BlocksAt(init, k, m)
      ensures UnblocksAt(steps, k, m) <==> UnblocksAt(init, k, m)
    {
      InitAgrees(steps, n, k, m);
    }
    if LastBlocks(steps, m) && !BlocksAt(steps, n, m) {
      var k: nat :| BlocksAt(steps, k, m) && forall j: nat | k < j :: !UnblocksAt(steps, j, m);
      assert BlocksAt(init, k, m) && forall j: nat | k < j < n :: !UnblocksAt(init, j, m);
    }
    if LastBlocks(init, m) && !UnblocksAt(steps, n, m) {
      StillLastBlocks(steps, m);
    }
  }

  lemma StillLastBlocks(steps: seq<Step>, m: MachineId)
    requires steps != [] && LastBlocks(steps[..|steps| - 1], m) && !UnblocksAt(steps, |steps| - 1, m)
    ensures LastBlocks(steps, m)
  {
    var n := |steps| - 1;
    var k: nat :| BlocksAt(steps[..n], k, m) && forall j: nat | k < j :: !UnblocksAt(steps[..n], j, m);
    InitAgrees(steps, n, k, m);
    forall j: nat | k < j
      ensures !UnblocksAt(steps, j, m)
    {
      if j < n { InitAgrees(steps, n, j, m); }
    }
  }

  /** A peer is blocked if and only if the last block or unblock of it since it became one is a block. */
  lemma {:induction false} BlockedIffLastBlocks(steps: seq<Step>, m: MachineId)
    requires AllSensible(steps)
    ensures IsBlocked(Run(steps).docs, m) <==> LastBlocks(steps, m)
  {
    if steps == [] {
      assert forall n: nat :: !BlocksAt(steps, n, m);
    } else {
      var n := |steps| - 1;
      BlockedIffLastBlocks(steps[..n], m);
      RunIsOk(steps[..n]);
      StepBlocks(Run(steps[..n]), steps[n], m);
      LastStepBlocks(steps, m);
    }
  }

  // ----- What a token is good for right after it is handed out -----

  /** The documents of an invitation that succeeds. */
  lemma InviteIssues(d: Documents, m: MachineId, rotate: bool, token: Name, now: int)
    requires InviteAnswer(d, m, rotate, token).None?
    ensures var e := InviteDocs(d, m, rotate, token, now);
            && token in e.credentials && e.credentials[token] == Binding(m, m.name, m.identity, BLANK, now, Peer)
            && m in e.trust
  {
  }

  lemma PeerResolves(e: Documents, token: Name, b: Binding)
    requires WellFormedToken(token) && token in e.credentials && e.credentials[token] == b && b.Valid()
    requires b.machine in e.trust && e.trust[b.machine].Valid()
    ensures Resolve(e, token) == if IsBlocked(e, b.machine) then None else Some(b)
  {
  }

  /** The token of an invitation that succeeds resolves at once, to a peer's credential, unless the peer is blocked. */
  lemma InvitedResolves(steps: seq<Step>, m: MachineId, rotate: bool, token: Name, now: int)
    requires AllSensible(steps + [Invite(m, rotate, token, now)])
    requires InviteAnswer(Run(steps).docs, m, rotate, token).None?
    ensures var d := Run(steps + [Invite(m, rotate, token, now)]).docs;
            && (Resolve(d, token).Some? <==> !LastBlocks(steps, m))
            && (Resolve(d, token).Some? ==>
                  Resolve(d, token).value == Binding(m, m.name, m.identity, BLANK, now, Peer))
  {
    var all := steps + [Invite(m, rotate, token, now)];
    assert all[..|steps|] == steps && all[|steps|] == Invite(m, rotate, token, now);
    assert Sensible(all[|steps|]);
    PrefixIsSensible(all, |steps|);
    var d := Run(steps).docs;
    RunIsOk(all);
    InviteIssues(d, m, rotate, token, now);
    BlockedIffLastBlocks(steps, m);
    InviteKeepsBlocked(d, m, rotate, token, now, m);
    PeerResolves(Run(all).docs, token, Binding(m, m.name, m.identity, BLANK, now, Peer));
  }

  /** In particular the token of a machine invited for the first time resolves. */
  lemma FirstInvitationResolves(steps: seq<Step>, m: MachineId, rotate: bool, token: Name, now: int)
    requires AllSensible(steps + [Invite(m, rotate, token, now)]) && m !in Run(steps).docs.trust
    requires InviteAnswer(Run(steps).docs, m, rotate, token).None?
    ensures Resolve(Run(steps + [Invite(m, rotate, token, now)]).docs, token).Some?
  {
    var all := steps + [Invite(m, rotate, token, now)];
    assert all[..|steps|] == steps && forall s | s in steps :: s in all;
    InvitedResolves(steps, m, rotate, token, now);
    BlockedIffLastBlocks(steps, m);
  }

  /** The token of an enrollment that succeeds resolves at once, to the machine of that viewer and name. */
  lemma EnrolledResolves(steps: seq<Step>, viewer: Name, displayName: Name, name: Name, token: Name, now: int)
    requires AllSensible(steps + [Enroll(viewer, displayName, name, token, now)])
    requires RotateAnswer(Run(steps).docs, EnrollmentBinding(viewer, displayName, name, now), token).Success?
    ensures Resolve(Run(steps + [Enroll(viewer, displayName, name, token, now)]).docs, token)
        == Some(Binding(MachineId(viewer, name), name, viewer, displayName, now, Enrollment))
  {
    var all := steps + [Enroll(viewer, displayName, name, token, now)];
    assert all[..|steps|] == steps && Sensible(all[|steps|]);
  }

  // ----- What an invitation and its rotation record -----

  /** A machine becomes a peer under its own name, active, with nothing to reset and nothing counted yet. */
  lemma FirstInvitationRecords(steps: seq<Step>, m: MachineId, rotate: bool, token: Name, now: int)
    requires AllSensible(steps + [Invite(m, rotate, token, now)]) && m !in Run(steps).docs.trust
    requires InviteAnswer(Run(steps).docs, m, rotate, token).None?
    ensures var d := Run(steps + [Invite(m, rotate, token, now)]).docs;
            && m in d.trust && d.trust[m] == PeerRecord(m, m.name, m.identity, BLANK, Active, now, now, false)
            && m in d.stats && d.stats[m] == if m in Run(steps).docs.stats then Run(steps).docs.stats[m] else Stats(m,
                0)
  {
    var all := steps + [Invite(m, rotate, token, now)];
    assert all[..|steps|] == steps;
  }

  /** A rotation hands out the only good token, forgets the node, asks for a reset, and keeps trust and statistics. */
  lemma RotationStartsOver(steps: seq<Step>, m: MachineId, token: Name, now: int, previous: Name)
    requires AllSensible(steps + [Invite(m, true, token, now)]) && m in Run(steps).docs.trust
    requires InviteAnswer(Run(steps).docs, m, true, token).None? && m in Run(steps).newest
    requires Run(steps).newest[m] == previous
    ensures var d, e := Run(steps).docs, Run(steps + [Invite(m, true, token, now)]).docs;
            && Resolve(e, previous).None? && e.stats == d.stats
            && m in e.trust && e.trust[m].node == BLANK && e.trust[m].resetPending
            && e.trust[m].trust == d.trust[m].trust && e.trust[m].createdAt == d.trust[m].createdAt
  {
    var all := steps + [Invite(m, true, token, now)];
    assert all[..|steps|] == steps;
    PrefixIsSensible(all, |steps|);
    RunIsOk(steps);
    assert Paired(Run(steps).docs, m);
    RotationRevokes(Run(steps).docs, m, token, now, previous);
  }

  lemma RotationRevokes(d: Documents, m: MachineId, token: Name, now: int, previous: Name)
    requires InviteAnswer(d, m, true, token).None? && m in d.enrollments && d.enrollments[m].token == previous
    requires previous in d.credentials && WellFormedToken(previous)
    ensures previous !in InviteDocs(d, m, true, token, now).credentials
  {
  }

  /** A block records when, and nothing else; an unblock also asks for a reset. */
  lemma BlockingRecords(steps: seq<Step>, m: MachineId, now: int)
    requires AllSensible(steps) && m in Run(steps).docs.trust
    ensures var d, e := Run(steps).docs, Run(steps + [Block(m, now)]).docs;
            && m in e.trust && e.trust[m].trust == Blocked && e.trust[m].trustChangedAt == now
            && e.trust[m].resetPending == d.trust[m].resetPending && e.trust[m].node == d.trust[m].node
            && e.stats == d.stats && e.credentials == d.credentials
    ensures var d, e := Run(steps).docs, Run(steps + [Unblock(m, now)]).docs;
            && m in e.trust && e.trust[m].trust == Active && e.trust[m].trustChangedAt == now
            && e.trust[m].resetPending && e.trust[m].node == d.trust[m].node
            && e.stats == d.stats && e.credentials == d.credentials
  {
    RunIsOk(steps);
    assert (steps + [Block(m, now)])[..|steps|] == steps && (steps + [Unblock(m, now)])[..|steps|] == steps;
  }

  /** The machine a text stands for is the one of that ID, or else one of that name. */
  lemma DenotedIsNamed(steps: seq<Step>, asId: Option<MachineId>, name: Name, m: MachineId)
    requires AllSensible(steps) && Denotes(Run(steps).docs, asId, name, m)
    ensures m in Run(steps).docs.trust
    ensures if asId.Some? && asId.value in Run(steps).docs.trust then m == asId.value else m.name == name
  {
    RunIsOk(steps);
  }

  /** A text stands for no peer if and only if it is blank, or neither the ID nor the name of one. */
  lemma NothingIsDenotedIff(steps: seq<Step>, asId: Option<MachineId>, name: Name)
    requires AllSensible(steps)
    ensures var d := Run(steps).docs;
            && (PeerError(d, asId, name) == Some(InvalidName) <==> name == BLANK)
            && (PeerError(d, asId, name) == Some(PeerNotFound) <==>
                  && name != BLANK && (asId.Some? ==> asId.value !in d.trust)
                  && forall k | k in d.trust :: k.name != name)
            && (PeerError(d, asId, name).Some? ==> PeerError(d, asId, name).value in {InvalidName, PeerNotFound})
  {
    RunIsOk(steps);
  }

  // ----- Who is refused -----

  /** Nobody holds the token. */
  predicate IsNew(w: World, token: Name) {
    forall k | k in w.newest :: w.newest[k] != token
  }

  /**
   Enrolling reports the first thing against it: no viewer, a malformed name, or one answer for the rest,
   among them a token somebody holds and a machine that is a peer.
   */
  lemma EnrollmentIsAnswered(steps: seq<Step>, viewer: Name, displayName: Name, name: Name, nameOk: bool,
      configured: bool,
      drawn: Option<Name>, now: int)
    requires AllSensible(steps)
    ensures var r := EnrollAnswer(Run(steps).docs, EnrollmentBinding(viewer, displayName, name, now), nameOk,
        configured, drawn);
            && (r == Failure(Unauthorized) <==> IsBlank(viewer))
            && (r == Failure(InvalidName) <==> !IsBlank(viewer) && !nameOk)
            && (r.Success? <==>
                  && !IsBlank(viewer) && nameOk && configured && drawn.Some? && !IsBlank(name) && now != 0
                  && IsNew(Run(steps), drawn.value) && MachineId(viewer, name) !in Run(steps).docs.trust)
            && (r.Success? ==> r.value == drawn.value)
            && (r.Failure? ==> r.error in {Unauthorized, InvalidName, Unavailable})
  {
    RunIsOk(steps);
    if drawn.Some? { TokenIsNewIff(Run(steps), drawn.value); }
  }

  /** An invitation succeeds if and only if the token is new and the machine is new, or a peer to be rotated. */
  lemma InvitationIsAnswered(steps: seq<Step>, m: MachineId, rotate: bool, token: Name)
    requires AllSensible(steps)
    ensures var r, w := InviteAnswer(Run(steps).docs, m, rotate, token), Run(steps);
            && (r.None? <==> IsNew(w, token) && (m in w.newest ==> rotate && m in w.docs.trust))
            && (r == Some(AlreadyPeer) <==> m in w.docs.trust && !rotate)
            && (r == Some(HeldByMachine) <==> m in w.newest && m !in w.docs.trust)
            && (r.Some? ==> r.value in {AlreadyPeer, HeldByMachine, Unavailable})
  {
    RunIsOk(steps);
    TokenIsNewIff(Run(steps), token);
  }

  /** What may not be a peer's name. */
  predicate IsBadName(name: Name, nameOk: bool) {
    name == BLANK || !nameOk || SameFold(name, Name("connect"))
  }

  /** The whole of an invitation reports the first thing against it, and else hands out the token it drew. */
  lemma InvitationReports(steps: seq<Step>, m: MachineId, nameOk: bool, rotate: bool, settings: Settings,
      drawn: Option<Name>)
    requires AllSensible(steps)
    ensures var r, w := InviteReply(Run(steps).docs, m, nameOk, rotate, settings, drawn), Run(steps);
            var off := settings.memory || !settings.configured;
            && (r == Failure(InvalidName) <==> IsBadName(m.name, nameOk) || (!off && SameFold(m.name, settings.hub)))
            && (!IsBadName(m.name, nameOk) && off ==> r == Failure(Unavailable))
            && (!IsBadName(m.name, nameOk) && !off && !SameFold(m.name, settings.hub) ==>
                  && (r == Failure(AlreadyPeer) <==> m in w.docs.trust && !rotate)
                  && (r == Failure(HeldByMachine) <==> drawn.Some? && m in w.newest && m !in w.docs.trust)
                  && (r.Success? <==> drawn.Some? && IsNew(w, drawn.value) && (m in w.newest ==> rotate && m in w.docs.trust)))
            && (r.Success? ==> r.value == drawn.value)
            && (r.Failure? ==> r.error in {InvalidName, Unavailable, AlreadyPeer, HeldByMachine})
  {
    RunIsOk(steps);
    if drawn.Some? { InvitationIsAnswered(steps, m, rotate, drawn.value); }
  }

  /** On any documents, a peer record that is not sound stops an invitation before a token is drawn. */
  lemma UnsoundPeerIsReported(d: Documents, m: MachineId, rotate: bool, settings: Settings, drawn: Option<Name>)
    requires m.name != BLANK && !SameFold(m.name, Name("connect")) && !SameFold(m.name, settings.hub)
    requires settings.configured && !settings.memory && m in d.trust
    ensures InviteReply(d, m, true, rotate, settings, drawn) == Failure(InvalidPeer) <==>
              d.trust[m].name == BLANK || d.trust[m].identity == BLANK || d.trust[m].createdAt == 0
  {
  }

  predicate IsSound(p: PeerRecord) {
    p.name != Name("") && p.identity != Name("") && p.createdAt != 0
  }

  /** On any documents, a lookup by ID stops at that record if it is not sound, and one by name at any that is not. */
  lemma UnsoundPeersStopLookups(d: Documents, asId: Option<MachineId>, name: Name)
    requires name != BLANK
    ensures PeerError(d, asId, name) == Some(InvalidPeer) <==>
              if asId.Some? && asId.value in d.trust then !IsSound(d.trust[asId.value])
              else exists k :: k in d.trust && !IsSound(d.trust[k])
  {
    assert forall k | k in d.trust :: IsSound(d.trust[k]) <==> d.trust[k].Valid();
  }

  /** A record is replaced exactly by a sound one of the same machine, and only where there is one. */
  lemma UpdateIsAnswered(d: Documents, m: MachineId, next: PeerRecord)
    ensures UpdateAnswer(d, m, next) == Some(PeerNotFound) <==> m !in d.trust
    ensures UpdateAnswer(d, m, next).None? <==> m in d.trust && IsSound(next) && next.machine == m
    ensures UpdateDocs(d, m, next) == if UpdateAnswer(d, m, next).None? then d.(trust := d.trust[m := next]) else d
  {
  }

  /** A rotation is made exactly for a named machine with its time, under a new token, and never for a peer's. */
  lemma RotationIsAnswered(steps: seq<Step>, b: Binding, token: Name)
    requires AllSensible(steps)
    ensures var r, w := RotateAnswer(Run(steps).docs, b, token), Run(steps);
            var named := !IsBlank(b.name) && !IsBlank(b.identity) && b.issuedAt != 0;
            && (r == Failure(Unavailable) <==> !named)
            && (r == Failure(WouldShadowPeer) <==> named && MachineId(b.identity, b.name) in w.docs.trust)
            && (r.Success? <==> named && MachineId(b.identity, b.name) !in w.docs.trust && IsNew(w, token))
            && (r.Success? ==> r.value == b.(machine := MachineId(b.identity, b.name)))
  {
    RunIsOk(steps);
    TokenIsNewIff(Run(steps), token);
  }

  // ----- Resolving on any documents -----

  /** A token that may be presented: one to 1024 characters, none of them white space of a line. */
  predicate IsPresentable(token: Name) {
    token.text != "" && |token.text| <= 1024
    && forall i | 0 <= i < |token.text| ::
         token.text[i] != ' ' && token.text[i] != '\t' && token.text[i] != '\r' && token.text[i] != '\n'
  }

  /**
   Whatever is stored: a token resolves exactly to its credential, if that is complete and of a known scope,
   and its machine is a peer that is sound and not blocked by the second read, or no peer and not meant to be.
   */
  lemma ResolvesExactly(d: Documents, later: Documents, token: Name)
    ensures var r := ResolveAcross(d, later, token);
            && (r.Some? ==> token in d.credentials && r.value == d.credentials[token])
            && (r.Some? <==>
                  && IsPresentable(token) && token in d.credentials
                  && var b := d.credentials[token];
                     && !IsBlank(b.name) && !IsBlank(b.identity) && b.issuedAt != 0 && b.scopes != Other
                     && if b.machine in later.trust then
                          var p := later.trust[b.machine];
                          p.name != BLANK && p.identity != BLANK && p.createdAt != 0 && p.trust == Active
                        else b.scopes == Enrollment)
  {
    assert WellFormedToken(token) <==> IsPresentable(token) by {
      assert forall i | 0 <= i < |token.text| :: token.text[i] in token.text;
    }
  }

  lemma TokenIsNewIff(w: World, token: Name)
    requires Ok(w)
    ensures token !in w.docs.credentials <==> IsNew(w, token)
  {
    forall k | k in w.newest && w.newest[k] == token
      ensures token in w.docs.credentials
    {
      assert Paired(w.docs, k);
    }
  }
}
