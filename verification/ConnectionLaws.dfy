/**
 What it takes for each callback of a connection to go through, and what it leaves, told by the fields of
 the state it reads; and who may begin.
 */
module ConnectionLaws {
  import opened Wrappers
  import opened Text
  import opened ConnectionState
  import opened ConnectionFlow
  import opened ConnectionRuns
  import Installations
  import InstallationRuns

  // ----- Reading a state -----

  /** A signed state is read exactly when it is stored, somebody's, issued by now and not over yet. */
  lemma StateIsReadIff(states: map<Name, State>, digest: Name, signed: bool, now: int)
    ensures var r := ReadStored(states, digest, signed, now);
            && (r.Success? <==>
                  && signed && now != 0 && digest in states
                  && states[digest].identity != BLANK && states[digest].issuedAt <= now < states[digest].expiresAt)
            && (r.Success? ==> r.value == states[digest])
            && (r == Failure(Unavailable) <==> signed && now == 0)
            && (r.Failure? ==> r.error in {Unavailable, InvalidState})
  {
  }

  /** A callback takes a state that is read only at its own stage, and past the first only with the continuation. */
  lemma StateFitsIff(states: map<Name, State>, configured: bool, digest: Name, signed: bool, now: int, kind: Kind,
      continuation: Name)
    ensures var r, read := Readable(states, configured, digest, signed, now, kind, continuation),
                ReadStored(states, digest, signed, now);
            && (r.Success? <==>
                  && configured && read.Success? && read.value.kind == kind
                  && (kind == OAuth ==> read.value.installation >= 1)
                  && if kind == Bootstrap then read.value.continuation == BLANK
                     else read.value.continuation == continuation != BLANK)
            && (r.Success? ==> r == read)
            && (!configured ==> r == Failure(Unavailable)) && (configured && read.Failure? ==> r == read)
            && (configured && read.Success? && r.Failure? ==> r.error == InvalidState)
  {
  }

  /** The OAuth callback takes a state before the exchange with nothing sealed, or after it with what was. */
  lemma OAuthStateFitsIff(states: map<Name, State>, configured: bool, digest: Name, signed: bool, now: int,
      continuation: Name)
    ensures var r, read := ReadableOAuth(states, configured, digest, signed, now, continuation),
                ReadStored(states, digest, signed, now);
            && (r.Success? <==>
                  && configured && read.Success? && read.value.installation > 0
                  && (read.value.kind == OAuth || read.value.kind == OAuthExchanged)
                  && (read.value.kind == OAuth <==> read.value.ciphertext == BLANK)
                  && read.value.continuation == continuation != BLANK)
            && (r.Success? ==> r == read)
            && (!configured ==> r == Failure(Unavailable)) && (configured && read.Failure? ==> r == read)
            && (configured && read.Success? && r.Failure? ==> r.error == InvalidState)
  {
  }

  // ----- Beginning -----

  /** How long a state lives. */
  function Lifetime(configured: int): int { if configured > 0 then configured else 600_000_000_000 }

  /** In every run a connection begins exactly for a viewer who asks for no installation, or for one bound to them. */
  lemma BeginsIff(steps: seq<Step>, lifetime: int, viewer: Name, installation: int, drawn: Option<Fresh>, now: int)
    ensures var d := Run(steps, lifetime).docs;
            var r := BeginPlan(d, viewer, installation, drawn, now, lifetime);
            && (r.Success? <==>
                  && !IsBlank(viewer) && installation >= 0 && drawn.Some?
                  && (installation > 0 ==> Installations.Key(viewer, installation) in d.installations))
            && (r.Success? ==>
                  r.value == State(Bootstrap, viewer, installation, BLANK, BLANK, 0, 0, BLANK, now,
                      now + Lifetime(lifetime)))
            && (r == Failure(Unauthorized) <==>
                  IsBlank(viewer) || (installation > 0 && Installations.Key(viewer, installation) !in d.installations))
  {
    ConnectionsRefineTheStore(steps, lifetime);
    var s := Projected(steps, lifetime);
    InstallationRuns.RunIsOk(s);
    BoundIsPresented(InstallationRuns.Run(s), viewer, installation);
  }

  lemma BoundIsPresented(w: InstallationRuns.World, viewer: Name, installation: int)
    requires InstallationRuns.Ok(w)
    ensures HasInstallation(w.docs, viewer, installation)
        == Success(Installations.Key(viewer, installation) in w.docs.installations)
  {
  }

  /** A state is issued exactly under a digest that is free, for somebody, with its times set. */
  lemma IssuedIff(w: World, digest: Name, s: State)
    ensures var v := Begun(w, digest, s);
            if digest !in w.docs.states && s.identity != BLANK && s.issuedAt != 0 && s.expiresAt != 0 then
              && IssueAnswer(w.docs.states, digest, s).None? && v.docs == w.docs.(states := w.docs.states[digest := s])
              && |v.begins| == |w.begins| + 1
            else
              && IssueAnswer(w.docs.states, digest, s) == Some(Unavailable) && v == w
              && IssueStates(w.docs.states, digest, s) == w.docs.states
  {
  }

  /** Every live state, at whatever stage, lives as long as it was given, counted from when it was issued. */
  lemma {:induction false} StatesLiveAsLong(steps: seq<Step>, lifetime: int, digest: Name)
    requires digest in Run(steps, lifetime).docs.states
    ensures var s := Run(steps, lifetime).docs.states[digest]; s.expiresAt == s.issuedAt + Lifetime(lifetime)
  {
    AllLive(steps, lifetime);
  }

  predicate Live(w: World, lifetime: int) {
    forall d | d in w.docs.states :: w.docs.states[d].expiresAt == w.docs.states[d].issuedAt + Lifetime(lifetime)
  }

  lemma SwapKeepsLive<R>(w: World, step: Step, digest: Name, seen: State, plan: Plan<R>, now: int, lifetime: int)
    requires Live(w, lifetime)
    requires seen.expiresAt == seen.issuedAt + Lifetime(lifetime) && (plan.Replace? || plan.Transition?) ==>
        plan.next.expiresAt == plan.next.issuedAt + Lifetime(lifetime)
    ensures Live(Swapped(w, step, digest, seen, plan, now), lifetime)
  {
    SwapIsCarried(w, step, digest, seen, plan, now);
  }

  lemma StepKeepsLive(w: World, step: Step, lifetime: int)
    requires Live(w, lifetime)
    ensures Live(Apply(w, step, lifetime), lifetime)
  {
    match step
    case Begin(_, _, _, _) =>
    case Continue(digest, seen, challenge, drawn, t) =>
      SwapKeepsLive(w, step, digest, seen, ContinuePlan(seen, challenge, drawn, t, lifetime), SwapTime(seen, t),
          lifetime);
    case Authorize(digest, seen, viewer, challenge, t) =>
      SwapKeepsLive(w, step, digest, seen, AuthorizePlan(seen, viewer, challenge, t), t.decide, lifetime);
    case ChooseInstallation(digest, seen, _, installation, check, drawn, t) =>
      SwapKeepsLive(w, step, digest, seen, SetupPlan(seen, installation, check, drawn, t, lifetime), t.swap, lifetime);
    case Keep(digest, seen, _, c, codeOk, exchange, sealed, t) =>
      SwapKeepsLive(w, step, digest, seen, OAuthPlan(seen, c, codeOk, exchange, sealed), t.decide, lifetime);
    case Complete(_, _, _, _, _) => CompleteKeepsLive(w, step, lifetime);
    case Lifecycle(event) => LifecycleLeavesStates(w.docs, event);
  }

  lemma CompleteKeepsLive(w: World, step: Step, lifetime: int)
    requires Live(w, lifetime) && step.Complete?
    ensures Live(Apply(w, step, lifetime), lifetime)
  {
    var b := BindingOf(step.seen, step.answered, step.t.issue);
    if b.Success? && Installations.BindAnswer(w.docs, step.digest, step.seen, step.t.swap, b.value).None? {
      BindConsumes(w.docs, step.digest, step.seen, step.t.swap, b.value);
    }
  }

  lemma {:induction false} AllLive(steps: seq<Step>, lifetime: int)
    ensures Live(Run(steps, lifetime), lifetime)
  {
    if steps != [] {
      AllLive(steps[..|steps| - 1], lifetime);
      StepKeepsLive(Run(steps[..|steps| - 1], lifetime), steps[|steps| - 1], lifetime);
    }
  }

  /**
   On any documents, an installation is known to be a viewer's exactly when both say so, and an unsound
   identity is an error.
   */
  lemma InstallationIsKnownIff(d: Installations.Documents, viewer: Name, installation: int)
    ensures var r, k := HasInstallation(d, viewer, installation), Installations.Key(viewer, installation);
            && (r.Failure? <==>
                  && viewer in d.identities
                  && var i := d.identities[viewer];
                     i.id != viewer || i.user <= 0 || i.login == BLANK || i.verifiedAt == 0)
            && (r.Success? ==>
                  (r.value <==> viewer in d.identities && k in d.installations && d.installations[k].id == installation))
  {
  }

  // ----- What each callback decides -----

  /**
   The challenge is authorized by whoever began, once, before it is over; anybody else is told so, and
   nothing else is.
   */
  lemma AuthorizationIsAnswered(s: State, viewer: Name, challenge: Name, t: Times)
    ensures AuthorizePlan(s, viewer, challenge, t)
        == if viewer != s.identity then Refuse(Unauthorized)
           else if s.challenge == challenge && challenge != BLANK && t.decide < s.challengeExpiresAt && s.authorizedAt == 0
           then Replace(s.(authorizedAt := t.decide), true)
           else Refuse(InvalidState)
  {
  }

  /** The challenge that came back is good for moving on: not over, and authorized by now. */
  predicate IsGood(s: State, now: int) {
    && now < s.challengeExpiresAt <= s.expiresAt
    && (s.authorizedAt != 0 ==> s.authorizedAt <= now && s.authorizedAt <= s.challengeExpiresAt)
  }

  /**
   A state without a challenge is given one; with one, any other challenge is told nothing, and the right
   one waits or moves on.
   */
  lemma ContinuationIsAnswered(s: State, challenge: Name, drawn: Option<Fresh>, t: Times, lifetime: int)
    ensures var plan := ContinuePlan(s, challenge, drawn, t, lifetime);
            if s.challenge == BLANK then plan == Refuse(Unavailable) || (plan.Replace? && drawn.Some?)
            else if challenge != s.challenge then plan == Answer(Inert)
            else if !IsGood(s, t.decide) then plan == Refuse(InvalidState)
            else if s.authorizedAt == 0 then plan == Answer(Waiting)
            else if drawn.None? then plan == Refuse(Unavailable)
            else plan.Transition? && plan.reply == Advanced(if s.installation > 0 then OAuth else Setup)
  {
  }

  /** After the exchange the callback goes on with what the state holds; before it, with what it then keeps. */
  lemma ExchangedStateIsHeld(s: State, c: Credential, codeOk: bool, exchange: Check, sealed: bool)
    ensures var plan := OAuthPlan(s, c, codeOk, exchange, sealed);
            && (s.kind != OAuth ==> plan == Answer(Exchanged) && Exchanging(s, c) == s)
            && (s.kind == OAuth ==> plan != Answer(Exchanged))
            && (plan.Replace? ==> plan.next == Exchanging(s, c) && plan.next.kind == OAuthExchanged
                                  && plan.next.ciphertext == c.text && c.matches && c.opens)
  {
  }

  /** A refused binding is reported as a state that is over, as somebody else's, or as nothing in particular. */
  lemma RefusalIsReported(e: Installations.Error)
    ensures BindError(e) == InvalidState <==> e == Installations.InvalidState
    ensures BindError(e) == Unauthorized <==> e == Installations.Unauthorized
    ensures BindError(e) in {InvalidState, Unauthorized, Unavailable}
  {
  }

  /**
   A decision is carried out exactly on the record it was made on, while that is not over, and to a digest
   that is free; otherwise nothing changes, and the caller is told.
   */
  lemma SwapIsAnswered<R>(states: map<Name, State>, digest: Name, seen: State, plan: Plan<R>, now: int)
    requires plan.Replace? || plan.Transition?
    ensures var r := Carry(states, digest, seen, plan, now);
            var current := digest in states && states[digest] == seen && now < seen.expiresAt;
            var isFree := plan.Transition? ==> plan.digest !in states;
            && (r == Failure(Unavailable) <==> now == 0)
            && (r == Failure(InvalidState) <==> now != 0 && !(current && isFree))
            && (r == Success(plan.reply) <==> now != 0 && current && isFree)
            && (r.Failure? ==> CarryStates(states, digest, seen, plan, now) == states)
  {
  }

  /** A decision not to swap changes nothing. */
  lemma NoSwapChangesNothing<R>(states: map<Name, State>, digest: Name, seen: State, plan: Plan<R>, now: int)
    requires plan.Refuse? || plan.Answer?
    ensures CarryStates(states, digest, seen, plan, now) == states
    ensures Carry(states, digest, seen, plan, now) == if plan.Refuse? then Failure(plan.error) else Success(plan.reply)
  {
  }

  // ----- Callbacks that go through -----

  /** The record a callback read is still there, and not over yet. */
  predicate IsCurrent(w: World, digest: Name, seen: State, now: int) {
    digest in w.docs.states && w.docs.states[digest] == seen && now != 0 && now < seen.expiresAt
  }

  /** The record under a digest is changed in place. */
  predicate Replaces(w: World, v: World, digest: Name, next: State) {
    v.docs == w.docs.(states := w.docs.states[digest := next]) && v.lineage == w.lineage
  }

  /** The record is consumed and another issued. */
  predicate MovesOn(w: World, v: World, digest: Name, nextDigest: Name, next: State) {
    v.docs == w.docs.(states := (w.docs.states - {digest})[nextDigest := next])
  }

  lemma SwapGoesThrough<R>(w: World, step: Step, digest: Name, seen: State, plan: Plan<R>, now: int)
    requires Ok(w) && IsCurrent(w, digest, seen, now)
    ensures plan.Replace? ==> Replaces(w, Swapped(w, step, digest, seen, plan, now), digest, plan.next)
    ensures plan.Transition? && plan.digest !in w.docs.states ==>
              MovesOn(w, Swapped(w, step, digest, seen, plan, now), digest, plan.digest, plan.next)
  {
    SeenDescends(w, digest);
  }

  /** The first callback offers the challenge it drew, for two minutes or until the state is over. */
  lemma OfferGoesThrough(w: World, digest: Name, seen: State, challenge: Name, drawn: Fresh, t: Times, lifetime: int)
    requires Ok(w) && IsCurrent(w, digest, seen, t.decide)
    requires seen.kind == Bootstrap && seen.continuation == BLANK && seen.challenge == BLANK
    ensures var until := t.decide + 120_000_000_000;
            Replaces(w, Apply(w, Continue(digest, seen, challenge, Some(drawn), t), lifetime), digest,
                seen.(challenge := drawn.challenge,
                      challengeExpiresAt := if until < seen.expiresAt then until else seen.expiresAt))
  {
    SwapGoesThrough(w, Continue(digest, seen, challenge, Some(drawn), t), digest, seen,
                    ContinuePlan(seen, challenge, Some(drawn), t, lifetime), t.decide);
  }

  /** Whoever began authorizes the challenge offered, once and before it is over. */
  lemma AuthorizationGoesThrough(w: World, digest: Name, seen: State, t: Times, lifetime: int)
    requires Ok(w) && IsCurrent(w, digest, seen, t.decide) && !IsBlank(seen.identity)
    requires seen.kind == Bootstrap && seen.continuation == BLANK && 1 <= |seen.challenge.text| <= 256
    requires seen.authorizedAt == 0 && t.decide < seen.challengeExpiresAt
    ensures Replaces(w, Apply(w, Authorize(digest, seen, seen.identity, seen.challenge, t), lifetime), digest,
                seen.(authorizedAt := t.decide))
  {
    SwapGoesThrough(w, Authorize(digest, seen, seen.identity, seen.challenge, t), digest, seen,
                    AuthorizePlan(seen, seen.identity, seen.challenge, t), t.decide);
  }

  /** The opener comes back with the challenge and moves on: to the installation asked for, or to choosing one. */
  lemma AdvanceGoesThrough(w: World, digest: Name, seen: State, drawn: Fresh, t: Times, lifetime: int)
    requires Ok(w) && IsCurrent(w, digest, seen, t.swap) && drawn.state !in w.docs.states
    requires seen.kind == Bootstrap && seen.continuation == BLANK && seen.challenge != BLANK
    requires seen.authorizedAt != 0 && seen.authorizedAt <= t.decide < seen.challengeExpiresAt <= seen.expiresAt
    ensures MovesOn(w, Apply(w, Continue(digest, seen, seen.challenge, Some(drawn), t), lifetime), digest, drawn.state,
                State(if seen.installation > 0 then OAuth else Setup, seen.identity, seen.installation,
                    drawn.continuation,
                      BLANK, 0, 0, BLANK, t.issue, t.issue + Lifetime(lifetime)))
  {
    SwapGoesThrough(w, Continue(digest, seen, seen.challenge, Some(drawn), t), digest, seen,
                    ContinuePlan(seen, seen.challenge, Some(drawn), t, lifetime), t.swap);
  }

  /** An installation GitHub verified is taken, and the continuation stays. */
  lemma ChoiceGoesThrough(w: World, digest: Name, seen: State, installation: int, drawn: Fresh, t: Times, lifetime: int)
    requires Ok(w) && IsCurrent(w, digest, seen, t.swap) && drawn.state !in w.docs.states
    requires seen.kind == Setup && seen.continuation != BLANK && installation > 0
    ensures MovesOn(w, Apply(w, ChooseInstallation(digest, seen, seen.continuation, installation, Verified,
        Some(drawn), t),
                             lifetime), digest, drawn.state,
                State(OAuth, seen.identity, installation, seen.continuation, BLANK, 0, 0, BLANK, t.issue,
                      t.issue + Lifetime(lifetime)))
  {
    SwapGoesThrough(w, ChooseInstallation(digest, seen, seen.continuation, installation, Verified, Some(drawn), t),
        digest,
                    seen, SetupPlan(seen, installation, Verified, Some(drawn), t, lifetime), t.swap);
  }

  /** A credential sealed for this state is kept in it. */
  lemma KeepingGoesThrough(w: World, digest: Name, seen: State, text: Name, codeOk: bool, exchange: Check, sealed: bool,
      t: Times, lifetime: int)
    requires Ok(w) && IsCurrent(w, digest, seen, t.decide) && seen.kind == OAuth && seen.ciphertext == BLANK
    requires seen.installation > 0 && seen.continuation != BLANK && text != BLANK
    ensures Replaces(w, Apply(w, Keep(digest, seen, seen.continuation, Credential(text, true, true), codeOk, exchange,
        sealed, t),
                              lifetime), digest, seen.(kind := OAuthExchanged, ciphertext := text))
  {
    SwapGoesThrough(w, Keep(digest, seen, seen.continuation, Credential(text, true, true), codeOk, exchange, sealed, t),
                    digest, seen, OAuthPlan(seen, Credential(text, true, true), codeOk, exchange, sealed), t.decide);
  }

  /** Without a credential of its own the callback trades the code for one, and leaves the state as it was. */
  lemma ExchangeAnswers(s: State, c: Credential, codeOk: bool, exchange: Check, sealed: bool)
    requires s.kind == OAuth && (c.text == BLANK || !c.matches)
    ensures OAuthPlan(s, c, codeOk, exchange, sealed)
        == if !codeOk || (exchange == Rejected) then Refuse(InvalidRequest)
           else if exchange == Unreachable || !sealed then Refuse(Unavailable)
           else Answer(Sealed)
  {
  }
}
