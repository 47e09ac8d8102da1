/**
 Any number of connections under way at once. A callback that read a record and decided may swap at any
 later time, or never, with anything in between: a step names the record its callback read, and the
 store compares it with what it holds.
 */
module ConnectionRuns {
  import opened Wrappers
  import opened Text
  import opened ConnectionState
  import opened ConnectionFlow
  import Installations
  import InstallationRuns
  import Lineage

  /** The opener challenge a callback drew and offered, and when. */
  datatype Offer = Offer(challenge: Name, at: int)
  /** Who presented which challenge to authorize it, and when. */
  datatype Authorization = Authorization(viewer: Name, challenge: Name, at: int)
  /** The challenge the opener came back with, when, and the continuation drawn for the callbacks after. */
  datatype Advance = Advance(challenge: Name, at: int, continuation: Name)
  /** The installation a setup callback named, what GitHub said of it, and the continuation it showed. */
  datatype Choice = Choice(installation: int, check: Check, continuation: Name)
  /** The sealed credential an OAuth callback brought back, and the continuation it showed. */
  datatype Kept = Kept(credential: Credential, continuation: Name)

  /** One Begin: who began, the installation asked for, and what the callbacks that went through carried since. */
  datatype Origin = Origin(identity: Name, installation: int, offer: Option<Offer>,
      authorization: Option<Authorization>,
      advance: Option<Advance>, choice: Option<Choice>, kept: Option<Kept>)

  /** A binding made, what its callback showed and was told, when, and the end of the state it consumed. */
  datatype Completed = Completed(begin: nat, binding: Installations.Binding, continuation: Name, answered: Answered,
      at: int, until: int)

  /** lineage tells which Begin each live state goes back to. */
  datatype World = World(docs: Installations.Documents, begins: seq<Origin>, lineage: map<Name, nat>,
      completed: seq<Completed>)

  const START := World(Installations.EMPTY, [], map[], [])

  datatype Step =
    | Begin(viewer: Name, installation: int, drawn: Option<Fresh>, now: int)
    | Continue(digest: Name, seen: State, challenge: Name, drawn: Option<Fresh>, t: Times)
    | Authorize(digest: Name, seen: State, viewer: Name, challenge: Name, t: Times)
    | ChooseInstallation(digest: Name, seen: State, continuation: Name, installation: int, check: Check,
        drawn: Option<Fresh>, t: Times)
    | Keep(digest: Name, seen: State, continuation: Name, credential: Credential, codeOk: bool, exchange: Check,
        sealed: bool, t: Times)
    | Complete(digest: Name, seen: State, continuation: Name, answered: Answered, t: Times)
    | Lifecycle(event: Installations.Event)

  /** What a callback that goes through adds to what is known of its Begin: what it carried, whatever it decided. */
  function Noted(o: Origin, step: Step, moved: bool): Origin {
    match step
    case Continue(_, _, challenge, drawn, t) =>
      if drawn.None? then o
      else if moved then o.(advance := Some(Advance(challenge, t.decide, drawn.value.continuation)))
      else o.(offer := Some(Offer(drawn.value.challenge, t.decide)))
    case Authorize(_, _, viewer, challenge, t) => o.(authorization := Some(Authorization(viewer, challenge, t.decide)))
    case ChooseInstallation(_, _, continuation, installation, check, _, _) =>
      o.(choice := Some(Choice(installation, check, continuation)))
    case Keep(_, _, continuation, credential, _, _, _, _) => o.(kept := Some(Kept(credential, continuation)))
    case _ => o
  }

  /** The states and the lineage once a decision about a record is carried out. */
  function Swapped<R>(w: World, step: Step, digest: Name, seen: State, plan: Plan<R>, now: int): World {
    if digest !in w.lineage || w.lineage[digest] >= |w.begins| || plan.Refuse? || plan.Answer? then w
    else if Carry(w.docs.states, digest, seen, plan, now).Failure? then w
    else
      var b := w.lineage[digest];
      var docs := w.docs.(states := CarryStates(w.docs.states, digest, seen, plan, now));
      var begins := w.begins[b := Noted(w.begins[b], step, plan.Transition?)];
      if plan.Transition? then
        w.(docs := docs, begins := begins, lineage := (w.lineage - {digest})[plan.digest := b])
      else w.(docs := docs, begins := begins)
  }

  function Begun(w: World, digest: Name, s: State): World {
    if IssueAnswer(w.docs.states, digest, s).Some? then w
    else
      w.(docs := w.docs.(states := IssueStates(w.docs.states, digest, s)),
         begins := w.begins + [Origin(s.identity, s.installation, None, None, None, None,
             None)], lineage := w.lineage[digest := |w.begins|])
  }

  function Bound(w: World, digest: Name, seen: State, now: int, b: Installations.Binding, continuation: Name,
      answered: Answered): World {
    if digest !in w.lineage || Installations.BindAnswer(w.docs, digest, seen, now, b).Some? then w
    else
      w.(docs := Installations.BindDocs(w.docs, digest, seen, now, b), lineage := w.lineage - {digest},
         completed := w.completed
           + [Completed(w.lineage[digest], b, continuation, answered, now, seen.expiresAt)])
  }

  function Apply(w: World, step: Step, lifetime: int): World {
    match step
    case Begin(viewer, installation, drawn, now) =>
      var plan := BeginPlan(w.docs, viewer, installation, drawn, now, lifetime);
      if plan.Failure? then w else Begun(w, drawn.value.state, plan.value)
    case Continue(digest, seen, challenge, drawn, t) =>
      if !Fits(seen, Bootstrap, BLANK) then w
      else Swapped(w, step, digest, seen, ContinuePlan(seen, challenge, drawn, t, lifetime), SwapTime(seen, t))
    case Authorize(digest, seen, viewer, challenge, t) =>
      if !Fits(seen, Bootstrap, BLANK) || IsBlank(viewer) || !IsPresentable(challenge) then w
      else Swapped(w, step, digest, seen, AuthorizePlan(seen, viewer, challenge, t), t.decide)
    case ChooseInstallation(digest, seen, continuation, installation, check, drawn, t) =>
      if !Fits(seen, Setup, continuation) || installation <= 0 then w
      else Swapped(w, step, digest, seen, SetupPlan(seen, installation, check, drawn, t, lifetime), t.swap)
    case Keep(digest, seen, continuation, c, codeOk, exchange, sealed, t) =>
      if !FitsOAuth(seen, continuation) then w
          else Swapped(w, step, digest, seen, OAuthPlan(seen, c, codeOk, exchange, sealed), t.decide)
    case Complete(digest, seen, continuation, answered, t) =>
      if !FitsOAuth(seen, continuation) || seen.kind != OAuthExchanged || BindingOf(seen, answered,
          t.issue).Failure? then w
      else Bound(w, digest, seen, t.swap, BindingOf(seen, answered, t.issue).value, continuation, answered)
    case Lifecycle(event) => w.(docs := Installations.LifecycleDocs(w.docs, event))
  }

  function Run(steps: seq<Step>, lifetime: int): World {
    if steps == [] then START else Apply(Run(steps[..|steps| - 1], lifetime), steps[|steps| - 1], lifetime)
  }

  // ----- What holds in every reachable state -----

  /**
   The opener's part is over: the challenge offered was authorized by whoever began, and came back, both
   before it ran out.
   */
  predicate Opened(o: Origin) {
    && o.offer.Some? && o.authorization.Some? && o.advance.Some?
    && o.authorization.value.viewer == o.identity
    && BLANK != o.offer.value.challenge == o.authorization.value.challenge == o.advance.value.challenge
    && o.authorization.value.at <= o.advance.value.at < o.offer.value.at + CHALLENGE_LIFETIME
  }

  /** A state still waiting for its opener: what it says of the challenge is what was offered and authorized. */
  predicate Waits(s: State, o: Origin) {
    && (s.challenge != BLANK ==>
          && o.offer.Some? && o.offer.value.challenge == s.challenge
          && s.challengeExpiresAt <= o.offer.value.at + CHALLENGE_LIFETIME)
    && (s.authorizedAt != UNSET ==>
          && s.challenge != BLANK
          && o.authorization == Some(Authorization(o.identity, s.challenge, s.authorizedAt)))
  }

  /** The installation is the one asked for at the start, or the one chosen and verified since. */
  predicate ChosenFor(o: Origin, id: int) {
    && id > 0 && o.advance.Some?
    && if o.installation > 0 then id == o.installation
       else o.choice == Some(Choice(id, Verified, o.advance.value.continuation))
  }

  /** The credential was sealed for this state, and the callback that kept it knew the continuation. */
  predicate KeptFor(o: Origin, ciphertext: Name) {
    && o.advance.Some? && o.kept.Some? && o.kept.value.continuation == o.advance.value.continuation
    && o.kept.value.credential == Credential(ciphertext, true, true) && ciphertext != BLANK
  }

  /** A live state is a stage of its Begin: same identity, and all that was needed to get there was carried. */
  predicate Descends(s: State, o: Origin) {
    && s.identity == o.identity
    && (s.kind == Bootstrap ==> Waits(s, o))
    && (s.kind == Bootstrap || s.kind == Setup ==> s.installation == o.installation)
    && (s.kind == Setup ==> s.installation <= 0)
    && (s.kind != Bootstrap ==> Opened(o) && s.continuation == o.advance.value.continuation)
    && (s.kind == OAuth || s.kind == OAuthExchanged ==> ChosenFor(o, s.installation))
    && (s.kind == OAuthExchanged ==> KeptFor(o, s.ciphertext))
  }

  predicate Follows(c: Completed, o: Origin) {
    && c.binding.identity == o.identity && Opened(o) && ChosenFor(o, c.binding.installation.id)
    && o.kept.Some? && KeptFor(o, o.kept.value.credential.text)
    && c.continuation == o.advance.value.continuation && c.at < c.until
    && c.answered.Known? && c.binding.user == c.answered.user && c.binding.login == c.answered.login
    && c.binding.installation in c.answered.installations
  }

  function BeginOf(c: Completed): nat { c.begin }

  ghost predicate LineageOk(w: World) {
    Lineage.IsLineage(w.docs.states, w.lineage, w.begins, w.completed, Descends, BeginOf, Follows)
  }

  ghost predicate Ok(w: World) {
    LineageOk(w) && forall i | 0 <= i < |w.begins| :: w.begins[i].installation >= 0
  }

  lemma BegunIsOk(w: World, digest: Name, s: State)
    requires Ok(w) && s.kind == Bootstrap && s.challenge == BLANK && s.authorizedAt == UNSET && s.installation >= 0
    ensures Ok(Begun(w, digest, s))
  {
    if IssueAnswer(w.docs.states, digest, s).None? {
      var o := Origin(s.identity, s.installation, None, None, None, None, None);
      Lineage.Begin(w.docs.states, w.lineage, w.begins, w.completed, Descends, BeginOf, Follows, digest, s, o);
    }
  }

  lemma ReplacedIsOk(w: World, digest: Name, next: State, o: Origin)
    requires Ok(w) && digest in w.lineage && Descends(next, o) && o.installation >= 0
    ensures Ok(w.(docs := w.docs.(states := w.docs.states[digest := next]), begins := w.begins[w.lineage[digest] := o]))
  {
    Lineage.Replace(w.docs.states, w.lineage, w.begins, w.completed, Descends, BeginOf, Follows, digest, next, o);
  }

  lemma TransitionedIsOk(w: World, digest: Name, nextDigest: Name, next: State, o: Origin)
    requires Ok(w) && digest in w.lineage && nextDigest !in w.docs.states
    requires Descends(next, o) && o.installation >= 0
    ensures Ok(w.(docs := w.docs.(states := (w.docs.states - {digest})[nextDigest := next]),
                  begins := w.begins[w.lineage[digest] := o],
                  lineage := (w.lineage - {digest})[nextDigest := w.lineage[digest]]))
  {
    Lineage.Move(w.docs.states, w.lineage, w.begins, w.completed, Descends, BeginOf, Follows, digest, nextDigest,
        next, o);
  }

  /** The state a decision was made on, and what is known of its Begin. */
  lemma SeenDescends(w: World, digest: Name)
    requires Ok(w) && digest in w.lineage
    ensures digest in w.docs.states && w.lineage[digest] < |w.begins| && w.begins[w.lineage[digest]].installation >= 0
    ensures Descends(w.docs.states[digest], w.begins[w.lineage[digest]])
  {
  }

  lemma NotedKeepsInstallation(o: Origin, step: Step, moved: bool)
    ensures Noted(o, step, moved).installation == o.installation
  {
  }

  /** The world once a decision about a record is carried out, with what is known of its Begin by then. */
  predicate IsCarried<R>(w: World, v: World, digest: Name, plan: Plan<R>, o: Origin) {
    && digest in w.lineage && w.lineage[digest] < |w.begins|
    && ((plan.Replace?
         && v == w.(docs := w.docs.(states := w.docs.states[digest := plan.next]),
             begins := w.begins[w.lineage[digest] := o]))
        || (plan.Transition? && plan.digest !in w.docs.states
            && v == w.(docs := w.docs.(states := (w.docs.states - {digest})[plan.digest := plan.next]),
                       begins := w.begins[w.lineage[digest] := o],
                       lineage := (w.lineage - {digest})[plan.digest := w.lineage[digest]])))
  }

  /** A decision is carried out only on the very record it was made on, before that runs out, or not at all. */
  lemma SwapIsCarried<R>(w: World, step: Step, digest: Name, seen: State, plan: Plan<R>, now: int)
    ensures var v := Swapped(w, step, digest, seen, plan, now);
            v != w ==>
              && digest in w.lineage && w.lineage[digest] < |w.begins|
              && digest in w.docs.states && w.docs.states[digest] == seen && now < seen.expiresAt
              && IsCarried(w, v, digest, plan, Noted(w.begins[w.lineage[digest]], step, plan.Transition?))
  {
  }

  lemma CarriedIsOk<R>(w: World, v: World, digest: Name, plan: Plan<R>, o: Origin)
    requires Ok(w) && IsCarried(w, v, digest, plan, o) && Descends(plan.next, o) && o.installation >= 0
    ensures Ok(v)
  {
    if plan.Replace? {
      ReplacedIsOk(w, digest, plan.next, o);
    } else {
      TransitionedIsOk(w, digest, plan.digest, plan.next, o);
    }
  }

  /** Any decision that keeps to its record's line keeps the invariant. */
  lemma SwappedIsOk<R>(w: World, step: Step, digest: Name, seen: State, plan: Plan<R>, now: int)
    requires Ok(w)
    requires forall o :: Descends(seen, o) && (plan.Replace? || plan.Transition?) ==>
        Descends(plan.next, Noted(o, step, plan.Transition?))
    ensures Ok(Swapped(w, step, digest, seen, plan, now))
  {
    SwapIsCarried(w, step, digest, seen, plan, now);
    if Swapped(w, step, digest, seen, plan, now) != w {
      var o := Noted(w.begins[w.lineage[digest]], step, plan.Transition?);
      SeenDescends(w, digest);
      NotedKeepsInstallation(w.begins[w.lineage[digest]], step, plan.Transition?);
      CarriedIsOk(w, Swapped(w, step, digest, seen, plan, now), digest, plan, o);
    }
  }

  lemma CompleteIsOk(w: World, digest: Name, seen: State, now: int, b: Installations.Binding, continuation: Name,
      answered: Answered, issue: int)
    requires Ok(w) && seen.kind == OAuthExchanged && seen.continuation == continuation
    requires BindingOf(seen, answered, issue) == Success(b)
    ensures Ok(Bound(w, digest, seen, now, b, continuation, answered))
  {
    if digest in w.lineage && Installations.BindAnswer(w.docs, digest, seen, now, b).None? {
      BindConsumes(w.docs, digest, seen, now, b);
      assert Descends(seen, w.begins[w.lineage[digest]]);
      Lineage.End(w.docs.states, w.lineage, w.begins, w.completed, Descends, BeginOf, Follows, digest,
                  Completed(w.lineage[digest], b, continuation, answered, now, seen.expiresAt));
    }
  }

  lemma BindConsumes(d: Installations.Documents, digest: Name, seen: State, now: int, b: Installations.Binding)
    requires Installations.BindAnswer(d, digest, seen, now, b).None?
    ensures Installations.BindDocs(d, digest, seen, now, b).states == d.states - {digest}
    ensures digest in d.states && d.states[digest] == seen
    ensures b.identity == seen.identity && b.installation.id == seen.installation && now < seen.expiresAt
  {
  }

  lemma LifecycleIsOk(w: World, event: Installations.Event)
    requires Ok(w)
    ensures Ok(w.(docs := Installations.LifecycleDocs(w.docs, event)))
  {
    LifecycleLeavesStates(w.docs, event);
  }

  lemma LifecycleLeavesStates(d: Installations.Documents, event: Installations.Event)
    ensures Installations.LifecycleDocs(d, event).states == d.states
  {
    if Installations.LifecycleAnswer(d, event).None? && event.delivery !in d.receipts {
      UpdatesLeaveStates(d, Installations.Updates(d, event).value);
    }
  }

  lemma {:induction false} UpdatesLeaveStates(d: Installations.Documents, updates: seq<Installations.Update>)
    ensures Installations.WithUpdates(d, updates).states == d.states
  {
    if updates != [] {
      UpdatesLeaveStates(d, updates[..|updates| - 1]);
    }
  }

  lemma ContinueDescends(step: Step, lifetime: int, o: Origin)
    requires step.Continue? && Fits(step.seen, Bootstrap, BLANK) && Descends(step.seen, o)
    ensures var plan := ContinuePlan(step.seen, step.challenge, step.drawn, step.t, lifetime);
            plan.Replace? || plan.Transition? ==> Descends(plan.next, Noted(o, step, plan.Transition?))
  {
  }

  lemma ContinueIsOk(w: World, step: Step, lifetime: int)
    requires Ok(w) && step.Continue?
    ensures Ok(Apply(w, step, lifetime))
  {
    if Fits(step.seen, Bootstrap, BLANK) {
      var plan := ContinuePlan(step.seen, step.challenge, step.drawn, step.t, lifetime);
      forall o | Descends(step.seen, o) && (plan.Replace? || plan.Transition?)
        ensures Descends(plan.next, Noted(o, step, plan.Transition?))
      {
        ContinueDescends(step, lifetime, o);
      }
      SwappedIsOk(w, step, step.digest, step.seen, plan, SwapTime(step.seen, step.t));
    }
  }

  lemma AuthorizeIsOk(w: World, step: Step, lifetime: int)
    requires Ok(w) && step.Authorize?
    ensures Ok(Apply(w, step, lifetime))
  {
    if Fits(step.seen, Bootstrap, BLANK) {
      SwappedIsOk(w, step, step.digest, step.seen, AuthorizePlan(step.seen, step.viewer, step.challenge, step.t),
                  step.t.decide);
    }
  }

  lemma ChooseIsOk(w: World, step: Step, lifetime: int)
    requires Ok(w) && step.ChooseInstallation?
    ensures Ok(Apply(w, step, lifetime))
  {
    if Fits(step.seen, Setup, step.continuation) && step.installation > 0 {
      SwappedIsOk(w, step, step.digest, step.seen,
                  SetupPlan(step.seen, step.installation, step.check, step.drawn, step.t, lifetime), step.t.swap);
    }
  }

  lemma KeepIsOk(w: World, step: Step, lifetime: int)
    requires Ok(w) && step.Keep?
    ensures Ok(Apply(w, step, lifetime))
  {
    if FitsOAuth(step.seen, step.continuation) {
      SwappedIsOk(w, step, step.digest, step.seen,
                  OAuthPlan(step.seen, step.credential, step.codeOk, step.exchange, step.sealed), step.t.decide);
    }
  }

  lemma StepIsOk(w: World, step: Step, lifetime: int)
    requires Ok(w)
    ensures Ok(Apply(w, step, lifetime))
  {
    match step
    case Begin(_, _, _, _) => BeginIsOk(w, step, lifetime);
    case Continue(_, _, _, _, _) => ContinueIsOk(w, step, lifetime);
    case Authorize(_, _, _, _, _) => AuthorizeIsOk(w, step, lifetime);
    case ChooseInstallation(_, _, _, _, _, _, _) => ChooseIsOk(w, step, lifetime);
    case Keep(_, _, _, _, _, _, _, _) => KeepIsOk(w, step, lifetime);
    case Complete(_, _, _, _, _) => CompletingIsOk(w, step, lifetime);
    case Lifecycle(event) => LifecycleIsOk(w, event);
  }

  lemma BeginIsOk(w: World, step: Step, lifetime: int)
    requires Ok(w) && step.Begin?
    ensures Ok(Apply(w, step, lifetime))
  {
    var plan := BeginPlan(w.docs, step.viewer, step.installation, step.drawn, step.now, lifetime);
    if plan.Success? {
      BegunIsOk(w, step.drawn.value.state, plan.value);
    }
  }

  lemma CompletingIsOk(w: World, step: Step, lifetime: int)
    requires Ok(w) && step.Complete?
    ensures Ok(Apply(w, step, lifetime))
  {
    if FitsOAuth(step.seen, step.continuation) && step.seen.kind == OAuthExchanged
        && BindingOf(step.seen, step.answered, step.t.issue).Success? {
      CompleteIsOk(w, step.digest, step.seen, step.t.swap, BindingOf(step.seen, step.answered, step.t.issue).value,
                   step.continuation, step.answered, step.t.issue);
    }
  }

  lemma {:induction false} RunIsOk(steps: seq<Step>, lifetime: int)
    ensures Ok(Run(steps, lifetime))
  {
    if steps != [] {
      RunIsOk(steps[..|steps| - 1], lifetime);
      StepIsOk(Run(steps[..|steps| - 1], lifetime), steps[|steps| - 1], lifetime);
    }
  }

  // ----- What follows -----

  /** Under any concurrent callbacks, each Begin gives at most one live state or completed binding. */
  lemma OneBindingPerBegin(steps: seq<Step>, lifetime: int)
    ensures var w := Run(steps, lifetime);
            && |w.docs.states| + |w.completed| <= |w.begins|
            && (forall i, j | 0 <= i < j < |w.completed| :: w.completed[i].begin != w.completed[j].begin)
            && (forall c, d | c in w.completed && d in w.lineage :: w.lineage[d] != c.begin)
  {
    RunIsOk(steps, lifetime);
  }

  /**
   Whoever is bound began. The challenge offered for what they began is the one they authorized and the one
   the opener came back with, both within its lifetime; the installation is the one asked for at the start
   or else one GitHub verified; the credential was sealed for it; every callback on the way, the last one
   too, showed the continuation the opener was given; and the binding says what GitHub answered, before the
   state it consumed ran out.
   */
  lemma BoundIsWhoBegan(steps: seq<Step>, lifetime: int, c: Completed)
    requires c in Run(steps, lifetime).completed
    ensures c.begin < |Run(steps, lifetime).begins|
    ensures var o := Run(steps, lifetime).begins[c.begin];
            && o.offer.Some? && o.authorization.Some? && o.advance.Some? && o.kept.Some?
            && c.binding.identity == o.identity == o.authorization.value.viewer
            && o.offer.value.challenge == o.authorization.value.challenge == o.advance.value.challenge != BLANK
            && o.authorization.value.at <= o.advance.value.at < o.offer.value.at + 120_000_000_000
            && c.binding.installation.id > 0
            && (if o.installation > 0 then c.binding.installation.id == o.installation
                else o.choice == Some(Choice(c.binding.installation.id, Verified, o.advance.value.continuation)))
            && o.kept.value.credential.matches && o.kept.value.credential.opens
            && c.continuation == o.kept.value.continuation == o.advance.value.continuation
            && c.answered.Known? && c.binding.user == c.answered.user && c.binding.login == c.answered.login
            && c.binding.installation in c.answered.installations && c.at < c.until
  {
    RunIsOk(steps, lifetime);
  }

  /**
   The same of whatever is still on its way: a state past its opener was opened by whoever began, with what
   was offered.
   */
  lemma LiveIsOpened(steps: seq<Step>, lifetime: int, digest: Name)
    requires digest in Run(steps, lifetime).docs.states && Run(steps, lifetime).docs.states[digest].kind != Bootstrap
    ensures digest in Run(steps, lifetime).lineage
    ensures var w := Run(steps, lifetime);
            w.lineage[digest] < |w.begins|
            && var o, s := w.begins[w.lineage[digest]], w.docs.states[digest];
               && o.offer.Some? && o.authorization.Some? && o.advance.Some?
               && s.identity == o.identity == o.authorization.value.viewer
               && o.offer.value.challenge == o.authorization.value.challenge == o.advance.value.challenge != BLANK
               && o.authorization.value.at <= o.advance.value.at < o.offer.value.at + 120_000_000_000
               && s.continuation == o.advance.value.continuation
  {
    RunIsOk(steps, lifetime);
  }

  /** Whatever is live or completed of a Begin is for one installation. */
  ghost predicate Pinned(w: World, begin: nat, id: int) {
    && (forall d | d in w.lineage && w.lineage[d] == begin :: d in w.docs.states && w.docs.states[d].installation == id)
    && (forall c | c in w.completed && c.begin == begin :: c.binding.installation.id == id)
  }

  lemma CarriedPins<R>(w: World, v: World, digest: Name, plan: Plan<R>, o: Origin, begin: nat, id: int)
    requires LineageOk(w) && Pinned(w, begin, id) && IsCarried(w, v, digest, plan, o)
    requires w.lineage[digest] == begin ==> plan.next.installation == id
    ensures Pinned(v, begin, id)
  {
  }

  lemma SwappedPins<R>(w: World, step: Step, digest: Name, seen: State, plan: Plan<R>, now: int, begin: nat, id: int)
    requires LineageOk(w) && Pinned(w, begin, id)
    requires seen.installation == id && (plan.Replace? || plan.Transition?) ==> plan.next.installation == id
    ensures Pinned(Swapped(w, step, digest, seen, plan, now), begin, id)
  {
    var v := Swapped(w, step, digest, seen, plan, now);
    SwapIsCarried(w, step, digest, seen, plan, now);
    if v != w {
      CarriedPins(w, v, digest, plan, Noted(w.begins[w.lineage[digest]], step, plan.Transition?), begin, id);
    }
  }

  lemma BoundPins(w: World, digest: Name, seen: State, now: int, b: Installations.Binding, continuation: Name,
      answered: Answered, begin: nat, id: int)
    requires LineageOk(w) && Pinned(w, begin, id)
    ensures Pinned(Bound(w, digest, seen, now, b, continuation, answered), begin, id)
  {
    if Installations.BindAnswer(w.docs, digest, seen, now, b).None? {
      BindConsumes(w.docs, digest, seen, now, b);
    }
  }

  lemma BegunPins(w: World, digest: Name, s: State, begin: nat, id: int)
    requires LineageOk(w) && begin < |w.begins| && Pinned(w, begin, id)
    ensures Pinned(Begun(w, digest, s), begin, id)
  {
  }

  lemma QuietStepPins(w: World, step: Step, lifetime: int, begin: nat, id: int)
    requires LineageOk(w) && begin < |w.begins| && Pinned(w, begin, id)
    requires step.Begin? || step.Authorize? || step.Lifecycle?
    ensures Pinned(Apply(w, step, lifetime), begin, id)
  {
    match step
    case Begin(viewer, installation, drawn, now) =>
      var plan := BeginPlan(w.docs, viewer, installation, drawn, now, lifetime);
      if plan.Success? { BegunPins(w, drawn.value.state, plan.value, begin, id); }
    case Authorize(digest, seen, viewer, challenge, t) =>
      SwappedPins(w, step, digest, seen, AuthorizePlan(seen, viewer, challenge, t), t.decide, begin, id);
    case Lifecycle(event) => LifecycleLeavesStates(w.docs, event);
  }

  lemma StepPins(w: World, step: Step, lifetime: int, begin: nat, id: int)
    requires LineageOk(w) && id > 0 && begin < |w.begins| && Pinned(w, begin, id)
    ensures Pinned(Apply(w, step, lifetime), begin, id)
  {
    match step
    case Continue(digest, seen, challenge, drawn, t) =>
      SwappedPins(w, step, digest, seen, ContinuePlan(seen, challenge, drawn, t, lifetime), SwapTime(seen, t), begin,
          id);
    case ChooseInstallation(_, _, _, _, _, _, _) => ChoicePins(w, step, lifetime, begin, id);
    case Keep(digest, seen, _, c, codeOk, exchange, sealed, t) =>
      SwappedPins(w, step, digest, seen, OAuthPlan(seen, c, codeOk, exchange, sealed), t.decide, begin, id);
    case Complete(digest, seen, continuation, answered, t) =>
      if BindingOf(seen, answered, t.issue).Success? {
        BoundPins(w, digest, seen, t.swap, BindingOf(seen, answered, t.issue).value, continuation, answered, begin, id);
      }
    case _ => QuietStepPins(w, step, lifetime, begin, id);
  }

  /** A state that waits for its installation to be chosen has none yet. */
  lemma WaitingHasNone(w: World, digest: Name, seen: State, continuation: Name)
    requires LineageOk(w) && digest in w.lineage && digest in w.docs.states && w.docs.states[digest] == seen
    requires Fits(seen, Setup, continuation)
    ensures seen.installation <= 0
  {
    assert Descends(seen, w.begins[w.lineage[digest]]);
  }

  lemma UnchosenPins<R>(w: World, step: Step, digest: Name, seen: State, continuation: Name, plan: Plan<R>, now: int,
      begin: nat, id: int)
    requires LineageOk(w) && id > 0 && Pinned(w, begin, id) && Fits(seen, Setup, continuation)
    ensures Pinned(Swapped(w, step, digest, seen, plan, now), begin, id)
  {
    SwapIsCarried(w, step, digest, seen, plan, now);
    if Swapped(w, step, digest, seen, plan, now) != w {
      WaitingHasNone(w, digest, seen, continuation);
      SwappedPins(w, step, digest, seen, plan, now, begin, id);
    }
  }

  lemma ChoicePins(w: World, step: Step, lifetime: int, begin: nat, id: int)
    requires step.ChooseInstallation? && id > 0 && Pinned(w, begin, id)
    requires LineageOk(w)
    ensures Pinned(Apply(w, step, lifetime), begin, id)
  {
    if Fits(step.seen, Setup, step.continuation) && step.installation > 0 {
      UnchosenPins(w, step, step.digest, step.seen, step.continuation,
                   SetupPlan(step.seen, step.installation, step.check, step.drawn, step.t,
                       lifetime), step.t.swap, begin, id);
    }
  }

  lemma BeginsGrow(w: World, step: Step, lifetime: int)
    ensures |Apply(w, step, lifetime).begins| >= |w.begins|
  {
  }

  ghost predicate PinnedBegin(w: World, begin: nat, id: int) {
    begin < |w.begins| && Pinned(w, begin, id)
  }

  lemma StepKeepsPin(steps: seq<Step>, step: Step, lifetime: int, begin: nat, id: int)
    requires id > 0 && PinnedBegin(Run(steps, lifetime), begin, id)
    ensures PinnedBegin(Apply(Run(steps, lifetime), step, lifetime), begin, id)
  {
    RunIsOk(steps, lifetime);
    BeginsGrow(Run(steps, lifetime), step, lifetime);
    StepPins(Run(steps, lifetime), step, lifetime, begin, id);
  }

  lemma {:induction false} PinStays(steps: seq<Step>, more: seq<Step>, lifetime: int, begin: nat, id: int)
    requires id > 0 && PinnedBegin(Run(steps, lifetime), begin, id)
    ensures PinnedBegin(Run(steps + more, lifetime), begin, id)
    decreases |more|
  {
    if more == [] {
      assert steps + more == steps;
    } else {
      var init := more[..|more| - 1];
      PinStays(steps, init, lifetime, begin, id);
      assert (steps + more)[..|steps + more| - 1] == steps + init;
      StepKeepsPin(steps + init, more[|more| - 1], lifetime, begin, id);
    }
  }

  /**
   Once a live state has a positive installation, every later state of the same Begin, and the binding
   it ends in, has that one.
   */
  lemma InstallationNeverChanges(steps: seq<Step>, more: seq<Step>, lifetime: int, digest: Name)
    requires digest in Run(steps, lifetime).docs.states && Run(steps, lifetime).docs.states[digest].installation > 0
    ensures digest in Run(steps, lifetime).lineage
    ensures Pinned(Run(steps + more, lifetime), Run(steps, lifetime).lineage[digest],
        Run(steps, lifetime).docs.states[digest].installation)
  {
    RunIsOk(steps, lifetime);
    var w := Run(steps, lifetime);
    PinStays(steps, more, lifetime, w.lineage[digest], w.docs.states[digest].installation);
  }

  // ----- The bindings are the store's -----

  /** What a step of the connection is to the installation store. */
  function AsSteps(w: World, step: Step, lifetime: int): InstallationRuns.Step {
    var v := Apply(w, step, lifetime);
    if step.Complete? && |v.completed| > |w.completed| then
      InstallationRuns.Bind(step.digest, step.seen, step.t.swap, v.completed[|v.completed| - 1].binding)
    else if step.Lifecycle? then InstallationRuns.Lifecycle(step.event)
    else InstallationRuns.States(v.docs.states)
  }

  function Projected(steps: seq<Step>, lifetime: int): seq<InstallationRuns.Step> {
    if steps == [] then []
    else
      var n := |steps| - 1;
      Projected(steps[..n], lifetime) + [AsSteps(Run(steps[..n], lifetime), steps[n], lifetime)]
  }

  lemma StepProjects(w: World, s: InstallationRuns.World, step: Step, lifetime: int)
    requires w.docs == s.docs
    ensures InstallationRuns.Apply(s, AsSteps(w, step, lifetime)).docs == Apply(w, step, lifetime).docs
  {
    if step.Complete? {
      CompleteProjects(w, s, step, lifetime);
    } else if !step.Lifecycle? {
      OnlyStatesMove(w, step, lifetime);
    }
  }

  lemma SwapMovesStates<R>(w: World, step: Step, digest: Name, seen: State, plan: Plan<R>, now: int)
    ensures Swapped(w, step, digest, seen, plan, now).docs
        == w.docs.(states := Swapped(w, step, digest, seen, plan, now).docs.states)
  {
  }

  lemma OnlyStatesMove(w: World, step: Step, lifetime: int)
    requires !step.Complete? && !step.Lifecycle?
    ensures Apply(w, step, lifetime).docs == w.docs.(states := Apply(w, step, lifetime).docs.states)
  {
    match step
    case Begin(_, _, _, _) =>
    case Continue(digest, seen, challenge, drawn, t) =>
      SwapMovesStates(w, step, digest, seen, ContinuePlan(seen, challenge, drawn, t, lifetime), if seen.challenge
          == BLANK then t.decide else t.swap);
    case Authorize(digest, seen, viewer, challenge, t) =>
        SwapMovesStates(w, step, digest, seen, AuthorizePlan(seen, viewer, challenge, t), t.decide);
    case ChooseInstallation(digest, seen, _, installation, check, drawn, t) =>
      SwapMovesStates(w, step, digest, seen, SetupPlan(seen, installation, check, drawn, t, lifetime), t.swap);
    case Keep(digest, seen, _, c, codeOk, exchange, sealed, t) =>
      SwapMovesStates(w, step, digest, seen, OAuthPlan(seen, c, codeOk, exchange, sealed), t.decide);
  }

  lemma CompleteProjects(w: World, s: InstallationRuns.World, step: Step, lifetime: int)
    requires w.docs == s.docs && step.Complete?
    ensures InstallationRuns.Apply(s, AsSteps(w, step, lifetime)).docs == Apply(w, step, lifetime).docs
  {
    if Apply(w, step, lifetime) != w {
      var b := BindingOf(step.seen, step.answered, step.t.issue).value;
      assert Apply(w, step, lifetime)
          == Bound(w, step.digest, step.seen, step.t.swap, b, step.continuation, step.answered);
    }
  }

  /** Every run of connections is a run of the installation store, so all that holds of those holds here. */
  lemma {:induction false} ConnectionsRefineTheStore(steps: seq<Step>, lifetime: int)
    ensures InstallationRuns.Run(Projected(steps, lifetime)).docs == Run(steps, lifetime).docs
  {
    if steps != [] {
      var n := |steps| - 1;
      ConnectionsRefineTheStore(steps[..n], lifetime);
      var before := Projected(steps[..n], lifetime);
      var last := AsSteps(Run(steps[..n], lifetime), steps[n], lifetime);
      assert (before + [last])[..|before|] == before;
      StepProjects(Run(steps[..n], lifetime), InstallationRuns.Run(before), steps[n], lifetime);
    }
  }
}
