/**
 The connection of a GitHub installation to a Workbench identity: a chain of pending states, each
 consumed at most once by compare-and-swap, from Begin to a completed binding.

 What a callback decides from the record it read is a function; the class reads, decides and swaps.
 Random texts, clock readings and the outcomes of calls to GitHub are parameters.
 */
module ConnectionFlow {
  import opened Wrappers
  import opened Text
  import opened ConnectionState
  import Installations

  const CHALLENGE_LIFETIME := 120_000_000_000
  const STATE_LIFETIME := 600_000_000_000
  const MAX_CHALLENGE := 256

  datatype Error = Unauthorized | Unavailable | InvalidState | InvalidRequest

  /** The clock is read anew for each part of a callback. */
  datatype Times = Times(read: int, decide: int, issue: int, swap: int)

  /** Random texts a callback draws, as their digests; drawing them can fail. */
  datatype Fresh = Fresh(challenge: Name, continuation: Name, state: Name)

  // ----- The state store -----

  function IssueAnswer(states: map<Name, State>, digest: Name, s: State): Option<Error> {
    if s.identity == BLANK || s.issuedAt == UNSET || s.expiresAt == UNSET || digest in states then Some(Unavailable)
    else None
  }

  function IssueStates(states: map<Name, State>, digest: Name, s: State): map<Name, State> {
    if IssueAnswer(states, digest, s).None? then states[digest := s] else states
  }

  function TransitionAnswer(states: map<Name, State>, digest: Name, current: State, now: int,
      nextDigest: Name): Option<Error> {
    if now == UNSET then Some(Unavailable)
    else if !Installations.Holds(states, digest, current, now) || digest == nextDigest || nextDigest in states then
        Some(InvalidState)
    else None
  }

  function TransitionStates(states: map<Name, State>, digest: Name, current: State, now: int, nextDigest: Name,
      next: State): map<Name, State> {
    if TransitionAnswer(states, digest, current, now, nextDigest).None? then (states - {digest})[nextDigest := next]
    else states
  }

  function ReplaceAnswer(states: map<Name, State>, digest: Name, current: State, now: int): Option<Error> {
    if now == UNSET then Some(Unavailable)
    else if !Installations.Holds(states, digest, current, now) then Some(InvalidState)
    else None
  }

  function ReplaceStates(states: map<Name, State>, digest: Name, current: State, now: int, next: State)
    : map<Name, State>
  {
    if ReplaceAnswer(states, digest, current, now).None? then states[digest := next] else states
  }

  // ----- What a callback decides -----

  /** Answer without a swap, replace the record under its digest, or move on to a new state. */
  datatype Plan<R> = Refuse(error: Error) | Answer(reply: R) | Replace(next: State,
      reply: R) | Transition(digest: Name, next: State, reply: R)

  function Carry<R>(states: map<Name, State>, digest: Name, current: State, plan: Plan<R>, now: int): Result<R, Error> {
    match plan
    case Refuse(e) => Failure(e)
    case Answer(reply) => Success(reply)
    case Replace(_, reply) =>
      var e := ReplaceAnswer(states, digest, current, now);
      if e.Some? then Failure(e.value) else Success(reply)
    case Transition(nextDigest, _, reply) =>
      var e := TransitionAnswer(states, digest, current, now, nextDigest);
      if e.Some? then Failure(e.value) else Success(reply)
  }

  function CarryStates<R>(states: map<Name, State>, digest: Name, current: State, plan: Plan<R>, now: int)
    : map<Name, State>
  {
    match plan
    case Replace(next, _) => ReplaceStates(states, digest, current, now, next)
    case Transition(nextDigest, next, _) => TransitionStates(states, digest, current, now, nextDigest, next)
    case _ => states
  }

  /** A signed state that is stored, unexpired and issued no later than now. */
  function ReadStored(states: map<Name, State>, digest: Name, signed: bool, now: int): Result<State, Error> {
    if !signed then Failure(InvalidState)
    else if now == UNSET then Failure(Unavailable)
    else if digest !in states || states[digest].expiresAt <= now then Failure(InvalidState)
    else if states[digest].identity == BLANK || states[digest].issuedAt > now then Failure(InvalidState)
    else Success(states[digest])
  }

  predicate Fits(s: State, kind: Kind, continuation: Name) {
    && s.kind == kind
    && (kind == Bootstrap ==> s.continuation == BLANK)
    && (kind != Bootstrap ==> s.continuation != BLANK && s.continuation == continuation)
    && (kind == OAuth ==> s.installation > 0)
  }

  predicate FitsOAuth(s: State, continuation: Name) {
    && ((s.kind == OAuth && s.ciphertext == BLANK) || (s.kind == OAuthExchanged && s.ciphertext != BLANK))
    && s.installation > 0 && s.continuation != BLANK && s.continuation == continuation
  }

  function NewState(kind: Kind, identity: Name, installation: int, continuation: Name, now: int, lifetime: int): State {
    State(kind, identity, installation, continuation, BLANK, UNSET, UNSET, BLANK, now,
          now + if lifetime <= 0 then STATE_LIFETIME else lifetime)
  }

  datatype Continuation = Offered(challenge: Name) | Inert | Waiting | Advanced(kind: Kind)

  function ContinuePlan(s: State, challenge: Name, drawn: Option<Fresh>, t: Times, lifetime: int): Plan<Continuation> {
    if s.challenge == BLANK then
      if drawn.None? then Refuse(Unavailable)
      else
        var until := t.decide + CHALLENGE_LIFETIME;
        Replace(s.(challenge := drawn.value.challenge,
                   challengeExpiresAt := if until > s.expiresAt then s.expiresAt else until),
                Offered(drawn.value.challenge))
    else if challenge == BLANK || s.challenge != challenge then Answer(Inert)
    else if s.challengeExpiresAt <= t.decide || s.challengeExpiresAt > s.expiresAt then Refuse(InvalidState)
    else if s.authorizedAt == UNSET then Answer(Waiting)
    else if s.authorizedAt > t.decide || s.authorizedAt > s.challengeExpiresAt then Refuse(InvalidState)
    else if drawn.None? then Refuse(Unavailable)
    else
      var kind := if s.installation > 0 then OAuth else Setup;
      Transition(drawn.value.state, NewState(kind, s.identity, s.installation, drawn.value.continuation, t.issue,
          lifetime), Advanced(kind))
  }

  /** The clock reading a swap of Continue's goes by. */
  function SwapTime(s: State, t: Times): int {
    if s.challenge == BLANK then t.decide else t.swap
  }

  /** A challenge that may be presented to be authorized. */
  predicate IsPresentable(challenge: Name) { challenge != BLANK && |challenge.text| <= MAX_CHALLENGE }

  function AuthorizePlan(s: State, viewer: Name, challenge: Name, t: Times): Plan<bool> {
    if s.identity != viewer then Refuse(Unauthorized)
    else if s.challenge == BLANK || s.challenge != challenge then Refuse(InvalidState)
    else if s.challengeExpiresAt <= t.decide || s.authorizedAt != UNSET then Refuse(InvalidState)
    else Replace(s.(authorizedAt := t.decide), true)
  }

  datatype Check = Unreachable | Rejected | Verified

  function SetupPlan(s: State, installation: int, check: Check, drawn: Option<Fresh>, t: Times,
      lifetime: int): Plan<Name> {
    if check == Unreachable then Refuse(Unavailable)
    else if check == Rejected then Refuse(InvalidRequest)
    else if drawn.None? then Refuse(Unavailable)
    else Transition(drawn.value.state, NewState(OAuth, s.identity, installation, s.continuation, t.issue, lifetime),
        drawn.value.state)
  }

  /**
   A credential the browser brings back: absent, or sealed for some state. matches tells whether it
   names the state presented, opens whether it decrypts under it.
   */
  datatype Credential = Credential(text: Name, matches: bool, opens: bool)

  datatype OAuthReply = Sealed | Exchanged

  function OAuthPlan(s: State, c: Credential, codeOk: bool, exchange: Check, sealed: bool): Plan<OAuthReply> {
    if s.kind != OAuth then Answer(Exchanged)
    else if c.text == BLANK || !c.matches then
      if !codeOk then Refuse(InvalidRequest)
      else if exchange == Unreachable then Refuse(Unavailable)
      else if exchange == Rejected then Refuse(InvalidRequest)
      else if !sealed then Refuse(Unavailable)
      else Answer(Sealed)
    else if !c.opens then Refuse(InvalidState)
    else Replace(s.(kind := OAuthExchanged, ciphertext := c.text), Exchanged)
  }

  /** What GitHub says of the user behind a token. */
  datatype Answered = NoAnswer | Refused | Known(user: int, login: Name, installations: seq<Installations.Installation>)

  function Chosen(installations: seq<Installations.Installation>, id: int): (r: Option<Installations.Installation>)
    ensures r.Some? ==> r.value.id == id && r.value in installations
    ensures r.None? ==> forall i | i in installations :: i.id != id
  {
    if installations == [] then None
    else if installations[0].id == id then Some(installations[0])
    else Chosen(installations[1..], id)
  }

  function BindingOf(s: State, answered: Answered, now: int): Result<Installations.Binding, Error> {
    match answered
    case NoAnswer => Failure(Unavailable)
    case Refused => Failure(InvalidRequest)
    case Known(user, login, installations) =>
      match Chosen(installations, s.installation)
      case None => Failure(InvalidRequest)
      case Some(i) => Success(Installations.Binding(s.identity, user, login, i, now))
  }

  function BindError(e: Installations.Error): Error {
    if e == Installations.InvalidState then InvalidState else if e == Installations.Unauthorized then Unauthorized
    else Unavailable
  }

  function HasInstallation(d: Installations.Documents, identity: Name, installation: int): Result<bool, Error> {
    var k := Installations.Key(identity, installation);
    if identity !in d.identities then Success(false)
    else if !Installations.Presentable(d.identities[identity], identity) then Failure(Unavailable)
    else Success(k in d.installations && d.installations[k].id == installation)
  }

  function BeginPlan(d: Installations.Documents, viewer: Name, installation: int, drawn: Option<Fresh>, now: int,
      lifetime: int): Result<State, Error> {
    if IsBlank(viewer) then Failure(Unauthorized)
    else if installation < 0 then Failure(InvalidRequest)
    else if installation > 0 && HasInstallation(d, viewer, installation).Failure? then Failure(Unavailable)
    else if installation > 0 && !HasInstallation(d, viewer, installation).value then Failure(Unauthorized)
    else if drawn.None? then Failure(Unavailable)
    else Success(NewState(Bootstrap, viewer, installation, BLANK, now, lifetime))
  }

  // ----- The service -----

  /** The service over its store, with nothing interleaved. A configuration that does not validate is unavailable. */
  class InstallationConnectionService {
    var docs: Installations.Documents
    const configured: bool
    const lifetime: int

    constructor (configured: bool, lifetime: int)
      ensures docs == Installations.EMPTY && this.configured == configured && this.lifetime == lifetime
    {
      docs, this.configured, this.lifetime := Installations.EMPTY, configured, lifetime;
    }

    method Issue(digest: Name, s: State) returns (e: Option<Error>)
      modifies this
      ensures e == IssueAnswer(old(docs.states), digest, s)
      ensures docs == old(docs).(states := IssueStates(old(docs.states), digest, s))
    {
      if s.identity == BLANK || s.issuedAt == UNSET || s.expiresAt == UNSET { return Some(Unavailable); }
      if digest in docs.states { return Some(Unavailable); }
      docs := docs.(states := docs.states[digest := s]);
      e := None;
    }

    method TransitionState(digest: Name, current: State, now: int, nextDigest: Name, next: State)
        returns (e: Option<Error>)
      modifies this
      ensures e == TransitionAnswer(old(docs.states), digest, current, now, nextDigest)
      ensures docs == old(docs).(states := TransitionStates(old(docs.states), digest, current, now, nextDigest, next))
    {
      if now == UNSET { return Some(Unavailable); }
      var stored := Lookup(docs.states, digest);
      if stored.None? || stored.value != current || stored.value.expiresAt <= now || digest
          == nextDigest { return Some(InvalidState); }
      if Lookup(docs.states, nextDigest).Some? { return Some(InvalidState); }
      docs := docs.(states := docs.states - {digest});
      docs := docs.(states := docs.states[nextDigest := next]);
      e := None;
    }

    method ReplaceState(digest: Name, current: State, now: int, next: State) returns (e: Option<Error>)
      modifies this
      ensures e == ReplaceAnswer(old(docs.states), digest, current, now)
      ensures docs == old(docs).(states := ReplaceStates(old(docs.states), digest, current, now, next))
    {
      if now == UNSET { return Some(Unavailable); }
      var stored := Lookup(docs.states, digest);
      if stored.None? || stored.value != current || stored.value.expiresAt <= now { return Some(InvalidState); }
      docs := docs.(states := docs.states[digest := next]);
      e := None;
    }

    method Begin(viewer: Name, installation: int, drawn: Option<Fresh>, now: int) returns (r: Result<Name, Error>)
      modifies this
      ensures configured && BeginPlan(old(docs), viewer, installation, drawn, now, lifetime).Success? ==>
                var s := BeginPlan(old(docs), viewer, installation, drawn, now, lifetime).value;
                && docs == old(docs).(states := IssueStates(old(docs.states), drawn.value.state, s))
                && r == if IssueAnswer(old(docs.states), drawn.value.state, s).Some? then Failure(Unavailable)
                    else Success(drawn.value.state)
      ensures !configured || BeginPlan(old(docs), viewer, installation, drawn, now, lifetime).Failure?
          ==> docs == old(docs) && r.Failure?
    {
      if IsBlank(viewer) { return Failure(Unauthorized); }
      if !configured { return Failure(Unavailable); }
      if installation < 0 { return Failure(InvalidRequest); }
      if installation > 0 {
        var known := HasInstallation(docs, viewer, installation);
        if known.Failure? { return Failure(Unavailable); }
        if !known.value { return Failure(Unauthorized); }
      }
      if drawn.None? { return Failure(Unavailable); }
      var e := Issue(drawn.value.state, NewState(Bootstrap, viewer, installation, BLANK, now, lifetime));
      if e.Some? { return Failure(Unavailable); }
      r := Success(drawn.value.state);
    }

    method Continue(digest: Name, signed: bool, challenge: Name, drawn: Option<Fresh>, t: Times)
        returns (r: Result<Continuation, Error>)
      modifies this
      ensures r.Success? && r.value.Advanced? ==>
                && signed && digest in old(docs).states
                && var s := old(docs).states[digest];
                   && s.kind == Bootstrap && s.challenge == challenge != BLANK
                   && s.authorizedAt != UNSET && s.authorizedAt <= t.decide < s.challengeExpiresAt
                   && r.value.kind == (if s.installation > 0 then OAuth else Setup)
                   && digest !in docs.states && drawn.Some? && drawn.value.state in docs.states
      ensures match Readable(old(docs.states), configured, digest, signed, t.read, Bootstrap, BLANK)
              case Failure(e) => r == Failure(e) && docs == old(docs)
              case Success(s) =>
                && r == Carry(old(docs.states), digest, s, ContinuePlan(s, challenge, drawn, t, lifetime),
                              SwapTime(s, t))
                && docs == old(docs).(states := CarryStates(old(docs.states), digest, s,
                    ContinuePlan(s, challenge, drawn, t, lifetime),
                                                            SwapTime(s, t)))
    {
      if !configured { return Failure(Unavailable); }
      var read := ReadStored(docs.states, digest, signed, t.read);
      if read.Failure? { return Failure(read.error); }
      var s := read.value;
      if !Fits(s, Bootstrap, BLANK) { return Failure(InvalidState); }
      if s.challenge == BLANK {
        if drawn.None? { return Failure(Unavailable); }
        var until := t.decide + CHALLENGE_LIFETIME;
        if until > s.expiresAt { until := s.expiresAt; }
        var e := ReplaceState(digest, s, t.decide, s.(challenge := drawn.value.challenge, challengeExpiresAt := until));
        if e.Some? { return Failure(e.value); }
        return Success(Offered(drawn.value.challenge));
      }
      if challenge == BLANK || s.challenge != challenge { return Success(Inert); }
      if s.challengeExpiresAt <= t.decide || s.challengeExpiresAt > s.expiresAt { return Failure(InvalidState); }
      if s.authorizedAt == UNSET { return Success(Waiting); }
      if s.authorizedAt > t.decide || s.authorizedAt > s.challengeExpiresAt { return Failure(InvalidState); }
      if drawn.None? { return Failure(Unavailable); }
      var kind := Setup;
      if s.installation > 0 { kind := OAuth; }
      var next := NewState(kind, s.identity, s.installation, drawn.value.continuation, t.issue, lifetime);
      var e := TransitionState(digest, s, t.swap, drawn.value.state, next);
      if e.Some? { return Failure(e.value); }
      r := Success(Advanced(kind));
    }

    method AuthorizeOpener(viewer: Name, digest: Name, signed: bool, challenge: Name, t: Times)
        returns (r: Result<bool, Error>)
      modifies this
      ensures r.Success? ==>
                && !IsBlank(viewer) && signed && digest in old(docs).states
                && var s := old(docs).states[digest];
                   && s.kind == Bootstrap && s.identity == viewer && s.challenge == challenge != BLANK
                   && t.read < s.expiresAt && t.decide < s.expiresAt && t.decide < s.challengeExpiresAt
                   && s.authorizedAt == UNSET
                   && docs == old(docs).(states := old(docs).states[digest := s.(authorizedAt := t.decide)])
      ensures r.Failure? ==> docs == old(docs)
      ensures IsBlank(viewer) ==> r == Failure(Unauthorized) && docs == old(docs)
      ensures !IsBlank(viewer) && configured && !IsPresentable(challenge) ==> r == Failure(InvalidState) && docs == old(docs)
      ensures !IsBlank(viewer) && (configured ==> IsPresentable(challenge)) ==>
                match Readable(old(docs.states), configured, digest, signed, t.read, Bootstrap, BLANK)
                case Failure(e) => r == Failure(e) && docs == old(docs)
                case Success(s) =>
                  && r == Carry(old(docs.states), digest, s, AuthorizePlan(s, viewer, challenge, t), t.decide)
                  && docs == old(docs).(states := CarryStates(old(docs.states), digest, s,
                      AuthorizePlan(s, viewer, challenge, t), t.decide))
    {
      if IsBlank(viewer) { return Failure(Unauthorized); }
      if !configured { return Failure(Unavailable); }
      if challenge == BLANK || |challenge.text| > MAX_CHALLENGE { return Failure(InvalidState); }
      var read := ReadStored(docs.states, digest, signed, t.read);
      if read.Failure? { return Failure(read.error); }
      var s := read.value;
      if !Fits(s, Bootstrap, BLANK) { return Failure(InvalidState); }
      if s.identity != viewer { return Failure(Unauthorized); }
      if s.challenge == BLANK || s.challenge != challenge || s.challengeExpiresAt <= t.decide || s.authorizedAt != UNSET {
        return Failure(InvalidState);
      }
      var e := ReplaceState(digest, s, t.decide, s.(authorizedAt := t.decide));
      if e.Some? { return Failure(e.value); }
      r := Success(true);
    }

    method CompleteSetup(digest: Name, signed: bool, installation: int, continuation: Name, check: Check,
        drawn: Option<Fresh>, t: Times)
      returns (r: Result<Name, Error>)
      modifies this
      ensures configured && installation <= 0 ==> r == Failure(InvalidRequest) && docs == old(docs)
      ensures configured ==> installation > 0 ==>
                match Readable(old(docs.states), configured, digest, signed, t.read, Setup, continuation)
                case Failure(e) => r == Failure(e) && docs == old(docs)
                case Success(s) =>
                  && r == Carry(old(docs.states), digest, s, SetupPlan(s, installation, check, drawn, t, lifetime),
                      t.swap)
                  && docs == old(docs).(states := CarryStates(old(docs.states), digest, s,
                      SetupPlan(s, installation, check, drawn, t, lifetime), t.swap))
      ensures !configured ==> r == Failure(Unavailable) && docs == old(docs)
    {
      if !configured { return Failure(Unavailable); }
      if installation <= 0 { return Failure(InvalidRequest); }
      var read := ReadStored(docs.states, digest, signed, t.read);
      if read.Failure? { return Failure(read.error); }
      var s := read.value;
      if !Fits(s, Setup, continuation) { return Failure(InvalidState); }
      if check == Unreachable { return Failure(Unavailable); }
      if check == Rejected { return Failure(InvalidRequest); }
      if drawn.None? { return Failure(Unavailable); }
      var next := NewState(OAuth, s.identity, installation, s.continuation, t.issue, lifetime);
      var e := TransitionState(digest, s, t.swap, drawn.value.state, next);
      if e.Some? { return Failure(e.value); }
      r := Success(drawn.value.state);
    }

    /** The first half of CompleteOAuth: exchange the code, or keep the sealed credential the browser brought back. */
    method KeepCredential(digest: Name, s: State, c: Credential, codeOk: bool, exchange: Check, sealed: bool,
        t: Times) returns (r: Result<OAuthReply, Error>)
      modifies this
      ensures r == Carry(old(docs.states), digest, s, OAuthPlan(s, c, codeOk, exchange, sealed), t.decide)
      ensures docs == old(docs).(states := CarryStates(old(docs.states), digest, s,
          OAuthPlan(s, c, codeOk, exchange, sealed), t.decide))
    {
      if s.kind != OAuth { return Success(Exchanged); }
      var credential := c.text;
      if credential != BLANK && !c.matches { credential := BLANK; }
      if credential == BLANK {
        if !codeOk { return Failure(InvalidRequest); }
        if exchange == Unreachable { return Failure(Unavailable); }
        if exchange == Rejected { return Failure(InvalidRequest); }
        if !sealed { return Failure(Unavailable); }
        return Success(Sealed);
      }
      if !c.opens { return Failure(InvalidState); }
      var e := ReplaceState(digest, s, t.decide, s.(kind := OAuthExchanged, ciphertext := credential));
      if e.Some? { return Failure(e.value); }
      r := Success(Exchanged);
    }

    /** The second half: ask GitHub who the user is and complete the binding, which consumes the state. */
    method Complete(digest: Name, s: State, opens: bool, answered: Answered, t: Times)
        returns (r: Result<OAuthReply, Error>)
      modifies this
      ensures !opens ==> r == Failure(InvalidState) && docs == old(docs)
      ensures opens ==>
                match BindingOf(s, answered, t.issue)
                case Failure(e) => r == Failure(e) && docs == old(docs)
                case Success(b) =>
                  && docs == Installations.BindDocs(old(docs), digest, s, t.swap, b)
                  && r == match Installations.BindAnswer(old(docs), digest, s, t.swap, b)
                          case None => Success(Exchanged)
                          case Some(e) => Failure(BindError(e))
    {
      if !opens { return Failure(InvalidState); }
      if answered.NoAnswer? { return Failure(Unavailable); }
      if answered.Refused? { return Failure(InvalidRequest); }
      var chosen := Chosen(answered.installations, s.installation);
      if chosen.None? { return Failure(InvalidRequest); }
      var b := Installations.Binding(s.identity, answered.user, answered.login, chosen.value, t.issue);
      var store := new Installations.InstallationBindingStore();
      store.docs := docs;
      var e := store.CompleteIdentityInstallationBinding(digest, s, t.swap, b);
      docs := store.docs;
      if e.Some? { return Failure(BindError(e.value)); }
      r := Success(Exchanged);
    }

    method CompleteOAuth(digest: Name, signed: bool, continuation: Name, c: Credential, codeOk: bool, exchange: Check,
        sealed: bool,
                         opens: bool, answered: Answered, t: Times) returns (r: Result<OAuthReply, Error>)
      modifies this
      ensures match ReadableOAuth(old(docs.states), configured, digest, signed, t.read, continuation)
              case Failure(e) => r == Failure(e) && docs == old(docs)
              case Success(s) =>
                var kept := Carry(old(docs.states), digest, s, OAuthPlan(s, c, codeOk, exchange, sealed), t.decide);
                var between := old(docs).(states := CarryStates(old(docs.states), digest, s,
                    OAuthPlan(s, c, codeOk, exchange, sealed), t.decide));
                var held := Exchanging(s, c);
                if kept != Success(Exchanged) then r == kept && docs == between
                else if !opens then r == Failure(InvalidState) && docs == between
                else
                  match BindingOf(held, answered, t.issue)
                  case Failure(e) => r == Failure(e) && docs == between
                  case Success(b) =>
                    && docs == Installations.BindDocs(between, digest, held, t.swap, b)
                    && r == match Installations.BindAnswer(between, digest, held, t.swap, b)
                            case None => Success(Exchanged)
                            case Some(e) => Failure(BindError(e))
    {
      if !configured { return Failure(Unavailable); }
      var read := ReadStored(docs.states, digest, signed, t.read);
      if read.Failure? { return Failure(read.error); }
      var s := read.value;
      if !FitsOAuth(s, continuation) { return Failure(InvalidState); }
      var kept := KeepCredential(digest, s, c, codeOk, exchange, sealed, t);
      if kept != Success(Exchanged) { return kept; }
      var held := s;
      if s.kind == OAuth { held := s.(kind := OAuthExchanged, ciphertext := c.text); }
      r := Complete(digest, held, opens, answered, t);
    }
  }

  /** The record the second half of the OAuth callback works from. */
  function Exchanging(s: State, c: Credential): State {
    if s.kind == OAuth then s.(kind := OAuthExchanged, ciphertext := c.text) else s
  }

  function ReadableOAuth(states: map<Name, State>, configured: bool, digest: Name, signed: bool, now: int,
      continuation: Name): Result<State, Error> {
    if !configured then Failure(Unavailable)
    else
      match ReadStored(states, digest, signed, now)
      case Failure(e) => Failure(e)
      case Success(s) => if FitsOAuth(s, continuation) then Success(s) else Failure(InvalidState)
  }

  /** What every callback but the OAuth one reads first. */
  function Readable(states: map<Name, State>, configured: bool, digest: Name, signed: bool, now: int, kind: Kind,
      continuation: Name): Result<State, Error> {
    if !configured then Failure(Unavailable)
    else
      match ReadStored(states, digest, signed, now)
      case Failure(e) => Failure(e)
      case Success(s) => if Fits(s, kind, continuation) then Success(s) else Failure(InvalidState)
  }
}
