/** What the Call state machine accepts and why it refuses, spelled out over the session and the request alone. */
module CallVerdicts {
  import opened Base
  import opened Ordering
  import opened CallSignalling
  import opened CallSafety
  import opened CallRuns

  // ---- what a well-formed session is ------------------------------------------------------------

  ghost predicate SomeRemote(s: Session, standing: Standing) {
    exists p :: p in s.participants && p.principal != s.initiator && p.standing == standing
  }

  /** An entry joined by now; it has an end exactly when it has left, no earlier than it joined and no later than now. */
  ghost predicate DatesFit(p: Participant, now: u64) {
    && p.joined <= now
    && (p.left == None <==> p.standing != Left)
    && (p.left != None ==> p.joined <= p.left.value <= now)
  }

  ghost predicate CallKind(kind: ConversationKind) { kind == Direct || kind == PrivateGroup || kind == PublicGroup }

  /** Media, reconnecting owner, phase and reason agree with each other and with the remote participants. */
  ghost predicate StoryFits(s: Session) {
    && (s.mediaGeneration == 0 <==> s.mediaRef == None)
    && (s.phase == Reconnecting <==> s.reconnecting != None)
    && (s.reconnecting != None ==> Stands(s.participants, s.reconnecting.value, Accepted))
    && (s.phase == Terminated <==> s.reason != None)
    && (s.phase == Inviting ==> !SomeRemote(s, Accepted) && !SomeRemote(s, Alerted) && SomeRemote(s, Invited))
    && (s.phase == Ringing ==> !SomeRemote(s, Accepted) && SomeRemote(s, Alerted))
    && (s.phase == Active || s.phase == Reconnecting ==> SomeRemote(s, Accepted))
  }

  const KINDS: seq<PrincipalKind> :=
    [Person, Device, ServiceAccount, AiAgent, Bot, Organization, Automation, ExternalPlatform]

  ghost predicate KindBefore(a: PrincipalKind, b: PrincipalKind) {
    exists i, j :: 0 <= i < j < 8 && KINDS[i] == a && KINDS[j] == b
  }

  /** `a` stands before `b`: by id, then by kind in the order of its declaration. */
  ghost predicate Earlier(a: PrincipalRef, b: PrincipalRef) {
    if a.id == b.id then KindBefore(a.kind, b.kind) else TextLe(a.id, b.id)
  }

  /** On the wire a kind is its place in the declaration, counted from one. */
  lemma KindCodeIs(kind: PrincipalKind)
    ensures 1 <= KindCode(kind) <= 8 && KINDS[KindCode(kind) - 1] == kind
  {
  }

  lemma RemoteIs(s: Session, standing: Standing)
    ensures RemoteIn(s, standing) <==> SomeRemote(s, standing)
  {
  }

  lemma StoryIs(s: Session)
    ensures LifecycleFits(s) <==> StoryFits(s)
  {
    RemoteIs(s, Invited);
    RemoteIs(s, Alerted);
    RemoteIs(s, Accepted);
    hide RemoteIn, SomeRemote, Stands;
  }

  lemma DatesAre(p: Participant, now: u64)
    ensures ValidParticipant(p, now) <==> DatesFit(p, now)
  {
  }

  ghost predicate AllDatesFit(s: Session) { forall p :: p in s.participants ==> DatesFit(p, s.revision) }

  /** The first thing that is wrong with a session. */
  ghost function Fault(s: Session): SignalError {
    if !CallKind(s.conversation.kind) then InvalidConversationKind
    else if |s.participants| < 2 then InvalidSession
    else if |s.participants| > 1024 then TooManyParticipants
    else if !Distinct(s.participants) then DuplicateParticipant
    else if !AllDatesFit(s) then InvalidParticipant
    else InvalidSession
  }

  /** Validation accepts a session exactly when kind, number, distinctness, dates, initiator and story are in order,
      and otherwise names the first of these that is not. What comes back is the same session with its entries in
      order. */
  lemma CanonicalVerdict(s: Session)
    ensures CanonicalSession(s).Ok? <==>
      && CallKind(s.conversation.kind) && 2 <= |s.participants| <= 1024 && Distinct(s.participants) && AllDatesFit(s)
      && Stands(s.participants, s.initiator, Accepted) && StoryFits(s)
    ensures CanonicalSession(s).Err? ==> CanonicalSession(s).error == Fault(s)
    ensures CanonicalSession(s).Ok? ==> SameInOrder(s, CanonicalSession(s).value)
  {
    CanonicalMeansCoherent(s);
    StoryIs(s);
    forall p ensures ValidParticipant(p, s.revision) <==> DatesFit(p, s.revision) { DatesAre(p, s.revision); }
    FaultIs(s);
    if CanonicalSession(s).Ok? { InStrictOrder(CanonicalSession(s).value); }
    hide CanonicalSession, LifecycleFits, StoryFits, ValidParticipant, DatesFit, Distinct, Stands, Earlier, Fault, Sort,
         ParticipantLe;
  }

  ghost predicate SameInOrder(s: Session, c: Session) {
    && c == s.(participants := c.participants) && multiset(c.participants) == multiset(s.participants)
    && forall i, j :: 0 <= i < j < |c.participants| ==> Earlier(c.participants[i].principal, c.participants[j].principal)
  }

  lemma FaultIs(s: Session)
    ensures CanonicalSession(s).Err? ==> CanonicalSession(s).error == Fault(s)
  {
    SortFacts(s.participants);
    forall p ensures ValidParticipant(p, s.revision) <==> DatesFit(p, s.revision) { DatesAre(p, s.revision); }
    hide LifecycleBroken, Distinct, AcceptedNow, ValidParticipant, DatesFit, Sort, AdjacentRepeat;
  }

  lemma InStrictOrder(c: Session)
    requires Coherent(c) && InOrder(c)
    ensures forall i, j :: 0 <= i < j < |c.participants| ==> Earlier(c.participants[i].principal, c.participants[j].principal)
  {
    hide LifecycleFits, TextLe;
    forall i, j | 0 <= i < j < |c.participants|
      ensures Earlier(c.participants[i].principal, c.participants[j].principal)
    {
      var a, b := c.participants[i].principal, c.participants[j].principal;
      assert ParticipantLe(c.participants[i], c.participants[j]) && a != b;
      KindCodeIs(a.kind);
      KindCodeIs(b.kind);
    }
  }

  // ---- creation ---------------------------------------------------------------------------------

  /** Why a creation is refused: somebody else's scope or Call, not untouched, not well-formed, or an entry that claims
      more than an invitation. */
  lemma CreationVerdict(session: Session, actorScope: Scope, actor: PrincipalRef)
    ensures CanonicalCreation(session, actorScope, actor).Err? ==>
      CanonicalCreation(session, actorScope, actor).error ==
      if actorScope != session.scope then ScopeMismatch
      else if actor != session.initiator then PermissionDenied
      else if !Untouched(session) then InvalidSession
      else if CanonicalSession(session).Err? then Fault(session)
      else InvalidParticipant
    ensures CanonicalCreation(session, actorScope, actor).Ok? ==>
      SameInOrder(session, CanonicalCreation(session, actorScope, actor).value)
  {
    CanonicalVerdict(session);
    hide CanonicalSession, StoryFits, Distinct, Stands, AllDatesFit, Fault, SameInOrder;
  }

  // ---- the creation fact ------------------------------------------------------------------------

  ghost predicate AtTheStart(s: Session, who: PrincipalRef) {
    exists p :: p in s.participants && p.principal == who && p.joined == 0
  }

  /** The creation fact names the session's own scope, Call, conversation and initiator, and exactly the principals
      that were there from the start, in order. It exists exactly when the session is well-formed, the initiator was
      there and was not alone. */
  lemma FingerprintStates(s: Session)
    ensures CreationFingerprint(s).Ok? <==>
      && CanonicalSession(s).Ok? && AtTheStart(s, s.initiator)
      && exists who :: who != s.initiator && AtTheStart(s, who)
    ensures CreationFingerprint(s).Err? ==>
      CreationFingerprint(s).error == if CanonicalSession(s).Err? then CanonicalSession(s).error else InvalidSession
    ensures CreationFingerprint(s).Ok? ==>
      var f := CreationFingerprint(s).value;
      && f.scope == s.scope && f.callId == s.callId && f.conversation == s.conversation && f.initiator == s.initiator
      && (forall who :: who in f.origin <==> AtTheStart(s, who))
      && InEarlierOrder(f.origin)
  {
    CanonicalMeansCoherent(s);
    if CanonicalSession(s).Ok? {
      var c := CanonicalSession(s).value;
      SortKeepsMembers(ParticipantLe, s.participants);
      OriginFacts(s, c);
      if AtTheStart(s, s.initiator) { NotAlone(Origin(c.participants), s.initiator); }
    }
    hide CanonicalSession, Coherent, InOrder, Origin, AtTheStart, InEarlierOrder, Sort, ParticipantLe;
  }

  ghost predicate InEarlierOrder(origin: seq<PrincipalRef>) {
    forall i, j :: 0 <= i < j < |origin| ==> Earlier(origin[i], origin[j])
  }

  lemma OriginOrder(origin: seq<PrincipalRef>)
    requires SortedBy(PrincipalLe, origin) && NoRepeats(origin)
    ensures InEarlierOrder(origin)
  {
    hide TextLe;
    forall i, j | 0 <= i < j < |origin| ensures Earlier(origin[i], origin[j]) {
      assert PrincipalLe(origin[i], origin[j]) && origin[i] != origin[j];
      KindCodeIs(origin[i].kind);
      KindCodeIs(origin[j].kind);
    }
  }

  lemma NotAlone(origin: seq<PrincipalRef>, who: PrincipalRef)
    requires NoRepeats(origin) && who in origin
    ensures |origin| >= 2 <==> exists other :: other != who && other in origin
  {
    if |origin| >= 2 { assert origin[0] != origin[1] && origin[0] in origin && origin[1] in origin; }
  }

  lemma OriginFacts(s: Session, c: Session)
    requires Coherent(c) && InOrder(c) && forall p :: p in c.participants <==> p in s.participants
    ensures forall who :: who in Origin(c.participants) <==> AtTheStart(s, who)
    ensures InEarlierOrder(Origin(c.participants)) && NoRepeats(Origin(c.participants))
  {
    OriginIsStrictlySorted(c.participants);
    hide Coherent, Origin, InEarlierOrder;
    forall who ensures who in Origin(c.participants) <==> AtTheStart(s, who) { OriginMembers(c.participants, who); }
    OriginOrder(Origin(c.participants));
  }

  // ---- signals ----------------------------------------------------------------------------------

  /** Why a transition is refused to somebody who takes part in a live Call. */
  ghost function RefusalOf(s: Session, actor: PrincipalRef, kind: SignalKind): SignalError {
    var accepted := Stands(s.participants, actor, Accepted);
    match kind
    case SignalRinging => InvalidTransition
    case SignalAccept => InvalidTransition
    case SignalReject => InvalidTransition
    case SignalBusy => InvalidTransition
    case SignalCancel => PermissionDenied
    case SignalTimeout => PermissionDenied
    case ReconnectStarted => if accepted then InvalidTransition else PermissionDenied
    case ReconnectRestored => if accepted && s.phase != Reconnecting then InvalidTransition else PermissionDenied
    case AddParticipant(_) =>
      if actor != s.initiator then PermissionDenied
      else if |s.participants| >= 1024 then TooManyParticipants
      else ParticipantAlreadyExists
    case RemoveParticipant(target) =>
      if target == s.initiator then WouldRemoveInitiator
      else if actor != s.initiator && actor != target then PermissionDenied
      else if forall p :: p in s.participants ==> p.principal != target then ParticipantNotActive
      else InvalidTransition
    case MediaRenegotiation(_) =>
      if accepted && (s.phase == Active || s.phase == Reconnecting) then Overflow else PermissionDenied
    case Terminate(why) => if why == Completed || why == Failed then PermissionDenied else InvalidTransition
  }

  /** Why a signal is refused: the first guard it fails, in this order. */
  ghost function Refusal(s: Session, actorScope: Scope, actor: PrincipalRef, signal: Signal): SignalError {
    if actorScope != s.scope || signal.scope != s.scope then ScopeMismatch
    else if signal.callId != s.callId then CallMismatch
    else if signal.expectedRevision != s.revision then RevisionMismatch
    else if s.phase == Terminated then InvalidTransition
    else if !TakesPart(s, actor) then PermissionDenied
    else if s.revision == U64_MAX || s.generation == U64_MAX then Overflow
    else RefusalOf(s, actor, signal.kind)
  }

  /** Every refused signal is answered with the first guard it fails; a session that is not well-formed is refused
      for its own fault. */
  lemma SignalVerdict(s: Session, actorScope: Scope, actor: PrincipalRef, signal: Signal)
    requires Coherent(s) && InOrder(s) && ApplySignal(s, actorScope, actor, signal).Err?
    ensures ApplySignal(s, actorScope, actor, signal).error == Refusal(s, actorScope, actor, signal)
  {
    hide CanonicalSession, Transition, Allowed, Coherent, InOrder, ActiveParticipant, TakesPart, RefusalOf;
    CanonicalIsIdempotent(s);
    ActorIsActive(s, actor);
    if !s.phase.Terminated? && CanAdvance(s) && TakesPart(s, actor) {
      TransitionRefusal(s, actor, signal.kind);
      ClosingCheckPasses(s, actor, signal.kind);
    }
  }

  lemma ClosingCheckPasses(s: Session, actor: PrincipalRef, kind: SignalKind)
    requires Coherent(s) && !s.phase.Terminated? && CanAdvance(s)
    ensures var next := Transition(s, actor, kind, s.revision + 1);
      next.Ok? ==> CanonicalSession(next.value.(revision := s.revision + 1, generation := s.generation + 1)).Ok?
  {
    hide CanonicalSession, Transition, Coherent;
    if Transition(s, actor, kind, s.revision + 1).Ok? {
      TransitionKeeps(s, actor, kind);
      CanonicalMeansCoherent(Advance(Transition(s, actor, kind, s.revision + 1).value, s));
    }
  }

  lemma TransitionRefusal(s: Session, actor: PrincipalRef, kind: SignalKind)
    requires Coherent(s) && !s.phase.Terminated? && CanAdvance(s) && TakesPart(s, actor)
    ensures Transition(s, actor, kind, s.revision + 1).Err? ==>
      Transition(s, actor, kind, s.revision + 1).error == RefusalOf(s, actor, kind)
  {
    hide Find, Settle, SetStanding, MarkLeft, Stands, LifecycleFits, Distinct, RemoteIn, IsGroup;
    StandingAt(s, actor, Invited);
    StandingAt(s, actor, Alerted);
    StandingAt(s, actor, Accepted);
    hide Coherent;
    if kind.RemoveParticipant? {
      RemoveRefusal(s, actor, kind.target);
    } else if kind.SignalRinging? || kind.SignalAccept? || kind.SignalReject? || kind.SignalBusy? {
      AnswerRefusal(s, actor, kind);
    }
  }

  lemma RemoveRefusal(s: Session, actor: PrincipalRef, target: PrincipalRef)
    requires s.revision < U64_MAX
    ensures ApplyRemove(s, actor, target, s.revision + 1).Err? ==>
      ApplyRemove(s, actor, target, s.revision + 1).error == RefusalOf(s, actor, RemoveParticipant(target))
  {
    hide Settle, MarkLeft, Stands;
  }

  lemma AnswerRefusal(s: Session, actor: PrincipalRef, kind: SignalKind)
    requires s.revision < U64_MAX && Find(s.participants, actor).Some?
    requires kind.SignalRinging? || kind.SignalAccept? || kind.SignalReject? || kind.SignalBusy?
    ensures Transition(s, actor, kind, s.revision + 1).Err? ==>
      Transition(s, actor, kind, s.revision + 1).error == InvalidTransition
  {
    hide Find, Settle, SetStanding;
  }

  lemma BrokenSessionIsRefused(s: Session, actorScope: Scope, actor: PrincipalRef, signal: Signal, members: seq<PrincipalRef>)
    requires CanonicalSession(s).Err?
    ensures ApplySignal(s, actorScope, actor, signal) == Err(Fault(s))
    ensures ReconcileMembership(s, members) == Err(Fault(s))
  {
    CanonicalVerdict(s);
    hide CanonicalSession, Fault;
  }

  // ---- membership -------------------------------------------------------------------------------

  /** Somebody other than the initiator who takes part without being a member. */
  ghost predicate Revoked(s: Session, members: seq<PrincipalRef>, who: PrincipalRef) {
    who != s.initiator && who !in members && TakesPart(s, who)
  }

  /** Reconciliation is for groups only, leaves an ended Call and an undisturbed one alone, and otherwise fails only
      on exhausted counters. */
  lemma ReconcileVerdict(s: Session, members: seq<PrincipalRef>)
    requires Coherent(s) && InOrder(s)
    ensures var r := ReconcileMembership(s, members);
      if s.conversation.kind == Direct then r == Err(InvalidConversationKind)
      else if s.phase == Terminated || (s.initiator in members && forall who :: !Revoked(s, members, who)) then r == Ok(s)
      else if s.revision == U64_MAX || s.generation == U64_MAX then r == Err(Overflow)
      else r.Ok? && r.value.revision == s.revision + 1 && r.value.generation == s.generation + 1
  {
    CanonicalIsIdempotent(s);
    RevokedIs(s, members);
    if IsGroup(s.conversation.kind) { ReconcileNeverStrands(s, members); }
    hide CanonicalSession, InOrder, NobodyRevoked, WithoutRevoked, Distinct, LifecycleFits, Revoked;
    var next := WithoutRevoked(s, members, if s.revision < U64_MAX then s.revision + 1 else 0);
    CanonicalMeansCoherent(next.(revision := if s.revision < U64_MAX then s.revision + 1 else 0,
                                 generation := if s.generation < U64_MAX then s.generation + 1 else 0));
  }

  lemma RevokedIs(s: Session, members: seq<PrincipalRef>)
    requires Coherent(s)
    ensures NobodyRevoked(s, members) <==> s.initiator in members && forall who :: !Revoked(s, members, who)
  {
    hide LifecycleFits, Distinct;
    if p :| p in s.participants && RevokedActive(s, p, members) {
      assert Stands(s.participants, p.principal, p.standing);
      assert Revoked(s, members, p.principal);
    }
    if who :| Revoked(s, members, who) {
      var p :| p in s.participants && p.principal == who
               && (p.standing == Invited || p.standing == Alerted || p.standing == Accepted);
      assert ValidParticipant(p, s.revision);
      assert RevokedActive(s, p, members);
    }
  }
}
