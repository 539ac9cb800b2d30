/** The canonical signalling state machine of one Call: `crates/ucr-protocol/src/call.rs`.
    A session is a value; every transition works on its own copy and either yields the next
    session or an error that leaves the caller's session untouched. */
module CallSignalling {
  import opened Base
  import opened Ordering

  datatype PrincipalKind =
    | Person | Device | ServiceAccount | AiAgent | Bot | Organization | Automation | ExternalPlatform

  datatype PrincipalRef = PrincipalRef(id: string, kind: PrincipalKind)
  datatype ConversationKind =
    | Direct | PrivateGroup | PublicGroup | Broadcast | Community | Room | Topic | Thread | System
  datatype Conversation = Conversation(id: string, kind: ConversationKind)

  datatype Phase = Inviting | Ringing | Active | Reconnecting | Terminated
  datatype Standing = Invited | Alerted | Accepted | Rejected | Busy | Left
  datatype Reason = WasRejected | WasBusy | Cancelled | TimedOut | Completed | Failed

  datatype Participant = Participant(
    principal: PrincipalRef, standing: Standing, joined: u64, left: Option<u64>)

  datatype Session = Session(
    scope: Scope,
    callId: string,
    conversation: Conversation,
    initiator: PrincipalRef,
    participants: seq<Participant>,
    phase: Phase,
    reconnecting: Option<PrincipalRef>,
    mediaRef: Option<string>,
    mediaGeneration: u64,
    generation: u64,
    revision: u64,
    reason: Option<Reason>)

  datatype SignalError =
    | InvalidConversationKind | InvalidSession | InvalidParticipant | DuplicateParticipant
    | TooManyParticipants | ScopeMismatch | CallMismatch | RevisionMismatch | PermissionDenied
    | InvalidTransition | ParticipantNotActive | ParticipantAlreadyExists | WouldRemoveInitiator
    | Overflow

  datatype SignalKind =
    | SignalRinging
    | SignalAccept
    | SignalReject
    | SignalBusy
    | SignalCancel
    | SignalTimeout
    | ReconnectStarted
    | ReconnectRestored
    | AddParticipant(target: PrincipalRef)
    | RemoveParticipant(target: PrincipalRef)
    | MediaRenegotiation(negotiation: string)
    | Terminate(why: Reason)

  datatype Signal = Signal(scope: Scope, callId: string, expectedRevision: u64, kind: SignalKind)

  const MAX_CALL_PARTICIPANTS := 1024

  // ---- ordering of participants --------------------------------------------------------------

  function KindCode(kind: PrincipalKind): nat {
    match kind
    case Person => 1
    case Device => 2
    case ServiceAccount => 3
    case AiAgent => 4
    case Bot => 5
    case Organization => 6
    case Automation => 7
    case ExternalPlatform => 8
  }

  predicate PrincipalLe(a: PrincipalRef, b: PrincipalRef) {
    if a.id == b.id then KindCode(a.kind) <= KindCode(b.kind) else TextLe(a.id, b.id)
  }

  predicate ParticipantLe(a: Participant, b: Participant) {
    PrincipalLe(a.principal, b.principal)
  }

  // ---- canonical form ------------------------------------------------------------------------

  predicate IsCallConversation(kind: ConversationKind) {
    kind.Direct? || kind.PrivateGroup? || kind.PublicGroup?
  }

  predicate IsGroup(kind: ConversationKind) {
    kind.PrivateGroup? || kind.PublicGroup?
  }

  predicate ValidParticipant(p: Participant, revision: u64) {
    && p.joined <= revision
    && (if p.standing.Left? then p.left.Some? && p.joined <= p.left.value <= revision
        else p.left.None?)
  }

  /** Position of the first participant entry for `who`. */
  function Find(ps: seq<Participant>, who: PrincipalRef): (r: Option<nat>)
    ensures r.Some? ==> r.value < |ps| && ps[r.value].principal == who
    ensures r.None? <==> (forall p :: p in ps ==> p.principal != who)
  {
    if ps == [] then None
    else if ps[0].principal == who then Some(0)
    else
      var rest := Find(ps[1..], who);
      assert forall p :: p in ps <==> p == ps[0] || p in ps[1..];
      if rest.Some? then Some(rest.value + 1) else None
  }

  predicate AcceptedNow(ps: seq<Participant>, who: PrincipalRef) {
    var at := Find(ps, who);
    at.Some? && ps[at.value].standing.Accepted? && ps[at.value].left.None?
  }

  predicate RemoteIn(s: Session, standing: Standing) {
    exists p | p in s.participants :: p.principal != s.initiator && p.standing == standing
  }

  predicate AdjacentRepeat(ps: seq<Participant>) {
    exists i | 0 < i < |ps| :: ps[i - 1].principal == ps[i].principal
  }

  /** Media, reconnect ownership, phase and termination reason contradict each other or the participants. */
  predicate LifecycleBroken(c: Session) {
    || (c.mediaGeneration == 0) != c.mediaRef.None?
    || (c.phase.Reconnecting? && (c.reconnecting.None? || !AcceptedNow(c.participants, c.reconnecting.value)))
    || (!c.phase.Reconnecting? && c.reconnecting.Some?)
    || (c.phase.Inviting? && (RemoteIn(c, Accepted) || RemoteIn(c, Alerted)))
    || (c.phase.Inviting? && !RemoteIn(c, Invited) && !RemoteIn(c, Alerted))
    || (c.phase.Ringing? && (RemoteIn(c, Accepted) || !RemoteIn(c, Alerted)))
    || ((c.phase.Active? || c.phase.Reconnecting?) && !RemoteIn(c, Accepted))
    || (c.phase.Terminated? && c.reason.None?)
    || (!c.phase.Terminated? && c.reason.Some?)
  }

  function CanonicalSession(session: Session): (r: Result<Session, SignalError>) {
    if !IsCallConversation(session.conversation.kind) then Err(InvalidConversationKind)
    else if |session.participants| < 2 then Err(InvalidSession)
    else if |session.participants| > MAX_CALL_PARTICIPANTS then Err(TooManyParticipants)
    else
      var c := session.(participants := Sort(ParticipantLe, session.participants));
      if AdjacentRepeat(c.participants) then Err(DuplicateParticipant)
      else if exists p | p in c.participants :: !ValidParticipant(p, c.revision) then Err(InvalidParticipant)
      else if !AcceptedNow(c.participants, c.initiator) then Err(InvalidSession)
      else if LifecycleBroken(c) then Err(InvalidSession)
      else Ok(c)
  }

  function CanonicalCreation(session: Session, actorScope: Scope, actor: PrincipalRef)
    : (r: Result<Session, SignalError>)
  {
    if actorScope != session.scope then Err(ScopeMismatch)
    else if actor != session.initiator then Err(PermissionDenied)
    else if || session.revision != 0 || session.generation != 0 || session.mediaGeneration != 0
            || session.mediaRef.Some? || session.reconnecting.Some? || session.reason.Some?
            || !session.phase.Inviting? then Err(InvalidSession)
    else
      var c :- CanonicalSession(session);
      if exists p | p in c.participants ::
        || p.standing != (if p.principal == c.initiator then Accepted else Invited)
        || p.joined != 0 || p.left.Some?
      then Err(InvalidParticipant)
      else Ok(c)
  }

  // ---- one signal ----------------------------------------------------------------------------

  predicate ActiveStanding(p: Participant) {
    (p.standing.Invited? || p.standing.Alerted? || p.standing.Accepted?) && p.left.None?
  }

  predicate ActiveParticipant(s: Session, who: PrincipalRef) {
    var at := Find(s.participants, who);
    at.Some? && ActiveStanding(s.participants[at.value])
  }

  function Close(s: Session, why: Reason): Session {
    s.(reconnecting := None, phase := Terminated, reason := Some(why))
  }

  /** Re-derives the phase after a participant stopped being viable. */
  function Settle(s: Session, why: Reason): Session {
    if !RemoteIn(s, Invited) && !RemoteIn(s, Alerted) && !RemoteIn(s, Accepted) then Close(s, why)
    else if RemoteIn(s, Accepted) then
      if s.phase.Reconnecting? then s else s.(phase := Active)
    else if exists p | p in s.participants :: p.standing.Alerted? then
      s.(reconnecting := None, phase := Ringing)
    else
      s.(reconnecting := None, phase := Inviting)
  }

  function SetStanding(s: Session, at: nat, standing: Standing): Session
    requires at < |s.participants|
  {
    s.(participants := s.participants[at := s.participants[at].(standing := standing)])
  }

  function MarkLeft(s: Session, at: nat, revision: u64): Session
    requires at < |s.participants|
  {
    s.(participants := s.participants[at := s.participants[at].(standing := Left, left := Some(revision))])
  }

  /** The three invitee answers share one guard; `unanswered` says which standings may still answer. */
  function InviteePosition(s: Session, actor: PrincipalRef, alertedMayAnswer: bool): Result<nat, SignalError> {
    var at := Find(s.participants, actor);
    if at.None? then Err(ParticipantNotActive)
    else
      var p := s.participants[at.value];
      if p.principal == s.initiator || !(p.standing.Invited? || (alertedMayAnswer && p.standing.Alerted?))
      then Err(InvalidTransition)
      else Ok(at.value)
  }

  function ApplyRinging(s: Session, actor: PrincipalRef): Result<Session, SignalError> {
    var at :- InviteePosition(s, actor, false);
    var rung := SetStanding(s, at, Alerted);
    Ok(if s.phase.Active? || s.phase.Reconnecting? then rung else rung.(phase := Ringing))
  }

  function ApplyAccept(s: Session, actor: PrincipalRef): Result<Session, SignalError> {
    var at :- InviteePosition(s, actor, true);
    var joined := SetStanding(s, at, Accepted);
    Ok(if s.phase.Reconnecting? then joined else joined.(phase := Active))
  }

  function ApplyDecline(s: Session, actor: PrincipalRef, standing: Standing, why: Reason): Result<Session, SignalError> {
    var at :- InviteePosition(s, actor, true);
    Ok(Settle(SetStanding(s, at, standing), why))
  }

  function ApplyPreAcceptTermination(s: Session, actor: PrincipalRef, why: Reason): Result<Session, SignalError> {
    if actor != s.initiator || RemoteIn(s, Accepted) then Err(PermissionDenied) else Ok(Close(s, why))
  }

  function ApplyReconnect(s: Session, actor: PrincipalRef, started: bool): Result<Session, SignalError> {
    var at := Find(s.participants, actor);
    if at.None? || !s.participants[at.value].standing.Accepted? then Err(PermissionDenied)
    else if started && s.phase.Active? then
      Ok(s.(reconnecting := Some(actor), phase := Reconnecting))
    else if !started && s.phase.Reconnecting? then
      if s.reconnecting != Some(actor) then Err(PermissionDenied)
      else Ok(s.(reconnecting := None, phase := Active))
    else Err(InvalidTransition)
  }

  function ApplyAdd(s: Session, actor: PrincipalRef, target: PrincipalRef, revision: u64): Result<Session, SignalError> {
    if actor != s.initiator then Err(PermissionDenied)
    else if |s.participants| >= MAX_CALL_PARTICIPANTS then Err(TooManyParticipants)
    else if Find(s.participants, target).Some? then Err(ParticipantAlreadyExists)
    else Ok(s.(participants := s.participants + [Participant(target, Invited, revision, None)]))
  }

  function ApplyRemove(s: Session, actor: PrincipalRef, target: PrincipalRef, revision: u64): Result<Session, SignalError> {
    if target == s.initiator then Err(WouldRemoveInitiator)
    else if actor != s.initiator && actor != target then Err(PermissionDenied)
    else
      var at := Find(s.participants, target);
      if at.None? then Err(ParticipantNotActive)
      else
        var p := s.participants[at.value];
        if p.standing.Rejected? || p.standing.Busy? || p.standing.Left? then Err(InvalidTransition)
        else
          var gone := MarkLeft(s, at.value, revision);
          var freed := if gone.reconnecting == Some(target) then gone.(reconnecting := None, phase := Active) else gone;
          Ok(Settle(freed, Completed))
  }

  function ApplyMedia(s: Session, actor: PrincipalRef, negotiation: string): Result<Session, SignalError> {
    var at := Find(s.participants, actor);
    if !(s.phase.Active? || s.phase.Reconnecting?) || at.None? || !s.participants[at.value].standing.Accepted?
    then Err(PermissionDenied)
    else if s.mediaGeneration == U64_MAX then Err(Overflow)
    else Ok(s.(mediaGeneration := s.mediaGeneration + 1, mediaRef := Some(negotiation)))
  }

  function ApplyTerminate(s: Session, actor: PrincipalRef, why: Reason): Result<Session, SignalError> {
    var at := Find(s.participants, actor);
    if !(why.Completed? || why.Failed?) then Err(InvalidTransition)
    else if at.None? then Err(PermissionDenied)
    else if actor != s.initiator && (!s.participants[at.value].standing.Accepted? || IsGroup(s.conversation.kind))
    then Err(PermissionDenied)
    else Ok(Close(s, why))
  }

  function Transition(s: Session, actor: PrincipalRef, kind: SignalKind, revision: u64): Result<Session, SignalError> {
    match kind
    case SignalRinging => ApplyRinging(s, actor)
    case SignalAccept => ApplyAccept(s, actor)
    case SignalReject => ApplyDecline(s, actor, Rejected, WasRejected)
    case SignalBusy => ApplyDecline(s, actor, Busy, WasBusy)
    case SignalCancel => ApplyPreAcceptTermination(s, actor, Cancelled)
    case SignalTimeout => ApplyPreAcceptTermination(s, actor, TimedOut)
    case ReconnectStarted => ApplyReconnect(s, actor, true)
    case ReconnectRestored => ApplyReconnect(s, actor, false)
    case AddParticipant(target) => ApplyAdd(s, actor, target, revision)
    case RemoveParticipant(target) => ApplyRemove(s, actor, target, revision)
    case MediaRenegotiation(negotiation) => ApplyMedia(s, actor, negotiation)
    case Terminate(why) => ApplyTerminate(s, actor, why)
  }

  function ApplySignal(current: Session, actorScope: Scope, actor: PrincipalRef, signal: Signal)
    : (r: Result<Session, SignalError>)
  {
    var s :- CanonicalSession(current);
    if actorScope != s.scope || signal.scope != s.scope then Err(ScopeMismatch)
    else if signal.callId != s.callId then Err(CallMismatch)
    else if signal.expectedRevision != s.revision then Err(RevisionMismatch)
    else if s.phase.Terminated? then Err(InvalidTransition)
    else if !ActiveParticipant(s, actor) then Err(PermissionDenied)
    else if s.revision == U64_MAX || s.generation == U64_MAX then Err(Overflow)
    else
      var next :- Transition(s, actor, signal.kind, s.revision + 1);
      CanonicalSession(next.(revision := s.revision + 1, generation := s.generation + 1))
  }

  // ---- group membership ----------------------------------------------------------------------

  predicate RevokedActive(s: Session, p: Participant, members: seq<PrincipalRef>) {
    p.principal != s.initiator && ActiveStanding(p) && p.principal !in members
  }

  function DropRevoked(s: Session, members: seq<PrincipalRef>, revision: u64): Session {
    s.(participants := seq(|s.participants|, i requires 0 <= i < |s.participants| =>
      var p := s.participants[i];
      if RevokedActive(s, p, members) then p.(standing := Left, left := Some(revision)) else p))
  }

  predicate NobodyRevoked(s: Session, members: seq<PrincipalRef>) {
    s.initiator in members && !(exists p | p in s.participants :: RevokedActive(s, p, members))
  }

  function WithoutRevoked(s: Session, members: seq<PrincipalRef>, revision: u64): Session {
    if s.initiator !in members then Close(s, Completed)
    else
      var dropped := DropRevoked(s, members, revision);
      var freed := if s.reconnecting.Some? && s.reconnecting.value !in members
                   then dropped.(reconnecting := None, phase := Active) else dropped;
      Settle(freed, Completed)
  }

  function ReconcileMembership(current: Session, members: seq<PrincipalRef>): (r: Result<Session, SignalError>) {
    var s :- CanonicalSession(current);
    if !IsGroup(s.conversation.kind) then Err(InvalidConversationKind)
    else if s.phase.Terminated? || NobodyRevoked(s, members) then Ok(s)
    else if s.revision == U64_MAX || s.generation == U64_MAX then Err(Overflow)
    else
      var next := WithoutRevoked(s, members, s.revision + 1);
      CanonicalSession(next.(revision := s.revision + 1, generation := s.generation + 1))
  }

  // ---- creation fingerprint ------------------------------------------------------------------

  /** What the creation fingerprint hashes: everything here is fixed when the Call is created. */
  datatype CreationFact = CreationFact(
    scope: Scope, callId: string, conversation: Conversation, initiator: PrincipalRef, origin: seq<PrincipalRef>)

  function Origin(ps: seq<Participant>): seq<PrincipalRef> {
    if ps == [] then []
    else (if ps[0].joined == 0 then [ps[0].principal] else []) + Origin(ps[1..])
  }

  function CreationFingerprint(session: Session): (r: Result<CreationFact, SignalError>) {
    var c :- CanonicalSession(session);
    var origin := Origin(c.participants);
    if |origin| < 2 || c.initiator !in origin then Err(InvalidSession)
    else Ok(CreationFact(c.scope, c.callId, c.conversation, c.initiator, origin))
  }
}
