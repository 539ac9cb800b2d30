/** The strict two-Device server only ever does what the canonical signalling state machine allows: every
    Call it holds is, state by state and revision by revision, a canonical two-person Call. */
module DirectCallRefinement {
  import opened Base
  import opened Ordering
  import opened CallSignalling
  import opened CallSafety
  import opened CallRuns
  import B = DirectCallServer

  const HOME := Scope("tenant", None)

  function Who(actor: B.Actor): PrincipalRef { PrincipalRef(actor.Name(), Person) }

  function Entry(actor: B.Actor, standing: Standing): Participant {
    Participant(Who(actor), standing, 0, None)
  }

  function Pair(bob: Standing): seq<Participant> {
    [Entry(B.Alice, Accepted), Entry(B.Bob, bob)]
  }

  /** The canonical invitation behind a started Call. */
  function Opening(callId: string): Session {
    Session(HOME, callId, Conversation(callId, Direct), Who(B.Alice), Pair(Invited),
            Inviting, None, None, 0, 0, 0, None)
  }

  function MirrorKind(action: B.Action): SignalKind {
    match action
    case Accept => SignalAccept
    case Reject => SignalReject
    case Busy => SignalBusy
    case Cancel => SignalCancel
    case Hangup => Terminate(Completed)
    case OtherAction(_) => Terminate(Failed)
  }

  ghost predicate Refines(c: B.DirectCall, s: Session) {
    && s.scope == HOME && s.callId == c.callId && s.initiator == Who(B.Alice) && s.conversation.kind.Direct?
    && s.revision == c.revision
    && Healthy(s)
    && match c.state
       case Ringing => s.phase == Ringing && s.participants == Pair(Alerted)
       case Active => s.phase == Active && s.participants == Pair(Accepted)
       case Terminated => s.phase == Terminated
  }

  lemma PairFacts(bob: Standing)
    ensures var ps := Pair(bob);
      && Distinct(ps) && SortedBy(ParticipantLe, ps) && Sort(ParticipantLe, ps) == ps
      && Find(ps, Who(B.Alice)) == Some(0) && Find(ps, Who(B.Bob)) == Some(1)
  {
    var ps := Pair(bob);
    assert Who(B.Alice).id[0] < Who(B.Bob).id[0];
    assert ParticipantLe(ps[0], ps[1]);
    SortedDistinctIsFixed(ps);
    assert ps[1..] == [Entry(B.Bob, bob)];
  }

  lemma PairRemotes(s: Session, bob: Standing, standing: Standing)
    requires s.participants == Pair(bob) && s.initiator == Who(B.Alice)
    ensures RemoteIn(s, standing) <==> bob == standing
  {
    assert Who(B.Alice).id[0] < Who(B.Bob).id[0];
    assert Pair(bob)[1] == Entry(B.Bob, bob);
    assert Entry(B.Bob, bob) in s.participants;
  }

  lemma PairRemotesAll(s: Session, bob: Standing)
    requires s.participants == Pair(bob) && s.initiator == Who(B.Alice)
    ensures forall standing :: RemoteIn(s, standing) <==> bob == standing
  {
    forall standing ensures RemoteIn(s, standing) <==> bob == standing { PairRemotes(s, bob, standing); }
  }

  lemma OpeningIsCreated(callId: string)
    ensures CanonicalCreation(Opening(callId), HOME, Who(B.Alice)) == Ok(Opening(callId))
    ensures Healthy(Opening(callId))
  {
    hide Who, Sort, Find, CanonicalSession;
    var s := Opening(callId);
    OpeningIsCoherent(callId);
    hide Coherent;
    CanonicalIsIdempotent(s);
    assert forall p :: p in s.participants ==> p == Entry(B.Alice, Accepted) || p == Entry(B.Bob, Invited);
    DifferentPeople();
  }

  lemma OpeningIsCoherent(callId: string)
    ensures Coherent(Opening(callId)) && InOrder(Opening(callId))
  {
    hide Who, RemoteIn, Sort, Find;
    var s := Opening(callId);
    PairFacts(Invited);
    PairRemotesAll(s, Invited);
    assert s.participants[0] == Entry(B.Alice, Accepted) && Stands(s.participants, s.initiator, Accepted);
  }

  lemma DifferentPeople()
    ensures Who(B.Alice) != Who(B.Bob)
  {
    assert Who(B.Alice).id[0] < Who(B.Bob).id[0];
  }

  /** What one canonical signal on a two-person Call does, once it is known to be applied. */
  lemma PairSignal(s: Session, bob: Standing, actor: B.Actor, kind: SignalKind, bob': Standing)
    requires Healthy(s) && s.participants == Pair(bob) && s.scope == HOME && s.revision < U64_MAX
    requires !s.phase.Terminated?
    requires Transition(s, Who(actor), kind, s.revision + 1).Ok?
    requires Transition(s, Who(actor), kind, s.revision + 1).value.participants == Pair(bob')
    requires ApplySignal(s, HOME, Who(actor), Signal(HOME, s.callId, s.revision, kind)).Ok?
    ensures var t := ApplySignal(s, HOME, Who(actor), Signal(HOME, s.callId, s.revision, kind)).value;
      && t == Advance(Transition(s, Who(actor), kind, s.revision + 1).value, s)
      && Healthy(t)
  {
    hide Coherent, InOrder, CanonicalSession, Transition, ActiveParticipant, Allowed;
    var signal := Signal(HOME, s.callId, s.revision, kind);
    CanonicalIsIdempotent(s);
    SignalAppliesExactlyWhenAllowed(s, HOME, Who(actor), signal);
    var next := Advance(Transition(s, Who(actor), kind, s.revision + 1).value, s);
    CanonicalMeansCoherent(next);
    PairFacts(bob');
  }

  lemma PairApplies(s: Session, bob: Standing, actor: B.Actor, kind: SignalKind)
    requires Healthy(s) && s.participants == Pair(bob) && s.scope == HOME && s.revision < U64_MAX
    requires !s.phase.Terminated? && s.initiator == Who(B.Alice)
    requires actor.Alice? || bob.Invited? || bob.Alerted? || bob.Accepted?
    requires Transition(s, Who(actor), kind, s.revision + 1).Ok?
    ensures ApplySignal(s, HOME, Who(actor), Signal(HOME, s.callId, s.revision, kind)).Ok?
  {
    hide Coherent, InOrder, CanonicalSession, Transition, Allowed, ApplySignal;
    TransitionAllowed(s, Who(actor), kind);
    assert Pair(bob)[0] == Entry(B.Alice, Accepted) && Pair(bob)[1] == Entry(B.Bob, bob);
    assert Entry(B.Alice, Accepted) in s.participants && Entry(B.Bob, bob) in s.participants;
    assert ActiveStanding(Entry(B.Alice, Accepted));
    SignalAppliesExactlyWhenAllowed(s, HOME, Who(actor), Signal(HOME, s.callId, s.revision, kind));
  }

  /** Starting a Call is the canonical invitation followed by the callee's ringing signal. */
  lemma StartIsMirrored(c: B.DirectCall)
    requires B.WellFormed(c.callId, c) && c.state.Ringing?
    ensures Refines(c, Run(Opening(c.callId), [Ring(c.callId)]))
  {
    var s, ring := Opening(c.callId), Ring(c.callId);
    OpeningIsCreated(c.callId);
    PairFacts(Invited);
    DifferentPeople();
    hide Who, Sort, Healthy, ApplySignal;
    assert Pair(Invited)[1 := Entry(B.Bob, Alerted)] == Pair(Alerted);
    assert Transition(s, Who(B.Bob), SignalRinging, 1) == Ok(s.(participants := Pair(Alerted), phase := Ringing));
    PairApplies(s, Invited, B.Bob, SignalRinging);
    PairSignal(s, Invited, B.Bob, SignalRinging, Alerted);
    RunOne(s, ring);
  }

  lemma AcceptTransition(s: Session, r: u64)
    requires s.participants == Pair(Alerted) && s.initiator == Who(B.Alice) && s.phase.Ringing?
    ensures Transition(s, Who(B.Bob), SignalAccept, r) == Ok(s.(participants := Pair(Accepted), phase := Active))
  {
    PairFacts(Alerted);
    DifferentPeople();
    hide Who, Sort, Find;
    assert Pair(Alerted)[1 := Entry(B.Bob, Accepted)] == Pair(Accepted);
  }

  lemma DeclineTransition(s: Session, standing: Standing, why: Reason)
    requires s.participants == Pair(Alerted) && s.initiator == Who(B.Alice)
    requires standing.Rejected? || standing.Busy?
    ensures ApplyDecline(s, Who(B.Bob), standing, why) == Ok(Close(s.(participants := Pair(standing)), why))
  {
    PairFacts(Alerted);
    DifferentPeople();
    var t := s.(participants := Pair(standing));
    PairRemotesAll(t, standing);
    hide Who, Sort, Find, RemoteIn;
    assert Pair(Alerted)[1 := Entry(B.Bob, standing)] == Pair(standing);
    assert SetStanding(s, 1, standing) == t;
  }

  lemma CancelTransition(s: Session, r: u64)
    requires s.participants == Pair(Alerted) && s.initiator == Who(B.Alice)
    ensures Transition(s, Who(B.Alice), SignalCancel, r) == Ok(Close(s, Cancelled))
  {
    PairRemotesAll(s, Alerted);
    hide Who, RemoteIn;
  }

  lemma HangupTransition(s: Session, actor: B.Actor, r: u64)
    requires s.participants == Pair(Accepted) && s.initiator == Who(B.Alice) && s.conversation.kind.Direct?
    ensures Transition(s, Who(actor), Terminate(Completed), r) == Ok(Close(s, Completed))
  {
    PairFacts(Accepted);
    hide Who, Sort, Find;
  }

  ghost function BobAfter(action: B.Action): Standing {
    match action
    case Reject => Rejected
    case Busy => CallSignalling.Busy
    case Cancel => Alerted
    case _ => Accepted
  }

  lemma MirrorTransition(c: B.DirectCall, s: Session, actor: B.Actor, action: B.Action)
    requires B.WellFormed(c.callId, c) && Refines(c, s) && B.SignalAllowed(actor, c, action)
    ensures var next := Transition(s, Who(actor), MirrorKind(action), s.revision + 1);
      && next.Ok? && next.value.participants == Pair(BobAfter(action))
      && next.value.phase == (if action.Accept? then Active else Terminated)
  {
    hide Who, Healthy, Pair;
    match action
    case Accept => AcceptTransition(s, s.revision + 1);
    case Reject => DeclineTransition(s, Rejected, WasRejected);
    case Busy => DeclineTransition(s, CallSignalling.Busy, WasBusy);
    case Cancel => CancelTransition(s, s.revision + 1);
    case Hangup => HangupTransition(s, actor, s.revision + 1);
  }

  /** What the canonical state machine makes of a signal the server accepts. */
  ghost function MirrorNext(s: Session, actor: B.Actor, action: B.Action): Result<Session, SignalError>
    requires s.revision < U64_MAX
  {
    Transition(s, Who(actor), MirrorKind(action), s.revision + 1)
  }

  ghost function BobNow(c: B.DirectCall): Standing { if c.state.Ringing? then Alerted else Accepted }

  lemma LiveFacts(c: B.DirectCall, s: Session, actor: B.Actor, action: B.Action)
    requires B.WellFormed(c.callId, c) && Refines(c, s) && B.SignalAllowed(actor, c, action)
    ensures Healthy(s) && s.participants == Pair(BobNow(c)) && s.scope == HOME && s.initiator == Who(B.Alice)
    ensures s.revision == c.revision < U64_MAX && s.callId == c.callId && !s.phase.Terminated?
  {
    hide Healthy, Pair, Who;
  }

  lemma MirrorIsApplied(c: B.DirectCall, s: Session, actor: B.Actor, action: B.Action)
    requires B.WellFormed(c.callId, c) && Refines(c, s) && B.SignalAllowed(actor, c, action)
    ensures MirrorNext(s, actor, action).Ok?
    ensures var t := ApplySignal(s, HOME, Who(actor), Signal(HOME, c.callId, c.revision, MirrorKind(action)));
      && t == Ok(Advance(MirrorNext(s, actor, action).value, s))
      && Healthy(t.value)
  {
    hide Who, Transition, ApplySignal, Healthy, MirrorKind, BobAfter, Pair, Refines, B.WellFormed, B.SignalAllowed;
    LiveFacts(c, s, actor, action);
    MirrorTransition(c, s, actor, action);
    PairApplies(s, BobNow(c), actor, MirrorKind(action));
    PairSignal(s, BobNow(c), actor, MirrorKind(action), BobAfter(action));
  }

  /** Every signal the server accepts, the canonical state machine applies, with the same new state and
      revision. */
  lemma SignalIsMirrored(c: B.DirectCall, s: Session, actor: B.Actor, action: B.Action)
    requires B.WellFormed(c.callId, c) && Refines(c, s) && B.SignalAllowed(actor, c, action)
    ensures var signal := Signal(HOME, c.callId, c.revision, MirrorKind(action));
      var t := ApplySignal(s, HOME, Who(actor), signal);
      t.Ok? && Refines(B.Signalled(c, action), t.value)
  {
    hide Who, Transition, ApplySignal, Healthy, MirrorKind, Pair, B.WellFormed;
    LiveFacts(c, s, actor, action);
    MirrorIsApplied(c, s, actor, action);
    MirrorTransition(c, s, actor, action);
    TransitionKeepsCall(s, Who(actor), MirrorKind(action), s.revision + 1);
  }

  function Ring(callId: string): Event {
    Signalled(HOME, Who(B.Bob), Signal(HOME, callId, 0, SignalRinging))
  }

  function MirrorSignal(c: B.DirectCall, actor: B.Actor, action: B.Action): Event
    requires 0 <= c.revision <= U64_MAX
  {
    Signalled(HOME, Who(actor), Signal(HOME, c.callId, c.revision, MirrorKind(action)))
  }

  /** What the canonical Call `id` does while the server takes one step. */
  function MirrorStep(s: B.Server, e: B.Event, id: string): seq<Event> {
    var t := B.Step(s, e);
    if id !in t.calls || (id in s.calls && t.calls[id] == s.calls[id]) then []
    else if id !in s.calls then [Ring(id)]
    else if e.Requested? && e.request.Signal? && 0 <= s.calls[id].revision <= U64_MAX
    then [MirrorSignal(s.calls[id], e.actor, e.request.action)]
    else []
  }

  /** The canonical run beside a run of the server: it only ever grows. */
  function Mirror(events: seq<B.Event>, id: string): seq<Event>
    decreases |events|
  {
    if events == [] then []
    else
      var prefix := events[..|events| - 1];
      Mirror(prefix, id) + MirrorStep(B.Run(B.Empty, prefix), events[|events| - 1], id)
  }

  /** The server's Call is where the canonical run `m` leads, one applied signal per revision. */
  ghost predicate Follows(server: B.Server, id: string, m: seq<Event>) {
    if id in server.calls
    then Refines(server.calls[id], Run(Opening(id), m)) && |m| == server.calls[id].revision
    else m == []
  }

  lemma ExtendMirror(c: B.DirectCall, m: seq<Event>, actor: B.Actor, action: B.Action)
    requires B.WellFormed(c.callId, c) && B.SignalAllowed(actor, c, action)
    requires Refines(c, Run(Opening(c.callId), m)) && 0 <= c.revision <= U64_MAX
    ensures Refines(B.Signalled(c, action), Run(Opening(c.callId), m + [MirrorSignal(c, actor, action)]))
  {
    hide Refines, Opening, Who, MirrorKind, ApplySignal, Run, B.WellFormed, B.SignalAllowed, B.Signalled, Step;
    var s, mirror := Run(Opening(c.callId), m), MirrorSignal(c, actor, action);
    SignalIsMirrored(c, s, actor, action);
    AppliedStep(s, mirror);
    RunSplits(Opening(c.callId), m, [mirror]);
    RunOne(s, mirror);
  }

  lemma AppliedStep(s: Session, e: Event)
    requires e.Signalled? && ApplySignal(s, e.actorScope, e.actor, e.signal).Ok?
    ensures Step(s, e) == ApplySignal(s, e.actorScope, e.actor, e.signal).value
  {
    hide ApplySignal;
  }

  lemma StepIsMirrored(s: B.Server, e: B.Event, id: string, m: seq<Event>)
    requires B.Sound(s) && Follows(s, id, m)
    ensures Follows(B.Step(s, e), id, m + MirrorStep(s, e, id))
  {
    hide B.StartKey, B.KeyIn, B.Step, Refines, Run, Opening, B.SignalAllowed, B.WellFormed, B.Extends, Ring, MirrorSignal;
    var t := B.Step(s, e);
    B.StepSound(s, e);
    CallsStay(s, t, id);
    if id in t.calls && (id !in s.calls || t.calls[id] != s.calls[id]) {
      B.ChangedCallIsSignalled(s, e, id);
      B.CallIdIsKey(t, id);
      assert B.WellFormed(id, t.calls[id]);
      if id !in s.calls {
        StartIsMirrored(t.calls[id]);
        FirstRevision(t.calls[id]);
        assert m + [Ring(id)] == [Ring(id)];
      } else {
        B.CallIdIsKey(s, id);
        SmallRevision(s.calls[id]);
        ExtendMirror(s.calls[id], m, e.actor, e.request.action);
      }
    } else {
      assert m + [] == m;
    }
  }

  lemma CallsStay(s: B.Server, t: B.Server, id: string)
    requires B.Extends(s, t)
    ensures id in s.calls ==> id in t.calls
  {
  }

  lemma SmallRevision(c: B.DirectCall)
    requires B.WellFormed(c.callId, c)
    ensures 1 <= c.revision <= 3
  {
  }

  lemma FirstRevision(c: B.DirectCall)
    requires B.WellFormed(c.callId, c) && c.state.Ringing?
    ensures c.revision == 1
  {
  }

  /** Simulation over whole runs: whatever the two Devices do, every Call the server holds is, in state and
      revision, where one canonical run from an accepted creation leads, with one applied signal per revision. */
  lemma {:induction false} ServerRefinesCanonicalCall(events: seq<B.Event>, id: string)
    ensures Follows(B.Run(B.Empty, events), id, Mirror(events, id))
    ensures CanonicalCreation(Opening(id), HOME, Who(B.Alice)) == Ok(Opening(id))
    decreases |events|
  {
    hide B.Step, B.Sound, CanonicalCreation, MirrorStep, Refines, Run;
    OpeningIsCreated(id);
    if events != [] {
      var prefix := events[..|events| - 1];
      ServerRefinesCanonicalCall(prefix, id);
      B.StateIsSound(prefix, |prefix|);
      assert prefix[..|prefix|] == prefix;
      StepIsMirrored(B.Run(B.Empty, prefix), events[|events| - 1], id, Mirror(prefix, id));
    }
  }

  /** It is one run: the canonical run beside a longer run of the server continues the one beside a shorter. */
  lemma {:induction false} MirrorOnlyGrows(events: seq<B.Event>, i: nat, id: string)
    requires i <= |events|
    ensures Mirror(events[..i], id) <= Mirror(events, id)
    decreases |events|
  {
    hide MirrorStep;
    if i == |events| {
      assert events[..i] == events;
    } else {
      var prefix := events[..|events| - 1];
      assert prefix[..i] == events[..i];
      MirrorOnlyGrows(prefix, i, id);
    }
  }

  /** The inclusion is strict: a caller may end a ringing Call canonically, the server refuses it. */
  lemma ServerIsStricter(c: B.DirectCall, s: Session)
    requires B.WellFormed(c.callId, c) && c.state.Ringing? && Refines(c, s)
    ensures !B.SignalAllowed(B.Alice, c, B.Hangup)
    ensures ApplySignal(s, HOME, Who(B.Alice), Signal(HOME, c.callId, c.revision, Terminate(Completed))).Ok?
  {
    InitiatorMayEnd(s);
  }
}
