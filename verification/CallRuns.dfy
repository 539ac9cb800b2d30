/** Whole runs of one Call: any order of signals, retries and membership changes after its creation. */
module CallRuns {
  import opened Base
  import opened Ordering
  import opened CallSignalling
  import opened CallSafety

  datatype Event =
    | Signalled(actorScope: Scope, actor: PrincipalRef, signal: Signal)
    | MembersNow(members: seq<PrincipalRef>)

  function Outcome(s: Session, e: Event): Result<Session, SignalError> {
    match e
    case Signalled(actorScope, actor, signal) => ApplySignal(s, actorScope, actor, signal)
    case MembersNow(members) => ReconcileMembership(s, members)
  }

  /** A refused event leaves the stored session as it was. */
  function Step(s: Session, e: Event): Session {
    match Outcome(s, e)
    case Ok(next) => next
    case Err(_) => s
  }

  function Run(s: Session, events: seq<Event>): Session
    decreases |events|
  {
    if events == [] then s else Run(Step(s, events[0]), events[1..])
  }

  ghost predicate Healthy(s: Session) {
    Coherent(s) && InOrder(s) && s.revision == s.generation
  }

  // ---- what one step may change ----------------------------------------------------------------

  predicate Tombstone(p: Participant) {
    p.standing.Rejected? || p.standing.Busy? || p.standing.Left?
  }

  ghost predicate Recorded(ps: seq<Participant>, who: PrincipalRef, joined: u64) {
    exists p :: p in ps && p.principal == who && p.joined == joined
  }

  /** Entries are never lost or re-dated, tombstones never change, and an entry that was not there
      before carries the revision `r` that added it. */
  ghost predicate Evolves(ps: seq<Participant>, qs: seq<Participant>, r: u64) {
    && (forall p :: p in ps && Tombstone(p) ==> p in qs)
    && (forall p :: p in ps ==> Recorded(qs, p.principal, p.joined))
    && (forall q :: q in qs ==> q.joined >= r || Recorded(ps, q.principal, q.joined))
  }

  ghost predicate SameCall(s: Session, t: Session) {
    t.scope == s.scope && t.callId == s.callId && t.conversation == s.conversation && t.initiator == s.initiator
  }

  /** How a session is related to every session it later becomes. */
  ghost predicate Continues(s: Session, t: Session) {
    && SameCall(s, t)
    && s.revision <= t.revision
    && (s.phase.Terminated? ==> t == s)
    && (s == t || (s.revision < t.revision && Evolves(s.participants, t.participants, s.revision + 1)))
  }

  lemma UpdateEvolves(ps: seq<Participant>, at: nat, q: Participant, r: u64)
    requires Distinct(ps) && at < |ps| && !Tombstone(ps[at])
    requires q.principal == ps[at].principal && q.joined == ps[at].joined
    ensures Evolves(ps, ps[at := q], r)
  {
    UpdateFacts(ps, at, q);
    var qs := ps[at := q];
    FindUnique(ps, ps[at]);
    forall p | p in ps ensures Recorded(qs, p.principal, p.joined) && (Tombstone(p) ==> p in qs) {
      FindUnique(ps, p);
      assert q in qs;
    }
  }

  lemma DropEvolves(s: Session, members: seq<PrincipalRef>, r: u64)
    ensures Evolves(s.participants, DropRevoked(s, members, r).participants, r)
  {
    var ps, qs := s.participants, DropRevoked(s, members, r).participants;
    assert forall i :: 0 <= i < |ps| ==> qs[i].principal == ps[i].principal && qs[i].joined == ps[i].joined;
    forall p | p in ps ensures Recorded(qs, p.principal, p.joined) && (Tombstone(p) ==> p in qs) {
      var i :| 0 <= i < |ps| && ps[i] == p;
      assert qs[i] in qs;
    }
    forall q | q in qs ensures Recorded(ps, q.principal, q.joined) {
      var i :| 0 <= i < |qs| && qs[i] == q;
      assert ps[i] in ps;
    }
  }

  lemma AnswerEvolves(s: Session, actor: PrincipalRef, kind: SignalKind, r: u64)
    requires Distinct(s.participants) && Transition(s, actor, kind, r).Ok?
    requires kind.SignalRinging? || kind.SignalAccept? || kind.SignalReject? || kind.SignalBusy?
    ensures Evolves(s.participants, Transition(s, actor, kind, r).value.participants, r)
  {
    hide Evolves, Distinct, RemoteIn;
    var at := Find(s.participants, actor).value;
    var qs := Transition(s, actor, kind, r).value.participants;
    UpdateEvolves(s.participants, at, qs[at], r);
    assert qs == s.participants[at := qs[at]];
  }

  lemma RemoveEvolves(s: Session, actor: PrincipalRef, target: PrincipalRef, r: u64)
    requires Distinct(s.participants) && ApplyRemove(s, actor, target, r).Ok?
    ensures Evolves(s.participants, ApplyRemove(s, actor, target, r).value.participants, r)
  {
    hide Evolves, Distinct, RemoteIn;
    var at := Find(s.participants, target).value;
    var qs := ApplyRemove(s, actor, target, r).value.participants;
    UpdateEvolves(s.participants, at, qs[at], r);
    assert qs == s.participants[at := qs[at]];
  }

  lemma AddEvolves(s: Session, actor: PrincipalRef, target: PrincipalRef, r: u64)
    requires ApplyAdd(s, actor, target, r).Ok?
    ensures Evolves(s.participants, ApplyAdd(s, actor, target, r).value.participants, r)
  {
    var ps := s.participants;
    assert ApplyAdd(s, actor, target, r).value.participants == ps + [Participant(target, Invited, r, None)];
    assert forall p :: p in ps ==> p in ps + [Participant(target, Invited, r, None)];
  }

  lemma TransitionKeepsCall(s: Session, actor: PrincipalRef, kind: SignalKind, r: u64)
    requires Transition(s, actor, kind, r).Ok?
    ensures SameCall(s, Transition(s, actor, kind, r).value)
  {
    hide RemoteIn, Find;
  }

  lemma TransitionEvolves(s: Session, actor: PrincipalRef, kind: SignalKind, r: u64)
    requires Coherent(s) && Transition(s, actor, kind, r).Ok?
    ensures var t := Transition(s, actor, kind, r).value;
      SameCall(s, t) && Evolves(s.participants, t.participants, r)
  {
    TransitionKeepsCall(s, actor, kind, r);
    hide Evolves, SameCall, LifecycleFits, Distinct, RemoteIn;
    match kind
    case SignalRinging => AnswerEvolves(s, actor, kind, r);
    case SignalAccept => AnswerEvolves(s, actor, kind, r);
    case SignalReject => AnswerEvolves(s, actor, kind, r);
    case SignalBusy => AnswerEvolves(s, actor, kind, r);
    case AddParticipant(target) => AddEvolves(s, actor, target, r);
    case RemoveParticipant(target) => RemoveEvolves(s, actor, target, r);
    case _ => SelfEvolves(s.participants, r);
  }

  lemma EvolvesIgnoresOrder(ps: seq<Participant>, qs: seq<Participant>, r: u64)
    requires Evolves(ps, qs, r)
    ensures Evolves(ps, Sort(ParticipantLe, qs), r)
  {
    SortKeepsMembers(ParticipantLe, qs);
    assert forall who, joined :: Recorded(qs, who, joined) <==> Recorded(Sort(ParticipantLe, qs), who, joined);
  }

  lemma CanonicalEvolves(s: Session, next: Session)
    requires SameCall(s, next) && CanAdvance(s) && !s.phase.Terminated?
    requires Evolves(s.participants, next.participants, s.revision + 1)
    requires CanonicalSession(Advance(next, s)).Ok?
    ensures Continues(s, CanonicalSession(Advance(next, s)).value)
  {
    hide CanonicalSession, Evolves, Coherent, InOrder;
    CanonicalMeansCoherent(Advance(next, s));
    EvolvesIgnoresOrder(s.participants, next.participants, s.revision + 1);
  }

  lemma WithoutRevokedEvolves(s: Session, members: seq<PrincipalRef>, r: u64)
    ensures var t := WithoutRevoked(s, members, r);
      SameCall(s, t) && Evolves(s.participants, t.participants, r)
  {
    hide Evolves, DropRevoked, RemoteIn;
    if s.initiator in members {
      DropEvolves(s, members, r);
      assert SameCall(s, DropRevoked(s, members, r)) by { DropKeepsCall(s, members, r); }
    } else {
      SelfEvolves(s.participants, r);
    }
  }

  lemma DropKeepsCall(s: Session, members: seq<PrincipalRef>, r: u64)
    ensures SameCall(s, DropRevoked(s, members, r))
  {
  }

  lemma SelfEvolves(ps: seq<Participant>, r: u64)
    ensures Evolves(ps, ps, r)
  {
  }

  lemma StepContinues(s: Session, e: Event)
    requires Healthy(s)
    ensures Healthy(Step(s, e)) && Continues(s, Step(s, e))
    ensures e.Signalled? && Outcome(s, e).Ok? ==> Step(s, e).revision == s.revision + 1
  {
    hide Coherent, InOrder, CanonicalSession, Transition, WithoutRevoked, Evolves, NobodyRevoked, ActiveParticipant;
    CanonicalIsIdempotent(s);
    if Outcome(s, e).Ok? {
      match e
      case Signalled(actorScope, actor, signal) =>
        SignalAppliesExactlyWhenAllowed(s, actorScope, actor, signal);
        TransitionEvolves(s, actor, signal.kind, s.revision + 1);
        CanonicalEvolves(s, Transition(s, actor, signal.kind, s.revision + 1).value);
      case MembersNow(members) =>
        ReconcileNeverStrands(s, members);
        if Step(s, e) != s {
          WithoutRevokedEvolves(s, members, s.revision + 1);
          CanonicalEvolves(s, WithoutRevoked(s, members, s.revision + 1));
        }
    }
  }

  lemma EvolvesComposes(ps: seq<Participant>, qs: seq<Participant>, us: seq<Participant>, r: u64, r': u64)
    requires Evolves(ps, qs, r) && Evolves(qs, us, r') && r <= r'
    ensures Evolves(ps, us, r)
  {
    forall p | p in ps ensures Recorded(us, p.principal, p.joined) {
      var q :| q in qs && q.principal == p.principal && q.joined == p.joined;
    }
    forall u | u in us && u.joined < r ensures Recorded(ps, u.principal, u.joined) {
      var q :| q in qs && q.principal == u.principal && q.joined == u.joined;
    }
  }

  lemma ContinuesComposes(s: Session, t: Session, u: Session)
    requires Continues(s, t) && Continues(t, u)
    ensures Continues(s, u)
  {
    hide Evolves;
    if s != t && t != u {
      EvolvesComposes(s.participants, t.participants, u.participants, s.revision + 1, t.revision + 1);
    }
  }

  /** Every run keeps every Call healthy, and everything it becomes continues what it was. */
  lemma {:induction false} RunContinues(s: Session, events: seq<Event>)
    requires Healthy(s)
    ensures Healthy(Run(s, events)) && Continues(s, Run(s, events))
    decreases |events|
  {
    hide Healthy, Continues, Step;
    if events == [] {
      ContinuesItself(s);
    } else {
      StepContinues(s, events[0]);
      RunContinues(Step(s, events[0]), events[1..]);
      ContinuesComposes(s, Step(s, events[0]), Run(s, events));
    }
  }

  lemma ContinuesItself(s: Session)
    ensures Continues(s, s)
  {
  }

  // ---- consequences for whole runs -------------------------------------------------------------

  lemma CreationIsHealthy(session: Session, actorScope: Scope, actor: PrincipalRef)
    requires CanonicalCreation(session, actorScope, actor).Ok?
    ensures var s := CanonicalCreation(session, actorScope, actor).value;
      Healthy(s) && s.revision == 0 && s.phase.Inviting? && forall p :: p in s.participants ==> p.joined == 0
  {
    hide CanonicalSession, Coherent, InOrder;
    CanonicalMeansCoherent(session);
  }

  /** Nothing has happened yet. */
  ghost predicate Untouched(s: Session) {
    && s.revision == 0 && s.generation == 0 && s.mediaGeneration == 0 && s.mediaRef.None?
    && s.reconnecting.None? && s.reason.None? && s.phase.Inviting?
  }

  /** The initiator is in, everybody else is invited, nobody has a past. */
  ghost predicate FirstEntries(s: Session) {
    && (exists p :: p in s.participants && p.principal == s.initiator)
    && (forall p :: p in s.participants ==>
          && p.standing == (if p.principal == s.initiator then Accepted else Invited)
          && p.joined == 0 && p.left.None?)
  }

  lemma FirstEntriesAreCoherent(s: Session)
    requires Untouched(s) && FirstEntries(s) && IsCallConversation(s.conversation.kind)
    requires 2 <= |s.participants| <= MAX_CALL_PARTICIPANTS && Distinct(s.participants)
    ensures Coherent(s)
  {
    FirstRemotes(s);
    hide RemoteIn, Distinct;
    var o :| o in s.participants && o.principal == s.initiator;
    assert Stands(s.participants, s.initiator, Accepted);
  }

  lemma FirstRemotes(s: Session)
    requires FirstEntries(s) && 2 <= |s.participants| && Distinct(s.participants)
    ensures RemoteIn(s, Invited) && !RemoteIn(s, Accepted) && !RemoteIn(s, Alerted)
  {
    var a, b := s.participants[0], s.participants[1];
    assert a in s.participants && b in s.participants;
    assert a.principal != s.initiator || b.principal != s.initiator;
  }

  /** A creation is accepted exactly when it is the initiator's own, untouched, and consists of the initiator and
      at least one distinct invited principal: nothing else about the participants can be claimed in advance. */
  lemma CreationAcceptsExactly(session: Session, actorScope: Scope, actor: PrincipalRef)
    ensures CanonicalCreation(session, actorScope, actor).Ok? <==>
      && actorScope == session.scope && actor == session.initiator && Untouched(session)
      && IsCallConversation(session.conversation.kind)
      && 2 <= |session.participants| <= MAX_CALL_PARTICIPANTS && Distinct(session.participants)
      && FirstEntries(session)
  {
    hide CanonicalSession, InOrder, LifecycleFits, Sort, ParticipantLe;
    CanonicalMeansCoherent(session);
    SortKeepsMembers(ParticipantLe, session.participants);
    if Untouched(session) && FirstEntries(session) && IsCallConversation(session.conversation.kind)
       && 2 <= |session.participants| <= MAX_CALL_PARTICIPANTS && Distinct(session.participants) {
      FirstEntriesAreCoherent(session);
    }
  }

  /** A participant that rejected, was busy or left never acts in the Call again. */
  lemma TombstoneNeverActs(s: Session, p: Participant, events: seq<Event>, actorScope: Scope, signal: Signal)
    requires Healthy(s) && p in s.participants && Tombstone(p)
    ensures p in Run(s, events).participants
    ensures ApplySignal(Run(s, events), actorScope, p.principal, signal).Err?
  {
    RunContinues(s, events);
    var t := Run(s, events);
    assert p in t.participants;
    hide ApplySignal, Allowed, LifecycleFits;
    SignalAppliesExactlyWhenAllowed(t, actorScope, p.principal, signal);
    forall q | q in t.participants && q.principal == p.principal ensures q == p {
      FindUnique(t.participants, p);
      FindUnique(t.participants, q);
    }
  }

  lemma InitiatorMayEnd(s: Session)
    requires Healthy(s) && !s.phase.Terminated? && s.revision < U64_MAX
    ensures ApplySignal(s, s.scope, s.initiator, Signal(s.scope, s.callId, s.revision, Terminate(Completed))).Ok?
  {
    var o :| o in s.participants && o.principal == s.initiator && o.standing == Accepted;
    assert ActiveStanding(o);
    hide ApplySignal, Coherent, InOrder;
    SignalAppliesExactlyWhenAllowed(s, s.scope, s.initiator,
                                    Signal(s.scope, s.callId, s.revision, Terminate(Completed)));
  }

  /** From every healthy state with counters to spare the initiator can end the Call. */
  lemma NeverStuck(s: Session)
    requires Healthy(s) && !s.phase.Terminated? && s.revision < U64_MAX
    ensures var end := Signal(s.scope, s.callId, s.revision, Terminate(Completed));
      var t := ApplySignal(s, s.scope, s.initiator, end);
      t.Ok? && t.value.phase.Terminated? && t.value.reason == Some(Completed)
  {
    hide Coherent, InOrder, CanonicalSession, ActiveParticipant, Find;
    InitiatorMayEnd(s);
    CanonicalIsIdempotent(s);
    CanonicalMeansCoherent(Advance(Close(s, Completed), s));
  }

  lemma {:induction false} RunSplits(s: Session, a: seq<Event>, b: seq<Event>)
    ensures Run(s, a + b) == Run(Run(s, a), b)
    decreases |a|
  {
    if a == [] {
      assert a + b == b;
    } else {
      assert (a + b)[1..] == a[1..] + b && (a + b)[0] == a[0];
      RunSplits(Step(s, a[0]), a[1..], b);
    }
  }

  ghost predicate AppliedAt(s: Session, events: seq<Event>, i: nat)
    requires i < |events|
  {
    events[i].Signalled? && Outcome(Run(s, events[..i]), events[i]).Ok?
  }

  /** The revision is a compare-and-swap token: of all signals in a run that name the same expected
      revision at most one is applied, and later ones name strictly later revisions. */
  lemma OneSignalPerRevision(s: Session, events: seq<Event>, i: nat, j: nat)
    requires Healthy(s) && i < j < |events| && AppliedAt(s, events, i) && AppliedAt(s, events, j)
    ensures events[i].signal.expectedRevision < events[j].signal.expectedRevision
  {
    hide Healthy, Evolves, CanonicalSession, Transition, ReconcileMembership, ActiveParticipant;
    var before, later := Run(s, events[..i]), Run(s, events[..j]);
    RunContinues(s, events[..i]);
    RunContinues(s, events[..j]);
    assert events[..i + 1] == events[..i] + [events[i]];
    RunSplits(s, events[..i], [events[i]]);
    var after := Run(s, events[..i + 1]);
    assert after == Step(before, events[i]) by { RunOne(before, events[i]); }
    StepContinues(before, events[i]);
    assert events[..j] == events[..i + 1] + events[i + 1..j];
    RunSplits(s, events[..i + 1], events[i + 1..j]);
    RunContinues(after, events[i + 1..j]);
    ExpectedIsCurrent(before, events[i]);
    ExpectedIsCurrent(later, events[j]);
  }

  lemma RunOne(s: Session, e: Event)
    ensures Run(s, [e]) == Step(s, e)
  {
    assert Run(Step(s, e), []) == Step(s, e);
  }

  lemma ExpectedIsCurrent(s: Session, e: Event)
    requires Healthy(s) && e.Signalled? && Outcome(s, e).Ok?
    ensures e.signal.expectedRevision == s.revision
  {
    hide Coherent, InOrder, CanonicalSession, Allowed;
    SignalAppliesExactlyWhenAllowed(s, e.actorScope, e.actor, e.signal);
  }

  // ---- the creation fingerprint ----------------------------------------------------------------

  lemma {:induction false} OriginMembers(ps: seq<Participant>, who: PrincipalRef)
    ensures who in Origin(ps) <==> Recorded(ps, who, 0)
  {
    if ps != [] {
      OriginMembers(ps[1..], who);
      assert forall p :: p in ps <==> p == ps[0] || p in ps[1..];
    }
  }

  lemma {:induction false} OriginIsStrictlySorted(ps: seq<Participant>)
    requires Distinct(ps) && SortedBy(ParticipantLe, ps)
    ensures SortedBy(PrincipalLe, Origin(ps)) && NoRepeats(Origin(ps))
  {
    if ps != [] {
      var rest := Origin(ps[1..]);
      OriginIsStrictlySorted(ps[1..]);
      forall who | who in rest ensures PrincipalLe(ps[0].principal, who) && ps[0].principal != who {
        OriginMembers(ps[1..], who);
        var p :| p in ps[1..] && p.principal == who && p.joined == 0;
        var i :| 0 < i < |ps| && ps[i] == p;
        assert ParticipantLe(ps[0], ps[i]);
      }
    }
  }

  lemma SameOrigin(ps: seq<Participant>, qs: seq<Participant>)
    requires Distinct(ps) && SortedBy(ParticipantLe, ps) && Distinct(qs) && SortedBy(ParticipantLe, qs)
    requires forall who :: Recorded(ps, who, 0) <==> Recorded(qs, who, 0)
    ensures Origin(ps) == Origin(qs)
  {
    OriginIsStrictlySorted(ps);
    OriginIsStrictlySorted(qs);
    forall who ensures who in Origin(ps) <==> who in Origin(qs) {
      OriginMembers(ps, who);
      OriginMembers(qs, who);
    }
    PrincipalLeIsOrder();
    SameMembersSameMultiset(Origin(ps), Origin(qs));
    SortedFormIsUnique(PrincipalLe, Origin(ps), Origin(qs));
  }

  lemma {:induction false} OriginOfAll(ps: seq<Participant>)
    requires forall p :: p in ps ==> p.joined == 0
    ensures |Origin(ps)| == |ps|
  {
    if ps != [] { OriginOfAll(ps[1..]); }
  }

  /** The fingerprint that makes StartCall retryable exists at creation and never changes afterwards. */
  lemma CreationFingerprintIsImmutable(session: Session, actorScope: Scope, actor: PrincipalRef, events: seq<Event>)
    requires CanonicalCreation(session, actorScope, actor).Ok?
    ensures var s := CanonicalCreation(session, actorScope, actor).value;
      CreationFingerprint(s).Ok? && CreationFingerprint(Run(s, events)) == CreationFingerprint(s)
  {
    hide CanonicalCreation, CanonicalSession, LifecycleFits, Run, Evolves;
    var s := CanonicalCreation(session, actorScope, actor).value;
    CreationIsHealthy(session, actorScope, actor);
    RunContinues(s, events);
    var t := Run(s, events);
    CanonicalIsIdempotent(s);
    CanonicalIsIdempotent(t);
    assert forall who :: Recorded(s.participants, who, 0) <==> Recorded(t.participants, who, 0) by {
      RecordedAtCreation(s, t);
    }
    SameOrigin(s.participants, t.participants);
    OriginOfAll(s.participants);
    OriginMembers(s.participants, s.initiator);
  }

  lemma RecordedAtCreation(s: Session, t: Session)
    requires Continues(s, t)
    ensures forall who :: Recorded(s.participants, who, 0) <==> Recorded(t.participants, who, 0)
  {
  }
}
