/** What an applied signal does to a Call, read off entries, phase and counters without naming the transition
    functions. */
module CallEffects {
  import opened Base
  import opened Ordering
  import opened CallSignalling
  import opened CallSafety

  /** `t` has the entries of `s`, except that the one of `who` is now `q`. */
  ghost predicate Replaces(s: Session, t: Session, who: PrincipalRef, q: Participant) {
    forall p :: p in t.participants <==> p == q || (p in s.participants && p.principal != who)
  }

  ghost predicate Answers(s: Session, t: Session, who: PrincipalRef, standing: Standing) {
    && (exists p :: p in s.participants && p.principal == who)
    && (forall p :: p in s.participants && p.principal == who ==> Replaces(s, t, who, p.(standing := standing)))
  }

  ghost predicate SameEntries(s: Session, t: Session) {
    forall p :: p in t.participants <==> p in s.participants
  }

  ghost predicate SameMedia(s: Session, t: Session) {
    t.mediaGeneration == s.mediaGeneration && t.mediaRef == s.mediaRef
  }

  /** After somebody dropped out the Call ends, for this reason, exactly when no remote participant is left. */
  ghost predicate EndsIfAlone(t: Session, why: Reason) {
    && (t.phase.Terminated? <==> !RemoteIn(t, Invited) && !RemoteIn(t, Alerted) && !RemoteIn(t, Accepted))
    && t.reason == if t.phase.Terminated? then Some(why) else None
  }

  /** The reconnecting owner, if it may stay, stays as long as some remote participant is still accepted. */
  ghost predicate OwnerStays(s: Session, t: Session, mayStay: bool) {
    t.reconnecting == if mayStay && RemoteIn(t, Accepted) then s.reconnecting else None
  }

  ghost predicate Ends(s: Session, t: Session, why: Reason) {
    SameEntries(s, t) && SameMedia(s, t) && t.phase.Terminated? && t.reason == Some(why) && t.reconnecting.None?
  }

  /** The meaning of each signal. `r` is the revision it creates. */
  ghost predicate Effect(s: Session, t: Session, actor: PrincipalRef, kind: SignalKind, r: u64) {
    match kind
    case SignalRinging =>
      && Answers(s, t, actor, Alerted) && SameMedia(s, t) && t.reconnecting == s.reconnecting
      && t.phase == if s.phase.Active? || s.phase.Reconnecting? then s.phase else Ringing
    case SignalAccept =>
      && Answers(s, t, actor, Accepted) && SameMedia(s, t) && t.reconnecting == s.reconnecting
      && t.phase == if s.phase.Reconnecting? then s.phase else Active
    case SignalReject =>
      Answers(s, t, actor, Rejected) && SameMedia(s, t) && EndsIfAlone(t, WasRejected) && OwnerStays(s, t, true)
    case SignalBusy =>
      Answers(s, t, actor, Busy) && SameMedia(s, t) && EndsIfAlone(t, WasBusy) && OwnerStays(s, t, true)
    case SignalCancel => Ends(s, t, Cancelled)
    case SignalTimeout => Ends(s, t, TimedOut)
    case ReconnectStarted =>
      SameEntries(s, t) && SameMedia(s, t) && t.phase.Reconnecting? && t.reconnecting == Some(actor)
    case ReconnectRestored => SameEntries(s, t) && SameMedia(s, t) && t.phase.Active? && t.reconnecting.None?
    case AddParticipant(target) =>
      && (forall p :: p in t.participants <==> p in s.participants || p == Participant(target, Invited, r, None))
      && SameMedia(s, t) && t.phase == s.phase && t.reconnecting == s.reconnecting
    case RemoveParticipant(target) =>
      && (exists p :: p in s.participants && p.principal == target)
      && (forall p :: p in s.participants && p.principal == target ==>
            Replaces(s, t, target, p.(standing := Left, left := Some(r))))
      && SameMedia(s, t) && EndsIfAlone(t, Completed) && OwnerStays(s, t, s.reconnecting != Some(target))
    case MediaRenegotiation(negotiation) =>
      && SameEntries(s, t) && t.phase == s.phase && t.reconnecting == s.reconnecting
      && t.mediaGeneration == s.mediaGeneration + 1 && t.mediaRef == Some(negotiation)
    case Terminate(why) => Ends(s, t, why)
  }

  lemma EntryIsReplaced(s: Session, at: nat, q: Participant)
    requires Distinct(s.participants) && at < |s.participants| && q.principal == s.participants[at].principal
    ensures var t := s.(participants := s.participants[at := q]);
      Replaces(s, t, q.principal, q)
    ensures forall p :: p in s.participants && p.principal == q.principal ==> p == s.participants[at]
  {
    UpdateFacts(s.participants, at, q);
  }

  lemma SettleEffect(s: Session, why: Reason)
    requires !s.phase.Terminated? && s.reason.None?
    ensures EndsIfAlone(Settle(s, why), why) && OwnerStays(s, Settle(s, why), true)
    ensures Settle(s, why).participants == s.participants && SameMedia(s, Settle(s, why))
  {
    SameRemotes(s, Settle(s, why));
    hide RemoteIn;
  }

  lemma AnswerEffect(s: Session, actor: PrincipalRef, standing: Standing, alertedMayAnswer: bool)
    requires Coherent(s) && InviteePosition(s, actor, alertedMayAnswer).Ok?
    ensures Answers(s, SetStanding(s, InviteePosition(s, actor, alertedMayAnswer).value, standing), actor, standing)
  {
    hide LifecycleFits, ValidParticipant;
    var at := InviteePosition(s, actor, alertedMayAnswer).value;
    var p := s.participants[at];
    EntryIsReplaced(s, at, p.(standing := standing));
    assert p in s.participants;
  }

  lemma DeclineEffect(s: Session, actor: PrincipalRef, standing: Standing, why: Reason)
    requires Coherent(s) && !s.phase.Terminated? && ApplyDecline(s, actor, standing, why).Ok?
    ensures var t := ApplyDecline(s, actor, standing, why).value;
      Answers(s, t, actor, standing) && SameMedia(s, t) && EndsIfAlone(t, why) && OwnerStays(s, t, true)
  {
    AnswerEffect(s, actor, standing, true);
    SettleEffect(SetStanding(s, InviteePosition(s, actor, true).value, standing), why);
    hide Settle, EndsIfAlone, InviteePosition;
  }

  lemma RemoveEffect(s: Session, actor: PrincipalRef, target: PrincipalRef, r: u64)
    requires Coherent(s) && !s.phase.Terminated? && ApplyRemove(s, actor, target, r).Ok?
    ensures Effect(s, ApplyRemove(s, actor, target, r).value, actor, RemoveParticipant(target), r)
  {
    hide Settle, EndsIfAlone, PhaseFits, ValidParticipant, RemoteIn, Replaces;
    var at := Find(s.participants, target).value;
    var p := s.participants[at];
    EntryIsReplaced(s, at, p.(standing := Left, left := Some(r)));
    var gone := MarkLeft(s, at, r);
    var freed := if gone.reconnecting == Some(target) then gone.(reconnecting := None, phase := Active) else gone;
    SettleEffect(freed, Completed);
    assert p in s.participants && p.principal == target;
    SameReplacement(s, gone, Settle(freed, Completed), target, p.(standing := Left, left := Some(r)));
  }

  lemma SameReplacement(s: Session, x: Session, t: Session, who: PrincipalRef, q: Participant)
    requires Replaces(s, x, who, q) && t.participants == x.participants
    ensures Replaces(s, t, who, q)
  {
  }

  lemma TransitionEffect(s: Session, actor: PrincipalRef, kind: SignalKind)
    requires Coherent(s) && !s.phase.Terminated? && CanAdvance(s) && Transition(s, actor, kind, s.revision + 1).Ok?
    ensures Effect(s, Transition(s, actor, kind, s.revision + 1).value, actor, kind, s.revision + 1)
  {
    hide Find, Settle, RemoteIn, InviteePosition, SetStanding, MarkLeft, Answers, EndsIfAlone;
    match kind
    case SignalRinging => RingingEffect(s, actor);
    case SignalAccept => AcceptEffect(s, actor);
    case SignalReject => DeclineEffect(s, actor, Rejected, WasRejected);
    case SignalBusy => DeclineEffect(s, actor, Busy, WasBusy);
    case RemoveParticipant(target) => RemoveEffect(s, actor, target, s.revision + 1);
    case _ =>
  }

  lemma RingingEffect(s: Session, actor: PrincipalRef)
    requires Coherent(s) && s.revision < U64_MAX && ApplyRinging(s, actor).Ok?
    ensures Effect(s, ApplyRinging(s, actor).value, actor, SignalRinging, s.revision + 1)
  {
    AnswerEffect(s, actor, Alerted, false);
    hide InviteePosition, Coherent;
  }

  lemma AcceptEffect(s: Session, actor: PrincipalRef)
    requires Coherent(s) && s.revision < U64_MAX && ApplyAccept(s, actor).Ok?
    ensures Effect(s, ApplyAccept(s, actor).value, actor, SignalAccept, s.revision + 1)
  {
    AnswerEffect(s, actor, Accepted, true);
    hide InviteePosition, Coherent;
  }

  lemma EffectIgnoresOrder(s: Session, x: Session, t: Session, actor: PrincipalRef, kind: SignalKind, r: u64)
    requires Effect(s, x, actor, kind, r)
    requires t == x.(participants := t.participants, revision := t.revision, generation := t.generation)
    requires forall p :: p in t.participants <==> p in x.participants
    ensures Effect(s, t, actor, kind, r)
  {
    SameRemotes(x, t);
    hide RemoteIn;
  }

  /** An applied signal is its transition, with the counters advanced and the participants put in order. */
  lemma AppliedSession(s: Session, actorScope: Scope, actor: PrincipalRef, signal: Signal)
    requires Coherent(s) && InOrder(s) && ApplySignal(s, actorScope, actor, signal).Ok?
    ensures CanAdvance(s) && !s.phase.Terminated? && Transition(s, actor, signal.kind, s.revision + 1).Ok?
    ensures var x := Transition(s, actor, signal.kind, s.revision + 1).value;
      ApplySignal(s, actorScope, actor, signal).value ==
        Advance(x, s).(participants := Sort(ParticipantLe, x.participants))
  {
    hide Coherent, InOrder, Transition, ActiveParticipant, CanonicalSession, Sort;
    CanonicalIsIdempotent(s);
    var x := Transition(s, actor, signal.kind, s.revision + 1).value;
    CanonicalMeansCoherent(Advance(x, s));
  }

  /** Every applied signal has exactly its meaning, and creates the next revision and generation. */
  lemma SignalEffect(s: Session, actorScope: Scope, actor: PrincipalRef, signal: Signal)
    requires Coherent(s) && InOrder(s) && ApplySignal(s, actorScope, actor, signal).Ok?
    ensures var t := ApplySignal(s, actorScope, actor, signal).value;
      && CanAdvance(s) && t.revision == s.revision + 1 && t.generation == s.generation + 1
      && Effect(s, t, actor, signal.kind, s.revision + 1)
  {
    hide Coherent, InOrder, Transition, Effect, ApplySignal, Sort, ParticipantLe;
    AppliedSession(s, actorScope, actor, signal);
    TransitionEffect(s, actor, signal.kind);
    var x := Transition(s, actor, signal.kind, s.revision + 1).value;
    SortKeepsMembers(ParticipantLe, x.participants);
    EffectIgnoresOrder(s, x, ApplySignal(s, actorScope, actor, signal).value, actor, signal.kind, s.revision + 1);
  }

  /** Reconciling a live group Call with its members does nothing when nobody was revoked; without the initiator
      it ends the Call and touches no entry; otherwise it marks exactly the revoked active entries as left now. */
  lemma ReconcileEffect(s: Session, members: seq<PrincipalRef>)
    requires Coherent(s) && InOrder(s) && IsGroup(s.conversation.kind) && !s.phase.Terminated? && CanAdvance(s)
    ensures ReconcileMembership(s, members).Ok?
    ensures var t := ReconcileMembership(s, members).value;
      if NobodyRevoked(s, members) then t == s
      else if s.initiator !in members then Ends(s, t, Completed)
      else LeavesOut(s, t, members) && SameMedia(s, t) && EndsIfAlone(t, Completed)
           && OwnerStays(s, t, s.reconnecting.None? || s.reconnecting.value in members)
  {
    hide CanonicalSession, Coherent, InOrder, NobodyRevoked, Settle, DropRevoked, Ends, EndsIfAlone, LeavesOut, Sort,
         ParticipantLe;
    CanonicalIsIdempotent(s);
    ReconcileNeverStrands(s, members);
    var x := WithoutRevoked(s, members, s.revision + 1);
    WithoutRevokedKeeps(s, members);
    CanonicalMeansCoherent(Advance(x, s));
    SortKeepsMembers(ParticipantLe, x.participants);
    if !NobodyRevoked(s, members) {
      var t := ReconcileMembership(s, members).value;
      assert t == Advance(x, s).(participants := t.participants);
      WithoutRevokedEffect(s, members);
      CarryOver(s, x, t, members);
    }
  }

  /** An entry after reconciliation: a revoked active one has left at the new revision. */
  ghost function Marked(s: Session, p: Participant, members: seq<PrincipalRef>): Participant
    requires s.revision < U64_MAX
  {
    if RevokedActive(s, p, members) then p.(standing := Left, left := Some(s.revision + 1)) else p
  }

  ghost predicate LeavesOut(s: Session, t: Session, members: seq<PrincipalRef>)
    requires s.revision < U64_MAX
  {
    forall q :: q in t.participants <==> exists p :: p in s.participants && q == Marked(s, p, members)
  }

  lemma DropLeavesOut(s: Session, members: seq<PrincipalRef>)
    requires s.revision < U64_MAX
    ensures LeavesOut(s, DropRevoked(s, members, s.revision + 1), members)
  {
    var ps, qs := s.participants, DropRevoked(s, members, s.revision + 1).participants;
    assert forall i :: 0 <= i < |ps| ==> qs[i] == Marked(s, ps[i], members);
    hide RevokedActive, Marked, DropRevoked;
    forall p | p in ps ensures Marked(s, p, members) in qs {
      var i :| 0 <= i < |ps| && ps[i] == p;
      assert qs[i] in qs;
    }
    forall q | q in qs ensures exists p :: p in ps && q == Marked(s, p, members) {
      var i :| 0 <= i < |qs| && qs[i] == q;
      assert ps[i] in ps;
    }
  }

  lemma WithoutRevokedEffect(s: Session, members: seq<PrincipalRef>)
    requires Coherent(s) && !s.phase.Terminated? && CanAdvance(s)
    ensures var x := WithoutRevoked(s, members, s.revision + 1);
      if s.initiator !in members then Ends(s, x, Completed)
      else LeavesOut(s, x, members) && SameMedia(s, x) && EndsIfAlone(x, Completed)
           && OwnerStays(s, x, s.reconnecting.None? || s.reconnecting.value in members)
  {
    assert s.reason.None?;
    hide Coherent, Settle, DropRevoked, EndsIfAlone;
    if s.initiator in members {
      DropLeavesOut(s, members);
      var dropped := DropRevoked(s, members, s.revision + 1);
      assert dropped == s.(participants := dropped.participants) by { OnlyEntriesDrop(s, members); }
      var freed := if s.reconnecting.Some? && s.reconnecting.value !in members
                   then dropped.(reconnecting := None, phase := Active) else dropped;
      SettleEffect(freed, Completed);
    }
  }

  lemma OnlyEntriesDrop(s: Session, members: seq<PrincipalRef>)
    requires s.revision < U64_MAX
    ensures var dropped := DropRevoked(s, members, s.revision + 1); dropped == s.(participants := dropped.participants)
  {
  }

  lemma CarryOver(s: Session, x: Session, t: Session, members: seq<PrincipalRef>)
    requires CanAdvance(s) && t == Advance(x, s).(participants := t.participants)
    requires forall p :: p in t.participants <==> p in x.participants
    ensures Ends(s, x, Completed) ==> Ends(s, t, Completed)
    ensures LeavesOut(s, x, members) ==> LeavesOut(s, t, members)
    ensures SameMedia(s, x) ==> SameMedia(s, t)
    ensures EndsIfAlone(x, Completed) ==> EndsIfAlone(t, Completed)
    ensures forall mayStay :: OwnerStays(s, x, mayStay) ==> OwnerStays(s, t, mayStay)
  {
    SameRemotes(x, t);
    hide RemoteIn, RevokedActive;
  }
}
