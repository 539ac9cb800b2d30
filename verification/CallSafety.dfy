/** What holds of every Call: the canonical form, that every transition keeps it, and what follows
    for whole runs of signals and membership changes. */
module CallSafety {
  import opened Base
  import opened Ordering
  import opened CallSignalling

  // ---- a declarative reading of the canonical form ---------------------------------------------

  ghost predicate Distinct(ps: seq<Participant>) {
    forall i, j :: 0 <= i < j < |ps| ==> ps[i].principal != ps[j].principal
  }

  ghost predicate Stands(ps: seq<Participant>, who: PrincipalRef, standing: Standing) {
    exists p :: p in ps && p.principal == who && p.standing == standing
  }

  ghost predicate PhaseFits(s: Session) {
    match s.phase
    case Inviting => !RemoteIn(s, Accepted) && !RemoteIn(s, Alerted) && RemoteIn(s, Invited)
    case Ringing => !RemoteIn(s, Accepted) && RemoteIn(s, Alerted)
    case Active => RemoteIn(s, Accepted)
    case Reconnecting => RemoteIn(s, Accepted)
    case Terminated => true
  }

  ghost predicate LifecycleFits(s: Session) {
    && (s.mediaGeneration == 0 <==> s.mediaRef.None?)
    && (s.phase.Reconnecting? <==> s.reconnecting.Some?)
    && (s.reconnecting.Some? ==> Stands(s.participants, s.reconnecting.value, Accepted))
    && PhaseFits(s)
    && (s.phase.Terminated? <==> s.reason.Some?)
  }

  ghost predicate Coherent(s: Session) {
    && IsCallConversation(s.conversation.kind)
    && 2 <= |s.participants| <= MAX_CALL_PARTICIPANTS
    && Distinct(s.participants)
    && (forall p :: p in s.participants ==> ValidParticipant(p, s.revision))
    && Stands(s.participants, s.initiator, Accepted)
    && LifecycleFits(s)
  }

  ghost predicate InOrder(s: Session) {
    SortedBy(ParticipantLe, s.participants)
  }

  // ---- participant lists -----------------------------------------------------------------------

  lemma PrincipalLeIsOrder()
    ensures TotalPreorder(PrincipalLe)
    ensures TotalPreorder(ParticipantLe)
    ensures forall a, b :: PrincipalLe(a, b) && PrincipalLe(b, a) ==> a == b
  {
    forall a, b ensures PrincipalLe(a, b) || PrincipalLe(b, a) { TextLeTotal(a.id, b.id); }
    forall a, b, c | PrincipalLe(a, b) && PrincipalLe(b, c) ensures PrincipalLe(a, c) {
      if a.id != b.id && b.id != c.id {
        TextLeTransitive(a.id, b.id, c.id);
        if a.id == c.id { TextLeAntisymmetric(a.id, b.id); }
      }
    }
    forall a, b | PrincipalLe(a, b) && PrincipalLe(b, a) ensures a == b {
      if a.id != b.id { TextLeAntisymmetric(a.id, b.id); }
    }
  }

  lemma FindUnique(ps: seq<Participant>, p: Participant)
    requires Distinct(ps) && p in ps
    ensures Find(ps, p.principal).Some? && ps[Find(ps, p.principal).value] == p
  {
    var i :| 0 <= i < |ps| && ps[i] == p;
    var j := Find(ps, p.principal);
    assert j.Some?;
  }

  lemma DistinctSurvivesPermutation(ps: seq<Participant>, qs: seq<Participant>)
    requires Distinct(ps) && multiset(ps) == multiset(qs)
    ensures Distinct(qs)
  {
    forall i, j | 0 <= i < j < |qs| ensures qs[i].principal != qs[j].principal {
      if qs[i] == qs[j] {
        assert qs == qs[..i] + [qs[i]] + qs[i + 1..j] + [qs[j]] + qs[j + 1..];
        assert multiset(qs)[qs[i]] >= 2;
        var a, b := CountTwo(ps, qs[i]);
      } else {
        assert qs[i] in multiset(ps) && qs[j] in multiset(ps);
      }
    }
  }

  lemma SortedRepeatsAreAdjacent(ps: seq<Participant>)
    requires SortedBy(ParticipantLe, ps)
    ensures AdjacentRepeat(ps) <==> !Distinct(ps)
  {
    PrincipalLeIsOrder();
    if !Distinct(ps) {
      var i, j :| 0 <= i < j < |ps| && ps[i].principal == ps[j].principal;
      assert ParticipantLe(ps[i], ps[i + 1]);
      if i + 1 < j { assert ParticipantLe(ps[i + 1], ps[j]); }
      assert ps[(i + 1) - 1].principal == ps[i + 1].principal;
    }
  }

  lemma SortFacts(ps: seq<Participant>)
    ensures var qs := Sort(ParticipantLe, ps);
      && |qs| == |ps| && SortedBy(ParticipantLe, qs)
      && (forall p :: p in qs <==> p in ps)
      && (Distinct(qs) <==> Distinct(ps))
      && (AdjacentRepeat(qs) <==> !Distinct(ps))
  {
    PrincipalLeIsOrder();
    var qs := Sort(ParticipantLe, ps);
    SortSorts(ParticipantLe, ps);
    SortKeepsMembers(ParticipantLe, ps);
    SortedRepeatsAreAdjacent(qs);
    if Distinct(ps) { DistinctSurvivesPermutation(ps, qs); }
    if Distinct(qs) { DistinctSurvivesPermutation(qs, ps); }
  }

  lemma SortedDistinctIsFixed(ps: seq<Participant>)
    requires SortedBy(ParticipantLe, ps) && Distinct(ps)
    ensures Sort(ParticipantLe, ps) == ps
  {
    PrincipalLeIsOrder();
    forall a, b | a in multiset(ps) && b in multiset(ps) && ParticipantLe(a, b) && ParticipantLe(b, a)
      ensures a == b
    {
      assert a.principal == b.principal;
      FindUnique(ps, a);
      FindUnique(ps, b);
    }
    SortedIsFixedBySort(ParticipantLe, ps);
  }

  lemma AcceptedNowIsStands(s: Session, ps: seq<Participant>, who: PrincipalRef)
    requires Distinct(ps) && (forall p :: p in ps ==> ValidParticipant(p, s.revision))
    ensures AcceptedNow(ps, who) <==> Stands(ps, who, Accepted)
  {
    if Stands(ps, who, Accepted) {
      var p :| p in ps && p.principal == who && p.standing == Accepted;
      FindUnique(ps, p);
    }
  }

  lemma CoherentIgnoresOrder(s: Session, qs: seq<Participant>)
    requires |qs| == |s.participants| && (forall p :: p in qs <==> p in s.participants)
    requires Distinct(qs) <==> Distinct(s.participants)
    ensures Coherent(s.(participants := qs)) <==> Coherent(s)
  {
    var c := s.(participants := qs);
    SameRemotes(s, c);
    assert forall who, standing :: Stands(qs, who, standing) <==> Stands(s.participants, who, standing);
  }

  lemma LifecycleReadingsAgree(c: Session)
    requires Distinct(c.participants) && (forall p :: p in c.participants ==> ValidParticipant(p, c.revision))
    ensures LifecycleFits(c) <==> !LifecycleBroken(c)
  {
    hide RemoteIn, Stands, AcceptedNow, Distinct, ValidParticipant;
    if c.reconnecting.Some? { AcceptedNowIsStands(c, c.participants, c.reconnecting.value); }
  }

  lemma SortedChecksMeanCoherent(s: Session, c: Session)
    requires c == s.(participants := Sort(ParticipantLe, s.participants))
    requires Distinct(c.participants) <==> !AdjacentRepeat(c.participants)
    ensures CanonicalSession(s).Ok? <==> Coherent(c)
    ensures CanonicalSession(s).Ok? ==> CanonicalSession(s).value == c
  {
    hide LifecycleFits, LifecycleBroken, Sort, AdjacentRepeat, Distinct, AcceptedNow, Stands, ValidParticipant;
    if Distinct(c.participants) && (forall p :: p in c.participants ==> ValidParticipant(p, c.revision)) {
      AcceptedNowIsStands(c, c.participants, c.initiator);
      LifecycleReadingsAgree(c);
    }
  }

  /** The two readings agree: the checks pass exactly on coherent sessions, and what they return is
      the same session with its participants put in order. */
  lemma CanonicalMeansCoherent(s: Session)
    ensures CanonicalSession(s).Ok? <==> Coherent(s)
    ensures CanonicalSession(s).Ok? ==>
      && CanonicalSession(s).value == s.(participants := Sort(ParticipantLe, s.participants))
      && Coherent(CanonicalSession(s).value) && InOrder(CanonicalSession(s).value)
  {
    var c := s.(participants := Sort(ParticipantLe, s.participants));
    SortFacts(s.participants);
    SortedChecksMeanCoherent(s, c);
    CoherentIgnoresOrder(s, c.participants);
  }

  lemma SameRemotes(s: Session, c: Session)
    requires s.initiator == c.initiator && (forall p :: p in s.participants <==> p in c.participants)
    ensures forall standing :: RemoteIn(s, standing) <==> RemoteIn(c, standing)
  {
  }

  lemma CanonicalIsIdempotent(s: Session)
    requires Coherent(s) && InOrder(s)
    ensures CanonicalSession(s) == Ok(s)
  {
    CanonicalMeansCoherent(s);
    SortedDistinctIsFixed(s.participants);
  }

  // ---- every transition keeps a session coherent -----------------------------------------------

  ghost predicate CanAdvance(s: Session) {
    s.revision < U64_MAX && s.generation < U64_MAX
  }

  ghost function Advance(next: Session, s: Session): Session
    requires CanAdvance(s)
  {
    next.(revision := s.revision + 1, generation := s.generation + 1)
  }

  /** Coherent except that the phase may not yet fit the participants. */
  ghost predicate Settleable(s: Session) {
    && IsCallConversation(s.conversation.kind)
    && 2 <= |s.participants| <= MAX_CALL_PARTICIPANTS
    && Distinct(s.participants)
    && (forall p :: p in s.participants ==> ValidParticipant(p, s.revision))
    && Stands(s.participants, s.initiator, Accepted)
    && (s.mediaGeneration == 0 <==> s.mediaRef.None?)
    && (s.phase.Reconnecting? <==> s.reconnecting.Some?)
    && (s.reconnecting.Some? ==> Stands(s.participants, s.reconnecting.value, Accepted))
    && !s.phase.Terminated? && s.reason.None?
  }

  lemma SettleIsCoherent(s: Session, why: Reason)
    requires Settleable(s)
    ensures Coherent(Settle(s, why))
  {
    AlertedIsRemote(s);
    SameRemotes(s, Settle(s, why));
    hide RemoteIn, Distinct, ValidParticipant, Stands;
  }

  lemma AlertedIsRemote(s: Session)
    requires Distinct(s.participants) && Stands(s.participants, s.initiator, Accepted)
    ensures RemoteIn(s, Alerted) <==> exists p :: p in s.participants && p.standing.Alerted?
  {
    var q :| q in s.participants && q.principal == s.initiator && q.standing == Accepted;
    FindUnique(s.participants, q);
    if p :| p in s.participants && p.standing.Alerted? { FindUnique(s.participants, p); }
  }

  lemma SettleAdvances(x: Session, s: Session, why: Reason)
    requires CanAdvance(s)
    ensures Advance(Settle(x, why), s) == Settle(Advance(x, s), why)
  {
    SameRemotes(x, Advance(x, s));
  }

  lemma UpdateFacts(ps: seq<Participant>, at: nat, q: Participant)
    requires Distinct(ps) && at < |ps| && q.principal == ps[at].principal
    ensures Distinct(ps[at := q])
    ensures forall p :: p in ps[at := q] <==> p == q || (p in ps && p.principal != q.principal)
  {
    var qs := ps[at := q];
    forall p ensures p in qs <==> p == q || (p in ps && p.principal != q.principal) {
      if p in ps && p.principal != q.principal {
        var i :| 0 <= i < |ps| && ps[i] == p;
        assert qs[i] == p;
      }
      if p in qs && p != q {
        var i :| 0 <= i < |qs| && qs[i] == p;
        assert ps[i] == p;
      }
      assert qs[at] == q;
    }
  }

  lemma ReplaceOne(s: Session, at: nat, q: Participant)
    requires Coherent(s) && !s.phase.Terminated? && CanAdvance(s)
    requires at < |s.participants| && q.principal == s.participants[at].principal != s.initiator
    requires ValidParticipant(q, s.revision + 1)
    requires s.reconnecting != Some(q.principal)
    ensures Settleable(Advance(s.(participants := s.participants[at := q]), s))
  {
    UpdateFacts(s.participants, at, q);
    var t := Advance(s.(participants := s.participants[at := q]), s);
    var o :| o in s.participants && o.principal == s.initiator && o.standing == Accepted;
    assert o in t.participants;
    if s.reconnecting.Some? {
      var r :| r in s.participants && r.principal == s.reconnecting.value && r.standing == Accepted;
      assert r in t.participants;
    }
  }

  lemma InviteeIsNotReconnecting(s: Session, at: nat)
    requires Coherent(s) && at < |s.participants| && !s.participants[at].standing.Accepted?
    ensures s.reconnecting != Some(s.participants[at].principal)
  {
    FindUnique(s.participants, s.participants[at]);
    forall r | r in s.participants && r.standing == Accepted ensures r.principal != s.participants[at].principal {
      FindUnique(s.participants, r);
    }
  }

  lemma RingingKeeps(s: Session, actor: PrincipalRef)
    requires Coherent(s) && !s.phase.Terminated? && CanAdvance(s) && ApplyRinging(s, actor).Ok?
    ensures Coherent(Advance(ApplyRinging(s, actor).value, s))
  {
    var at := Find(s.participants, actor).value;
    var q := s.participants[at].(standing := Alerted);
    InviteeIsNotReconnecting(s, at);
    ReplaceOne(s, at, q);
    UpdateFacts(s.participants, at, q);
    var t := Advance(ApplyRinging(s, actor).value, s);
    assert q in t.participants;
    if RemoteIn(s, Accepted) {
      var r :| r in s.participants && r.principal != s.initiator && r.standing == Accepted;
      FindUnique(s.participants, r);
      assert r in t.participants;
    }
  }

  lemma AcceptKeeps(s: Session, actor: PrincipalRef)
    requires Coherent(s) && !s.phase.Terminated? && CanAdvance(s) && ApplyAccept(s, actor).Ok?
    ensures Coherent(Advance(ApplyAccept(s, actor).value, s))
  {
    var at := Find(s.participants, actor).value;
    var q := s.participants[at].(standing := Accepted);
    InviteeIsNotReconnecting(s, at);
    ReplaceOne(s, at, q);
    UpdateFacts(s.participants, at, q);
    assert q in ApplyAccept(s, actor).value.participants;
  }

  lemma DeclineKeeps(s: Session, actor: PrincipalRef, standing: Standing, why: Reason)
    requires Coherent(s) && !s.phase.Terminated? && CanAdvance(s)
    requires standing.Rejected? || standing.Busy?
    requires ApplyDecline(s, actor, standing, why).Ok?
    ensures Coherent(Advance(ApplyDecline(s, actor, standing, why).value, s))
  {
    var at := Find(s.participants, actor).value;
    InviteeIsNotReconnecting(s, at);
    ReplaceOne(s, at, s.participants[at].(standing := standing));
    SettleAdvances(SetStanding(s, at, standing), s, why);
    SettleIsCoherent(Advance(SetStanding(s, at, standing), s), why);
  }

  lemma RemoveKeeps(s: Session, actor: PrincipalRef, target: PrincipalRef)
    requires Coherent(s) && !s.phase.Terminated? && CanAdvance(s)
    requires ApplyRemove(s, actor, target, s.revision + 1).Ok?
    ensures Coherent(Advance(ApplyRemove(s, actor, target, s.revision + 1).value, s))
  {
    var at := Find(s.participants, target).value;
    var q := s.participants[at].(standing := Left, left := Some(s.revision + 1));
    var free := if s.reconnecting == Some(target) then s.(reconnecting := None, phase := Active) else s;
    SameRemotes(s, free);
    assert Coherent(free);
    ReplaceOne(free, at, q);
    var x := free.(participants := s.participants[at := q]);
    SettleAdvances(x, s, Completed);
    SettleIsCoherent(Advance(x, s), Completed);
  }

  lemma AddKeeps(s: Session, actor: PrincipalRef, target: PrincipalRef)
    requires Coherent(s) && !s.phase.Terminated? && CanAdvance(s)
    requires ApplyAdd(s, actor, target, s.revision + 1).Ok?
    ensures Coherent(Advance(ApplyAdd(s, actor, target, s.revision + 1).value, s))
  {
    hide RemoteIn, Distinct, Stands, Find;
    var q := Participant(target, Invited, s.revision + 1, None);
    var t := Advance(ApplyAdd(s, actor, target, s.revision + 1).value, s);
    assert t.participants == s.participants + [q];
    AppendedIsDistinct(s.participants, q);
    AppendedStands(s, t, q);
    assert forall p :: p in t.participants <==> p in s.participants || p == q;
  }

  lemma AppendedIsDistinct(ps: seq<Participant>, q: Participant)
    requires Distinct(ps) && forall p :: p in ps ==> p.principal != q.principal
    ensures Distinct(ps + [q])
  {
  }

  /** A new invited entry leaves every standing and every other remote standing as it was. */
  lemma AppendedStands(s: Session, t: Session, q: Participant)
    requires t.participants == s.participants + [q] && t.initiator == s.initiator && q.standing == Invited
    ensures forall who, st :: Stands(s.participants, who, st) ==> Stands(t.participants, who, st)
    ensures forall st :: RemoteIn(s, st) ==> RemoteIn(t, st)
    ensures forall st :: st != Invited && RemoteIn(t, st) ==> RemoteIn(s, st)
  {
    assert forall p :: p in t.participants <==> p in s.participants || p == q;
  }

  lemma CloseKeeps(s: Session, why: Reason)
    requires Coherent(s) && CanAdvance(s)
    ensures Coherent(Advance(Close(s, why), s))
  {
    hide RemoteIn, Distinct;
  }

  lemma ReconnectKeeps(s: Session, actor: PrincipalRef, started: bool)
    requires Coherent(s) && CanAdvance(s) && ApplyReconnect(s, actor, started).Ok?
    ensures Coherent(Advance(ApplyReconnect(s, actor, started).value, s))
  {
    var t := Advance(ApplyReconnect(s, actor, started).value, s);
    SameRemotes(s, t);
    hide RemoteIn, Distinct;
    if started { assert Stands(s.participants, actor, Accepted); }
  }

  lemma MediaKeeps(s: Session, actor: PrincipalRef, negotiation: string)
    requires Coherent(s) && CanAdvance(s) && ApplyMedia(s, actor, negotiation).Ok?
    ensures Coherent(Advance(ApplyMedia(s, actor, negotiation).value, s))
  {
    var t := Advance(ApplyMedia(s, actor, negotiation).value, s);
    SameRemotes(s, t);
    hide RemoteIn, Distinct;
  }

  lemma TransitionKeeps(s: Session, actor: PrincipalRef, kind: SignalKind)
    requires Coherent(s) && !s.phase.Terminated? && CanAdvance(s)
    requires Transition(s, actor, kind, s.revision + 1).Ok?
    ensures Coherent(Advance(Transition(s, actor, kind, s.revision + 1).value, s))
  {
    hide Coherent;
    match kind
    case SignalRinging => RingingKeeps(s, actor);
    case SignalAccept => AcceptKeeps(s, actor);
    case SignalReject => DeclineKeeps(s, actor, Rejected, WasRejected);
    case SignalBusy => DeclineKeeps(s, actor, Busy, WasBusy);
    case AddParticipant(target) => AddKeeps(s, actor, target);
    case RemoveParticipant(target) => RemoveKeeps(s, actor, target);
    case ReconnectStarted => ReconnectKeeps(s, actor, true);
    case ReconnectRestored => ReconnectKeeps(s, actor, false);
    case MediaRenegotiation(negotiation) => MediaKeeps(s, actor, negotiation);
    case SignalCancel => CloseKeeps(s, Cancelled);
    case SignalTimeout => CloseKeeps(s, TimedOut);
    case Terminate(why) => CloseKeeps(s, why);
  }

  lemma DroppedEntries(s: Session, members: seq<PrincipalRef>, r: u64)
    requires Coherent(s) && r == s.revision + 1 && s.initiator in members
    ensures var dropped := DropRevoked(s, members, r);
      && dropped == s.(participants := dropped.participants)
      && |dropped.participants| == |s.participants| && Distinct(dropped.participants)
      && (forall p :: p in s.participants && !RevokedActive(s, p, members) ==> p in dropped.participants)
      && (forall q :: q in dropped.participants ==>
            ValidParticipant(q, r) && (ActiveStanding(q) ==> q.principal in members))
  {
    hide LifecycleFits;
    var ps, qs := s.participants, DropRevoked(s, members, r).participants;
    assert forall i :: 0 <= i < |ps| ==> qs[i].principal == ps[i].principal;
    forall p | p in ps && !RevokedActive(s, p, members) ensures p in qs {
      var i :| 0 <= i < |ps| && ps[i] == p;
      assert qs[i] == p;
    }
    forall q | q in qs ensures ValidParticipant(q, r) && (ActiveStanding(q) ==> q.principal in members) {
      var i :| 0 <= i < |qs| && qs[i] == q;
      assert ps[i] in ps;
    }
  }

  lemma DropRevokedFacts(s: Session, members: seq<PrincipalRef>)
    requires Coherent(s) && !s.phase.Terminated? && CanAdvance(s) && s.initiator in members
    ensures var dropped := DropRevoked(s, members, s.revision + 1);
      var freed := if s.reconnecting.Some? && s.reconnecting.value !in members
                   then dropped.(reconnecting := None, phase := Active) else dropped;
      && Settleable(Advance(freed, s))
      && (forall p :: p in s.participants && !RevokedActive(s, p, members) ==> p in dropped.participants)
      && (forall p :: p in dropped.participants && ActiveStanding(p) ==> p.principal in members)
  {
    DroppedEntries(s, members, s.revision + 1);
    hide DropRevoked, PhaseFits, ValidParticipant, ActiveStanding;
    var ps, qs := s.participants, DropRevoked(s, members, s.revision + 1).participants;
    var o :| o in ps && o.principal == s.initiator && o.standing == Accepted;
    assert o in qs;
    if s.reconnecting.Some? && s.reconnecting.value in members {
      var c :| c in ps && c.principal == s.reconnecting.value && c.standing == Accepted;
      assert c in qs;
    }
  }

  ghost predicate OnlyMembersActive(s: Session, members: seq<PrincipalRef>) {
    forall p :: p in s.participants && ActiveStanding(p) ==> p.principal in members
  }

  lemma WithoutRevokedKeeps(s: Session, members: seq<PrincipalRef>)
    requires Coherent(s) && !s.phase.Terminated? && CanAdvance(s)
    ensures var t := WithoutRevoked(s, members, s.revision + 1);
      Coherent(Advance(t, s)) && (t.phase.Terminated? || OnlyMembersActive(t, members))
  {
    hide Coherent, Settleable, RemoteIn, DropRevoked;
    if s.initiator !in members {
      CloseKeeps(s, Completed);
    } else {
      DropRevokedFacts(s, members);
      var dropped := DropRevoked(s, members, s.revision + 1);
      var freed := if s.reconnecting.Some? && s.reconnecting.value !in members
                   then dropped.(reconnecting := None, phase := Active) else dropped;
      SettleAdvances(freed, s, Completed);
      SettleIsCoherent(Advance(freed, s), Completed);
    }
  }

  lemma NobodyRevokedMeansMembers(s: Session, members: seq<PrincipalRef>)
    requires NobodyRevoked(s, members)
    ensures OnlyMembersActive(s, members)
  {
  }

  /** Membership revocation never strands a Call: reconciling a group Call succeeds unless the counters
      are exhausted, and afterwards the Call has ended or only members are active in it. */
  lemma ReconcileNeverStrands(s: Session, members: seq<PrincipalRef>)
    requires Coherent(s) && InOrder(s) && IsGroup(s.conversation.kind)
    ensures ReconcileMembership(s, members).Ok? || !CanAdvance(s)
    ensures ReconcileMembership(s, members).Ok? ==>
      var t := ReconcileMembership(s, members).value;
      && Coherent(t) && InOrder(t) && (t.phase.Terminated? || OnlyMembersActive(t, members))
      && (t == s || (t.revision == s.revision + 1 && t.generation == s.generation + 1))
  {
    hide CanonicalSession, WithoutRevoked, Coherent, InOrder, NobodyRevoked;
    CanonicalIsIdempotent(s);
    if !s.phase.Terminated? {
      if NobodyRevoked(s, members) {
        NobodyRevokedMeansMembers(s, members);
      } else if CanAdvance(s) {
        WithoutRevokedKeeps(s, members);
        var t := Advance(WithoutRevoked(s, members, s.revision + 1), s);
        CanonicalMeansCoherent(t);
        SortFacts(t.participants);
      }
    }
  }

  // ---- who may do what -------------------------------------------------------------------------

  /** Somebody who is invited, being alerted or in the Call. */
  ghost predicate TakesPart(s: Session, who: PrincipalRef) {
    Stands(s.participants, who, Invited) || Stands(s.participants, who, Alerted) || Stands(s.participants, who, Accepted)
  }

  /** The authority table of the state machine, read off standings and phase alone. */
  ghost predicate Allowed(s: Session, actor: PrincipalRef, kind: SignalKind) {
    var ps := s.participants;
    match kind
    case SignalRinging => Stands(ps, actor, Invited)
    case SignalAccept => Stands(ps, actor, Invited) || Stands(ps, actor, Alerted)
    case SignalReject => Stands(ps, actor, Invited) || Stands(ps, actor, Alerted)
    case SignalBusy => Stands(ps, actor, Invited) || Stands(ps, actor, Alerted)
    case SignalCancel => actor == s.initiator && (s.phase.Inviting? || s.phase.Ringing?)
    case SignalTimeout => actor == s.initiator && (s.phase.Inviting? || s.phase.Ringing?)
    case ReconnectStarted => Stands(ps, actor, Accepted) && s.phase.Active?
    case ReconnectRestored => s.reconnecting == Some(actor)
    case AddParticipant(target) =>
      && actor == s.initiator && |ps| < 1024
      && (forall p :: p in ps ==> p.principal != target)
    case RemoveParticipant(target) =>
      && target != s.initiator && (actor == s.initiator || actor == target)
      && TakesPart(s, target)
    case MediaRenegotiation(_) =>
      Stands(ps, actor, Accepted) && (s.phase.Active? || s.phase.Reconnecting?) && s.mediaGeneration < U64_MAX
    case Terminate(why) =>
      && (why.Completed? || why.Failed?)
      && (actor == s.initiator || (Stands(ps, actor, Accepted) && s.conversation.kind.Direct?))
  }

  lemma StandingAt(s: Session, who: PrincipalRef, standing: Standing)
    requires Coherent(s)
    ensures var at := Find(s.participants, who);
      Stands(s.participants, who, standing) <==> at.Some? && s.participants[at.value].standing == standing
  {
    if Stands(s.participants, who, standing) {
      var p :| p in s.participants && p.principal == who && p.standing == standing;
      FindUnique(s.participants, p);
    }
  }

  lemma TransitionAllowed(s: Session, actor: PrincipalRef, kind: SignalKind)
    requires Coherent(s) && !s.phase.Terminated? && CanAdvance(s)
    ensures Transition(s, actor, kind, s.revision + 1).Ok? <==> Allowed(s, actor, kind)
  {
    hide Find, Settle, SetStanding, MarkLeft;
    if kind.RemoveParticipant? {
      RemoveAllowed(s, actor, kind.target);
    } else {
      StandingAt(s, actor, Invited);
      StandingAt(s, actor, Alerted);
      StandingAt(s, actor, Accepted);
      StandingAt(s, s.initiator, Accepted);
    }
  }

  lemma RemoveAllowed(s: Session, actor: PrincipalRef, target: PrincipalRef)
    requires Coherent(s) && s.revision < U64_MAX
    ensures ApplyRemove(s, actor, target, s.revision + 1).Ok? <==> Allowed(s, actor, RemoveParticipant(target))
  {
    hide Settle, MarkLeft, PhaseFits;
    var at := Find(s.participants, target);
    if at.Some? {
      var p := s.participants[at.value];
      assert ValidParticipant(p, s.revision);
    }
    StandingAt(s, target, Invited);
    StandingAt(s, target, Alerted);
    StandingAt(s, target, Accepted);
  }

  lemma ActorIsActive(s: Session, actor: PrincipalRef)
    requires Coherent(s)
    ensures ActiveParticipant(s, actor) <==> TakesPart(s, actor)
  {
    StandingAt(s, actor, Invited);
    StandingAt(s, actor, Alerted);
    StandingAt(s, actor, Accepted);
    var at := Find(s.participants, actor);
    if at.Some? { assert ValidParticipant(s.participants[at.value], s.revision); }
    hide LifecycleFits, Stands;
  }

  /** Exactly when a signal is applied, and that the closing re-validation never refuses: every
      refusal is a failed guard of the authority table, never a broken session. */
  lemma SignalAppliesExactlyWhenAllowed(s: Session, actorScope: Scope, actor: PrincipalRef, signal: Signal)
    requires Coherent(s) && InOrder(s)
    ensures ApplySignal(s, actorScope, actor, signal).Ok? <==>
      && actorScope == s.scope && signal.scope == s.scope && signal.callId == s.callId
      && signal.expectedRevision == s.revision && !s.phase.Terminated?
      && TakesPart(s, actor)
      && CanAdvance(s)
      && Allowed(s, actor, signal.kind)
    ensures ApplySignal(s, actorScope, actor, signal).Ok? ==>
      var t := ApplySignal(s, actorScope, actor, signal).value;
      && Coherent(t) && InOrder(t)
      && t.revision == s.revision + 1 && t.generation == s.generation + 1
  {
    hide CanonicalSession, Transition, Allowed, Coherent, InOrder, ActiveParticipant, TakesPart;
    CanonicalIsIdempotent(s);
    ActorIsActive(s, actor);
    if !s.phase.Terminated? && CanAdvance(s) {
      TransitionAllowed(s, actor, signal.kind);
      var next := Transition(s, actor, signal.kind, s.revision + 1);
      if next.Ok? {
        TransitionKeeps(s, actor, signal.kind);
        CanonicalMeansCoherent(Advance(next.value, s));
      }
    }
  }
}
