/** How a Call is stored (`crates/ucr-storage-sqlite/src/call_store.rs`) and what the structural checker
    says about stored Calls: nothing about any Call the state machine can reach. */
module CallStorage {
  import opened Base
  import opened CallSignalling
  import opened CallSafety
  import opened CallRuns
  import D = CallDiagnosis

  function PhaseName(phase: Phase): string {
    match phase
    case Inviting => "inviting"
    case Ringing => "ringing"
    case Active => "active"
    case Reconnecting => "reconnecting"
    case Terminated => "terminated"
  }

  function StandingName(standing: Standing): string {
    match standing
    case Invited => "invited"
    case Alerted => "ringing"
    case Accepted => "accepted"
    case Rejected => "rejected"
    case Busy => "busy"
    case Left => "left"
  }

  function KindName(kind: PrincipalKind): string {
    match kind
    case Person => "person"
    case Device => "device"
    case ServiceAccount => "service_account"
    case AiAgent => "ai_agent"
    case Bot => "bot"
    case Organization => "organization"
    case Automation => "automation"
    case ExternalPlatform => "external_platform"
  }

  function ReasonName(reason: Reason): string {
    match reason
    case WasRejected => "rejected"
    case WasBusy => "busy"
    case Cancelled => "cancelled"
    case TimedOut => "timed_out"
    case Completed => "completed"
    case Failed => "failed"
  }

  function BigEndianBytes(x: nat, width: nat): (r: Bytes)
    ensures |r| == width
  {
    if width == 0 then [] else BigEndianBytes(x / 256, width - 1) + [x % 256]
  }

  function KeyOf(s: Session): D.CallKey {
    match s.scope.namespace
    case None => D.CallKey(s.scope.tenant, 0, "", s.callId)
    case Some(namespace) => D.CallKey(s.scope.tenant, 1, namespace, s.callId)
  }

  function RowOf(s: Session): D.CallRow {
    D.CallRow(
      KeyOf(s), s.initiator.id, KindName(s.initiator.kind), PhaseName(s.phase),
      if s.reason.Some? then Some(ReasonName(s.reason.value)) else None,
      D.Blob(BigEndianBytes(s.revision, 8)), D.Blob(BigEndianBytes(s.generation, 8)),
      if s.reconnecting.Some? then Some(s.reconnecting.value.id) else None)
  }

  function EntryOf(key: D.CallKey, p: Participant): D.ParticipantRow {
    D.ParticipantRow(
      key, p.principal.id, KindName(p.principal.kind), StandingName(p.standing),
      D.Blob(BigEndianBytes(p.joined, 8)),
      if p.left.Some? then D.Blob(BigEndianBytes(p.left.value, 8)) else D.Null)
  }

  function EntriesOf(s: Session): (rows: seq<D.ParticipantRow>)
    ensures |rows| == |s.participants|
    ensures forall i :: 0 <= i < |rows| ==> rows[i] == EntryOf(KeyOf(s), s.participants[i])
  {
    seq(|s.participants|, i requires 0 <= i < |s.participants| => EntryOf(KeyOf(s), s.participants[i]))
  }

  // ---- names and numbers survive storage ---------------------------------------------------------

  function Pow256(n: nat): nat {
    if n == 0 then 1 else 256 * Pow256(n - 1)
  }

  lemma {:induction false} BytesDecode(x: nat, width: nat)
    requires x < Pow256(width)
    ensures D.BigEndian(BigEndianBytes(x, width)) == x
  {
    if width > 0 {
      BytesDecode(x / 256, width - 1);
      var b := BigEndianBytes(x, width);
      assert b[..|b| - 1] == BigEndianBytes(x / 256, width - 1);
    }
  }

  /** The first byte weighs most. */
  lemma {:induction false} FirstByteWeighsMost(first: byte, rest: Bytes)
    ensures D.BigEndian([first] + rest) == first * Pow256(|rest|) + D.BigEndian(rest)
    decreases |rest|
  {
    var all := [first] + rest;
    if rest == [] {
      assert all[..0] == [];
    } else {
      var init, last := rest[..|rest| - 1], rest[|rest| - 1];
      assert all[..|all| - 1] == [first] + init && all[|all| - 1] == last;
      FirstByteWeighsMost(first, init);
      assert first * Pow256(|rest|) == first * Pow256(|init|) * 256;
    }
  }

  lemma RevisionDecodes(x: u64)
    ensures D.BigEndian(BigEndianBytes(x, 8)) == x
  {
    assert Pow256(8) == U64_MAX + 1 by {
      assert Pow256(2) == 65536;
      assert Pow256(4) == 65536 * 65536;
      assert Pow256(6) == 65536 * 65536 * 65536;
    }
    BytesDecode(x, 8);
  }

  lemma KindNamesDiffer(a: PrincipalKind, b: PrincipalKind)
    ensures KindName(a) == KindName(b) <==> a == b
  {
    assert |KindName(Person)| == 6 && |KindName(Device)| == 6 && KindName(Person)[0] != KindName(Device)[0];
    assert |KindName(ServiceAccount)| == 15 && |KindName(AiAgent)| == 8 && |KindName(Bot)| == 3;
    assert |KindName(Organization)| == 12 && |KindName(Automation)| == 10 && |KindName(ExternalPlatform)| == 17;
  }

  lemma StandingNamesDiffer(a: Standing, b: Standing)
    ensures StandingName(a) == StandingName(b) <==> a == b
  {
    assert |StandingName(Invited)| == 7 && |StandingName(Alerted)| == 7;
    assert StandingName(Invited)[0] != StandingName(Alerted)[0];
    assert |StandingName(Accepted)| == 8 && |StandingName(Rejected)| == 8;
    assert StandingName(Accepted)[0] != StandingName(Rejected)[0];
    assert |StandingName(Busy)| == 4 && |StandingName(Left)| == 4 && StandingName(Busy)[0] != StandingName(Left)[0];
  }

  lemma PhaseNamesDiffer(a: Phase, b: Phase)
    ensures PhaseName(a) == PhaseName(b) <==> a == b
  {
    assert |PhaseName(Inviting)| == 8 && |PhaseName(Ringing)| == 7 && |PhaseName(Active)| == 6;
    assert |PhaseName(Reconnecting)| == 12 && |PhaseName(Terminated)| == 10;
  }

  lemma InitiatorEntryIs(s: Session, p: Participant)
    ensures D.IsInitiator(RowOf(s), EntryOf(KeyOf(s), p)) <==> p.principal == s.initiator
  {
    KindNamesDiffer(p.principal.kind, s.initiator.kind);
  }

  lemma RemotesSurviveStorage(s: Session, standing: Standing)
    ensures D.RemoteState(RowOf(s), EntriesOf(s), StandingName(standing)) <==> RemoteIn(s, standing)
  {
    hide KindName, StandingName, BigEndianBytes, PhaseName, ReasonName, KeyOf, D.IsInitiator;
    var rows := EntriesOf(s);
    if RemoteIn(s, standing) {
      var p :| p in s.participants && p.principal != s.initiator && p.standing == standing;
      var i :| 0 <= i < |s.participants| && s.participants[i] == p;
      InitiatorEntryIs(s, p);
      assert rows[i] in rows;
    }
    if D.RemoteState(RowOf(s), rows, StandingName(standing)) {
      var r :| r in rows && !D.IsInitiator(RowOf(s), r) && r.state == StandingName(standing);
      var i :| 0 <= i < |rows| && rows[i] == r;
      InitiatorEntryIs(s, s.participants[i]);
      StandingNamesDiffer(s.participants[i].standing, standing);
      assert s.participants[i] in s.participants;
    }
  }

  // ---- what the checker sees, and what it does not ------------------------------------------------

  ghost predicate OneAcceptedInitiator(s: Session) {
    exists i :: 0 <= i < |s.participants| && s.participants[i].principal == s.initiator
      && s.participants[i].standing.Accepted?
      && forall j :: 0 <= j < |s.participants| && s.participants[j].principal == s.initiator ==> j == i
  }

  ghost predicate NothingFromTheFuture(s: Session) {
    forall p :: p in s.participants ==> p.joined <= s.revision && (p.left.Some? ==> p.left.value <= s.revision)
  }

  /** The part of a session that the checker inspects. */
  ghost predicate Inspected(s: Session) {
    && s.revision == s.generation
    && |s.participants| >= 2
    && OneAcceptedInitiator(s)
    && NothingFromTheFuture(s)
    && PhaseFits(s)
    && (s.phase.Terminated? <==> s.reason.Some?)
    && (s.phase.Reconnecting? <==> s.reconnecting.Some?)
  }

  /** The part it leaves to the runtime. */
  ghost predicate Uninspected(s: Session) {
    && IsCallConversation(s.conversation.kind)
    && |s.participants| <= MAX_CALL_PARTICIPANTS
    && Distinct(s.participants)
    && (forall p :: p in s.participants ==>
          (p.standing.Left? <==> p.left.Some?) && (p.left.Some? ==> p.joined <= p.left.value))
    && (s.mediaGeneration == 0 <==> s.mediaRef.None?)
    && (s.reconnecting.Some? ==> Stands(s.participants, s.reconnecting.value, Accepted))
  }

  lemma InitiatorSurvivesStorage(s: Session)
    ensures var row, rows := RowOf(s), EntriesOf(s);
      (exists i :: 0 <= i < |rows| && D.IsInitiator(row, rows[i]) && rows[i].state == "accepted"
          && forall j :: 0 <= j < |rows| && D.IsInitiator(row, rows[j]) ==> j == i)
      <==> OneAcceptedInitiator(s)
  {
    var row, rows := RowOf(s), EntriesOf(s);
    forall i | 0 <= i < |rows|
      ensures D.IsInitiator(row, rows[i]) <==> s.participants[i].principal == s.initiator
      ensures rows[i].state == "accepted" <==> s.participants[i].standing.Accepted?
    {
      InitiatorEntryIs(s, s.participants[i]);
      StandingNamesDiffer(s.participants[i].standing, Accepted);
      assert StandingName(Accepted) == "accepted";
    }
    hide KindName, StandingName, BigEndianBytes, PhaseName, ReasonName, KeyOf, D.IsInitiator;
  }

  lemma RevisionsSurviveStorage(s: Session)
    ensures var rows := EntriesOf(s);
      && (forall r :: r in rows && r.joined.Blob? ==> D.BigEndian(r.joined.bytes) <= s.revision)
      && (forall r :: r in rows && r.left.Blob? ==> D.BigEndian(r.left.bytes) <= s.revision)
      <==> NothingFromTheFuture(s)
    ensures forall r :: r in EntriesOf(s) ==> D.ParticipantDecodes(r)
  {
    hide BigEndianBytes, D.BigEndian, KindName, StandingName, KeyOf;
    var rows := EntriesOf(s);
    forall x: u64 ensures D.BigEndian(BigEndianBytes(x, 8)) == x { RevisionDecodes(x); }
    forall p | p in s.participants ensures EntryOf(KeyOf(s), p) in rows {
      var i :| 0 <= i < |s.participants| && s.participants[i] == p;
      assert rows[i] == EntryOf(KeyOf(s), p);
    }
    forall r | r in rows ensures exists p :: p in s.participants && r == EntryOf(KeyOf(s), p) {
      var i :| 0 <= i < |rows| && rows[i] == r;
      assert s.participants[i] in s.participants;
    }
  }

  lemma PhaseSurvivesStorage(s: Session)
    ensures var row, rows := RowOf(s), EntriesOf(s);
      && ((row.state == "inviting" ==>
             (!D.RemoteState(row, rows, "accepted") && !D.RemoteState(row, rows, "ringing") && D.RemoteState(row, rows, "invited")))
        && (row.state == "ringing" ==> !D.RemoteState(row, rows, "accepted") && D.RemoteState(row, rows, "ringing"))
        && (row.state == "active" || row.state == "reconnecting" ==> D.RemoteState(row, rows, "accepted"))
        <==> PhaseFits(s))
      && (row.state == "terminated" <==> s.phase.Terminated?)
      && (row.state == "reconnecting" <==> s.phase.Reconnecting?)
  {
    RemotesSurviveStorage(s, Invited);
    RemotesSurviveStorage(s, Alerted);
    RemotesSurviveStorage(s, Accepted);
    PhaseNamesDiffer(s.phase, Inviting);
    PhaseNamesDiffer(s.phase, Ringing);
    PhaseNamesDiffer(s.phase, Active);
    PhaseNamesDiffer(s.phase, Reconnecting);
    PhaseNamesDiffer(s.phase, Terminated);
    hide RemoteIn, D.RemoteState, BigEndianBytes, KindName, ReasonName, KeyOf, EntriesOf;
  }

  /** The checker passes a stored Call exactly when the inspected part of the session is in order. */
  lemma CheckerInspects(s: Session)
    ensures D.RowClean(RowOf(s), EntriesOf(s)) <==> Inspected(s)
  {
    InitiatorSurvivesStorage(s);
    RevisionsSurviveStorage(s);
    PhaseSurvivesStorage(s);
    RevisionDecodes(s.revision);
    RevisionDecodes(s.generation);
    hide D.BigEndian, BigEndianBytes, KindName, ReasonName, PhaseName, KeyOf, D.IsInitiator, D.RemoteState,
      OneAcceptedInitiator, NothingFromTheFuture, PhaseFits, EntryOf;
  }

  /** The exact gap between the checker and the canonical validation of the runtime. */
  lemma CheckerGap(s: Session)
    ensures D.RowClean(RowOf(s), EntriesOf(s)) && Uninspected(s) <==> Coherent(s) && s.revision == s.generation
  {
    hide D.RowClean, RowOf, EntriesOf, PhaseFits;
    CheckerInspects(s);
    if Distinct(s.participants) {
      if Stands(s.participants, s.initiator, Accepted) {
        var p :| p in s.participants && p.principal == s.initiator && p.standing == Accepted;
        var i :| 0 <= i < |s.participants| && s.participants[i] == p;
        assert OneAcceptedInitiator(s);
      }
    }
  }

  /** The gap is real: any newly created Call that records a media generation without a negotiation passes the
      checker, and the runtime refuses it. */
  lemma CheckerMissesMedia(session: Session, scope: Scope, actor: PrincipalRef, generation: u64)
    requires CanonicalCreation(session, scope, actor).Ok? && generation > 0
    ensures var t := CanonicalCreation(session, scope, actor).value.(mediaGeneration := generation);
      D.RowClean(RowOf(t), EntriesOf(t)) && !Coherent(t) && CanonicalSession(t).Err?
  {
    hide D.RowClean, RowOf, EntriesOf, CanonicalCreation, CanonicalSession;
    var s := CanonicalCreation(session, scope, actor).value;
    var t := s.(mediaGeneration := generation);
    CreationIsHealthy(session, scope, actor);
    UntouchedMedia(session, scope, actor);
    SameRemotes(s, t);
    CheckerGap(s);
    CheckerInspects(s);
    CheckerInspects(t);
    hide RemoteIn;
    assert Inspected(t);
    CanonicalMeansCoherent(t);
  }

  lemma UntouchedMedia(session: Session, scope: Scope, actor: PrincipalRef)
    requires CanonicalCreation(session, scope, actor).Ok?
    ensures CanonicalCreation(session, scope, actor).value.mediaRef.None?
  {
    hide CanonicalSession;
    CanonicalMeansCoherent(session);
  }

  // ---- whole stores -------------------------------------------------------------------------------

  function CallsTable(sessions: seq<Session>): (rows: seq<D.CallRow>)
    ensures |rows| == |sessions|
    ensures forall i :: 0 <= i < |rows| ==> rows[i] == RowOf(sessions[i])
  {
    seq(|sessions|, i requires 0 <= i < |sessions| => RowOf(sessions[i]))
  }

  function ParticipantsTable(sessions: seq<Session>): seq<D.ParticipantRow> {
    if sessions == [] then [] else EntriesOf(sessions[0]) + ParticipantsTable(sessions[1..])
  }

  lemma {:induction false} SelectSplits(key: D.CallKey, a: seq<D.ParticipantRow>, b: seq<D.ParticipantRow>)
    ensures D.ParticipantsOf(key, a + b) == D.ParticipantsOf(key, a) + D.ParticipantsOf(key, b)
  {
    if a == [] {
      assert a + b == b;
    } else {
      SelectSplits(key, a[1..], b);
      assert (a + b)[1..] == a[1..] + b && (a + b)[0] == a[0];
      var first, rest := [a[0]], D.ParticipantsOf(key, a[1..]);
      assert first + (rest + D.ParticipantsOf(key, b)) == (first + rest) + D.ParticipantsOf(key, b);
    }
  }

  lemma {:induction false} SelectAllOrNothing(key: D.CallKey, rows: seq<D.ParticipantRow>, own: D.CallKey)
    requires forall r :: r in rows ==> r.key == own
    ensures D.ParticipantsOf(key, rows) == if key == own then rows else []
  {
    if rows != [] {
      SelectAllOrNothing(key, rows[1..], own);
      assert rows == [rows[0]] + rows[1..];
    }
  }

  ghost predicate DistinctKeys(sessions: seq<Session>) {
    forall i, j :: 0 <= i < j < |sessions| ==> KeyOf(sessions[i]) != KeyOf(sessions[j])
  }

  lemma {:induction false} SelectForeign(key: D.CallKey, sessions: seq<Session>)
    requires forall t :: t in sessions ==> KeyOf(t) != key
    ensures D.ParticipantsOf(key, ParticipantsTable(sessions)) == []
  {
    hide KeyOf, EntryOf;
    if sessions != [] {
      SelectForeign(key, sessions[1..]);
      SelectSplits(key, EntriesOf(sessions[0]), ParticipantsTable(sessions[1..]));
      EntriesCarryKey(sessions[0]);
      SelectAllOrNothing(key, EntriesOf(sessions[0]), KeyOf(sessions[0]));
    }
  }

  lemma EntriesCarryKey(s: Session)
    ensures forall r :: r in EntriesOf(s) ==> r.key == KeyOf(s)
  {
  }

  lemma {:induction false} SelectOwn(sessions: seq<Session>, i: nat)
    requires DistinctKeys(sessions) && i < |sessions|
    ensures D.ParticipantsOf(KeyOf(sessions[i]), ParticipantsTable(sessions)) == EntriesOf(sessions[i])
  {
    hide KeyOf, EntryOf;
    var key := KeyOf(sessions[i]);
    var head, rest := sessions[0], sessions[1..];
    SelectSplits(key, EntriesOf(head), ParticipantsTable(rest));
    EntriesCarryKey(head);
    SelectAllOrNothing(key, EntriesOf(head), KeyOf(head));
    if i == 0 {
      SelectForeign(key, rest);
    } else {
      SelectOwn(rest, i - 1);
    }
  }

  /** A session some accepted creation can become after some run. */
  ghost predicate Reachable(t: Session) {
    exists session: Session, scope: Scope, actor: PrincipalRef, events: seq<Event> ::
      CanonicalCreation(session, scope, actor).Ok? && t == Run(CanonicalCreation(session, scope, actor).value, events)
  }

  lemma ReachableIsInspected(t: Session)
    requires Reachable(t)
    ensures Healthy(t) && Inspected(t)
  {
    hide CanonicalCreation, Run, LifecycleFits;
    var session, scope, actor, events :|
      CanonicalCreation(session, scope, actor).Ok? && t == Run(CanonicalCreation(session, scope, actor).value, events);
    CreationIsHealthy(session, scope, actor);
    RunContinues(CanonicalCreation(session, scope, actor).value, events);
    CheckerGap(t);
    CheckerInspects(t);
  }

  /** No false alarms: over a store of any number of reachable Calls the checker neither crashes nor
      reports an issue. */
  method DiagnoseReachable(sessions: seq<Session>) returns (r: D.Diagnosis)
    requires DistinctKeys(sessions) && forall t :: t in sessions ==> Reachable(t)
    ensures r.ExitCode() == 0 && r == D.Report(|sessions|, multiset{})
  {
    var calls, table := CallsTable(sessions), ParticipantsTable(sessions);
    hide Reachable, D.RowClean, RowOf, EntriesOf, Inspected, D.Decodes, DistinctKeys, ParticipantsTable;
    r := D.Diagnose({"calls", "call_participants"}, calls, table);
    forall row | row in calls
      ensures D.RowClean(row, D.ParticipantsOf(row.key, table)) && !D.RowCrashes(row, table)
    {
      var i :| 0 <= i < |calls| && calls[i] == row;
      var t := sessions[i];
      assert row.key == KeyOf(t) by { RowKey(t); }
      SelectOwn(sessions, i);
      ReachableIsInspected(t);
      CheckerInspects(t);
      RevisionsSurviveStorage(t);
    }
    D.ExitZeroMeansAllClean(calls, table);
  }

  lemma RowKey(s: Session)
    ensures RowOf(s).key == KeyOf(s)
  {
  }
}
