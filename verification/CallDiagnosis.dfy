/** The read-only structural checker over the stored Call tables: `tools/diagnose_local_call_state.py`. */
module CallDiagnosis {
  import opened Base

  /** A column value: bytes, SQL NULL, or a value of another type. */
  datatype Cell = Blob(bytes: seq<byte>) | Null | OtherType

  datatype CallKey = CallKey(tenant: string, namespacePresent: int, namespace: string, callId: string)

  datatype CallRow = CallRow(
    key: CallKey,
    initiatorId: string,
    initiatorKind: string,
    state: string,
    terminationReason: Option<string>,
    revision: Cell,
    generation: Cell,
    reconnectingId: Option<string>)

  datatype ParticipantRow = ParticipantRow(
    key: CallKey, id: string, kind: string, state: string, joined: Cell, left: Cell)

  datatype Issue =
    | InvalidRevisionEncoding
    | RevisionGenerationMismatch
    | ParticipantCountLessThanTwo
    | InitiatorNotAccepted
    | JoinedRevisionInFuture
    | LeftRevisionInFuture
    | InvalidInvitingParticipants
    | InvalidRingingParticipants
    | ActiveWithoutAcceptedRemote
    | TerminationReasonMismatch
    | ReconnectingOwnerMismatch

  /** `Crashed` is the uncaught conversion error of a participant revision. */
  datatype Diagnosis =
    | SchemaMissing
    | Crashed
    | Report(totalCalls: nat, issues: multiset<Issue>)
  {
    function ExitCode(): int {
      match this
      case SchemaMissing => 2
      case Crashed => 1
      case Report(_, issues) => if issues == multiset{} then 0 else 1
    }
  }

  function BigEndian(bytes: seq<byte>): nat {
    if bytes == [] then 0 else BigEndian(bytes[..|bytes| - 1]) * 256 + bytes[|bytes| - 1]
  }

  function ParticipantsOf(key: CallKey, table: seq<ParticipantRow>): (ps: seq<ParticipantRow>)
    ensures forall p :: p in ps <==> p in table && p.key == key
  {
    if table == [] then []
    else
      assert forall p :: p in table <==> p == table[0] || p in table[1..];
      (if table[0].key == key then [table[0]] else []) + ParticipantsOf(key, table[1..])
  }

  predicate IsInitiator(row: CallRow, p: ParticipantRow) {
    p.id == row.initiatorId && p.kind == row.initiatorKind
  }

  function InitiatorEntries(row: CallRow, ps: seq<ParticipantRow>): (r: seq<ParticipantRow>) {
    if ps == [] then []
    else (if IsInitiator(row, ps[0]) then [ps[0]] else []) + InitiatorEntries(row, ps[1..])
  }

  predicate RemoteState(row: CallRow, ps: seq<ParticipantRow>, state: string) {
    exists p | p in ps :: !IsInitiator(row, p) && p.state == state
  }

  predicate Decodes(row: CallRow) {
    row.revision.Blob? && row.generation.Blob?
  }

  predicate ParticipantDecodes(p: ParticipantRow) {
    p.joined.Blob? && !p.left.OtherType?
  }

  // ---- the violations, counted ------------------------------------------------------------------

  function When(violated: bool, issue: Issue): multiset<Issue> {
    if violated then multiset{issue} else multiset{}
  }

  function ParticipantIssues(p: ParticipantRow, revision: nat): multiset<Issue> {
    When(p.joined.Blob? && BigEndian(p.joined.bytes) > revision, JoinedRevisionInFuture)
    + When(p.left.Blob? && BigEndian(p.left.bytes) > revision, LeftRevisionInFuture)
  }

  function ParticipantsIssues(ps: seq<ParticipantRow>, revision: nat): multiset<Issue> {
    if ps == [] then multiset{}
    else ParticipantsIssues(ps[..|ps| - 1], revision) + ParticipantIssues(ps[|ps| - 1], revision)
  }

  predicate InitiatorMissing(row: CallRow, ps: seq<ParticipantRow>) {
    var origin := InitiatorEntries(row, ps);
    |origin| != 1 || origin[0].state != "accepted"
  }

  predicate InvitingBroken(row: CallRow, ps: seq<ParticipantRow>) {
    row.state == "inviting" &&
    (RemoteState(row, ps, "accepted") || RemoteState(row, ps, "ringing")
     || !(RemoteState(row, ps, "invited") || RemoteState(row, ps, "ringing")))
  }

  predicate RingingBroken(row: CallRow, ps: seq<ParticipantRow>) {
    row.state == "ringing" && (RemoteState(row, ps, "accepted") || !RemoteState(row, ps, "ringing"))
  }

  predicate ActiveBroken(row: CallRow, ps: seq<ParticipantRow>) {
    (row.state == "active" || row.state == "reconnecting") && !RemoteState(row, ps, "accepted")
  }

  predicate TerminationBroken(row: CallRow) {
    (row.state == "terminated") != row.terminationReason.Some?
  }

  predicate ReconnectBroken(row: CallRow) {
    (row.state == "reconnecting") != row.reconnectingId.Some?
  }

  function HeadIssues(row: CallRow, ps: seq<ParticipantRow>): multiset<Issue>
    requires Decodes(row)
  {
    When(BigEndian(row.revision.bytes) != BigEndian(row.generation.bytes), RevisionGenerationMismatch)
    + When(|ps| < 2, ParticipantCountLessThanTwo)
    + When(InitiatorMissing(row, ps), InitiatorNotAccepted)
  }

  function PhaseIssues(row: CallRow, ps: seq<ParticipantRow>): multiset<Issue> {
    When(InvitingBroken(row, ps), InvalidInvitingParticipants)
    + When(RingingBroken(row, ps), InvalidRingingParticipants)
    + When(ActiveBroken(row, ps), ActiveWithoutAcceptedRemote)
    + When(TerminationBroken(row), TerminationReasonMismatch)
    + When(ReconnectBroken(row), ReconnectingOwnerMismatch)
  }

  function RowIssues(row: CallRow, ps: seq<ParticipantRow>): multiset<Issue> {
    if !Decodes(row) then multiset{InvalidRevisionEncoding}
    else HeadIssues(row, ps) + ParticipantsIssues(ps, BigEndian(row.revision.bytes)) + PhaseIssues(row, ps)
  }

  function AllIssues(calls: seq<CallRow>, table: seq<ParticipantRow>): multiset<Issue> {
    if calls == [] then multiset{}
    else
      var last := calls[|calls| - 1];
      AllIssues(calls[..|calls| - 1], table) + RowIssues(last, ParticipantsOf(last.key, table))
  }

  ghost predicate RowCrashes(row: CallRow, table: seq<ParticipantRow>) {
    && row.revision.Blob? && row.generation.Blob?
    && exists p :: p in table && p.key == row.key && (!p.joined.Blob? || p.left.OtherType?)
  }

  ghost predicate RowFails(row: CallRow, ps: seq<ParticipantRow>) {
    Decodes(row) && exists p :: p in ps && !ParticipantDecodes(p)
  }

  lemma CrashesIs(row: CallRow, table: seq<ParticipantRow>)
    ensures RowCrashes(row, table) <==> RowFails(row, ParticipantsOf(row.key, table))
  {
  }

  predicate SchemaPresent(tables: set<string>) {
    {"calls", "call_participants"} <= tables
  }

  // ---- the program ------------------------------------------------------------------------------

  method CheckParticipant(p: ParticipantRow, revision: nat) returns (crashed: bool, errors: multiset<Issue>)
    ensures crashed <==> !ParticipantDecodes(p)
    ensures !crashed ==> errors == ParticipantIssues(p, revision)
  {
    hide BigEndian;
    crashed, errors := false, multiset{};
    if !p.joined.Blob? { return true, errors; }
    if BigEndian(p.joined.bytes) > revision { errors := errors + multiset{JoinedRevisionInFuture}; }
    if !p.left.Null? {
      if !p.left.Blob? { return true, errors; }
      if BigEndian(p.left.bytes) > revision { errors := errors + multiset{LeftRevisionInFuture}; }
    }
  }

  method CheckParticipants(ps: seq<ParticipantRow>, revision: nat) returns (crashed: bool, errors: multiset<Issue>)
    ensures crashed <==> exists p :: p in ps && !ParticipantDecodes(p)
    ensures !crashed ==> errors == ParticipantsIssues(ps, revision)
  {
    hide ParticipantIssues, ParticipantDecodes;
    crashed, errors := false, multiset{};
    for i := 0 to |ps|
      invariant forall p :: p in ps[..i] ==> ParticipantDecodes(p)
      invariant errors == ParticipantsIssues(ps[..i], revision)
      invariant !crashed
    {
      var found;
      crashed, found := CheckParticipant(ps[i], revision);
      assert ps[i] in ps;
      if crashed { return; }
      errors := errors + found;
      assert ps[..i + 1] == ps[..i] + [ps[i]] && ps[..i + 1][..i] == ps[..i];
    }
    assert ps[..|ps|] == ps;
  }

  method CheckHead(row: CallRow, ps: seq<ParticipantRow>) returns (errors: multiset<Issue>)
    requires Decodes(row)
    ensures errors == HeadIssues(row, ps)
  {
    hide BigEndian, InitiatorEntries;
    errors := multiset{};
    var revision, generation := BigEndian(row.revision.bytes), BigEndian(row.generation.bytes);
    if revision != generation { errors := errors + multiset{RevisionGenerationMismatch}; }
    if |ps| < 2 { errors := errors + multiset{ParticipantCountLessThanTwo}; }
    var origin := InitiatorEntries(row, ps);
    if |origin| != 1 || origin[0].state != "accepted" { errors := errors + multiset{InitiatorNotAccepted}; }
  }

  method CheckPhase(row: CallRow, ps: seq<ParticipantRow>) returns (errors: multiset<Issue>)
    ensures errors == PhaseIssues(row, ps)
  {
    hide RemoteState;
    errors := multiset{};
    var anyAccepted := RemoteState(row, ps, "accepted");
    var anyRinging := RemoteState(row, ps, "ringing");
    var anyPending := RemoteState(row, ps, "invited") || RemoteState(row, ps, "ringing");
    if row.state == "inviting" && (anyAccepted || anyRinging || !anyPending) {
      errors := errors + multiset{InvalidInvitingParticipants};
    }
    if row.state == "ringing" && (anyAccepted || !anyRinging) { errors := errors + multiset{InvalidRingingParticipants}; }
    if (row.state == "active" || row.state == "reconnecting") && !anyAccepted {
      errors := errors + multiset{ActiveWithoutAcceptedRemote};
    }
    if (row.state == "terminated") != row.terminationReason.Some? {
      errors := errors + multiset{TerminationReasonMismatch};
    }
    if (row.state == "reconnecting") != row.reconnectingId.Some? {
      errors := errors + multiset{ReconnectingOwnerMismatch};
    }
  }

  method CheckRow(row: CallRow, ps: seq<ParticipantRow>) returns (crashed: bool, errors: multiset<Issue>)
    ensures crashed <==> RowFails(row, ps)
    ensures !crashed ==> errors == RowIssues(row, ps)
  {
    hide HeadIssues, PhaseIssues, ParticipantsIssues, BigEndian, ParticipantDecodes;
    if !(row.revision.Blob? && row.generation.Blob?) {
      return false, multiset{InvalidRevisionEncoding};
    }
    errors := CheckHead(row, ps);
    var future;
    crashed, future := CheckParticipants(ps, BigEndian(row.revision.bytes));
    if crashed { return; }
    var phase := CheckPhase(row, ps);
    errors := errors + future + phase;
  }

  /** The whole run: it crashes exactly on an undecodable participant revision under a decodable row,
      and otherwise reports every violation of every row and participant, once each. */
  method Diagnose(tables: set<string>, calls: seq<CallRow>, table: seq<ParticipantRow>) returns (r: Diagnosis)
    ensures r.SchemaMissing? <==> "calls" !in tables || "call_participants" !in tables
    ensures r.Crashed? <==> !r.SchemaMissing? && exists row :: row in calls && RowCrashes(row, table)
    ensures r.Report? ==> r == Report(|calls|, AllIssues(calls, table))
    ensures r.Report? ==> forall issue :: r.issues[issue] == Total(calls, table, issue)
    ensures r.ExitCode() == match r case SchemaMissing => 2 case Crashed => 1 case Report(_, issues) => Once(|issues| > 0)
  {
    hide Total, RowCrashes, RowFails, RowIssues, ParticipantDecodes, Decodes;
    if !SchemaPresent(tables) { return SchemaMissing; }
    var errors := multiset{};
    for i := 0 to |calls|
      invariant forall row :: row in calls[..i] ==> !RowCrashes(row, table)
      invariant errors == AllIssues(calls[..i], table)
    {
      var row := calls[i];
      var crashed, found := CheckRow(row, ParticipantsOf(row.key, table));
      CrashesIs(row, table);
      if crashed { return Crashed; }
      errors := errors + found;
      assert calls[..i + 1][..i] == calls[..i];
    }
    assert calls[..|calls|] == calls;
    forall issue ensures AllIssues(calls, table)[issue] == Total(calls, table, issue) { ReportCounts(calls, table, issue); }
    return Report(|calls|, errors);
  }

  // ---- what exit code 0 means -------------------------------------------------------------------

  /** The listed invariants of one stored Call, stated without counting. */
  ghost predicate RowClean(row: CallRow, ps: seq<ParticipantRow>) {
    && Decodes(row)
    && BigEndian(row.revision.bytes) == BigEndian(row.generation.bytes)
    && |ps| >= 2
    && (exists i :: 0 <= i < |ps| && IsInitiator(row, ps[i]) && ps[i].state == "accepted"
          && forall j :: 0 <= j < |ps| && IsInitiator(row, ps[j]) ==> j == i)
    && (forall p :: p in ps && p.joined.Blob? ==> BigEndian(p.joined.bytes) <= BigEndian(row.revision.bytes))
    && (forall p :: p in ps && p.left.Blob? ==> BigEndian(p.left.bytes) <= BigEndian(row.revision.bytes))
    && (row.state == "inviting" ==>
          !RemoteState(row, ps, "accepted") && !RemoteState(row, ps, "ringing") && RemoteState(row, ps, "invited"))
    && (row.state == "ringing" ==> !RemoteState(row, ps, "accepted") && RemoteState(row, ps, "ringing"))
    && (row.state == "active" || row.state == "reconnecting" ==> RemoteState(row, ps, "accepted"))
    && (row.state == "terminated" <==> row.terminationReason.Some?)
    && (row.state == "reconnecting" <==> row.reconnectingId.Some?)
  }

  lemma {:induction false} EntriesCount(row: CallRow, ps: seq<ParticipantRow>)
    ensures var r := InitiatorEntries(row, ps);
      && (r == [] <==> forall p :: p in ps ==> !IsInitiator(row, p))
      && (forall p :: p in r ==> p in ps && IsInitiator(row, p))
  {
    if ps != [] {
      EntriesCount(row, ps[1..]);
      assert forall p :: p in ps <==> p == ps[0] || p in ps[1..];
    }
  }

  lemma {:induction false} SingleEntry(row: CallRow, ps: seq<ParticipantRow>, i: nat)
    requires i < |ps| && IsInitiator(row, ps[i])
    ensures InitiatorEntries(row, ps) == [ps[i]] <==> (forall j :: 0 <= j < |ps| && IsInitiator(row, ps[j]) ==> j == i)
    ensures |InitiatorEntries(row, ps)| == 1 ==> forall j :: 0 <= j < |ps| && IsInitiator(row, ps[j]) ==> j == i
  {
    EntriesCount(row, ps[1..]);
    if i == 0 {
      assert InitiatorEntries(row, ps) == [ps[0]] + InitiatorEntries(row, ps[1..]);
      if InitiatorEntries(row, ps[1..]) != [] {
        var p :| p in ps[1..] && IsInitiator(row, p);
        var j :| 0 <= j < |ps[1..]| && ps[1..][j] == p;
        assert IsInitiator(row, ps[j + 1]);
      }
    } else {
      SingleEntry(row, ps[1..], i - 1);
      assert forall j :: 0 < j < |ps| ==> ps[j] == ps[1..][j - 1];
      if IsInitiator(row, ps[0]) {
        assert ps[1..][i - 1] in ps[1..];
      } else {
        assert forall j :: 0 <= j < |ps[1..]| && IsInitiator(row, ps[1..][j]) ==> IsInitiator(row, ps[j + 1]);
      }
    }
  }

  lemma InitiatorReadingsAgree(row: CallRow, ps: seq<ParticipantRow>)
    ensures !InitiatorMissing(row, ps) <==>
      exists i :: 0 <= i < |ps| && IsInitiator(row, ps[i]) && ps[i].state == "accepted"
        && forall j :: 0 <= j < |ps| && IsInitiator(row, ps[j]) ==> j == i
  {
    EntriesCount(row, ps);
    if !InitiatorMissing(row, ps) {
      var p := InitiatorEntries(row, ps)[0];
      assert p in ps;
      var i :| 0 <= i < |ps| && ps[i] == p;
      SingleEntry(row, ps, i);
    }
    forall i | 0 <= i < |ps| && IsInitiator(row, ps[i]) { SingleEntry(row, ps, i); }
  }

  lemma {:induction false} NoFutureRevisions(ps: seq<ParticipantRow>, revision: nat)
    ensures ParticipantsIssues(ps, revision) == multiset{} <==>
      && (forall p :: p in ps && p.joined.Blob? ==> BigEndian(p.joined.bytes) <= revision)
      && (forall p :: p in ps && p.left.Blob? ==> BigEndian(p.left.bytes) <= revision)
  {
    if ps != [] {
      var init, last := ps[..|ps| - 1], ps[|ps| - 1];
      NoFutureRevisions(init, revision);
      assert forall p :: p in ps <==> p in init || p == last;
      assert ParticipantsIssues(ps, revision) == multiset{} <==>
        ParticipantsIssues(init, revision) == multiset{} && ParticipantIssues(last, revision) == multiset{};
      assert JoinedRevisionInFuture in multiset{JoinedRevisionInFuture};
      assert LeftRevisionInFuture in multiset{LeftRevisionInFuture};
    }
  }

  lemma SumIsEmpty(a: multiset<Issue>, b: multiset<Issue>)
    ensures a + b == multiset{} <==> a == multiset{} && b == multiset{}
  {
    assert |a + b| == |a| + |b|;
  }

  lemma WhenIsEmpty(a: multiset<Issue>, violated: bool, issue: Issue)
    ensures a + When(violated, issue) == multiset{} <==> a == multiset{} && !violated
  {
    SumIsEmpty(a, When(violated, issue));
    assert issue in multiset{issue};
  }

  lemma HeadIsEmpty(row: CallRow, ps: seq<ParticipantRow>)
    requires Decodes(row)
    ensures HeadIssues(row, ps) == multiset{} <==>
      BigEndian(row.revision.bytes) == BigEndian(row.generation.bytes) && |ps| >= 2 && !InitiatorMissing(row, ps)
  {
    hide BigEndian, InitiatorMissing;
    var a1 := When(BigEndian(row.revision.bytes) != BigEndian(row.generation.bytes), RevisionGenerationMismatch);
    assert a1 == multiset{} + a1;
    WhenIsEmpty(multiset{}, BigEndian(row.revision.bytes) != BigEndian(row.generation.bytes), RevisionGenerationMismatch);
    WhenIsEmpty(a1, |ps| < 2, ParticipantCountLessThanTwo);
    WhenIsEmpty(a1 + When(|ps| < 2, ParticipantCountLessThanTwo), InitiatorMissing(row, ps), InitiatorNotAccepted);
  }

  lemma PhaseIsEmpty(row: CallRow, ps: seq<ParticipantRow>)
    ensures PhaseIssues(row, ps) == multiset{} <==>
      && !InvitingBroken(row, ps) && !RingingBroken(row, ps) && !ActiveBroken(row, ps)
      && !TerminationBroken(row) && !ReconnectBroken(row)
  {
    hide InvitingBroken, RingingBroken, ActiveBroken, TerminationBroken, ReconnectBroken;
    var a1 := When(InvitingBroken(row, ps), InvalidInvitingParticipants);
    var a2 := a1 + When(RingingBroken(row, ps), InvalidRingingParticipants);
    var a3 := a2 + When(ActiveBroken(row, ps), ActiveWithoutAcceptedRemote);
    assert a1 == multiset{} + a1;
    WhenIsEmpty(multiset{}, InvitingBroken(row, ps), InvalidInvitingParticipants);
    WhenIsEmpty(a1, RingingBroken(row, ps), InvalidRingingParticipants);
    WhenIsEmpty(a2, ActiveBroken(row, ps), ActiveWithoutAcceptedRemote);
    WhenIsEmpty(a3, TerminationBroken(row), TerminationReasonMismatch);
    WhenIsEmpty(a3 + When(TerminationBroken(row), TerminationReasonMismatch), ReconnectBroken(row), ReconnectingOwnerMismatch);
  }

  /** A row is reported without issues exactly when it meets all the listed invariants. */
  lemma CleanExactlyWhenNoIssues(row: CallRow, ps: seq<ParticipantRow>)
    ensures RowIssues(row, ps) == multiset{} <==> RowClean(row, ps)
  {
    if !Decodes(row) {
      assert InvalidRevisionEncoding in RowIssues(row, ps);
    } else {
      var revision := BigEndian(row.revision.bytes);
      InitiatorReadingsAgree(row, ps);
      NoFutureRevisions(ps, revision);
      HeadIsEmpty(row, ps);
      PhaseIsEmpty(row, ps);
      hide BigEndian, RemoteState, InitiatorMissing, ParticipantsIssues, HeadIssues, PhaseIssues, IsInitiator;
      SumIsEmpty(HeadIssues(row, ps), ParticipantsIssues(ps, revision));
      SumIsEmpty(HeadIssues(row, ps) + ParticipantsIssues(ps, revision), PhaseIssues(row, ps));
    }
  }

  /** Exit code 0 is exactly: every row meets the invariants. */
  lemma {:induction false} ExitZeroMeansAllClean(calls: seq<CallRow>, table: seq<ParticipantRow>)
    ensures Report(|calls|, AllIssues(calls, table)).ExitCode() == 0 <==>
      forall row :: row in calls ==> RowClean(row, ParticipantsOf(row.key, table))
  {
    hide RowClean, RowIssues, ParticipantsOf;
    if calls != [] {
      var init, last := calls[..|calls| - 1], calls[|calls| - 1];
      ExitZeroMeansAllClean(init, table);
      CleanExactlyWhenNoIssues(last, ParticipantsOf(last.key, table));
      SumIsEmpty(AllIssues(init, table), RowIssues(last, ParticipantsOf(last.key, table)));
      assert forall row :: row in calls <==> row in init || row == last;
    }
  }

  /** For an issue-free Call in a live state the phase class is a function of the remote participants. */
  lemma PhaseClassIsDetermined(row: CallRow, ps: seq<ParticipantRow>)
    requires RowClean(row, ps)
    requires row.state in {"inviting", "ringing", "active", "reconnecting"}
    ensures row.state == "inviting" <==> !RemoteState(row, ps, "accepted") && !RemoteState(row, ps, "ringing")
    ensures row.state == "ringing" <==> !RemoteState(row, ps, "accepted") && RemoteState(row, ps, "ringing")
    ensures row.state in {"active", "reconnecting"} <==> RemoteState(row, ps, "accepted")
  {
    hide RemoteState, BigEndian, IsInitiator;
  }

  // ---- what each count means ----------------------------------------------------------------------

  ghost function Once(violated: bool): nat { if violated then 1 else 0 }

  ghost predicate Remote(row: CallRow, ps: seq<ParticipantRow>, state: string) {
    exists p :: p in ps && (p.id != row.initiatorId || p.kind != row.initiatorKind) && p.state == state
  }

  ghost predicate OneInitiator(row: CallRow, ps: seq<ParticipantRow>) {
    exists i :: 0 <= i < |ps| && ps[i].id == row.initiatorId && ps[i].kind == row.initiatorKind && ps[i].state == "accepted"
      && forall j :: 0 <= j < |ps| && ps[j].id == row.initiatorId && ps[j].kind == row.initiatorKind ==> j == i
  }

  ghost function JoinedLater(ps: seq<ParticipantRow>, revision: nat): set<nat> {
    set i | 0 <= i < |ps| && ps[i].joined.Blob? && BigEndian(ps[i].joined.bytes) > revision
  }

  ghost function LeftLater(ps: seq<ParticipantRow>, revision: nat): set<nat> {
    set i | 0 <= i < |ps| && ps[i].left.Blob? && BigEndian(ps[i].left.bytes) > revision
  }

  /** How often one Call violates what an issue stands for: once per row, or once per participant. */
  ghost function Violations(row: CallRow, ps: seq<ParticipantRow>, issue: Issue): nat {
    if !row.revision.Blob? || !row.generation.Blob? then Once(issue == InvalidRevisionEncoding)
    else
      var revision := BigEndian(row.revision.bytes);
      match issue
      case InvalidRevisionEncoding => 0
      case RevisionGenerationMismatch => Once(revision != BigEndian(row.generation.bytes))
      case ParticipantCountLessThanTwo => Once(|ps| < 2)
      case InitiatorNotAccepted => Once(!OneInitiator(row, ps))
      case JoinedRevisionInFuture => |JoinedLater(ps, revision)|
      case LeftRevisionInFuture => |LeftLater(ps, revision)|
      case InvalidInvitingParticipants => Once(row.state == "inviting" &&
        (Remote(row, ps, "accepted") || Remote(row, ps, "ringing") || !Remote(row, ps, "invited")))
      case InvalidRingingParticipants => Once(row.state == "ringing" &&
        (Remote(row, ps, "accepted") || !Remote(row, ps, "ringing")))
      case ActiveWithoutAcceptedRemote => Once((row.state == "active" || row.state == "reconnecting") &&
        !Remote(row, ps, "accepted"))
      case TerminationReasonMismatch => Once(row.state == "terminated" <==> row.terminationReason == None)
      case ReconnectingOwnerMismatch => Once(row.state == "reconnecting" <==> row.reconnectingId == None)
  }

  lemma RemoteIs(row: CallRow, ps: seq<ParticipantRow>, state: string)
    ensures RemoteState(row, ps, state) <==> Remote(row, ps, state)
  {
  }

  lemma WhenCounts(violated: bool, named: Issue, issue: Issue)
    ensures When(violated, named)[issue] == Once(violated && named == issue)
  {
  }

  lemma JoinedGrows(ps: seq<ParticipantRow>, revision: nat)
    requires ps != []
    ensures var init, p := ps[..|ps| - 1], ps[|ps| - 1];
      |JoinedLater(ps, revision)| ==
      |JoinedLater(init, revision)| + Once(p.joined.Blob? && BigEndian(p.joined.bytes) > revision)
  {
    hide BigEndian;
    var k := |ps| - 1;
    var later := JoinedLater(ps[..k], revision);
    assert JoinedLater(ps, revision) - {k} == later && k !in later;
  }

  lemma LeftGrows(ps: seq<ParticipantRow>, revision: nat)
    requires ps != []
    ensures var init, p := ps[..|ps| - 1], ps[|ps| - 1];
      |LeftLater(ps, revision)| ==
      |LeftLater(init, revision)| + Once(p.left.Blob? && BigEndian(p.left.bytes) > revision)
  {
    hide BigEndian;
    var k := |ps| - 1;
    var later := LeftLater(ps[..k], revision);
    assert LeftLater(ps, revision) - {k} == later && k !in later;
  }

  ghost function FutureViolations(ps: seq<ParticipantRow>, revision: nat, issue: Issue): nat {
    match issue
    case JoinedRevisionInFuture => |JoinedLater(ps, revision)|
    case LeftRevisionInFuture => |LeftLater(ps, revision)|
    case _ => 0
  }

  lemma ParticipantCounts(p: ParticipantRow, revision: nat, issue: Issue)
    ensures ParticipantIssues(p, revision)[issue]
      == Once(p.joined.Blob? && BigEndian(p.joined.bytes) > revision && issue == JoinedRevisionInFuture)
         + Once(p.left.Blob? && BigEndian(p.left.bytes) > revision && issue == LeftRevisionInFuture)
  {
    hide BigEndian;
  }

  lemma {:induction false} FutureCounts(ps: seq<ParticipantRow>, revision: nat, issue: Issue)
    ensures ParticipantsIssues(ps, revision)[issue] == FutureViolations(ps, revision, issue)
  {
    if ps != [] {
      hide BigEndian, JoinedLater, LeftLater, ParticipantIssues;
      FutureCounts(ps[..|ps| - 1], revision, issue);
      JoinedGrows(ps, revision);
      LeftGrows(ps, revision);
      ParticipantCounts(ps[|ps| - 1], revision, issue);
    }
  }

  lemma HeadCounts(row: CallRow, ps: seq<ParticipantRow>, issue: Issue)
    requires Decodes(row)
    ensures HeadIssues(row, ps)[issue] ==
      match issue
      case RevisionGenerationMismatch => Violations(row, ps, issue)
      case ParticipantCountLessThanTwo => Violations(row, ps, issue)
      case InitiatorNotAccepted => Violations(row, ps, issue)
      case _ => 0
  {
    InitiatorReadingsAgree(row, ps);
    hide BigEndian, InitiatorMissing;
  }

  lemma PhaseReadings(row: CallRow, ps: seq<ParticipantRow>)
    requires Decodes(row)
    ensures Once(InvitingBroken(row, ps)) == Violations(row, ps, InvalidInvitingParticipants)
    ensures Once(RingingBroken(row, ps)) == Violations(row, ps, InvalidRingingParticipants)
    ensures Once(ActiveBroken(row, ps)) == Violations(row, ps, ActiveWithoutAcceptedRemote)
    ensures Once(TerminationBroken(row)) == Violations(row, ps, TerminationReasonMismatch)
    ensures Once(ReconnectBroken(row)) == Violations(row, ps, ReconnectingOwnerMismatch)
  {
    RemoteIs(row, ps, "accepted");
    RemoteIs(row, ps, "ringing");
    RemoteIs(row, ps, "invited");
    hide BigEndian, RemoteState, Remote, OneInitiator;
  }

  ghost predicate OfPhase(issue: Issue) {
    || issue == InvalidInvitingParticipants || issue == InvalidRingingParticipants || issue == ActiveWithoutAcceptedRemote
    || issue == TerminationReasonMismatch || issue == ReconnectingOwnerMismatch
  }

  lemma PhaseSum(a: bool, b: bool, c: bool, d: bool, e: bool, issue: Issue)
    ensures (When(a, InvalidInvitingParticipants) + When(b, InvalidRingingParticipants)
             + When(c, ActiveWithoutAcceptedRemote) + When(d, TerminationReasonMismatch)
             + When(e, ReconnectingOwnerMismatch))[issue]
      == Once(a && issue == InvalidInvitingParticipants) + Once(b && issue == InvalidRingingParticipants)
         + Once(c && issue == ActiveWithoutAcceptedRemote) + Once(d && issue == TerminationReasonMismatch)
         + Once(e && issue == ReconnectingOwnerMismatch)
  {
    hide When;
    WhenCounts(a, InvalidInvitingParticipants, issue);
    WhenCounts(b, InvalidRingingParticipants, issue);
    WhenCounts(c, ActiveWithoutAcceptedRemote, issue);
    WhenCounts(d, TerminationReasonMismatch, issue);
    WhenCounts(e, ReconnectingOwnerMismatch, issue);
  }

  lemma PhaseIssuesAre(row: CallRow, ps: seq<ParticipantRow>, issue: Issue)
    ensures PhaseIssues(row, ps)[issue]
      == Once(InvitingBroken(row, ps) && issue == InvalidInvitingParticipants)
         + Once(RingingBroken(row, ps) && issue == InvalidRingingParticipants)
         + Once(ActiveBroken(row, ps) && issue == ActiveWithoutAcceptedRemote)
         + Once(TerminationBroken(row) && issue == TerminationReasonMismatch)
         + Once(ReconnectBroken(row) && issue == ReconnectingOwnerMismatch)
  {
    hide When, Once, InvitingBroken, RingingBroken, ActiveBroken, TerminationBroken, ReconnectBroken;
    PhaseSum(InvitingBroken(row, ps), RingingBroken(row, ps), ActiveBroken(row, ps), TerminationBroken(row),
             ReconnectBroken(row), issue);
  }

  lemma PhaseCounts(row: CallRow, ps: seq<ParticipantRow>, issue: Issue)
    requires Decodes(row)
    ensures PhaseIssues(row, ps)[issue] == if OfPhase(issue) then Violations(row, ps, issue) else 0
  {
    hide PhaseIssues, Violations, InvitingBroken, RingingBroken, ActiveBroken, TerminationBroken, ReconnectBroken;
    PhaseReadings(row, ps);
    PhaseIssuesAre(row, ps, issue);
  }

  lemma RowSplits(row: CallRow, ps: seq<ParticipantRow>, issue: Issue)
    requires Decodes(row)
    ensures RowIssues(row, ps)[issue] == HeadIssues(row, ps)[issue]
      + ParticipantsIssues(ps, BigEndian(row.revision.bytes))[issue] + PhaseIssues(row, ps)[issue]
  {
    hide HeadIssues, PhaseIssues, ParticipantsIssues, BigEndian;
  }

  lemma UndecodedRow(row: CallRow, ps: seq<ParticipantRow>, issue: Issue)
    requires !Decodes(row)
    ensures RowIssues(row, ps)[issue] == Violations(row, ps, issue)
  {
  }

  /** The issues of a row count, each under its own name, exactly its violations. */
  lemma RowCounts(row: CallRow, ps: seq<ParticipantRow>, issue: Issue)
    ensures RowIssues(row, ps)[issue] == Violations(row, ps, issue)
  {
    hide BigEndian, HeadIssues, PhaseIssues, ParticipantsIssues, RowIssues, Remote, OneInitiator, JoinedLater, LeftLater;
    if Decodes(row) {
      RowSplits(row, ps, issue);
      HeadCounts(row, ps, issue);
      PhaseCounts(row, ps, issue);
      FutureCounts(ps, BigEndian(row.revision.bytes), issue);
    } else {
      UndecodedRow(row, ps, issue);
    }
  }

  ghost function Total(calls: seq<CallRow>, table: seq<ParticipantRow>, issue: Issue): nat {
    if calls == [] then 0
    else Violations(calls[0], ParticipantsOf(calls[0].key, table), issue) + Total(calls[1..], table, issue)
  }

  lemma {:induction false} TotalGrows(calls: seq<CallRow>, table: seq<ParticipantRow>, row: CallRow, issue: Issue)
    ensures Total(calls + [row], table, issue) ==
      Total(calls, table, issue) + Violations(row, ParticipantsOf(row.key, table), issue)
  {
    hide Violations, ParticipantsOf;
    if calls != [] {
      assert (calls + [row])[1..] == calls[1..] + [row];
      TotalGrows(calls[1..], table, row, issue);
    } else {
      assert calls + [row] == [row] && [row][1..] == [];
    }
  }

  /** The report counts, under each issue's name, the violations of all Calls together. */
  lemma {:induction false} ReportCounts(calls: seq<CallRow>, table: seq<ParticipantRow>, issue: Issue)
    ensures AllIssues(calls, table)[issue] == Total(calls, table, issue)
  {
    hide Violations, RowIssues, ParticipantsOf, Total;
    if calls == [] {
      NoCallsNoTotal(table, issue);
    } else {
      var init, last := calls[..|calls| - 1], calls[|calls| - 1];
      ReportCounts(init, table, issue);
      RowCounts(last, ParticipantsOf(last.key, table), issue);
      TotalGrows(init, table, last, issue);
      assert init + [last] == calls;
    }
  }

  lemma NoCallsNoTotal(table: seq<ParticipantRow>, issue: Issue)
    ensures Total([], table, issue) == 0
  {
  }
}
