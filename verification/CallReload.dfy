/** Reading a Call back from its stored rows: `crates/ucr-storage-sqlite/src/call_store.rs`. What loads is exactly what
    was stored, and nothing else loads. Which texts are ids, and the conversation table, are parameters. */
module CallReload {
  import opened Base
  import opened Ordering
  import opened CallSignalling
  import opened CallSafety
  import opened CallRuns
  import opened CallStorage
  import opened CallFingerprint
  import opened CallVerdicts
  import D = CallDiagnosis

  datatype Fault = Corrupt | InvalidRecord | Full | Denied | Conflict | Internal

  /** One row of the table of Calls. */
  datatype CallRecord = CallRecord(
    key: D.CallKey, conversationId: string, conversationKind: string, initiatorId: string, initiatorKind: string,
    fingerprint: Bytes, state: string, reconnectingId: Option<string>, reconnectingKind: Option<string>,
    mediaRef: Option<string>, mediaGeneration: D.Cell, generation: D.Cell, revision: D.Cell, reason: Option<string>)

  type IdRule = string -> bool
  type Digest = Bytes -> Bytes
  type Conversations = (Scope, string) -> Option<Conversation>

  // ---- reading columns --------------------------------------------------------------------------

  function ReadId(ok: IdRule, text: string): Result<string, Fault> { if ok(text) then Ok(text) else Err(Corrupt) }

  function ReadKind(text: string): Result<PrincipalKind, Fault> {
    if text == "person" then Ok(Person)
    else if text == "device" then Ok(Device)
    else if text == "service_account" then Ok(ServiceAccount)
    else if text == "ai_agent" then Ok(AiAgent)
    else if text == "bot" then Ok(Bot)
    else if text == "organization" then Ok(Organization)
    else if text == "automation" then Ok(Automation)
    else if text == "external_platform" then Ok(ExternalPlatform)
    else Err(Corrupt)
  }

  function ReadStanding(text: string): Result<Standing, Fault> {
    if text == "invited" then Ok(Invited)
    else if text == "ringing" then Ok(Alerted)
    else if text == "accepted" then Ok(Accepted)
    else if text == "rejected" then Ok(Rejected)
    else if text == "busy" then Ok(Busy)
    else if text == "left" then Ok(Left)
    else Err(Corrupt)
  }

  function ReadPhase(text: string): Result<Phase, Fault> {
    if text == "inviting" then Ok(Inviting)
    else if text == "ringing" then Ok(Ringing)
    else if text == "active" then Ok(Active)
    else if text == "reconnecting" then Ok(Reconnecting)
    else if text == "terminated" then Ok(Terminated)
    else Err(Corrupt)
  }

  function ReadReason(text: string): Result<Reason, Fault> {
    if text == "rejected" then Ok(WasRejected)
    else if text == "busy" then Ok(WasBusy)
    else if text == "cancelled" then Ok(Cancelled)
    else if text == "timed_out" then Ok(TimedOut)
    else if text == "completed" then Ok(Completed)
    else if text == "failed" then Ok(Failed)
    else Err(Corrupt)
  }

  function ConversationName(kind: ConversationKind): string {
    match kind
    case Direct => "direct"
    case PrivateGroup => "private_group"
    case PublicGroup => "public_group"
    case _ => "invalid"
  }

  function ReadConversationKind(text: string): Result<ConversationKind, Fault> {
    if text == "direct" then Ok(Direct)
    else if text == "private_group" then Ok(PrivateGroup)
    else if text == "public_group" then Ok(PublicGroup)
    else Err(Corrupt)
  }

  lemma {:induction false} DecodedIsSmall(bytes: Bytes)
    ensures D.BigEndian(bytes) < Pow256(|bytes|)
    decreases |bytes|
  {
    if bytes != [] { DecodedIsSmall(bytes[..|bytes| - 1]); }
  }

  function ReadCounter(bytes: Bytes): Result<u64, Fault> {
    if |bytes| != 8 then Err(Corrupt)
    else
      DecodedIsSmall(bytes);
      WidthEight();
      Ok(D.BigEndian(bytes))
  }

  // Every column reads as a value exactly when it is what is written for that value.

  lemma KindReads(text: string, kind: PrincipalKind)
    ensures ReadKind(text) == Ok(kind) <==> text == KindName(kind)
  {
    KindNamesDiffer(Person, Device);
    assert |"person"| == 6 && |"device"| == 6 && |"service_account"| == 15 && |"ai_agent"| == 8 && |"bot"| == 3;
    assert |"organization"| == 12 && |"automation"| == 10 && |"external_platform"| == 17;
  }

  lemma StandingReads(text: string, standing: Standing)
    ensures ReadStanding(text) == Ok(standing) <==> text == StandingName(standing)
  {
    StandingNamesDiffer(Invited, Alerted);
    StandingNamesDiffer(Accepted, Rejected);
    StandingNamesDiffer(Busy, Left);
    assert |"invited"| == |"ringing"| == 7 && |"accepted"| == |"rejected"| == 8 && |"busy"| == |"left"| == 4;
  }

  lemma PhaseReads(text: string, phase: Phase)
    ensures ReadPhase(text) == Ok(phase) <==> text == PhaseName(phase)
  {
    assert |"inviting"| == 8 && |"ringing"| == 7 && |"active"| == 6 && |"reconnecting"| == 12 && |"terminated"| == 10;
  }

  lemma ReasonReads(text: string, why: Reason)
    ensures ReadReason(text) == Ok(why) <==> text == ReasonName(why)
  {
    assert |"rejected"| == 8 && |"busy"| == 4 && |"cancelled"| == |"timed_out"| == |"completed"| == 9 && |"failed"| == 6;
    assert "cancelled"[1] != "timed_out"[1] && "cancelled"[1] != "completed"[1] && "timed_out"[1] != "completed"[1];
  }

  lemma ConversationReads(text: string, kind: ConversationKind)
    ensures ReadConversationKind(text) == Ok(kind) <==> text == ConversationName(kind) && IsCallConversation(kind)
  {
    assert |"direct"| == 6 && |"private_group"| == 13 && |"public_group"| == 12 && |"invalid"| == 7;
  }

  lemma {:induction false} EncodedAgain(bytes: Bytes)
    ensures BigEndianBytes(D.BigEndian(bytes), |bytes|) == bytes
    decreases |bytes|
  {
    if bytes != [] {
      var init, last := bytes[..|bytes| - 1], bytes[|bytes| - 1];
      EncodedAgain(init);
      assert D.BigEndian(bytes) / 256 == D.BigEndian(init) && D.BigEndian(bytes) % 256 == last;
      assert bytes == init + [last];
    }
  }

  lemma CounterReads(bytes: Bytes, x: u64)
    ensures ReadCounter(bytes) == Ok(x) <==> bytes == BigEndianBytes(x, 8)
  {
    RevisionDecodes(x);
    if |bytes| == 8 { EncodedAgain(bytes); }
    hide D.BigEndian, BigEndianBytes;
  }

  // ---- reading participants ---------------------------------------------------------------------

  function ReadEntry(ok: IdRule, row: D.ParticipantRow): Result<Participant, Fault> {
    if !row.joined.Blob? || row.left.OtherType? then Err(Internal)
    else
      var id :- ReadId(ok, row.id);
      var kind :- ReadKind(row.kind);
      var standing :- ReadStanding(row.state);
      var joined :- ReadCounter(row.joined.bytes);
      if row.left.Null? then Ok(Participant(PrincipalRef(id, kind), standing, joined, None))
      else
        var left :- ReadCounter(row.left.bytes);
        Ok(Participant(PrincipalRef(id, kind), standing, joined, Some(left)))
  }

  ghost predicate AllRead(ok: IdRule, rows: seq<D.ParticipantRow>, ps: seq<Participant>) {
    |ps| == |rows| && forall i :: 0 <= i < |rows| ==> ReadEntry(ok, rows[i]) == Ok(ps[i])
  }

  ghost predicate FailsFirst(ok: IdRule, rows: seq<D.ParticipantRow>, i: nat, e: Fault) {
    && i < |rows| && ReadEntry(ok, rows[i]) == Err(e)
    && forall j :: 0 <= j < i ==> ReadEntry(ok, rows[j]).Ok?
  }

  function ReadEntries(ok: IdRule, rows: seq<D.ParticipantRow>): (r: Result<seq<Participant>, Fault>)
    ensures r.Ok? ==> AllRead(ok, rows, r.value)
    ensures r.Err? ==> exists i :: FailsFirst(ok, rows, i, r.error)
    decreases |rows|
  {
    if rows == [] then Ok([])
    else
      var init := ReadEntries(ok, rows[..|rows| - 1]);
      if init.Err? then
        assert exists i :: FailsFirst(ok, rows, i, init.error) by {
          var i: nat :| FailsFirst(ok, rows[..|rows| - 1], i, init.error);
          assert FailsFirst(ok, rows, i, init.error);
        }
        init
      else
        var last := ReadEntry(ok, rows[|rows| - 1]);
        if last.Err? then
          assert FailsFirst(ok, rows, |rows| - 1, last.error);
          Err(last.error)
        else Ok(init.value + [last.value])
  }

  method LoadParticipants(ok: IdRule, rows: seq<D.ParticipantRow>) returns (r: Result<seq<Participant>, Fault>)
    ensures r == ReadEntries(ok, rows)
  {
    hide ReadEntry;
    var participants := [];
    for i := 0 to |rows|
      invariant ReadEntries(ok, rows[..i]) == Ok(participants)
    {
      assert rows[..i + 1][..i] == rows[..i];
      var read := ReadEntry(ok, rows[i]);
      if read.Err? {
        FirstFailure(ok, rows, i);
        return Err(read.error);
      }
      participants := participants + [read.value];
    }
    assert rows[..|rows|] == rows;
    return Ok(participants);
  }

  lemma {:induction false} FirstFailure(ok: IdRule, rows: seq<D.ParticipantRow>, i: nat)
    requires i < |rows| && ReadEntries(ok, rows[..i]).Ok? && ReadEntry(ok, rows[i]).Err?
    ensures ReadEntries(ok, rows) == Err(ReadEntry(ok, rows[i]).error)
    decreases |rows|
  {
    hide ReadEntry;
    var init := rows[..|rows| - 1];
    if i < |rows| - 1 {
      assert init[..i] == rows[..i];
      FirstFailure(ok, init, i);
    } else {
      assert init == rows[..i];
    }
  }

  lemma EntryReads(ok: IdRule, row: D.ParticipantRow, p: Participant)
    ensures ReadEntry(ok, row) == Ok(p) <==> row == EntryOf(row.key, p) && ok(p.principal.id)
  {
    hide ReadKind, ReadStanding, ReadCounter, KindName, StandingName, BigEndianBytes;
    KindReads(row.kind, p.principal.kind);
    StandingReads(row.state, p.standing);
    if row.joined.Blob? { CounterReads(row.joined.bytes, p.joined); }
    if row.left.Blob? && p.left.Some? { CounterReads(row.left.bytes, p.left.value); }
  }

  // ---- reading a Call ---------------------------------------------------------------------------

  function KeyFor(scope: Scope, callId: string): D.CallKey {
    match scope.namespace
    case None => D.CallKey(scope.tenant, 0, "", callId)
    case Some(namespace) => D.CallKey(scope.tenant, 1, namespace, callId)
  }

  function ReadPrincipal(ok: IdRule, id: string, kind: string): Result<PrincipalRef, Fault> {
    var id :- ReadId(ok, id);
    var kind :- ReadKind(kind);
    Ok(PrincipalRef(id, kind))
  }

  function ReadReconnecting(ok: IdRule, id: Option<string>, kind: Option<string>): Result<Option<PrincipalRef>, Fault> {
    if id.None? && kind.None? then Ok(None)
    else if id.None? || kind.None? then Err(Corrupt)
    else
      var owner :- ReadPrincipal(ok, id.value, kind.value);
      Ok(Some(owner))
  }

  function ReadMediaRef(ok: IdRule, text: Option<string>): Result<Option<string>, Fault> {
    if text.None? then Ok(None)
    else
      var id :- ReadId(ok, text.value);
      Ok(Some(id))
  }

  function ReadOptionalReason(text: Option<string>): Result<Option<Reason>, Fault> {
    if text.None? then Ok(None)
    else
      var why :- ReadReason(text.value);
      Ok(Some(why))
  }

  /** The columns that change during a Call. */
  datatype Progress = Progress(
    phase: Phase, reconnecting: Option<PrincipalRef>, mediaRef: Option<string>, mediaGeneration: u64, generation: u64,
    revision: u64, reason: Option<Reason>)

  function ReadProgress(ok: IdRule, record: CallRecord): Result<Progress, Fault>
    requires record.mediaGeneration.Blob? && record.generation.Blob? && record.revision.Blob?
  {
    var phase :- ReadPhase(record.state);
    var reconnecting :- ReadReconnecting(ok, record.reconnectingId, record.reconnectingKind);
    var mediaRef :- ReadMediaRef(ok, record.mediaRef);
    var mediaGeneration :- ReadCounter(record.mediaGeneration.bytes);
    var generation :- ReadCounter(record.generation.bytes);
    var revision :- ReadCounter(record.revision.bytes);
    var reason :- ReadOptionalReason(record.reason);
    Ok(Progress(phase, reconnecting, mediaRef, mediaGeneration, generation, revision, reason))
  }

  /** The session a record and its participant rows spell. */
  function ReadSession(ok: IdRule, persisted: Conversations, record: CallRecord, rows: seq<D.ParticipantRow>,
                       scope: Scope, callId: string): Result<Session, Fault>
  {
    if !record.mediaGeneration.Blob? || !record.generation.Blob? || !record.revision.Blob? then Err(Internal)
    else
      var conversationId :- ReadId(ok, record.conversationId);
      var conversationKind :- ReadConversationKind(record.conversationKind);
      var conversation := Conversation(conversationId, conversationKind);
      if persisted(scope, conversationId) != Some(conversation) then Err(Corrupt)
      else
        var initiator :- ReadPrincipal(ok, record.initiatorId, record.initiatorKind);
        var participants :- ReadEntries(ok, rows);
        var p :- ReadProgress(ok, record);
        Ok(Session(scope, callId, conversation, initiator, participants, p.phase, p.reconnecting, p.mediaRef,
                   p.mediaGeneration, p.generation, p.revision, p.reason))
  }

  function FaultOf(e: SignalError): Fault {
    match e
    case PermissionDenied => Denied
    case RevisionMismatch => Conflict
    case InvalidTransition => Conflict
    case ParticipantAlreadyExists => Conflict
    case WouldRemoveInitiator => Conflict
    case TooManyParticipants => Full
    case _ => InvalidRecord
  }

  predicate RowLe(a: D.ParticipantRow, b: D.ParticipantRow) {
    if a.id == b.id then TextLe(a.kind, b.kind) else TextLe(a.id, b.id)
  }

  /** The participant rows of one Call as the query returns them. */
  function RowsOf(key: D.CallKey, table: seq<D.ParticipantRow>): seq<D.ParticipantRow> {
    Sort(RowLe, D.ParticipantsOf(key, table))
  }

  function FindRecord(calls: seq<CallRecord>, key: D.CallKey): (r: Option<CallRecord>)
    ensures r.Some? ==> r.value in calls && r.value.key == key
    ensures r.None? ==> forall c :: c in calls ==> c.key != key
  {
    if calls == [] then None
    else if calls[0].key == key then Some(calls[0])
    else FindRecord(calls[1..], key)
  }

  /** A session is handed out only if it is well-formed and its creation fact has the recorded fingerprint. */
  function Checked(h: Digest, session: Session, fingerprint: Bytes): Result<Session, Fault> {
    var canonical := CanonicalSession(session);
    if canonical.Err? then Err(FaultOf(canonical.error))
    else if |fingerprint| != 32 then Err(Corrupt)
    else
      var fact := CreationFingerprint(canonical.value);
      if fact.Err? then Err(FaultOf(fact.error))
      else if fingerprint != CreationPrint(h, fact.value) then Err(Corrupt)
      else Ok(canonical.value)
  }

  function Load(h: Digest, ok: IdRule, persisted: Conversations, calls: seq<CallRecord>, table: seq<D.ParticipantRow>,
                scope: Scope, callId: string): Result<Option<Session>, Fault>
  {
    var key := KeyFor(scope, callId);
    var record := FindRecord(calls, key);
    if record.None? then Ok(None)
    else
      var session :- ReadSession(ok, persisted, record.value, RowsOf(key, table), scope, callId);
      var checked :- Checked(h, session, record.value.fingerprint);
      Ok(Some(checked))
  }

  /** Why a session that was read is not handed out: it is too large or not well-formed, or it is not the Call that was
      recorded. */
  lemma RefusedBecause(h: Digest, s: Session, fingerprint: Bytes)
    ensures Checked(h, s, fingerprint).Err? ==>
      Checked(h, s, fingerprint).error ==
      if CanonicalSession(s) == Err(TooManyParticipants) then Full
      else if CanonicalSession(s).Err? || (|fingerprint| == 32 && CreationFingerprint(s).Err?) then InvalidRecord
      else Corrupt
  {
    hide CanonicalSession, CreationFingerprint, CreationPrint, StoryFits, Distinct, Stands, AllDatesFit, SameInOrder;
    CanonicalVerdict(s);
    if CanonicalSession(s).Ok? {
      SameFact(s);
      FactRefusal(s);
    }
  }

  lemma SameFact(s: Session)
    requires CanonicalSession(s).Ok?
    ensures CreationFingerprint(CanonicalSession(s).value) == CreationFingerprint(s)
  {
    hide CanonicalSession;
    CanonicalMeansCoherent(s);
    CanonicalIsIdempotent(CanonicalSession(s).value);
    hide Coherent, InOrder, Sort, ParticipantLe;
  }

  lemma FactRefusal(s: Session)
    requires CanonicalSession(s).Ok?
    ensures CreationFingerprint(s).Err? ==> CreationFingerprint(s).error == InvalidSession
  {
    hide CanonicalSession;
  }

  // ---- what is written --------------------------------------------------------------------------

  /** The record of a session, with the fingerprint taken at its creation. */
  function RecordOf(s: Session, fingerprint: Bytes): CallRecord {
    CallRecord(
      KeyOf(s), s.conversation.id, ConversationName(s.conversation.kind), s.initiator.id, KindName(s.initiator.kind),
      fingerprint, PhaseName(s.phase),
      if s.reconnecting.Some? then Some(s.reconnecting.value.id) else None,
      if s.reconnecting.Some? then Some(KindName(s.reconnecting.value.kind)) else None,
      s.mediaRef, D.Blob(BigEndianBytes(s.mediaGeneration, 8)), D.Blob(BigEndianBytes(s.generation, 8)),
      D.Blob(BigEndianBytes(s.revision, 8)), if s.reason.Some? then Some(ReasonName(s.reason.value)) else None)
  }

  ghost predicate IdsFit(ok: IdRule, s: Session) {
    && ok(s.conversation.id) && ok(s.initiator.id)
    && (s.reconnecting.Some? ==> ok(s.reconnecting.value.id)) && (s.mediaRef.Some? ==> ok(s.mediaRef.value))
  }

  lemma KeyIs(s: Session)
    ensures KeyOf(s) == KeyFor(s.scope, s.callId)
  {
  }

  lemma PrincipalReads(ok: IdRule, id: string, kind: string, p: PrincipalRef)
    ensures ReadPrincipal(ok, id, kind) == Ok(p) <==> id == p.id && kind == KindName(p.kind) && ok(p.id)
  {
    KindReads(kind, p.kind);
    hide ReadKind, KindName;
  }

  lemma ReconnectingReads(ok: IdRule, id: Option<string>, kind: Option<string>, owner: Option<PrincipalRef>)
    ensures ReadReconnecting(ok, id, kind) == Ok(owner) <==>
      && id == (if owner.Some? then Some(owner.value.id) else None)
      && kind == (if owner.Some? then Some(KindName(owner.value.kind)) else None)
      && (owner.Some? ==> ok(owner.value.id))
  {
    hide ReadPrincipal, KindName;
    if id.Some? && kind.Some? {
      if owner.Some? { PrincipalReads(ok, id.value, kind.value, owner.value); }
    }
  }

  lemma ReasonColumnReads(text: Option<string>, reason: Option<Reason>)
    ensures ReadOptionalReason(text) == Ok(reason) <==> text == if reason.Some? then Some(ReasonName(reason.value)) else None
  {
    hide ReadReason, ReasonName;
    if text.Some? && reason.Some? { ReasonReads(text.value, reason.value); }
  }

  lemma EntriesRead(ok: IdRule, rows: seq<D.ParticipantRow>, ps: seq<Participant>)
    ensures ReadEntries(ok, rows) == Ok(ps) <==> AllRead(ok, rows, ps)
  {
    hide ReadEntry;
    var r := ReadEntries(ok, rows);
    if AllRead(ok, rows, ps) && r.Ok? { assert r.value == ps; }
  }

  ghost function ProgressOf(s: Session): Progress {
    Progress(s.phase, s.reconnecting, s.mediaRef, s.mediaGeneration, s.generation, s.revision, s.reason)
  }

  ghost predicate ShowsProgress(record: CallRecord, s: Session) {
    var written := RecordOf(s, record.fingerprint);
    && record.state == written.state && record.reconnectingId == written.reconnectingId
    && record.reconnectingKind == written.reconnectingKind && record.mediaRef == written.mediaRef
    && record.mediaGeneration == written.mediaGeneration && record.generation == written.generation
    && record.revision == written.revision && record.reason == written.reason
  }

  lemma ProgressReads(ok: IdRule, record: CallRecord, s: Session)
    requires record.mediaGeneration.Blob? && record.generation.Blob? && record.revision.Blob?
    ensures ReadProgress(ok, record) == Ok(ProgressOf(s)) <==>
      && ShowsProgress(record, s)
      && (s.reconnecting.Some? ==> ok(s.reconnecting.value.id)) && (s.mediaRef.Some? ==> ok(s.mediaRef.value))
  {
    PhaseReads(record.state, s.phase);
    ReconnectingReads(ok, record.reconnectingId, record.reconnectingKind, s.reconnecting);
    ReasonColumnReads(record.reason, s.reason);
    CounterReads(record.mediaGeneration.bytes, s.mediaGeneration);
    CounterReads(record.generation.bytes, s.generation);
    CounterReads(record.revision.bytes, s.revision);
    hide ReadPhase, PhaseName, ReadReconnecting, ReadOptionalReason, ReasonName, KindName, ReadCounter, BigEndianBytes,
      KeyOf, ConversationName;
  }

  lemma ProgressOnly(record: CallRecord, s: Session)
    ensures record == RecordOf(s, record.fingerprint) <==>
      && record.key == KeyOf(s) && record.conversationId == s.conversation.id
      && record.conversationKind == ConversationName(s.conversation.kind)
      && record.initiatorId == s.initiator.id && record.initiatorKind == KindName(s.initiator.kind)
      && ShowsProgress(record, s)
  {
    hide PhaseName, ReasonName, KindName, BigEndianBytes, KeyOf, ConversationName;
  }

  /** A record spells a session exactly when it is the record of that session. */
  lemma SessionReads(ok: IdRule, persisted: Conversations, record: CallRecord, rows: seq<D.ParticipantRow>, s: Session)
    requires record.key == KeyFor(s.scope, s.callId)
    ensures ReadSession(ok, persisted, record, rows, s.scope, s.callId) == Ok(s) <==>
      && record == RecordOf(s, record.fingerprint) && AllRead(ok, rows, s.participants) && IdsFit(ok, s)
      && IsCallConversation(s.conversation.kind) && persisted(s.scope, s.conversation.id) == Some(s.conversation)
  {
    KeyIs(s);
    ProgressOnly(record, s);
    ConversationReads(record.conversationKind, s.conversation.kind);
    PrincipalReads(ok, record.initiatorId, record.initiatorKind, s.initiator);
    EntriesRead(ok, rows, s.participants);
    if record.mediaGeneration.Blob? && record.generation.Blob? && record.revision.Blob? { ProgressReads(ok, record, s); }
    assert ShowsProgress(record, s) ==>
      record.mediaGeneration.Blob? && record.generation.Blob? && record.revision.Blob?;
    hide ReadConversationKind, ConversationName, ReadPrincipal, ReadEntries, AllRead, ReadProgress, ShowsProgress, RecordOf,
      KindName, KeyOf, KeyFor, IsCallConversation;
  }

  // ---- what loads is exactly what was stored ----------------------------------------------------

  /** The store holds `t` under its key: its record with the fingerprint of its own creation fact, its participant rows
      in any order, and its conversation. */
  ghost predicate Holds(h: Digest, persisted: Conversations, calls: seq<CallRecord>, table: seq<D.ParticipantRow>, t: Session) {
    && CreationFingerprint(t).Ok? && |CreationPrint(h, CreationFingerprint(t).value)| == 32
    && FindRecord(calls, KeyOf(t)) == Some(RecordOf(t, CreationPrint(h, CreationFingerprint(t).value)))
    && multiset(D.ParticipantsOf(KeyOf(t), table)) == multiset(EntriesOf(t))
    && persisted(t.scope, t.conversation.id) == Some(t.conversation)
  }

  ghost predicate AllIdsFit(ok: IdRule, s: Session) {
    IdsFit(ok, s) && forall p :: p in s.participants ==> ok(p.principal.id)
  }

  lemma EntriesAreMapped(s: Session)
    ensures EntriesOf(s) == Mapped(p => EntryOf(KeyOf(s), p), s.participants)
  {
    hide EntryOf, KeyOf;
  }

  lemma SortsTo(ps: seq<Participant>, qs: seq<Participant>)
    requires multiset(ps) == multiset(qs) && Distinct(qs) && SortedBy(ParticipantLe, qs)
    ensures Sort(ParticipantLe, ps) == qs && Distinct(ps)
  {
    PrincipalLeIsOrder();
    DistinctSurvivesPermutation(qs, ps);
    forall a, b | a in multiset(ps) && b in multiset(ps) && ParticipantLe(a, b) && ParticipantLe(b, a) ensures a == b {
      FindUnique(ps, a);
      FindUnique(ps, b);
    }
    SortIgnoresOrder(ParticipantLe, ps, qs);
    SortedDistinctIsFixed(qs);
  }

  lemma CanonicalOfPermuted(s: Session, t: Session)
    requires s == t.(participants := s.participants) && multiset(s.participants) == multiset(t.participants)
    requires Coherent(t) && InOrder(t)
    ensures CanonicalSession(s) == Ok(t)
  {
    SortsTo(s.participants, t.participants);
    SameLength(s.participants, t.participants);
    forall p ensures p in s.participants <==> p in t.participants {
      assert p in multiset(s.participants) <==> p in multiset(t.participants);
    }
    CoherentIgnoresOrder(t, s.participants);
    CanonicalMeansCoherent(s);
    hide Coherent, CanonicalSession, Sort, ParticipantLe, InOrder;
  }

  /** Rows that read as participants are those participants' rows. */
  lemma RowsAreEntries(ok: IdRule, rows: seq<D.ParticipantRow>, ps: seq<Participant>, key: D.CallKey)
    requires forall r :: r in rows ==> r.key == key
    ensures AllRead(ok, rows, ps) <==>
      rows == Mapped(p => EntryOf(key, p), ps) && forall p :: p in ps ==> ok(p.principal.id)
  {
    var entries := Mapped(p => EntryOf(key, p), ps);
    forall i | 0 <= i < |rows| && i < |ps|
      ensures ReadEntry(ok, rows[i]) == Ok(ps[i]) <==> rows[i] == entries[i] && ok(ps[i].principal.id)
    {
      assert rows[i] in rows;
      EntryReads(ok, rows[i], ps[i]);
    }
    hide ReadEntry, EntryOf;
  }

  lemma RowsHaveKey(key: D.CallKey, table: seq<D.ParticipantRow>)
    ensures forall r :: r in RowsOf(key, table) ==> r.key == key
    ensures multiset(RowsOf(key, table)) == multiset(D.ParticipantsOf(key, table))
  {
    SortKeepsMembers(RowLe, D.ParticipantsOf(key, table));
    hide RowLe;
  }

  /** From the rows of a session, in any order, its participants are read, in some order. */
  lemma ParticipantsRead(ok: IdRule, rows: seq<D.ParticipantRow>, t: Session) returns (ps: seq<Participant>)
    requires multiset(rows) == multiset(EntriesOf(t)) && AllIdsFit(ok, t)
    ensures AllRead(ok, rows, ps) && multiset(ps) == multiset(t.participants)
  {
    var read := (row: D.ParticipantRow) =>
      if ReadEntry(ok, row).Ok? then ReadEntry(ok, row).value else Participant(t.initiator, Invited, 0, None);
    ps := Mapped(read, rows);
    hide ReadEntry, EntryOf, KeyOf;
    forall i | 0 <= i < |t.participants| ensures ReadEntry(ok, EntriesOf(t)[i]) == Ok(t.participants[i]) {
      assert t.participants[i] in t.participants;
      EntryKey(KeyOf(t), t.participants[i]);
      EntryReads(ok, EntriesOf(t)[i], t.participants[i]);
    }
    assert Mapped(read, EntriesOf(t)) == t.participants;
    MappedSameMultiset(read, rows, EntriesOf(t));
    forall i | 0 <= i < |rows| ensures ReadEntry(ok, rows[i]) == Ok(ps[i]) {
      assert rows[i] in multiset(EntriesOf(t));
      var j :| 0 <= j < |EntriesOf(t)| && EntriesOf(t)[j] == rows[i];
    }
  }

  lemma EntryKey(key: D.CallKey, p: Participant)
    ensures EntryOf(key, p).key == key
  {
  }

  lemma HeldLoads(h: Digest, ok: IdRule, persisted: Conversations, calls: seq<CallRecord>, table: seq<D.ParticipantRow>,
                  t: Session)
    requires Coherent(t) && InOrder(t) && AllIdsFit(ok, t) && Holds(h, persisted, calls, table, t)
    ensures Load(h, ok, persisted, calls, table, t.scope, t.callId) == Ok(Some(t))
  {
    KeyIs(t);
    var key := KeyOf(t);
    var rows, record := RowsOf(key, table), FindRecord(calls, key).value;
    RowsHaveKey(key, table);
    var ps := ParticipantsRead(ok, rows, t);
    var s := t.(participants := ps);
    SameRecord(s, t, record.fingerprint);
    CanonicalOfPermuted(s, t);
    assert IsCallConversation(t.conversation.kind);
    hide CanonicalSession, CreationFingerprint, Coherent, RecordOf, KeyOf, KeyFor, RowsOf, AllRead, CreationPrint, ReadSession,
      IsCallConversation;
    SessionReads(ok, persisted, record, rows, s);
  }

  lemma SameRecord(s: Session, t: Session, fingerprint: Bytes)
    requires s == t.(participants := s.participants)
    ensures RecordOf(s, fingerprint) == RecordOf(t, fingerprint) && KeyOf(s) == KeyOf(t)
  {
  }

  lemma CheckedMeans(h: Digest, s: Session, fingerprint: Bytes, t: Session)
    requires Checked(h, s, fingerprint) == Ok(t)
    ensures t == s.(participants := t.participants) && multiset(t.participants) == multiset(s.participants)
    ensures Coherent(t) && InOrder(t)
    ensures |fingerprint| == 32 && CreationFingerprint(t).Ok? && fingerprint == CreationPrint(h, CreationFingerprint(t).value)
  {
    CanonicalMeansCoherent(s);
    hide CanonicalSession, Coherent, InOrder, CreationPrint, CreationFingerprint;
  }

  lemma LoadSteps(h: Digest, ok: IdRule, persisted: Conversations, calls: seq<CallRecord>, table: seq<D.ParticipantRow>,
                  scope: Scope, callId: string, t: Session) returns (record: CallRecord, s: Session)
    requires Load(h, ok, persisted, calls, table, scope, callId) == Ok(Some(t))
    ensures FindRecord(calls, KeyFor(scope, callId)) == Some(record)
    ensures s.scope == scope && s.callId == callId
    ensures ReadSession(ok, persisted, record, RowsOf(KeyFor(scope, callId), table), scope, callId) == Ok(s)
    ensures Checked(h, s, record.fingerprint) == Ok(t)
  {
    var key := KeyFor(scope, callId);
    hide RowsOf, Checked, ReadSession, FindRecord, KeyFor;
    record := FindRecord(calls, key).value;
    s := ReadSession(ok, persisted, record, RowsOf(key, table), scope, callId).value;
    SessionIsAsked(ok, persisted, record, RowsOf(key, table), scope, callId);
  }

  lemma SameEntries(ok: IdRule, rows: seq<D.ParticipantRow>, s: Session, t: Session)
    requires t == s.(participants := t.participants) && multiset(t.participants) == multiset(s.participants)
    requires AllRead(ok, rows, s.participants) && forall r :: r in rows ==> r.key == KeyOf(t)
    ensures multiset(rows) == multiset(EntriesOf(t))
    ensures forall p :: p in t.participants ==> ok(p.principal.id)
  {
    hide AllRead, KeyOf, EntryOf;
    RowsAreEntries(ok, rows, s.participants, KeyOf(t));
    EntriesAreMapped(t);
    MappedSameMultiset(p => EntryOf(KeyOf(t), p), s.participants, t.participants);
    forall p | p in t.participants ensures ok(p.principal.id) { assert p in multiset(s.participants); }
  }

  lemma LoadedIsHeld(h: Digest, ok: IdRule, persisted: Conversations, calls: seq<CallRecord>, table: seq<D.ParticipantRow>,
                     scope: Scope, callId: string, t: Session)
    requires Load(h, ok, persisted, calls, table, scope, callId) == Ok(Some(t))
    ensures t.scope == scope && t.callId == callId && Coherent(t) && InOrder(t) && AllIdsFit(ok, t)
    ensures Holds(h, persisted, calls, table, t)
  {
    hide Load, Checked, ReadSession, CanonicalSession, CreationFingerprint, Coherent, InOrder, RecordOf, KeyOf, KeyFor, RowsOf,
      AllRead, CreationPrint, EntriesOf, FindRecord, IsCallConversation;
    var record, s := LoadSteps(h, ok, persisted, calls, table, scope, callId, t);
    CheckedMeans(h, s, record.fingerprint, t);
    KeyIs(t);
    SpelledBy(ok, persisted, calls, table, record, s, t);
  }

  lemma SpelledBy(ok: IdRule, persisted: Conversations, calls: seq<CallRecord>, table: seq<D.ParticipantRow>,
                  record: CallRecord, s: Session, t: Session)
    requires t == s.(participants := t.participants) && multiset(t.participants) == multiset(s.participants)
    requires FindRecord(calls, KeyFor(s.scope, s.callId)) == Some(record)
    requires ReadSession(ok, persisted, record, RowsOf(KeyFor(s.scope, s.callId), table), s.scope, s.callId) == Ok(s)
    ensures record == RecordOf(t, record.fingerprint) && AllIdsFit(ok, t)
    ensures multiset(D.ParticipantsOf(KeyOf(t), table)) == multiset(EntriesOf(t))
    ensures persisted(t.scope, t.conversation.id) == Some(t.conversation)
  {
    hide ReadSession, RecordOf, KeyOf, KeyFor, RowsOf, AllRead, EntriesOf, FindRecord, IsCallConversation;
    var rows := RowsOf(KeyFor(s.scope, s.callId), table);
    SessionReads(ok, persisted, record, rows, s);
    KeyIs(t);
    RowsHaveKey(KeyOf(t), table);
    SameRecord(t, s, record.fingerprint);
    SameEntries(ok, rows, s, t);
  }

  lemma SessionIsAsked(ok: IdRule, persisted: Conversations, record: CallRecord, rows: seq<D.ParticipantRow>,
                       scope: Scope, callId: string)
    ensures var r := ReadSession(ok, persisted, record, rows, scope, callId);
      r.Ok? ==> r.value.scope == scope && r.value.callId == callId
  {
  }

  /** A lookup yields a session exactly when the store holds that very session under the asked key and the session
      is well-formed: no other record, row or fingerprint loads as it. */
  lemma LoadsExactlyWhatIsHeld(h: Digest, ok: IdRule, persisted: Conversations, calls: seq<CallRecord>,
                               table: seq<D.ParticipantRow>, scope: Scope, callId: string, t: Session)
    ensures Load(h, ok, persisted, calls, table, scope, callId) == Ok(Some(t)) <==>
      && t.scope == scope && t.callId == callId && Coherent(t) && InOrder(t) && AllIdsFit(ok, t)
      && Holds(h, persisted, calls, table, t)
  {
    hide Load, Holds, Coherent, InOrder, AllIdsFit;
    if Load(h, ok, persisted, calls, table, scope, callId) == Ok(Some(t)) {
      LoadedIsHeld(h, ok, persisted, calls, table, scope, callId, t);
    } else if t.scope == scope && t.callId == callId && Coherent(t) && InOrder(t) && AllIdsFit(ok, t)
              && Holds(h, persisted, calls, table, t) {
      HeldLoads(h, ok, persisted, calls, table, t);
    }
  }

  // ---- stores of Calls that were created and then lived ------------------------------------------

  /** A Call's accepted creation and everything sent to it since. */
  datatype Life = Life(session: Session, scope: Scope, actor: PrincipalRef, events: seq<Event>)

  ghost predicate Began(life: Life) { CanonicalCreation(life.session, life.scope, life.actor).Ok? }

  ghost function Born(life: Life): Session
    requires Began(life)
  {
    CanonicalCreation(life.session, life.scope, life.actor).value
  }

  ghost function Now(life: Life): Session
    requires Began(life)
  {
    Run(Born(life), life.events)
  }

  ghost function Nows(lives: seq<Life>): (r: seq<Session>)
    requires forall i :: 0 <= i < |lives| ==> Began(lives[i])
    ensures |r| == |lives| && forall i :: 0 <= i < |r| ==> r[i] == Now(lives[i])
  {
    seq(|lives|, i requires 0 <= i < |lives| => Now(lives[i]))
  }

  /** The table of Calls: the columns of the present session, the fingerprint of the creation. */
  ghost predicate KeptOf(h: Digest, calls: seq<CallRecord>, lives: seq<Life>) {
    && |calls| == |lives|
    && forall i :: 0 <= i < |lives| ==>
         && Began(lives[i]) && CreationFingerprint(Born(lives[i])).Ok?
         && calls[i] == RecordOf(Now(lives[i]), CreationPrint(h, CreationFingerprint(Born(lives[i])).value))
  }

  lemma {:induction false} FindsOwn(calls: seq<CallRecord>, i: nat)
    requires i < |calls| && forall j, k :: 0 <= j < k < |calls| ==> calls[j].key != calls[k].key
    ensures FindRecord(calls, calls[i].key) == Some(calls[i])
  {
    if i > 0 { FindsOwn(calls[1..], i - 1); }
  }

  lemma {:induction false} SelectCounts(key: D.CallKey, rows: seq<D.ParticipantRow>, r: D.ParticipantRow)
    ensures multiset(D.ParticipantsOf(key, rows))[r] == if r.key == key then multiset(rows)[r] else 0
  {
    if rows != [] {
      SelectCounts(key, rows[1..], r);
      assert rows == [rows[0]] + rows[1..];
      var first := if rows[0].key == key then [rows[0]] else [];
      assert D.ParticipantsOf(key, rows) == first + D.ParticipantsOf(key, rows[1..]);
    }
  }

  lemma SelectIgnoresOrder(key: D.CallKey, a: seq<D.ParticipantRow>, b: seq<D.ParticipantRow>)
    requires multiset(a) == multiset(b)
    ensures multiset(D.ParticipantsOf(key, a)) == multiset(D.ParticipantsOf(key, b))
  {
    forall r ensures multiset(D.ParticipantsOf(key, a))[r] == multiset(D.ParticipantsOf(key, b))[r] {
      SelectCounts(key, a, r);
      SelectCounts(key, b, r);
    }
  }

  /** Over a store of any number of Calls with different keys, each created and then run in any way, with the participant
      rows in any physical order: every Call loads as exactly the session it has become. */
  lemma ReloadsEveryCall(h: Digest, ok: IdRule, persisted: Conversations, lives: seq<Life>, calls: seq<CallRecord>,
                         table: seq<D.ParticipantRow>, i: nat)
    requires KeptOf(h, calls, lives) && i < |lives| && DistinctKeys(Nows(lives))
    requires multiset(table) == multiset(ParticipantsTable(Nows(lives)))
    requires forall b :: |h(b)| == 32
    requires AllIdsFit(ok, Now(lives[i]))
    requires persisted(Now(lives[i]).scope, Now(lives[i]).conversation.id) == Some(Now(lives[i]).conversation)
    ensures Load(h, ok, persisted, calls, table, Now(lives[i]).scope, Now(lives[i]).callId) == Ok(Some(Now(lives[i])))
  {
    hide Load, RecordOf, KeyOf, EntriesOf, ParticipantsTable, CanonicalCreation, CreationFingerprint, Run, Coherent, InOrder,
      AllIdsFit, FindRecord;
    var t, life := Now(lives[i]), lives[i];
    CreationFingerprintIsImmutable(life.session, life.scope, life.actor, life.events);
    CreationIsHealthy(life.session, life.scope, life.actor);
    RunContinues(Born(life), life.events);
    forall j | 0 <= j < |calls| ensures calls[j].key == KeyOf(Nows(lives)[j]) {
      RecordKey(Now(lives[j]), CreationPrint(h, CreationFingerprint(Born(lives[j])).value));
    }
    FindsOwn(calls, i);
    SelectIgnoresOrder(KeyOf(t), table, ParticipantsTable(Nows(lives)));
    SelectOwn(Nows(lives), i);
    assert Holds(h, persisted, calls, table, t);
    HeldLoads(h, ok, persisted, calls, table, t);
  }

  lemma RecordKey(s: Session, fingerprint: Bytes)
    ensures RecordOf(s, fingerprint).key == KeyOf(s) && RecordOf(s, fingerprint).fingerprint == fingerprint
  {
  }
}
