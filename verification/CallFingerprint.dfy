/** The bytes behind the creation and signal fingerprints of `crates/ucr-protocol/src/call.rs`: different facts
    never give the same bytes. */
module CallFingerprint {
  import opened Base
  import opened CallSignalling
  import opened CallRuns
  import opened Utf8
  import S = CallStorage

  // ---- the pieces of the encoding -----------------------------------------------------------------------

  function Number(n: nat, width: nat): Bytes { S.BigEndianBytes(n, width) }

  lemma NumberReadable(m: nat, n: nat, width: nat, x: Bytes, y: Bytes)
    requires m < S.Pow256(width) && n < S.Pow256(width) && Number(m, width) + x == Number(n, width) + y
    ensures m == n && x == y
  {
    S.BytesDecode(m, width);
    S.BytesDecode(n, width);
    hide S.BigEndianBytes, S.D.BigEndian, S.Pow256;
    SplitHead(Number(m, width), x, Number(n, width), y);
  }

  /** A text under its length. */
  function Text(s: string): Bytes { Number(|TextBytes(s)|, 4) + TextBytes(s) }

  predicate Fits(s: string) { |TextBytes(s)| <= U32_MAX }

  lemma WidthFour()
    ensures S.Pow256(4) == U32_MAX + 1
  {
    assert S.Pow256(2) == 65536;
    assert S.Pow256(3) == 16777216;
  }

  lemma WidthEight()
    ensures S.Pow256(8) == U64_MAX + 1
  {
    WidthFour();
    assert S.Pow256(5) == 256 * S.Pow256(4);
    assert S.Pow256(6) == 256 * S.Pow256(5);
    assert S.Pow256(7) == 256 * S.Pow256(6);
    assert S.Pow256(8) == 256 * S.Pow256(7);
  }

  lemma TextsReadable(a: string, b: string, x: Bytes, y: Bytes)
    requires Fits(a) && Fits(b) && Text(a) + x == Text(b) + y
    ensures a == b && x == y
  {
    WidthFour();
    hide TextBytes, Number, S.Pow256;
    assert Text(a) + x == Number(|TextBytes(a)|, 4) + (TextBytes(a) + x);
    assert Text(b) + y == Number(|TextBytes(b)|, 4) + (TextBytes(b) + y);
    NumberReadable(|TextBytes(a)|, |TextBytes(b)|, 4, TextBytes(a) + x, TextBytes(b) + y);
    SplitHead(TextBytes(a), x, TextBytes(b), y);
    TextReadable(a, b);
  }

  function ScopeBytes(s: Scope): Bytes {
    Text(s.tenant) + match s.namespace case None => [0] case Some(namespace) => [1] + Text(namespace)
  }

  predicate ScopeFits(s: Scope) { Fits(s.tenant) && (s.namespace.Some? ==> Fits(s.namespace.value)) }

  lemma ScopeReadable(a: Scope, b: Scope, x: Bytes, y: Bytes)
    requires ScopeFits(a) && ScopeFits(b) && ScopeBytes(a) + x == ScopeBytes(b) + y
    ensures a == b && x == y
  {
    hide Text, Fits;
    var p := match a.namespace case None => [0] case Some(namespace) => [1] + Text(namespace);
    var q := match b.namespace case None => [0] case Some(namespace) => [1] + Text(namespace);
    assert ScopeBytes(a) + x == Text(a.tenant) + (p + x) && ScopeBytes(b) + y == Text(b.tenant) + (q + y);
    TextsReadable(a.tenant, b.tenant, p + x, q + y);
    assert p[0] == (p + x)[0] && q[0] == (q + y)[0];
    if a.namespace.Some? {
      assert p + x == [1] + (Text(a.namespace.value) + x) && q + y == [1] + (Text(b.namespace.value) + y);
      SplitHead([1], Text(a.namespace.value) + x, [1], Text(b.namespace.value) + y);
      TextsReadable(a.namespace.value, b.namespace.value, x, y);
    } else {
      SplitHead(p, x, q, y);
    }
  }

  function PrincipalBytes(p: PrincipalRef): Bytes { [KindCode(p.kind)] + Text(p.id) }

  lemma PrincipalReadable(a: PrincipalRef, b: PrincipalRef, x: Bytes, y: Bytes)
    requires Fits(a.id) && Fits(b.id) && PrincipalBytes(a) + x == PrincipalBytes(b) + y
    ensures a == b && x == y
  {
    hide Text, Fits;
    assert PrincipalBytes(a) + x == [KindCode(a.kind)] + (Text(a.id) + x);
    assert PrincipalBytes(b) + y == [KindCode(b.kind)] + (Text(b.id) + y);
    SplitHead([KindCode(a.kind)], Text(a.id) + x, [KindCode(b.kind)], Text(b.id) + y);
    TextsReadable(a.id, b.id, x, y);
  }

  function PrincipalsBytes(ps: seq<PrincipalRef>): Bytes {
    if ps == [] then [] else PrincipalBytes(ps[0]) + PrincipalsBytes(ps[1..])
  }

  predicate PrincipalsFit(ps: seq<PrincipalRef>) { forall i :: 0 <= i < |ps| ==> Fits(ps[i].id) }

  lemma {:induction false} PrincipalsReadable(a: seq<PrincipalRef>, b: seq<PrincipalRef>)
    requires |a| == |b| && PrincipalsFit(a) && PrincipalsFit(b) && PrincipalsBytes(a) == PrincipalsBytes(b)
    ensures a == b
    decreases |a|
  {
    hide PrincipalBytes, Fits;
    if a != [] {
      PrincipalReadable(a[0], b[0], PrincipalsBytes(a[1..]), PrincipalsBytes(b[1..]));
      PrincipalsReadable(a[1..], b[1..]);
      assert a == [a[0]] + a[1..] && b == [b[0]] + b[1..];
    }
  }

  function ConversationCode(kind: ConversationKind): byte {
    match kind
    case Direct => 1
    case PrivateGroup => 2
    case PublicGroup => 3
    case Broadcast => 4
    case Community => 5
    case Room => 6
    case Topic => 7
    case Thread => 8
    case System => 9
  }

  // ---- creation -------------------------------------------------------------------------------------

  function OriginBytes(origin: seq<PrincipalRef>): Bytes { Number(|origin|, 4) + PrincipalsBytes(origin) }

  function CallerBytes(f: CreationFact): Bytes { PrincipalBytes(f.initiator) + OriginBytes(f.origin) }

  function PlaceBytes(f: CreationFact): Bytes {
    Text(f.conversation.id) + ([ConversationCode(f.conversation.kind)] + CallerBytes(f))
  }

  /** What is hashed for a creation, after the domain. */
  function CreationBytes(f: CreationFact): Bytes { ScopeBytes(f.scope) + (Text(f.callId) + PlaceBytes(f)) }

  /** Every text keeps to a 32-bit length, as the 128-byte budget of ids guarantees. */
  predicate CreationFits(f: CreationFact) {
    && ScopeFits(f.scope) && Fits(f.callId) && Fits(f.conversation.id) && Fits(f.initiator.id)
    && |f.origin| <= U32_MAX && PrincipalsFit(f.origin)
  }

  lemma OriginReadable(a: seq<PrincipalRef>, b: seq<PrincipalRef>)
    requires |a| <= U32_MAX && |b| <= U32_MAX && PrincipalsFit(a) && PrincipalsFit(b) && OriginBytes(a) == OriginBytes(b)
    ensures a == b
  {
    hide PrincipalsBytes, Number, PrincipalsFit;
    WidthFour();
    NumberReadable(|a|, |b|, 4, PrincipalsBytes(a), PrincipalsBytes(b));
    PrincipalsReadable(a, b);
  }

  /** Different creation facts have different bytes: no field can be shifted into another. */
  lemma CreationBytesDetermineFact(a: CreationFact, b: CreationFact)
    requires CreationFits(a) && CreationFits(b) && CreationBytes(a) == CreationBytes(b)
    ensures a == b
  {
    hide ScopeBytes, Text, PrincipalBytes, OriginBytes, Fits, ScopeFits, PrincipalsFit;
    ScopeReadable(a.scope, b.scope, Text(a.callId) + PlaceBytes(a), Text(b.callId) + PlaceBytes(b));
    TextsReadable(a.callId, b.callId, PlaceBytes(a), PlaceBytes(b));
    var p, q := [ConversationCode(a.conversation.kind)], [ConversationCode(b.conversation.kind)];
    TextsReadable(a.conversation.id, b.conversation.id, p + CallerBytes(a), q + CallerBytes(b));
    SplitHead(p, CallerBytes(a), q, CallerBytes(b));
    PrincipalReadable(a.initiator, b.initiator, OriginBytes(a.origin), OriginBytes(b.origin));
    OriginReadable(a.origin, b.origin);
    assert p[0] == q[0];
  }

  // ---- signals --------------------------------------------------------------------------------------

  datatype SignalFact = SignalFact(eventId: string, signal: Signal)

  function ReasonCode(why: Reason): byte {
    match why
    case WasRejected => 1
    case WasBusy => 2
    case Cancelled => 3
    case TimedOut => 4
    case Completed => 5
    case Failed => 6
  }

  function KindBytes(kind: SignalKind): Bytes {
    match kind
    case SignalRinging => [1]
    case SignalAccept => [2]
    case SignalReject => [3]
    case SignalBusy => [4]
    case SignalCancel => [5]
    case SignalTimeout => [6]
    case ReconnectStarted => [7, 1]
    case ReconnectRestored => [7, 2]
    case AddParticipant(target) => [8] + (PrincipalBytes(target) + [1])
    case RemoveParticipant(target) => [8] + (PrincipalBytes(target) + [2])
    case MediaRenegotiation(negotiation) => [9] + Text(negotiation)
    case Terminate(why) => [10, ReasonCode(why)]
  }

  predicate KindFits(kind: SignalKind) {
    match kind
    case AddParticipant(target) => Fits(target.id)
    case RemoveParticipant(target) => Fits(target.id)
    case MediaRenegotiation(negotiation) => Fits(negotiation)
    case _ => true
  }

  function UpdateCode(kind: SignalKind): Bytes { if kind.AddParticipant? then [1] else [2] }

  lemma UpdateReadable(a: SignalKind, b: SignalKind)
    requires (a.AddParticipant? || a.RemoveParticipant?) && (b.AddParticipant? || b.RemoveParticipant?)
    requires KindFits(a) && KindFits(b) && KindBytes(a) == KindBytes(b)
    ensures a == b
  {
    hide PrincipalBytes, Fits;
    var x, y := PrincipalBytes(a.target) + UpdateCode(a), PrincipalBytes(b.target) + UpdateCode(b);
    assert KindBytes(a) == [8] + x && KindBytes(b) == [8] + y;
    SplitHead([8], x, [8], y);
    PrincipalReadable(a.target, b.target, UpdateCode(a), UpdateCode(b));
    assert UpdateCode(a)[0] == UpdateCode(b)[0];
  }

  lemma MediaReadable(a: string, b: string)
    requires Fits(a) && Fits(b) && [9] + Text(a) == [9] + Text(b)
    ensures a == b
  {
    hide Text, Fits;
    SplitHead([9], Text(a), [9], Text(b));
    assert Text(a) + [] == Text(b) + [];
    TextsReadable(a, b, [], []);
  }

  lemma KindReadable(a: SignalKind, b: SignalKind)
    requires KindFits(a) && KindFits(b) && KindBytes(a) == KindBytes(b)
    ensures a == b
  {
    hide PrincipalBytes, Text, Fits;
    assert KindBytes(a)[0] == KindBytes(b)[0];
    if a.AddParticipant? || a.RemoveParticipant? {
      UpdateReadable(a, b);
    } else if a.MediaRenegotiation? {
      MediaReadable(a.negotiation, b.negotiation);
    } else if a.ReconnectStarted? || a.ReconnectRestored? || a.Terminate? {
      assert KindBytes(a)[1] == KindBytes(b)[1];
    }
  }

  function StepBytes(s: Signal): Bytes { Number(s.expectedRevision, 8) + KindBytes(s.kind) }

  /** What is hashed for a signal, after the domain. */
  function SignalBytes(f: SignalFact): Bytes {
    Text(f.eventId) + (ScopeBytes(f.signal.scope) + (Text(f.signal.callId) + StepBytes(f.signal)))
  }

  predicate SignalFits(f: SignalFact) {
    Fits(f.eventId) && ScopeFits(f.signal.scope) && Fits(f.signal.callId) && KindFits(f.signal.kind)
  }

  /** Different signal facts have different bytes. */
  lemma SignalBytesDetermineFact(a: SignalFact, b: SignalFact)
    requires SignalFits(a) && SignalFits(b) && SignalBytes(a) == SignalBytes(b)
    ensures a == b
  {
    hide ScopeBytes, Text, KindBytes, Number, Fits, ScopeFits, KindFits;
    var s, t := a.signal, b.signal;
    TextsReadable(a.eventId, b.eventId, ScopeBytes(s.scope) + (Text(s.callId) + StepBytes(s)),
                  ScopeBytes(t.scope) + (Text(t.callId) + StepBytes(t)));
    ScopeReadable(s.scope, t.scope, Text(s.callId) + StepBytes(s), Text(t.callId) + StepBytes(t));
    TextsReadable(s.callId, t.callId, StepBytes(s), StepBytes(t));
    WidthEight();
    NumberReadable(s.expectedRevision, t.expectedRevision, 8, KindBytes(s.kind), KindBytes(t.kind));
    KindReadable(s.kind, t.kind);
  }

  const CONVERSATIONS: seq<ConversationKind> :=
    [Direct, PrivateGroup, PublicGroup, Broadcast, Community, Room, Topic, Thread, System]
  const REASONS: seq<Reason> := [WasRejected, WasBusy, Cancelled, TimedOut, Completed, Failed]

  /** Codes count the declarations from one; the first byte of a signal tells its kind, the two changes of a reconnect
      and of the participants sharing one. */
  lemma CodesCount(kind: ConversationKind, why: Reason, signal: SignalKind)
    ensures 1 <= ConversationCode(kind) <= 9 && CONVERSATIONS[ConversationCode(kind) - 1] == kind
    ensures 1 <= ReasonCode(why) <= 6 && REASONS[ReasonCode(why) - 1] == why
    ensures KindBytes(signal) != []
    ensures KindBytes(signal)[0] == 1 <==> signal.SignalRinging?
    ensures KindBytes(signal)[0] == 2 <==> signal.SignalAccept?
    ensures KindBytes(signal)[0] == 3 <==> signal.SignalReject?
    ensures KindBytes(signal)[0] == 4 <==> signal.SignalBusy?
    ensures KindBytes(signal)[0] == 5 <==> signal.SignalCancel?
    ensures KindBytes(signal)[0] == 6 <==> signal.SignalTimeout?
    ensures KindBytes(signal)[0] == 7 <==> signal.ReconnectStarted? || signal.ReconnectRestored?
    ensures KindBytes(signal)[0] == 8 <==> signal.AddParticipant? || signal.RemoveParticipant?
    ensures KindBytes(signal)[0] == 9 <==> signal.MediaRenegotiation?
    ensures KindBytes(signal)[0] == 10 <==> signal.Terminate?
    ensures KindBytes(signal)[|KindBytes(signal)| - 1] == 1 ==> !signal.ReconnectRestored? && !signal.RemoveParticipant?
    ensures signal.ReconnectStarted? || signal.AddParticipant? ==> KindBytes(signal)[|KindBytes(signal)| - 1] == 1
  {
    hide PrincipalBytes, Text;
  }

  // ---- fingerprints ---------------------------------------------------------------------------------

  /** "UCR-CALL-CREATION-V1" and "UCR-CALL-SIGNAL-V1", each ended by a zero byte. */
  const CREATION_DOMAIN: Bytes := [85, 67, 82, 45, 67, 65, 76, 76, 45, 67, 82, 69, 65, 84, 73, 79, 78, 45, 86, 49, 0]
  const SIGNAL_DOMAIN: Bytes := [85, 67, 82, 45, 67, 65, 76, 76, 45, 83, 73, 71, 78, 65, 76, 45, 86, 49, 0]

  function CreationPrint(h: Bytes -> Bytes, f: CreationFact): Bytes { h(CREATION_DOMAIN + CreationBytes(f)) }

  /** Unless the digest collides on the two inputs, two creations have the same fingerprint exactly when they are
      the same fact. */
  lemma SamePrintSameCreation(h: Bytes -> Bytes, a: CreationFact, b: CreationFact)
    requires CreationFits(a) && CreationFits(b)
    requires CreationPrint(h, a) == CreationPrint(h, b) ==>
      CREATION_DOMAIN + CreationBytes(a) == CREATION_DOMAIN + CreationBytes(b)
    ensures CreationPrint(h, a) == CreationPrint(h, b) <==> a == b
  {
    hide CreationBytes, CreationFits;
    if CreationPrint(h, a) == CreationPrint(h, b) {
      SplitHead(CREATION_DOMAIN, CreationBytes(a), CREATION_DOMAIN, CreationBytes(b));
      CreationBytesDetermineFact(a, b);
    }
  }

  /** The two domains keep creations and signals apart: their hashed inputs never coincide. */
  lemma DomainsAreApart(a: CreationFact, b: SignalFact)
    ensures CREATION_DOMAIN + CreationBytes(a) != SIGNAL_DOMAIN + SignalBytes(b)
  {
    hide CreationBytes, SignalBytes;
    var x, y := CREATION_DOMAIN + CreationBytes(a), SIGNAL_DOMAIN + SignalBytes(b);
    assert x[9] == CREATION_DOMAIN[9] == 67 && y[9] == SIGNAL_DOMAIN[9] == 83;
  }

  /** A stored Call is recognised by its fingerprint after any run: a start request has the same one exactly when it
      states the same creation fact. */
  lemma RetryIsRecognised(h: Bytes -> Bytes, session: Session, scope: Scope, actor: PrincipalRef, events: seq<Event>,
                          retry: CreationFact)
    requires CanonicalCreation(session, scope, actor).Ok? && CreationFits(retry)
    requires var s := CanonicalCreation(session, scope, actor).value;
      CreationFingerprint(s).Ok? ==>
        && CreationFits(CreationFingerprint(s).value)
        && (CreationPrint(h, CreationFingerprint(s).value) == CreationPrint(h, retry) ==>
              CREATION_DOMAIN + CreationBytes(CreationFingerprint(s).value) == CREATION_DOMAIN + CreationBytes(retry))
    ensures var s := CanonicalCreation(session, scope, actor).value;
      && CreationFingerprint(s).Ok? && CreationFingerprint(Run(s, events)).Ok?
      && (CreationPrint(h, CreationFingerprint(Run(s, events)).value) == CreationPrint(h, retry) <==>
            CreationFingerprint(s).value == retry)
  {
    hide CanonicalCreation, CreationFingerprint, CreationFits, CreationPrint, CreationBytes, Run;
    CreationFingerprintIsImmutable(session, scope, actor, events);
    SamePrintSameCreation(h, CreationFingerprint(CanonicalCreation(session, scope, actor).value).value, retry);
  }
}
