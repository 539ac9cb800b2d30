/** The wire form of recovery plans: `crates/ucr-api-grpc/src/recovery_service.rs`, with the opaque ids of
    `crates/ucr-model/src/lib.rs` and the enum numbers of `proto/ucr/v1/recovery.proto`. */
module RecoveryCodec {
  import opened Base
  import opened Utf8

  datatype Invalid = InvalidArgument | ResourceExhausted

  // ---- opaque ids -----------------------------------------------------------------------------------

  const MAX_ID_BYTES := 128

  predicate IdBytes(s: Bytes) { s != [] && |s| <= MAX_ID_BYTES && WellFormed(s) }

  /** An opaque id keeps its exact bytes. */
  type Id = s: Bytes | IdBytes(s) witness [97]

  function DecodeId(value: Option<Bytes>): Result<Id, Invalid> {
    if value.Some? && IdBytes(value.value) then Ok(value.value)
    else if value.Some? && |value.value| > MAX_ID_BYTES then Err(ResourceExhausted)
    else Err(InvalidArgument)
  }

  function EncodeId(id: Id): Option<Bytes> { Some(id) }

  // ---- model and wire -------------------------------------------------------------------------------

  datatype Authority =
    | RecoveryCode | RecoveryKey | TrustedDevice(device: Id) | HardwareBacked(device: Id)
    | EncryptedBackup | OrganizationManaged(principal: Id)

  datatype WireAuthority = WireAuthority(method_: int, deviceId: Option<Bytes>, principalId: Option<Bytes>)

  datatype TenantScope = TenantScope(tenant: Id, namespace: Option<Id>)
  datatype WireScope = WireScope(tenantId: Option<Bytes>, namespaceId: Option<Bytes>)

  datatype Access = NoAccess | ExplicitEncryptedRecovery
  datatype Trust = UserControlled | ManagedByOrganization
  datatype DeviceState = Active | Stale | ReverificationRequired | Expired | Revoked

  datatype Plan = Plan(
    planId: Id, scope: TenantScope, identityId: Id, authorities: seq<Authority>, access: Access, trust: Trust,
    deviceState: DeviceState)

  datatype WirePlan = WirePlan(
    planId: Option<Bytes>, scope: Option<WireScope>, identityId: Option<Bytes>, authorities: seq<WireAuthority>,
    access: int, deviceState: int, trust: int)

  datatype Request = Request(planId: Id, scope: TenantScope, identityId: Id, authority: Authority, target: Id)

  datatype WireRequest = WireRequest(
    planId: Option<Bytes>, scope: Option<WireScope>, identityId: Option<Bytes>, authority: Option<WireAuthority>,
    target: Option<Bytes>)

  // ---- decoding -------------------------------------------------------------------------------------

  function DecodeAuthority(m: WireAuthority): Result<Authority, Invalid> {
    match m.method_
    case 1 => if m.deviceId.None? && m.principalId.None? then Ok(RecoveryCode) else Err(InvalidArgument)
    case 2 => if m.deviceId.None? && m.principalId.None? then Ok(RecoveryKey) else Err(InvalidArgument)
    case 3 =>
      if m.principalId.Some? then Err(InvalidArgument)
      else var id :- DecodeId(m.deviceId); Ok(TrustedDevice(id))
    case 4 =>
      if m.principalId.Some? then Err(InvalidArgument)
      else var id :- DecodeId(m.deviceId); Ok(HardwareBacked(id))
    case 5 => if m.deviceId.None? && m.principalId.None? then Ok(EncryptedBackup) else Err(InvalidArgument)
    case 6 =>
      if m.deviceId.Some? then Err(InvalidArgument)
      else var id :- DecodeId(m.principalId); Ok(OrganizationManaged(id))
    case _ => Err(InvalidArgument)
  }

  /** Collecting stops at the first message that does not decode. */
  function DecodeAuthorities(ms: seq<WireAuthority>): Result<seq<Authority>, Invalid> {
    if ms == [] then Ok([])
    else
      var first :- DecodeAuthority(ms[0]);
      var rest :- DecodeAuthorities(ms[1..]);
      Ok([first] + rest)
  }

  function DecodeScope(m: Option<WireScope>): Result<TenantScope, Invalid> {
    if m.None? then Err(InvalidArgument)
    else
      var tenant :- DecodeId(m.value.tenantId);
      if m.value.namespaceId.None? then Ok(TenantScope(tenant, None))
      else var namespace :- DecodeId(m.value.namespaceId); Ok(TenantScope(tenant, Some(namespace)))
  }

  function DecodeAccess(n: int): Result<Access, Invalid> {
    match n case 1 => Ok(NoAccess) case 2 => Ok(ExplicitEncryptedRecovery) case _ => Err(InvalidArgument)
  }

  function DecodeTrust(n: int): Result<Trust, Invalid> {
    match n case 1 => Ok(UserControlled) case 2 => Ok(ManagedByOrganization) case _ => Err(InvalidArgument)
  }

  function DecodeDeviceState(n: int): Result<DeviceState, Invalid> {
    match n
    case 1 => Ok(Active)
    case 2 => Ok(Stale)
    case 3 => Ok(ReverificationRequired)
    case 4 => Ok(Expired)
    case 5 => Ok(Revoked)
    case _ => Err(InvalidArgument)
  }

  function DecodePlan(m: WirePlan): Result<Plan, Invalid> {
    var planId :- DecodeId(m.planId);
    var scope :- DecodeScope(m.scope);
    var identityId :- DecodeId(m.identityId);
    var authorities :- DecodeAuthorities(m.authorities);
    var access :- DecodeAccess(m.access);
    var trust :- DecodeTrust(m.trust);
    var deviceState :- DecodeDeviceState(m.deviceState);
    Ok(Plan(planId, scope, identityId, authorities, access, trust, deviceState))
  }

  function DecodeRequest(m: WireRequest): Result<Request, Invalid> {
    var planId :- DecodeId(m.planId);
    var scope :- DecodeScope(m.scope);
    var identityId :- DecodeId(m.identityId);
    if m.authority.None? then Err(InvalidArgument)
    else
      var authority :- DecodeAuthority(m.authority.value);
      var target :- DecodeId(m.target);
      Ok(Request(planId, scope, identityId, authority, target))
  }

  // ---- encoding -------------------------------------------------------------------------------------

  function EncodeAuthority(a: Authority): WireAuthority {
    match a
    case RecoveryCode => WireAuthority(1, None, None)
    case RecoveryKey => WireAuthority(2, None, None)
    case TrustedDevice(id) => WireAuthority(3, EncodeId(id), None)
    case HardwareBacked(id) => WireAuthority(4, EncodeId(id), None)
    case EncryptedBackup => WireAuthority(5, None, None)
    case OrganizationManaged(id) => WireAuthority(6, None, EncodeId(id))
  }

  function EncodeAuthorities(xs: seq<Authority>): seq<WireAuthority> {
    if xs == [] then [] else [EncodeAuthority(xs[0])] + EncodeAuthorities(xs[1..])
  }

  function EncodeScope(s: TenantScope): Option<WireScope> {
    Some(WireScope(EncodeId(s.tenant), if s.namespace.Some? then EncodeId(s.namespace.value) else None))
  }

  function EncodeAccess(a: Access): int { if a.NoAccess? then 1 else 2 }

  function EncodeTrust(t: Trust): int { if t.UserControlled? then 1 else 2 }

  function EncodeDeviceState(d: DeviceState): int {
    match d
    case Active => 1
    case Stale => 2
    case ReverificationRequired => 3
    case Expired => 4
    case Revoked => 5
  }

  function EncodePlan(p: Plan): WirePlan {
    WirePlan(EncodeId(p.planId), EncodeScope(p.scope), EncodeId(p.identityId), EncodeAuthorities(p.authorities),
             EncodeAccess(p.access), EncodeDeviceState(p.deviceState), EncodeTrust(p.trust))
  }

  // ---- ids and numbers -------------------------------------------------------------------------------

  /** An id is the UTF-8 form of some text of 1 to 128 bytes; only too long a value is told apart. */
  lemma IdVerdict(value: Option<Bytes>)
    ensures DecodeId(value).Ok? <==>
      value.Some? && 1 <= |value.value| <= 128 && exists text :: TextBytes(text) == value.value
    ensures DecodeId(value).Ok? ==> DecodeId(value).value == value.value
    ensures DecodeId(value) == Err(ResourceExhausted) <==> value.Some? && |value.value| > 128
  {
    if value.Some? { WellFormedIsText(value.value); }
    hide WellFormed, TextBytes;
  }

  /** The numbers on the wire. */
  lemma WireNumbers(id: Id)
    ensures DecodeAuthority(WireAuthority(1, None, None)) == Ok(RecoveryCode)
    ensures DecodeAuthority(WireAuthority(2, None, None)) == Ok(RecoveryKey)
    ensures DecodeAuthority(WireAuthority(3, Some(id), None)) == Ok(TrustedDevice(id))
    ensures DecodeAuthority(WireAuthority(4, Some(id), None)) == Ok(HardwareBacked(id))
    ensures DecodeAuthority(WireAuthority(5, None, None)) == Ok(EncryptedBackup)
    ensures DecodeAuthority(WireAuthority(6, None, Some(id))) == Ok(OrganizationManaged(id))
    ensures DecodeAccess(1) == Ok(NoAccess) && DecodeAccess(2) == Ok(ExplicitEncryptedRecovery)
    ensures DecodeTrust(1) == Ok(UserControlled) && DecodeTrust(2) == Ok(ManagedByOrganization)
    ensures DecodeDeviceState(1) == Ok(Active) && DecodeDeviceState(2) == Ok(Stale)
    ensures DecodeDeviceState(3) == Ok(ReverificationRequired) && DecodeDeviceState(4) == Ok(Expired)
    ensures DecodeDeviceState(5) == Ok(Revoked)
  {
    hide IdBytes;
  }

  // ---- the codec is a bijection ---------------------------------------------------------------------

  /** Authorities and accepted messages correspond one to one: decoding undoes encoding, and a message is accepted
      only if it is the encoding of what it decodes to. A missing, extra or wrong-kind id is therefore refused. */
  lemma AuthorityBijection(m: WireAuthority, a: Authority)
    ensures DecodeAuthority(m) == Ok(a) <==> EncodeAuthority(a) == m
  {
    hide IdBytes;
  }

  /** Which messages are accepted, as a table of kinds and ids. */
  lemma AcceptedAuthorities(m: WireAuthority)
    ensures DecodeAuthority(m).Ok? <==>
      || (m.method_ in {1, 2, 5} && m.deviceId.None? && m.principalId.None?)
      || (m.method_ in {3, 4} && m.deviceId.Some? && IdBytes(m.deviceId.value) && m.principalId.None?)
      || (m.method_ == 6 && m.deviceId.None? && m.principalId.Some? && IdBytes(m.principalId.value))
  {
    hide IdBytes;
  }

  lemma {:induction false} AuthoritiesBijection(ms: seq<WireAuthority>, xs: seq<Authority>)
    ensures DecodeAuthorities(ms) == Ok(xs) <==> EncodeAuthorities(xs) == ms
    decreases |ms|, |xs|
  {
    hide DecodeAuthority, EncodeAuthority;
    if ms != [] && xs != [] {
      AuthorityBijection(ms[0], xs[0]);
      AuthoritiesBijection(ms[1..], xs[1..]);
      assert ms == [ms[0]] + ms[1..] && xs == [xs[0]] + xs[1..];
    }
  }

  lemma ScopeBijection(m: Option<WireScope>, s: TenantScope)
    ensures DecodeScope(m) == Ok(s) <==> EncodeScope(s) == m
  {
    hide IdBytes;
  }

  lemma NumbersBijection(n: int, access: Access, trust: Trust, state: DeviceState)
    ensures DecodeAccess(n) == Ok(access) <==> EncodeAccess(access) == n
    ensures DecodeTrust(n) == Ok(trust) <==> EncodeTrust(trust) == n
    ensures DecodeDeviceState(n) == Ok(state) <==> EncodeDeviceState(state) == n
  {
  }

  /** The same for whole plans with any number of authorities. */
  lemma PlanBijection(m: WirePlan, p: Plan)
    ensures DecodePlan(m) == Ok(p) <==> EncodePlan(p) == m
  {
    AuthoritiesBijection(m.authorities, p.authorities);
    ScopeBijection(m.scope, p.scope);
    NumbersBijection(m.access, p.access, p.trust, p.deviceState);
    NumbersBijection(m.trust, p.access, p.trust, p.deviceState);
    NumbersBijection(m.deviceState, p.access, p.trust, p.deviceState);
    hide DecodeAuthorities, EncodeAuthorities, DecodeScope, EncodeScope, DecodeAccess, EncodeAccess, DecodeTrust,
         EncodeTrust, DecodeDeviceState, EncodeDeviceState, IdBytes;
  }

  /** Every plan survives the round trip, and no two wire plans decode to the same plan. */
  lemma PlanRoundTrip(p: Plan, m: WirePlan, n: WirePlan)
    ensures DecodePlan(EncodePlan(p)) == Ok(p)
    ensures DecodePlan(m).Ok? && DecodePlan(m) == DecodePlan(n) ==> m == n
  {
    hide DecodePlan, EncodePlan;
    PlanBijection(EncodePlan(p), p);
    if DecodePlan(m).Ok? {
      PlanBijection(m, DecodePlan(m).value);
      PlanBijection(n, DecodePlan(m).value);
    }
  }

  /** A recovery request is accepted exactly when each of its parts is the encoding of the decoded part. */
  lemma RequestDecodes(m: WireRequest, r: Request)
    ensures DecodeRequest(m) == Ok(r) <==>
      && m.planId == EncodeId(r.planId) && m.scope == EncodeScope(r.scope) && m.identityId == EncodeId(r.identityId)
      && m.authority == Some(EncodeAuthority(r.authority)) && m.target == EncodeId(r.target)
  {
    if m.authority.Some? { AuthorityBijection(m.authority.value, r.authority); }
    ScopeBijection(m.scope, r.scope);
    hide DecodeAuthority, EncodeAuthority, DecodeScope, EncodeScope, IdBytes;
  }
}
