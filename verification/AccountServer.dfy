/** The first-party account server shared by all browser sessions:
    `sdk/typescript/first_party_account_conformance.ts`. A request that waits for a signature check is two
    steps, so other requests may run between them. */
module AccountServer {
  import opened Base

  /** A participant or Device id: one this server numbered itself, or any other text. */
  datatype Name = Numbered(n: nat) | Text(text: string)

  datatype Binding = Binding(tenantId: string, namespaceId: Option<string>, participantId: Name, deviceId: Name)

  datatype Device = Device(keyId: string, publicKey: string, revoked: bool)

  datatype Account = Account(devices: map<Name, Device>, code: string)

  datatype Kind = Signup | Recover | Login

  datatype Challenge = Challenge(binding: Binding, nonce: string, kind: Kind)

  /** The statement a Device signs; it names the challenge and its nonce. */
  datatype Proof =
    | EnrolProof(signup: bool, binding: Binding, keyId: string, publicKey: string, challengeId: nat, nonce: string)
    | LoginProof(binding: Binding, challengeId: nat, nonce: string)

  /** What the signature verifier is asked. */
  datatype Check = Check(publicKey: string, signature: string, proof: Proof)

  datatype Verdict = Valid | Invalid | Failed

  /** A request suspended at its signature check, with everything it carries across the wait. */
  datatype Pending =
    | Enrolling(transport: nat, signup: bool, binding: Binding, keyId: string, publicKey: string,
                recoveryCode: Option<string>, check: Check)
    | SigningIn(transport: nat, binding: Binding, check: Check)

  datatype Server = Server(
    accounts: map<Name, Account>,
    challenges: map<nat, Challenge>,
    number: nat,
    challengeSequence: nat,
    sessions: map<nat, Binding>,
    waiting: map<nat, Pending>,
    tickets: nat)

  const Empty := Server(map[], map[], 0, 0, map[], map[], 0)
  const TENANT := "public-self-service"

  /** Requests as the server sees them. Randomness is part of the request; challenge id 0 stands for any text
      that is not of the form the server issues. */
  datatype Event =
    | SessionLookup(transport: nat)
    | SignupBegin(nonce: string)
    | RecoverBegin(binding: Binding, nonce: string)
    | LoginChallenge(binding: Binding, nonce: string)
    | Finish(transport: nat, signup: bool, challengeId: nat, binding: Binding, keyId: string, publicKey: string,
             signature: string, recoveryCode: Option<string>)
    | LoginVerify(transport: nat, challengeId: nat, binding: Binding, signature: string)
    | Resume(ticket: nat, verdict: Verdict, draw: string)
    | Inspect(transport: nat, binding: Binding)
    | ListDevices(transport: nat, binding: Binding)
    | RotateRecovery(transport: nat, binding: Binding, draw: string)
    | Revoke(transport: nat, binding: Binding, deviceId: Name)
    | Logout(transport: nat, binding: Binding)
    | OtherRoute(transport: nat, binding: Binding)

  datatype Response =
    | Refused(status: int)
    | Issued(challengeId: nat, nonce: string, binding: Binding)
    | Suspended(ticket: nat)
    | Crashed
    | SignedIn(binding: Binding)
    | Admitted(binding: Binding, recoveryCode: string)
    | DeviceActive(keyId: string, publicKey: string)
    | Devices(revoked: map<Name, bool>)
    | Rotated(recoveryCode: string)
    | DeviceRevoked
    | SignedOut

  // ---- the route table as a step function -----------------------------------------------------------

  predicate HasDevice(s: Server, p: Name, d: Name) {
    p in s.accounts && d in s.accounts[p].devices
  }

  function DeviceOf(s: Server, p: Name, d: Name): Device
    requires HasDevice(s, p, d)
  {
    s.accounts[p].devices[d]
  }

  predicate Live(s: Server, b: Binding) {
    HasDevice(s, b.participantId, b.deviceId) && !DeviceOf(s, b.participantId, b.deviceId).revoked
  }

  function Challenged(s: Server, binding: Binding, nonce: string, kind: Kind): (Server, Response) {
    var id := s.challengeSequence + 1;
    (s.(challengeSequence := id, challenges := s.challenges[id := Challenge(binding, nonce, kind)]),
     Issued(id, nonce, binding))
  }

  function SignupBinding(n: nat): Binding { Binding(TENANT, None, Numbered(n), Numbered(n)) }

  function Suspend(s: Server, challengeId: nat, pending: Pending): (Server, Response) {
    (s.(challenges := s.challenges - {challengeId}, waiting := s.waiting[s.tickets := pending],
        tickets := s.tickets + 1),
     Suspended(s.tickets))
  }

  function FinishKind(signup: bool): Kind { if signup then Signup else Recover }

  function BeginFinish(s: Server, e: Event): (Server, Response)
    requires e.Finish?
  {
    if e.challengeId !in s.challenges || s.challenges[e.challengeId].kind != FinishKind(e.signup)
       || s.challenges[e.challengeId].binding != e.binding
    then (s, Refused(403))
    else
      var nonce := s.challenges[e.challengeId].nonce;
      var proof := EnrolProof(e.signup, e.binding, e.keyId, e.publicKey, e.challengeId, nonce);
      Suspend(s, e.challengeId, Enrolling(e.transport, e.signup, e.binding, e.keyId, e.publicKey, e.recoveryCode,
                                          Check(e.publicKey, e.signature, proof)))
  }

  function BeginLogin(s: Server, e: Event): (Server, Response)
    requires e.LoginVerify?
  {
    if e.challengeId !in s.challenges || !s.challenges[e.challengeId].kind.Login? || !Live(s, e.binding)
    then (s, Refused(401))
    else
      var key := DeviceOf(s, e.binding.participantId, e.binding.deviceId).publicKey;
      var proof := LoginProof(e.binding, e.challengeId, s.challenges[e.challengeId].nonce);
      Suspend(s, e.challengeId, SigningIn(e.transport, e.binding, Check(key, e.signature, proof)))
  }

  /** Whether the account state lets a correctly signed enrolment through. */
  function EnrolRefusal(s: Server, w: Pending): Option<int>
    requires w.Enrolling?
  {
    var p := w.binding.participantId;
    if w.signup then
      if p in s.accounts || w.recoveryCode.Some? then Some(409) else None
    else if p !in s.accounts || Some(s.accounts[p].code) != w.recoveryCode
            || w.binding.deviceId in s.accounts[p].devices then Some(403)
    else None
  }

  function Enrol(s: Server, w: Pending, draw: string): (Server, Response)
    requires w.Enrolling?
  {
    var refusal := EnrolRefusal(s, w);
    if refusal.Some? then (s, Refused(refusal.value))
    else
      var p := w.binding.participantId;
      var known := if p in s.accounts then s.accounts[p].devices else map[];
      var account := Account(known[w.binding.deviceId := Device(w.keyId, w.publicKey, false)], draw);
      (s.(accounts := s.accounts[p := account], sessions := s.sessions[w.transport := w.binding]),
       Admitted(w.binding, draw))
  }

  function Continue(s: Server, ticket: nat, verdict: Verdict, draw: string): (Server, Response) {
    if ticket !in s.waiting then (s, Refused(404))
    else
      var w := s.waiting[ticket];
      var t := s.(waiting := s.waiting - {ticket});
      if verdict.Failed? then (t, Crashed)
      else if verdict.Invalid? then (t, Refused(if w.Enrolling? then 403 else 401))
      else if w.Enrolling? then Enrol(t, w, draw)
      else (t.(sessions := t.sessions[w.transport := w.binding]), SignedIn(w.binding))
  }

  predicate SessionIs(s: Server, transport: nat, binding: Binding) {
    transport in s.sessions && s.sessions[transport] == binding
  }

  function RevokeDevice(s: Server, transport: nat, binding: Binding, d: Name): (Server, Response)
    requires binding.participantId in s.accounts
  {
    var account := s.accounts[binding.participantId];
    if d !in account.devices then (s, Refused(404))
    else
      var devices := account.devices[d := account.devices[d].(revoked := true)];
      var t := s.(accounts := s.accounts[binding.participantId := account.(devices := devices)]);
      (if d == binding.deviceId then t.(sessions := t.sessions - {transport}) else t, DeviceRevoked)
  }

  /** The routes behind an authenticated session. The `Crashed` branch is never reached (`AccountSafety.SessionsHaveAccounts`). */
  function OnSession(s: Server, e: Event): (Server, Response)
    requires e.Inspect? || e.ListDevices? || e.RotateRecovery? || e.Revoke? || e.Logout? || e.OtherRoute?
  {
    if !SessionIs(s, e.transport, e.binding) then (s, Refused(401))
    else if e.binding.participantId !in s.accounts then (s, Crashed)
    else
      var account := s.accounts[e.binding.participantId];
      match e
      case Inspect(_, b) =>
        if !Live(s, b) then (s, Refused(401))
        else
          var device := DeviceOf(s, b.participantId, b.deviceId);
          (s, DeviceActive(device.keyId, device.publicKey))
      case ListDevices(_, _) => (s, Devices(map d | d in account.devices :: account.devices[d].revoked))
      case RotateRecovery(_, b, draw) =>
        (s.(accounts := s.accounts[b.participantId := account.(code := draw)]), Rotated(draw))
      case Revoke(transport, b, d) => RevokeDevice(s, transport, b, d)
      case Logout(transport, _) => (s.(sessions := s.sessions - {transport}), SignedOut)
      case _ => (s, Refused(404))
  }

  function Handle(s: Server, e: Event): (Server, Response) {
    match e
    case SessionLookup(t) =>
      (s, if t in s.sessions && Live(s, s.sessions[t]) then SignedIn(s.sessions[t]) else Refused(401))
    case SignupBegin(nonce) =>
      Challenged(s.(number := s.number + 1), SignupBinding(s.number + 1), nonce, Signup)
    case RecoverBegin(binding, nonce) => Challenged(s, binding, nonce, Recover)
    case LoginChallenge(binding, nonce) => Challenged(s, binding, nonce, Login)
    case Finish(_, _, _, _, _, _, _, _) => BeginFinish(s, e)
    case LoginVerify(_, _, _, _) => BeginLogin(s, e)
    case Resume(ticket, verdict, draw) => Continue(s, ticket, verdict, draw)
    case _ => OnSession(s, e)
  }

  function Step(s: Server, e: Event): Server { Handle(s, e).0 }

  /** The state before event `i` of a run, and the answer to it. */
  function At(events: seq<Event>, i: nat): Server
    requires i <= |events|
    decreases i
  {
    if i == 0 then Empty else Step(At(events, i - 1), events[i - 1])
  }

  function Answer(events: seq<Event>, i: nat): Response
    requires i < |events|
  {
    Handle(At(events, i), events[i]).1
  }

  // ---- the server itself ----------------------------------------------------------------------------

  class AccountService {
    var accounts: map<Name, Account>
    var challenges: map<nat, Challenge>
    var number: nat
    var challengeSequence: nat
    var sessions: map<nat, Binding>
    var waiting: map<nat, Pending>
    var tickets: nat

    function View(): Server
      reads this
    {
      Server(accounts, challenges, number, challengeSequence, sessions, waiting, tickets)
    }

    constructor ()
      ensures View() == Empty
    {
      accounts, challenges, sessions, waiting := map[], map[], map[], map[];
      number, challengeSequence, tickets := 0, 0, 0;
    }

    method IssueChallenge(binding: Binding, nonce: string, kind: Kind) returns (r: Response)
      modifies this
      ensures (View(), r) == Challenged(old(View()), binding, nonce, kind)
    {
      challengeSequence := challengeSequence + 1;
      challenges := challenges[challengeSequence := Challenge(binding, nonce, kind)];
      return Issued(challengeSequence, nonce, binding);
    }

    method Await(challengeId: nat, pending: Pending) returns (r: Response)
      modifies this
      ensures (View(), r) == Suspend(old(View()), challengeId, pending)
    {
      challenges := challenges - {challengeId};
      waiting := waiting[tickets := pending];
      tickets := tickets + 1;
      return Suspended(tickets - 1);
    }

    method HandleFinish(e: Event) returns (r: Response)
      requires e.Finish?
      modifies this
      ensures (View(), r) == BeginFinish(old(View()), e)
    {
      if e.challengeId !in challenges { return Refused(403); }
      var pending := challenges[e.challengeId];
      if pending.kind != FinishKind(e.signup) || pending.binding != e.binding { return Refused(403); }
      var proof := EnrolProof(e.signup, e.binding, e.keyId, e.publicKey, e.challengeId, pending.nonce);
      r := Await(e.challengeId, Enrolling(e.transport, e.signup, e.binding, e.keyId, e.publicKey, e.recoveryCode,
                                          Check(e.publicKey, e.signature, proof)));
    }

    method HandleLoginVerify(e: Event) returns (r: Response)
      requires e.LoginVerify?
      modifies this
      ensures (View(), r) == BeginLogin(old(View()), e)
    {
      if e.challengeId !in challenges || challenges[e.challengeId].kind != Login { return Refused(401); }
      var b := e.binding;
      if b.participantId !in accounts || b.deviceId !in accounts[b.participantId].devices { return Refused(401); }
      var trusted := accounts[b.participantId].devices[b.deviceId];
      if trusted.revoked { return Refused(401); }
      var proof := LoginProof(b, e.challengeId, challenges[e.challengeId].nonce);
      r := Await(e.challengeId, SigningIn(e.transport, b, Check(trusted.publicKey, e.signature, proof)));
    }

    /** The enrolment after its signature check passed. */
    method HandleEnrol(w: Pending, draw: string) returns (r: Response)
      requires w.Enrolling?
      modifies this
      ensures (View(), r) == Enrol(old(View()), w, draw)
    {
      var p, d := w.binding.participantId, w.binding.deviceId;
      if w.signup {
        if p in accounts || w.recoveryCode.Some? { return Refused(409); }
        accounts := accounts[p := Account(map[], "")];
      } else if p !in accounts || Some(accounts[p].code) != w.recoveryCode || d in accounts[p].devices {
        return Refused(403);
      }
      var account := accounts[p];
      account := account.(devices := account.devices[d := Device(w.keyId, w.publicKey, false)]);
      account := account.(code := draw);
      accounts := accounts[p := account];
      sessions := sessions[w.transport := w.binding];
      assert accounts == old(accounts)[p := account];
      return Admitted(w.binding, account.code);
    }

    method HandleResume(ticket: nat, verdict: Verdict, draw: string) returns (r: Response)
      modifies this
      ensures (View(), r) == Continue(old(View()), ticket, verdict, draw)
    {
      if ticket !in waiting { return Refused(404); }
      var w := waiting[ticket];
      waiting := waiting - {ticket};
      match verdict {
        case Failed => return Crashed;
        case Invalid => return Refused(if w.Enrolling? then 403 else 401);
        case Valid =>
          if w.Enrolling? {
            r := HandleEnrol(w, draw);
          } else {
            sessions := sessions[w.transport := w.binding];
            return SignedIn(w.binding);
          }
      }
    }

    method HandleRevoke(transport: nat, b: Binding, d: Name) returns (r: Response)
      requires b.participantId in accounts
      modifies this
      ensures (View(), r) == RevokeDevice(old(View()), transport, b, d)
    {
      var account := accounts[b.participantId];
      if d !in account.devices { return Refused(404); }
      var signer := account.devices[d].(revoked := true);
      accounts := accounts[b.participantId := account.(devices := account.devices[d := signer])];
      if d == b.deviceId { sessions := sessions - {transport}; }
      return DeviceRevoked;
    }

    method HandleSession(e: Event) returns (r: Response)
      requires e.Inspect? || e.ListDevices? || e.RotateRecovery? || e.Revoke? || e.Logout? || e.OtherRoute?
      modifies this
      ensures (View(), r) == OnSession(old(View()), e)
    {
      if e.transport !in sessions || sessions[e.transport] != e.binding { return Refused(401); }
      if e.binding.participantId !in accounts { return Crashed; }
      var account := accounts[e.binding.participantId];
      match e {
        case Inspect(_, b) =>
          if b.deviceId !in account.devices || account.devices[b.deviceId].revoked { return Refused(401); }
          return DeviceActive(account.devices[b.deviceId].keyId, account.devices[b.deviceId].publicKey);
        case ListDevices(_, _) =>
          return Devices(map d | d in account.devices :: account.devices[d].revoked);
        case RotateRecovery(_, b, draw) =>
          accounts := accounts[b.participantId := account.(code := draw)];
          return Rotated(draw);
        case Revoke(transport, b, d) => r := HandleRevoke(transport, b, d);
        case Logout(transport, _) => sessions := sessions - {transport}; return SignedOut;
        case OtherRoute(_, _) => return Refused(404);
      }
    }

    method Serve(e: Event) returns (r: Response)
      modifies this
      ensures (View(), r) == Handle(old(View()), e)
    {
      match e {
        case SessionLookup(t) =>
          if t !in sessions { return Refused(401); }
          var b := sessions[t];
          if b.participantId !in accounts || b.deviceId !in accounts[b.participantId].devices
             || accounts[b.participantId].devices[b.deviceId].revoked { return Refused(401); }
          return SignedIn(b);
        case SignupBegin(nonce) =>
          number := number + 1;
          r := IssueChallenge(SignupBinding(number), nonce, Signup);
        case RecoverBegin(binding, nonce) => r := IssueChallenge(binding, nonce, Recover);
        case LoginChallenge(binding, nonce) => r := IssueChallenge(binding, nonce, Login);
        case Finish(_, _, _, _, _, _, _, _) => r := HandleFinish(e);
        case LoginVerify(_, _, _, _) => r := HandleLoginVerify(e);
        case Resume(ticket, verdict, draw) => r := HandleResume(ticket, verdict, draw);
        case _ => r := HandleSession(e);
      }
    }
  }
}
