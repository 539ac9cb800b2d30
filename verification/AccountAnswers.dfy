/** What the account server answers and what an answer commits it to: every route over the request and the maps
    alone, and over every run what a user has been told. */
module AccountAnswers {
  import opened Base
  import opened AccountServer
  import opened AccountSafety

  // ---- route by route -------------------------------------------------------------------------------

  /** Every begin is answered with the next id, the drawn nonce and the binding to prove, and stores exactly what it
      answered. A signup is for a newly numbered participant whose first Device has the same number. */
  lemma BeginAnswers(s: Server, binding: Binding, nonce: string)
    ensures var id, n := s.challengeSequence + 1, s.number + 1;
      var own := Binding("public-self-service", None, Numbered(n), Numbered(n));
      && Handle(s, SignupBegin(nonce)) == (s.(number := n, challengeSequence := id,
           challenges := s.challenges[id := Challenge(own, nonce, Signup)]), Issued(id, nonce, own))
      && Handle(s, RecoverBegin(binding, nonce)) == (s.(challengeSequence := id,
           challenges := s.challenges[id := Challenge(binding, nonce, Recover)]), Issued(id, nonce, binding))
      && Handle(s, LoginChallenge(binding, nonce)) == (s.(challengeSequence := id,
           challenges := s.challenges[id := Challenge(binding, nonce, Login)]), Issued(id, nonce, binding))
  {
  }

  /** The challenge `id` of a kind, if it is still open. */
  ghost predicate Open(s: Server, id: nat, kind: Kind) { id in s.challenges && s.challenges[id].kind == kind }

  ghost predicate Usable(s: Server, b: Binding) {
    && b.participantId in s.accounts && b.deviceId in s.accounts[b.participantId].devices
    && !s.accounts[b.participantId].devices[b.deviceId].revoked
  }

  /** A finish is refused, with nothing changed, unless it names an open challenge of its kind and the very binding
      of that challenge. Otherwise the challenge is gone and the check asks for the request's own key over
      a statement of the binding, the key, the challenge and its nonce. */
  lemma FinishAnswers(s: Server, e: Event)
    requires e.Finish?
    ensures var (t, r) := Handle(s, e);
      if !Open(s, e.challengeId, if e.signup then Signup else Recover) || s.challenges[e.challengeId].binding != e.binding
      then t == s && r == Refused(403)
      else
        var proof := EnrolProof(e.signup, e.binding, e.keyId, e.publicKey, e.challengeId, s.challenges[e.challengeId].nonce);
        var w := Enrolling(e.transport, e.signup, e.binding, e.keyId, e.publicKey, e.recoveryCode,
                           Check(e.publicKey, e.signature, proof));
        && r == Suspended(s.tickets)
        && t == s.(challenges := s.challenges - {e.challengeId}, waiting := s.waiting[s.tickets := w], tickets := s.tickets + 1)
  {
  }

  /** A login is refused, with nothing changed, unless it names an open login challenge and an active Device. The
      check asks for the key on record, never for one of the request. */
  lemma LoginAnswers(s: Server, e: Event)
    requires e.LoginVerify?
    ensures var (t, r) := Handle(s, e);
      if !Open(s, e.challengeId, Login) || !Usable(s, e.binding) then t == s && r == Refused(401)
      else
        var key := s.accounts[e.binding.participantId].devices[e.binding.deviceId].publicKey;
        var w := SigningIn(e.transport, e.binding,
                           Check(key, e.signature, LoginProof(e.binding, e.challengeId, s.challenges[e.challengeId].nonce)));
        && r == Suspended(s.tickets)
        && t == s.(challenges := s.challenges - {e.challengeId}, waiting := s.waiting[s.tickets := w], tickets := s.tickets + 1)
  {
  }

  /** After the check the request is no longer waiting, whatever the verdict. Only a valid signature signs anybody in,
      and then exactly the waiting transport as the waiting binding. */
  lemma ResumeAnswers(s: Server, ticket: nat, verdict: Verdict, draw: string)
    requires ticket in s.waiting
    ensures var (t, r) := Handle(s, Resume(ticket, verdict, draw));
      var w := s.waiting[ticket];
      && t.(accounts := s.accounts, sessions := s.sessions) == s.(waiting := s.waiting - {ticket})
      && (r.Admitted? || r.SignedIn? <==> verdict == Valid && (w.Enrolling? ==> Admissible(s, w)))
      && (r.Admitted? || r.SignedIn? ==> t.sessions == s.sessions[w.transport := w.binding] && r.binding == w.binding)
      && (!(r.Admitted? || r.SignedIn?) ==> t.accounts == s.accounts && t.sessions == s.sessions)
      && (r.SignedIn? ==> t.accounts == s.accounts && w.SigningIn?)
      && (r.Admitted? ==> w.Enrolling?)
      && (verdict == Failed ==> r == Crashed)
      && (verdict == Invalid ==> r == Refused(if w.SigningIn? then 401 else 403))
      && (verdict == Valid && w.Enrolling? && !Admissible(s, w) ==> r == Refused(if w.signup then 409 else 403))
  {
  }

  /** A signup needs a new participant and sends no recovery code; a recovery needs the account's current code and a new Device. */
  ghost predicate Admissible(s: Server, w: Pending)
    requires w.Enrolling?
  {
    var p := w.binding.participantId;
    if w.signup then p !in s.accounts && w.recoveryCode == None
    else p in s.accounts && w.recoveryCode == Some(s.accounts[p].code) && w.binding.deviceId !in s.accounts[p].devices
  }

  /** A ticket that is not waiting is unknown. */
  lemma UnknownTicket(s: Server, ticket: nat, verdict: Verdict, draw: string)
    requires ticket !in s.waiting
    ensures Handle(s, Resume(ticket, verdict, draw)) == (s, Refused(404))
  {
  }

  ghost predicate NeedsSession(e: Event) {
    e.Inspect? || e.ListDevices? || e.RotateRecovery? || e.Revoke? || e.Logout? || e.OtherRoute?
  }

  ghost predicate Authenticated(s: Server, e: Event)
    requires NeedsSession(e)
  {
    e.transport in s.sessions && s.sessions[e.transport] == e.binding
  }

  /** Without a session of exactly the named binding every such route is refused; looking a session up needs an active Device. */
  lemma SessionNeeded(s: Server, e: Event)
    ensures NeedsSession(e) && !Authenticated(s, e) ==> Handle(s, e) == (s, Refused(401))
    ensures e.SessionLookup? ==> Handle(s, e) == (s,
      if e.transport in s.sessions && Usable(s, s.sessions[e.transport]) then SignedIn(s.sessions[e.transport]) else Refused(401))
  {
  }

  /** Reading the Devices of the session's account: the key on record of an active Device, and every Device with
      whether it is revoked. Nothing changes. */
  lemma ReadAnswers(s: Server, e: Event)
    requires (e.Inspect? || e.ListDevices? || e.OtherRoute?) && Authenticated(s, e) && e.binding.participantId in s.accounts
    ensures Handle(s, e).0 == s
    ensures var r, devices := Handle(s, e).1, s.accounts[e.binding.participantId].devices;
      match e
      case Inspect(_, b) =>
        if !Usable(s, b) then r == Refused(401)
        else r == DeviceActive(devices[b.deviceId].keyId, devices[b.deviceId].publicKey)
      case ListDevices(_, _) =>
        r.Devices? && r.revoked.Keys == devices.Keys && forall d :: d in devices ==> r.revoked[d] == devices[d].revoked
      case _ => r == Refused(404)
  {
  }

  /** Rotation replaces the code of the session's account and tells it; logout ends this session only; revocation
      revokes the named Device and ends this session exactly when it revoked its own Device. */
  lemma WriteAnswers(s: Server, e: Event)
    requires (e.RotateRecovery? || e.Logout? || e.Revoke?) && Authenticated(s, e) && e.binding.participantId in s.accounts
    ensures var (t, r) := Handle(s, e);
      var p := e.binding.participantId;
      match e
      case RotateRecovery(_, _, draw) =>
        r == Rotated(draw) && t == s.(accounts := s.accounts[p := Account(s.accounts[p].devices, draw)])
      case Logout(k, _) => r == SignedOut && t == s.(sessions := s.sessions - {k})
      case Revoke(k, b, d) =>
        if d !in s.accounts[p].devices then r == Refused(404) && t == s
        else
          var was := s.accounts[p].devices[d];
          && r == DeviceRevoked
          && t == s.(accounts := s.accounts[p := Account(s.accounts[p].devices[d := Device(was.keyId, was.publicKey, true)],
                                                         s.accounts[p].code)],
                     sessions := if d == b.deviceId then s.sessions - {k} else s.sessions)
  {
  }

  // ---- over every run -------------------------------------------------------------------------------

  /** Whoever is admitted, at signup or by recovery, is told the code just drawn, which is the account's code from then
      on; the waiting transport is signed in as the answered binding, whose Device holds the proved key. */
  lemma AdmittedIsTold(events: seq<Event>, i: nat)
    requires i < |events| && Answer(events, i).Admitted?
    ensures var e, r, s, t := events[i], Answer(events, i), At(events, i), At(events, i + 1);
      && e.Resume? && e.verdict == Valid && e.ticket in s.waiting && s.waiting[e.ticket].Enrolling?
      && r.recoveryCode == e.draw && r.binding == s.waiting[e.ticket].binding
      && (var p, w := r.binding.participantId, s.waiting[e.ticket];
          && p in t.accounts && t.accounts[p].code == e.draw
          && t.accounts[p].devices == (if w.signup then map[] else s.accounts[p].devices)
                                      [r.binding.deviceId := Device(w.keyId, w.publicKey, false)]
          && t.accounts - {p} == s.accounts - {p}
          && t.sessions == s.sessions[w.transport := r.binding])
  {
    AtUnfolds(events, i);
    AdmissionTells(At(events, i), events[i]);
    hide Handle, Step;
  }

  lemma AdmissionTells(s: Server, e: Event)
    requires Handle(s, e).1.Admitted?
    ensures var (t, r) := Handle(s, e);
      && e.Resume? && e.verdict == Valid && e.ticket in s.waiting && s.waiting[e.ticket].Enrolling?
      && r.recoveryCode == e.draw && r.binding == s.waiting[e.ticket].binding
      && (var p, w := r.binding.participantId, s.waiting[e.ticket];
          && (!w.signup ==> p in s.accounts)
          && p in t.accounts && t.accounts[p].code == e.draw
          && t.accounts[p].devices == (if w.signup then map[] else s.accounts[p].devices)
                                      [r.binding.deviceId := Device(w.keyId, w.publicKey, false)]
          && t.accounts - {p} == s.accounts - {p}
          && t.sessions == s.sessions[w.transport := r.binding])
  {
    hide SessionIs, Live;
  }

  /** The recovery code the answer to event `i` gave to participant `p`, if it gave one. */
  ghost function Told(events: seq<Event>, i: nat, p: Name): Option<string>
    requires i < |events|
  {
    match Answer(events, i)
    case Admitted(b, code) => if b.participantId == p then Some(code) else None
    case Rotated(code) => if events[i].RotateRecovery? && events[i].binding.participantId == p then Some(code) else None
    case _ => None
  }

  ghost predicate LastTold(events: seq<Event>, k: nat, i: nat, p: Name)
    requires i <= |events|
  {
    && k < i && Told(events, k, p).Some?
    && (forall m :: k < m < i ==> Told(events, m, p) == None)
  }

  lemma CodesAsAnswered(s: Server, e: Event, p: Name)
    ensures var (t, r) := Handle(s, e);
      if r.Admitted? && r.binding.participantId == p then p in t.accounts && t.accounts[p].code == r.recoveryCode
      else if r.Rotated? && e.RotateRecovery? && e.binding.participantId == p then
        p in t.accounts && t.accounts[p].code == r.recoveryCode
      else
        && (p in t.accounts <==> p in s.accounts)
        && (p in s.accounts ==> t.accounts[p].code == s.accounts[p].code)
  {
    if e.Resume? && e.ticket in s.waiting {
      ResumeAnswers(s, e.ticket, e.verdict, e.draw);
      if Handle(s, e).1.Admitted? {
        AdmissionTells(s, e);
        OthersUntouched(s.accounts, Handle(s, e).0.accounts, Handle(s, e).1.binding.participantId, p);
      }
      hide Handle;
    } else if (e.RotateRecovery? || e.Logout? || e.Revoke?) && Authenticated(s, e) && e.binding.participantId in s.accounts {
      WriteAnswers(s, e);
      hide Handle;
    } else {
      hide Enrol;
    }
  }

  lemma OthersUntouched(a: map<Name, Account>, b: map<Name, Account>, p: Name, q: Name)
    requires a - {p} == b - {p}
    ensures q != p ==> (q in a <==> q in b) && (q in a ==> a[q] == b[q])
  {
    assert q != p ==> (q in a <==> q in a - {p}) && (q in b <==> q in b - {p});
  }

  lemma StepTells(events: seq<Event>, i: nat, p: Name)
    requires i < |events|
    ensures Told(events, i, p).Some? ==>
      p in At(events, i + 1).accounts && At(events, i + 1).accounts[p].code == Told(events, i, p).value
    ensures Told(events, i, p).None? ==>
      && (p in At(events, i + 1).accounts <==> p in At(events, i).accounts)
      && (p in At(events, i).accounts ==> At(events, i + 1).accounts[p].code == At(events, i).accounts[p].code)
  {
    AtUnfolds(events, i);
    CodesAsAnswered(At(events, i), events[i], p);
    hide At, Handle;
  }

  /** In every run an account exists exactly when its owner has been told a code, and the code told last is the
      account's code: nobody is locked out by an answer they were given. */
  lemma {:induction false} LastToldCodeIsCurrent(events: seq<Event>, i: nat, p: Name)
    requires i <= |events|
    ensures p in At(events, i).accounts <==> exists k :: LastTold(events, k, i, p)
    ensures forall k :: LastTold(events, k, i, p) ==>
      p in At(events, i).accounts && At(events, i).accounts[p].code == Told(events, k, p).value
    decreases i
  {
    hide At, Told;
    if i == 0 {
      NobodyYet(events, p);
    } else {
      var j := i - 1;
      LastToldCodeIsCurrent(events, j, p);
      StepTells(events, j, p);
      if Told(events, j, p).Some? {
        assert LastTold(events, j, i, p);
      } else {
        forall k ensures LastTold(events, k, i, p) <==> LastTold(events, k, j, p) {
        }
      }
    }
  }

  lemma NobodyYet(events: seq<Event>, p: Name)
    ensures p !in At(events, 0).accounts
  {
  }
}
