/** Runs of the account server, from its empty state, that show where its promises end. */
module AccountExamples {
  import opened Base
  import opened AccountServer
  import opened AccountSafety

  const FIRST := Numbered(1)
  const HOME := SignupBinding(1)

  /** Transport 0 signs up: begin, finish, and a signature check that passes. */
  function Signup(nonce: string, key: string, signature: string, code: string): seq<Event> {
    [SignupBegin(nonce), Finish(0, true, 1, HOME, "k1", key, signature, None), Resume(0, Valid, code)]
  }

  /** The state it leaves. */
  function SignedUp(key: string, code: string): Server {
    Server(map[FIRST := Account(map[FIRST := Device("k1", key, false)], code)], map[], 1, 1, map[0 := HOME], map[], 1)
  }

  lemma SignupLeads(events: seq<Event>, nonce: string, key: string, signature: string, code: string)
    requires Signup(nonce, key, signature, code) <= events
    ensures At(events, 3) == SignedUp(key, code)
  {
    var run := Signup(nonce, key, signature, code);
    assert events[0] == run[0] && events[1] == run[1] && events[2] == run[2];
    AtUnfolds(events, 0);
    AtUnfolds(events, 1);
    AtUnfolds(events, 2);
    var began := Server(map[], map[1 := Challenge(HOME, nonce, AccountServer.Signup)], 1, 1, map[], map[], 0);
    assert At(events, 1) == began;
    hide At;
    SignupSuspends(nonce, key, signature);
    SignupResumes(nonce, key, signature, code);
  }

  function SignupPending(nonce: string, key: string, signature: string): Pending {
    Enrolling(0, true, HOME, "k1", key, None, Check(key, signature, EnrolProof(true, HOME, "k1", key, 1, nonce)))
  }

  lemma SignupSuspends(nonce: string, key: string, signature: string)
    ensures var began := Server(map[], map[1 := Challenge(HOME, nonce, AccountServer.Signup)], 1, 1, map[], map[], 0);
      Step(began, Finish(0, true, 1, HOME, "k1", key, signature, None)) ==
        Server(map[], map[], 1, 1, map[], map[0 := SignupPending(nonce, key, signature)], 1)
  {
    assert map[1 := Challenge(HOME, nonce, AccountServer.Signup)] - {1} == map[];
  }

  lemma SignupResumes(nonce: string, key: string, signature: string, code: string)
    ensures Step(Server(map[], map[], 1, 1, map[], map[0 := SignupPending(nonce, key, signature)], 1), Resume(0, Valid, code))
      == SignedUp(key, code)
  {
    assert map[0 := SignupPending(nonce, key, signature)] - {0} == map[];
  }

  // ---- a login challenge is not bound -----------------------------------------------------------------

  function BorrowedLogin(nonce: string, key: string, signature: string, code: string, other: Binding): seq<Event> {
    Signup(nonce, key, signature, code) +
    [LoginChallenge(other, nonce), LoginVerify(0, 2, HOME, signature), Resume(1, Valid, code)]
  }

  /** A login consumes and succeeds with a challenge that was issued for any other binding: only the kind of the
      challenge is compared. */
  lemma LoginChallengeIsNotBound(nonce: string, key: string, signature: string, code: string, other: Binding)
    requires other != HOME
    ensures var run := BorrowedLogin(nonce, key, signature, code, other);
      && Answer(run, 3) == Issued(2, nonce, other)
      && Consumes(run, 4, 2) && Answer(run, 5) == SignedIn(HOME)
  {
    hide At, Step, Handle, SignedUp;
    var run := BorrowedLogin(nonce, key, signature, code, other);
    SignupLeads(run, nonce, key, signature, code);
    AtUnfolds(run, 3);
    AtUnfolds(run, 4);
    ChallengeIssued(key, code, nonce, other);
    ChallengeUsed(key, code, nonce, other, signature);
    LoginResumes(key, code, signature, nonce);
  }

  function Challenged(key: string, code: string, nonce: string, other: Binding): Server {
    SignedUp(key, code).(challengeSequence := 2, challenges := map[2 := Challenge(other, nonce, Login)])
  }

  function Checking(key: string, code: string, signature: string, nonce: string): Server {
    var w := SigningIn(0, HOME, Check(key, signature, LoginProof(HOME, 2, nonce)));
    SignedUp(key, code).(challengeSequence := 2, tickets := 2, waiting := map[1 := w])
  }

  lemma ChallengeIssued(key: string, code: string, nonce: string, other: Binding)
    ensures Handle(SignedUp(key, code), LoginChallenge(other, nonce)).1 == Issued(2, nonce, other)
    ensures Step(SignedUp(key, code), LoginChallenge(other, nonce)) == Challenged(key, code, nonce, other)
  {
  }

  lemma ChallengeUsed(key: string, code: string, nonce: string, other: Binding, signature: string)
    ensures Step(Challenged(key, code, nonce, other), LoginVerify(0, 2, HOME, signature)) == Checking(key, code, signature, nonce)
    ensures 2 in Challenged(key, code, nonce, other).challenges && 2 !in Checking(key, code, signature, nonce).challenges
  {
    assert map[2 := Challenge(other, nonce, Login)] - {2} == map[];
  }

  lemma LoginResumes(key: string, code: string, signature: string, nonce: string)
    ensures Handle(Checking(key, code, signature, nonce), Resume(1, Valid, code)).1 == SignedIn(HOME)
  {
  }

  // ---- what a session can do after its Device was revoked -----------------------------------------------

  function SecondBinding(d: Name): Binding { HOME.(deviceId := d) }

  /** Transport 1 recovers a second Device, transport 0 revokes it, and transport 1 asks for a new code. */
  function RevokedRotation(nonce: string, key: string, signature: string, codes: (string, string, string), d: Name)
    : seq<Event>
  {
    Signup(nonce, key, signature, codes.0) +
    [RecoverBegin(SecondBinding(d), nonce),
     Finish(1, false, 2, SecondBinding(d), "k2", key, signature, Some(codes.0)),
     Resume(1, Valid, codes.1),
     Revoke(0, HOME, d),
     RotateRecovery(1, SecondBinding(d), codes.2)]
  }

  function TwoDevices(key: string, d: Name, revoked: bool): map<Name, Device> {
    map[FIRST := Device("k1", key, false)][d := Device("k2", key, revoked)]
  }

  function Recovered(key: string, code: string, d: Name, revoked: bool): Server {
    Server(map[FIRST := Account(TwoDevices(key, d, revoked), code)], map[], 1, 2, map[0 := HOME, 1 := SecondBinding(d)], map[], 2)
  }

  function RecoveryPending(nonce: string, key: string, signature: string, code: string, d: Name): Pending {
    var b := SecondBinding(d);
    Enrolling(1, false, b, "k2", key, Some(code), Check(key, signature, EnrolProof(false, b, "k2", key, 2, nonce)))
  }

  lemma RecoveryBegins(nonce: string, key: string, code: string, d: Name)
    ensures Step(SignedUp(key, code), RecoverBegin(SecondBinding(d), nonce)) ==
      SignedUp(key, code).(challengeSequence := 2, challenges := map[2 := Challenge(SecondBinding(d), nonce, Recover)])
  {
  }

  lemma RecoverySuspends(nonce: string, key: string, signature: string, code: string, d: Name)
    ensures Step(SignedUp(key, code).(challengeSequence := 2, challenges := map[2 := Challenge(SecondBinding(d), nonce, Recover)]),
                 Finish(1, false, 2, SecondBinding(d), "k2", key, signature, Some(code))) ==
      SignedUp(key, code).(challengeSequence := 2, tickets := 2,
                           waiting := map[1 := RecoveryPending(nonce, key, signature, code, d)])
  {
    assert map[2 := Challenge(SecondBinding(d), nonce, Recover)] - {2} == map[];
  }

  lemma RecoveryResumes(nonce: string, key: string, signature: string, code: string, draw: string, d: Name)
    requires d != FIRST
    ensures Step(SignedUp(key, code).(challengeSequence := 2, tickets := 2,
                                      waiting := map[1 := RecoveryPending(nonce, key, signature, code, d)]),
                 Resume(1, Valid, draw)) == Recovered(key, draw, d, false)
  {
    assert map[1 := RecoveryPending(nonce, key, signature, code, d)] - {1} == map[];
    var before, after := Account(map[FIRST := Device("k1", key, false)], code), Account(TwoDevices(key, d, false), draw);
    assert map[FIRST := before][FIRST := after] == map[FIRST := after];
    assert map[0 := HOME][1 := SecondBinding(d)] == map[0 := HOME, 1 := SecondBinding(d)];
  }

  lemma RecoveryLeads(run: seq<Event>, nonce: string, key: string, signature: string, codes: (string, string, string), d: Name)
    requires d != FIRST && run == RevokedRotation(nonce, key, signature, codes, d)
    ensures At(run, 6) == Recovered(key, codes.1, d, false)
  {
    hide At, Step, SignedUp, Recovered;
    SignupLeads(run, nonce, key, signature, codes.0);
    AtUnfolds(run, 3);
    AtUnfolds(run, 4);
    AtUnfolds(run, 5);
    RecoveryBegins(nonce, key, codes.0, d);
    RecoverySuspends(nonce, key, signature, codes.0, d);
    RecoveryResumes(nonce, key, signature, codes.0, codes.1, d);
  }

  lemma RevokeStep(key: string, code: string, d: Name)
    requires d != FIRST
    ensures Step(Recovered(key, code, d, false), Revoke(0, HOME, d)) == Recovered(key, code, d, true)
  {
    var before, after := Account(TwoDevices(key, d, false), code), Account(TwoDevices(key, d, true), code);
    assert before.devices[d := Device("k2", key, true)] == after.devices;
    assert map[FIRST := before][FIRST := after] == map[FIRST := after];
  }

  lemma RotateStep(key: string, code: string, draw: string, d: Name)
    requires d != FIRST
    ensures Handle(Recovered(key, code, d, true), RotateRecovery(1, SecondBinding(d), draw)) ==
      (Recovered(key, draw, d, true), Rotated(draw))
  {
    var before, after := Account(TwoDevices(key, d, true), code), Account(TwoDevices(key, d, true), draw);
    assert map[FIRST := before][FIRST := after] == map[FIRST := after];
  }

  /** Revocation does not end the revoked Device's own session: it may still rotate the recovery code, and is told
      the new one. */
  lemma RevokedDeviceRotates(nonce: string, key: string, signature: string, codes: (string, string, string), d: Name)
    requires d != FIRST
    ensures var run := RevokedRotation(nonce, key, signature, codes, d);
      && RevokedAt(run, 7, FIRST, d)
      && Answer(run, 7) == Rotated(codes.2) && At(run, 8) == Recovered(key, codes.2, d, true)
  {
    hide At, Step, Handle;
    var run := RevokedRotation(nonce, key, signature, codes, d);
    RecoveryLeads(run, nonce, key, signature, codes, d);
    AtUnfolds(run, 6);
    AtUnfolds(run, 7);
    RevokeStep(key, codes.1, d);
    RotateStep(key, codes.1, codes.2, d);
    assert At(run, 8) == Step(At(run, 7), run[7]);
    StepIsHandle(At(run, 7), run[7]);
  }

  lemma StepIsHandle(s: Server, e: Event)
    ensures Step(s, e) == Handle(s, e).0
  {
  }
}
