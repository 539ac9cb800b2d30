/** What holds over every run of the account server, with any number of sessions and any interleaving at the
    signature checks. */
module AccountSafety {
  import opened Base
  import opened AccountServer

  // ---- Devices never leave, and never change their key ----------------------------------------------

  ghost predicate Kept(s: Server, t: Server, p: Name, d: Name)
    requires HasDevice(s, p, d)
  {
    && HasDevice(t, p, d)
    && DeviceOf(t, p, d).keyId == DeviceOf(s, p, d).keyId
    && DeviceOf(t, p, d).publicKey == DeviceOf(s, p, d).publicKey
    && (DeviceOf(s, p, d).revoked ==> DeviceOf(t, p, d).revoked)
  }

  lemma StepKeepsDevice(s: Server, e: Event, p: Name, d: Name)
    requires HasDevice(s, p, d)
    ensures Kept(s, Step(s, e), p, d)
  {
    hide Enrol, OnSession, Live, Kept;
    match e
    case Resume(ticket, verdict, draw) => ContinueKeepsDevice(s, ticket, verdict, draw, p, d);
    case Inspect(_, _) => OnSessionKeepsDevice(s, e, p, d);
    case ListDevices(_, _) => OnSessionKeepsDevice(s, e, p, d);
    case RotateRecovery(_, _, _) => OnSessionKeepsDevice(s, e, p, d);
    case Revoke(_, _, _) => OnSessionKeepsDevice(s, e, p, d);
    case Logout(_, _) => OnSessionKeepsDevice(s, e, p, d);
    case OtherRoute(_, _) => OnSessionKeepsDevice(s, e, p, d);
    case _ => SameAccountsKeepDevice(s, Step(s, e), p, d);
  }

  lemma SameAccountsKeepDevice(s: Server, t: Server, p: Name, d: Name)
    requires HasDevice(s, p, d) && t.accounts == s.accounts
    ensures Kept(s, t, p, d)
  {
  }

  lemma EnrolKeepsDevice(s: Server, w: Pending, draw: string, p: Name, d: Name)
    requires HasDevice(s, p, d) && w.Enrolling?
    ensures Kept(s, Enrol(s, w, draw).0, p, d)
  {
  }

  lemma ContinueKeepsDevice(s: Server, ticket: nat, verdict: Verdict, draw: string, p: Name, d: Name)
    requires HasDevice(s, p, d)
    ensures Kept(s, Continue(s, ticket, verdict, draw).0, p, d)
  {
    hide Enrol;
    if ticket in s.waiting && s.waiting[ticket].Enrolling? {
      EnrolKeepsDevice(s.(waiting := s.waiting - {ticket}), s.waiting[ticket], draw, p, d);
    }
  }

  lemma OnSessionKeepsDevice(s: Server, e: Event, p: Name, d: Name)
    requires HasDevice(s, p, d)
    requires e.Inspect? || e.ListDevices? || e.RotateRecovery? || e.Revoke? || e.Logout? || e.OtherRoute?
    ensures Kept(s, OnSession(s, e).0, p, d)
  {
    hide Live, SessionIs;
  }

  lemma {:induction false} RunKeepsDevice(events: seq<Event>, i: nat, j: nat, p: Name, d: Name)
    requires i <= j <= |events| && HasDevice(At(events, i), p, d)
    ensures Kept(At(events, i), At(events, j), p, d)
    decreases j
  {
    hide Step, At;
    if i < j {
      RunKeepsDevice(events, i, j - 1, p, d);
      StepKeepsDevice(At(events, j - 1), events[j - 1], p, d);
      AtUnfolds(events, j - 1);
    }
  }

  lemma AtUnfolds(events: seq<Event>, i: nat)
    requires i < |events|
    ensures At(events, i + 1) == Step(At(events, i), events[i])
  {
  }

  // ---- what every reachable state satisfies -----------------------------------------------------------

  ghost predicate WaitingFits(s: Server, w: Pending) {
    match w
    case Enrolling(_, signup, b, keyId, key, _, check) =>
      && check.publicKey == key
      && check.proof.EnrolProof?
      && check.proof == EnrolProof(signup, b, keyId, key, check.proof.challengeId, check.proof.nonce)
    case SigningIn(_, b, check) =>
      && HasDevice(s, b.participantId, b.deviceId)
      && check.publicKey == DeviceOf(s, b.participantId, b.deviceId).publicKey
      && check.proof.LoginProof?
      && check.proof == LoginProof(b, check.proof.challengeId, check.proof.nonce)
  }

  ghost predicate Sound(s: Server) {
    && (forall id :: id in s.challenges ==> 1 <= id <= s.challengeSequence)
    && (forall t :: t in s.sessions ==> HasDevice(s, s.sessions[t].participantId, s.sessions[t].deviceId))
    && (forall k :: k in s.waiting ==> k < s.tickets && WaitingFits(s, s.waiting[k]))
  }

  lemma WaitingStillFits(s: Server, e: Event, w: Pending)
    requires WaitingFits(s, w)
    ensures WaitingFits(Step(s, e), w)
  {
    hide Step;
    if w.SigningIn? { StepKeepsDevice(s, e, w.binding.participantId, w.binding.deviceId); }
  }

  lemma StepIsSound(s: Server, e: Event)
    requires Sound(s)
    ensures Sound(Step(s, e))
  {
    hide Step, WaitingFits;
    StepChallenges(s, e);
    StepSessions(s, e);
    StepWaiting(s, e);
  }

  lemma StepChallenges(s: Server, e: Event)
    requires forall id :: id in s.challenges ==> 1 <= id <= s.challengeSequence
    ensures forall id :: id in Step(s, e).challenges ==> 1 <= id <= Step(s, e).challengeSequence
  {
  }

  /** A session that a step sets is that of the request it resumes. */
  lemma SessionOrigin(s: Server, e: Event, k: nat)
    requires k in Step(s, e).sessions && !(k in s.sessions && Step(s, e).sessions[k] == s.sessions[k])
    ensures e.Resume? && e.ticket in s.waiting && Step(s, e).sessions[k] == s.waiting[e.ticket].binding
    ensures var b := s.waiting[e.ticket].binding;
      s.waiting[e.ticket].Enrolling? ==> HasDevice(Step(s, e), b.participantId, b.deviceId)
  {
  }

  lemma StepSessions(s: Server, e: Event)
    requires Sound(s)
    ensures forall k :: k in Step(s, e).sessions ==>
      HasDevice(Step(s, e), Step(s, e).sessions[k].participantId, Step(s, e).sessions[k].deviceId)
  {
    hide Step;
    var t := Step(s, e);
    forall k | k in t.sessions ensures HasDevice(t, t.sessions[k].participantId, t.sessions[k].deviceId) {
      if k in s.sessions && t.sessions[k] == s.sessions[k] {
        StepKeepsDevice(s, e, s.sessions[k].participantId, s.sessions[k].deviceId);
      } else {
        SessionOrigin(s, e, k);
        if s.waiting[e.ticket].SigningIn? {
          assert WaitingFits(s, s.waiting[e.ticket]);
          StepKeepsDevice(s, e, t.sessions[k].participantId, t.sessions[k].deviceId);
        }
      }
    }
  }

  /** A request that a step suspends is the newest, and carries what it was checked with. */
  lemma NewWaiting(s: Server, e: Event, k: nat)
    requires k in Step(s, e).waiting && !(k in s.waiting && Step(s, e).waiting[k] == s.waiting[k])
    ensures k == s.tickets && Step(s, e).tickets == s.tickets + 1
    ensures WaitingFits(s, Step(s, e).waiting[k])
  {
    hide EnrolRefusal, SessionIs;
  }

  lemma TicketsGrow(s: Server, e: Event)
    ensures s.tickets <= Step(s, e).tickets
  {
    hide Live, HasDevice, DeviceOf, EnrolRefusal, SessionIs;
  }

  lemma StepWaiting(s: Server, e: Event)
    requires Sound(s)
    ensures forall k :: k in Step(s, e).waiting ==> k < Step(s, e).tickets && WaitingFits(Step(s, e), Step(s, e).waiting[k])
  {
    hide Step, WaitingFits;
    var t := Step(s, e);
    TicketsGrow(s, e);
    forall k | k in t.waiting ensures k < t.tickets && WaitingFits(t, t.waiting[k]) {
      if !(k in s.waiting && t.waiting[k] == s.waiting[k]) { NewWaiting(s, e, k); }
      WaitingStillFits(s, e, t.waiting[k]);
    }
  }

  lemma {:induction false} EveryStateIsSound(events: seq<Event>, i: nat)
    requires i <= |events|
    ensures Sound(At(events, i))
    decreases i
  {
    hide Step;
    if i > 0 {
      EveryStateIsSound(events, i - 1);
      StepIsSound(At(events, i - 1), events[i - 1]);
    }
  }

  /** The account behind a session is always there: no session route meets a missing account. */
  lemma SessionsHaveAccounts(events: seq<Event>, i: nat)
    requires i < |events| && !events[i].Resume?
    ensures !Answer(events, i).Crashed?
  {
    EveryStateIsSound(events, i);
    hide At;
  }

  // ---- challenges -----------------------------------------------------------------------------------

  ghost predicate Consumes(events: seq<Event>, i: nat, id: nat)
    requires i < |events|
  {
    id in At(events, i).challenges && id !in At(events, i + 1).challenges
  }

  /** A request of the challenge's own kind that names it: signup and recovery with the binding it was issued for,
      login for a trusted live Device. */
  ghost predicate Claims(s: Server, e: Event, id: nat)
    requires id in s.challenges
  {
    var c := s.challenges[id];
    match e
    case Finish(_, signup, named, binding, _, _, _, _) =>
      named == id && c.kind == FinishKind(signup) && c.binding == binding
    case LoginVerify(_, named, binding, _) => named == id && c.kind.Login? && Live(s, binding)
    case _ => false
  }

  lemma StepConsumes(s: Server, e: Event, id: nat)
    requires id in s.challenges && id <= s.challengeSequence
    ensures id !in Step(s, e).challenges <==> Claims(s, e, id)
  {
    hide Live, HasDevice, EnrolRefusal, SessionIs;
  }

  /** A challenge leaves the server exactly when a request of its own kind claims it. The signature plays no part. */
  lemma ConsumedByItsOwnKind(events: seq<Event>, i: nat, id: nat)
    requires i < |events| && id in At(events, i).challenges
    ensures Consumes(events, i, id) <==> Claims(At(events, i), events[i], id)
  {
    EveryStateIsSound(events, i);
    hide At, Step, Claims;
    AtUnfolds(events, i);
    StepConsumes(At(events, i), events[i], id);
  }

  lemma StepNeverReissues(s: Server, e: Event, id: nat)
    requires 1 <= id <= s.challengeSequence && id !in s.challenges
    ensures id <= Step(s, e).challengeSequence && id !in Step(s, e).challenges
  {
  }

  lemma {:induction false} SpentForGood(events: seq<Event>, i: nat, j: nat, id: nat)
    requires i <= j <= |events|
    requires 1 <= id <= At(events, i).challengeSequence && id !in At(events, i).challenges
    ensures id <= At(events, j).challengeSequence && id !in At(events, j).challenges
    decreases j
  {
    hide Step, At;
    if i < j {
      SpentForGood(events, i, j - 1, id);
      StepNeverReissues(At(events, j - 1), events[j - 1], id);
      AtUnfolds(events, j - 1);
    }
  }

  /** Over all sessions and endpoints a challenge is consumed at most once. */
  lemma ConsumedAtMostOnce(events: seq<Event>, i: nat, j: nat, id: nat)
    requires i < j < |events| && Consumes(events, i, id)
    ensures !Consumes(events, j, id)
  {
    EveryStateIsSound(events, i);
    SequenceGrows(events, i);
    SpentForGood(events, i + 1, j, id);
  }

  lemma StepSequence(s: Server, e: Event)
    ensures s.challengeSequence <= Step(s, e).challengeSequence
    ensures Handle(s, e).1.Issued? ==> Handle(s, e).1.challengeId == s.challengeSequence + 1 == Step(s, e).challengeSequence
  {
    hide Live, HasDevice, DeviceOf, EnrolRefusal, SessionIs;
  }

  lemma SequenceGrows(events: seq<Event>, i: nat)
    requires i < |events|
    ensures At(events, i).challengeSequence <= At(events, i + 1).challengeSequence
    ensures Answer(events, i).Issued? ==> Answer(events, i).challengeId == At(events, i).challengeSequence + 1
                                          == At(events, i + 1).challengeSequence
  {
    hide At, Step, Handle;
    AtUnfolds(events, i);
    StepSequence(At(events, i), events[i]);
  }

  lemma {:induction false} SequenceNeverFalls(events: seq<Event>, i: nat, j: nat)
    requires i <= j <= |events|
    ensures At(events, i).challengeSequence <= At(events, j).challengeSequence
    decreases j
  {
    hide Step, At;
    if i < j {
      SequenceNeverFalls(events, i, j - 1);
      SequenceGrows(events, j - 1);
    }
  }

  /** Every issued id is new: no state up to then held it, and no other request is given it. */
  lemma IssuedIdsAreNew(events: seq<Event>, i: nat, k: nat)
    requires i < |events| && Answer(events, i).Issued? && k <= |events|
    ensures k <= i ==> Answer(events, i).challengeId !in At(events, k).challenges
    ensures k < |events| && k != i && Answer(events, k).Issued? ==>
      Answer(events, k).challengeId != Answer(events, i).challengeId
  {
    hide Step, At, Answer;
    SequenceGrows(events, i);
    if k <= i {
      SequenceNeverFalls(events, k, i);
      EveryStateIsSound(events, k);
    }
    if k < |events| && k != i {
      SequenceGrows(events, k);
      if k < i { SequenceNeverFalls(events, k + 1, i); } else { SequenceNeverFalls(events, i + 1, k); }
    }
  }

  /** What a request that begins a signature check puts to the verifier. */
  ghost function Asked(events: seq<Event>, i: nat): Check
    requires i < |events| && Answer(events, i).Suspended? && Answer(events, i).ticket in At(events, i + 1).waiting
  {
    At(events, i + 1).waiting[Answer(events, i).ticket].check
  }

  lemma SuspendedConsumes(events: seq<Event>, i: nat)
    requires i < |events| && Answer(events, i).Suspended?
    ensures Answer(events, i).ticket in At(events, i + 1).waiting
    ensures Consumes(events, i, Asked(events, i).proof.challengeId)
  {
    hide At, Handle, Step;
    AtUnfolds(events, i);
    SuspensionConsumes(At(events, i), events[i]);
  }

  lemma SuspensionConsumes(s: Server, e: Event)
    requires Handle(s, e).1.Suspended?
    ensures var t, ticket := Step(s, e), Handle(s, e).1.ticket;
      && ticket in t.waiting
      && t.waiting[ticket].check.proof.challengeId in s.challenges
      && t.waiting[ticket].check.proof.challengeId !in t.challenges
  {
    hide Live, HasDevice, DeviceOf, EnrolRefusal, SessionIs;
  }

  /** No two signature checks of a run are ever asked about the same statement, so a signature cannot count
      twice. */
  lemma ProofsNeverRepeat(events: seq<Event>, i: nat, j: nat)
    requires i < j < |events| && Answer(events, i).Suspended? && Answer(events, j).Suspended?
    ensures Answer(events, i).ticket in At(events, i + 1).waiting
    ensures Answer(events, j).ticket in At(events, j + 1).waiting
    ensures Asked(events, i).proof != Asked(events, j).proof
  {
    hide Step, At, Answer;
    SuspendedConsumes(events, i);
    SuspendedConsumes(events, j);
    ConsumedAtMostOnce(events, i, j, Asked(events, i).proof.challengeId);
  }

  // ---- admission ------------------------------------------------------------------------------------

  /** Admission adds exactly the one named Device, with exactly the key whose signature was checked over a
      statement naming that Device and that key; nothing else about any account's Devices changes. */
  lemma AdmissionAddsOneDevice(events: seq<Event>, i: nat)
    requires i < |events| && Answer(events, i).Admitted?
    ensures var b := Answer(events, i).binding;
      var s, t := At(events, i), At(events, i + 1);
      && events[i].Resume? && events[i].verdict.Valid? && events[i].ticket in s.waiting
      && s.waiting[events[i].ticket].Enrolling?
      && !HasDevice(s, b.participantId, b.deviceId) && Live(t, b)
      && var device := DeviceOf(t, b.participantId, b.deviceId);
         var check := s.waiting[events[i].ticket].check;
         && check.publicKey == device.publicKey
         && check.proof == EnrolProof(s.waiting[events[i].ticket].signup, b, device.keyId, device.publicKey,
                                      check.proof.challengeId, check.proof.nonce)
  {
    EveryStateIsSound(events, i);
    AtUnfolds(events, i);
    hide At;
    assert WaitingFits(At(events, i), At(events, i).waiting[events[i].ticket]);
  }

  lemma OnlyAdmissionAddsDevices(events: seq<Event>, i: nat, p: Name, d: Name)
    requires i < |events| && HasDevice(At(events, i + 1), p, d) && !HasDevice(At(events, i), p, d)
    ensures Answer(events, i).Admitted?
    ensures Answer(events, i).binding.participantId == p && Answer(events, i).binding.deviceId == d
  {
    hide At, Step, Handle, HasDevice;
    AtUnfolds(events, i);
    OnlyEnrolmentAdds(At(events, i), events[i], p, d);
  }

  lemma OnlyEnrolmentAdds(s: Server, e: Event, p: Name, d: Name)
    requires HasDevice(Step(s, e), p, d) && !HasDevice(s, p, d)
    ensures Handle(s, e).1.Admitted?
    ensures Handle(s, e).1.binding.participantId == p && Handle(s, e).1.binding.deviceId == d
  {
    hide OnSession, EnrolRefusal;
    if e.Inspect? || e.ListDevices? || e.RotateRecovery? || e.Revoke? || e.Logout? || e.OtherRoute? {
      OnSessionAddsNothing(s, e, p, d);
    }
  }

  lemma OnSessionAddsNothing(s: Server, e: Event, p: Name, d: Name)
    requires e.Inspect? || e.ListDevices? || e.RotateRecovery? || e.Revoke? || e.Logout? || e.OtherRoute?
    ensures HasDevice(OnSession(s, e).0, p, d) ==> HasDevice(s, p, d)
  {
    hide Live, SessionIs;
  }

  // ---- recovery codes -------------------------------------------------------------------------------

  predicate Draws(e: Event) { e.Resume? || e.RotateRecovery? }

  /** The random source never repeats a value. */
  ghost predicate FreshDraws(events: seq<Event>) {
    forall i, j :: 0 <= i < j < |events| && Draws(events[i]) && Draws(events[j]) ==> events[i].draw != events[j].draw
  }

  ghost predicate Current(s: Server, code: string) {
    exists p :: p in s.accounts && s.accounts[p].code == code
  }

  ghost predicate Drawn(events: seq<Event>, i: nat, code: string)
    requires i <= |events|
  {
    exists k :: 0 <= k < i && Draws(events[k]) && events[k].draw == code
  }

  /** The recovery code with which event `i` admits a Device. */
  ghost predicate Spends(events: seq<Event>, i: nat, code: string)
    requires i < |events|
  {
    && events[i].Resume? && Answer(events, i).Admitted?
    && events[i].ticket in At(events, i).waiting
    && At(events, i).waiting[events[i].ticket].Enrolling?
    && At(events, i).waiting[events[i].ticket].recoveryCode == Some(code)
  }

  /** The account whose recovery code a step may replace. */
  ghost function Touched(s: Server, e: Event): Name {
    match e
    case Resume(ticket, _, _) => if ticket in s.waiting then s.waiting[ticket].binding.participantId else Numbered(0)
    case RotateRecovery(_, b, _) => b.participantId
    case _ => Numbered(0)
  }

  lemma StepCodes(s: Server, e: Event, p: Name)
    requires p in Step(s, e).accounts
    ensures (p in s.accounts && Step(s, e).accounts[p].code == s.accounts[p].code)
            || (Draws(e) && p == Touched(s, e) && Step(s, e).accounts[p].code == e.draw)
  {
  }

  ghost predicate CodesApart(s: Server) {
    forall p, q :: p in s.accounts && q in s.accounts && p != q ==> s.accounts[p].code != s.accounts[q].code
  }

  lemma {:induction false} CodesAreDrawn(events: seq<Event>, i: nat, p: Name)
    requires i <= |events| && p in At(events, i).accounts
    ensures Drawn(events, i, At(events, i).accounts[p].code)
    decreases i
  {
    hide Step;
    if i > 0 {
      var s, e := At(events, i - 1), events[i - 1];
      StepCodes(s, e, p);
      if p in s.accounts && At(events, i).accounts[p].code == s.accounts[p].code {
        CodesAreDrawn(events, i - 1, p);
      }
    }
  }

  lemma NewDrawIsUnused(events: seq<Event>, i: nat, p: Name)
    requires FreshDraws(events) && i < |events| && Draws(events[i]) && p in At(events, i).accounts
    ensures At(events, i).accounts[p].code != events[i].draw
  {
    CodesAreDrawn(events, i, p);
  }

  lemma {:induction false} CodesStayApart(events: seq<Event>, i: nat)
    requires FreshDraws(events) && i <= |events|
    ensures CodesApart(At(events, i))
    decreases i
  {
    hide Step;
    if i > 0 {
      CodesStayApart(events, i - 1);
      var s, e, t := At(events, i - 1), events[i - 1], At(events, i);
      forall p, q | p in t.accounts && q in t.accounts && p != q ensures t.accounts[p].code != t.accounts[q].code {
        StepCodes(s, e, p);
        StepCodes(s, e, q);
        if Draws(e) {
          if p in s.accounts { NewDrawIsUnused(events, i - 1, p); }
          if q in s.accounts { NewDrawIsUnused(events, i - 1, q); }
        }
      }
    }
  }

  /** A code that was issued and is no longer any account's code never becomes one again. */
  lemma {:induction false} RetiredForGood(events: seq<Event>, i: nat, j: nat, code: string)
    requires FreshDraws(events) && i <= j <= |events|
    requires Drawn(events, i, code) && !Current(At(events, i), code)
    ensures !Current(At(events, j), code)
    decreases j
  {
    hide Step;
    if i < j {
      RetiredForGood(events, i, j - 1, code);
      var s, e, t := At(events, j - 1), events[j - 1], At(events, j);
      forall p | p in t.accounts ensures t.accounts[p].code != code { StepCodes(s, e, p); }
    }
  }

  lemma SpendingRetires(events: seq<Event>, i: nat, code: string)
    requires FreshDraws(events) && i < |events| && Spends(events, i, code)
    ensures Current(At(events, i), code) && !Current(At(events, i + 1), code) && Drawn(events, i, code)
  {
    hide At;
    AtUnfolds(events, i);
    var s := At(events, i);
    var p := s.waiting[events[i].ticket].binding.participantId;
    assert p in s.accounts && s.accounts[p].code == code;
    CodeReplaced(events, i, p);
  }

  /** Whenever an account's code changes, the old one is nobody's code. */
  lemma CodeReplaced(events: seq<Event>, i: nat, p: Name)
    requires FreshDraws(events) && i < |events| && p in At(events, i).accounts
    requires p in At(events, i + 1).accounts
    requires Draws(events[i]) && At(events, i + 1).accounts[p].code == events[i].draw
    ensures var code := At(events, i).accounts[p].code;
      Drawn(events, i, code) && !Current(At(events, i + 1), code)
  {
    hide At, Step;
    var s, t := At(events, i), At(events, i + 1);
    AtUnfolds(events, i);
    CodesAreDrawn(events, i, p);
    CodesStayApart(events, i);
    NewDrawIsUnused(events, i, p);
    forall q | q in t.accounts ensures t.accounts[q].code != s.accounts[p].code { StepCodes(s, events[i], q); }
  }

  lemma SpentIsCurrent(events: seq<Event>, i: nat, code: string)
    requires i < |events| && Spends(events, i, code)
    ensures Current(At(events, i), code)
  {
    hide At;
    var s := At(events, i);
    assert s.accounts[s.waiting[events[i].ticket].binding.participantId].code == code;
  }

  /** Each recovery code admits at most one new Device. */
  lemma RecoveryCodeAdmitsOnce(events: seq<Event>, i: nat, j: nat, code: string)
    requires FreshDraws(events) && i < j < |events| && Spends(events, i, code)
    ensures !Spends(events, j, code)
  {
    hide At, Step, Spends;
    SpendingRetires(events, i, code);
    RetiredForGood(events, i + 1, j, code);
    if Spends(events, j, code) { SpentIsCurrent(events, j, code); }
  }

  /** A correctly signed recovery goes through exactly when its code is the account's current one and its Device
      is new; the requesting transport is then signed in as that Device under a new code. */
  lemma CurrentCodeAdmits(s: Server, ticket: nat, draw: string)
    requires ticket in s.waiting && s.waiting[ticket].Enrolling? && !s.waiting[ticket].signup
    ensures var w, e := s.waiting[ticket], Resume(ticket, Valid, draw);
      var p, d, t := w.binding.participantId, w.binding.deviceId, Step(s, e);
      && (Handle(s, e).1 == Admitted(w.binding, draw) <==>
            p in s.accounts && w.recoveryCode == Some(s.accounts[p].code) && !HasDevice(s, p, d))
      && (Handle(s, e).1.Admitted? ==>
            && SessionIs(t, w.transport, w.binding) && t.accounts[p].code == draw
            && t.accounts[p].devices.Keys == s.accounts[p].devices.Keys + {d})
      && (!Handle(s, e).1.Admitted? ==> t.accounts == s.accounts && t.sessions == s.sessions)
  {
  }

  /** A code replaced by recovery or rotation never admits a Device again. */
  lemma SupersededCodeNeverAdmits(events: seq<Event>, i: nat, j: nat, p: Name)
    requires FreshDraws(events) && i < j < |events| && p in At(events, i).accounts
    requires p in At(events, i + 1).accounts && At(events, i + 1).accounts[p].code != At(events, i).accounts[p].code
    ensures !Spends(events, j, At(events, i).accounts[p].code)
  {
    hide At, Step, Spends;
    var code := At(events, i).accounts[p].code;
    AtUnfolds(events, i);
    StepCodes(At(events, i), events[i], p);
    CodeReplaced(events, i, p);
    RetiredForGood(events, i + 1, j, code);
    if Spends(events, j, code) { SpentIsCurrent(events, j, code); }
  }

  // ---- revocation -----------------------------------------------------------------------------------

  ghost predicate RevokedAt(events: seq<Event>, i: nat, p: Name, d: Name)
    requires i <= |events|
  {
    HasDevice(At(events, i), p, d) && DeviceOf(At(events, i), p, d).revoked
  }

  ghost predicate Names(b: Binding, p: Name, d: Name) { b.participantId == p && b.deviceId == d }

  /** A revocation by a session of the account takes effect on exactly the named Device, and signs the session
      out when it is its own. */
  lemma RevokeTakesEffect(s: Server, transport: nat, b: Binding, d: Name)
    requires SessionIs(s, transport, b) && HasDevice(s, b.participantId, d)
    ensures var e := Revoke(transport, b, d);
      var t := Step(s, e);
      && Handle(s, e).1 == DeviceRevoked
      && HasDevice(t, b.participantId, d) && DeviceOf(t, b.participantId, d) == DeviceOf(s, b.participantId, d).(revoked := true)
      && (forall q, f :: HasDevice(s, q, f) && !(q == b.participantId && f == d) ==>
            HasDevice(t, q, f) && DeviceOf(t, q, f) == DeviceOf(s, q, f))
      && t.sessions == (if d == b.deviceId then s.sessions - {transport} else s.sessions)
      && t.accounts.Keys == s.accounts.Keys && t.accounts[b.participantId].code == s.accounts[b.participantId].code
  {
  }

  /** Nothing else revokes a Device. */
  lemma OnlyRevocationRevokes(s: Server, e: Event, p: Name, d: Name)
    requires HasDevice(s, p, d) && !DeviceOf(s, p, d).revoked
    requires HasDevice(Step(s, e), p, d) && DeviceOf(Step(s, e), p, d).revoked
    ensures e.Revoke? && e.binding.participantId == p && e.deviceId == d && SessionIs(s, e.transport, e.binding)
  {
  }

  /** Sessions change only as asked: a verified login or enrolment sets its own transport's session, a logout or
      the revocation of its own Device clears it. */
  lemma SessionsChangeOnlyAsAsked(s: Server, e: Event, k: nat)
    requires (k in s.sessions) != (k in Step(s, e).sessions) || (k in s.sessions && s.sessions[k] != Step(s, e).sessions[k])
    ensures k in Step(s, e).sessions ==>
      e.Resume? && e.verdict.Valid? && e.ticket in s.waiting && s.waiting[e.ticket].transport == k
      && Step(s, e).sessions[k] == s.waiting[e.ticket].binding
    ensures k !in Step(s, e).sessions ==>
      (e.Logout? || (e.Revoke? && e.deviceId == e.binding.deviceId)) && e.transport == k && SessionIs(s, k, e.binding)
  {
  }

  /** Once revoked, always revoked under the same key: no later request finds the Device by session or
      inspection, begins a login for it, or enrols it again. */
  lemma RevocationIsPermanent(events: seq<Event>, i: nat, j: nat, p: Name, d: Name)
    requires i <= j < |events| && RevokedAt(events, i, p, d)
    ensures RevokedAt(events, j, p, d)
    ensures DeviceOf(At(events, j), p, d) == DeviceOf(At(events, i), p, d)
    ensures events[j].SessionLookup? && Answer(events, j).SignedIn? ==> !Names(Answer(events, j).binding, p, d)
    ensures events[j].Inspect? && Names(events[j].binding, p, d) ==> Answer(events, j) == Refused(401)
    ensures events[j].LoginVerify? && Names(events[j].binding, p, d) ==> Answer(events, j) == Refused(401)
    ensures Answer(events, j).Admitted? ==> !Names(Answer(events, j).binding, p, d)
  {
    RunKeepsDevice(events, i, j, p, d);
    EveryStateIsSound(events, j);
    hide At, Sound;
    if Answer(events, j).Admitted? { AdmissionAddsOneDevice(events, j); }
  }

  /** Requests of one transport under the binding of its session. */
  predicate AsksAs(e: Event, transport: nat, b: Binding) {
    match e
    case SessionLookup(k) => k == transport
    case LoginVerify(k, _, named, _) => k == transport && named == b
    case Inspect(k, named) => k == transport && named == b
    case ListDevices(k, named) => k == transport && named == b
    case RotateRecovery(k, named, _) => k == transport && named == b
    case Revoke(k, named, _) => k == transport && named == b
    case Logout(k, named) => k == transport && named == b
    case OtherRoute(k, named) => k == transport && named == b
    case _ => false
  }

  /** Exactly which requests a session that outlives the revocation of its Device can still make: revocation closes
      lookup, inspection and login, not the routes that only compare the session's binding. */
  lemma RevokedSessionAnswers(s: Server, e: Event, transport: nat, b: Binding)
    requires SessionIs(s, transport, b) && HasDevice(s, b.participantId, b.deviceId)
    requires DeviceOf(s, b.participantId, b.deviceId).revoked && AsksAs(e, transport, b)
    ensures !Handle(s, e).1.Refused? <==>
      e.ListDevices? || e.RotateRecovery? || e.Logout? || (e.Revoke? && HasDevice(s, b.participantId, e.deviceId))
  {
  }

  ghost predicate NoLateLogin(s: Server, first: nat, p: Name, d: Name) {
    forall k :: k in s.waiting && k >= first && s.waiting[k].SigningIn? ==> !Names(s.waiting[k].binding, p, d)
  }

  lemma StepStartsNoLogin(s: Server, e: Event, first: nat, p: Name, d: Name)
    requires HasDevice(s, p, d) && DeviceOf(s, p, d).revoked && NoLateLogin(s, first, p, d)
    ensures NoLateLogin(Step(s, e), first, p, d)
  {
  }

  lemma {:induction false} NoLoginStartsAfterRevocation(events: seq<Event>, i: nat, j: nat, p: Name, d: Name)
    requires i <= j <= |events| && RevokedAt(events, i, p, d)
    ensures NoLateLogin(At(events, j), At(events, i).tickets, p, d)
    decreases j
  {
    hide Step, At;
    if i == j {
      EveryStateIsSound(events, i);
    } else {
      NoLoginStartsAfterRevocation(events, i, j - 1, p, d);
      RunKeepsDevice(events, i, j - 1, p, d);
      StepStartsNoLogin(At(events, j - 1), events[j - 1], At(events, i).tickets, p, d);
      AtUnfolds(events, j - 1);
    }
  }

  /** A login whose check began after the revocation never succeeds for the revoked Device. */
  lemma LateLoginNeverSucceeds(events: seq<Event>, i: nat, j: nat, p: Name, d: Name)
    requires i <= j < |events| && RevokedAt(events, i, p, d)
    requires events[j].Resume? && events[j].ticket >= At(events, i).tickets
    requires Answer(events, j).SignedIn?
    ensures !Names(Answer(events, j).binding, p, d)
  {
    NoLoginStartsAfterRevocation(events, i, j, p, d);
    hide At;
  }

  // ---- signup ---------------------------------------------------------------------------------------

  ghost predicate SignupChallenge(s: Server, id: nat) { id in s.challenges && s.challenges[id].kind.Signup? }

  ghost predicate SignupWaiting(s: Server, k: nat) {
    k in s.waiting && s.waiting[k].Enrolling? && s.waiting[k].signup
  }

  ghost predicate Allotted(s: Server, b: Binding) {
    b.participantId.Numbered? && b == SignupBinding(b.participantId.n) && b.participantId.n <= s.number
  }

  /** Each number handed out at signup is held in one place only: by a challenge, by a waiting request or by an
      account. */
  ghost predicate SignupsApart(s: Server) {
    && (forall p :: p in s.accounts ==> p.Numbered? && p.n <= s.number)
    && (forall id :: SignupChallenge(s, id) ==> Allotted(s, s.challenges[id].binding)
                                                && s.challenges[id].binding.participantId !in s.accounts)
    && (forall k :: SignupWaiting(s, k) ==> Allotted(s, s.waiting[k].binding)
                                            && s.waiting[k].binding.participantId !in s.accounts)
    && (forall a, b :: SignupChallenge(s, a) && SignupChallenge(s, b) && a != b ==>
          s.challenges[a].binding != s.challenges[b].binding)
    && (forall a, b :: SignupWaiting(s, a) && SignupWaiting(s, b) && a != b ==>
          s.waiting[a].binding != s.waiting[b].binding)
    && (forall a, b :: SignupChallenge(s, a) && SignupWaiting(s, b) ==> s.challenges[a].binding != s.waiting[b].binding)
  }

  lemma SignupChallengeOrigin(s: Server, e: Event, id: nat)
    requires SignupChallenge(Step(s, e), id)
    ensures var b := Step(s, e).challenges[id].binding;
      || (SignupChallenge(s, id) && s.challenges[id].binding == b)
      || (e.SignupBegin? && id == s.challengeSequence + 1 && b == SignupBinding(s.number + 1)
          && Step(s, e).number == s.number + 1)
  {
  }

  lemma SignupWaitingOrigin(s: Server, e: Event, k: nat)
    requires SignupWaiting(Step(s, e), k)
    ensures var b := Step(s, e).waiting[k].binding;
      || (SignupWaiting(s, k) && s.waiting[k].binding == b)
      || (e.Finish? && k == s.tickets && SignupChallenge(s, e.challengeId)
          && s.challenges[e.challengeId].binding == b && e.challengeId !in Step(s, e).challenges)
  {
  }

  lemma AccountOrigin(s: Server, e: Event, p: Name)
    requires p in Step(s, e).accounts && p !in s.accounts
    ensures e.Resume? && SignupWaiting(s, e.ticket) && e.ticket !in Step(s, e).waiting
    ensures p == s.waiting[e.ticket].binding.participantId
  {
  }

  lemma NumberGrows(s: Server, e: Event)
    ensures s.number <= Step(s, e).number
    ensures e.Finish? || e.SignupBegin? ==> Step(s, e).accounts == s.accounts
  {
  }

  lemma SignupAccountsApart(s: Server, e: Event)
    requires SignupsApart(s)
    ensures var t := Step(s, e);
      && (forall p :: p in t.accounts ==> p.Numbered? && p.n <= t.number)
      && (forall id :: SignupChallenge(t, id) ==> Allotted(t, t.challenges[id].binding)
                                                  && t.challenges[id].binding.participantId !in t.accounts)
      && (forall k :: SignupWaiting(t, k) ==> Allotted(t, t.waiting[k].binding)
                                              && t.waiting[k].binding.participantId !in t.accounts)
  {
    hide Step;
    var t := Step(s, e);
    NumberGrows(s, e);
    forall p | p in t.accounts ensures p.Numbered? && p.n <= t.number {
      if p !in s.accounts { AccountOrigin(s, e, p); }
    }
    forall id | SignupChallenge(t, id)
      ensures Allotted(t, t.challenges[id].binding) && t.challenges[id].binding.participantId !in t.accounts
    {
      SignupChallengeOrigin(s, e, id);
      var p := t.challenges[id].binding.participantId;
      if p in t.accounts && p !in s.accounts { AccountOrigin(s, e, p); }
    }
    forall k | SignupWaiting(t, k)
      ensures Allotted(t, t.waiting[k].binding) && t.waiting[k].binding.participantId !in t.accounts
    {
      SignupWaitingOrigin(s, e, k);
      var p := t.waiting[k].binding.participantId;
      if p in t.accounts && p !in s.accounts { AccountOrigin(s, e, p); }
    }
  }

  lemma StepKeepsSignupsApart(s: Server, e: Event)
    requires Sound(s) && SignupsApart(s)
    ensures SignupsApart(Step(s, e))
  {
    hide Step, Sound;
    var t := Step(s, e);
    SignupAccountsApart(s, e);
    forall a, b | SignupChallenge(t, a) && SignupChallenge(t, b) && a != b
      ensures t.challenges[a].binding != t.challenges[b].binding
    {
      SignupChallengeOrigin(s, e, a);
      SignupChallengeOrigin(s, e, b);
    }
    forall a, b | SignupWaiting(t, a) && SignupWaiting(t, b) && a != b
      ensures t.waiting[a].binding != t.waiting[b].binding
    {
      SignupWaitingOrigin(s, e, a);
      SignupWaitingOrigin(s, e, b);
    }
    forall a, b | SignupChallenge(t, a) && SignupWaiting(t, b)
      ensures t.challenges[a].binding != t.waiting[b].binding
    {
      SignupChallengeOrigin(s, e, a);
      SignupWaitingOrigin(s, e, b);
    }
  }

  lemma {:induction false} SignupsStayApart(events: seq<Event>, i: nat)
    requires i <= |events|
    ensures SignupsApart(At(events, i))
    decreases i
  {
    hide Step, Sound;
    if i > 0 {
      SignupsStayApart(events, i - 1);
      EveryStateIsSound(events, i - 1);
      StepKeepsSignupsApart(At(events, i - 1), events[i - 1]);
    }
  }

  /** A correctly signed signup is refused exactly when it also sent a recovery code: no interleaving makes two
      signups meet. Its account then has exactly one Device. */
  lemma SignupNeverCollides(events: seq<Event>, i: nat)
    requires i < |events| && events[i].Resume? && events[i].verdict.Valid?
    requires SignupWaiting(At(events, i), events[i].ticket)
    ensures var w := At(events, i).waiting[events[i].ticket];
      && (Answer(events, i).Admitted? <==> w.recoveryCode.None?)
      && (Answer(events, i).Admitted? ==>
            && w.binding.participantId in At(events, i + 1).accounts
            && At(events, i + 1).accounts[w.binding.participantId].devices
               == map[w.binding.deviceId := Device(w.keyId, w.publicKey, false)])
  {
    SignupsStayApart(events, i);
    AtUnfolds(events, i);
    hide At;
  }
}
