/** The strict first-party Call server of two Devices:
    `sdk/typescript/first_party_two_device_http_conformance.ts`. */
module DirectCallServer {
  import opened Base

  datatype CallState = Ringing | Active | Terminated

  datatype Actor = Alice | Bob {
    function Name(): string { if Alice? then "alice" else "bob" }
  }

  /** Request text is classified by the literals the server compares it with. */
  datatype Media = Audio | Video | OtherMedia(text: string)
  datatype Action = Accept | Reject | Busy | Cancel | Hangup | OtherAction(text: string)

  datatype DirectCall = DirectCall(
    callId: string, caller: Actor, callee: Actor, media: Media, state: CallState, revision: int)

  datatype Request =
    | SessionLookup
    | InspectDevice
    | EnrollDevice
    | BareJoin
    | Start(peer: Option<Actor>, media: Media, idempotencyKey: string)
    | Incoming
    | Get(callId: string)
    | JoinAccepted(callId: string, expectedRevision: int)
    | Signal(callId: string, expectedRevision: int, action: Action)
    | OtherRoute(callId: string)

  datatype Response =
    | Refused(status: int)
    | Binding(actor: Actor)
    | DeviceActive(actor: Actor)
    | TheCall(call: DirectCall)
    | NoBody
    | Calls(calls: set<DirectCall>)
    | Join(actor: Actor, callId: string, session: nat)

  datatype Server = Server(
    calls: map<string, DirectCall>,
    starts: map<string, string>,
    approved: nat,
    signedJoins: nat,
    bareJoinAttempts: nat,
    revokedBob: bool)

  const Empty := Server(map[], map[], 0, 0, 0, false)

  function StartKey(actor: Actor, key: string): string { actor.Name() + ":" + key }

  function CallIdFor(media: Media, key: string): string {
    "fp-" + (if media.Video? then "v" else "a") + "-" + key
  }

  predicate SignalAllowed(actor: Actor, call: DirectCall, action: Action) {
    if action.Accept? || action.Reject? || action.Busy? then actor == call.callee && call.state.Ringing?
    else if action.Cancel? then actor == call.caller && call.state.Ringing?
    else action.Hangup? && call.state.Active?
  }

  function Signalled(call: DirectCall, action: Action): DirectCall {
    call.(state := if action.Accept? then Active else Terminated, revision := call.revision + 1)
  }

  predicate PartOf(actor: Actor, call: DirectCall) {
    actor == call.caller || actor == call.callee
  }

  function RespondStart(s: Server, actor: Actor, peer: Option<Actor>, media: Media, key: string): (Server, Response) {
    if !actor.Alice? || peer != Some(Bob) || media.OtherMedia? then (s, Refused(403))
    else
      var startKey := StartKey(actor, key);
      if startKey in s.starts then
        (s, if s.starts[startKey] in s.calls then TheCall(s.calls[s.starts[startKey]]) else NoBody)
      else
        var id := CallIdFor(media, key);
        var call := DirectCall(id, Alice, Bob, media, Ringing, 1);
        (s.(starts := s.starts[startKey := id], calls := s.calls[id := call]), TheCall(call))
  }

  function RespondOnCall(s: Server, actor: Actor, request: Request, call: DirectCall): (Server, Response) {
    match request
    case Get(_) => (s, TheCall(call))
    case JoinAccepted(_, expected) =>
      if !call.state.Active? || call.revision != expected then (s, Refused(403))
      else (s.(signedJoins := s.signedJoins + 1), Join(actor, call.callId, s.signedJoins + 1))
    case Signal(_, expected, action) =>
      if expected != call.revision then (s, Refused(409))
      else if !SignalAllowed(actor, call, action) then (s, Refused(403))
      else
        var next := Signalled(call, action);
        (s.(calls := s.calls[call.callId := next]), TheCall(next))
    case _ => (s, Refused(404))
  }

  function CallNamed(request: Request): string {
    match request
    case Get(id) => id
    case JoinAccepted(id, _) => id
    case Signal(id, _, _) => id
    case OtherRoute(id) => id
    case _ => ""
  }

  /** The whole route table as one step. */
  function Respond(s: Server, actor: Actor, request: Request): (Server, Response) {
    if actor.Bob? && s.revokedBob then (s, Refused(401))
    else
      match request
      case SessionLookup => (s, Binding(actor))
      case InspectDevice => (s, DeviceActive(actor))
      case EnrollDevice => (s.(approved := s.approved + 1), Refused(403))
      case BareJoin => (s.(bareJoinAttempts := s.bareJoinAttempts + 1), Refused(403))
      case Start(peer, media, key) => RespondStart(s, actor, peer, media, key)
      case Incoming =>
        (s, Calls(set c | c in s.calls.Values && c.callee == actor && c.state.Ringing?))
      case _ =>
        var id := CallNamed(request);
        if id !in s.calls || !PartOf(actor, s.calls[id]) then (s, Refused(404))
        else RespondOnCall(s, actor, request, s.calls[id])
  }

  // ---- the server itself --------------------------------------------------------------------------

  class DirectCallService {
    var allCalls: map<string, DirectCall>
    var starts: map<string, string>
    var approved: nat
    var signedJoins: nat
    var bareJoinAttempts: nat
    var revokedBob: bool

    function View(): Server
      reads this
    {
      Server(allCalls, starts, approved, signedJoins, bareJoinAttempts, revokedBob)
    }

    constructor ()
      ensures View() == Empty
    {
      allCalls, starts := map[], map[];
      approved, signedJoins, bareJoinAttempts, revokedBob := 0, 0, 0, false;
    }

    method Revoke()
      modifies this
      ensures View() == old(View()).(revokedBob := true)
    {
      revokedBob := true;
    }

    method Handle(actor: Actor, request: Request) returns (r: Response)
      modifies this
      ensures (View(), r) == Respond(old(View()), actor, request)
    {
      if actor == Bob && revokedBob { return Refused(401); }
      match request {
        case SessionLookup => return Binding(actor);
        case InspectDevice => return DeviceActive(actor);
        case EnrollDevice => approved := approved + 1; return Refused(403);
        case BareJoin => bareJoinAttempts := bareJoinAttempts + 1; return Refused(403);
        case Start(peer, media, key) => r := HandleStart(actor, peer, media, key);
        case Incoming =>
          return Calls(set c | c in allCalls.Values && c.callee == actor && c.state.Ringing?);
        case _ =>
          var id := CallNamed(request);
          if id !in allCalls { return Refused(404); }
          var call := allCalls[id];
          if !(actor == call.caller || actor == call.callee) { return Refused(404); }
          r := HandleOnCall(actor, request, call);
      }
    }

    method HandleStart(actor: Actor, peer: Option<Actor>, media: Media, key: string) returns (r: Response)
      modifies this
      ensures (View(), r) == RespondStart(old(View()), actor, peer, media, key)
    {
      if actor != Alice || peer != Some(Bob) || media.OtherMedia? { return Refused(403); }
      var startKey := StartKey(actor, key);
      if startKey in starts {
        var known := starts[startKey];
        return if known in allCalls then TheCall(allCalls[known]) else NoBody;
      }
      var id := CallIdFor(media, key);
      var call := DirectCall(id, Alice, Bob, media, Ringing, 1);
      starts := starts[startKey := id];
      allCalls := allCalls[id := call];
      return TheCall(call);
    }

    method HandleOnCall(actor: Actor, request: Request, call: DirectCall) returns (r: Response)
      modifies this
      ensures (View(), r) == RespondOnCall(old(View()), actor, request, call)
    {
      match request {
        case Get(_) => return TheCall(call);
        case JoinAccepted(_, expected) =>
          if call.state != Active || call.revision != expected { return Refused(403); }
          signedJoins := signedJoins + 1;
          return Join(actor, call.callId, signedJoins);
        case Signal(_, expected, action) =>
          if expected != call.revision { return Refused(409); }
          if !SignalAllowed(actor, call, action) { return Refused(403); }
          var next := Signalled(call, action);
          allCalls := allCalls[call.callId := next];
          return TheCall(next);
        case _ => return Refused(404);
      }
    }
  }

  // ---- runs -----------------------------------------------------------------------------------------

  datatype Event = Requested(actor: Actor, request: Request) | Revoked

  function Step(s: Server, e: Event): Server {
    match e
    case Requested(actor, request) => Respond(s, actor, request).0
    case Revoked => s.(revokedBob := true)
  }

  function Run(s: Server, events: seq<Event>): Server
    decreases |events|
  {
    if events == [] then s else Step(Run(s, events[..|events| - 1]), events[|events| - 1])
  }

  function At(events: seq<Event>, i: nat): Server
    requires i <= |events|
  {
    Run(Empty, events[..i])
  }

  function ResponseAt(events: seq<Event>, i: nat): Response
    requires i < |events| && events[i].Requested?
  {
    Respond(At(events, i), events[i].actor, events[i].request).1
  }

  ghost predicate WellFormed(id: string, c: DirectCall) {
    && c.callId == id && c.caller == Alice && c.callee == Bob
    && ((c.state.Ringing? && c.revision == 1) || (c.state.Active? && c.revision == 2)
        || (c.state.Terminated? && (c.revision == 2 || c.revision == 3)))
  }

  /** The idempotency key a call id was made from. */
  function KeyIn(id: string): string { if |id| >= 5 then id[5..] else "" }

  ghost predicate StartedAs(s: Server, id: string) {
    StartKey(Alice, KeyIn(id)) in s.starts && s.starts[StartKey(Alice, KeyIn(id))] == id
  }

  ghost predicate Sound(s: Server) {
    && (forall id :: id in s.calls ==> WellFormed(id, s.calls[id]))
    && (forall id :: id in s.calls ==> StartedAs(s, id))
    && (forall k :: k in s.starts ==> s.starts[k] in s.calls && k == StartKey(Alice, KeyIn(s.starts[k])))
  }

  /** A later version of the same Call. */
  ghost predicate Later(c: DirectCall, d: DirectCall) {
    && d.(state := c.state, revision := c.revision) == c
    && c.revision <= d.revision && (c.revision == d.revision ==> c == d)
    && (c.state.Terminated? ==> c == d)
    && (c.state.Active? ==> !d.state.Ringing?)
  }

  ghost predicate Extends(s: Server, t: Server) {
    && (forall id :: id in s.calls ==> id in t.calls && Later(s.calls[id], t.calls[id]))
    && (forall k :: k in s.starts ==> k in t.starts && t.starts[k] == s.starts[k])
    && s.signedJoins <= t.signedJoins
    && (s.revokedBob ==> t.revokedBob)
  }

  lemma KeyInInverts(media: Media, key: string)
    ensures KeyIn(CallIdFor(media, key)) == key
  {
    assert CallIdFor(media, key)[5..] == key;
  }

  lemma StartKeysDiffer(key: string, key': string)
    requires StartKey(Alice, key) == StartKey(Alice, key')
    ensures key == key'
  {
    assert StartKey(Alice, key)[6..] == key;
    assert StartKey(Alice, key')[6..] == key';
  }

  lemma StartStep(s: Server, actor: Actor, peer: Option<Actor>, media: Media, key: string)
    requires Sound(s)
    ensures var t := RespondStart(s, actor, peer, media, key).0; Sound(t) && Extends(s, t)
  {
    hide CallIdFor, StartKey, KeyIn;
    var t := RespondStart(s, actor, peer, media, key).0;
    if t != s {
      var id := CallIdFor(media, key);
      KeyInInverts(media, key);
      assert StartKey(Alice, key) !in s.starts;
      assert id !in s.calls;
      NewCallIsSound(s, key, id, DirectCall(id, Alice, Bob, media, Ringing, 1));
    }
  }

  lemma NewCallIsSound(s: Server, key: string, id: string, c: DirectCall)
    requires Sound(s) && id !in s.calls && StartKey(Alice, key) !in s.starts && KeyIn(id) == key && WellFormed(id, c)
    ensures var t := s.(starts := s.starts[StartKey(Alice, key) := id], calls := s.calls[id := c]);
      Sound(t) && Extends(s, t)
  {
    hide StartKey, KeyIn, WellFormed;
    var t := s.(starts := s.starts[StartKey(Alice, key) := id], calls := s.calls[id := c]);
    forall k | k in s.starts ensures s.starts[k] != id { assert s.starts[k] in s.calls; }
    forall i | i in t.calls ensures StartedAs(t, i) && WellFormed(i, t.calls[i]) {
      if i != id { assert StartedAs(s, i) && WellFormed(i, s.calls[i]); }
    }
    forall i | i in s.calls ensures Later(s.calls[i], t.calls[i]) { assert WellFormed(i, s.calls[i]); }
  }

  lemma ReplacedCallIsSound(s: Server, id: string, d: DirectCall)
    requires Sound(s) && id in s.calls && WellFormed(id, d) && Later(s.calls[id], d)
    ensures var t := s.(calls := s.calls[id := d]); Sound(t) && Extends(s, t)
  {
    hide StartKey, KeyIn, WellFormed;
    var t := s.(calls := s.calls[id := d]);
    forall i | i in t.calls ensures StartedAs(t, i) && WellFormed(i, t.calls[i]) {
      assert StartedAs(s, i) && WellFormed(i, s.calls[i]);
    }
    forall i | i in s.calls ensures Later(s.calls[i], t.calls[i]) { assert WellFormed(i, s.calls[i]); }
  }

  lemma OnCallStep(s: Server, actor: Actor, request: Request, id: string)
    requires Sound(s) && id in s.calls
    ensures var t := RespondOnCall(s, actor, request, s.calls[id]).0;
      && Sound(t) && Extends(s, t) && t.starts == s.starts && t.calls.Keys == s.calls.Keys
      && (forall i :: i in s.calls && i != id ==> t.calls[i] == s.calls[i])
  {
    var c := s.calls[id];
    assert WellFormed(id, c);
    hide CallIdFor, StartKey, KeyIn, Sound, Extends;
    if request.Signal? && request.expectedRevision == c.revision && SignalAllowed(actor, c, request.action) {
      ReplacedCallIsSound(s, id, Signalled(c, request.action));
    } else {
      var t := RespondOnCall(s, actor, request, c).0;
      assert t.calls == s.calls && t.starts == s.starts;
      SameCallsSound(s, t);
    }
  }

  lemma StepSound(s: Server, e: Event)
    requires Sound(s)
    ensures Sound(Step(s, e)) && Extends(s, Step(s, e))
  {
    hide RespondStart, RespondOnCall, WellFormed, CallIdFor, StartKey;
    var t := Step(s, e);
    if e.Requested? && !(e.actor.Bob? && s.revokedBob) {
      var id := CallNamed(e.request);
      if e.request.Start? {
        StartStep(s, e.actor, e.request.peer, e.request.media, e.request.idempotencyKey);
      } else if (e.request.Get? || e.request.JoinAccepted? || e.request.Signal? || e.request.OtherRoute?)
          && id in s.calls && PartOf(e.actor, s.calls[id]) {
        OnCallStep(s, e.actor, e.request, id);
      } else {
        SameCallsSound(s, t);
      }
    } else {
      SameCallsSound(s, t);
    }
  }

  lemma SameCallsSound(s: Server, t: Server)
    requires Sound(s) && t.calls == s.calls && t.starts == s.starts
    requires s.signedJoins <= t.signedJoins && (s.revokedBob ==> t.revokedBob)
    ensures Sound(t) && Extends(s, t)
  {
    hide StartKey, KeyIn, WellFormed;
    forall i | i in t.calls ensures StartedAs(t, i) { assert StartedAs(s, i); }
  }

  lemma ExtendsComposes(s: Server, t: Server, u: Server)
    requires Extends(s, t) && Extends(t, u)
    ensures Extends(s, u)
  {
  }

  lemma {:induction false} RunSound(s: Server, events: seq<Event>)
    requires Sound(s)
    ensures Sound(Run(s, events)) && Extends(s, Run(s, events))
    decreases |events|
  {
    if events != [] {
      hide Sound, Step;
      var before := Run(s, events[..|events| - 1]);
      RunSound(s, events[..|events| - 1]);
      StepSound(before, events[|events| - 1]);
      ExtendsComposes(s, before, Run(s, events));
    }
  }

  lemma StateIsSound(events: seq<Event>, i: nat)
    requires i <= |events|
    ensures Sound(At(events, i)) && Extends(At(events, i), At(events, i))
  {
    hide Step, Run;
    RunSound(Empty, events[..i]);
  }

  lemma {:induction false} LaterStates(events: seq<Event>, i: nat, j: nat)
    requires i <= j <= |events|
    ensures Sound(At(events, i)) && Sound(At(events, j)) && Extends(At(events, i), At(events, j))
    decreases j
  {
    hide Step, Sound, Extends, At;
    StateIsSound(events, i);
    StateIsSound(events, j);
    if i < j {
      LaterStates(events, i, j - 1);
      StateAfter(events, j - 1);
      StepSound(At(events, j - 1), events[j - 1]);
      ExtendsComposes(At(events, i), At(events, j - 1), At(events, j));
    }
  }

  lemma StateAfter(events: seq<Event>, i: nat)
    requires i < |events|
    ensures At(events, i + 1) == Step(At(events, i), events[i])
  {
    assert events[..i + 1][..i] == events[..i];
  }

  // ---- promises over every run ------------------------------------------------------------------------

  /** The states one Call has gone through, in order. */
  ghost function History(events: seq<Event>, id: string): seq<CallState>
    decreases |events|
  {
    if events == [] then []
    else
      var before, now := Run(Empty, events[..|events| - 1]), Run(Empty, events);
      History(events[..|events| - 1], id)
      + if id in now.calls && (id !in before.calls || before.calls[id] != now.calls[id]) then [now.calls[id].state] else []
  }

  ghost predicate HistoryFits(h: seq<CallState>, s: Server, id: string) {
    if id !in s.calls then h == []
    else
      match s.calls[id].state
      case Ringing => h == [Ringing]
      case Active => h == [Ringing, Active]
      case Terminated => h == if s.calls[id].revision == 2 then [Ringing, Terminated] else [Ringing, Active, Terminated]
  }

  lemma ChangedCallIsSignalled(s: Server, e: Event, id: string)
    requires Sound(s) && id in Step(s, e).calls && (id !in s.calls || Step(s, e).calls[id] != s.calls[id])
    ensures var d := Step(s, e).calls[id];
      if id !in s.calls then d.state.Ringing? && d.revision == 1
      else
        && e.Requested? && e.request.Signal? && e.request.callId == id
        && e.request.expectedRevision == s.calls[id].revision
        && PartOf(e.actor, s.calls[id]) && SignalAllowed(e.actor, s.calls[id], e.request.action)
        && d == Signalled(s.calls[id], e.request.action)
  {
    hide StartKey, CallIdFor, KeyIn;
    if e.request.Start? {
      StepSound(s, e);
      hide Sound, SignalAllowed;
    } else {
      var named := CallNamed(e.request);
      assert named in s.calls;
      CallIdIsKey(s, named);
      hide Sound, SignalAllowed;
    }
  }

  lemma CallIdIsKey(s: Server, id: string)
    requires Sound(s) && id in s.calls
    ensures s.calls[id].callId == id
  {
    assert WellFormed(id, s.calls[id]);
  }

  lemma HistoryStep(h: seq<CallState>, s: Server, e: Event, id: string)
    requires Sound(s) && HistoryFits(h, s, id)
    ensures var t := Step(s, e);
      var changed := id in t.calls && (id !in s.calls || s.calls[id] != t.calls[id]);
      HistoryFits(h + if changed then [t.calls[id].state] else [], t, id)
  {
    var t := Step(s, e);
    StepSound(s, e);
    assert id in s.calls ==> id in t.calls && WellFormed(id, s.calls[id]);
    hide Step, Sound, Extends;
    if id in t.calls && (id !in s.calls || s.calls[id] != t.calls[id]) {
      ChangedCallIsSignalled(s, e, id);
    } else {
      assert h + [] == h;
    }
  }

  /** Every Call's history is a prefix of ringing, active, terminated or of ringing, terminated. */
  lemma {:induction false} HistoryIsLegal(events: seq<Event>, id: string)
    ensures HistoryFits(History(events, id), Run(Empty, events), id)
    decreases |events|
  {
    hide Step, Sound, HistoryFits;
    if events == [] {
      NoHistoryYet(id);
    } else {
      var prefix := events[..|events| - 1];
      HistoryIsLegal(prefix, id);
      StateIsSound(prefix, |prefix|);
      assert prefix[..|prefix|] == prefix;
      HistoryStep(History(prefix, id), Run(Empty, prefix), events[|events| - 1], id);
    }
  }

  lemma NoHistoryYet(id: string)
    ensures HistoryFits([], Empty, id)
  {
  }

  ghost predicate SignalSucceeds(events: seq<Event>, i: nat) {
    i < |events| && events[i].Requested? && events[i].request.Signal? && ResponseAt(events, i).TheCall?
  }

  lemma SucceedingSignal(s: Server, actor: Actor, id: string, expected: int, action: Action)
    requires Sound(s) && Respond(s, actor, Signal(id, expected, action)).1.TheCall?
    ensures id in s.calls && s.calls[id].revision == expected && SignalAllowed(actor, s.calls[id], action)
    ensures var t := Respond(s, actor, Signal(id, expected, action)).0;
      id in t.calls && t.calls[id] == Signalled(s.calls[id], action)
  {
    CallIdIsKey(s, id);
  }

  ghost predicate ShutOut(s: Server, actor: Actor) { actor == Bob && s.revokedBob }

  ghost predicate Party(s: Server, actor: Actor, id: string) {
    id in s.calls && (actor == s.calls[id].caller || actor == s.calls[id].callee)
  }

  /** Who may do what to a Call in which state. */
  ghost predicate May(actor: Actor, c: DirectCall, action: Action) {
    match action
    case Accept => actor == c.callee && c.state == Ringing
    case Reject => actor == c.callee && c.state == Ringing
    case Busy => actor == c.callee && c.state == Ringing
    case Cancel => actor == c.caller && c.state == Ringing
    case Hangup => (actor == c.caller || actor == c.callee) && c.state == Active
    case OtherAction(_) => false
  }

  /** Every signal and every Join: refused as revoked, as unknown, as late or as forbidden, in that order, with nothing
      changed. Otherwise a signal moves the Call, and nothing else, to its next state and revision, and a Join is numbered. */
  lemma AnsweredExactlyWhen(s: Server, actor: Actor, id: string, expected: int, action: Action)
    requires Sound(s)
    ensures var (t, r) := Respond(s, actor, Signal(id, expected, action));
      if ShutOut(s, actor) then t == s && r == Refused(401)
      else if !Party(s, actor, id) then t == s && r == Refused(404)
      else if s.calls[id].revision != expected then t == s && r == Refused(409)
      else if !May(actor, s.calls[id], action) then t == s && r == Refused(403)
      else
        var next := s.calls[id].(state := if action == Accept then Active else Terminated, revision := expected + 1);
        r == TheCall(next) && t == s.(calls := s.calls[id := next])
    ensures Respond(s, actor, JoinAccepted(id, expected)) ==
      if ShutOut(s, actor) then (s, Refused(401))
      else if !Party(s, actor, id) then (s, Refused(404))
      else if s.calls[id].state != Active || s.calls[id].revision != expected then (s, Refused(403))
      else (s.(signedJoins := s.signedJoins + 1), Join(actor, id, s.signedJoins + 1))
  {
    if id in s.calls { CallIdIsKey(s, id); }
    hide Sound;
  }

  /** Every successful signal named the current revision, adds exactly one to it, and makes the Call active exactly
      when the callee accepts; any other success ends it. */
  lemma EachSuccessAddsOne(events: seq<Event>, i: nat)
    requires SignalSucceeds(events, i)
    ensures var id := events[i].request.callId;
      && id in At(events, i).calls && id in At(events, i + 1).calls
      && At(events, i).calls[id].revision == events[i].request.expectedRevision
      && At(events, i + 1).calls[id].revision == At(events, i).calls[id].revision + 1
      && (At(events, i + 1).calls[id].state.Active? <==> events[i].request.action.Accept?)
      && (At(events, i + 1).calls[id].state.Active? ==> events[i].actor.Bob?)
      && (!At(events, i + 1).calls[id].state.Active? ==> At(events, i + 1).calls[id].state.Terminated?)
  {
    var id := events[i].request.callId;
    LaterStates(events, i, i);
    StateAfter(events, i);
    CalleeIsBob(At(events, i), id);
    hide Sound, Respond, SignalAllowed, WellFormed;
    SucceedingSignal(At(events, i), events[i].actor, id, events[i].request.expectedRevision, events[i].request.action);
    AcceptedByCallee(events[i].actor, At(events, i).calls[id], events[i].request.action);
  }

  /** Of all signals to one Call that name the same expected revision at most one succeeds: later successes name
      strictly later revisions. */
  lemma SignalsAreCompareAndSwap(events: seq<Event>, i: nat, j: nat)
    requires i < j && SignalSucceeds(events, i) && SignalSucceeds(events, j)
    requires events[i].request.callId == events[j].request.callId
    ensures events[i].request.expectedRevision < events[j].request.expectedRevision
  {
    hide Sound, ResponseAt, WellFormed, At;
    EachSuccessAddsOne(events, i);
    EachSuccessAddsOne(events, j);
    LaterStates(events, i + 1, j);
  }

  lemma CalleeIsBob(s: Server, id: string)
    requires Sound(s)
    ensures id in s.calls ==> s.calls[id].callee == Bob
  {
    if id in s.calls { assert WellFormed(id, s.calls[id]); }
  }

  lemma AcceptedByCallee(actor: Actor, c: DirectCall, action: Action)
    requires SignalAllowed(actor, c, action) && c.callee == Bob
    ensures Signalled(c, action).state.Active? ==> actor.Bob?
  {
  }

  /** Retrying a start returns the same Call at any later time; another key gives another Call. */
  lemma StartIsIdempotent(events: seq<Event>, i: nat, j: nat)
    requires i < j < |events|
    requires events[i].Requested? && events[i].request.Start? && ResponseAt(events, i).TheCall?
    requires events[j].Requested? && events[j].request.Start? && ResponseAt(events, j).TheCall?
    ensures ResponseAt(events, i).call.callId == ResponseAt(events, j).call.callId
      <==> events[i].request.idempotencyKey == events[j].request.idempotencyKey
  {
    var s, t := At(events, i), At(events, j);
    LaterStates(events, i, i);
    LaterStates(events, i + 1, j);
    StateAfter(events, i);
    var a, b := events[i].request, events[j].request;
    hide Sound, Respond, CallIdFor, StartKey, KeyIn;
    StartAnswer(s, events[i].actor, a.peer, a.media, a.idempotencyKey);
    StartAnswer(t, events[j].actor, b.peer, b.media, b.idempotencyKey);
  }

  lemma StartAnswer(s: Server, actor: Actor, peer: Option<Actor>, media: Media, key: string)
    requires Sound(s) && Respond(s, actor, Start(peer, media, key)).1.TheCall?
    ensures var (t, r) := Respond(s, actor, Start(peer, media, key));
      var startKey := StartKey(Alice, key);
      startKey in t.starts && t.starts[startKey] == r.call.callId && KeyIn(r.call.callId) == key
  {
    hide CallIdFor, StartKey, KeyIn;
    var startKey := StartKey(Alice, key);
    KeyInInverts(media, key);
    if startKey in s.starts {
      var id := s.starts[startKey];
      StartKeysDiffer(key, KeyIn(id));
      CallIdIsKey(s, id);
    }
  }

  /** A known start key always leads to a Call: the lookup of a started Call never comes back empty. */
  lemma KnownStartHasCall(events: seq<Event>, i: nat)
    requires i < |events| && events[i].Requested?
    ensures ResponseAt(events, i) != NoBody
  {
    LaterStates(events, i, i);
    hide StartKey, CallIdFor, KeyIn;
  }

  /** A Join is issued only for a Call that is active at the requested revision, never after the Call has
      terminated and never to a revoked Device. */
  lemma JoinOnlyWhileActive(events: seq<Event>, i: nat)
    requires i < |events| && events[i].Requested? && ResponseAt(events, i).Join?
    ensures var s, r, id := At(events, i), events[i].request, ResponseAt(events, i).callId;
      && r.JoinAccepted? && r.callId == id && id in s.calls
      && s.calls[id].state.Active? && s.calls[id].revision == r.expectedRevision
      && !(events[i].actor.Bob? && s.revokedBob)
      && (forall k :: 0 <= k <= i && id in At(events, k).calls ==> !At(events, k).calls[id].state.Terminated?)
  {
    var s, r := At(events, i), events[i].request;
    LaterStates(events, i, i);
    var id := ResponseAt(events, i).callId;
    assert CallNamed(r) in s.calls;
    CallIdIsKey(s, CallNamed(r));
    forall k | 0 <= k <= i && id in At(events, k).calls ensures !At(events, k).calls[id].state.Terminated? {
      LaterStates(events, k, i);
      assert Later(At(events, k).calls[id], s.calls[id]);
    }
  }

  /** After revocation nothing but a refusal reaches the revoked Device, in every continuation. */
  lemma RevokedDeviceIsRefused(events: seq<Event>, i: nat, j: nat)
    requires i <= j < |events| && At(events, i).revokedBob
    requires events[j].Requested? && events[j].actor.Bob?
    ensures ResponseAt(events, j) == Refused(401) && At(events, j + 1) == At(events, j)
  {
    LaterStates(events, i, j);
    StateAfter(events, j);
  }
}
