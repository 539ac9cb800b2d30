/** The answers of the two-Device Call server, route by route, over the request and the maps alone. */
module DirectCallAnswers {
  import opened Base
  import opened DirectCallServer

  /** The revoked Device is refused everywhere; nothing changes. */
  lemma RevokedAnswers(s: Server, request: Request)
    requires s.revokedBob
    ensures Respond(s, Bob, request) == (s, Refused(401))
  {
  }

  /** Routes without a Call. A Device is never reprovisioned and never joins without a Call; the attempts are
      counted. */
  lemma RoutineAnswers(s: Server, actor: Actor)
    requires !ShutOut(s, actor)
    ensures Respond(s, actor, SessionLookup) == (s, Binding(actor))
    ensures Respond(s, actor, InspectDevice) == (s, DeviceActive(actor))
    ensures Respond(s, actor, EnrollDevice) == (s.(approved := s.approved + 1), Refused(403))
    ensures Respond(s, actor, BareJoin) == (s.(bareJoinAttempts := s.bareJoinAttempts + 1), Refused(403))
    ensures Respond(s, actor, Incoming).0 == s && Respond(s, actor, Incoming).1.Calls?
    ensures forall c :: c in Respond(s, actor, Incoming).1.calls <==>
      c.callee == actor && c.state == Ringing && exists id :: id in s.calls && s.calls[id] == c
  {
  }

  /** Exactly Alice starts Calls, to Bob, by audio or video. A known key returns its Call and changes nothing; a new
      one creates a ringing Call at revision 1, whose id shows medium and key. */
  lemma StartAnswers(s: Server, actor: Actor, peer: Option<Actor>, media: Media, key: string)
    requires Sound(s) && !ShutOut(s, actor)
    ensures var (t, r) := Respond(s, actor, Start(peer, media, key));
      && (r.TheCall? <==> actor == Alice && peer == Some(Bob) && (media == Audio || media == Video))
      && (!r.TheCall? ==> t == s && r == Refused(403))
      && (r.TheCall? && "alice:" + key in s.starts ==>
            t == s && s.starts["alice:" + key] in s.calls && r.call == s.calls[s.starts["alice:" + key]])
      && (r.TheCall? && "alice:" + key !in s.starts ==>
            && r.call == DirectCall((if media == Video then "fp-v-" else "fp-a-") + key, Alice, Bob, media, Ringing, 1)
            && t == s.(starts := s.starts["alice:" + key := r.call.callId], calls := s.calls[r.call.callId := r.call]))
  {
    StartKeyIs(key);
    CallIdIs(media, key);
    hide StartKey, CallIdFor, KeyIn;
  }

  lemma StartKeyIs(key: string)
    ensures StartKey(Alice, key) == "alice:" + key
  {
  }

  lemma CallIdIs(media: Media, key: string)
    ensures CallIdFor(media, key) == (if media == Video then "fp-v-" else "fp-a-") + key
  {
    assert "fp-" + "v" + "-" == "fp-v-" && "fp-" + "a" + "-" == "fp-a-";
  }

  /** Reading a Call changes nothing; other routes are unknown. */
  lemma CallAnswers(s: Server, actor: Actor, id: string)
    requires !ShutOut(s, actor)
    ensures Respond(s, actor, Get(id)) == (s, if Party(s, actor, id) then TheCall(s.calls[id]) else Refused(404))
    ensures Respond(s, actor, OtherRoute(id)) == (s, Refused(404))
  {
  }
}
