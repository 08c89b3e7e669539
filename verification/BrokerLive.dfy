/** The blocks of the broker that loop over its maps, as the source runs them:
    in place, under one lock. Each is proved to be one step of the state machine,
    or, for the polling loop, a run of steps nothing else cuts into. */
module BrokerLive {
  import opened ByteStrings
  import opened Wrappers
  import opened Domain
  import opened Broker

  /** What one round of polling reads besides the maps: the clock, and whether
      the bound recipe can be used. */
  datatype Reading = Reading(now: int, recipeUsable: bool)

  /** One round: what is first in the queue is popped and looked at. */
  function Round(s: State, t: nat, reading: Reading): State {
    InspectOffer(PopOffer(s, t), t, reading.now, reading.recipeUsable)
  }

  /** Polling left alone from round `i` on: pop and inspect, each time with
      readings of its own, until something is decided. */
  function PollAlone(s: State, t: nat, readings: nat -> Reading, i: nat): State
    requires t in s.threads && s.threads[t].Polling?
    decreases |QueueOf(s, s.threads[t].session)|
  {
    if QueueOf(s, s.threads[t].session) == [] then PopOffer(s, t)
    else
      var looked := Round(s, t, readings(i));
      if t in looked.threads then PollAlone(looked, t, readings, i + 1) else looked
  }

  class LiveBroker {
    var sessions: map<Id, Session>
    var requests: map<Id, RequestState>
    var requestAgents: map<Id, Id>
    var capabilities: map<Id, Capability>
    var offers: map<Id, seq<Id>>
    var oauth: map<Id, PendingOAuth>

    constructor ()
      ensures sessions == map[] && requests == map[] && requestAgents == map[]
      ensures capabilities == map[] && offers == map[] && oauth == map[]
    {
      sessions, requests, requestAgents := map[], map[], map[];
      capabilities, offers, oauth := map[], map[], map[];
    }

    /** The whole state: these maps, with everything else as in `rest`. */
    ghost function In(rest: State): State
      reads this
    {
      rest.(sessions := sessions, requests := requests, requestAgents := requestAgents,
            capabilities := capabilities, offers := offers, oauth := oauth)
    }

    /** Revoke every entry in `targets` that is not terminal yet. */
    method RevokeEntries(targets: set<Id>)
      requires targets <= capabilities.Keys
      modifies this`capabilities
      ensures capabilities == RevokedAmong(old(capabilities), targets)
    {
      var pending := targets;
      while pending != {}
        invariant pending <= targets && capabilities.Keys == old(capabilities).Keys
        invariant forall id <- capabilities ::
                    capabilities[id] ==
                    if id in targets && id !in pending then RevokedUnlessTerminal(old(capabilities)[id])
                    else old(capabilities)[id]
        decreases |pending|
      {
        var id :| id in pending;
        if !capabilities[id].state.IsTerminal() {
          capabilities := capabilities[id := capabilities[id].(state := Revoked)];
        }
        pending := pending - {id};
      }
    }

    /** `handle_action_cancel`. */
    method CancelRequest(ghost rest: State, agent: Id, request: Id) returns (cancelled: bool)
      modifies this`requests, this`capabilities
      ensures cancelled == Cancellable(old(In(rest)), agent, request)
      ensures requests == Cancel(old(In(rest)), agent, request).requests
      ensures capabilities == Cancel(old(In(rest)), agent, request).capabilities
    {
      hide RevokedAmong, Cancel;
      CancelIs(In(rest), agent, request);
      if request !in requestAgents || requestAgents[request] != agent || request !in requests {
        return false;
      }
      if requests[request].IsTerminal() || requests[request] == Executing {
        return false;
      }
      requests := requests[request := Cancelled];
      RevokeEntries(OfRequest(capabilities, request));
      return true;
    }

    /** `expire_stale_sessions`, first block: note and close what went quiet. */
    method CloseStaleSessions(now: int) returns (stale: set<Id>)
      modifies this`sessions
      ensures stale == StaleSessions(old(sessions), now) && sessions == Closed(old(sessions), stale)
    {
      hide Session.IsStale;
      stale := {};
      var pending := sessions.Keys;
      while pending != {}
        invariant pending <= sessions.Keys == old(sessions).Keys
        invariant forall id <- pending :: sessions[id] == old(sessions)[id] && id !in stale
        invariant stale <= sessions.Keys
        invariant forall id <- sessions.Keys - pending ::
                    && (id in stale <==> old(sessions)[id].IsStale(now))
                    && sessions[id] == if id in stale then old(sessions)[id].(active := false) else old(sessions)[id]
        decreases |pending|
      {
        var id :| id in pending;
        if sessions[id].IsStale(now) {
          sessions := sessions[id := sessions[id].(active := false)];
          stale := stale + {id};
        }
        pending := pending - {id};
      }
    }

    /** Its second block: revoke what those sessions held. */
    method RevokeStaleEntries(ghost rest: State, ghost t: nat, stale: set<Id>)
      requires t in rest.threads && rest.threads[t] == SessionsSwept(stale)
      modifies this`capabilities
      ensures In(rest).capabilities == RevokeSessionEntries(old(In(rest)), t).capabilities
    {
      hide RevokedAmong;
      RevokeEntries(OfSessions(capabilities, stale));
    }

    /** The last block of `ui_disable_agent`. */
    method RevokeAgentEntries(ghost rest: State, agent: Id)
      modifies this`capabilities
      ensures In(rest).capabilities == DisableAgent(old(In(rest)), agent).capabilities
    {
      hide RevokedAmong;
      RevokeEntries(OfAgent(capabilities, agent));
    }

    /** The loop of `close_managed_browser`. */
    method TerminateSessions(ghost rest: State, instance: Id)
      modifies this`sessions
      ensures In(rest).sessions == CloseBrowser(old(In(rest)), instance).sessions
    {
      var pending := sessions.Keys;
      while pending != {}
        invariant pending <= sessions.Keys == old(sessions).Keys
        invariant forall id <- pending :: sessions[id] == old(sessions)[id]
        invariant forall id <- sessions.Keys - pending ::
                    sessions[id] == if old(sessions)[id].instance == instance then old(sessions)[id].(active := false)
                                    else old(sessions)[id]
        decreases |pending|
      {
        var id :| id in pending;
        if sessions[id].instance == instance {
          sessions := sessions[id := sessions[id].(active := false)];
        }
        pending := pending - {id};
      }
    }

    /** The last block of `replace_policy`. */
    method RevokeOtherEntries(ghost rest: State, ghost t: nat, hash: Bytes)
      requires t in rest.threads && rest.threads[t] == PolicyReplaced(hash)
      modifies this`capabilities
      ensures In(rest).capabilities == RevokePolicyEntries(old(In(rest)), t).capabilities
    {
      hide RevokedAmong;
      RevokeEntries(OfOtherPolicies(capabilities, hash));
    }

    /** The loop of `handle_execution_next`: take offers off the queue until one
        can still be consumed. */
    method NextOffer(ghost rest: State, ghost t: nat, session: Id, readings: nat -> Reading)
      returns (offer: Option<Id>)
      requires t in rest.threads && rest.threads[t] == Polling(session)
      modifies this`offers, this`oauth
      ensures var after := PollAlone(old(In(rest)), t, readings, 0);
              && offers == after.offers && oauth == after.oauth
              && after.history.offered == rest.history.offered
                                          + (match offer case None => [] case Some(id) => [Offer(session, id)])
    {
      hide PollAlone, InspectOffer, PopOffer, PrepareOAuth;
      ghost var s := In(rest);
      ghost var start := s;
      var i: nat := 0;
      while true
        invariant s.offers == offers && s.oauth == oauth && s.capabilities == capabilities
        invariant t in s.threads && s.threads[t] == Polling(session)
        invariant s.history.offered == rest.history.offered
        invariant PollAlone(s, t, readings, i) == PollAlone(start, t, readings, 0)
        decreases |QueueOf(s, session)|
      {
        var queue := if session in offers then offers[session] else [];
        if queue == [] {
          PollEnds(s, t, readings, i);
          offers := offers[session := []];
          return None;
        }
        var id := queue[0];
        offers := offers[session := queue[1..]];
        var now, recipeUsable := readings(i).now, readings(i).recipeUsable;
        if id in capabilities && !capabilities[id].state.IsTerminal() && now < capabilities[id].terms.consumeDeadline {
          PollTakes(s, t, readings, i);
          if !recipeUsable {
            return None;
          }
          oauth := PrepareOAuth(oauth, id, capabilities[id].terms);
          return Some(id);
        }
        PollDrops(s, t, readings, i);
        s, i := Round(s, t, readings(i)), i + 1;
      }
    }
  }

  lemma CancelIs(s: State, agent: Id, request: Id)
    ensures var s' := Cancel(s, agent, request);
            if Cancellable(s, agent, request) then
              && s'.requests == s.requests[request := Cancelled]
              && s'.capabilities == RevokedAmong(s.capabilities, OfRequest(s.capabilities, request))
            else s'.requests == s.requests && s'.capabilities == s.capabilities
  {
    hide RevokedAmong, OfRequest, Cancellable;
  }

  lemma Passed(s: State, t: nat, now: int, recipeUsable: bool)
    requires t in s.threads && s.threads[t].Popped? && !Offerable(s, s.threads[t].offer, now)
    ensures var after := InspectOffer(s, t, now, recipeUsable);
            && after.threads == Continued(s.threads, t, Some(Polling(s.threads[t].session)))
            && after.offers == s.offers && after.oauth == s.oauth && after.capabilities == s.capabilities
            && after.history.offered == s.history.offered
  {
  }

  lemma Taken(s: State, t: nat, now: int, recipeUsable: bool)
    requires t in s.threads && s.threads[t].Popped? && Offerable(s, s.threads[t].offer, now)
    ensures var after, p := InspectOffer(s, t, now, recipeUsable), s.threads[t];
            && after.threads == Continued(s.threads, t, None) && after.offers == s.offers
            && after.capabilities == s.capabilities
            && after.oauth == (if recipeUsable then PrepareOAuth(s.oauth, p.offer, s.capabilities[p.offer].terms)
                               else s.oauth)
            && after.history.offered == s.history.offered + (if recipeUsable then [Offer(p.session, p.offer)] else [])
  {
  }

  /** A capability that can still be consumed, as far as memory knows. */
  predicate CanConsume(entries: map<Id, Capability>, id: Id, now: int) {
    id in entries && entries[id].IsLive() && now < entries[id].terms.consumeDeadline
  }

  lemma OfferableCanConsume(s: State, id: Id, now: int)
    ensures Offerable(s, id, now) <==> CanConsume(s.capabilities, id, now)
  {
  }

  lemma PollEnds(s: State, t: nat, readings: nat -> Reading, i: nat)
    requires t in s.threads && s.threads[t].Polling? && QueueOf(s, s.threads[t].session) == []
    ensures var session, after := s.threads[t].session, PollAlone(s, t, readings, i);
            && after.offers == s.offers[session := []] && after.oauth == s.oauth
            && after.capabilities == s.capabilities && after.history.offered == s.history.offered
  {
    hide PopOffer;
    Popping(s, t);
  }

  /** What cannot be consumed is dropped, and the next round begins. */
  lemma PollDrops(s: State, t: nat, readings: nat -> Reading, i: nat)
    requires t in s.threads && s.threads[t].Polling? && QueueOf(s, s.threads[t].session) != []
    requires !CanConsume(s.capabilities, QueueOf(s, s.threads[t].session)[0], readings(i).now)
    ensures var session, looked := s.threads[t].session, Round(s, t, readings(i));
            && t in looked.threads && looked.threads[t] == Polling(session)
            && PollAlone(s, t, readings, i) == PollAlone(looked, t, readings, i + 1)
            && looked.offers == s.offers[session := QueueOf(s, session)[1..]] && looked.oauth == s.oauth
            && looked.capabilities == s.capabilities && looked.history.offered == s.history.offered
  {
    hide PopOffer, InspectOffer, Offerable, CanConsume;
    Popping(s, t);
    var popped, id := PopOffer(s, t), QueueOf(s, s.threads[t].session)[0];
    OfferableCanConsume(popped, id, readings(i).now);
    Passed(popped, t, readings(i).now, readings(i).recipeUsable);
  }

  /** What can be consumed ends the polling, handed out if its recipe is there. */
  lemma PollTakes(s: State, t: nat, readings: nat -> Reading, i: nat)
    requires t in s.threads && s.threads[t].Polling? && QueueOf(s, s.threads[t].session) != []
    requires CanConsume(s.capabilities, QueueOf(s, s.threads[t].session)[0], readings(i).now)
    ensures var session, after := s.threads[t].session, PollAlone(s, t, readings, i);
            var id, usable := QueueOf(s, session)[0], readings(i).recipeUsable;
            && after.offers == s.offers[session := QueueOf(s, session)[1..]]
            && after.oauth == (if usable then PrepareOAuth(s.oauth, id, s.capabilities[id].terms) else s.oauth)
            && after.capabilities == s.capabilities
            && after.history.offered == s.history.offered + (if usable then [Offer(session, id)] else [])
  {
    hide PopOffer, InspectOffer, Offerable, PrepareOAuth;
    Popping(s, t);
    var popped, id := PopOffer(s, t), QueueOf(s, s.threads[t].session)[0];
    OfferableCanConsume(popped, id, readings(i).now);
    Taken(popped, t, readings(i).now, readings(i).recipeUsable);
  }

  /** What polling does, in terms of the queue alone: everything is dropped up to
      the first capability that can still be consumed when its turn comes, and
      that one is taken; it is handed out if its recipe can be used by then. */
  lemma {:induction false} PollTakesFirstUsable(s: State, t: nat, readings: nat -> Reading, i: nat, k: nat)
    requires t in s.threads && s.threads[t].Polling?
    requires var queue := QueueOf(s, s.threads[t].session);
             && k <= |queue|
             && (forall j :: 0 <= j < k ==> !CanConsume(s.capabilities, queue[j], readings(i + j).now))
             && (k < |queue| ==> CanConsume(s.capabilities, queue[k], readings(i + k).now))
    ensures var session := s.threads[t].session;
            var queue, after := QueueOf(s, session), PollAlone(s, t, readings, i);
            && QueueOf(after, session) == (if k < |queue| then queue[k + 1..] else [])
            && after.history.offered
               == s.history.offered
                  + (if k < |queue| && readings(i + k).recipeUsable then [Offer(session, queue[k])] else [])
            && after.capabilities == s.capabilities
    decreases k
  {
    hide PollAlone, PrepareOAuth, CanConsume, Round;
    var queue := QueueOf(s, s.threads[t].session);
    if queue == [] {
      PollEnds(s, t, readings, i);
    } else if k == 0 {
      PollTakes(s, t, readings, i);
    } else {
      assert !CanConsume(s.capabilities, queue[0], readings(i + 0).now);
      PollDrops(s, t, readings, i);
      forall j | 0 <= j < k - 1
        ensures !CanConsume(s.capabilities, queue[1..][j], readings(i + 1 + j).now)
      {
        assert !CanConsume(s.capabilities, queue[j + 1], readings(i + (j + 1)).now);
      }
      PollTakesFirstUsable(Round(s, t, readings(i)), t, readings, i + 1, k - 1);
    }
  }

  lemma Popping(s: State, t: nat)
    requires t in s.threads && s.threads[t].Polling?
    ensures var session, after := s.threads[t].session, PopOffer(s, t);
            var queue := QueueOf(s, session);
            && QueueOf(after, session) == (if queue == [] then [] else queue[1..])
            && after.capabilities == s.capabilities && after.history.offered == s.history.offered
            && (queue != [] ==> t in after.threads && after.threads[t] == Popped(session, queue[0]))
            && (queue == [] ==> t !in after.threads)
            && after.offers == s.offers[session := QueueOf(after, session)] && after.oauth == s.oauth
  {
  }
}
