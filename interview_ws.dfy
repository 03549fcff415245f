/**
 * The bookkeeping of the real-time interview server: which sockets are in which
 * session (`activeSessions`, a session id to a set of socket ids) and which
 * session each socket last joined (`socketToSession`). Room joins, emits and
 * timestamps are left out; only the two maps are modelled.
 */
module InterviewWs {
  import opened Basics

  /** No session is listed with an empty set of sockets. */
  ghost predicate NoEmptySets(active: map<string, set<string>>)
  {
    forall k :: k in active ==> active[k] != {}
  }

  /** Every socket that is mapped to a session is listed under that session. */
  ghost predicate Tracked(active: map<string, set<string>>, mapping: map<string, string>)
  {
    forall s :: s in mapping ==> mapping[s] in active && s in active[mapping[s]]
  }

  /** Removing a socket from a session's set, and the session's entry with it once the set is empty. */
  function WithoutSocket(active: map<string, set<string>>, sessionId: string, socketId: string): (r: map<string, set<string>>)
    ensures sessionId in r ==> sessionId in active && r[sessionId] == active[sessionId] - {socketId} != {}
    ensures sessionId in active && active[sessionId] - {socketId} != {} ==> sessionId in r
    ensures forall k :: k != sessionId ==> (k in r <==> k in active)
    ensures forall k :: k != sessionId && k in r ==> r[k] == active[k]
  {
    if sessionId !in active then active
    else
      var rest := active[sessionId] - {socketId};
      if rest == {} then active - {sessionId} else active[sessionId := rest]
  }

  /** Adding a socket to a session's set, creating the set when the session has none. */
  function WithSocket(active: map<string, set<string>>, sessionId: string, socketId: string): (r: map<string, set<string>>)
    ensures sessionId in r && r[sessionId] == (if sessionId in active then active[sessionId] else {}) + {socketId}
    ensures forall k :: k != sessionId ==> (k in r <==> k in active)
    ensures forall k :: k != sessionId && k in r ==> r[k] == active[k]
  {
    active[sessionId := (if sessionId in active then active[sessionId] else {}) + {socketId}]
  }

  /**
   * The sets after a socket leaves the session it is mapped to; a socket mapped
   * to the empty session id is not removed, since `""` is falsy.
   */
  function Departed(active: map<string, set<string>>, mapping: map<string, string>, socketId: string): map<string, set<string>>
  {
    if socketId in mapping && mapping[socketId] != "" then WithoutSocket(active, mapping[socketId], socketId) else active
  }

  lemma WithoutSocketKeepsValid(active: map<string, set<string>>, mapping: map<string, string>, sessionId: string, socketId: string)
    requires NoEmptySets(active) && Tracked(active, mapping)
    ensures NoEmptySets(WithoutSocket(active, sessionId, socketId))
    ensures Tracked(WithoutSocket(active, sessionId, socketId), mapping - {socketId})
  {
    var r := WithoutSocket(active, sessionId, socketId);
    forall s | s in mapping - {socketId}
      ensures mapping[s] in r && s in r[mapping[s]]
    {
      if mapping[s] == sessionId {
        assert s in active[sessionId] - {socketId};
      }
    }
  }

  lemma WithSocketKeepsValid(active: map<string, set<string>>, mapping: map<string, string>, sessionId: string, socketId: string)
    requires NoEmptySets(active) && Tracked(active, mapping - {socketId})
    ensures NoEmptySets(WithSocket(active, sessionId, socketId))
    ensures Tracked(WithSocket(active, sessionId, socketId), mapping[socketId := sessionId])
  {
    var r := WithSocket(active, sessionId, socketId);
    var m := mapping[socketId := sessionId];
    forall s | s in m
      ensures m[s] in r && s in r[m[s]]
    {
      if s != socketId {
        assert s in mapping - {socketId};
      }
    }
  }

  /** Unmapping a socket keeps every remaining mapped socket listed. */
  lemma TrackedWithout(active: map<string, set<string>>, mapping: map<string, string>, socketId: string)
    requires Tracked(active, mapping)
    ensures Tracked(active, mapping - {socketId})
  {
  }

  /**
   * Adding a socket to a session and removing it again restores the sets, as
   * long as the socket was not already listed there.
   */
  lemma WithoutUndoesWith(active: map<string, set<string>>, sessionId: string, socketId: string)
    requires NoEmptySets(active)
    requires sessionId !in active || socketId !in active[sessionId]
    ensures WithoutSocket(WithSocket(active, sessionId, socketId), sessionId, socketId) == active
  {
    var r := WithoutSocket(WithSocket(active, sessionId, socketId), sessionId, socketId);
    if sessionId in active {
      assert r[sessionId] == active[sessionId];
    }
    assert forall k :: k in r <==> k in active;
  }

  /**
   * Leaving a session the socket is not mapped to unmaps the socket but leaves
   * it listed under the session it really joined.
   */
  lemma LeaveElsewhereLeavesStale(active: map<string, set<string>>, mapping: map<string, string>, socketId: string, sessionId: string)
    requires Tracked(active, mapping)
    requires socketId in mapping && mapping[socketId] != sessionId
    ensures var joined := mapping[socketId];
            var r := WithoutSocket(active, sessionId, socketId);
            joined in r && socketId in r[joined] && socketId !in mapping - {socketId}
  {
  }

  /**
   * A socket mapped to the empty session id is never removed from that
   * session's set when it joins elsewhere or disconnects.
   */
  lemma EmptySessionIdLingers(active: map<string, set<string>>, mapping: map<string, string>, socketId: string, sessionId: string)
    requires Tracked(active, mapping)
    requires socketId in mapping && mapping[socketId] == "" && sessionId != ""
    ensures var joined := WithSocket(Departed(active, mapping, socketId), sessionId, socketId);
            "" in joined && socketId in joined[""]
    ensures var gone := Departed(active, mapping, socketId);
            "" in gone && socketId in gone[""]
  {
  }

  class SessionRegistry {
    var activeSessions: map<string, set<string>>
    var socketToSession: map<string, string>

    ghost predicate Valid()
      reads this
    {
      NoEmptySets(activeSessions) && Tracked(activeSessions, socketToSession)
    }

    /** Both maps start empty. */
    constructor()
      ensures Valid()
      ensures activeSessions == map[] && socketToSession == map[]
    {
      activeSessions := map[];
      socketToSession := map[];
    }

    /** `sessionSockets.delete(id)` followed by deleting the emptied entry. */
    method RemoveFromSession(sessionId: string, socketId: string)
      modifies this
      ensures activeSessions == WithoutSocket(old(activeSessions), sessionId, socketId)
      ensures socketToSession == old(socketToSession)
    {
      if sessionId in activeSessions {
        var sessionSockets := activeSessions[sessionId] - {socketId};
        if |sessionSockets| == 0 {
          activeSessions := activeSessions - {sessionId};
        } else {
          activeSessions := activeSessions[sessionId := sessionSockets];
        }
      }
    }

    /** `activeSessions.set(id, new Set())` when missing, then `add`. */
    method AddToSession(sessionId: string, socketId: string)
      modifies this
      ensures activeSessions == WithSocket(old(activeSessions), sessionId, socketId)
      ensures socketToSession == old(socketToSession)
    {
      if sessionId !in activeSessions {
        activeSessions := activeSessions[sessionId := {}];
      }
      activeSessions := activeSessions[sessionId := activeSessions[sessionId] + {socketId}];
    }

    /** The `join-session` handler: leave the previous session, then map the socket and list it. */
    method JoinSession(socketId: string, sessionId: string)
      requires Valid()
      modifies this
      ensures Valid()
      ensures socketToSession == old(socketToSession)[socketId := sessionId]
      ensures activeSessions == WithSocket(Departed(old(activeSessions), old(socketToSession), socketId), sessionId, socketId)
      ensures sessionId in activeSessions && socketId in activeSessions[sessionId]
    {
      if socketId in socketToSession && socketToSession[socketId] != "" {
        var previousSession := socketToSession[socketId];
        WithoutSocketKeepsValid(activeSessions, socketToSession, previousSession, socketId);
        RemoveFromSession(previousSession, socketId);
      } else {
        TrackedWithout(activeSessions, socketToSession, socketId);
      }
      WithSocketKeepsValid(activeSessions, socketToSession, sessionId, socketId);
      socketToSession := socketToSession[socketId := sessionId];
      AddToSession(sessionId, socketId);
    }

    /** The `leave-session` handler: unmap the socket, then remove it from the named session. */
    method LeaveSession(socketId: string, sessionId: string)
      requires Valid()
      modifies this
      ensures Valid()
      ensures socketToSession == old(socketToSession) - {socketId}
      ensures activeSessions == WithoutSocket(old(activeSessions), sessionId, socketId)
    {
      WithoutSocketKeepsValid(activeSessions, socketToSession, sessionId, socketId);
      socketToSession := socketToSession - {socketId};
      RemoveFromSession(sessionId, socketId);
    }

    /** The `disconnect` handler: remove the socket from its mapped session, then unmap it. */
    method Disconnect(socketId: string)
      requires Valid()
      modifies this
      ensures Valid()
      ensures socketToSession == old(socketToSession) - {socketId}
      ensures activeSessions == Departed(old(activeSessions), old(socketToSession), socketId)
    {
      if socketId in socketToSession && socketToSession[socketId] != "" {
        var sessionId := socketToSession[socketId];
        WithoutSocketKeepsValid(activeSessions, socketToSession, sessionId, socketId);
        RemoveFromSession(sessionId, socketId);
      } else {
        TrackedWithout(activeSessions, socketToSession, socketId);
      }
      socketToSession := socketToSession - {socketId};
    }

    /** The `activeUsers` count of `get-session-info`: positive exactly for a listed session. */
    method GetSessionInfo(sessionId: string) returns (activeUsers: nat)
      requires Valid()
      ensures activeUsers == if sessionId in activeSessions then |activeSessions[sessionId]| else 0
      ensures activeUsers > 0 <==> sessionId in activeSessions
    {
      var sessionSockets := if sessionId in activeSessions then Some(activeSessions[sessionId]) else None;
      activeUsers := if sessionSockets.Some? then |sessionSockets.value| else 0;
    }
  }
}
