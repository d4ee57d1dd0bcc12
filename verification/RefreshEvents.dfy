/** What each event writes, said event by event, and what a logout means for every later refresh. */
module RefreshEvents {
  import opened Results
  import opened Collections
  import opened RefreshTokens
  import opened RefreshProtocol
  import opened RefreshSafety

  /** Nothing changed but one session. */
  predicate OnlySession(a: Auth, b: Auth, sessionId: Id) {
    && b.tokens == a.tokens && b.sessions.Keys == a.sessions.Keys
    && forall id :: id in a.sessions && id != sessionId ==> b.sessions[id] == a.sessions[id]
  }

  /** A login stores a session that is not revoked, and a first token of it that is active. */
  lemma LoginStoresSessionAndRoot(s: System, e: Event)
    requires CanHappen(s, e)
    ensures e.IssueSession? ==>
              var next := After(s, e);
              && next.auth.tokens == s.auth.tokens && next.auth.sessions == s.auth.sessions[e.sessionId := e.session]
              && e.session.revokedAt.None?
              && next.pendingRoots == s.pendingRoots + {e.sessionId} && next.clients == s.clients && next.now == s.now
    ensures e.IssueRoot? ==>
              var next := After(s, e);
              && IsStored(next.auth, Root(e.seed)) && !IsStored(s.auth, Root(e.seed))
              && next.auth.tokens == s.auth.tokens[HashOf(Root(e.seed)) := RowOf(next.auth, Root(e.seed))]
              && (var row := RowOf(next.auth, Root(e.seed));
                  row.sessionId == e.sessionId && row.status == ACTIVE && row.expiresAt == e.expiresAt && row.rotatedAt.None?)
              && next.auth.sessions == s.auth.sessions
              && next.pendingRoots == s.pendingRoots - {e.sessionId} && next.clients == s.clients && next.now == s.now
  {
  }

  /** A client arrives with its token and has read nothing; the clock moves and nothing else does. */
  lemma ArrivingAndWaiting(s: System, e: Event)
    requires CanHappen(s, e)
    ensures e.Arrive? ==>
              && e.c !in s.clients && After(s, e).clients == s.clients[e.c := Presented(e.raw, false)]
              && After(s, e).auth == s.auth && After(s, e).now == s.now && After(s, e).pendingRoots == s.pendingRoots
    ensures e.Tick? ==> s.now <= e.to && After(s, e) == s.(now := e.to)
  {
  }

  /** A logout stamps the session with the time, unless it was revoked before, and writes nothing else. */
  lemma LogoutRevokesTheSession(s: System, sessionId: Id)
    requires sessionId in s.auth.sessions
    ensures var next := After(s, Logout(sessionId));
            var was, row := s.auth.sessions[sessionId], next.auth.sessions[sessionId];
            && OnlySession(s.auth, next.auth, sessionId)
            && row.revokedAt == (if was.revokedAt.Some? then was.revokedAt else Some(s.now))
            && row.userId == was.userId && row.expiresAt == was.expiresAt && row.lastUsedAt == was.lastUsedAt
            && next.clients == s.clients && next.now == s.now && next.pendingRoots == s.pendingRoots
  {
  }

  /** A logout with no such session does nothing. */
  lemma LogoutOfNothing(s: System, sessionId: Id)
    requires sessionId !in s.auth.sessions
    ensures After(s, Logout(sessionId)) == s
  {
  }

  /** A user that is not found is answered nothing, whatever the token, and nothing is written for it. */
  lemma UnknownUsersAreRefused(s: System, e: Event)
    requires CanHappen(s, e)
    requires e.LoadSession? || e.Hop?
    ensures After(s, e).auth == s.auth
    ensures e.LoadSession? && !e.userFound ==> !After(s, e).clients[e.c].Rotating?
    ensures e.Hop? && !e.userFound ==> After(s, e).clients[e.c] != Done(Some(Successor(s.clients[e.c].raw)))
  {
  }

  /**
   A rotation wins exactly on an active token: then the successor is stored and the client goes on
   to renew the session. A client that lost presents its token once more, to find what won.
   */
  lemma RotatingWinsOrReloads(s: System, c: nat, at: Time)
    requires Inv(s) && CanHappen(s, CompareAndSet(c, at))
    ensures var p, next := s.clients[c], After(s, CompareAndSet(c, at));
            if IsActive(s.auth, p.raw)
            then && IsActive(next.auth, Successor(p.raw)) && RowOf(next.auth, Successor(p.raw)).expiresAt == p.expiresAt
                 && RowOf(next.auth, p.raw) == RowOf(s.auth, p.raw).(status := ROTATED, rotatedAt := Some(at))
                 && next.clients == s.clients[c := Renewing(p.raw, p.sessionId, p.expiresAt)]
            else next == s.(clients := s.clients[c := Presented(p.raw, true)])
  {
    hide RotatedHaveSuccessors, RevokedTogether, OneRoot, PendingAreEmpty, RotationsAreDated;
    var p := s.clients[c];
    RotationNeverConflicts(s.auth, p.raw, at, p.sessionId, p.expiresAt);
    if IsActive(s.auth, p.raw) {
      SuccessorAppears(s.auth, p.raw, at, p.sessionId, p.expiresAt);
    }
  }

  // A logout in a trace.

  lemma {:induction false} RevokedThroughout(states: seq<System>, events: seq<Event>, i: nat, sessionId: Id)
    requires IsTrace(states, events) && i <= |events| && IsRevokedSession(states[i].auth, sessionId)
    ensures IsRevokedSession(states[|events|].auth, sessionId)
    ensures states[|events|].auth.sessions[sessionId].revokedAt == states[i].auth.sessions[sessionId].revokedAt
    decreases |events|
  {
    hide CanHappen, After;
    if i < |events| {
      var n := |events| - 1;
      RevokedThroughout(states[..n + 1], events[..n], i, sessionId);
      RevokedSessionsStayRevoked(states[n], events[n], sessionId);
    }
  }

  lemma LaterPart(states: seq<System>, events: seq<Event>, i: nat)
    requires IsTrace(states, events) && i <= |events|
    ensures IsTrace(states[..i + 1], events[..i]) && IsTrace(states[i..], events[i..])
  {
    hide CanHappen, After;
    var later, rest := states[i..], events[i..];
    forall j | 0 <= j < |rest|
      ensures CanHappen(later[j], rest[j]) && later[j + 1] == After(later[j], rest[j])
    {
      assert later[j] == states[i + j] && rest[j] == events[i + j] && later[j + 1] == states[i + j + 1];
    }
  }

  /**
   Once a logout of a session has happened, that session stays revoked, and every client that
   reads it afterwards, whenever it came, is answered no token.
   */
  lemma LogoutEndsTheSession(states: seq<System>, events: seq<Event>, k: nat, sessionId: Id)
    requires IsTrace(states, events) && k < |events| && events[k] == Logout(sessionId) && sessionId in states[k].auth.sessions
    ensures IsRevokedSession(states[|events|].auth, sessionId)
    ensures states[|events|].auth.sessions[sessionId].revokedAt
         == if states[k].auth.sessions[sessionId].revokedAt.Some? then states[k].auth.sessions[sessionId].revokedAt else Some(states[k].now)
  {
    assert CanHappen(states[k], events[k]) && states[k + 1] == After(states[k], events[k]);
    LogoutRevokesTheSession(states[k], sessionId);
    RevokedThroughout(states, events, k + 1, sessionId);
  }

  lemma NoTokenAfterLogout(states: seq<System>, events: seq<Event>, k: nat, j: nat, sessionId: Id)
    requires IsTrace(states, events) && Inv(states[0])
    requires k < j < |events| && events[k] == Logout(sessionId) && sessionId in states[k].auth.sessions
    requires events[j].LoadSession? && events[j].c in states[j].clients
    requires states[j].clients[events[j].c].TokenLoaded? && states[j].clients[events[j].c].row.sessionId == sessionId
    ensures var last := states[|events|];
            && events[j].c in last.clients
            && (last.clients[events[j].c].Done? ==> last.clients[events[j].c].token.None?)
  {
    hide Inv, CanHappen, After;
    LaterPart(states, events, j);
    ReachableStatesAreInOrder(states[..j + 1], events[..j]);
    LogoutEndsTheSession(states[..j + 1], events[..j], k, sessionId);
    LogoutIsFinal(states[j..], events[j..], events[j].c);
  }
}
