/**
 Many refreshes of one active token at once. While the session stays valid, nobody else writes to
 it, and the grace period has not run out, all of them are answered the same successor.
 */
module RefreshRace {
  import opened Results
  import opened Collections
  import opened RefreshTokens
  import opened RefreshProtocol
  import opened RefreshSafety

  /** One race: the token presented, its session, the clients, and the times it lies between. */
  datatype Race = Race(raw: RawToken, sessionId: Id, racers: set<nat>, from: Time, deadline: Time)

  /** It ends within the grace period of any rotation made after it began. */
  predicate IsBrief(race: Race) {
    race.deadline <= race.from + REFRESH_TOKEN_REUSE_GRACE_SECONDS * 1000
  }

  predicate IsLasting(row: TokenRow, status: TokenStatus, race: Race) {
    row.sessionId == race.sessionId && row.status == status && row.expiresAt >= race.deadline
  }

  predicate IsFreshlyRotated(row: TokenRow, race: Race) {
    row.sessionId == race.sessionId && row.status == ROTATED && row.rotatedAt.Some? && row.rotatedAt.value >= race.from
  }

  predicate IsLastingSession(session: SessionRow, race: Race) {
    session.revokedAt.None? && session.expiresAt >= race.deadline
  }

  /** Nobody has won yet. */
  predicate IsUndecided(auth: Auth, race: Race) {
    IsStored(auth, race.raw) && IsLasting(RowOf(auth, race.raw), ACTIVE, race)
  }

  /** Somebody has: the successor is the active head. */
  predicate IsDecided(auth: Auth, race: Race) {
    && IsStored(auth, race.raw) && IsFreshlyRotated(RowOf(auth, race.raw), race)
    && IsStored(auth, Successor(race.raw)) && IsLasting(RowOf(auth, Successor(race.raw)), ACTIVE, race)
  }

  /** Where a racer can be: on its way to the successor, or answered it. */
  predicate IsRacing(auth: Auth, p: Phase, race: Race) {
    match p
    case Presented(raw, reloading) => raw == race.raw && (reloading ==> IsDecided(auth, race))
    case TokenLoaded(raw, row, reloading) =>
      raw == race.raw && ((IsFreshlyRotated(row, race) && IsDecided(auth, race)) || (!reloading && IsLasting(row, ACTIVE, race)))
    case Rotating(raw, sessionId, expiresAt, loadedAt) =>
      raw == race.raw && sessionId == race.sessionId && expiresAt >= race.deadline && loadedAt >= race.from
    case Renewing(raw, sessionId, expiresAt) =>
      raw == race.raw && sessionId == race.sessionId && expiresAt >= race.deadline
    case Hopping(raw, sessionId, session, hops) =>
      raw == race.raw && sessionId == race.sessionId && IsLastingSession(session, race) && hops > 0 && IsDecided(auth, race)
    case Revoking(_, _, _) => false
    case Done(token) => token == Some(Successor(race.raw))
  }

  predicate TablesAreOpen(auth: Auth, race: Race) {
    && (IsUndecided(auth, race) || IsDecided(auth, race))
    && race.sessionId in auth.sessions && IsLastingSession(auth.sessions[race.sessionId], race)
  }

  ghost predicate IsOpen(s: System, race: Race) {
    && IsBrief(race) && race.from <= s.now < race.deadline
    && TablesAreOpen(s.auth, race)
    && forall c :: c in race.racers && c in s.clients ==> IsRacing(s.auth, s.clients[c], race)
  }

  /** The session a client's next write goes to, if its next event writes. */
  function WritesTo(s: System, e: Event): Option<Id>
    requires CanHappen(s, e)
  {
    match e
    case CompareAndSet(c, _) => Some(s.clients[c].sessionId)
    case Renew(c) => Some(s.clients[c].sessionId)
    case RevokeAllTokens(c) => Some(s.clients[c].sessionId)
    case RevokeOwnSession(c) => Some(s.clients[c].sessionId)
    case Logout(sessionId) => Some(sessionId)
    case _ => None
  }

  /** No one outside the race writes to the session, time stays short of the deadline, and users are found. */
  predicate IsUndisturbed(s: System, e: Event, race: Race)
    requires CanHappen(s, e)
  {
    && (WritesTo(s, e) == Some(race.sessionId) ==> ClientOf(e).Some? && ClientOf(e).value in race.racers)
    && (e.Tick? ==> e.to < race.deadline)
    && (ClientOf(e).Some? && ClientOf(e).value in race.racers ==>
          match e
          case Arrive(_, raw) => raw == race.raw
          case LoadSession(_, userFound, lifetime) => userFound && s.now + lifetime >= race.deadline
          case Hop(_, userFound) => userFound
          case _ => true)
  }

  // What each event does to the race.

  lemma RotationDecides(s: System, c: nat, at: Time, race: Race)
    requires Inv(s) && IsOpen(s, race) && CanHappen(s, CompareAndSet(c, at)) && c in race.racers
    ensures var next := After(s, CompareAndSet(c, at));
            IsDecided(next.auth, race) && IsRacing(next.auth, next.clients[c], race) && next.auth.sessions == s.auth.sessions
  {
    hide Inv, IsBrief;
    var p := s.clients[c];
    assert IsRacing(s.auth, p, race);
    if IsUndecided(s.auth, race) {
      RotationWins(s, race, at, p.expiresAt);
      SuccessorAppears(s.auth, race.raw, at, race.sessionId, p.expiresAt);
    }
  }

  lemma RotationWins(s: System, race: Race, at: Time, expiresAt: Time)
    requires Inv(s) && IsUndecided(s.auth, race)
    ensures Rotate(s.auth, race.raw, at, race.sessionId, expiresAt).Won?
  {
    RotationNeverConflicts(s.auth, race.raw, at, race.sessionId, expiresAt);
  }

  /** A rotation in another session touches neither the token nor its successor. */
  lemma OtherRotationsLeaveTables(s: System, c: nat, at: Time, race: Race)
    requires Inv(s) && IsOpen(s, race) && CanHappen(s, CompareAndSet(c, at)) && s.clients[c].sessionId != race.sessionId
    ensures var next := After(s, CompareAndSet(c, at)).auth;
            && TablesAreOpen(next, race)
            && (IsDecided(s.auth, race) ==> IsDecided(next, race))
  {
    hide TokensInOrder, PendingAreEmpty, RotationsAreDated, IsBrief;
    var p := s.clients[c];
    assert IsOnSession(s.auth, p);
    var r := Rotate(s.auth, p.raw, at, p.sessionId, p.expiresAt);
    if r.Won? {
      SuccessorAppears(s.auth, p.raw, at, p.sessionId, p.expiresAt);
      assert race.raw != p.raw && Successor(race.raw) != Successor(p.raw);
      if IsDecided(s.auth, race) {
        assert Successor(race.raw) != p.raw;
      }
    }
  }

  /** What every event but a racer's rotation leaves of the tables. */
  lemma OthersLeaveTables(s: System, e: Event, race: Race)
    requires Inv(s) && IsOpen(s, race) && CanHappen(s, e) && IsUndisturbed(s, e, race)
    requires !(e.CompareAndSet? && e.c in race.racers)
    ensures TablesAreOpen(After(s, e).auth, race)
    ensures IsDecided(s.auth, race) ==> IsDecided(After(s, e).auth, race)
  {
    hide TokensInOrder, RotationsAreDated, IsBrief, AfterSession, AfterHop, AfterRevoking, IsDecided, IsUndecided, Rotate;
    match e
    case CompareAndSet(c, at) => OtherRotationsLeaveTables(s, c, at, race);
    case RevokeAllTokens(c) => RevokingElsewhere(s, c, race);
    case IssueRoot(sessionId, seed, expiresAt) => IssuingElsewhere(s, sessionId, seed, expiresAt, race);
    case _ => SameTokens(s.auth, After(s, e).auth, race); SessionsStayOpen(s, e, race);
  }

  lemma SameTokens(a: Auth, b: Auth, race: Race)
    requires a.tokens == b.tokens
    ensures IsDecided(a, race) <==> IsDecided(b, race)
    ensures IsUndecided(a, race) <==> IsUndecided(b, race)
  {
    SameRow(a, b, race.raw);
    SameRow(a, b, Successor(race.raw));
  }

  lemma SameRow(a: Auth, b: Auth, raw: RawToken)
    requires a.tokens == b.tokens
    ensures IsStored(a, raw) <==> IsStored(b, raw)
    ensures IsStored(a, raw) ==> RowOf(a, raw) == RowOf(b, raw)
  {
  }

  lemma SessionsStayOpen(s: System, e: Event, race: Race)
    requires IsOpen(s, race) && CanHappen(s, e) && IsUndisturbed(s, e, race)
    requires !e.CompareAndSet? && !e.RevokeAllTokens? && !e.IssueRoot?
    ensures var sessions := After(s, e).auth.sessions;
            race.sessionId in sessions && IsLastingSession(sessions[race.sessionId], race)
  {
    hide IsBrief, AfterSession, AfterHop, AfterRevoking, IsDecided, IsUndecided, Rotate;
    if ClientOf(e).Some? && ClientOf(e).value in race.racers && ClientOf(e).value in s.clients {
      assert IsRacing(s.auth, s.clients[ClientOf(e).value], race);
    }
  }

  lemma RevokingElsewhere(s: System, c: nat, race: Race)
    requires Inv(s) && IsOpen(s, race) && CanHappen(s, RevokeAllTokens(c)) && IsUndisturbed(s, RevokeAllTokens(c), race)
    ensures TablesAreOpen(After(s, RevokeAllTokens(c)).auth, race)
    ensures IsDecided(s.auth, race) ==> IsDecided(After(s, RevokeAllTokens(c)).auth, race)
  {
    hide Linked, RotatedHaveSuccessors, RevokedTogether, OneRoot, RevokeTokens, AfterRevoking;
    var sessionId := s.clients[c].sessionId;
    assert c in race.racers ==> IsRacing(s.auth, s.clients[c], race);
    RevokingKeepsOrder(s.auth, sessionId);
    SessionsUntouched(s.auth, sessionId);
  }

  lemma SessionsUntouched(auth: Auth, sessionId: Id)
    ensures RevokeTokens(auth, sessionId).sessions == auth.sessions
  {
  }

  lemma IssuingElsewhere(s: System, sessionId: Id, seed: nat, expiresAt: Time, race: Race)
    requires Inv(s) && IsOpen(s, race) && CanHappen(s, IssueRoot(sessionId, seed, expiresAt))
    ensures TablesAreOpen(After(s, IssueRoot(sessionId, seed, expiresAt)).auth, race)
    ensures IsDecided(s.auth, race) ==> IsDecided(After(s, IssueRoot(sessionId, seed, expiresAt)).auth, race)
  {
    hide Linked, RotatedHaveSuccessors, RevokedTogether, OneRoot, IsBrief;
    RootAppears(s.auth, sessionId, seed, expiresAt);
  }

  /** A racer's own read leads it on, never to revoking. */
  lemma ReadingLeadsOn(s: System, e: Event, c: nat, race: Race)
    requires Inv(s) && IsOpen(s, race) && CanHappen(s, e) && IsUndisturbed(s, e, race)
    requires c in race.racers && ClientOf(e) == Some(c) && (e.LoadToken? || e.LoadSession? || e.Hop?)
    ensures IsRacing(s.auth, After(s, e).clients[c], race)
  {
    hide Inv;
    var p := s.clients[c];
    assert IsRacing(s.auth, p, race);
  }

  lemma RacersStayRacing(s: System, e: Event, race: Race, c: nat)
    requires Inv(s) && IsOpen(s, race) && CanHappen(s, e) && IsUndisturbed(s, e, race)
    requires c in race.racers && c in After(s, e).clients
    ensures IsRacing(After(s, e).auth, After(s, e).clients[c], race)
  {
    hide Inv, IsDecided, Rotate, AfterSession, AfterHop, AfterRevoking, IsBrief, TablesAreOpen, IsFreshlyRotated, IsLasting;
    if e.CompareAndSet? && e.c in race.racers {
      RotationDecides(s, e.c, e.at, race);
    } else {
      OthersLeaveTables(s, e, race);
    }
    if ClientOf(e) != Some(c) {
      assert s.clients[c] == After(s, e).clients[c];
      assert IsRacing(s.auth, s.clients[c], race);
    } else if e.LoadToken? || e.LoadSession? || e.Hop? {
      ReadingLeadsOn(s, e, c, race);
    } else if !e.Arrive? {
      assert IsRacing(s.auth, s.clients[c], race);
    }
  }

  lemma EventKeepsRaceOpen(s: System, e: Event, race: Race)
    requires Inv(s) && IsOpen(s, race) && CanHappen(s, e) && IsUndisturbed(s, e, race)
    ensures IsOpen(After(s, e), race)
  {
    hide Inv, IsDecided, IsUndecided, Rotate, AfterSession, AfterHop, AfterRevoking, IsBrief, IsRacing;
    if e.CompareAndSet? && e.c in race.racers {
      RotationDecides(s, e.c, e.at, race);
    } else {
      OthersLeaveTables(s, e, race);
    }
    forall c | c in race.racers && c in After(s, e).clients
      ensures IsRacing(After(s, e).auth, After(s, e).clients[c], race)
    {
      RacersStayRacing(s, e, race, c);
    }
  }

  ghost predicate IsRaceTrace(states: seq<System>, events: seq<Event>, race: Race) {
    IsTrace(states, events) && forall i :: 0 <= i < |events| ==> IsUndisturbed(states[i], events[i], race)
  }

  /**
   Every racer that has finished was answered the one successor; none revokes the family, and
   none is on its way to.
   */
  lemma {:induction false} RacersShareTheSuccessor(states: seq<System>, events: seq<Event>, race: Race)
    requires IsRaceTrace(states, events, race) && Inv(states[0])
    requires IsOpen(states[0], race)
    ensures IsOpen(states[|events|], race)
    ensures forall c :: c in race.racers && c in states[|events|].clients ==>
              && !states[|events|].clients[c].Revoking?
              && (states[|events|].clients[c].Done? ==> states[|events|].clients[c].token == Some(Successor(race.raw)))
    decreases |events|
  {
    hide Inv, CanHappen, After, IsUndisturbed, TablesAreOpen, IsBrief;
    if events != [] {
      var n := |events| - 1;
      RacersShareTheSuccessor(states[..n + 1], events[..n], race);
      ReachableStatesAreInOrder(states[..n + 1], events[..n]);
      EventKeepsRaceOpen(states[n], events[n], race);
    }
  }

  /** A race is open as soon as its token is active in a session that outlasts it and no racer has begun. */
  lemma RaceOpens(s: System, race: Race)
    requires IsBrief(race) && race.from == s.now < race.deadline
    requires IsUndecided(s.auth, race)
    requires race.sessionId in s.auth.sessions && IsLastingSession(s.auth.sessions[race.sessionId], race)
    requires race.racers !! s.clients.Keys
    ensures IsOpen(s, race)
  {
  }
}
