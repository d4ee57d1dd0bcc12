/**
 Any number of clients refreshing, logging in and logging out at the same time. Each read and
 each write of the tables is one step, and the steps of different clients interleave freely.
 */
module RefreshProtocol {
  import opened Results
  import opened Collections
  import opened RefreshTokens

  /** Where a refresh stands: what it has read so far, and what it is about to do. */
  datatype Phase =
    | Presented(raw: RawToken, reloading: bool)
    | TokenLoaded(raw: RawToken, row: TokenRow, reloading: bool)
    | Rotating(raw: RawToken, sessionId: Id, expiresAt: Time, loadedAt: Time)
    | Renewing(raw: RawToken, sessionId: Id, expiresAt: Time)
    | Hopping(raw: RawToken, sessionId: Id, session: SessionRow, hops: nat)
    | Revoking(sessionId: Id, tokensLeft: bool, sessionLeft: bool)
    | Done(token: Option<RawToken>)

  datatype System = System(auth: Auth, now: Time, clients: map<nat, Phase>, pendingRoots: set<Id>)

  datatype Event =
    | IssueSession(sessionId: Id, session: SessionRow)
    | IssueRoot(sessionId: Id, seed: nat, expiresAt: Time)
    | Arrive(c: nat, raw: RawToken)
    | LoadToken(c: nat)
    | LoadSession(c: nat, userFound: bool, lifetime: Time)
    | CompareAndSet(c: nat, at: Time)
    | Renew(c: nat)
    | Hop(c: nat, userFound: bool)
    | RevokeAllTokens(c: nat)
    | RevokeOwnSession(c: nat)
    | Logout(sessionId: Id)
    | Tick(to: Time)

  function ClientOf(e: Event): Option<nat> {
    match e
    case Arrive(c, _) => Some(c)
    case LoadToken(c) => Some(c)
    case LoadSession(c, _, _) => Some(c)
    case CompareAndSet(c, _) => Some(c)
    case Renew(c) => Some(c)
    case Hop(c, _) => Some(c)
    case RevokeAllTokens(c) => Some(c)
    case RevokeOwnSession(c) => Some(c)
    case _ => None
  }

  predicate CanHappen(s: System, e: Event) {
    match e
    case IssueSession(sessionId, session) => sessionId !in s.auth.sessions && session.revokedAt.None?
    case IssueRoot(sessionId, seed, _) => sessionId in s.pendingRoots && !IsStored(s.auth, Root(seed))
    case Arrive(c, _) => c !in s.clients
    case LoadToken(c) => c in s.clients && s.clients[c].Presented?
    case LoadSession(c, _, _) => c in s.clients && s.clients[c].TokenLoaded?
    case CompareAndSet(c, at) => c in s.clients && s.clients[c].Rotating? && s.clients[c].loadedAt <= at <= s.now
    case Renew(c) => c in s.clients && s.clients[c].Renewing?
    case Hop(c, _) => c in s.clients && s.clients[c].Hopping?
    case RevokeAllTokens(c) => c in s.clients && s.clients[c].Revoking? && s.clients[c].tokensLeft
    case RevokeOwnSession(c) => c in s.clients && s.clients[c].Revoking? && s.clients[c].sessionLeft
    case Logout(_) => true
    case Tick(to) => s.now <= to
  }

  function RevokingAll(sessionId: Id): Phase {
    Revoking(sessionId, true, true)
  }

  /** After either of its two writes, revoking ends when both are done. */
  function AfterRevoking(sessionId: Id, tokensLeft: bool, sessionLeft: bool): Phase {
    if tokensLeft || sessionLeft then Revoking(sessionId, tokensLeft, sessionLeft) else Done(None)
  }

  /** A token that is no longer active: within grace of a rotation in a valid session, walk; else revoke. */
  function Recovering(raw: RawToken, row: TokenRow, session: SessionRow, now: Time): Phase {
    if row.status == REVOKED || !row.IsWithinReuseGrace(now) || !session.IsValid(now) then RevokingAll(row.sessionId)
    else Hopping(raw, row.sessionId, session, MAX_REFRESH_TOKEN_SUCCESSOR_HOPS)
  }

  function AfterSession(auth: Auth, p: Phase, now: Time, userFound: bool, lifetime: Time): Phase
    requires p.TokenLoaded?
  {
    if p.row.sessionId !in auth.sessions then Done(None)
    else
      var session := auth.sessions[p.row.sessionId];
      if p.row.status != ACTIVE || p.reloading then Recovering(p.raw, p.row, session, now)
      else if !p.row.IsValid(now) || !session.IsValid(now) || !userFound then Done(None)
      else Rotating(p.raw, p.row.sessionId, now + lifetime, now)
  }

  function AfterHop(auth: Auth, p: Phase, now: Time, userFound: bool): Phase
    requires p.Hopping?
  {
    var candidate := Successor(p.raw);
    if p.hops == 0 then RevokingAll(p.sessionId)
    else
      match HopOn(auth, candidate, p.sessionId)
      case Broken => RevokingAll(p.sessionId)
      case Head =>
        if IsStored(auth, candidate) && RowOf(auth, candidate).IsValid(now) && p.session.IsValid(now) && userFound
        then Done(Some(candidate)) else Done(None)
      case Further => if p.hops == 1 then RevokingAll(p.sessionId) else Hopping(candidate, p.sessionId, p.session, p.hops - 1)
  }

  function After(s: System, e: Event): System
    requires CanHappen(s, e)
  {
    match e
    case IssueSession(sessionId, session) =>
      s.(auth := s.auth.(sessions := s.auth.sessions[sessionId := session]), pendingRoots := s.pendingRoots + {sessionId})
    case IssueRoot(sessionId, seed, expiresAt) =>
      s.(auth := s.auth.(tokens := s.auth.tokens[HashOf(Root(seed)) := TokenRow(sessionId, ACTIVE, expiresAt, None)]),
         pendingRoots := s.pendingRoots - {sessionId})
    case Arrive(c, raw) => s.(clients := s.clients[c := Presented(raw, false)])
    case LoadToken(c) =>
      var p := s.clients[c];
      var next := if IsStored(s.auth, p.raw) then TokenLoaded(p.raw, RowOf(s.auth, p.raw), p.reloading) else Done(None);
      s.(clients := s.clients[c := next])
    case LoadSession(c, userFound, lifetime) =>
      s.(clients := s.clients[c := AfterSession(s.auth, s.clients[c], s.now, userFound, lifetime)])
    case CompareAndSet(c, at) =>
      var p := s.clients[c];
      (match Rotate(s.auth, p.raw, at, p.sessionId, p.expiresAt)
       case Won(auth) => s.(auth := auth, clients := s.clients[c := Renewing(p.raw, p.sessionId, p.expiresAt)])
       case Lost => s.(clients := s.clients[c := Presented(p.raw, true)])
       case Conflict => s.(clients := s.clients[c := Done(None)]))
    case Renew(c) =>
      var p := s.clients[c];
      s.(auth := RenewSession(s.auth, p.sessionId, p.expiresAt, s.now), clients := s.clients[c := Done(Some(Successor(p.raw)))])
    case Hop(c, userFound) => s.(clients := s.clients[c := AfterHop(s.auth, s.clients[c], s.now, userFound)])
    case RevokeAllTokens(c) =>
      var p := s.clients[c];
      s.(auth := RevokeTokens(s.auth, p.sessionId), clients := s.clients[c := AfterRevoking(p.sessionId, false, p.sessionLeft)])
    case RevokeOwnSession(c) =>
      var p := s.clients[c];
      s.(auth := RevokeSession(s.auth, p.sessionId, s.now), clients := s.clients[c := AfterRevoking(p.sessionId, p.tokensLeft, false)])
    case Logout(sessionId) => s.(auth := RevokeSession(s.auth, sessionId, s.now))
    case Tick(to) => s.(now := to)
  }

  const START := System(Auth(map[], map[]), 0, map[], {})

  ghost predicate IsTrace(states: seq<System>, events: seq<Event>) {
    && |states| == |events| + 1
    && forall i :: 0 <= i < |events| ==> CanHappen(states[i], events[i]) && states[i + 1] == After(states[i], events[i])
  }
}
