/** Sessions and their refresh tokens: what is stored, and each write to it. */
module RefreshTokens {
  import opened Results
  import opened Collections

  /** Milliseconds. */
  type Time = nat

  const REFRESH_TOKEN_REUSE_GRACE_SECONDS := 60
  const MAX_REFRESH_TOKEN_SUCCESSOR_HOPS := 3

  /** A generated secret, or the one derived from another; hashing and deriving are injective. */
  datatype RawToken = Root(seed: nat) | Successor(of: RawToken)

  datatype TokenHash = HashOf(raw: RawToken)

  datatype TokenStatus = ACTIVE | ROTATED | REVOKED

  datatype TokenRow = TokenRow(sessionId: Id, status: TokenStatus, expiresAt: Time, rotatedAt: Option<Time>) {
    predicate IsExpired(now: Time) { expiresAt <= now }

    predicate IsValid(now: Time) { status == ACTIVE && !IsExpired(now) }

    predicate IsWithinReuseGrace(now: Time) {
      status == ROTATED && rotatedAt.Some? && now - rotatedAt.value < REFRESH_TOKEN_REUSE_GRACE_SECONDS * 1000
    }
  }

  datatype SessionRow = SessionRow(userId: Id, expiresAt: Time, lastUsedAt: Time, revokedAt: Option<Time>) {
    predicate IsValid(now: Time) { revokedAt.None? && expiresAt > now }
  }

  /** The two tables; a token is found by its hash, which is unique. */
  datatype Auth = Auth(tokens: map<TokenHash, TokenRow>, sessions: map<Id, SessionRow>)

  predicate IsStored(auth: Auth, raw: RawToken) {
    HashOf(raw) in auth.tokens
  }

  function RowOf(auth: Auth, raw: RawToken): TokenRow
    requires IsStored(auth, raw)
  {
    auth.tokens[HashOf(raw)]
  }

  function Find(auth: Auth, raw: RawToken): Option<TokenRow> {
    if IsStored(auth, raw) then Some(RowOf(auth, raw)) else None
  }

  predicate IsActive(auth: Auth, raw: RawToken) {
    IsStored(auth, raw) && RowOf(auth, raw).status == ACTIVE
  }

  // Writes, as functions.

  datatype Rotation = Won(auth: Auth) | Lost | Conflict

  /** Compare and set on the presented token, then the insert of its successor, or neither. */
  function Rotate(auth: Auth, raw: RawToken, at: Time, sessionId: Id, expiresAt: Time): Rotation {
    if !IsActive(auth, raw) then Lost
    else if IsStored(auth, Successor(raw)) then Conflict
    else
      var rotated := RowOf(auth, raw).(status := ROTATED, rotatedAt := Some(at));
      Won(auth.(tokens := auth.tokens[HashOf(raw) := rotated][HashOf(Successor(raw)) := TokenRow(sessionId, ACTIVE, expiresAt, None)]))
  }

  function RevokedRow(row: TokenRow, sessionId: Id): TokenRow {
    if row.sessionId == sessionId then row.(status := REVOKED) else row
  }

  function RevokeTokens(auth: Auth, sessionId: Id): Auth {
    auth.(tokens := map hash | hash in auth.tokens :: RevokedRow(auth.tokens[hash], sessionId))
  }

  function RevokeSession(auth: Auth, sessionId: Id, at: Time): Auth {
    if sessionId in auth.sessions && auth.sessions[sessionId].revokedAt.None?
    then auth.(sessions := auth.sessions[sessionId := auth.sessions[sessionId].(revokedAt := Some(at))])
    else auth
  }

  function RenewSession(auth: Auth, sessionId: Id, expiresAt: Time, at: Time): Auth {
    if sessionId in auth.sessions && auth.sessions[sessionId].revokedAt.None?
    then auth.(sessions := auth.sessions[sessionId := auth.sessions[sessionId].(expiresAt := expiresAt, lastUsedAt := at)])
    else auth
  }

  // Walking the successors.

  /** What the walk makes of the candidate at a hop. */
  datatype HopResult = Head | Broken | Further

  function HopOn(auth: Auth, candidate: RawToken, sessionId: Id): HopResult {
    if !IsStored(auth, candidate) || RowOf(auth, candidate).sessionId != sessionId then Broken
    else match RowOf(auth, candidate).status
      case ACTIVE => Head
      case ROTATED => Further
      case REVOKED => Broken
  }

  /** `findHead` with nothing else happening, for a number of hops still allowed. */
  function HeadWithin(auth: Auth, raw: RawToken, sessionId: Id, hops: nat): Option<RawToken>
    decreases hops
  {
    if hops == 0 then None
    else
      match HopOn(auth, Successor(raw), sessionId)
      case Head => Some(Successor(raw))
      case Broken => None
      case Further => HeadWithin(auth, Successor(raw), sessionId, hops - 1)
  }

  /** Refreshing a token with no one else around: what is stored after, and the token answered. */
  datatype Refreshed = Refreshed(auth: Auth, token: Option<RawToken>)

  function RevokeFamily(auth: Auth, sessionId: Id, now: Time): Refreshed {
    Refreshed(RevokeSession(RevokeTokens(auth, sessionId), sessionId, now), None)
  }

  function RecoverAlone(auth: Auth, row: TokenRow, raw: RawToken, now: Time): Refreshed
    requires row.sessionId in auth.sessions
  {
    if row.status == REVOKED || !row.IsWithinReuseGrace(now) || !auth.sessions[row.sessionId].IsValid(now)
    then RevokeFamily(auth, row.sessionId, now)
    else
      match HeadWithin(auth, raw, row.sessionId, MAX_REFRESH_TOKEN_SUCCESSOR_HOPS)
      case None => RevokeFamily(auth, row.sessionId, now)
      case Some(head) => Refreshed(auth, if IsStored(auth, head) && RowOf(auth, head).IsValid(now) then Some(head) else None)
  }

  function RefreshAlone(auth: Auth, raw: RawToken, now: Time, lifetime: Time): Refreshed {
    if !IsStored(auth, raw) || RowOf(auth, raw).sessionId !in auth.sessions then Refreshed(auth, None)
    else
      var row := RowOf(auth, raw);
      if row.status != ACTIVE then RecoverAlone(auth, row, raw, now)
      else if !row.IsValid(now) || !auth.sessions[row.sessionId].IsValid(now) then Refreshed(auth, None)
      else
        match Rotate(auth, raw, now, row.sessionId, now + lifetime)
        case Won(after) => Refreshed(RenewSession(after, row.sessionId, now + lifetime, now), Some(Successor(raw)))
        case _ => Refreshed(auth, None)
  }

  // The repositories and the service over them.

  class AuthStore {
    var tokens: map<TokenHash, TokenRow>
    var sessions: map<Id, SessionRow>

    function State(): Auth
      reads this
    {
      Auth(tokens, sessions)
    }

    method RotateToken(raw: RawToken, at: Time, sessionId: Id, expiresAt: Time) returns (r: Rotation)
      modifies this
      ensures r == Rotate(old(State()), raw, at, sessionId, expiresAt)
      ensures State() == if r.Won? then r.auth else old(State())
      ensures r.Won? <==> HashOf(raw) in old(tokens) && old(tokens)[HashOf(raw)].status == ACTIVE && HashOf(Successor(raw)) !in old(tokens)
      ensures r.Won? ==>
                && tokens.Keys == old(tokens.Keys) + {HashOf(Successor(raw))}
                && tokens[HashOf(raw)] == old(tokens)[HashOf(raw)].(status := ROTATED, rotatedAt := Some(at))
                && tokens[HashOf(Successor(raw))] == TokenRow(sessionId, ACTIVE, expiresAt, None)
                && forall hash :: hash in old(tokens) && hash != HashOf(raw) ==> tokens[hash] == old(tokens)[hash]
      ensures sessions == old(sessions) && (!r.Won? ==> tokens == old(tokens))
    {
      var hash := HashOf(raw);
      if hash !in tokens || tokens[hash].status != ACTIVE {
        return Lost;
      }
      if HashOf(Successor(raw)) in tokens {
        return Conflict;
      }
      tokens := tokens[hash := tokens[hash].(status := ROTATED, rotatedAt := Some(at))];
      tokens := tokens[HashOf(Successor(raw)) := TokenRow(sessionId, ACTIVE, expiresAt, None)];
      r := Won(State());
    }

    method RevokeBySessionId(sessionId: Id)
      modifies this
      ensures State() == RevokeTokens(old(State()), sessionId)
      ensures tokens.Keys == old(tokens.Keys) && sessions == old(sessions)
      ensures forall hash :: hash in tokens && old(tokens)[hash].sessionId == sessionId ==>
                tokens[hash] == old(tokens)[hash].(status := REVOKED)
      ensures forall hash :: hash in tokens && old(tokens)[hash].sessionId != sessionId ==> tokens[hash] == old(tokens)[hash]
    {
      tokens := map hash | hash in tokens :: RevokedRow(tokens[hash], sessionId);
    }

    method Revoke(sessionId: Id, at: Time)
      modifies this
      ensures State() == RevokeSession(old(State()), sessionId, at)
      ensures tokens == old(tokens) && sessions.Keys == old(sessions.Keys)
      ensures forall id :: id in sessions ==>
                sessions[id] == if id == sessionId && old(sessions)[id].revokedAt.None?
                                then old(sessions)[id].(revokedAt := Some(at)) else old(sessions)[id]
      ensures sessionId in sessions ==> sessions[sessionId].revokedAt.Some?
    {
      if sessionId in sessions && sessions[sessionId].revokedAt.None? {
        sessions := sessions[sessionId := sessions[sessionId].(revokedAt := Some(at))];
      }
    }

    method Renew(sessionId: Id, expiresAt: Time, at: Time)
      modifies this
      ensures State() == RenewSession(old(State()), sessionId, expiresAt, at)
      ensures tokens == old(tokens) && sessions.Keys == old(sessions.Keys)
      ensures forall id :: id in sessions ==>
                && sessions[id].revokedAt == old(sessions)[id].revokedAt && sessions[id].userId == old(sessions)[id].userId
                && (id == sessionId && sessions[id].revokedAt.None? ==> sessions[id].expiresAt == expiresAt && sessions[id].lastUsedAt == at)
                && (id != sessionId || sessions[id].revokedAt.Some? ==> sessions[id] == old(sessions)[id])
    {
      if sessionId in sessions && sessions[sessionId].revokedAt.None? {
        sessions := sessions[sessionId := sessions[sessionId].(expiresAt := expiresAt, lastUsedAt := at)];
      }
    }

    method FindHead(sessionId: Id, presentedRawToken: RawToken) returns (head: Option<RawToken>)
      ensures head == HeadWithin(State(), presentedRawToken, sessionId, MAX_REFRESH_TOKEN_SUCCESSOR_HOPS)
    {
      var rawToken := presentedRawToken;
      for hop := 0 to MAX_REFRESH_TOKEN_SUCCESSOR_HOPS
        invariant HeadWithin(State(), presentedRawToken, sessionId, MAX_REFRESH_TOKEN_SUCCESSOR_HOPS)
               == HeadWithin(State(), rawToken, sessionId, MAX_REFRESH_TOKEN_SUCCESSOR_HOPS - hop)
      {
        rawToken := Successor(rawToken);
        var candidate := Find(State(), rawToken);
        if candidate.None? || candidate.value.sessionId != sessionId {
          return None;
        }
        if candidate.value.status == ACTIVE {
          return Some(rawToken);
        }
        if candidate.value.status != ROTATED {
          return None;
        }
      }
      return None;
    }

    method RevokeWholeFamily(sessionId: Id, now: Time)
      modifies this
      ensures State() == RevokeFamily(old(State()), sessionId, now).auth
    {
      RevokeBySessionId(sessionId);
      Revoke(sessionId, now);
    }

    method RecoverReusedToken(row: TokenRow, raw: RawToken, now: Time) returns (token: Option<RawToken>)
      requires row.sessionId in sessions
      modifies this
      ensures Refreshed(State(), token) == RecoverAlone(old(State()), row, raw, now)
    {
      if row.status == REVOKED || !row.IsWithinReuseGrace(now) || !sessions[row.sessionId].IsValid(now) {
        RevokeWholeFamily(row.sessionId, now);
        return None;
      }
      var head := FindHead(row.sessionId, raw);
      if head.None? {
        RevokeWholeFamily(row.sessionId, now);
        return None;
      }
      var stored := Find(State(), head.value);
      if stored.None? || !stored.value.IsValid(now) {
        return None;
      }
      return head;
    }

    method Execute(raw: RawToken, now: Time, lifetime: Time) returns (token: Option<RawToken>)
      modifies this
      ensures Refreshed(State(), token) == RefreshAlone(old(State()), raw, now, lifetime)
    {
      var stored := Find(State(), raw);
      if stored.None? || stored.value.sessionId !in sessions {
        return None;
      }
      if stored.value.status != ACTIVE {
        token := RecoverReusedToken(stored.value, raw, now);
        return;
      }
      var session := sessions[stored.value.sessionId];
      if !stored.value.IsValid(now) || !session.IsValid(now) {
        return None;
      }
      var rotation := RotateToken(raw, now, stored.value.sessionId, now + lifetime);
      if !rotation.Won? {
        return None;
      }
      Renew(stored.value.sessionId, now + lifetime, now);
      return Some(Successor(raw));
    }
  }
}
