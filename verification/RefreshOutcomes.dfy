/** What a refresh may be answered, said without the steps, and that detected reuse is carried through. */
module RefreshOutcomes {
  import opened Results
  import opened Collections
  import opened RefreshTokens
  import opened RefreshProtocol
  import opened RefreshSafety

  /** A session neither revoked nor run out. */
  predicate IsOpenSession(auth: Auth, sessionId: Id, now: Time) {
    sessionId in auth.sessions && auth.sessions[sessionId].revokedAt.None? && now < auth.sessions[sessionId].expiresAt
  }

  /** Rotated less than a minute ago, in a valid session, at most three successors behind its active token. */
  ghost predicate IsReusedInTime(auth: Auth, raw: RawToken, now: Time) {
    && IsStored(auth, raw) && RowOf(auth, raw).status == ROTATED
    && RowOf(auth, raw).rotatedAt.Some? && now < RowOf(auth, raw).rotatedAt.value + 60000
    && IsOpenSession(auth, SessionOf(auth, raw), now)
    && exists head, d: nat :: d <= 3 && IsHeadAt(auth, raw, head, d)
  }

  ghost predicate IsRevokedThroughout(auth: Auth, sessionId: Id) {
    IsRevokedFamily(auth, sessionId) && IsRevokedSession(auth, sessionId)
  }

  /** An active token is answered its successor exactly when neither it nor its session has run out. */
  lemma ActiveTokensAreRotated(s: System, raw: RawToken, lifetime: Time)
    requires Inv(s) && IsActive(s.auth, raw)
    ensures var r := RefreshAlone(s.auth, raw, s.now, lifetime);
            var row := RowOf(s.auth, raw);
            && SessionOf(s.auth, raw) in s.auth.sessions
            && (if row.expiresAt > s.now && IsOpenSession(s.auth, row.sessionId, s.now)
                then && r.token == Some(Successor(raw)) && IsActive(r.auth, Successor(raw))
                     && IsStored(r.auth, raw) && RowOf(r.auth, raw).status == ROTATED
                     && RowOf(r.auth, raw).rotatedAt == Some(s.now)
                     && RowOf(r.auth, Successor(raw)) == TokenRow(row.sessionId, ACTIVE, s.now + lifetime, None)
                     && r.auth.sessions == s.auth.sessions[row.sessionId :=
                          s.auth.sessions[row.sessionId].(expiresAt := s.now + lifetime, lastUsedAt := s.now)]
                else r == Refreshed(s.auth, None))
  {
    hide RotatedHaveSuccessors, RevokedTogether, OneRoot, RotationsAreDated;
    var row := RowOf(s.auth, raw);
    RotationNeverConflicts(s.auth, raw, s.now, row.sessionId, s.now + lifetime);
    if row.expiresAt > s.now && IsOpenSession(s.auth, row.sessionId, s.now) {
      SuccessorAppears(s.auth, raw, s.now, row.sessionId, s.now + lifetime);
    }
  }

  /** Revoking a family leaves none of its tokens usable and its session revoked. */
  lemma RevokingIsThorough(auth: Auth, raw: RawToken, now: Time)
    requires TokensInOrder(auth) && IsStored(auth, raw) && SessionOf(auth, raw) in auth.sessions
    ensures IsRevokedThroughout(RevokeFamily(auth, SessionOf(auth, raw), now).auth, SessionOf(auth, raw))
    ensures RevokeFamily(auth, SessionOf(auth, raw), now).token.None?
  {
    hide Linked, RotatedHaveSuccessors, RevokedTogether, OneRoot, RevokeTokens;
    var sessionId := SessionOf(auth, raw);
    var middle := RevokeTokens(auth, sessionId);
    RevokingKeepsOrder(auth, sessionId);
    SameSessions(auth, sessionId);
    var last := RevokeSession(middle, sessionId, now);
    forall x
      ensures IsStored(last, x) <==> IsStored(middle, x)
      ensures IsStored(middle, x) ==> RowOf(last, x) == RowOf(middle, x)
    {
      SessionWritesKeepRows(middle, sessionId, now, x);
    }
    assert InSession(last, raw, sessionId);
  }

  lemma SameSessions(auth: Auth, sessionId: Id)
    ensures RevokeTokens(auth, sessionId).sessions == auth.sessions
  {
  }

  lemma SessionWritesKeepRows(auth: Auth, sessionId: Id, at: Time, raw: RawToken)
    ensures IsStored(RevokeSession(auth, sessionId, at), raw) <==> IsStored(auth, raw)
    ensures IsStored(auth, raw) ==> RowOf(RevokeSession(auth, sessionId, at), raw) == RowOf(auth, raw)
  {
  }

  /**
   A token that is no longer active is answered the session's active token exactly when it is
   reused in time and that token has not expired; otherwise reuse in time changes nothing, and
   any other reuse revokes the whole family and its session.
   */
  lemma UsedTokensAreRecoveredOrRevoked(s: System, raw: RawToken, lifetime: Time)
    requires Inv(s) && IsStored(s.auth, raw) && !IsActive(s.auth, raw)
    ensures var r := RefreshAlone(s.auth, raw, s.now, lifetime);
            if IsReusedInTime(s.auth, raw, s.now)
            then r.auth == s.auth
                 && forall head :: r.token == Some(head) <==>
                      IsActive(s.auth, head) && SessionOf(s.auth, head) == SessionOf(s.auth, raw) && RowOf(s.auth, head).expiresAt > s.now
            else r.token.None? && IsRevokedThroughout(r.auth, SessionOf(s.auth, raw))
  {
    hide Linked, RotatedHaveSuccessors, RevokedTogether, OneRoot, RevokeFamily, HeadWithin, IsRevokedThroughout, Nth;
    var auth, row := s.auth, RowOf(s.auth, raw);
    RevokingIsThorough(auth, raw, s.now);
    var walk := HeadWithin(auth, raw, row.sessionId, MAX_REFRESH_TOKEN_SUCCESSOR_HOPS);
    WalkIsReuse(s, raw);
    if walk.Some? {
      FindHeadIsExact(s, raw, walk.value);
      WalkFindsOnlyHeads(auth, raw, row.sessionId, MAX_REFRESH_TOKEN_SUCCESSOR_HOPS);
      forall head | IsActive(auth, head) && SessionOf(auth, head) == row.sessionId
        ensures head == walk.value
      {
        ActiveIsUnique(s, head, walk.value);
      }
    }
  }

  lemma WalkIsReuse(s: System, raw: RawToken)
    requires Inv(s) && IsStored(s.auth, raw)
    ensures HeadWithin(s.auth, raw, SessionOf(s.auth, raw), MAX_REFRESH_TOKEN_SUCCESSOR_HOPS).Some?
            <==> exists head, d: nat :: d <= 3 && IsHeadAt(s.auth, raw, head, d)
  {
    hide Inv, HeadWithin, Nth, IsHeadAt;
    var walk := HeadWithin(s.auth, raw, SessionOf(s.auth, raw), MAX_REFRESH_TOKEN_SUCCESSOR_HOPS);
    if walk.Some? {
      FindHeadIsExact(s, raw, walk.value);
    }
    if exists head, d: nat :: d <= 3 && IsHeadAt(s.auth, raw, head, d) {
      var head, d: nat :| d <= 3 && IsHeadAt(s.auth, raw, head, d);
      FindHeadIsExact(s, raw, head);
    }
  }

  // Detected reuse, under interleaving.

  /** What a revoking client has done so far is done; finished, it has done both. */
  ghost predicate HasRevoked(auth: Auth, p: Phase, sessionId: Id) {
    match p
    case Revoking(id, tokensLeft, sessionLeft) =>
      && id == sessionId
      && (tokensLeft || IsRevokedFamily(auth, sessionId))
      && (sessionLeft || IsRevokedSession(auth, sessionId))
    case Done(token) => token.None? && IsRevokedThroughout(auth, sessionId)
    case _ => false
  }

  lemma RevokingGoesOn(s: System, e: Event, c: nat, sessionId: Id)
    requires Inv(s) && CanHappen(s, e) && c in s.clients && HasRevoked(s.auth, s.clients[c], sessionId)
    requires sessionId in s.auth.sessions && exists raw :: InSession(s.auth, raw, sessionId)
    ensures c in After(s, e).clients && HasRevoked(After(s, e).auth, After(s, e).clients[c], sessionId)
    ensures sessionId in After(s, e).auth.sessions && exists raw :: InSession(After(s, e).auth, raw, sessionId)
  {
    hide Linked, RotatedHaveSuccessors, RevokedTogether, OneRoot, AfterSession, AfterHop, RevokeTokens, Rotate, IsRevokedFamily;
    var next := After(s, e).auth;
    EventsGrow(s, e);
    var raw :| InSession(s.auth, raw, sessionId);
    assert InSession(next, raw, sessionId);
    if IsRevokedFamily(s.auth, sessionId) {
      RevokedFamiliesStayRevoked(s, e, sessionId);
    }
    if IsRevokedSession(s.auth, sessionId) {
      RevokedSessionsStayRevoked(s, e, sessionId);
    }
    if e.RevokeAllTokens? && e.c == c {
      TokensAreRevoked(s.auth, sessionId);
    }
  }

  lemma TokensAreRevoked(auth: Auth, sessionId: Id)
    requires TokensInOrder(auth) && exists raw :: InSession(auth, raw, sessionId)
    ensures IsRevokedFamily(RevokeTokens(auth, sessionId), sessionId)
  {
    hide Linked, RotatedHaveSuccessors, RevokedTogether, OneRoot, RevokeTokens;
    RevokingKeepsOrder(auth, sessionId);
    var raw :| InSession(auth, raw, sessionId);
    assert InSession(RevokeTokens(auth, sessionId), raw, sessionId);
  }

  /**
   Once a client has detected reuse and starts to revoke, then whenever it has finished, whatever
   the others did meanwhile, no token of the family is usable and the session is revoked.
   */
  lemma {:induction false} DetectedReuseIsCarriedThrough(states: seq<System>, events: seq<Event>, c: nat, sessionId: Id)
    requires IsTrace(states, events) && Inv(states[0])
    requires c in states[0].clients && states[0].clients[c] == RevokingAll(sessionId)
    requires sessionId in states[0].auth.sessions && exists raw :: InSession(states[0].auth, raw, sessionId)
    ensures var last := states[|events|];
            && c in last.clients && HasRevoked(last.auth, last.clients[c], sessionId)
            && (last.clients[c].Done? ==> IsRevokedThroughout(last.auth, sessionId))
            && sessionId in last.auth.sessions && exists raw :: InSession(last.auth, raw, sessionId)
    decreases |events|
  {
    hide Inv, CanHappen, After, IsRevokedThroughout, InSession;
    if events != [] {
      var n := |events| - 1;
      DetectedReuseIsCarriedThrough(states[..n + 1], events[..n], c, sessionId);
      ReachableStatesAreInOrder(states[..n + 1], events[..n]);
      RevokingGoesOn(states[n], events[n], c, sessionId);
    }
  }

  // A bulk update that works on the rows its statement saw when it began.

  function RevokedIfListed(row: TokenRow, isListed: bool): TokenRow {
    if isListed then row.(status := REVOKED) else row
  }

  /** Revokes the tokens seen at the start of the statement, and no token inserted since. */
  function RevokeListed(auth: Auth, listed: set<TokenHash>): Auth {
    auth.(tokens := map hash | hash in auth.tokens :: RevokedIfListed(auth.tokens[hash], hash in listed))
  }

  function TokensOf(auth: Auth, sessionId: Id): set<TokenHash> {
    set hash | hash in auth.tokens && auth.tokens[hash].sessionId == sessionId
  }

  lemma ListedRows(auth: Auth, listed: set<TokenHash>, raw: RawToken)
    ensures IsStored(RevokeListed(auth, listed), raw) <==> IsStored(auth, raw)
    ensures IsStored(auth, raw) ==> RowOf(RevokeListed(auth, listed), raw) == RevokedIfListed(RowOf(auth, raw), HashOf(raw) in listed)
  {
  }

  /** Such an update leaves the family revoked exactly when it saw every token that was not revoked before. */
  lemma SeenTokensAreRevoked(auth: Auth, listed: set<TokenHash>, sessionId: Id)
    requires exists raw :: InSession(auth, raw, sessionId)
    ensures IsRevokedFamily(RevokeListed(auth, listed), sessionId)
            <==> forall raw :: InSession(auth, raw, sessionId) && RowOf(auth, raw).status != REVOKED ==> HashOf(raw) in listed
  {
    hide RevokeListed;
    var next := RevokeListed(auth, listed);
    forall raw
      ensures InSession(next, raw, sessionId) <==> InSession(auth, raw, sessionId)
      ensures InSession(auth, raw, sessionId) ==>
                (RowOf(next, raw).status == REVOKED <==> RowOf(auth, raw).status == REVOKED || HashOf(raw) in listed)
    {
      ListedRows(auth, listed, raw);
    }
    var some :| InSession(auth, some, sessionId);
    assert InSession(next, some, sessionId);
  }

  /** A rotation that commits between the start and the writes of such an update leaves its successor active. */
  lemma ARotationMeanwhileEscapes(auth: Auth, raw: RawToken, at: Time, expiresAt: Time)
    requires TokensInOrder(auth) && IsActive(auth, raw)
    ensures var sessionId := SessionOf(auth, raw);
            var rotated := Rotate(auth, raw, at, sessionId, expiresAt);
            && rotated.Won?
            && IsActive(RevokeListed(rotated.auth, TokensOf(auth, sessionId)), Successor(raw))
            && RowOf(RevokeListed(rotated.auth, TokensOf(auth, sessionId)), raw).status == REVOKED
  {
    hide RevokeListed, RotatedHaveSuccessors, RevokedTogether, OneRoot;
    var sessionId := SessionOf(auth, raw);
    RotationNeverConflicts(auth, raw, at, sessionId, expiresAt);
    var rotated := Rotate(auth, raw, at, sessionId, expiresAt).auth;
    SuccessorAppears(auth, raw, at, sessionId, expiresAt);
    ListedRows(rotated, TokensOf(auth, sessionId), raw);
    ListedRows(rotated, TokensOf(auth, sessionId), Successor(raw));
  }

  /** The session, revoked beside it, still refuses whatever escaped. */
  lemma EscapedTokensAreRefused(auth: Auth, raw: RawToken, now: Time, lifetime: Time)
    requires IsStored(auth, raw) && IsRevokedSession(auth, SessionOf(auth, raw))
    ensures RefreshAlone(auth, raw, now, lifetime).token.None?
  {
    hide RevokeFamily, HeadWithin, Rotate;
    RevokingAnswersNothing(auth, SessionOf(auth, raw), now);
  }

  lemma RevokingAnswersNothing(auth: Auth, sessionId: Id, now: Time)
    ensures RevokeFamily(auth, sessionId, now).token.None?
  {
  }
}
