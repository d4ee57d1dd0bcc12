/** What holds of sessions and their tokens in every state any interleaving can reach. */
module RefreshSafety {
  import opened Results
  import opened Collections
  import opened RefreshTokens
  import opened RefreshProtocol

  function SessionOf(auth: Auth, raw: RawToken): Id
    requires IsStored(auth, raw)
  {
    RowOf(auth, raw).sessionId
  }

  predicate InSession(auth: Auth, raw: RawToken, sessionId: Id) {
    IsStored(auth, raw) && SessionOf(auth, raw) == sessionId
  }

  /** A stored successor follows a stored token of its session that is no longer active. */
  ghost predicate Linked(auth: Auth) {
    forall raw :: IsStored(auth, Successor(raw)) ==>
      IsStored(auth, raw) && SessionOf(auth, raw) == SessionOf(auth, Successor(raw)) && RowOf(auth, raw).status != ACTIVE
  }

  ghost predicate RotatedHaveSuccessors(auth: Auth) {
    forall raw :: IsStored(auth, raw) && RowOf(auth, raw).status == ROTATED ==> IsStored(auth, Successor(raw))
  }

  ghost predicate RevokedTogether(auth: Auth) {
    forall a, b :: IsStored(auth, a) && IsStored(auth, b) && SessionOf(auth, a) == SessionOf(auth, b) ==>
      (RowOf(auth, a).status == REVOKED <==> RowOf(auth, b).status == REVOKED)
  }

  ghost predicate OneRoot(auth: Auth) {
    forall a, b :: IsStored(auth, Root(a)) && IsStored(auth, Root(b)) && SessionOf(auth, Root(a)) == SessionOf(auth, Root(b)) ==> a == b
  }

  ghost predicate PendingAreEmpty(auth: Auth, pendingRoots: set<Id>) {
    && (forall raw :: IsStored(auth, raw) ==> SessionOf(auth, raw) in auth.sessions && SessionOf(auth, raw) !in pendingRoots)
    && pendingRoots <= auth.sessions.Keys
  }

  ghost predicate RotationsAreDated(auth: Auth, now: Time) {
    forall raw :: IsStored(auth, raw) && RowOf(auth, raw).status == ROTATED ==>
      RowOf(auth, raw).rotatedAt.Some? && RowOf(auth, raw).rotatedAt.value <= now
  }

  /** A client works on the session of the token it presented. */
  predicate IsOnSession(auth: Auth, p: Phase) {
    match p
    case TokenLoaded(raw, row, _) => InSession(auth, raw, row.sessionId)
    case Rotating(raw, sessionId, _, _) => InSession(auth, raw, sessionId)
    case Renewing(raw, sessionId, _) => InSession(auth, raw, sessionId)
    case Hopping(raw, sessionId, _, hops) => InSession(auth, raw, sessionId) && hops > 0
    case _ => true
  }

  ghost predicate TokensInOrder(auth: Auth) {
    Linked(auth) && RotatedHaveSuccessors(auth) && RevokedTogether(auth) && OneRoot(auth)
  }

  ghost predicate Inv(s: System) {
    && TokensInOrder(s.auth)
    && PendingAreEmpty(s.auth, s.pendingRoots)
    && RotationsAreDated(s.auth, s.now)
    && (forall c :: c in s.clients ==> IsOnSession(s.auth, s.clients[c]))
  }

  // Each write keeps the tokens in order.

  /** Under the invariant a rotation never meets a stored successor: the unique hash is never violated. */
  lemma RotationNeverConflicts(auth: Auth, raw: RawToken, at: Time, sessionId: Id, expiresAt: Time)
    requires Linked(auth)
    ensures !Rotate(auth, raw, at, sessionId, expiresAt).Conflict?
  {
  }

  lemma RotatingKeepsOrder(auth: Auth, raw: RawToken, at: Time, expiresAt: Time)
    requires TokensInOrder(auth) && IsActive(auth, raw)
    ensures var r := Rotate(auth, raw, at, SessionOf(auth, raw), expiresAt);
            r.Won? && TokensInOrder(r.auth)
  {
    var r := Rotate(auth, raw, at, SessionOf(auth, raw), expiresAt);
    assert Linked(r.auth) by {
      forall x | IsStored(r.auth, Successor(x))
        ensures IsStored(r.auth, x) && SessionOf(r.auth, x) == SessionOf(r.auth, Successor(x)) && RowOf(r.auth, x).status != ACTIVE
      {
        assert x != raw ==> IsStored(auth, Successor(x));
        assert x != Successor(raw);
      }
    }
  }

  lemma RevokingKeepsOrder(auth: Auth, sessionId: Id)
    requires TokensInOrder(auth)
    ensures TokensInOrder(RevokeTokens(auth, sessionId))
    ensures forall raw :: IsStored(auth, raw) <==> IsStored(RevokeTokens(auth, sessionId), raw)
    ensures forall raw :: IsStored(auth, raw) ==> RowOf(RevokeTokens(auth, sessionId), raw) == RevokedRow(RowOf(auth, raw), sessionId)
  {
    var next := RevokeTokens(auth, sessionId);
    assert forall raw :: IsStored(auth, raw) <==> IsStored(next, raw);
    assert forall raw :: IsStored(auth, raw) ==> RowOf(next, raw) == RevokedRow(RowOf(auth, raw), sessionId);
  }

  lemma RootAppears(auth: Auth, sessionId: Id, seed: nat, expiresAt: Time)
    ensures var next := auth.(tokens := auth.tokens[HashOf(Root(seed)) := TokenRow(sessionId, ACTIVE, expiresAt, None)]);
            && (forall raw :: IsStored(next, raw) <==> IsStored(auth, raw) || raw == Root(seed))
            && (forall raw :: IsStored(auth, raw) && raw != Root(seed) ==> RowOf(next, raw) == RowOf(auth, raw))
            && RowOf(next, Root(seed)) == TokenRow(sessionId, ACTIVE, expiresAt, None)
  {
  }

  lemma SuccessorAppears(auth: Auth, raw: RawToken, at: Time, sessionId: Id, expiresAt: Time)
    requires Rotate(auth, raw, at, sessionId, expiresAt).Won?
    ensures var next := Rotate(auth, raw, at, sessionId, expiresAt).auth;
            && (forall x :: IsStored(next, x) <==> IsStored(auth, x) || x == Successor(raw))
            && (forall x :: IsStored(auth, x) && x != raw ==> RowOf(next, x) == RowOf(auth, x))
            && RowOf(next, raw) == RowOf(auth, raw).(status := ROTATED, rotatedAt := Some(at))
            && RowOf(next, Successor(raw)) == TokenRow(sessionId, ACTIVE, expiresAt, None)
  {
    assert raw != Successor(raw);
  }

  lemma IssuingKeepsOrder(auth: Auth, sessionId: Id, seed: nat, expiresAt: Time)
    requires TokensInOrder(auth) && !IsStored(auth, Root(seed))
    requires forall raw :: IsStored(auth, raw) ==> SessionOf(auth, raw) != sessionId
    ensures TokensInOrder(auth.(tokens := auth.tokens[HashOf(Root(seed)) := TokenRow(sessionId, ACTIVE, expiresAt, None)]))
  {
    var next := auth.(tokens := auth.tokens[HashOf(Root(seed)) := TokenRow(sessionId, ACTIVE, expiresAt, None)]);
    RootAppears(auth, sessionId, seed, expiresAt);
    assert Linked(next) by {
      forall x | IsStored(next, Successor(x))
        ensures IsStored(next, x) && SessionOf(next, x) == SessionOf(next, Successor(x)) && RowOf(next, x).status != ACTIVE
      {
        assert IsStored(auth, Successor(x));
      }
    }
  }

  lemma OrderOfTokensOnly(a: Auth, b: Auth)
    requires a.tokens == b.tokens && TokensInOrder(a)
    ensures TokensInOrder(b)
  {
    assert forall raw :: IsStored(a, raw) <==> IsStored(b, raw);
    assert forall raw :: IsStored(a, raw) ==> RowOf(a, raw) == RowOf(b, raw);
  }

  // Each event keeps the invariant.

  /** Tokens stay stored in their session, and sessions stay. */
  ghost predicate Grows(a: Auth, b: Auth) {
    && (forall raw :: IsStored(a, raw) ==> IsStored(b, raw) && SessionOf(b, raw) == SessionOf(a, raw))
    && a.sessions.Keys <= b.sessions.Keys
  }

  lemma EventsGrow(s: System, e: Event)
    requires Inv(s) && CanHappen(s, e)
    ensures Grows(s.auth, After(s, e).auth)
  {
    hide AfterSession, AfterHop, AfterRevoking;
    if e.RevokeAllTokens? {
      RevokingKeepsOrder(s.auth, s.clients[e.c].sessionId);
    }
  }

  lemma ClientKeepsItsSession(s: System, e: Event, c: nat)
    requires Inv(s) && CanHappen(s, e) && c in After(s, e).clients
    ensures IsOnSession(After(s, e).auth, After(s, e).clients[c])
  {
    hide Rotate, RevokeTokens, RevokeSession, RenewSession, Linked, RotatedHaveSuccessors, RevokedTogether, OneRoot, AfterHop;
    EventsGrow(s, e);
    if ClientOf(e) != Some(c) {
      assert s.clients[c] == After(s, e).clients[c];
    } else if e.Hop? {
      HopStaysOnSession(s.auth, s.clients[c], s.now, e.userFound);
    }
  }

  lemma HopStaysOnSession(auth: Auth, p: Phase, now: Time, userFound: bool)
    requires p.Hopping? && IsOnSession(auth, p)
    ensures IsOnSession(auth, AfterHop(auth, p, now, userFound))
  {
  }

  lemma TablesKeepInv(s: System, e: Event)
    requires Inv(s) && CanHappen(s, e)
    ensures var t := After(s, e);
            TokensInOrder(t.auth) && PendingAreEmpty(t.auth, t.pendingRoots) && RotationsAreDated(t.auth, t.now)
  {
    hide TokensInOrder, AfterSession, AfterHop, AfterRevoking;
    var t := After(s, e);
    match e
    case CompareAndSet(c, at) => CompareAndSetKeepsInv(s, c, at);
    case RevokeAllTokens(c) =>
      RevokingKeepsOrder(s.auth, s.clients[c].sessionId);
    case IssueRoot(sessionId, seed, expiresAt) =>
      IssuingKeepsOrder(s.auth, sessionId, seed, expiresAt);
      RootAppears(s.auth, sessionId, seed, expiresAt);
    case _ =>
      assert t.auth.tokens == s.auth.tokens;
      OrderOfTokensOnly(s.auth, t.auth);
      assert forall raw :: IsStored(t.auth, raw) <==> IsStored(s.auth, raw);
  }

  lemma CompareAndSetKeepsInv(s: System, c: nat, at: Time)
    requires Inv(s) && CanHappen(s, CompareAndSet(c, at))
    ensures var t := After(s, CompareAndSet(c, at));
            TokensInOrder(t.auth) && PendingAreEmpty(t.auth, t.pendingRoots) && RotationsAreDated(t.auth, t.now)
  {
    hide Linked, RotatedHaveSuccessors, RevokedTogether, OneRoot;
    var p := s.clients[c];
    if IsActive(s.auth, p.raw) {
      RotatingKeepsOrder(s.auth, p.raw, at, p.expiresAt);
      SuccessorAppears(s.auth, p.raw, at, p.sessionId, p.expiresAt);
    }
  }

  lemma EventKeepsInv(s: System, e: Event)
    requires Inv(s) && CanHappen(s, e)
    ensures Inv(After(s, e))
  {
    hide CanHappen, After, TokensInOrder, PendingAreEmpty, RotationsAreDated, IsOnSession;
    TablesKeepInv(s, e);
    forall c | c in After(s, e).clients
      ensures IsOnSession(After(s, e).auth, After(s, e).clients[c])
    {
      ClientKeepsItsSession(s, e, c);
    }
  }

  lemma {:induction false} ReachableStatesAreInOrder(states: seq<System>, events: seq<Event>)
    requires IsTrace(states, events) && Inv(states[0])
    ensures Inv(states[|events|])
    decreases |events|
  {
    hide Inv, CanHappen, After;
    if events != [] {
      var n := |events| - 1;
      ReachableStatesAreInOrder(states[..n + 1], events[..n]);
      EventKeepsInv(states[n], events[n]);
    }
  }

  lemma StartIsInOrder()
    ensures Inv(START)
  {
  }

  // A session's tokens are one chain.

  function Nth(raw: RawToken, n: nat): RawToken {
    if n == 0 then raw else Successor(Nth(raw, n - 1))
  }

  function RootOf(raw: RawToken): (seed: nat) {
    match raw
    case Root(seed) => seed
    case Successor(of) => RootOf(of)
  }

  function Depth(raw: RawToken): nat {
    match raw
    case Root(_) => 0
    case Successor(of) => Depth(of) + 1
  }

  lemma {:induction false} RawIsNth(raw: RawToken)
    ensures raw == Nth(Root(RootOf(raw)), Depth(raw))
  {
    if raw.Successor? { RawIsNth(raw.of); }
  }

  lemma {:induction false} DepthOfNth(raw: RawToken, n: nat)
    ensures Depth(Nth(raw, n)) == Depth(raw) + n && RootOf(Nth(raw, n)) == RootOf(raw)
  {
    if n > 0 { DepthOfNth(raw, n - 1); }
  }

  /** Every token back to the root is stored in the same session; all but the token itself are used up. */
  lemma {:induction false} PredecessorsAreStored(auth: Auth, root: RawToken, n: nat, i: nat)
    requires Linked(auth) && IsStored(auth, Nth(root, n)) && i <= n
    ensures InSession(auth, Nth(root, i), SessionOf(auth, Nth(root, n)))
    ensures i < n ==> RowOf(auth, Nth(root, i)).status != ACTIVE
    decreases n
  {
    if i < n { PredecessorsAreStored(auth, root, n - 1, i); }
  }

  /** How many tokens are stored on the chain from a raw token on. */
  ghost function Deeper(auth: Auth, raw: RawToken): set<TokenHash> {
    set hash | hash in auth.tokens && Depth(hash.raw) >= Depth(raw)
  }

  ghost function ChainLength(auth: Auth, raw: RawToken): (n: nat)
    ensures n == 0 <==> !IsStored(auth, raw)
    decreases |Deeper(auth, raw)|
  {
    if !IsStored(auth, raw) then 0
    else
      DeeperShrinks(auth, raw);
      1 + ChainLength(auth, Successor(raw))
  }

  lemma DeeperShrinks(auth: Auth, raw: RawToken)
    requires IsStored(auth, raw)
    ensures |Deeper(auth, Successor(raw))| < |Deeper(auth, raw)|
  {
    var a, b := Deeper(auth, Successor(raw)), Deeper(auth, raw);
    assert HashOf(raw) in b && HashOf(raw) !in a;
    assert b == a + (b - a);
    assert HashOf(raw) in b - a;
  }

  lemma {:induction false} ChainIsStored(auth: Auth, raw: RawToken, i: nat)
    ensures i < ChainLength(auth, raw) ==> IsStored(auth, Nth(raw, i))
    ensures i == ChainLength(auth, raw) ==> !IsStored(auth, Nth(raw, i))
    decreases i
  {
    if i > 0 && IsStored(auth, raw) {
      ChainIsStored(auth, Successor(raw), i - 1);
      NthOfSuccessor(raw, i - 1);
    }
  }

  lemma {:induction false} NthOfSuccessor(raw: RawToken, n: nat)
    ensures Nth(Successor(raw), n) == Nth(raw, n + 1)
  {
    if n > 0 { NthOfSuccessor(raw, n - 1); }
  }

  /** Exactly the first tokens of the chain from the session's root, and no others. */
  ghost predicate IsChainOf(auth: Auth, sessionId: Id, root: RawToken, n: nat) {
    && (forall raw :: InSession(auth, raw, sessionId) <==> exists i: nat :: i < n && raw == Nth(root, i))
    && n > 0
  }

  /** All rotated up to an active last token, or all revoked. */
  ghost predicate HasChainShape(auth: Auth, root: RawToken, n: nat)
    requires n > 0 && forall i: nat :: i < n ==> IsStored(auth, Nth(root, i))
  {
    || (forall i: nat :: i < n ==> RowOf(auth, Nth(root, i)).status == (if i == n - 1 then ACTIVE else ROTATED))
    || (forall i: nat :: i < n ==> RowOf(auth, Nth(root, i)).status == REVOKED)
  }

  lemma RootIsStored(auth: Auth, raw: RawToken)
    requires Linked(auth) && IsStored(auth, raw)
    ensures InSession(auth, Root(RootOf(raw)), SessionOf(auth, raw))
  {
    RawIsNth(raw);
    PredecessorsAreStored(auth, Root(RootOf(raw)), Depth(raw), 0);
  }

  lemma SessionIsOneChain(auth: Auth, raw: RawToken)
    requires TokensInOrder(auth) && IsStored(auth, raw)
    ensures var root := Root(RootOf(raw));
            IsChainOf(auth, SessionOf(auth, raw), root, ChainLength(auth, root))
  {
    hide ChainLength, Nth;
    var root, sessionId := Root(RootOf(raw)), SessionOf(auth, raw);
    var n := ChainLength(auth, root);
    RootIsStored(auth, raw);
    forall x
      ensures InSession(auth, x, sessionId) <==> exists i: nat :: i < n && x == Nth(root, i)
    {
      if InSession(auth, x, sessionId) {
        RootIsStored(auth, x);
        RawIsNth(x);
        StoredIsWithin(auth, root, Depth(x));
      }
      if exists i: nat :: i < n && x == Nth(root, i) {
        var i: nat :| i < n && x == Nth(root, i);
        ChainIsStored(auth, root, i);
        PredecessorsAreStored(auth, root, i, 0);
        NthZero(root);
      }
    }
  }

  lemma NthZero(raw: RawToken)
    ensures Nth(raw, 0) == raw
  {
  }

  lemma StoredIsWithin(auth: Auth, root: RawToken, i: nat)
    requires Linked(auth) && IsStored(auth, Nth(root, i))
    ensures i < ChainLength(auth, root)
  {
    hide ChainLength, Nth;
    var n := ChainLength(auth, root);
    ChainIsStored(auth, root, n);
    if n <= i { PredecessorsAreStored(auth, root, i, n); }
  }

  /**
   A session's tokens are one successor chain from its root. Either the last is active and all
   the earlier ones are rotated, or all of them are revoked.
   */
  lemma SessionsAreChains(s: System, raw: RawToken)
    requires Inv(s) && IsStored(s.auth, raw)
    ensures var root := Root(RootOf(raw));
            var n := ChainLength(s.auth, root);
            && IsChainOf(s.auth, SessionOf(s.auth, raw), root, n)
            && (forall i: nat :: i < n ==> IsStored(s.auth, Nth(root, i)))
            && HasChainShape(s.auth, root, n)
  {
    hide ChainLength, Nth;
    var auth, root := s.auth, Root(RootOf(raw));
    var n := ChainLength(auth, root);
    SessionIsOneChain(auth, raw);
    forall i: nat | i < n
      ensures InSession(auth, Nth(root, i), SessionOf(auth, raw))
      ensures i < n - 1 ==> RowOf(auth, Nth(root, i)).status != ACTIVE
      ensures i == n - 1 ==> RowOf(auth, Nth(root, i)).status != ROTATED
    {
      var x := Nth(root, i);
      assert x == Nth(root, i);
      assert InSession(auth, x, SessionOf(auth, raw));
      ChainIsStored(auth, root, n - 1);
      PredecessorsAreStored(auth, root, n - 1, i);
      LastHasNoSuccessor(auth, root, n);
    }
  }

  /** From empty tables on, whatever clients do and in whatever order. */
  lemma ReachableSessionsAreChains(states: seq<System>, events: seq<Event>, raw: RawToken)
    requires IsTrace(states, events) && states[0] == START && IsStored(states[|events|].auth, raw)
    ensures var s, root := states[|events|], Root(RootOf(raw));
            var n := ChainLength(s.auth, root);
            && IsChainOf(s.auth, SessionOf(s.auth, raw), root, n)
            && (forall i: nat :: i < n ==> IsStored(s.auth, Nth(root, i)))
            && HasChainShape(s.auth, root, n)
  {
    hide Inv, CanHappen, After, HasChainShape, IsChainOf;
    StartIsInOrder();
    ReachableStatesAreInOrder(states, events);
    SessionsAreChains(states[|events|], raw);
  }

  lemma LastHasNoSuccessor(auth: Auth, root: RawToken, n: nat)
    requires n > 0 && n == ChainLength(auth, root)
    ensures !IsStored(auth, Successor(Nth(root, n - 1)))
  {
    hide ChainLength;
    ChainIsStored(auth, root, n);
  }

  // Revocation is final.

  ghost predicate IsRevokedFamily(auth: Auth, sessionId: Id) {
    && (exists raw :: InSession(auth, raw, sessionId))
    && (forall raw :: InSession(auth, raw, sessionId) ==> RowOf(auth, raw).status == REVOKED)
  }

  /** A family whose tokens are revoked never gains an active token again, whatever happens next. */
  lemma RevokedFamiliesStayRevoked(s: System, e: Event, sessionId: Id)
    requires Inv(s) && CanHappen(s, e) && IsRevokedFamily(s.auth, sessionId)
    ensures IsRevokedFamily(After(s, e).auth, sessionId)
  {
    hide AfterSession, AfterHop, AfterRevoking, Linked, RotatedHaveSuccessors, RevokedTogether, OneRoot;
    var next := After(s, e).auth;
    EventsGrow(s, e);
    var some :| InSession(s.auth, some, sessionId);
    assert InSession(next, some, sessionId);
    forall raw | InSession(next, raw, sessionId)
      ensures RowOf(next, raw).status == REVOKED
    {
      if e.RevokeAllTokens? {
        RevokingKeepsOrder(s.auth, s.clients[e.c].sessionId);
      }
    }
  }

  lemma {:induction false} RevokedFamiliesNeverComeBack(states: seq<System>, events: seq<Event>, sessionId: Id)
    requires IsTrace(states, events) && Inv(states[0]) && IsRevokedFamily(states[0].auth, sessionId)
    ensures IsRevokedFamily(states[|events|].auth, sessionId)
    decreases |events|
  {
    hide Inv, CanHappen, After, IsRevokedFamily;
    if events != [] {
      var n := |events| - 1;
      RevokedFamiliesNeverComeBack(states[..n + 1], events[..n], sessionId);
      ReachableStatesAreInOrder(states[..n + 1], events[..n]);
      RevokedFamiliesStayRevoked(states[n], events[n], sessionId);
    }
  }

  /** A revoked session is never valid again. */
  lemma RevokedSessionsStayRevoked(s: System, e: Event, sessionId: Id)
    requires CanHappen(s, e)
    requires sessionId in s.auth.sessions && s.auth.sessions[sessionId].revokedAt.Some?
    ensures sessionId in After(s, e).auth.sessions
    ensures After(s, e).auth.sessions[sessionId].revokedAt == s.auth.sessions[sessionId].revokedAt
  {
    hide AfterSession, AfterHop, AfterRevoking;
  }

  // After logout.

  predicate IsRevokedSession(auth: Auth, sessionId: Id) {
    sessionId in auth.sessions && auth.sessions[sessionId].revokedAt.Some?
  }

  /** A client that has not read its session yet, though it is already revoked, or that has given up. */
  predicate IsTooLate(auth: Auth, p: Phase) {
    match p
    case Presented(raw, _) => IsStored(auth, raw) && IsRevokedSession(auth, SessionOf(auth, raw))
    case TokenLoaded(_, row, _) => IsRevokedSession(auth, row.sessionId)
    case Revoking(_, _, _) => true
    case Done(token) => token.None?
    case _ => false
  }

  /** Whoever reads a session after it was revoked is never answered a token: logout is final. */
  lemma TooLateStaysTooLate(s: System, e: Event, c: nat)
    requires Inv(s) && CanHappen(s, e) && c in s.clients && IsTooLate(s.auth, s.clients[c])
    ensures c in After(s, e).clients && IsTooLate(After(s, e).auth, After(s, e).clients[c])
  {
    hide Linked, RotatedHaveSuccessors, RevokedTogether, OneRoot, AfterHop, Inv;
    var p := s.clients[c];
    if p.Presented? && IsStored(s.auth, p.raw) {
      RevokedSessionsStayRevoked(s, e, SessionOf(s.auth, p.raw));
      EventsGrow(s, e);
    } else if p.TokenLoaded? {
      RevokedSessionsStayRevoked(s, e, p.row.sessionId);
    }
  }

  lemma {:induction false} LogoutIsFinal(states: seq<System>, events: seq<Event>, c: nat)
    requires IsTrace(states, events) && Inv(states[0])
    requires c in states[0].clients && IsTooLate(states[0].auth, states[0].clients[c])
    ensures c in states[|events|].clients && IsTooLate(states[|events|].auth, states[|events|].clients[c])
    ensures states[|events|].clients[c].Done? ==> states[|events|].clients[c].token.None?
    decreases |events|
  {
    hide Inv, CanHappen, After;
    if events != [] {
      var n := |events| - 1;
      LogoutIsFinal(states[..n + 1], events[..n], c);
      ReachableStatesAreInOrder(states[..n + 1], events[..n]);
      TooLateStaysTooLate(states[n], events[n], c);
    }
  }

  // The walk to the head.

  lemma NthOne(raw: RawToken)
    ensures Nth(raw, 0) == raw && Nth(raw, 1) == Successor(raw)
  {
    assert Nth(raw, 1) == Successor(Nth(raw, 0));
  }

  ghost predicate IsHeadAt(auth: Auth, raw: RawToken, head: RawToken, d: nat) {
    d >= 1 && head == Nth(raw, d) && IsActive(auth, head)
  }

  lemma {:induction false} WalkFindsOnlyHeads(auth: Auth, raw: RawToken, sessionId: Id, hops: nat)
    ensures var head := HeadWithin(auth, raw, sessionId, hops);
            head.Some? ==> InSession(auth, head.value, sessionId) && exists d: nat :: d <= hops && IsHeadAt(auth, raw, head.value, d)
    decreases hops
  {
    hide Nth;
    if hops > 0 {
      var next := Successor(raw);
      NthOne(raw);
      match HopOn(auth, next, sessionId)
      case Head => assert IsHeadAt(auth, raw, next, 1);
      case Broken =>
      case Further =>
        WalkFindsOnlyHeads(auth, next, sessionId, hops - 1);
        var head := HeadWithin(auth, next, sessionId, hops - 1);
        if head.Some? {
          var d: nat :| d <= hops - 1 && IsHeadAt(auth, next, head.value, d);
          NthOfSuccessor(raw, d);
          assert IsHeadAt(auth, raw, head.value, d + 1);
        }
    }
  }

  lemma {:induction false} WalkFindsTheHead(auth: Auth, raw: RawToken, head: RawToken, d: nat, hops: nat)
    requires TokensInOrder(auth) && IsHeadAt(auth, raw, head, d) && d <= hops
    ensures HeadWithin(auth, raw, SessionOf(auth, head), hops) == Some(head)
    decreases hops
  {
    hide Nth, RotatedHaveSuccessors, OneRoot;
    var next, sessionId := Successor(raw), SessionOf(auth, head);
    NthOne(raw);
    PredecessorsAreStored(auth, raw, d, 1);
    if d > 1 {
      assert RowOf(auth, next).status != REVOKED;
      NthOfSuccessor(raw, d - 1);
      WalkFindsTheHead(auth, next, head, d - 1, hops - 1);
    }
  }

  /** A session never has two active tokens. */
  lemma ActiveIsUnique(s: System, a: RawToken, b: RawToken)
    requires Inv(s) && IsActive(s.auth, a) && IsActive(s.auth, b) && SessionOf(s.auth, a) == SessionOf(s.auth, b)
    ensures a == b
  {
    hide ChainLength, Nth, Inv, TokensInOrder;
    SessionsAreChains(s, a);
    var root := Root(RootOf(a));
    var n := ChainLength(s.auth, root);
    assert InSession(s.auth, a, SessionOf(s.auth, a)) && InSession(s.auth, b, SessionOf(s.auth, a));
    var i: nat :| i < n && a == Nth(root, i);
    var j: nat :| j < n && b == Nth(root, j);
  }

  /**
   Walking without interference answers exactly the session's active token when it is one to
   three successors away, and nothing otherwise.
   */
  lemma FindHeadIsExact(s: System, raw: RawToken, head: RawToken)
    requires Inv(s) && IsStored(s.auth, raw)
    ensures HeadWithin(s.auth, raw, SessionOf(s.auth, raw), MAX_REFRESH_TOKEN_SUCCESSOR_HOPS) == Some(head)
            <==> exists d: nat :: d <= MAX_REFRESH_TOKEN_SUCCESSOR_HOPS && IsHeadAt(s.auth, raw, head, d)
  {
    hide Nth, HeadWithin, RotatedHaveSuccessors, RevokedTogether, OneRoot, Linked;
    WalkFindsOnlyHeads(s.auth, raw, SessionOf(s.auth, raw), MAX_REFRESH_TOKEN_SUCCESSOR_HOPS);
    if exists d: nat :: d <= MAX_REFRESH_TOKEN_SUCCESSOR_HOPS && IsHeadAt(s.auth, raw, head, d) {
      var d: nat :| d <= MAX_REFRESH_TOKEN_SUCCESSOR_HOPS && IsHeadAt(s.auth, raw, head, d);
      PredecessorsAreStored(s.auth, raw, d, 0);
      NthOne(raw);
      WalkFindsTheHead(s.auth, raw, head, d, MAX_REFRESH_TOKEN_SUCCESSOR_HOPS);
    }
  }
}
