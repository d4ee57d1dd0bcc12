/** One client whose steps nobody interrupts does exactly what the service does in one call. */
module RefreshService {
  import opened Results
  import opened Collections
  import opened RefreshTokens
  import opened RefreshProtocol
  import opened RefreshSafety

  /** What a client does next on its own. */
  function NextEvent(p: Phase, c: nat, now: Time, lifetime: Time): Event {
    match p
    case Presented(_, _) => LoadToken(c)
    case TokenLoaded(_, _, _) => LoadSession(c, true, lifetime)
    case Rotating(_, _, _, _) => CompareAndSet(c, now)
    case Renewing(_, _, _) => Renew(c)
    case Hopping(_, _, _, _) => Hop(c, true)
    case Revoking(_, tokensLeft, _) => if tokensLeft then RevokeAllTokens(c) else RevokeOwnSession(c)
    case Done(_) => Tick(now)
  }

  predicate CanGoOn(s: System, c: nat, lifetime: Time) {
    c in s.clients && !s.clients[c].Done? && CanHappen(s, NextEvent(s.clients[c], c, s.now, lifetime))
  }

  function OneStep(s: System, c: nat, lifetime: Time): System
    requires CanGoOn(s, c, lifetime)
  {
    After(s, NextEvent(s.clients[c], c, s.now, lifetime))
  }

  function RunAlone(s: System, c: nat, lifetime: Time, steps: nat): System
    decreases steps
  {
    if steps == 0 || !CanGoOn(s, c, lifetime) then s else RunAlone(OneStep(s, c, lifetime), c, lifetime, steps - 1)
  }

  predicate EndsAs(s: System, c: nat, result: Refreshed) {
    c in s.clients && s.auth == result.auth && s.clients[c] == Done(result.token)
  }

  lemma DoneStays(s: System, c: nat, lifetime: Time, steps: nat)
    requires c in s.clients && s.clients[c].Done?
    ensures RunAlone(s, c, lifetime, steps) == s
  {
  }

  lemma RevokingAlone(s: System, c: nat, sessionId: Id, lifetime: Time, steps: nat)
    requires c in s.clients && s.clients[c] == RevokingAll(sessionId) && steps >= 2
    ensures EndsAs(RunAlone(s, c, lifetime, steps), c, RevokeFamily(s.auth, sessionId, s.now))
  {
    hide RevokeTokens, RevokeSession;
    var one := OneStep(s, c, lifetime);
    var two := OneStep(one, c, lifetime);
    assert RunAlone(s, c, lifetime, steps) == RunAlone(one, c, lifetime, steps - 1) == RunAlone(two, c, lifetime, steps - 2);
    DoneStays(two, c, lifetime, steps - 2);
  }

  /** What the walk ends in, from any hop. */
  function WalkResult(auth: Auth, raw: RawToken, sessionId: Id, hops: nat, now: Time): Refreshed {
    match HeadWithin(auth, raw, sessionId, hops)
    case None => RevokeFamily(auth, sessionId, now)
    case Some(head) => Refreshed(auth, if IsStored(auth, head) && RowOf(auth, head).IsValid(now) then Some(head) else None)
  }

  lemma {:induction false} HoppingAlone(s: System, c: nat, lifetime: Time, steps: nat)
    requires c in s.clients && s.clients[c].Hopping? && s.clients[c].hops > 0 && steps >= s.clients[c].hops + 2
    requires s.clients[c].session.IsValid(s.now)
    ensures var p := s.clients[c];
            EndsAs(RunAlone(s, c, lifetime, steps), c, WalkResult(s.auth, p.raw, p.sessionId, p.hops, s.now))
    decreases steps
  {
    hide RevokeFamily, HopOn;
    var p := s.clients[c];
    var next := OneStep(s, c, lifetime);
    assert RunAlone(s, c, lifetime, steps) == RunAlone(next, c, lifetime, steps - 1);
    if next.clients[c].Done? {
      DoneStays(next, c, lifetime, steps - 1);
      HeadIsFound(s.auth, p, s.now);
    } else if next.clients[c].Revoking? {
      RevokingAlone(next, c, p.sessionId, lifetime, steps - 1);
      NoHeadIsFound(s.auth, p, s.now);
    } else {
      HoppingAlone(next, c, lifetime, steps - 1);
    }
  }

  lemma HeadIsFound(auth: Auth, p: Phase, now: Time)
    requires p.Hopping? && p.hops > 0 && p.session.IsValid(now) && AfterHop(auth, p, now, true).Done?
    ensures HeadWithin(auth, p.raw, p.sessionId, p.hops) == Some(Successor(p.raw))
  {
  }

  lemma NoHeadIsFound(auth: Auth, p: Phase, now: Time)
    requires p.Hopping? && p.hops > 0 && AfterHop(auth, p, now, true).Revoking?
    ensures HeadWithin(auth, p.raw, p.sessionId, p.hops) == None
  {
  }

  lemma RotatingAlone(s: System, c: nat, lifetime: Time, steps: nat)
    requires Linked(s.auth) && c in s.clients && s.clients[c].Rotating? && s.clients[c].loadedAt <= s.now
    requires IsActive(s.auth, s.clients[c].raw) && steps >= 2
    ensures var p := s.clients[c];
            var r := Rotate(s.auth, p.raw, s.now, p.sessionId, p.expiresAt);
            && r.Won?
            && EndsAs(RunAlone(s, c, lifetime, steps), c,
                      Refreshed(RenewSession(r.auth, p.sessionId, p.expiresAt, s.now), Some(Successor(p.raw))))
  {
    hide RenewSession;
    var p := s.clients[c];
    RotationNeverConflicts(s.auth, p.raw, s.now, p.sessionId, p.expiresAt);
    var one := OneStep(s, c, lifetime);
    var two := OneStep(one, c, lifetime);
    assert RunAlone(s, c, lifetime, steps) == RunAlone(one, c, lifetime, steps - 1) == RunAlone(two, c, lifetime, steps - 2);
    DoneStays(two, c, lifetime, steps - 2);
  }

  lemma SessionLoadedAlone(s: System, c: nat, lifetime: Time)
    requires Inv(s) && c in s.clients && s.clients[c].TokenLoaded? && !s.clients[c].reloading
    requires IsStored(s.auth, s.clients[c].raw) && s.clients[c].row == RowOf(s.auth, s.clients[c].raw)
    ensures EndsAs(RunAlone(s, c, lifetime, 6), c, RefreshAlone(s.auth, s.clients[c].raw, s.now, lifetime))
  {
    hide Rotate, RevokeFamily, HeadWithin, RenewSession, Inv;
    assert Linked(s.auth) by { LinkedInOrder(s); }
    var p := s.clients[c];
    var next := OneStep(s, c, lifetime);
    assert RunAlone(s, c, lifetime, 6) == RunAlone(next, c, lifetime, 5);
    match next.clients[c]
    case Done(_) => DoneStays(next, c, lifetime, 5);
    case Revoking(_, _, _) => RevokingAlone(next, c, p.row.sessionId, lifetime, 5);
    case Hopping(_, _, _, _) => HoppingAlone(next, c, lifetime, 5);
    case Rotating(_, _, _, _) => RotatingAlone(next, c, lifetime, 5);
  }

  lemma LinkedInOrder(s: System)
    requires Inv(s)
    ensures Linked(s.auth)
  {
  }

  /**
   The interleaved steps and the service are one protocol: taken without interruption, a client's
   steps store what the service stores and answer what it answers.
   */
  lemma UninterruptedStepsAreTheService(s: System, c: nat, raw: RawToken, lifetime: Time)
    requires Inv(s) && c in s.clients && s.clients[c] == Presented(raw, false)
    ensures EndsAs(RunAlone(s, c, lifetime, 7), c, RefreshAlone(s.auth, raw, s.now, lifetime))
  {
    hide RefreshAlone, Inv;
    var next := OneStep(s, c, lifetime);
    assert RunAlone(s, c, lifetime, 7) == RunAlone(next, c, lifetime, 6);
    if IsStored(s.auth, raw) {
      LoadingKeepsInv(s, c);
      SessionLoadedAlone(next, c, lifetime);
    } else {
      DoneStays(next, c, lifetime, 6);
      UnknownTokensFail(s.auth, raw, s.now, lifetime);
    }
  }

  lemma LoadingKeepsInv(s: System, c: nat)
    requires Inv(s) && c in s.clients && s.clients[c].Presented?
    ensures Inv(After(s, LoadToken(c)))
  {
    EventKeepsInv(s, LoadToken(c));
  }

  lemma UnknownTokensFail(auth: Auth, raw: RawToken, now: Time, lifetime: Time)
    requires !IsStored(auth, raw)
    ensures RefreshAlone(auth, raw, now, lifetime) == Refreshed(auth, None)
  {
  }
}
