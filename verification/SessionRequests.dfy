// What a session request leaves (src/auth/auth.service.ts): when it succeeds, and every row of the
// session and link tables afterwards.
module SessionRequests {
  import opened Seqs
  import opened Tenants
  import opened Sessions

  // The session is neither revoked nor past its end.
  predicate IsAlive(s: Session, now: int) {
    s.revokedAt.None? && s.expiresAt > now
  }

  // A tenant whose users may sign in.
  predicate IsOpen(db: Db, tenant: string) {
    tenant in db.tenants && (db.tenants[tenant] == TenantStatus.ACTIVE || db.tenants[tenant] == TenantStatus.TRIAL)
  }

  // The end of a session that starts or is rotated now: by the tenant's policy, else in a week.
  function EndOf(db: Db, tenant: string, now: int): int {
    now + 60_000 * if tenant in db.policies then db.policies[tenant].sessionTtlMinutes else 7 * 24 * 60
  }

  lemma ExpiryIsEnd(db: Db, tenant: string, now: int)
    ensures RefreshExpiresAt(db, tenant, now) == EndOf(db, tenant, now)
  {
  }

  // The cap is the policy's number of sessions, when it is set and not zero; a cap of one, or
  // below, leaves no other session.
  lemma CapMeans(db: Db, tenant: string, n: int)
    ensures Cap(db, tenant) == Some(n) <==>
              tenant in db.policies && db.policies[tenant].maxSessions == Some(n) && n != 0
    ensures KeptOthers(n) == Max(n - 1, 0)
  {
  }

  // A row revoked now, or as it was.
  predicate IsRevoked(before: Session, after: Session, now: int) {
    && after.id == before.id && after.tenantId == before.tenantId && after.userId == before.userId
    && after.createdAt == before.createdAt && after.expiresAt == before.expiresAt && after.revokedAt == Some(now)
  }

  // ---------- Refresh ----------

  // Finding the row of an id among distinct ones.
  lemma RowIsFound(sessions: seq<Session>, i: nat)
    requires DistinctIds(sessions) && i < |sessions|
    ensures FindFirst(sessions, HasId(sessions[i].id)) == Some(sessions[i])
    ensures forall j :: 0 <= j < |sessions| && j != i ==> sessions[j].id != sessions[i].id
  {
    OnlySessionWithId(sessions, sessions[i].id);
    assert HasId(sessions[i].id)(sessions[i]);
    forall j | 0 <= j < |sessions| && j != i
      ensures sessions[j].id != sessions[i].id
    {
      assert Map(sessions, SessionId())[j] != Map(sessions, SessionId())[i];
    }
  }

  // A refresh succeeds exactly with a signed token that is the stored one, for a session that is
  // alive in a tenant that is open.
  lemma RefreshSucceedsIff(db: Db, i: nat, signed: bool, matches: bool, now: int)
    requires DistinctIds(db.sessions) && i < |db.sessions|
    ensures Refresh(db, db.sessions[i].id, signed, matches, now).1.Ok? <==>
              signed && matches && IsAlive(db.sessions[i], now) && IsOpen(db, db.sessions[i].tenantId)
  {
    RowIsFound(db.sessions, i);
  }

  // A signed token of a session that is alive, refused for its tenant or because it is not the
  // stored one, revokes exactly this session; every other refusal changes nothing.
  lemma RefusedRefreshLeaves(db: Db, i: nat, signed: bool, matches: bool, now: int, j: nat)
    requires DistinctIds(db.sessions) && i < |db.sessions| && j < |db.sessions|
    requires Refresh(db, db.sessions[i].id, signed, matches, now).1.Err?
    ensures var (after, outcome) := Refresh(db, db.sessions[i].id, signed, matches, now);
            if signed && IsAlive(db.sessions[i], now) then
              && outcome == Err(if IsOpen(db, db.sessions[i].tenantId) then TokenRevoked else TenantInactive)
              && after == db.(sessions := after.sessions) && |after.sessions| == |db.sessions|
              && IsRevoked(db.sessions[i], after.sessions[i], now)
              && (j != i ==> after.sessions[j] == db.sessions[j])
            else after == db && outcome == Err(if signed then SessionInactive else InvalidToken)
  {
    RowIsFound(db.sessions, i);
  }

  lemma RefreshOfNobody(db: Db, id: string, signed: bool, matches: bool, now: int)
    requires forall s :: s in db.sessions ==> s.id != id
    ensures Refresh(db, id, signed, matches, now) == (db, Err(if signed then SessionInactive else InvalidToken))
  {
  }

  // What the rotation of a session does to row j: its own end moves, another of the user's is as
  // it was or revoked now, anybody else's is as it was.
  predicate Rotates(before: Session, after: Session, own: bool, mine: bool, end: int, now: int) {
    if own then after == before.(expiresAt := end)
    else if mine then after == before || (IsAlive(before, now) && IsRevoked(before, after, now))
    else after == before
  }

  lemma RotateLeaves(db: Db, i: nat, now: int, j: nat, current: string, user: string, tenant: string)
    requires DistinctIds(db.sessions) && i < |db.sessions| && j < |db.sessions|
    requires db.sessions[i].id == current && db.sessions[i].userId == user && db.sessions[i].tenantId == tenant
    ensures var after := RotateSessionTokens(db, current, user, tenant, now);
            && after == db.(sessions := after.sessions) && |after.sessions| == |db.sessions|
            && Rotates(db.sessions[j], after.sessions[j], j == i, Sessions.Owned(db.sessions[j], tenant, user),
                       EndOf(db, tenant, now), now)
  {
    var expiresAt := RefreshExpiresAt(db, tenant, now);
    var extended := db.(sessions := Map(db.sessions, Extended(current, expiresAt)));
    ExpiryIsEnd(db, tenant, now);
    RowIsFound(db.sessions, i);
    assert Map(extended.sessions, SessionId()) == Map(db.sessions, SessionId());
    var overflow := Overflow(extended, tenant, user, current, now);
    EnforceRevokesOverflow(extended, tenant, user, current, now, j);
    OverflowIsOthers(extended.sessions, tenant, user, current, now, overflow, j);
  }

  // An accepted refresh moves the end of its session; what else it does to the user's sessions is
  // in RefreshIsExact, and nobody else's row is touched.
  lemma AcceptedRefreshLeaves(db: Db, i: nat, now: int, j: nat)
    requires DistinctIds(db.sessions) && i < |db.sessions| && j < |db.sessions|
    requires IsAlive(db.sessions[i], now) && IsOpen(db, db.sessions[i].tenantId)
    ensures var s := db.sessions[i];
            var after := Refresh(db, s.id, true, true, now).0;
            && after == db.(sessions := after.sessions) && |after.sessions| == |db.sessions|
            && Rotates(db.sessions[j], after.sessions[j], j == i, Sessions.Owned(db.sessions[j], s.tenantId, s.userId),
                       EndOf(db, s.tenantId, now), now)
  {
    RowIsFound(db.sessions, i);
    RotateLeaves(db, i, now, j, db.sessions[i].id, db.sessions[i].userId, db.sessions[i].tenantId);
  }

  // ---------- Sign-in ----------

  // A sign-in adds one session of the user, unrevoked and with the end the policy gives it, and
  // touches nobody else's.
  lemma SignInLeaves(db: Db, sessionId: string, user: string, tenant: string, now: int, j: nat)
    requires DistinctIds(db.sessions) && FindFirst(db.sessions, HasId(sessionId)).None? && j < |db.sessions|
    ensures var after := After(db, SignIn(sessionId, user, tenant), now);
            && after == db.(sessions := after.sessions) && |after.sessions| == |db.sessions| + 1
            && after.sessions[|db.sessions|] == Session(sessionId, tenant, user, now, EndOf(db, tenant, now), None)
            && Rotates(db.sessions[j], after.sessions[j], false, Sessions.Owned(db.sessions[j], tenant, user), 0, now)
  {
    var created := Session(sessionId, tenant, user, now, RefreshExpiresAt(db, tenant, now), None);
    var added := db.(sessions := db.sessions + [created]);
    AddedIsDistinct(db, created);
    ExpiryIsEnd(db, tenant, now);
    assert added.sessions[|db.sessions|] == created && added.sessions[j] == db.sessions[j];
    RotateLeaves(added, |db.sessions|, now, j, sessionId, user, tenant);
    RotateLeaves(added, |db.sessions|, now, |db.sessions|, sessionId, user, tenant);
  }

  // ---------- Signing out ----------

  // Signing out revokes the user's session, unless it already was.
  lemma LogoutLeaves(db: Db, sessionId: string, user: string, now: int, j: nat)
    requires j < |db.sessions|
    ensures var after, s := Logout(db, sessionId, user, now), db.sessions[j];
            && after == db.(sessions := after.sessions) && |after.sessions| == |db.sessions|
            && if s.id == sessionId && s.userId == user && s.revokedAt.None? then IsRevoked(s, after.sessions[j], now)
               else after.sessions[j] == s
  {
  }

  lemma LogoutByTokenLeaves(db: Db, i: nat, signed: bool, matches: bool, now: int, j: nat)
    requires DistinctIds(db.sessions) && i < |db.sessions| && j < |db.sessions|
    ensures var after, s := LogoutByRefreshToken(db, db.sessions[i].id, signed, matches, now), db.sessions[j];
            && after == db.(sessions := after.sessions) && |after.sessions| == |db.sessions|
            && if j == i && signed && matches && s.revokedAt.None? then IsRevoked(s, after.sessions[j], now)
               else after.sessions[j] == s
  {
    RowIsFound(db.sessions, i);
  }

  // ---------- Links and passwords ----------

  predicate IsUsers(t: ResetToken, tenant: string, user: string) {
    t.tenantId == tenant && t.userId == user
  }

  // A link that is used up now if it is the user's and was not before.
  predicate IsUsedUp(before: ResetToken, after: ResetToken, tenant: string, user: string, now: int) {
    if IsUsers(before, tenant, user) && before.usedAt.None? then after == before.(usedAt := Some(now))
    else after == before
  }

  // A new link, under a hash of its own, uses up the user's earlier ones, and nothing else changes.
  lemma AskResetLeaves(db: Db, hash: string, tenant: string, user: string, expiresAt: int, now: int, k: nat)
    requires k < |db.resetTokens| && forall t :: t in db.resetTokens ==> t.hash != hash
    ensures var after := After(db, AskReset(hash, tenant, user, expiresAt), now);
            && after == db.(resetTokens := after.resetTokens) && |after.resetTokens| == |db.resetTokens| + 1
            && after.resetTokens[|db.resetTokens|] == ResetToken(hash, tenant, user, expiresAt, None)
            && IsUsedUp(db.resetTokens[k], after.resetTokens[k], tenant, user, now)
  {
    assert FindFirst(db.resetTokens, HasHash(hash)).None?;
  }

  // A session id or a hash that is taken makes the request fail without effect.
  lemma TakenKeysChangeNothing(db: Db, i: nat, k: nat, tenant: string, user: string, expiresAt: int, now: int)
    requires DistinctIds(db.sessions) && i < |db.sessions| && k < |db.resetTokens|
    ensures After(db, SignIn(db.sessions[i].id, user, tenant), now) == db
    ensures After(db, AskReset(db.resetTokens[k].hash, tenant, user, expiresAt), now) == db
  {
    RowIsFound(db.sessions, i);
    assert HasHash(db.resetTokens[k].hash)(db.resetTokens[k]);
  }

  // A link works exactly while it is unused and not past its end, for an account that is not
  // deactivated and a password the policy takes.
  lemma ResetSucceedsIff(db: Db, hash: string, deactivated: bool, strong: bool, now: int)
    ensures var token, (after, outcome) := FindFirst(db.resetTokens, HasHash(hash)),
            ResetPassword(db, hash, deactivated, strong, now);
            && (outcome.Ok? <==>
                token.Some? && token.value.usedAt.None? && token.value.expiresAt > now && !deactivated && strong)
            && (outcome.Err? ==> after == db)
    ensures var token := FindFirst(db.resetTokens, HasHash(hash));
            if token.Some? then token.value in db.resetTokens && token.value.hash == hash
            else forall t :: t in db.resetTokens ==> t.hash != hash
  {
    assert forall t :: HasHash(hash)(t) <==> t.hash == hash;
  }

  // It uses up every link of the user and revokes every session of the user that was not.
  lemma ResetLeaves(db: Db, hash: string, now: int, j: nat, k: nat)
    requires ResetPassword(db, hash, false, true, now).1.Ok? && j < |db.sessions| && k < |db.resetTokens|
    ensures var token, after, s := FindFirst(db.resetTokens, HasHash(hash)).value,
            ResetPassword(db, hash, false, true, now).0, db.sessions[j];
            && after == db.(sessions := after.sessions, resetTokens := after.resetTokens)
            && |after.sessions| == |db.sessions| && |after.resetTokens| == |db.resetTokens|
            && IsUsedUp(db.resetTokens[k], after.resetTokens[k], token.tenantId, token.userId, now)
            && if s.tenantId == token.tenantId && s.userId == token.userId && s.revokedAt.None?
               then IsRevoked(s, after.sessions[j], now) else after.sessions[j] == s
  {
  }

  // A change of password is made exactly when the account and both passwords allow it; if asked
  // to, it revokes the user's other sessions, and else none.
  lemma ChangeLeaves(db: Db, tenant: string, user: string, current: string, revokeOthers: bool, allowed: bool,
                     strong: bool, now: int, j: nat)
    requires j < |db.sessions|
    ensures var (after, outcome), s := ChangePassword(db, tenant, user, current, revokeOthers, allowed, strong, now),
            db.sessions[j];
            && (outcome.Ok? <==> allowed && strong)
            && after == db.(sessions := after.sessions) && |after.sessions| == |db.sessions|
            && if allowed && strong && revokeOthers && s.tenantId == tenant && s.userId == user && s.id != current
                  && s.revokedAt.None?
               then IsRevoked(s, after.sessions[j], now) else after.sessions[j] == s
  {
  }
}
