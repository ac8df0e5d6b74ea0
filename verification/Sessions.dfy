// Sign-in sessions (src/auth/auth.service.ts) as functions on the session and reset-token
// tables: creation, rotation, the session cap and revocation.
module Sessions {
  import opened Seqs
  import opened Tenants
  import opened Sorting

  datatype Session = Session(
    id: string, tenantId: string, userId: string, createdAt: int, expiresAt: int, revokedAt: Option<int>)

  datatype ResetToken = ResetToken(hash: string, tenantId: string, userId: string, expiresAt: int, usedAt: Option<int>)

  // A tenant's security policy; maxSessions may be null.
  datatype Policy = Policy(maxSessions: Option<int>, sessionTtlMinutes: int)

  datatype Db = Db(
    sessions: seq<Session>, resetTokens: seq<ResetToken>,
    policies: map<string, Policy>, tenants: map<string, TenantStatus>)

  datatype Error = InvalidToken | SessionInactive | TenantInactive | TokenRevoked | LinkInvalid | WeakPassword | Refused

  const MS_PER_MINUTE: int := 60_000
  const DEFAULT_TTL_MINUTES: int := 10_080

  // ---------- Rows ----------

  predicate Active(s: Session, now: int) {
    s.revokedAt.None? && s.expiresAt > now
  }

  predicate Owned(s: Session, tenant: string, user: string) {
    s.tenantId == tenant && s.userId == user
  }

  function HasId(id: string): Session -> bool {
    (s: Session) => s.id == id
  }

  function SessionId(): Session -> string {
    (s: Session) => s.id
  }

  function CreatedAt(): Session -> int {
    (s: Session) => s.createdAt
  }

  function RevokedWhen(p: Session -> bool, now: int): Session -> Session {
    (s: Session) => if p(s) then s.(revokedAt := Some(now)) else s
  }

  // updateMany({ where: p, data: { revokedAt: now } })
  function Revoke(sessions: seq<Session>, p: Session -> bool, now: int): seq<Session> {
    Map(sessions, RevokedWhen(p, now))
  }

  function Extended(id: string, expiresAt: int): Session -> Session {
    (s: Session) => if s.id == id then s.(expiresAt := expiresAt) else s
  }

  function RefreshExpiresAt(db: Db, tenant: string, now: int): int {
    now + (if tenant in db.policies then db.policies[tenant].sessionTtlMinutes else DEFAULT_TTL_MINUTES) * MS_PER_MINUTE
  }

  // ---------- The cap ----------

  function OtherActive(tenant: string, user: string, current: string, now: int): Session -> bool {
    (s: Session) => Owned(s, tenant, user) && Active(s, now) && s.id != current
  }

  // The user's other active sessions, newest first.
  function Others(sessions: seq<Session>, tenant: string, user: string, current: string, now: int): seq<Session> {
    SortNewest(Filter(sessions, OtherActive(tenant, user, current, now)), CreatedAt())
  }

  function AmongIds(rows: seq<Session>): Session -> bool {
    (s: Session) => s.id in Map(rows, SessionId())
  }

  // The positive cap of a tenant, if it has one; 0 and null mean none, as the source tests it
  // by truthiness.
  function Cap(db: Db, tenant: string): Option<int> {
    if tenant in db.policies && db.policies[tenant].maxSessions.Some? && db.policies[tenant].maxSessions.value != 0
    then db.policies[tenant].maxSessions else None
  }

  function KeptOthers(cap: int): nat {
    if cap >= 1 then cap - 1 else 0
  }

  // enforceMaxSessions: all other active sessions after the first cap - 1 are revoked.
  function EnforceMaxSessions(db: Db, tenant: string, user: string, current: string, now: int): Db {
    if Cap(db, tenant).None? then db
    else
      var others := Others(db.sessions, tenant, user, current, now);
      var skip := KeptOthers(Cap(db, tenant).value);
      var overflow := if skip <= |others| then others[skip..] else [];
      if overflow == [] then db else db.(sessions := Revoke(db.sessions, AmongIds(overflow), now))
  }

  // rotateSessionTokens: a new token and expiry for the session, then the cap.
  function RotateSessionTokens(db: Db, sessionId: string, user: string, tenant: string, now: int): Db {
    EnforceMaxSessions(
      db.(sessions := Map(db.sessions, Extended(sessionId, RefreshExpiresAt(db, tenant, now)))), tenant, user,
      sessionId, now)
  }

  // createAuthResponse, under a fresh session id.
  function CreateAuthResponse(db: Db, sessionId: string, user: string, tenant: string, now: int): Db {
    var created := Session(sessionId, tenant, user, now, RefreshExpiresAt(db, tenant, now), None);
    RotateSessionTokens(db.(sessions := db.sessions + [created]), sessionId, user, tenant, now)
  }

  predicate LoginAllowed(db: Db, tenant: string) {
    tenant in db.tenants && db.tenants[tenant] in {ACTIVE, TRIAL}
  }

  // refresh: signed says that the token's signature holds, matches that it is the stored one.
  function Refresh(db: Db, sessionId: string, signed: bool, matches: bool, now: int): (Db, Result<(), Error>) {
    var session := FindFirst(db.sessions, HasId(sessionId));
    if !signed then (db, Err(InvalidToken))
    else if session.None? || !Active(session.value, now) then (db, Err(SessionInactive))
    else if !LoginAllowed(db, session.value.tenantId) then
      (db.(sessions := Revoke(db.sessions, HasId(sessionId), now)), Err(TenantInactive))
    else if !matches then (db.(sessions := Revoke(db.sessions, HasId(sessionId), now)), Err(TokenRevoked))
    else (RotateSessionTokens(db, sessionId, session.value.userId, session.value.tenantId, now), Ok(()))
  }

  function LiveSession(sessionId: string, user: string): Session -> bool {
    (s: Session) => s.id == sessionId && s.userId == user && s.revokedAt.None?
  }

  function Logout(db: Db, sessionId: string, user: string, now: int): Db {
    db.(sessions := Revoke(db.sessions, LiveSession(sessionId, user), now))
  }

  function LogoutByRefreshToken(db: Db, sessionId: string, signed: bool, matches: bool, now: int): Db {
    var session := FindFirst(db.sessions, HasId(sessionId));
    if !signed || session.None? || session.value.revokedAt.Some? || !matches then db
    else db.(sessions := Revoke(db.sessions, HasId(sessionId), now))
  }

  function Unrevoked(tenant: string, user: string): Session -> bool {
    (s: Session) => Owned(s, tenant, user) && s.revokedAt.None?
  }

  function UnrevokedBut(tenant: string, user: string, keep: string): Session -> bool {
    (s: Session) => Owned(s, tenant, user) && s.revokedAt.None? && s.id != keep
  }

  function HasHash(hash: string): ResetToken -> bool {
    (t: ResetToken) => t.hash == hash
  }

  function UsedUp(tenant: string, user: string, now: int): ResetToken -> ResetToken {
    (t: ResetToken) => if t.tenantId == tenant && t.userId == user && t.usedAt.None? then t.(usedAt := Some(now)) else t
  }

  // createPasswordResetToken: older links of the user are used up, then the new one is added.
  function CreateResetToken(db: Db, hash: string, tenant: string, user: string, expiresAt: int, now: int): Db {
    db.(resetTokens := Map(db.resetTokens,
                           UsedUp(tenant, user, now)) + [ResetToken(hash, tenant, user, expiresAt, None)])
  }

  // resetPassword: the link and every other link of the user are used up, every session revoked.
  function ResetPassword(db: Db, hash: string, deactivated: bool, strong: bool, now: int): (Db, Result<(), Error>) {
    var token := FindFirst(db.resetTokens, HasHash(hash));
    if token.None? || token.value.usedAt.Some? || token.value.expiresAt <= now || deactivated
      then (db, Err(LinkInvalid))
    else if !strong then (db, Err(WeakPassword))
    else
      (db.(resetTokens := Map(db.resetTokens, UsedUp(token.value.tenantId, token.value.userId, now)),
           sessions := Revoke(db.sessions, Unrevoked(token.value.tenantId, token.value.userId), now)), Ok(()))
  }

  // changePassword: allowed says that the account and the current password check out.
  function ChangePassword(db: Db, tenant: string, user: string, current: string, revokeOthers: bool, allowed: bool,
                          strong: bool, now: int)
    : (Db, Result<(), Error>)
  {
    if !allowed then (db, Err(Refused))
    else if !strong then (db, Err(WeakPassword))
    else if !revokeOthers then (db, Ok(()))
    else (db.(sessions := Revoke(db.sessions, UnrevokedBut(tenant, user, current), now)), Ok(()))
  }

  // ---------- Steps and runs ----------

  datatype Step =
    | SignIn(sessionId: string, user: string, tenant: string)
    | DoRefresh(sessionId: string, signed: bool, matches: bool)
    | DoLogout(sessionId: string, user: string)
    | DoLogoutByToken(sessionId: string, signed: bool, matches: bool)
    | AskReset(hash: string, tenant: string, user: string, expiresAt: int)
    | DoReset(hash: string, deactivated: bool, strong: bool)
    | DoChange(tenant: string, user: string, current: string, revokeOthers: bool, allowed: bool, strong: bool)

  // Ids and hashes are unique keys: a request that would repeat one fails in the database.
  function After(db: Db, step: Step, now: int): Db {
    match step
    case SignIn(sessionId, user, tenant) =>
      if FindFirst(db.sessions, HasId(sessionId)).Some? then db
        else CreateAuthResponse(db, sessionId, user, tenant, now)
    case DoRefresh(sessionId, signed, matches) => Refresh(db, sessionId, signed, matches, now).0
    case DoLogout(sessionId, user) => Logout(db, sessionId, user, now)
    case DoLogoutByToken(sessionId, signed, matches) => LogoutByRefreshToken(db, sessionId, signed, matches, now)
    case AskReset(hash, tenant, user, expiresAt) =>
      if FindFirst(db.resetTokens, HasHash(hash)).Some? then db
        else CreateResetToken(db, hash, tenant, user, expiresAt, now)
    case DoReset(hash, deactivated, strong) => ResetPassword(db, hash, deactivated, strong, now).0
    case DoChange(tenant, user, current, revokeOthers, allowed, strong) =>
      ChangePassword(db, tenant, user, current, revokeOthers, allowed, strong, now).0
  }

  function Run(db: Db, steps: seq<(Step, int)>): Db
    decreases |steps|
  {
    if steps == [] then db else Run(After(db, steps[0].0, steps[0].1), steps[1..])
  }

  ghost predicate DistinctIds(sessions: seq<Session>) {
    NoDuplicates(Map(sessions, SessionId()))
  }

  // ---------- Revocation is for good ----------

  // Row by row: the same session, and a revocation or an end that is past stays so.
  ghost predicate RowAges(before: Session, after: Session, now: int) {
    && after.id == before.id && Owned(after, before.tenantId, before.userId) && after.createdAt == before.createdAt
    && (before.revokedAt.Some? ==> after.revokedAt.Some?)
    && (!Active(before, now) ==> !Active(after, now))
  }

  ghost predicate SessionsAge(before: seq<Session>, after: seq<Session>, now: int) {
    |before| <= |after| && forall i :: 0 <= i < |before| ==> RowAges(before[i], after[i], now)
  }

  ghost predicate TokensAge(before: seq<ResetToken>, after: seq<ResetToken>) {
    |before| <= |after| && forall i :: 0 <= i < |before| ==>
      after[i].hash == before[i].hash && after[i].tenantId == before[i].tenantId && after[i].userId == before[i].userId
      && (before[i].usedAt.Some? ==> after[i].usedAt.Some?)
  }

  lemma RevokeAges(sessions: seq<Session>, p: Session -> bool, now: int)
    ensures SessionsAge(sessions, Revoke(sessions, p, now), now)
  {
  }

  lemma EnforceAges(db: Db, tenant: string, user: string, current: string, now: int)
    ensures SessionsAge(db.sessions, EnforceMaxSessions(db, tenant, user, current, now).sessions, now)
    ensures EnforceMaxSessions(db, tenant, user, current, now).resetTokens == db.resetTokens
    ensures EnforceMaxSessions(db, tenant, user, current, now).policies == db.policies
  {
    var overflow := Others(db.sessions, tenant, user, current, now);
    var skip := KeptOthers(Cap(db, tenant).GetOr(0));
    if skip <= |overflow| {
      RevokeAges(db.sessions, AmongIds(overflow[skip..]), now);
    }
  }

  // Extending an active session, and only such a one, is what a rotation does.
  lemma RotateAges(db: Db, sessionId: string, user: string, tenant: string, now: int)
    requires forall s :: s in db.sessions && s.id == sessionId ==> Active(s, now)
    ensures SessionsAge(db.sessions, RotateSessionTokens(db, sessionId, user, tenant, now).sessions, now)
    ensures RotateSessionTokens(db, sessionId, user, tenant, now).resetTokens == db.resetTokens
  {
    var extended := db.(sessions := Map(db.sessions, Extended(sessionId, RefreshExpiresAt(db, tenant, now))));
    EnforceAges(extended, tenant, user, sessionId, now);
    forall i | 0 <= i < |db.sessions|
      ensures RowAges(db.sessions[i], extended.sessions[i], now)
    {
      assert db.sessions[i] in db.sessions;
    }
  }

  lemma OnlySessionWithId(sessions: seq<Session>, sessionId: string)
    requires DistinctIds(sessions)
    ensures var found := FindFirst(sessions, HasId(sessionId));
            && (found.Some? ==> forall s :: s in sessions && s.id == sessionId ==> s == found.value)
            && (found.None? ==> forall s :: s in sessions ==> s.id != sessionId)
  {
    var found := FindFirst(sessions, HasId(sessionId));
    forall s | s in sessions && s.id == sessionId
      ensures found.Some? && s == found.value
    {
      assert HasId(sessionId)(s);
      var i :| 0 <= i < |sessions| && sessions[i] == s;
      var j :| 0 <= j < |sessions| && sessions[j] == found.value;
      assert Map(sessions, SessionId())[i] == Map(sessions, SessionId())[j];
    }
  }

  // No step, at any time, brings a session that is not active back to life, and none removes a
  // session or a reset link or makes a used link fresh.
  lemma StepAges(db: Db, step: Step, now: int)
    requires DistinctIds(db.sessions)
    ensures SessionsAge(db.sessions, After(db, step, now).sessions, now)
    ensures TokensAge(db.resetTokens, After(db, step, now).resetTokens)
  {
    match step
    case SignIn(sessionId, user, tenant) =>
      OnlySessionWithId(db.sessions, sessionId);
      if FindFirst(db.sessions, HasId(sessionId)).None? {
        SignInAges(db, sessionId, user, tenant, now);
      }
    case DoRefresh(sessionId, signed, matches) =>
      RefreshAges(db, sessionId, signed, matches, now);
    case DoLogout(sessionId, user) => RevokeAges(db.sessions, LiveSession(sessionId, user), now);
    case DoLogoutByToken(sessionId, signed, matches) => RevokeAges(db.sessions, HasId(sessionId), now);
    case AskReset(hash, tenant, user, expiresAt) =>
    case DoReset(hash, deactivated, strong) =>
      ResetAges(db, hash, deactivated, strong, now);
    case DoChange(tenant, user, current, revokeOthers, allowed, strong) =>
      RevokeAges(db.sessions, UnrevokedBut(tenant, user, current), now);
  }

  lemma ResetAges(db: Db, hash: string, deactivated: bool, strong: bool, now: int)
    ensures SessionsAge(db.sessions, ResetPassword(db, hash, deactivated, strong, now).0.sessions, now)
    ensures TokensAge(db.resetTokens, ResetPassword(db, hash, deactivated, strong, now).0.resetTokens)
  {
    var token := FindFirst(db.resetTokens, HasHash(hash));
    if token.Some? {
      RevokeAges(db.sessions, Unrevoked(token.value.tenantId, token.value.userId), now);
    }
  }

  lemma SignInAges(db: Db, sessionId: string, user: string, tenant: string, now: int)
    requires forall s :: s in db.sessions ==> s.id != sessionId
    ensures SessionsAge(db.sessions, CreateAuthResponse(db, sessionId, user, tenant, now).sessions, now)
    ensures CreateAuthResponse(db, sessionId, user, tenant, now).resetTokens == db.resetTokens
  {
    var added := db.(sessions := db.sessions + [Session(sessionId, tenant, user, now,
                                                        RefreshExpiresAt(db, tenant, now), None)]);
    var extended := added.(sessions := Map(added.sessions, Extended(sessionId, RefreshExpiresAt(added, tenant, now))));
    EnforceAges(extended, tenant, user, sessionId, now);
    forall i | 0 <= i < |db.sessions|
      ensures extended.sessions[i] == db.sessions[i]
    {
      assert added.sessions[i] == db.sessions[i] && db.sessions[i] in db.sessions;
    }
  }

  lemma RefreshAges(db: Db, sessionId: string, signed: bool, matches: bool, now: int)
    requires DistinctIds(db.sessions)
    ensures SessionsAge(db.sessions, Refresh(db, sessionId, signed, matches, now).0.sessions, now)
    ensures Refresh(db, sessionId, signed, matches, now).0.resetTokens == db.resetTokens
  {
    var session := FindFirst(db.sessions, HasId(sessionId));
    OnlySessionWithId(db.sessions, sessionId);
    RevokeAges(db.sessions, HasId(sessionId), now);
    if session.Some? && Active(session.value, now) {
      RotateAges(db, sessionId, session.value.userId, session.value.tenantId, now);
    }
  }

  // Sessions and their ids are only ever added, so ids stay distinct.
  lemma StepKeepsDistinct(db: Db, step: Step, now: int)
    requires DistinctIds(db.sessions)
    ensures DistinctIds(After(db, step, now).sessions)
  {
    StepAges(db, step, now);
    var before, after := db.sessions, After(db, step, now).sessions;
    OnlySessionWithId(before, if step.SignIn? then step.sessionId else "");
    AddedSession(db, step, now);
    forall i, j | 0 <= i < j < |after|
      ensures after[i].id != after[j].id
    {
      assert RowAges(before[i], after[i], now);
      if j < |before| {
        assert RowAges(before[j], after[j], now);
        assert Map(before, SessionId())[i] != Map(before, SessionId())[j];
      } else {
        assert before[i] in before;
      }
    }
  }

  // Only a sign-in adds a session, one with the id it was given.
  lemma AddedSession(db: Db, step: Step, now: int)
    ensures var before, after := db.sessions, After(db, step, now).sessions;
            |after| == |before| ||
            (step.SignIn? && FindFirst(before, HasId(step.sessionId)).None? && |after| == |before| + 1
             && after[|before|].id == step.sessionId)
  {
  }

  // Time stamps never go back.
  ghost predicate InOrder(steps: seq<(Step, int)>, from: int) {
    steps == [] || (steps[0].1 >= from && InOrder(steps[1..], steps[0].1))
  }

  function EndTime(steps: seq<(Step, int)>, from: int): int {
    if steps == [] then from else EndTime(steps[1..], steps[0].1)
  }

  // Over any run: the session in row i keeps its identity, once revoked it stays revoked, and
  // once it is not active (revoked or expired) it never becomes active again.
  lemma {:induction false} RunAges(db: Db, steps: seq<(Step, int)>, i: nat, now: int)
    requires DistinctIds(db.sessions) && i < |db.sessions|
    ensures var end := Run(db, steps);
            && i < |end.sessions| && end.sessions[i].id == db.sessions[i].id
            && (db.sessions[i].revokedAt.Some? ==> end.sessions[i].revokedAt.Some?)
            && (InOrder(steps, now) && !Active(db.sessions[i], now) ==> !Active(end.sessions[i], EndTime(steps, now)))
            && DistinctIds(end.sessions)
    decreases |steps|
  {
    if steps != [] {
      var (step, time) := steps[0];
      var next := After(db, step, time);
      StepAges(db, step, time);
      StepKeepsDistinct(db, step, time);
      assert RowAges(db.sessions[i], next.sessions[i], time);
      RunAges(next, steps[1..], i, time);
    }
  }

  // ---------- The cap holds ----------

  function ActiveIds(sessions: seq<Session>, tenant: string, user: string, now: int): set<string> {
    set s | s in sessions && Owned(s, tenant, user) && Active(s, now) :: s.id
  }

  function Ids(rows: seq<Session>): set<string> {
    set s | s in rows :: s.id
  }

  lemma {:induction false} FewIds(rows: seq<Session>)
    ensures |Ids(rows)| <= |rows|
  {
    if rows != [] {
      FewIds(rows[1..]);
      assert Ids(rows) == {rows[0].id} + Ids(rows[1..]);
    }
  }

  lemma OthersMembers(sessions: seq<Session>, tenant: string, user: string, current: string, now: int, s: Session)
    ensures s in Others(sessions, tenant, user, current, now)
       <==> s in sessions && OtherActive(tenant, user, current, now)(s)
  {
    var found := Filter(sessions, OtherActive(tenant, user, current, now));
    FilterMember(sessions, OtherActive(tenant, user, current, now), s);
    SortNewestIsStable(found, CreatedAt());
    StableSortKeepsElements(found, SortNewest(found, CreatedAt()), CreatedAt());
    assert s in multiset(found) <==> s in multiset(SortNewest(found, CreatedAt()));
  }

  // The sessions enforceMaxSessions revokes.
  function Overflow(db: Db, tenant: string, user: string, current: string, now: int): seq<Session> {
    var others := Others(db.sessions, tenant, user, current, now);
    if Cap(db, tenant).None? then []
    else if KeptOthers(Cap(db, tenant).value) <= |others| then others[KeptOthers(Cap(db, tenant).value)..]
    else []
  }

  lemma EnforceRevokesOverflow(db: Db, tenant: string, user: string, current: string, now: int, i: nat)
    requires i < |db.sessions|
    ensures var after := EnforceMaxSessions(db, tenant, user, current, now).sessions;
            |after| == |db.sessions|
            && after[i] == RevokedWhen(AmongIds(Overflow(db, tenant, user, current, now)), now)(db.sessions[i])
  {
  }

  // Nobody else's session is touched, and neither is the current one.
  lemma EnforceTouchesOthersOnly(db: Db, tenant: string, user: string, current: string, now: int, i: nat)
    requires DistinctIds(db.sessions) && i < |db.sessions|
    requires !Owned(db.sessions[i], tenant, user) || db.sessions[i].id == current
    ensures EnforceMaxSessions(db, tenant, user, current, now).sessions[i] == db.sessions[i]
  {
    var overflow := Overflow(db, tenant, user, current, now);
    EnforceRevokesOverflow(db, tenant, user, current, now, i);
    OverflowIsOthers(db.sessions, tenant, user, current, now, overflow, i);
  }

  // The cap, exactly: of the user's other active sessions the cap - 1 newest stay active and
  // the rest, none of them newer, are revoked.
  lemma EnforceIsExact(db: Db, tenant: string, user: string, current: string, now: int)
    requires DistinctIds(db.sessions) && Cap(db, tenant).Some?
    ensures var others := Others(db.sessions, tenant, user, current, now);
            var kept := Take(others, KeptOthers(Cap(db, tenant).value));
            && ActiveIds(EnforceMaxSessions(db, tenant, user, current, now).sessions, tenant, user, now) - {current}
                == Ids(kept)
            && (forall k, r :: k in kept && r in others && r !in kept ==> k.createdAt >= r.createdAt)
  {
    var others := Others(db.sessions, tenant, user, current, now);
    var kept := Take(others, KeptOthers(Cap(db, tenant).value));
    var overflow := Overflow(db, tenant, user, current, now);
    var after := EnforceMaxSessions(db, tenant, user, current, now).sessions;
    assert others == kept + overflow;
    OthersNewest(db.sessions, tenant, user, current, now);
    KeptAreNewer(others, KeptOthers(Cap(db, tenant).value));
    forall i | 0 <= i < |db.sessions|
      ensures after[i] == RevokedWhen(AmongIds(overflow), now)(db.sessions[i])
    {
      EnforceRevokesOverflow(db, tenant, user, current, now, i);
    }
    forall id
      ensures id in ActiveIds(after, tenant, user, now) - {current} <==> id in Ids(kept)
    {
      ActiveAfterEnforce(db.sessions, after, tenant, user, current, now, kept, overflow, id);
    }
  }

  lemma OthersNewest(sessions: seq<Session>, tenant: string, user: string, current: string, now: int)
    ensures Newest(Others(sessions, tenant, user, current, now), CreatedAt())
  {
    SortNewestIsStable(Filter(sessions, OtherActive(tenant, user, current, now)), CreatedAt());
  }

  lemma KeptAreNewer(others: seq<Session>, skip: nat)
    requires Newest(others, CreatedAt())
    ensures forall k, r :: k in Take(others, skip) && r in others && r !in Take(others, skip) ==>
              k.createdAt >= r.createdAt
  {
    forall k, r | k in Take(others, skip) && r in others && r !in Take(others, skip)
      ensures k.createdAt >= r.createdAt
    {
      var kept := Take(others, skip);
      var rest := others[|kept|..];
      assert others == kept + rest;
      var i :| 0 <= i < |kept| && kept[i] == k;
      var j :| 0 <= j < |rest| && rest[j] == r;
      assert CreatedAt()(others[i]) >= CreatedAt()(others[|kept| + j]);
    }
  }

  // A session whose id is in the overflow is itself an other active session of the user.
  lemma OverflowIsOthers(sessions: seq<Session>, tenant: string, user: string, current: string, now: int,
                         overflow: seq<Session>, i: nat)
    requires DistinctIds(sessions) && i < |sessions|
    requires forall s :: s in overflow ==> s in Others(sessions, tenant, user, current, now)
    ensures AmongIds(overflow)(sessions[i]) ==>
              sessions[i] in overflow && OtherActive(tenant, user, current, now)(sessions[i])
  {
    if AmongIds(overflow)(sessions[i]) {
      var j :| 0 <= j < |overflow| && Map(overflow, SessionId())[j] == sessions[i].id;
      OthersMembers(sessions, tenant, user, current, now, overflow[j]);
      var k :| 0 <= k < |sessions| && sessions[k] == overflow[j];
      assert Map(sessions, SessionId())[k] == Map(sessions, SessionId())[i];
    }
  }

  lemma ActiveAfterEnforce(sessions: seq<Session>, after: seq<Session>, tenant: string, user: string,
                           current: string, now: int, kept: seq<Session>, overflow: seq<Session>, id: string)
    requires DistinctIds(sessions) && |after| == |sessions|
    requires Others(sessions, tenant, user, current, now) == kept + overflow
    requires forall i :: 0 <= i < |after| ==> after[i] == RevokedWhen(AmongIds(overflow), now)(sessions[i])
    ensures id in ActiveIds(after, tenant, user, now) - {current} <==> id in Ids(kept)
  {
    var others := Others(sessions, tenant, user, current, now);
    if id in ActiveIds(after, tenant, user, now) - {current} {
      var i :| 0 <= i < |after| && Owned(after[i], tenant, user) && Active(after[i], now) && after[i].id == id;
      OthersMembers(sessions, tenant, user, current, now, sessions[i]);
      assert sessions[i] in kept + overflow;
      if sessions[i] in overflow {
        InOverflow(overflow, sessions[i]);
      }
      assert sessions[i] in kept;
    }
    if id in Ids(kept) {
      var s :| s in kept && s.id == id;
      assert s in others;
      OthersMembers(sessions, tenant, user, current, now, s);
      var i :| 0 <= i < |sessions| && sessions[i] == s;
      OverflowIsOthers(sessions, tenant, user, current, now, overflow, i);
      KeptNotOverflow(sessions, tenant, user, current, now, kept, overflow, s);
      assert after[i] == s;
      assert after[i] in after;
    }
  }

  lemma InOverflow(overflow: seq<Session>, s: Session)
    requires s in overflow
    ensures AmongIds(overflow)(s)
  {
    var i :| 0 <= i < |overflow| && overflow[i] == s;
    assert Map(overflow, SessionId())[i] == s.id;
  }

  // No session is listed twice, so none is both kept and overflowing.
  lemma KeptNotOverflow(sessions: seq<Session>, tenant: string, user: string, current: string, now: int,
                        kept: seq<Session>, overflow: seq<Session>, s: Session)
    requires DistinctIds(sessions) && s in kept
    requires Others(sessions, tenant, user, current, now) == kept + overflow
    ensures s !in overflow
  {
    var found := Filter(sessions, OtherActive(tenant, user, current, now));
    FilterKeepsDistinct(sessions, OtherActive(tenant, user, current, now), SessionId());
    SortNewestIsStable(found, CreatedAt());
    StableSortKeepsElements(found, SortNewest(found, CreatedAt()), CreatedAt());
    DistinctMultiplicity(found, s);
    assert multiset(kept + overflow)[s] == multiset(kept)[s] + multiset(overflow)[s];
  }

  lemma {:induction false} DistinctMultiplicity(rows: seq<Session>, s: Session)
    requires NoDuplicates(Map(rows, SessionId()))
    ensures multiset(rows)[s] <= 1
  {
    if rows != [] {
      assert rows == [rows[0]] + rows[1..];
      forall i, j | 0 <= i < j < |rows[1..]|
        ensures Map(rows[1..], SessionId())[i] != Map(rows[1..], SessionId())[j]
      {
        assert Map(rows, SessionId())[i + 1] != Map(rows, SessionId())[j + 1];
      }
      DistinctMultiplicity(rows[1..], s);
      forall j | 0 <= j < |rows[1..]|
        ensures rows[1..][j] != rows[0]
      {
        assert Map(rows, SessionId())[0] != Map(rows, SessionId())[j + 1];
      }
    }
  }

  // Under a positive cap M the user has at most M active sessions after the check: the current
  // one and at most M - 1 others.
  lemma CapBoundsActive(db: Db, tenant: string, user: string, current: string, now: int)
    requires DistinctIds(db.sessions) && Cap(db, tenant).Some? && Cap(db, tenant).value >= 1
    ensures |ActiveIds(EnforceMaxSessions(db, tenant, user, current, now).sessions, tenant, user, now)|
            <= Cap(db, tenant).value
  {
    var active := ActiveIds(EnforceMaxSessions(db, tenant, user, current, now).sessions, tenant, user, now);
    var kept := Take(Others(db.sessions, tenant, user, current, now), KeptOthers(Cap(db, tenant).value));
    EnforceIsExact(db, tenant, user, current, now);
    FewIds(kept);
    assert active <= {current} + (active - {current});
    SubsetSize(active, {current} + (active - {current}));
  }

  // ---------- Which sessions remain ----------

  // The other sessions the cap leaves: all of them without a cap, else the cap - 1 newest.
  function Remaining(db: Db, tenant: string, user: string, current: string, now: int): seq<Session> {
    var others := Others(db.sessions, tenant, user, current, now);
    if Cap(db, tenant).None? then others else Take(others, KeptOthers(Cap(db, tenant).value))
  }

  lemma EnforceLeaves(db: Db, tenant: string, user: string, current: string, now: int)
    requires DistinctIds(db.sessions)
    ensures ActiveIds(EnforceMaxSessions(db, tenant, user, current, now).sessions, tenant, user, now) - {current}
         == Ids(Remaining(db, tenant, user, current, now))
  {
    if Cap(db, tenant).Some? {
      EnforceIsExact(db, tenant, user, current, now);
    } else {
      forall s
        ensures s in Others(db.sessions, tenant, user, current, now)
           <==> s in db.sessions && OtherActive(tenant, user, current, now)(s)
      {
        OthersMembers(db.sessions, tenant, user, current, now, s);
      }
    }
  }

  // The current session is active after the check exactly when its row was.
  lemma EnforceLeavesCurrent(db: Db, tenant: string, user: string, current: string, now: int, i: nat,
                             after: seq<Session>)
    requires DistinctIds(db.sessions) && i < |db.sessions| && db.sessions[i].id == current
    requires Owned(db.sessions[i], tenant, user)
    requires after == EnforceMaxSessions(db, tenant, user, current, now).sessions
    ensures current in ActiveIds(after, tenant, user, now) <==> Active(db.sessions[i], now)
  {
    EnforceTouchesOthersOnly(db, tenant, user, current, now, i);
    EnforceRevokesOverflow(db, tenant, user, current, now, i);
    if Active(db.sessions[i], now) {
      assert after[i] in after;
    }
    if current in ActiveIds(after, tenant, user, now) {
      var j :| 0 <= j < |after| && Owned(after[j], tenant, user) && Active(after[j], now) && after[j].id == current;
      EnforceRevokesOverflow(db, tenant, user, current, now, j);
      SameIdSameRow(db.sessions, i, j);
    }
  }

  lemma SameIdSameRow(sessions: seq<Session>, i: nat, j: nat)
    requires DistinctIds(sessions) && i < |sessions| && j < |sessions| && sessions[i].id == sessions[j].id
    ensures i == j
  {
    assert Map(sessions, SessionId())[i] == Map(sessions, SessionId())[j];
  }

  lemma {:induction false} OthersIgnoreExtension(sessions: seq<Session>, tenant: string, user: string,
                                                 current: string, expiresAt: int, now: int)
    ensures Filter(Map(sessions, Extended(current, expiresAt)), OtherActive(tenant, user, current, now))
         == Filter(sessions, OtherActive(tenant, user, current, now))
  {
    var mapped := Map(sessions, Extended(current, expiresAt));
    if sessions != [] {
      OthersIgnoreExtension(sessions[1..], tenant, user, current, expiresAt, now);
      assert mapped[1..] == Map(sessions[1..], Extended(current, expiresAt));
    }
  }

  lemma RotateIsExact(db: Db, i: nat, user: string, tenant: string, now: int, current: string)
    requires DistinctIds(db.sessions) && i < |db.sessions| && current == db.sessions[i].id
    requires Owned(db.sessions[i], tenant, user) && db.sessions[i].revokedAt.None?
    ensures ActiveIds(RotateSessionTokens(db, current, user, tenant, now).sessions, tenant, user, now)
         == (if RefreshExpiresAt(db, tenant, now) > now then {current}
             else {}) + Ids(Remaining(db, tenant, user, current, now))
  {
    var expiresAt := RefreshExpiresAt(db, tenant, now);
    var extended := db.(sessions := Map(db.sessions, Extended(current, expiresAt)));
    assert Map(extended.sessions, SessionId()) == Map(db.sessions, SessionId());
    OthersIgnoreExtension(db.sessions, tenant, user, current, expiresAt, now);
    assert Remaining(extended, tenant, user, current, now) == Remaining(db, tenant, user, current, now);
    EnforceLeaves(extended, tenant, user, current, now);
    EnforceLeavesCurrent(extended, tenant, user, current, now, i,
                         EnforceMaxSessions(extended, tenant, user, current, now).sessions);
    RemainingAreOthers(db, tenant, user, current, now);
  }

  lemma RemainingAreOthers(db: Db, tenant: string, user: string, current: string, now: int)
    ensures current !in Ids(Remaining(db, tenant, user, current, now))
  {
    forall s | s in Remaining(db, tenant, user, current, now)
      ensures s.id != current
    {
      OthersMembers(db.sessions, tenant, user, current, now, s);
    }
  }

  // After a sign-in the user's active sessions are exactly the new one, when the policy gives it a
  // lifetime at all, and of the others all of them without a cap, else the cap - 1 newest.
  lemma SignInIsExact(db: Db, sessionId: string, user: string, tenant: string, now: int)
    requires DistinctIds(db.sessions) && FindFirst(db.sessions, HasId(sessionId)).None?
    ensures ActiveIds(After(db, SignIn(sessionId, user, tenant), now).sessions, tenant, user, now)
         == (if RefreshExpiresAt(db, tenant, now) > now then {sessionId}
             else {}) + Ids(Remaining(db, tenant, user, sessionId, now))
  {
    var created := Session(sessionId, tenant, user, now, RefreshExpiresAt(db, tenant, now), None);
    var added := db.(sessions := db.sessions + [created]);
    AddedIsDistinct(db, created);
    FilterConcat(db.sessions, [created], OtherActive(tenant, user, sessionId, now));
    FilterNone([created], OtherActive(tenant, user, sessionId, now));
    assert Filter(added.sessions, OtherActive(tenant, user, sessionId, now))
           == Filter(db.sessions, OtherActive(tenant, user, sessionId, now));
    assert Remaining(added, tenant, user, sessionId, now) == Remaining(db, tenant, user, sessionId, now);
    RotateIsExact(added, |db.sessions|, user, tenant, now, sessionId);
  }

  lemma AddedIsDistinct(db: Db, created: Session)
    requires DistinctIds(db.sessions) && FindFirst(db.sessions, HasId(created.id)).None?
    ensures DistinctIds(db.sessions + [created])
  {
    var added := db.sessions + [created];
    forall i, j | 0 <= i < j < |added|
      ensures Map(added, SessionId())[i] != Map(added, SessionId())[j]
    {
      assert db.sessions[i] in db.sessions && !HasId(created.id)(db.sessions[i]);
      if j < |db.sessions| { assert Map(db.sessions, SessionId())[i] != Map(db.sessions, SessionId())[j]; }
    }
  }

  // The same after an accepted refresh, for the session that was refreshed.
  lemma RefreshIsExact(db: Db, sessionId: string, matches: bool, now: int, s: Session)
    requires DistinctIds(db.sessions) && Refresh(db, sessionId, true, matches, now).1.Ok?
    requires FindFirst(db.sessions, HasId(sessionId)) == Some(s)
    ensures ActiveIds(Refresh(db, sessionId, true, matches, now).0.sessions, s.tenantId, s.userId, now)
         == (if RefreshExpiresAt(db, s.tenantId, now) > now then {sessionId}
             else {}) + Ids(Remaining(db, s.tenantId, s.userId, sessionId, now))
  {
    var i :| 0 <= i < |db.sessions| && db.sessions[i] == s;
    RotateIsExact(db, i, s.userId, s.tenantId, now, sessionId);
  }

  // ---------- Signing out ----------

  // Signing out ends the session it names, if it is the user's, and leaves every other as it is.
  lemma LogoutEndsOne(db: Db, sessionId: string, user: string, now: int, i: nat)
    requires i < |db.sessions|
    ensures var after := Logout(db, sessionId, user, now).sessions;
            && |after| == |db.sessions|
            && (db.sessions[i].id == sessionId && db.sessions[i].userId == user ==> after[i].revokedAt.Some?)
            && (!(db.sessions[i].id == sessionId && db.sessions[i].userId == user) ==> after[i] == db.sessions[i])
  {
  }

  // A session that was signed out cannot be refreshed, over any run and with any token.
  lemma NoRefreshAfterLogout(db: Db, user: string, now: int, i: nat, steps: seq<(Step, int)>, signed: bool,
                             matches: bool, later: int)
    requires DistinctIds(db.sessions) && i < |db.sessions| && db.sessions[i].userId == user
    ensures var id := db.sessions[i].id; var end := Run(Logout(db, id, user, now), steps);
            Refresh(end, id, signed, matches, later) == (end, Err(if signed then SessionInactive else InvalidToken))
  {
    var id := db.sessions[i].id;
    var after := Logout(db, id, user, now);
    assert After(db, DoLogout(id, user), now) == after;
    StepKeepsDistinct(db, DoLogout(id, user), now);
    LogoutEndsOne(db, id, user, now, i);
    RevokedCannotRefresh(after, steps, i, now, signed, matches, later);
  }

  lemma RevokedCannotRefresh(db: Db, steps: seq<(Step, int)>, i: nat, now: int, signed: bool, matches: bool, later: int)
    requires DistinctIds(db.sessions) && i < |db.sessions| && db.sessions[i].revokedAt.Some?
    ensures var end := Run(db, steps);
            Refresh(end, db.sessions[i].id, signed, matches, later)
                == (end, Err(if signed then SessionInactive else InvalidToken))
  {
    var end := Run(db, steps);
    RunAges(db, steps, i, now);
    OnlySessionWithId(end.sessions, db.sessions[i].id);
    assert end.sessions[i] in end.sessions;
  }

  // Signing out by token ends the session the token is of, exactly when the token is valid, and
  // leaves every other as it is.
  lemma LogoutByTokenEndsOneIff(db: Db, signed: bool, matches: bool, now: int, i: nat, j: nat)
    requires DistinctIds(db.sessions) && i < |db.sessions| && j < |db.sessions| && db.sessions[i].revokedAt.None?
    ensures var after := LogoutByRefreshToken(db, db.sessions[i].id, signed, matches, now).sessions;
            && |after| == |db.sessions|
            && (after[i].revokedAt.Some? <==> signed && matches)
            && (j != i ==> after[j] == db.sessions[j])
  {
    var id := db.sessions[i].id;
    OnlySessionWithId(db.sessions, id);
    assert HasId(id)(db.sessions[i]);
    var found := FindFirst(db.sessions, HasId(id)).value;
    var k :| 0 <= k < |db.sessions| && db.sessions[k] == found;
    assert Map(db.sessions, SessionId())[k] == Map(db.sessions, SessionId())[i];
    assert j != i ==> Map(db.sessions, SessionId())[j] != Map(db.sessions, SessionId())[i];
  }

  // ---------- After a password reset ----------

  lemma ResetRevokesAll(db: Db, hash: string, now: int, i: nat)
    requires ResetPassword(db, hash, false, true, now).1.Ok? && i < |db.sessions|
    ensures var token := FindFirst(db.resetTokens, HasHash(hash)).value;
            var after := ResetPassword(db, hash, false, true, now).0;
            |after.sessions| == |db.sessions| && after.sessions[i].id == db.sessions[i].id
            && (Owned(db.sessions[i], token.tenantId, token.userId) ==> after.sessions[i].revokedAt.Some?)
  {
  }

  // No session that existed at the reset can be refreshed afterwards, whatever happens in
  // between and whatever token is presented.
  lemma NoRefreshAfterReset(db: Db, hash: string, now: int, i: nat, steps: seq<(Step, int)>, signed: bool,
                            matches: bool, later: int)
    requires DistinctIds(db.sessions) && i < |db.sessions|
    requires ResetPassword(db, hash, false, true, now).1.Ok?
    requires var token := FindFirst(db.resetTokens, HasHash(hash)).value;
             Owned(db.sessions[i], token.tenantId, token.userId)
    ensures var end := Run(ResetPassword(db, hash, false, true, now).0, steps);
            Refresh(end, db.sessions[i].id, signed, matches, later)
                == (end, Err(if signed then SessionInactive else InvalidToken))
  {
    var after := ResetPassword(db, hash, false, true, now).0;
    assert After(db, DoReset(hash, false, true), now) == after;
    StepKeepsDistinct(db, DoReset(hash, false, true), now);
    ResetRevokesAll(db, hash, now, i);
    RevokedCannotRefresh(after, steps, i, now, signed, matches, later);
  }

  lemma {:induction false} RunKeepsTokens(db: Db, steps: seq<(Step, int)>, i: nat)
    requires DistinctIds(db.sessions) && i < |db.resetTokens|
    ensures var end := Run(db, steps);
            && i < |end.resetTokens| && end.resetTokens[i].hash == db.resetTokens[i].hash
            && (db.resetTokens[i].usedAt.Some? ==> end.resetTokens[i].usedAt.Some?)
    decreases |steps|
  {
    if steps != [] {
      StepAges(db, steps[0].0, steps[0].1);
      StepKeepsDistinct(db, steps[0].0, steps[0].1);
      RunKeepsTokens(After(db, steps[0].0, steps[0].1), steps[1..], i);
    }
  }

  // A reset uses up every link the user has: none of them works again after any run.
  lemma LinksDieWithReset(db: Db, hash: string, now: int, i: nat, steps: seq<(Step, int)>)
    requires DistinctIds(db.sessions) && i < |db.resetTokens|
    requires ResetPassword(db, hash, false, true, now).1.Ok?
    requires var token := FindFirst(db.resetTokens, HasHash(hash)).value;
             db.resetTokens[i].tenantId == token.tenantId && db.resetTokens[i].userId == token.userId
    ensures var end := Run(ResetPassword(db, hash, false, true, now).0, steps);
            i < |end.resetTokens| && end.resetTokens[i].hash == db.resetTokens[i].hash
            && end.resetTokens[i].usedAt.Some?
  {
    var after := ResetPassword(db, hash, false, true, now).0;
    assert After(db, DoReset(hash, false, true), now) == after;
    StepKeepsDistinct(db, DoReset(hash, false, true), now);
    RunKeepsTokens(after, steps, i);
  }

  // Changing the password and revoking the others leaves at most the current session active.
  lemma ChangeLeavesCurrentOnly(db: Db, tenant: string, user: string, current: string, now: int)
    ensures ActiveIds(ChangePassword(db, tenant, user, current, true, true, true, now).0.sessions, tenant, user, now)
            <= {current}
  {
  }
}
