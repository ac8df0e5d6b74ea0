// AuthService (src/auth/auth.service.ts): the session and reset-token tables as fields, updated
// row set by row set, proved to have the effect Sessions states.
module AuthService {
  import opened Seqs
  import opened Tenants
  import opened S = Sessions

  class Service {
    var sessions: seq<Session>
    var resetTokens: seq<ResetToken>
    var policies: map<string, Policy>
    var tenants: map<string, TenantStatus>

    function State(): Db
      reads this
    {
      Db(sessions, resetTokens, policies, tenants)
    }

    // updateMany({ where: p, data: { revokedAt: now } }) on the session table.
    method RevokeWhere(p: Session -> bool, now: int)
      modifies this`sessions
      ensures sessions == Revoke(old(sessions), p, now)
    {
      sessions := Map(sessions, RevokedWhen(p, now));
    }

    method EnforceMaxSessions(tenant: string, user: string, currentSessionId: string, now: int)
      modifies this`sessions
      ensures State() == S.EnforceMaxSessions(old(State()), tenant, user, currentSessionId, now)
    {
      var cap := Cap(State(), tenant);
      if cap.None? {
        return;
      }
      var others := Others(sessions, tenant, user, currentSessionId, now);
      var skip := KeptOthers(cap.value);
      var overflow := if skip <= |others| then others[skip..] else [];
      if overflow == [] {
        return;
      }
      RevokeWhere(AmongIds(overflow), now);
    }

    method RotateSessionTokens(sessionId: string, user: string, tenant: string, now: int)
      modifies this`sessions
      ensures State() == S.RotateSessionTokens(old(State()), sessionId, user, tenant, now)
    {
      var expiresAt := RefreshExpiresAt(State(), tenant, now);
      sessions := Map(sessions, Extended(sessionId, expiresAt));
      EnforceMaxSessions(tenant, user, sessionId, now);
    }

    // Every sign-in ends here: password, MFA, SSO, invitation and e-mail verification alike.
    method CreateAuthResponse(sessionId: string, user: string, tenant: string, now: int)
      modifies this`sessions
      ensures State() == S.CreateAuthResponse(old(State()), sessionId, user, tenant, now)
    {
      sessions := sessions + [Session(sessionId, tenant, user, now, RefreshExpiresAt(State(), tenant, now), None)];
      RotateSessionTokens(sessionId, user, tenant, now);
    }

    method Refresh(sessionId: string, signed: bool, matches: bool, now: int) returns (r: Result<(), Error>)
      modifies this`sessions
      ensures (State(), r) == S.Refresh(old(State()), sessionId, signed, matches, now)
    {
      if !signed {
        return Err(InvalidToken);
      }
      var session := FindFirst(sessions, HasId(sessionId));
      if session.None? || session.value.revokedAt.Some? || session.value.expiresAt <= now {
        return Err(SessionInactive);
      }
      if !LoginAllowed(State(), session.value.tenantId) {
        RevokeWhere(HasId(sessionId), now);
        return Err(TenantInactive);
      }
      if !matches {
        RevokeWhere(HasId(sessionId), now);
        return Err(TokenRevoked);
      }
      RotateSessionTokens(sessionId, session.value.userId, session.value.tenantId, now);
      return Ok(());
    }

    method Logout(sessionId: string, user: string, now: int)
      modifies this`sessions
      ensures State() == S.Logout(old(State()), sessionId, user, now)
    {
      RevokeWhere(LiveSession(sessionId, user), now);
    }

    method LogoutByRefreshToken(sessionId: string, signed: bool, matches: bool, now: int)
      modifies this`sessions
      ensures State() == S.LogoutByRefreshToken(old(State()), sessionId, signed, matches, now)
    {
      if !signed {
        return;
      }
      var session := FindFirst(sessions, HasId(sessionId));
      if session.None? || session.value.revokedAt.Some? {
        return;
      }
      if !matches {
        return;
      }
      RevokeWhere(HasId(sessionId), now);
    }

    method CreatePasswordResetToken(hash: string, tenant: string, user: string, expiresAt: int, now: int)
      modifies this`resetTokens
      ensures State() == S.CreateResetToken(old(State()), hash, tenant, user, expiresAt, now)
    {
      resetTokens := Map(resetTokens, UsedUp(tenant, user, now));
      resetTokens := resetTokens + [ResetToken(hash, tenant, user, expiresAt, None)];
    }

    method ResetPassword(hash: string, deactivated: bool, strong: bool, now: int) returns (r: Result<(), Error>)
      modifies this`sessions, this`resetTokens
      ensures (State(), r) == S.ResetPassword(old(State()), hash, deactivated, strong, now)
    {
      var token := FindFirst(resetTokens, HasHash(hash));
      if token.None? || token.value.usedAt.Some? || token.value.expiresAt <= now || deactivated {
        return Err(LinkInvalid);
      }
      if !strong {
        return Err(WeakPassword);
      }
      resetTokens := Map(resetTokens, UsedUp(token.value.tenantId, token.value.userId, now));
      RevokeWhere(Unrevoked(token.value.tenantId, token.value.userId), now);
      return Ok(());
    }

    method ChangePassword(tenant: string, user: string, sessionId: string, revokeOthers: bool, allowed: bool,
                          strong: bool, now: int)
      returns (r: Result<(), Error>)
      modifies this`sessions
      ensures (State(), r)
              == S.ChangePassword(old(State()), tenant, user, sessionId, revokeOthers, allowed, strong, now)
    {
      if !allowed {
        return Err(Refused);
      }
      if !strong {
        return Err(WeakPassword);
      }
      if revokeOthers {
        RevokeWhere(UnrevokedBut(tenant, user, sessionId), now);
      }
      return Ok(());
    }
  }
}
