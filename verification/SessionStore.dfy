/**
 The session and password-reset services over their stored rows: each method updates the
 rows in the order the services do and is proved to have the effect of the specification.
 */
module SessionStore {
  import opened Wrappers
  import opened SessionModel

  class AuthService {
    var sessions: map<SessionId, Session>
    var resets: map<ResetId, ResetRow>
    var passwords: map<UserId, string>
    const refreshTtl: Time
    const resetTtl: Time

    ghost function View(): Store
      reads this
    {
      Store(sessions, resets, passwords, refreshTtl, resetTtl)
    }

    constructor (refreshTtl: Time, resetTtl: Time)
      ensures View() == Store(map[], map[], map[], refreshTtl, resetTtl)
    {
      sessions, resets, passwords := map[], map[], map[];
      this.refreshTtl, this.resetTtl := refreshTtl, resetTtl;
    }

    // ----- revocation -----

    method RevokeSession(k: SessionId, now: Time, reason: string)
      requires k in sessions
      modifies this`sessions
      ensures sessions == old(sessions)[k := Revoked(old(sessions)[k], now, reason)]
    {
      if sessions[k].revokedAt.None? {
        sessions := sessions[k := sessions[k].(revokedAt := Some(now), revokedReason := reason)];
      }
      assert sessions == old(sessions)[k := Revoked(old(sessions)[k], now, reason)];
    }

    method RevokeEach(these: set<SessionId>, now: Time, reason: string)
      requires these <= sessions.Keys
      modifies this`sessions
      ensures View() == RevokeThese(old(View()), these, now, reason)
    {
      var todo := these;
      while todo != {}
        invariant todo <= these
        invariant sessions.Keys == old(sessions).Keys
        invariant forall k :: k in sessions ==>
          sessions[k] == if k in these && k !in todo then Revoked(old(sessions)[k], now, reason) else old(sessions)[k]
        decreases todo
      {
        var k :| k in todo;
        RevokeSession(k, now, reason);
        todo := todo - {k};
      }
      assert sessions == RevokeThese(old(View()), these, now, reason).sessions;
    }

    method RevokeSessionsForClient(client: Client, now: Time, reason: string)
      modifies this`sessions
      ensures View() == RevokeThese(old(View()), LiveAt(old(View()), client, now), now, reason)
    {
      var live := set k | k in sessions && sessions[k].client == client && sessions[k].revokedAt.None? && sessions[k].expiresAt > now;
      assert live == LiveAt(View(), client, now);
      RevokeEach(live, now, reason);
    }

    method RevokeAllUserSessions(user: UserId, now: Time, reason: string) returns (count: nat)
      modifies this`sessions
      ensures View() == RevokeThese(old(View()), UnrevokedOf(old(View()), user), now, reason)
      ensures count == |UnrevokedOf(old(View()), user)|
    {
      var open := set k | k in sessions && sessions[k].user == user && sessions[k].revokedAt.None?;
      assert open == UnrevokedOf(View(), user);
      RevokeEach(open, now, reason);
      count := |open|;
    }

    method RevokeOne(k: SessionId, asker: Revoker, now: Time, reason: string) returns (outcome: Outcome)
      modifies this`sessions
      ensures (View(), outcome) == Revoke(old(View()), k, asker, now, reason)
    {
      if k !in sessions {
        return Denied(SESSION_NOT_FOUND);
      }
      var s := sessions[k];
      match asker {
        case OwnUser(user, company) =>
          if s.user != user || s.client.company != company {
            return Denied(SESSION_FORBIDDEN);
          }
        case CompanyAdmin(company) =>
          if s.client.company != company {
            return Denied(SESSION_NOT_FOUND);
          }
        case PlatformAdmin =>
      }
      RevokeSession(k, now, reason);
      assert sessions == RevokeThese(old(View()), {k}, now, reason).sessions;
      return Accepted(k);
    }

    /** The maintenance sweep over the session rows. */
    method SweepSessions(retention: nat, now: Time) returns (deleted: nat)
      modifies this`sessions
      ensures View() == Sweep(old(View()), retention, now)
      ensures deleted == |old(sessions).Keys| - |sessions.Keys|
      ensures forall k :: k in old(sessions) && Live(old(sessions)[k], now) ==> k in sessions && sessions[k] == old(sessions)[k]
    {
      var cutoff := now - retention;
      var over := set k | k in sessions && ((sessions[k].revokedAt.Some? && sessions[k].revokedAt.value < cutoff) ||
                                            sessions[k].expiresAt < cutoff);
      sessions := map k | k in sessions && k !in over :: sessions[k];
      deleted := |over|;
      assert sessions == Sweep(old(View()), retention, now).sessions;
      assert sessions.Keys == old(sessions).Keys - over;
    }

    // ----- opening and refreshing -----

    method CreateSession(r: LoginRequest, g: Gates, id: SessionId, token: Token, now: Time) returns (outcome: Outcome)
      requires id !in sessions
      modifies this`sessions
      ensures (View(), outcome) == SessionModel.CreateSession(old(View()), r, g, id, token, now)
    {
      if r.instance.None? {
        return Denied(DEVICE_REQUIRED);
      }
      if !(g.platformAdmin && r.kind == ADMIN_WEB) && !g.tenantOperational {
        return Denied(TENANT_BLOCKED);
      }
      if !g.deviceAllowed {
        return Denied(DEVICE_BLOCKED);
      }
      var client := Client(r.company, r.kind, r.instance.value);
      RevokeSessionsForClient(client, now, "replaced_by_new_login");
      sessions := sessions[id := Session(r.user, r.membership, client, token, now + refreshTtl, None, "")];
      return Accepted(id);
    }

    method FindByToken(token: Token) returns (holder: Option<SessionId>)
      ensures holder.None? ==> forall k :: !HoldsToken(View(), k, token)
      ensures holder.Some? ==> HoldsToken(View(), holder.value, token)
    {
      holder := None;
      var todo := sessions.Keys;
      while todo != {} && holder.None?
        invariant todo <= sessions.Keys
        invariant holder.None? ==> forall k :: HoldsToken(View(), k, token) ==> k in todo
        invariant holder.Some? ==> HoldsToken(View(), holder.value, token)
        decreases todo
      {
        var k :| k in todo;
        todo := todo - {k};
        if sessions[k].token == token {
          holder := Some(k);
        }
      }
    }

    method RefreshSession(r: RefreshRequest, g: Gates, token: Token, now: Time) returns (outcome: Outcome, holder: Option<SessionId>)
      modifies this`sessions
      ensures if holder.None? then r.token == "" || forall k :: !HoldsToken(old(View()), k, r.token)
              else HoldsToken(old(View()), holder.value, r.token)
      ensures (View(), outcome) == SessionModel.RefreshSession(old(View()), r, g, holder, token, now)
    {
      holder := None;
      if r.token == "" {
        return Denied(REFRESH_TOKEN_REQUIRED), holder;
      }
      holder := FindByToken(r.token);
      if holder.None? {
        assert forall k :: HoldsToken(old(View()), k, r.token) ==> HoldsToken(View(), k, r.token);
        return Denied(REFRESH_TOKEN_INVALID), holder;
      }
      var k := holder.value;
      var s := sessions[k];
      if !(g.platformAdmin && s.client.kind == ADMIN_WEB) && !g.tenantOperational {
        return Denied(TENANT_BLOCKED), holder;
      }
      if s.revokedAt.Some? {
        return Denied(SESSION_REVOKED), holder;
      }
      if s.expiresAt <= now {
        return Denied(REFRESH_TOKEN_EXPIRED), holder;
      }
      if !g.accountActive {
        RevokeSession(k, now, "membership_inactive");
        assert sessions == RevokeThese(old(View()), {k}, now, "membership_inactive").sessions;
        return Denied(SESSION_MEMBERSHIP_INACTIVE), holder;
      }
      var refused := LicenseError(g.license, now);
      if refused.Some? {
        return Denied(refused.value), holder;
      }
      if r.instance.None? {
        return Denied(DEVICE_REQUIRED), holder;
      }
      if r.instance.value != s.client.instance {
        return Denied(SESSION_DEVICE_MISMATCH), holder;
      }
      if r.kind.Some? && r.kind.value != UNKNOWN && r.kind.value != s.client.kind {
        return Denied(SESSION_CLIENT_MISMATCH), holder;
      }
      if !g.deviceAllowed {
        return Denied(DEVICE_BLOCKED), holder;
      }
      sessions := sessions[k := s.(token := token, expiresAt := now + refreshTtl)];
      return Accepted(k), holder;
    }

    method ValidateAccessSession(claim: AccessClaim, g: Gates, now: Time) returns (outcome: Outcome)
      ensures outcome == ValidateAccess(View(), claim, g, now)
      ensures outcome.Accepted? ==> claim.session in sessions && Live(sessions[claim.session], now) &&
                                    sessions[claim.session].user == claim.user
    {
      if claim.session !in sessions {
        return Denied(SESSION_NOT_FOUND);
      }
      var s := sessions[claim.session];
      if s.user != claim.user || s.client.company != claim.company || s.membership != claim.membership {
        return Denied(SESSION_CONTEXT_MISMATCH);
      }
      if !(g.platformAdmin && s.client.kind == ADMIN_WEB) && !g.tenantOperational {
        return Denied(TENANT_BLOCKED);
      }
      if s.revokedAt.Some? {
        return Denied(SESSION_REVOKED);
      }
      if s.expiresAt <= now {
        return Denied(SESSION_EXPIRED);
      }
      if !g.accountActive {
        return Denied(SESSION_MEMBERSHIP_INACTIVE);
      }
      return Accepted(claim.session);
    }

    // ----- password reset -----

    method ForgotPassword(user: Option<UserId>, id: ResetId, token: Token, now: Time)
      requires id !in resets
      modifies this`resets
      ensures View() == SessionModel.ForgotPassword(old(View()), user, id, token, now)
    {
      if user.None? {
        return;
      }
      resets := map k | k in resets && resets[k].user != user.value :: resets[k];
      resets := resets[id := ResetRow(user.value, token, now + resetTtl, None)];
    }

    method FindReset(token: Token) returns (row: Option<ResetId>)
      ensures row.None? ==> forall k :: !HoldsReset(View(), k, token)
      ensures row.Some? ==> HoldsReset(View(), row.value, token)
    {
      row := None;
      var todo := resets.Keys;
      while todo != {} && row.None?
        invariant todo <= resets.Keys
        invariant row.None? ==> forall k :: HoldsReset(View(), k, token) ==> k in todo
        invariant row.Some? ==> HoldsReset(View(), row.value, token)
        decreases todo
      {
        var k :| k in todo;
        todo := todo - {k};
        if resets[k].token == token {
          row := Some(k);
        }
      }
    }

    /** Consuming a row inside the transaction: true when exactly that row was still open. */
    method Consume(k: ResetId, now: Time) returns (consumed: bool)
      requires k in resets
      modifies this`resets
      ensures consumed <==> old(resets)[k].consumedAt.None? && old(resets)[k].expiresAt > now
      ensures resets == if consumed then old(resets)[k := old(resets)[k].(consumedAt := Some(now))] else old(resets)
    {
      consumed := resets[k].consumedAt.None? && resets[k].expiresAt > now;
      if consumed {
        resets := resets[k := resets[k].(consumedAt := Some(now))];
      }
    }

    method ResetPassword(token: Token, userActive: bool, password: string, now: Time) returns (outcome: ResetOutcome, row: Option<ResetId>)
      modifies this
      ensures if row.None? then forall k :: !HoldsReset(old(View()), k, token) else HoldsReset(old(View()), row.value, token)
      ensures (View(), outcome) == SessionModel.ResetPassword(old(View()), row, userActive, password, now)
    {
      row := FindReset(token);
      if row.None? {
        assert forall k :: HoldsReset(old(View()), k, token) ==> HoldsReset(View(), k, token);
        return TokenInvalid, row;
      }
      var k := row.value;
      var user := resets[k].user;
      if resets[k].consumedAt.Some? {
        return TokenAlreadyUsed, row;
      }
      if resets[k].expiresAt <= now {
        return TokenExpired, row;
      }
      if !userActive {
        return ResetNotAllowed, row;
      }
      var consumed := Consume(k, now);
      assert consumed;
      passwords := passwords[user := password];
      resets := map j | j in resets && (resets[j].user != user || j == k) :: resets[j];
      ghost var before, openRow := old(View()), old(View()).resets[k];
      assert resets == map j | j in before.resets && (before.resets[j].user != user || j == k) ::
                         if j == k then openRow.(consumedAt := Some(now)) else before.resets[j];
      assert UnrevokedOf(View(), user) == UnrevokedOf(before, user);
      var _ := RevokeAllUserSessions(user, now, "password_reset");
      return ResetDone(user), row;
    }
  }
}
