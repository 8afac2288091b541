/**
 Device sessions with rotating refresh tokens, and password reset tokens. Tokens stand for
 their hashes. Checks made by other services (tenant state, device limits, account and
 company flags) come in as the results they gave.
 */
module SessionModel {
  import opened Wrappers
  import BillingModel

  type SessionId = string
  type ResetId = string
  type UserId = string
  type CompanyId = string
  type Token = string
  type Time = int

  datatype ClientType = MOBILE_APP | ADMIN_WEB | UNKNOWN

  datatype Client = Client(company: CompanyId, kind: ClientType, instance: string)

  datatype Session = Session(
    user: UserId,
    membership: string,
    client: Client,
    token: Token,
    expiresAt: Time,
    revokedAt: Option<Time>,
    revokedReason: string)

  datatype ResetRow = ResetRow(user: UserId, token: Token, expiresAt: Time, consumedAt: Option<Time>)

  datatype Store = Store(
    sessions: map<SessionId, Session>,
    resets: map<ResetId, ResetRow>,
    passwords: map<UserId, string>,
    refreshTtl: Time,
    resetTtl: Time)

  // ----- sessions -----

  predicate Live(s: Session, now: Time) {
    s.revokedAt.None? && s.expiresAt > now
  }

  /** Revoking keeps the first revocation. */
  function Revoked(s: Session, now: Time, reason: string): Session {
    if s.revokedAt.Some? then s else s.(revokedAt := Some(now), revokedReason := reason)
  }

  function RevokeThese(st: Store, these: set<SessionId>, now: Time, reason: string): Store {
    st.(sessions := map k | k in st.sessions :: if k in these then Revoked(st.sessions[k], now, reason) else st.sessions[k])
  }

  function LiveAt(st: Store, client: Client, now: Time): set<SessionId> {
    set k | k in st.sessions && st.sessions[k].client == client && Live(st.sessions[k], now)
  }

  function UnrevokedOf(st: Store, user: UserId): set<SessionId> {
    set k | k in st.sessions && st.sessions[k].user == user && st.sessions[k].revokedAt.None?
  }

  datatype SessionError =
    | DEVICE_REQUIRED | TENANT_BLOCKED | DEVICE_BLOCKED
    | REFRESH_TOKEN_REQUIRED | REFRESH_TOKEN_INVALID | SESSION_REVOKED | REFRESH_TOKEN_EXPIRED
    | SESSION_MEMBERSHIP_INACTIVE | LICENSE_REQUIRED | LICENSE_EXPIRED
    | SESSION_DEVICE_MISMATCH | SESSION_CLIENT_MISMATCH
    | SESSION_NOT_FOUND | SESSION_CONTEXT_MISMATCH | SESSION_EXPIRED | SESSION_FORBIDDEN

  datatype Outcome = Accepted(session: SessionId) | Denied(error: SessionError)

  /** What the other services say about the caller's account, company and device. */
  datatype Gates = Gates(
    platformAdmin: bool,
    tenantOperational: bool,
    accountActive: bool,
    license: Option<BillingModel.License>,
    deviceAllowed: bool)

  predicate TenantOk(g: Gates, kind: ClientType) {
    (g.platformAdmin && kind.ADMIN_WEB?) || g.tenantOperational
  }

  /** The license check of a session restore; `None` when the license allows it. */
  function LicenseError(license: Option<BillingModel.License>, now: Time): Option<SessionError> {
    match license
    case None => Some(LICENSE_REQUIRED)
    case Some(l) =>
      if l.status.EXPIRED? || (l.expiresAt.Some? && l.expiresAt.value < now) then Some(LICENSE_EXPIRED)
      else if !l.status.ACTIVE? && !l.status.TRIAL? then Some(LICENSE_REQUIRED)
      else None
  }

  /** Who opens a session, from which client. `instance` is the normalized identifier the
      client sent, if any. */
  datatype LoginRequest = LoginRequest(user: UserId, membership: string, company: CompanyId, kind: ClientType, instance: Option<string>)

  /** Opening a session replaces the live ones of the same client. `id` and `token` are new. */
  function CreateSession(st: Store, r: LoginRequest, g: Gates, id: SessionId, token: Token, now: Time): (Store, Outcome) {
    if r.instance.None? then (st, Denied(DEVICE_REQUIRED))
    else if !TenantOk(g, r.kind) then (st, Denied(TENANT_BLOCKED))
    else if !g.deviceAllowed then (st, Denied(DEVICE_BLOCKED))
    else
      var client := Client(r.company, r.kind, r.instance.value);
      var cleared := RevokeThese(st, LiveAt(st, client, now), now, "replaced_by_new_login");
      (cleared.(sessions := cleared.sessions[id := Session(r.user, r.membership, client, token, now + st.refreshTtl, None, "")]),
       Accepted(id))
  }

  predicate HoldsToken(st: Store, k: SessionId, token: Token) {
    k in st.sessions && st.sessions[k].token == token
  }

  /** What a refresh request sends: the token, and the client's kind and instance if given.
      An unknown kind word reads as `UNKNOWN`. */
  datatype RefreshRequest = RefreshRequest(token: Token, kind: Option<ClientType>, instance: Option<string>)

  /** Why a refresh of session `s` is refused, checked in order; `None` when it is not. */
  function RefreshError(s: Session, r: RefreshRequest, g: Gates, now: Time): Option<SessionError> {
    if !TenantOk(g, s.client.kind) then Some(TENANT_BLOCKED)
    else if s.revokedAt.Some? then Some(SESSION_REVOKED)
    else if s.expiresAt <= now then Some(REFRESH_TOKEN_EXPIRED)
    else if !g.accountActive then Some(SESSION_MEMBERSHIP_INACTIVE)
    else if LicenseError(g.license, now).Some? then LicenseError(g.license, now)
    else if r.instance.None? then Some(DEVICE_REQUIRED)
    else if r.instance.value != s.client.instance then Some(SESSION_DEVICE_MISMATCH)
    else if r.kind.Some? && !r.kind.value.UNKNOWN? && r.kind.value != s.client.kind then Some(SESSION_CLIENT_MISMATCH)
    else if !g.deviceAllowed then Some(DEVICE_BLOCKED)
    else None
  }

  /** Refreshing rotates the token of the session that holds the presented one. `found` is
      that session, `None` when no session holds it. An inactive account loses the session. */
  function RefreshSession(st: Store, r: RefreshRequest, g: Gates, found: Option<SessionId>, token: Token, now: Time): (Store, Outcome) {
    if r.token == "" then (st, Denied(REFRESH_TOKEN_REQUIRED))
    else if found.None? || found.value !in st.sessions then (st, Denied(REFRESH_TOKEN_INVALID))
    else
      var s := st.sessions[found.value];
      match RefreshError(s, r, g, now)
      case Some(SESSION_MEMBERSHIP_INACTIVE) =>
        (RevokeThese(st, {found.value}, now, "membership_inactive"), Denied(SESSION_MEMBERSHIP_INACTIVE))
      case Some(e) => (st, Denied(e))
      case None =>
        (st.(sessions := st.sessions[found.value := s.(token := token, expiresAt := now + st.refreshTtl)]), Accepted(found.value))
  }

  /** Who asks for a revocation: the user of the session, an administrator of one company,
      or a platform administrator. */
  datatype Revoker = OwnUser(user: UserId, company: CompanyId) | CompanyAdmin(company: CompanyId) | PlatformAdmin

  function RevokeError(st: Store, id: SessionId, asker: Revoker): Option<SessionError> {
    if id !in st.sessions then Some(SESSION_NOT_FOUND)
    else
      var s := st.sessions[id];
      match asker
      case OwnUser(user, company) => if s.user != user || s.client.company != company then Some(SESSION_FORBIDDEN) else None
      case CompanyAdmin(company) => if s.client.company != company then Some(SESSION_NOT_FOUND) else None
      case PlatformAdmin => None
  }

  function Revoke(st: Store, id: SessionId, asker: Revoker, now: Time, reason: string): (Store, Outcome) {
    match RevokeError(st, id, asker)
    case Some(e) => (st, Denied(e))
    case None => (RevokeThese(st, {id}, now, reason), Accepted(id))
  }

  /** The context an access token claims. */
  datatype AccessClaim = AccessClaim(session: SessionId, user: UserId, company: CompanyId, membership: string)

  /** Whether an access token's session is still good. */
  function ValidateAccess(st: Store, claim: AccessClaim, g: Gates, now: Time): Outcome {
    if claim.session !in st.sessions then Denied(SESSION_NOT_FOUND)
    else
      var s := st.sessions[claim.session];
      if s.user != claim.user || s.client.company != claim.company || s.membership != claim.membership then Denied(SESSION_CONTEXT_MISMATCH)
      else if !TenantOk(g, s.client.kind) then Denied(TENANT_BLOCKED)
      else if s.revokedAt.Some? then Denied(SESSION_REVOKED)
      else if s.expiresAt <= now then Denied(SESSION_EXPIRED)
      else if !g.accountActive then Denied(SESSION_MEMBERSHIP_INACTIVE)
      else Accepted(claim.session)
  }

  // ----- the maintenance sweep -----

  /** The session was revoked, or expired, before the cutoff. */
  predicate OverBefore(s: Session, cutoff: Time) {
    (s.revokedAt.Some? && s.revokedAt.value < cutoff) || s.expiresAt < cutoff
  }

  /** The sweep deletes the sessions that have been over for longer than the retention time. */
  function Sweep(st: Store, retention: nat, now: Time): Store {
    st.(sessions := map k | k in st.sessions && !OverBefore(st.sessions[k], now - retention) :: st.sessions[k])
  }

  // ----- password reset -----

  datatype ResetOutcome =
    | ResetDone(user: UserId)
    | TokenInvalid | TokenAlreadyUsed | TokenExpired | ResetNotAllowed

  /** Asking for a reset: every earlier reset row of the user goes, one new row comes. The
      answer is the same when the account is unknown or inactive, and nothing is stored. */
  function ForgotPassword(st: Store, user: Option<UserId>, id: ResetId, token: Token, now: Time): Store {
    match user
    case None => st
    case Some(u) =>
      var others := map k | k in st.resets && st.resets[k].user != u :: st.resets[k];
      st.(resets := others[id := ResetRow(u, token, now + st.resetTtl, None)])
  }

  predicate HoldsReset(st: Store, k: ResetId, token: Token) {
    k in st.resets && st.resets[k].token == token
  }

  /** Why the reset row is refused, checked in order; `None` when it is not. */
  function ResetError(row: ResetRow, userActive: bool, now: Time): Option<ResetOutcome> {
    if row.consumedAt.Some? then Some(TokenAlreadyUsed)
    else if row.expiresAt <= now then Some(TokenExpired)
    else if !userActive then Some(ResetNotAllowed)
    else None
  }

  /** Resetting a password consumes the row, drops the user's other rows, stores the new
      password and revokes every unrevoked session of the user. `found` is the row that
      holds the presented token. */
  function ResetPassword(st: Store, found: Option<ResetId>, userActive: bool, password: string, now: Time): (Store, ResetOutcome) {
    if found.None? || found.value !in st.resets then (st, TokenInvalid)
    else
      var row := st.resets[found.value];
      match ResetError(row, userActive, now)
      case Some(e) => (st, e)
      case None =>
        var kept := map k | k in st.resets && (st.resets[k].user != row.user || k == found.value) ::
                      if k == found.value then row.(consumedAt := Some(now)) else st.resets[k];
        var stored := st.(resets := kept, passwords := st.passwords[row.user := password]);
        (RevokeThese(stored, UnrevokedOf(st, row.user), now, "password_reset"), ResetDone(row.user))
  }

  // ----- steps -----

  datatype Step =
    | Login(request: LoginRequest, gates: Gates, id: SessionId, token: Token)
    | Refresh(refresh: RefreshRequest, refreshGates: Gates, holder: Option<SessionId>, rotated: Token)
    | RevokeOne(session: SessionId, asker: Revoker, reason: string)
    | RevokeSome(these: set<SessionId>, why: string)
    | SweepSessions(retention: nat)
    | Forgot(user: Option<UserId>, resetId: ResetId, resetToken: Token)
    | Reset(presented: Token, row: Option<ResetId>, userActive: bool, password: string)

  function Next(st: Store, step: Step, now: Time): Store {
    match step
    case Login(request, gates, id, token) => CreateSession(st, request, gates, id, token, now).0
    case Refresh(refresh, gates, holder, rotated) => RefreshSession(st, refresh, gates, holder, rotated, now).0
    case RevokeOne(session, asker, reason) => Revoke(st, session, asker, now, reason).0
    case RevokeSome(these, why) => RevokeThese(st, these, now, why)
    case SweepSessions(retention) => Sweep(st, retention, now)
    case Forgot(user, resetId, resetToken) => ForgotPassword(st, user, resetId, resetToken, now)
    case Reset(_, row, userActive, password) => ResetPassword(st, row, userActive, password, now).0
  }

  /** The step is a refresh that succeeds with token `t`. */
  predicate RefreshesWith(st: Store, step: Step, now: Time, t: Token) {
    step.Refresh? && step.refresh.token == t &&
    RefreshSession(st, step.refresh, step.refreshGates, step.holder, step.rotated, now).1.Accepted?
  }

  /** The step is a password reset that succeeds with token `t`. */
  predicate ResetsWith(st: Store, step: Step, now: Time, t: Token) {
    step.Reset? && step.presented == t && ResetPassword(st, step.row, step.userActive, step.password, now).1.ResetDone?
  }
}
