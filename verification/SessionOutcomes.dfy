/**
 Who is let in and who is refused: what logins, refreshes, access checks, revocations and
 password resets answer, what they store, and what follows from one another.
 */
module SessionOutcomes {
  import opened Wrappers
  import opened SessionModel
  import opened SessionRuns
  import B = BillingModel
  import BillingActions

  // ----- licenses at the door -----

  /** A license lets a session be restored exactly while it is active or on trial and its expiry
      date, if any, has not passed. */
  lemma LicenseAdmitsExactly(license: Option<B.License>, now: Time)
    ensures LicenseError(license, now).None? <==>
              license.Some? && license.value.status in {B.ACTIVE, B.TRIAL} &&
              (license.value.expiresAt.Some? ==> now <= license.value.expiresAt.value)
    ensures LicenseError(license, now) == Some(LICENSE_EXPIRED) <==>
              license.Some? && (license.value.status == B.EXPIRED ||
                                (license.value.expiresAt.Some? && license.value.expiresAt.value < now))
    ensures LicenseError(license, now) in {None, Some(LICENSE_EXPIRED), Some(LICENSE_REQUIRED)}
  {
  }

  /** The maintenance sweep changes no such verdict, then or later. */
  lemma SweepChangesNoVerdict(l: B.License, swept: Time, now: Time)
    requires swept <= now
    ensures LicenseError(Some(BillingActions.Swept(l, swept)), now) == LicenseError(Some(l), now)
    ensures BillingActions.Swept(l, swept) == l || BillingActions.Swept(l, swept) == l.(status := B.EXPIRED)
    ensures l.expiresAt.Some? && l.expiresAt.value < swept && l.status in {B.ACTIVE, B.TRIAL} ==>
              BillingActions.Swept(l, swept).status == B.EXPIRED
  {
  }

  const DAY := 86_400_000

  /** An emergency extension is possible for 1 to 7 days, for a license that has an expiry date
      ahead or is expired or suspended; it then opens the door up to exactly that many days after
      the later of now and the old expiry date, and changes only status and expiry date. */
  lemma ExtensionOpensTheDoor(l: B.License, days: int, now: Time, at: Time)
    ensures var m := BillingActions.Extended(l, days, now);
            var ahead := l.expiresAt.Some? && l.expiresAt.value > now;
            var possible := 1 <= days <= 7 && (l.expiresAt.Some? || l.status in {B.EXPIRED, B.SUSPENDED});
            var until := (if ahead then l.expiresAt.value else now) + days * DAY;
            (!possible ==> m == l) &&
            (possible ==> m == l.(status := m.status, expiresAt := Some(until)) &&
                          (LicenseError(Some(m), at).None? <==> at <= until))
  {
  }

  /** Suspending closes the door at once; reactivating a suspended license opens it again unless
      it has expired by date, and undoes a suspension of an active one. */
  lemma SuspensionClosesTheDoor(l: B.License, now: Time)
    ensures LicenseError(Some(BillingActions.Suspended(l)), now).Some?
    ensures BillingActions.Suspended(l).(status := l.status) == l
    ensures l.status == B.SUSPENDED && (l.expiresAt.Some? ==> l.expiresAt.value > now) ==>
              LicenseError(Some(BillingActions.Reactivated(l, now)), now).None?
    ensures l.status != B.SUSPENDED || (l.expiresAt.Some? && l.expiresAt.value <= now) ==> BillingActions.Reactivated(l, now) == l
    ensures l.status == B.ACTIVE && (l.expiresAt.Some? ==> l.expiresAt.value > now) ==>
              BillingActions.Reactivated(BillingActions.Suspended(l), now) == l
  {
  }

  // ----- logins -----

  /** A tenant that does not operate shuts everybody out but platform administrators on the
      administration web. */
  predicate ShutOut(g: Gates, kind: ClientType) {
    !g.tenantOperational && !(g.platformAdmin && kind == ADMIN_WEB)
  }

  /** The refusals of a login in their order, and that a refused login stores nothing. */
  lemma LoginRefusals(st: Store, r: LoginRequest, g: Gates, id: SessionId, token: Token, now: Time)
    ensures var (after, outcome) := CreateSession(st, r, g, id, token, now);
            (outcome == Denied(DEVICE_REQUIRED) <==> r.instance.None?) &&
            (outcome == Denied(TENANT_BLOCKED) <==> r.instance.Some? && ShutOut(g, r.kind)) &&
            (outcome == Denied(DEVICE_BLOCKED) <==> r.instance.Some? && !ShutOut(g, r.kind) && !g.deviceAllowed) &&
            (outcome == Accepted(id) <==> r.instance.Some? && !ShutOut(g, r.kind) && g.deviceAllowed) &&
            (outcome.Denied? ==> after == st)
  {
  }

  /** An accepted login stores the new session for the whole refresh time, revokes the live
      sessions of the same client, and touches nothing else. */
  lemma LoginStores(st: Store, r: LoginRequest, g: Gates, id: SessionId, token: Token, now: Time)
    requires id !in st.sessions && CreateSession(st, r, g, id, token, now).1.Accepted?
    ensures var after, client := CreateSession(st, r, g, id, token, now).0, Client(r.company, r.kind, r.instance.value);
            after.sessions.Keys == st.sessions.Keys + {id} && after.resets == st.resets && after.passwords == st.passwords &&
            after.sessions[id] == Session(r.user, r.membership, client, token, now + st.refreshTtl, None, "") &&
            forall k :: k in st.sessions ==>
              after.sessions[k] == if st.sessions[k].client == client && st.sessions[k].revokedAt.None? && st.sessions[k].expiresAt > now
                                   then st.sessions[k].(revokedAt := Some(now), revokedReason := "replaced_by_new_login")
                                   else st.sessions[k]
  {
  }

  // ----- refreshes -----

  predicate WrongDevice(s: Session, r: RefreshRequest) {
    r.instance.Some? && r.instance.value != s.client.instance
  }

  predicate WrongClient(s: Session, r: RefreshRequest) {
    r.kind.Some? && r.kind.value != UNKNOWN && r.kind.value != s.client.kind
  }

  /** Nothing about the account, the tenant or the session itself stands against a refresh. */
  predicate InOrder(s: Session, g: Gates, now: Time) {
    !ShutOut(g, s.client.kind) && s.revokedAt.None? && now < s.expiresAt && g.accountActive
  }

  /** A refresh of a stored session is accepted exactly when session, account and tenant are in
      order, the license admits it, the client is the one the session was opened for, and the
      device is allowed; the refusals come in that order. */
  lemma RefreshRefusals(st: Store, r: RefreshRequest, g: Gates, k: SessionId, token: Token, now: Time)
    requires r.token != "" && k in st.sessions
    ensures var s, outcome := st.sessions[k], RefreshSession(st, r, g, Some(k), token, now).1;
            var licensed := LicenseError(g.license, now).None?;
            (outcome == Denied(TENANT_BLOCKED) <==> ShutOut(g, s.client.kind)) &&
            (outcome == Denied(SESSION_REVOKED) <==> !ShutOut(g, s.client.kind) && s.revokedAt.Some?) &&
            (outcome == Denied(REFRESH_TOKEN_EXPIRED) <==> !ShutOut(g, s.client.kind) && s.revokedAt.None? && s.expiresAt <= now) &&
            (outcome == Denied(SESSION_MEMBERSHIP_INACTIVE) <==>
              !ShutOut(g, s.client.kind) && s.revokedAt.None? && now < s.expiresAt && !g.accountActive) &&
            (InOrder(s, g, now) && !licensed ==> outcome == Denied(LicenseError(g.license, now).value)) &&
            (outcome == Denied(DEVICE_REQUIRED) <==> InOrder(s, g, now) && licensed && r.instance.None?) &&
            (outcome == Denied(SESSION_DEVICE_MISMATCH) <==> InOrder(s, g, now) && licensed && WrongDevice(s, r)) &&
            (outcome == Denied(SESSION_CLIENT_MISMATCH) <==>
              InOrder(s, g, now) && licensed && r.instance == Some(s.client.instance) && WrongClient(s, r)) &&
            (outcome == Denied(DEVICE_BLOCKED) <==>
              InOrder(s, g, now) && licensed && r.instance == Some(s.client.instance) && !WrongClient(s, r) && !g.deviceAllowed) &&
            (outcome == Accepted(k) <==>
              InOrder(s, g, now) && licensed && r.instance == Some(s.client.instance) && !WrongClient(s, r) && g.deviceAllowed)
  {
    LicenseAdmitsExactly(g.license, now);
  }

  /** A request without token, or with one no session holds, is refused. */
  lemma UnknownTokenIsRefused(st: Store, r: RefreshRequest, g: Gates, token: Token, now: Time)
    ensures RefreshSession(st, r, g, None, token, now) ==
              (st, Denied(if r.token == "" then REFRESH_TOKEN_REQUIRED else REFRESH_TOKEN_INVALID))
  {
  }

  /** An accepted refresh gives the session the new token and the whole refresh time again; a
      refused one stores nothing, except that an inactive account loses the session. */
  lemma RefreshStores(st: Store, r: RefreshRequest, g: Gates, k: SessionId, token: Token, now: Time)
    requires r.token != "" && k in st.sessions
    ensures var (after, outcome) := RefreshSession(st, r, g, Some(k), token, now);
            (outcome.Accepted? ==>
              after == st.(sessions := st.sessions[k := st.sessions[k].(token := token, expiresAt := now + st.refreshTtl)])) &&
            (outcome.Denied? && outcome.error != SESSION_MEMBERSHIP_INACTIVE ==> after == st) &&
            (outcome == Denied(SESSION_MEMBERSHIP_INACTIVE) ==>
              after == st.(sessions := st.sessions[k := st.sessions[k].(revokedAt := Some(now), revokedReason := "membership_inactive")]))
  {
    RefreshRefusals(st, r, g, k, token, now);
    if RefreshSession(st, r, g, Some(k), token, now).1 == Denied(SESSION_MEMBERSHIP_INACTIVE) {
      assert RefreshSession(st, r, g, Some(k), token, now).0.sessions ==
             st.sessions[k := st.sessions[k].(revokedAt := Some(now), revokedReason := "membership_inactive")];
    }
  }

  /** The token of a login, and then each rotated token, opens the door to its own client until
      the refresh time is over, as long as account, license and device are in order. */
  lemma LoginThenRefresh(st: Store, r: LoginRequest, g: Gates, id: SessionId, token: Token, now: Time,
                         again: RefreshRequest, h: Gates, rotated: Token, later: Time)
    requires id !in st.sessions && CreateSession(st, r, g, id, token, now).1.Accepted?
    requires again.token == token != "" && h.tenantOperational && h.accountActive && h.deviceAllowed && LicenseError(h.license, later).None?
    ensures var after := CreateSession(st, r, g, id, token, now).0;
            RefreshSession(after, again, h, Some(id), rotated, later).1.Accepted? <==>
              later < now + st.refreshTtl && again.instance == r.instance &&
              (again.kind.None? || again.kind.value in {UNKNOWN, r.kind})
  {
    LoginStores(st, r, g, id, token, now);
    RefreshRefusals(CreateSession(st, r, g, id, token, now).0, again, h, id, rotated, later);
  }

  // ----- access checks -----

  /** The refusals of an access token in their order; it is accepted exactly for the user, the
      company and the membership of a stored session that is in order. */
  lemma AccessRefusals(st: Store, claim: AccessClaim, g: Gates, now: Time)
    ensures var outcome := ValidateAccess(st, claim, g, now);
            (outcome == Denied(SESSION_NOT_FOUND) <==> claim.session !in st.sessions) &&
            (claim.session in st.sessions ==>
              var s := st.sessions[claim.session];
              var same := s.user == claim.user && s.client.company == claim.company && s.membership == claim.membership;
              (outcome == Denied(SESSION_CONTEXT_MISMATCH) <==> !same) &&
              (outcome == Denied(TENANT_BLOCKED) <==> same && ShutOut(g, s.client.kind)) &&
              (outcome == Denied(SESSION_REVOKED) <==> same && !ShutOut(g, s.client.kind) && s.revokedAt.Some?) &&
              (outcome == Denied(SESSION_EXPIRED) <==> same && !ShutOut(g, s.client.kind) && s.revokedAt.None? && s.expiresAt <= now) &&
              (outcome == Denied(SESSION_MEMBERSHIP_INACTIVE) <==>
                same && !ShutOut(g, s.client.kind) && s.revokedAt.None? && now < s.expiresAt && !g.accountActive) &&
              (outcome == Accepted(claim.session) <==> same && InOrder(s, g, now)))
  {
  }

  /** After a login the access token validates for exactly its user, company and membership. */
  lemma LoginThenAccess(st: Store, r: LoginRequest, g: Gates, id: SessionId, token: Token, now: Time, claim: AccessClaim, h: Gates, later: Time)
    requires id !in st.sessions && CreateSession(st, r, g, id, token, now).1.Accepted?
    requires claim.session == id && h.tenantOperational && h.accountActive
    ensures ValidateAccess(CreateSession(st, r, g, id, token, now).0, claim, h, later).Accepted? <==>
              later < now + st.refreshTtl && claim.user == r.user && claim.company == r.company && claim.membership == r.membership
  {
    LoginStores(st, r, g, id, token, now);
    AccessRefusals(CreateSession(st, r, g, id, token, now).0, claim, h, later);
  }

  // ----- revocations -----

  /** Who may revoke a session: its user in its company, an administrator of its company, and a
      platform administrator; the session is then revoked, no other row changes, and a refused
      request stores nothing. */
  lemma RevocationExactly(st: Store, id: SessionId, asker: Revoker, now: Time, reason: string)
    ensures var (after, outcome) := Revoke(st, id, asker, now, reason);
            (id !in st.sessions ==> outcome == Denied(SESSION_NOT_FOUND)) && (outcome.Denied? ==> after == st) &&
            (id in st.sessions ==>
              var s := st.sessions[id];
              (asker.PlatformAdmin? ==> outcome == Accepted(id)) &&
              (asker.CompanyAdmin? ==> outcome == if s.client.company == asker.company then Accepted(id) else Denied(SESSION_NOT_FOUND)) &&
              (asker.OwnUser? ==>
                outcome == if s.user == asker.user && s.client.company == asker.company then Accepted(id) else Denied(SESSION_FORBIDDEN)) &&
              (outcome.Accepted? ==>
                after == st.(sessions := st.sessions[id := if s.revokedAt.Some? then s else s.(revokedAt := Some(now), revokedReason := reason)])))
  {
    if Revoke(st, id, asker, now, reason).1.Accepted? {
      assert Revoke(st, id, asker, now, reason).0.sessions == st.sessions[id := Revoked(st.sessions[id], now, reason)];
    }
  }

  // ----- password reset -----

  /** The refusals of a reset in their order, which store nothing. */
  lemma ResetRefusals(st: Store, row: Option<ResetId>, userActive: bool, password: string, now: Time)
    requires row.Some? ==> row.value in st.resets
    ensures var (after, outcome) := ResetPassword(st, row, userActive, password, now);
            (outcome.TokenInvalid? <==> row.None?) && (!outcome.ResetDone? ==> after == st) &&
            (row.Some? ==>
              var t := st.resets[row.value];
              (outcome.TokenAlreadyUsed? <==> t.consumedAt.Some?) &&
              (outcome.TokenExpired? <==> t.consumedAt.None? && t.expiresAt <= now) &&
              (outcome.ResetNotAllowed? <==> t.consumedAt.None? && now < t.expiresAt && !userActive) &&
              (outcome == ResetDone(t.user) <==> t.consumedAt.None? && now < t.expiresAt && userActive))
  {
  }

  /** What a reset stores: the new password of that user and no other, the used token, no other
      token of the user, and the user's sessions revoked. */
  lemma ResetStores(st: Store, row: ResetId, userActive: bool, password: string, now: Time)
    requires row in st.resets && ResetPassword(st, Some(row), userActive, password, now).1.ResetDone?
    ensures var after, user := ResetPassword(st, Some(row), userActive, password, now).0, st.resets[row].user;
            after.passwords == st.passwords[user := password] &&
            row in after.resets && after.resets[row] == st.resets[row].(consumedAt := Some(now)) &&
            (forall k :: k in after.resets <==> k in st.resets && (st.resets[k].user != user || k == row)) &&
            (forall k :: k in after.resets && k != row ==> after.resets[k] == st.resets[k]) &&
            after.sessions.Keys == st.sessions.Keys &&
            forall k :: k in st.sessions ==>
              after.sessions[k] == if st.sessions[k].user == user && st.sessions[k].revokedAt.None?
                                   then st.sessions[k].(revokedAt := Some(now), revokedReason := "password_reset") else st.sessions[k]
  {
  }

  /** A requested token resets the password of its user until it expires. */
  lemma ForgotThenReset(st: Store, user: UserId, id: ResetId, token: Token, now: Time, userActive: bool, password: string, later: Time)
    requires id !in st.resets
    ensures var asked := ForgotPassword(st, Some(user), id, token, now);
            HoldsReset(asked, id, token) && asked.sessions == st.sessions && asked.passwords == st.passwords &&
            (forall k :: k in asked.resets && k != id <==> k in st.resets && st.resets[k].user != user) &&
            (ResetPassword(asked, Some(id), userActive, password, later).1 == ResetDone(user) <==> userActive && later < now + st.resetTtl)
    ensures ForgotPassword(st, None, id, token, now) == st
  {
    ResetRefusals(ForgotPassword(st, Some(user), id, token, now), Some(id), userActive, password, later);
  }

  /** A step has the effect of the request it names. */
  lemma StepsHaveTheirEffects(st: Store, id: SessionId, asker: Revoker, these: set<SessionId>, retention: nat, reason: string, now: Time)
    ensures Next(st, RevokeOne(id, asker, reason), now) == Revoke(st, id, asker, now, reason).0
    ensures forall k :: k in st.sessions ==>
              k in Next(st, RevokeSome(these, reason), now).sessions &&
              (k in these ==> Next(st, RevokeSome(these, reason), now).sessions[k].revokedAt.Some?) &&
              (k !in these ==> Next(st, RevokeSome(these, reason), now).sessions[k] == st.sessions[k])
    ensures forall k :: k in Next(st, SweepSessions(retention), now).sessions <==>
              k in st.sessions && now - retention <= st.sessions[k].expiresAt &&
              (st.sessions[k].revokedAt.Some? ==> now - retention <= st.sessions[k].revokedAt.value)
  {
  }

  // ----- passwords over runs -----

  /** The password stored for a user, if any. */
  function PasswordOf(st: Store, user: UserId): Option<string> {
    if user in st.passwords then Some(st.passwords[user]) else None
  }

  /** Only a successful reset changes a password, and only that of its user, to the one given. */
  lemma StepStoresPassword(w: World, t: TimedStep, user: UserId)
    requires Possible(w, t)
    ensures PasswordOf(After(w, t).store, user) ==
              if ResetsUser(w.store, t.step, t.now, user) then Some(t.step.password) else PasswordOf(w.store, user)
  {
    match t.step
    case Reset(_, row, active, password) =>
      if row.Some? {
        ResetRefusals(w.store, row, active, password, t.now);
        if ResetPassword(w.store, row, active, password, t.now).1.ResetDone? {
          ResetStores(w.store, row.value, active, password, t.now);
        }
      }
    case _ =>
  }

  /** Over every run the stored password of a user is the one given in the last successful reset
      of that user, or what was stored at the start when there was none. */
  lemma {:induction false} PasswordIsTheLastReset(w: World, run: seq<TimedStep>, user: UserId) returns (j: Option<nat>)
    requires IsRun(w, run)
    ensures match j
            case None =>
              PasswordOf(RunAll(w, run).store, user) == PasswordOf(w.store, user) &&
              forall i :: 0 <= i < |run| ==> !ResetsAt(w, run, i, user)
            case Some(i) =>
              i < |run| && ResetsAt(w, run, i, user) && PasswordOf(RunAll(w, run).store, user) == Some(run[i].step.password) &&
              forall k :: i < k < |run| ==> !ResetsAt(w, run, k, user)
    decreases |run|
  {
    if run == [] {
      j := None;
    } else {
      var next := After(w, run[0]);
      StepStoresPassword(w, run[0], user);
      var later := PasswordIsTheLastReset(next, run[1..], user);
      forall i | 0 < i < |run|
        ensures ResetsAt(w, run, i, user) <==> ResetsAt(next, run[1..], i - 1, user)
      {
        LaterStep(w, run, i);
      }
      LaterStep(w, run, 0);
      j := match later
        case Some(i) => Some(i + 1)
        case None => if ResetsAt(w, run, 0, user) then Some(0) else None;
    }
  }

  /** Step `i` of the run successfully resets the password of `user`. */
  predicate ResetsAt(w: World, run: seq<TimedStep>, i: nat, user: UserId)
    requires i < |run|
  {
    ResetsUser(RunAll(w, run[..i]).store, run[i].step, run[i].now, user)
  }

  lemma LaterStep(w: World, run: seq<TimedStep>, i: nat)
    requires i < |run|
    ensures i == 0 ==> RunAll(w, run[..i]) == w
    ensures i > 0 ==> RunAll(w, run[..i]) == RunAll(After(w, run[0]), run[1..][..i - 1])
  {
    if i > 0 {
      assert run[..i][1..] == run[1..][..i - 1];
    }
  }
}
