/** Guarantees of sessions and password resets over whole runs from an empty store. */
module SessionRuns {
  import opened Wrappers
  import opened SessionModel

  /** The store together with its history: every session key and token generated so far, the
      user each refresh token was handed to, and the clock. */
  datatype World = World(
    store: Store, ids: set<SessionId>, tokens: set<Token>, resetTokens: set<Token>, issued: map<Token, UserId>, clock: Time)

  datatype TimedStep = At(now: Time, step: Step)

  function EmptyWorld(refreshTtl: Time, resetTtl: Time): World {
    World(Store(map[], map[], map[], refreshTtl, resetTtl), {}, {}, {}, map[], 0)
  }

  function NewTokens(step: Step): set<Token> {
    match step
    case Login(_, _, _, token) => {token}
    case Refresh(_, _, _, rotated) => {rotated}
    case _ => {}
  }

  function NewIds(step: Step): set<SessionId> {
    if step.Login? then {step.id} else {}
  }

  function NewResetTokens(step: Step): set<Token> {
    if step.Forgot? then {step.resetToken} else {}
  }

  /** The tokens a step really hands out, with the user they are handed to. */
  function HandedOut(st: Store, step: Step, now: Time): map<Token, UserId> {
    match step
    case Login(r, gates, id, token) =>
      if CreateSession(st, r, gates, id, token, now).1.Accepted? then map[token := r.user] else map[]
    case Refresh(r, gates, holder, rotated) =>
      if RefreshSession(st, r, gates, holder, rotated, now).1.Accepted? && holder.Some? && holder.value in st.sessions
      then map[rotated := st.sessions[holder.value].user] else map[]
    case _ => map[]
  }

  function After(w: World, t: TimedStep): World {
    World(Next(w.store, t.step, t.now), w.ids + NewIds(t.step), w.tokens + NewTokens(t.step), w.resetTokens + NewResetTokens(t.step),
          w.issued + HandedOut(w.store, t.step, t.now), t.now)
  }

  /** A real step: generated tokens and keys are new, the lookups by token found what is
      there, and the clock has not run back. */
  ghost predicate Possible(w: World, t: TimedStep) {
    w.clock <= t.now &&
    match t.step
    case Login(_, _, id, token) => id !in w.ids && token !in w.tokens
    case Refresh(r, _, holder, rotated) =>
      rotated !in w.tokens &&
      (if holder.None? then forall k :: !HoldsToken(w.store, k, r.token) else HoldsToken(w.store, holder.value, r.token))
    case RevokeOne(_, _, _) => true
    case RevokeSome(_, _) => true
    case SweepSessions(_) => true
    case Forgot(_, id, token) => id !in w.store.resets && token !in w.resetTokens
    case Reset(token, row, _, _) =>
      if row.None? then forall k :: !HoldsReset(w.store, k, token) else HoldsReset(w.store, row.value, token)
  }

  function RunAll(w: World, run: seq<TimedStep>): World
    decreases |run|
  {
    if run == [] then w else RunAll(After(w, run[0]), run[1..])
  }

  ghost predicate IsRun(w: World, run: seq<TimedStep>)
    decreases |run|
  {
    run == [] || (Possible(w, run[0]) && IsRun(After(w, run[0]), run[1..]))
  }

  lemma {:induction false} RunSplits(w: World, a: seq<TimedStep>, b: seq<TimedStep>)
    ensures RunAll(w, a + b) == RunAll(RunAll(w, a), b)
    ensures IsRun(w, a + b) <==> IsRun(w, a) && IsRun(RunAll(w, a), b)
    decreases |a|
  {
    if a == [] {
      assert a + b == b;
    } else {
      assert (a + b)[1..] == a[1..] + b;
      RunSplits(After(w, a[0]), a[1..], b);
    }
  }

  /** The run around step `i`: a run before it, the step, and a run after it. */
  lemma RunAround(w: World, run: seq<TimedStep>, i: nat)
    requires IsRun(w, run) && i < |run|
    ensures IsRun(w, run[..i]) && Possible(RunAll(w, run[..i]), run[i])
    ensures RunAll(w, run[..i + 1]) == After(RunAll(w, run[..i]), run[i])
    ensures IsRun(RunAll(w, run[..i + 1]), run[i + 1..])
  {
    assert run == run[..i] + run[i..];
    RunSplits(w, run[..i], run[i..]);
    assert run[..i + 1] == run[..i] + [run[i]];
    RunSplits(w, run[..i], [run[i]]);
    assert run[i..] == [run[i]] + run[i + 1..];
    assert run[i..][1..] == run[i + 1..];
    assert RunAll(RunAll(w, run[..i]), [run[i]]) == After(RunAll(w, run[..i]), run[i]) by {
      assert [run[i]][1..] == [];
    }
  }

  /** The stretch of a run between steps `i` and `j`. */
  lemma RunBetween(w: World, run: seq<TimedStep>, i: nat, j: nat)
    requires IsRun(w, run) && i <= j <= |run|
    ensures IsRun(RunAll(w, run[..i]), run[i..j]) && RunAll(RunAll(w, run[..i]), run[i..j]) == RunAll(w, run[..j])
  {
    assert run == run[..i] + run[i..];
    RunSplits(w, run[..i], run[i..]);
    assert run[i..] == run[i..j] + run[j..];
    RunSplits(RunAll(w, run[..i]), run[i..j], run[j..]);
    assert run[..j] == run[..i] + run[i..j];
    RunSplits(w, run[..i], run[i..j]);
  }

  // ----- the invariant -----

  ghost predicate SessionsOk(st: Store, tokens: set<Token>, now: Time) {
    (forall k :: k in st.sessions ==> st.sessions[k].token in tokens) &&
    (forall k, l :: k in st.sessions && l in st.sessions && k != l ==> st.sessions[k].token != st.sessions[l].token) &&
    (forall k, l :: k in st.sessions && l in st.sessions && k != l && Live(st.sessions[k], now) && Live(st.sessions[l], now) ==>
      st.sessions[k].client != st.sessions[l].client)
  }

  ghost predicate ResetsOk(st: Store, resetTokens: set<Token>) {
    (forall k :: k in st.resets ==> st.resets[k].token in resetTokens) &&
    (forall k, l :: k in st.resets && l in st.resets && k != l ==>
      st.resets[k].token != st.resets[l].token && st.resets[k].user != st.resets[l].user)
  }

  /** Every token handed out was generated, and whoever holds it is the user it was handed to. */
  ghost predicate IssuedOk(st: Store, tokens: set<Token>, issued: map<Token, UserId>) {
    issued.Keys <= tokens &&
    forall k :: k in st.sessions ==> st.sessions[k].token in issued && issued[st.sessions[k].token] == st.sessions[k].user
  }

  ghost predicate WorldOk(w: World) {
    w.store.sessions.Keys <= w.ids &&
    SessionsOk(w.store, w.tokens, w.clock) && ResetsOk(w.store, w.resetTokens) && IssuedOk(w.store, w.tokens, w.issued)
  }

  lemma SessionsOkLater(st: Store, tokens: set<Token>, now: Time, later: Time)
    requires SessionsOk(st, tokens, now) && now <= later
    ensures SessionsOk(st, tokens, later)
  {
    assert forall k :: k in st.sessions && Live(st.sessions[k], later) ==> Live(st.sessions[k], now);
  }

  lemma RevokingKeepsSessionsOk(st: Store, tokens: set<Token>, these: set<SessionId>, now: Time, reason: string)
    requires SessionsOk(st, tokens, now)
    ensures SessionsOk(RevokeThese(st, these, now, reason), tokens, now)
    ensures forall k :: k in these * st.sessions.Keys ==> !Live(RevokeThese(st, these, now, reason).sessions[k], now)
  {
    var after := RevokeThese(st, these, now, reason);
    assert forall k :: k in after.sessions && Live(after.sessions[k], now) ==> Live(st.sessions[k], now);
  }

  lemma AddingKeepsSessionsOk(st: Store, tokens: set<Token>, id: SessionId, s: Session, now: Time)
    requires SessionsOk(st, tokens, now) && id !in st.sessions && s.token !in tokens
    requires forall k :: k in st.sessions && st.sessions[k].client == s.client ==> !Live(st.sessions[k], now)
    ensures SessionsOk(st.(sessions := st.sessions[id := s]), tokens + {s.token}, now)
  {
  }

  lemma LoginKeepsSessionsOk(st: Store, tokens: set<Token>, r: LoginRequest, g: Gates, id: SessionId, token: Token, now: Time)
    requires SessionsOk(st, tokens, now) && id !in st.sessions && token !in tokens
    ensures SessionsOk(CreateSession(st, r, g, id, token, now).0, tokens + {token}, now)
  {
    if CreateSession(st, r, g, id, token, now).1.Accepted? {
      var client := Client(r.company, r.kind, r.instance.value);
      RevokingKeepsSessionsOk(st, tokens, LiveAt(st, client, now), now, "replaced_by_new_login");
      var cleared := RevokeThese(st, LiveAt(st, client, now), now, "replaced_by_new_login");
      var s := Session(r.user, r.membership, client, token, now + st.refreshTtl, None, "");
      AddingKeepsSessionsOk(cleared, tokens, id, s, now);
    }
  }

  lemma RotatingKeepsSessionsOk(st: Store, tokens: set<Token>, k: SessionId, token: Token, end: Time, now: Time)
    requires SessionsOk(st, tokens, now) && token !in tokens && k in st.sessions && Live(st.sessions[k], now)
    ensures SessionsOk(st.(sessions := st.sessions[k := st.sessions[k].(token := token, expiresAt := end)]), tokens + {token}, now)
  {
  }

  lemma RefreshKeepsSessionsOk(st: Store, tokens: set<Token>, r: RefreshRequest, g: Gates, holder: Option<SessionId>, token: Token, now: Time)
    requires SessionsOk(st, tokens, now) && token !in tokens
    ensures SessionsOk(RefreshSession(st, r, g, holder, token, now).0, tokens + {token}, now)
  {
    if holder.Some? && holder.value in st.sessions {
      RevokingKeepsSessionsOk(st, tokens, {holder.value}, now, "membership_inactive");
      if RefreshError(st.sessions[holder.value], r, g, now).None? {
        RotatingKeepsSessionsOk(st, tokens, holder.value, token, now + st.refreshTtl, now);
      }
    }
  }

  lemma ResetKeepsSessionsOk(st: Store, tokens: set<Token>, row: Option<ResetId>, userActive: bool, password: string, now: Time)
    requires SessionsOk(st, tokens, now)
    ensures SessionsOk(ResetPassword(st, row, userActive, password, now).0, tokens, now)
  {
    if row.Some? && row.value in st.resets {
      RevokingKeepsSessionsOk(st, tokens, UnrevokedOf(st, st.resets[row.value].user), now, "password_reset");
    }
  }

  lemma SweepingKeepsSessionsOk(st: Store, tokens: set<Token>, retention: nat, now: Time)
    requires SessionsOk(st, tokens, now)
    ensures SessionsOk(Sweep(st, retention, now), tokens, now)
  {
  }

  /** A sweep leaves every live session alone. */
  lemma SweepSparesLiveSessions(st: Store, retention: nat, now: Time, k: SessionId)
    requires k in st.sessions && Live(st.sessions[k], now)
    ensures k in Sweep(st, retention, now).sessions && Sweep(st, retention, now).sessions[k] == st.sessions[k]
  {
  }

  lemma StepKeepsSessionsOk(w: World, t: TimedStep)
    requires WorldOk(w) && Possible(w, t)
    ensures SessionsOk(Next(w.store, t.step, t.now), w.tokens + NewTokens(t.step), t.now)
  {
    SessionsOkLater(w.store, w.tokens, w.clock, t.now);
    assert w.tokens + {} == w.tokens;
    match t.step
    case Login(r, g, id, token) => LoginKeepsSessionsOk(w.store, w.tokens, r, g, id, token, t.now);
    case Refresh(r, g, holder, rotated) => RefreshKeepsSessionsOk(w.store, w.tokens, r, g, holder, rotated, t.now);
    case RevokeOne(session, _, reason) => RevokingKeepsSessionsOk(w.store, w.tokens, {session}, t.now, reason);
    case RevokeSome(these, why) => RevokingKeepsSessionsOk(w.store, w.tokens, these, t.now, why);
    case SweepSessions(retention) => SweepingKeepsSessionsOk(w.store, w.tokens, retention, t.now);
    case Forgot(_, _, _) =>
    case Reset(_, row, active, password) => ResetKeepsSessionsOk(w.store, w.tokens, row, active, password, t.now);
  }

  lemma ForgotKeepsResetsOk(st: Store, resetTokens: set<Token>, user: Option<UserId>, id: ResetId, token: Token, now: Time)
    requires ResetsOk(st, resetTokens) && id !in st.resets && token !in resetTokens
    ensures ResetsOk(ForgotPassword(st, user, id, token, now), resetTokens + {token})
  {
  }

  lemma StepKeepsResetsOk(w: World, t: TimedStep)
    requires ResetsOk(w.store, w.resetTokens) && Possible(w, t)
    ensures ResetsOk(Next(w.store, t.step, t.now), w.resetTokens + NewResetTokens(t.step))
  {
    match t.step
    case Forgot(user, id, token) => ForgotKeepsResetsOk(w.store, w.resetTokens, user, id, token, t.now);
    case _ =>
  }

  /** Tokens and users of the stored sessions do not change, whatever is revoked. */
  lemma RevokingKeepsIssuedOk(st: Store, tokens: set<Token>, issued: map<Token, UserId>, these: set<SessionId>, now: Time, reason: string)
    requires IssuedOk(st, tokens, issued)
    ensures IssuedOk(RevokeThese(st, these, now, reason), tokens, issued)
  {
  }

  lemma HandingOutKeepsIssuedOk(st: Store, tokens: set<Token>, issued: map<Token, UserId>, k: SessionId, s: Session)
    requires IssuedOk(st, tokens, issued) && s.token !in tokens
    ensures IssuedOk(st.(sessions := st.sessions[k := s]), tokens + {s.token}, issued + map[s.token := s.user])
  {
  }

  lemma LoginKeepsIssuedOk(w: World, r: LoginRequest, g: Gates, id: SessionId, token: Token, now: Time)
    requires IssuedOk(w.store, w.tokens, w.issued) && token !in w.tokens
    ensures IssuedOk(CreateSession(w.store, r, g, id, token, now).0, w.tokens + {token},
                     w.issued + HandedOut(w.store, Login(r, g, id, token), now))
  {
    if CreateSession(w.store, r, g, id, token, now).1.Accepted? {
      var client := Client(r.company, r.kind, r.instance.value);
      var replaced := LiveAt(w.store, client, now);
      RevokingKeepsIssuedOk(w.store, w.tokens, w.issued, replaced, now, "replaced_by_new_login");
      HandingOutKeepsIssuedOk(RevokeThese(w.store, replaced, now, "replaced_by_new_login"), w.tokens, w.issued, id,
                              Session(r.user, r.membership, client, token, now + w.store.refreshTtl, None, ""));
    }
  }

  lemma RefreshKeepsIssuedOk(w: World, r: RefreshRequest, g: Gates, holder: Option<SessionId>, token: Token, now: Time)
    requires IssuedOk(w.store, w.tokens, w.issued) && token !in w.tokens
    ensures IssuedOk(RefreshSession(w.store, r, g, holder, token, now).0, w.tokens + {token},
                     w.issued + HandedOut(w.store, Refresh(r, g, holder, token), now))
  {
    if holder.Some? && holder.value in w.store.sessions {
      var s := w.store.sessions[holder.value];
      RevokingKeepsIssuedOk(w.store, w.tokens, w.issued, {holder.value}, now, "membership_inactive");
      HandingOutKeepsIssuedOk(w.store, w.tokens, w.issued, holder.value, s.(token := token, expiresAt := now + w.store.refreshTtl));
    }
  }

  lemma StepKeepsIssuedOk(w: World, t: TimedStep)
    requires IssuedOk(w.store, w.tokens, w.issued) && Possible(w, t)
    ensures IssuedOk(Next(w.store, t.step, t.now), w.tokens + NewTokens(t.step), w.issued + HandedOut(w.store, t.step, t.now))
  {
    assert w.tokens + {} == w.tokens && w.issued + map[] == w.issued;
    match t.step
    case Login(r, g, id, token) => LoginKeepsIssuedOk(w, r, g, id, token, t.now);
    case Refresh(r, g, holder, rotated) => RefreshKeepsIssuedOk(w, r, g, holder, rotated, t.now);
    case RevokeOne(session, _, reason) => RevokingKeepsIssuedOk(w.store, w.tokens, w.issued, {session}, t.now, reason);
    case RevokeSome(these, why) => RevokingKeepsIssuedOk(w.store, w.tokens, w.issued, these, t.now, why);
    case SweepSessions(_) =>
    case Forgot(_, _, _) =>
    case Reset(_, _, _, _) =>
  }

  lemma StepKeepsIds(w: World, t: TimedStep)
    requires w.store.sessions.Keys <= w.ids
    ensures Next(w.store, t.step, t.now).sessions.Keys <= w.ids + NewIds(t.step)
  {
  }

  lemma StepKeepsOk(w: World, t: TimedStep)
    requires WorldOk(w) && Possible(w, t)
    ensures WorldOk(After(w, t))
  {
    StepKeepsIds(w, t);
    StepKeepsSessionsOk(w, t);
    StepKeepsResetsOk(w, t);
    StepKeepsIssuedOk(w, t);
  }

  lemma {:induction false} RunKeepsOk(w: World, run: seq<TimedStep>)
    requires WorldOk(w) && IsRun(w, run)
    ensures WorldOk(RunAll(w, run))
    decreases |run|
  {
    if run != [] {
      StepKeepsOk(w, run[0]);
      RunKeepsOk(After(w, run[0]), run[1..]);
    }
  }

  /** At any moment of any run at most one session per company, client kind and client
      instance is live, and each user has at most one reset row. */
  lemma OneLiveSessionPerClient(refreshTtl: Time, resetTtl: Time, run: seq<TimedStep>, now: Time, k: SessionId, l: SessionId)
    requires IsRun(EmptyWorld(refreshTtl, resetTtl), run)
    requires var w := RunAll(EmptyWorld(refreshTtl, resetTtl), run);
             w.clock <= now && k in w.store.sessions && l in w.store.sessions &&
             Live(w.store.sessions[k], now) && Live(w.store.sessions[l], now) &&
             w.store.sessions[k].client == w.store.sessions[l].client
    ensures k == l
  {
    RunKeepsOk(EmptyWorld(refreshTtl, resetTtl), run);
    var w := RunAll(EmptyWorld(refreshTtl, resetTtl), run);
    SessionsOkLater(w.store, w.tokens, w.clock, now);
  }

  lemma OneResetRowPerUser(refreshTtl: Time, resetTtl: Time, run: seq<TimedStep>, k: ResetId, l: ResetId)
    requires IsRun(EmptyWorld(refreshTtl, resetTtl), run)
    requires var resets := RunAll(EmptyWorld(refreshTtl, resetTtl), run).store.resets;
             k in resets && l in resets && resets[k].user == resets[l].user
    ensures k == l
  {
    RunKeepsOk(EmptyWorld(refreshTtl, resetTtl), run);
  }

  // ----- tokens that no longer work -----

  /** `token` has been generated, and no session that is still unrevoked holds it. */
  ghost predicate Spent(w: World, token: Token) {
    token in w.tokens && forall k :: HoldsToken(w.store, k, token) ==> w.store.sessions[k].revokedAt.Some?
  }

  lemma SpentStaysSpent(w: World, t: TimedStep, token: Token)
    requires Spent(w, token) && Possible(w, t)
    ensures Spent(After(w, t), token) && !RefreshesWith(w.store, t.step, t.now, token)
  {
    var after := Next(w.store, t.step, t.now);
    forall k | HoldsToken(after, k, token)
      ensures after.sessions[k].revokedAt.Some?
    {
      assert k in w.store.sessions;
      assert HoldsToken(w.store, k, token);
    }
  }

  lemma {:induction false} SpentForever(w: World, run: seq<TimedStep>, token: Token)
    requires IsRun(w, run) && Spent(w, token)
    ensures Spent(RunAll(w, run), token)
    decreases |run|
  {
    if run != [] {
      SpentStaysSpent(w, run[0], token);
      SpentForever(After(w, run[0]), run[1..], token);
    }
  }

  lemma RefreshSpendsToken(w: World, t: TimedStep, token: Token)
    requires WorldOk(w) && Possible(w, t) && RefreshesWith(w.store, t.step, t.now, token)
    ensures Spent(After(w, t), token)
  {
    var k := t.step.holder.value;
    assert w.store.sessions[k].token == token;
    assert After(w, t).store.sessions == w.store.sessions[k := After(w, t).store.sessions[k]];
    assert After(w, t).store.sessions[k].token == t.step.rotated != token;
  }

  /** Every refresh token succeeds in at most one refresh. */
  lemma RefreshTokenWorksOnce(w: World, run: seq<TimedStep>, i: nat, j: nat, token: Token)
    requires WorldOk(w) && IsRun(w, run) && i < j < |run|
    requires RefreshesWith(RunAll(w, run[..i]).store, run[i].step, run[i].now, token)
    ensures !RefreshesWith(RunAll(w, run[..j]).store, run[j].step, run[j].now, token)
  {
    RunAround(w, run, i);
    RunKeepsOk(w, run[..i]);
    RefreshSpendsToken(RunAll(w, run[..i]), run[i], token);
    RunBetween(w, run, i + 1, j);
    SpentForever(RunAll(w, run[..i + 1]), run[i + 1..j], token);
    RunAround(w, run, j);
    SpentStaysSpent(RunAll(w, run[..j]), run[j], token);
  }

  // ----- sessions that are over stay over -----

  /** The session with key `k` is gone, or is still stored and revoked as `s` says. */
  predicate GoneOrRevoked(w: World, k: SessionId, s: Session) {
    k in w.ids && (k in w.store.sessions ==> w.store.sessions[k] == s && s.revokedAt.Some?)
  }

  /** The session with key `k` has been opened and is not live, or gone. */
  predicate Over(w: World, k: SessionId, now: Time) {
    k in w.ids && (k in w.store.sessions ==> !Live(w.store.sessions[k], now))
  }

  /** No step brings a deleted session back, changes a revoked one, or extends one that has
      expired by the time of the step. */
  lemma OverStaysOver(w: World, t: TimedStep, k: SessionId)
    requires Possible(w, t) && k in w.ids && k in After(w, t).store.sessions
    ensures k in w.store.sessions
    ensures var before, after := w.store.sessions[k], After(w, t).store.sessions[k];
            (before.revokedAt.Some? ==> after == before) &&
            (before.expiresAt <= t.now ==> after.expiresAt == before.expiresAt)
  {
    match t.step
    case Reset(_, row, active, password) => ResetTouchesOnlyRevocation(w.store, row, active, password, t.now, k);
    case _ =>
  }

  lemma ResetTouchesOnlyRevocation(st: Store, row: Option<ResetId>, active: bool, password: string, now: Time, k: SessionId)
    ensures var after := ResetPassword(st, row, active, password, now).0;
            after.sessions.Keys == st.sessions.Keys &&
            (k in st.sessions ==> after.sessions[k] in {st.sessions[k], Revoked(st.sessions[k], now, "password_reset")})
  {
  }

  /** A session that is not live now is not live at any later moment of any run: it stays
      stored without being live until a sweep deletes it, and then stays deleted. */
  lemma {:induction false} NeverLiveAgain(w: World, run: seq<TimedStep>, k: SessionId, later: Time)
    requires IsRun(w, run) && Over(w, k, w.clock) && RunAll(w, run).clock <= later
    ensures Over(RunAll(w, run), k, later)
    decreases |run|
  {
    if run != [] {
      StepKeepsOver(w, run[0], k);
      NeverLiveAgain(After(w, run[0]), run[1..], k, later);
    }
  }

  lemma StepKeepsOver(w: World, t: TimedStep, k: SessionId)
    requires Possible(w, t) && Over(w, k, w.clock)
    ensures Over(After(w, t), k, t.now)
  {
    if k in After(w, t).store.sessions {
      OverStaysOver(w, t, k);
    }
  }

  /** A revoked session stays as it is until a sweep deletes it, and then stays deleted. */
  lemma {:induction false} RevokedForever(w: World, run: seq<TimedStep>, k: SessionId, s: Session)
    requires IsRun(w, run) && GoneOrRevoked(w, k, s)
    ensures GoneOrRevoked(RunAll(w, run), k, s)
    decreases |run|
  {
    if run != [] {
      if k in After(w, run[0]).store.sessions {
        OverStaysOver(w, run[0], k);
      }
      RevokedForever(After(w, run[0]), run[1..], k, s);
    }
  }

  // ----- password reset -----

  ghost predicate ResetSpent(w: World, token: Token) {
    token in w.resetTokens && forall k :: HoldsReset(w.store, k, token) ==> w.store.resets[k].consumedAt.Some?
  }

  lemma ResetSpentStaysSpent(w: World, t: TimedStep, token: Token)
    requires ResetSpent(w, token) && Possible(w, t)
    ensures ResetSpent(After(w, t), token) && !ResetsWith(w.store, t.step, t.now, token)
  {
    var after := Next(w.store, t.step, t.now);
    forall k | HoldsReset(after, k, token)
      ensures after.resets[k].consumedAt.Some?
    {
      assert HoldsReset(w.store, k, token);
    }
  }

  lemma {:induction false} ResetSpentForever(w: World, run: seq<TimedStep>, token: Token)
    requires IsRun(w, run) && ResetSpent(w, token)
    ensures ResetSpent(RunAll(w, run), token)
    decreases |run|
  {
    if run != [] {
      ResetSpentStaysSpent(w, run[0], token);
      ResetSpentForever(After(w, run[0]), run[1..], token);
    }
  }

  lemma ResetSpendsToken(w: World, t: TimedStep, token: Token)
    requires WorldOk(w) && Possible(w, t) && ResetsWith(w.store, t.step, t.now, token)
    ensures ResetSpent(After(w, t), token)
  {
    assert HoldsReset(w.store, t.step.row.value, token);
  }

  /** Each reset token resets a password at most once. */
  lemma ResetTokenWorksOnce(w: World, run: seq<TimedStep>, i: nat, j: nat, token: Token)
    requires WorldOk(w) && IsRun(w, run) && i < j < |run|
    requires ResetsWith(RunAll(w, run[..i]).store, run[i].step, run[i].now, token)
    ensures !ResetsWith(RunAll(w, run[..j]).store, run[j].step, run[j].now, token)
  {
    RunAround(w, run, i);
    RunKeepsOk(w, run[..i]);
    ResetSpendsToken(RunAll(w, run[..i]), run[i], token);
    RunBetween(w, run, i + 1, j);
    ResetSpentForever(RunAll(w, run[..i + 1]), run[i + 1..j], token);
    RunAround(w, run, j);
    ResetSpentStaysSpent(RunAll(w, run[..j]), run[j], token);
  }

  /** The step resets the password of `user`. */
  predicate ResetsUser(st: Store, step: Step, now: Time, user: UserId) {
    step.Reset? && ResetPassword(st, step.row, step.userActive, step.password, now).1 == ResetDone(user)
  }

  /** A successful reset revokes every session of the user and hands out no token. */
  lemma ResetRevokesAll(w: World, t: TimedStep, user: UserId)
    requires ResetsUser(w.store, t.step, t.now, user)
    ensures var after := After(w, t);
            after.tokens == w.tokens && after.store.sessions.Keys == w.store.sessions.Keys &&
            forall k :: k in w.store.sessions ==>
              after.store.sessions[k].token == w.store.sessions[k].token &&
              (w.store.sessions[k].user == user ==> after.store.sessions[k].revokedAt.Some?)
  {
  }

  /** After a successful password reset no refresh token handed to that user before it ever
      works again. */
  lemma ResetKillsRefreshTokens(w: World, run: seq<TimedStep>, i: nat, j: nat, user: UserId, token: Token)
    requires WorldOk(w) && IsRun(w, run) && i < j < |run|
    requires ResetsUser(RunAll(w, run[..i]).store, run[i].step, run[i].now, user)
    requires token in RunAll(w, run[..i]).issued && RunAll(w, run[..i]).issued[token] == user
    ensures !RefreshesWith(RunAll(w, run[..j]).store, run[j].step, run[j].now, token)
  {
    RunAround(w, run, i);
    RunKeepsOk(w, run[..i]);
    ResetRevokesAll(RunAll(w, run[..i]), run[i], user);
    assert Spent(RunAll(w, run[..i + 1]), token);
    RunBetween(w, run, i + 1, j);
    SpentForever(RunAll(w, run[..i + 1]), run[i + 1..j], token);
    RunAround(w, run, j);
    SpentStaysSpent(RunAll(w, run[..j]), run[j], token);
  }

  /** ... and no access token of a session that user had before it validates again. */
  lemma ResetKillsSessions(w: World, run: seq<TimedStep>, i: nat, j: nat, user: UserId, claim: AccessClaim, g: Gates, now: Time)
    requires WorldOk(w) && IsRun(w, run) && i < j <= |run|
    requires ResetsUser(RunAll(w, run[..i]).store, run[i].step, run[i].now, user)
    requires claim.session in RunAll(w, run[..i]).store.sessions
    requires RunAll(w, run[..i]).store.sessions[claim.session].user == user
    ensures ValidateAccess(RunAll(w, run[..j]).store, claim, g, now).Denied?
  {
    var before, after := RunAll(w, run[..i]), RunAll(w, run[..i + 1]);
    RunAround(w, run, i);
    RunKeepsOk(w, run[..i]);
    ResetLeavesRevoked(before, run[i], user, claim.session);
    RunBetween(w, run, i + 1, j);
    RevokedForever(after, run[i + 1..j], claim.session, after.store.sessions[claim.session]);
    RevokedIsDenied(RunAll(w, run[..j]), claim, after.store.sessions[claim.session], g, now);
  }

  lemma ResetLeavesRevoked(w: World, t: TimedStep, user: UserId, k: SessionId)
    requires WorldOk(w) && ResetsUser(w.store, t.step, t.now, user)
    requires k in w.store.sessions && w.store.sessions[k].user == user
    ensures k in After(w, t).store.sessions && GoneOrRevoked(After(w, t), k, After(w, t).store.sessions[k])
  {
    ResetRevokesAll(w, t, user);
  }

  lemma RevokedIsDenied(w: World, claim: AccessClaim, s: Session, g: Gates, now: Time)
    requires GoneOrRevoked(w, claim.session, s)
    ensures ValidateAccess(w.store, claim, g, now).Denied?
  {
  }

  /** Set back to `back`, the clock makes the new session of a client live beside an older one
      exactly when the client had an unrevoked session that had expired by the login but not
      by `back`: a login revokes live sessions only. */
  lemma SetBackClockRevivesExactly(st: Store, r: LoginRequest, g: Gates, id: SessionId, token: Token, login: Time, back: Time)
    requires id !in st.sessions && CreateSession(st, r, g, id, token, login).1.Accepted?
    requires back < login && back < login + st.refreshTtl
    ensures var after := CreateSession(st, r, g, id, token, login).0;
            var client := Client(r.company, r.kind, r.instance.value);
            Live(after.sessions[id], back) && after.sessions[id].client == client &&
            ((exists k :: k in after.sessions && k != id && after.sessions[k].client == client && Live(after.sessions[k], back))
             <==>
             (exists k :: k in st.sessions && st.sessions[k].client == client && st.sessions[k].revokedAt.None? &&
                          back < st.sessions[k].expiresAt <= login))
  {
    var after := CreateSession(st, r, g, id, token, login).0;
    var client := Client(r.company, r.kind, r.instance.value);
    if k :| k in after.sessions && k != id && after.sessions[k].client == client && Live(after.sessions[k], back) {
      assert k in st.sessions && k !in LiveAt(st, client, login);
    }
    if k :| k in st.sessions && st.sessions[k].client == client && st.sessions[k].revokedAt.None? &&
            back < st.sessions[k].expiresAt <= login {
      assert k !in LiveAt(st, client, login) && after.sessions[k] == st.sessions[k];
    }
  }

  /** Such a store: one session of the client, expired before the login. */
  lemma ClockMustNotRunBack() returns (st: Store, login: Time, back: Time)
    ensures back < login
    ensures forall k, l :: k in st.sessions && l in st.sessions ==> k == l
    ensures var r := LoginRequest("u", "m", "c", MOBILE_APP, Some("i"));
            var g := Gates(false, true, true, None, true);
            var after := CreateSession(st, r, g, "b", "t2", login).0;
            "a" in after.sessions && "b" in after.sessions &&
            after.sessions["a"].client == after.sessions["b"].client &&
            Live(after.sessions["a"], back) && Live(after.sessions["b"], back)
  {
    var client := Client("c", MOBILE_APP, "i");
    st := Store(map["a" := Session("u", "m", client, "t1", 10, None, "")], map[], map[], 100, 30);
    login, back := 20, 7;
    assert LiveAt(st, client, login) == {};
  }
}
