/** Where permissions come from, and the audit log as a faithful journal of the table. */
module PermissionRuns {
  import opened Wrappers
  import opened Text
  import opened PermissionModel

  // ----- the log as a journal -----

  /** What one log entry does to the set of active rows. */
  function Replayed(active: set<Row>, e: Entry): set<Row> {
    match e
    case GrantEntry(_, row) => active + {row}
    case RevokeEntry(_, row, _) => active - {row}
    case BootstrapEntry(admin, key) => active + {PlatformRow(admin, key)}
    case _ => active
  }

  /** The active rows the log accounts for. */
  function Replay(log: seq<Entry>): set<Row> {
    if log == [] then {} else Replayed(Replay(log[..|log| - 1]), log[|log| - 1])
  }

  lemma ReplaySnoc(log: seq<Entry>, e: Entry)
    ensures Replay(log + [e]) == Replayed(Replay(log), e)
  {
    assert (log + [e])[..|log|] == log;
  }

  /** What every logged grant and bootstrap had to satisfy when it was written: a grant was
      made by an administrator managing permissions at that moment, for a critical key not
      by its own receiver, and a bootstrap while nobody managed. */
  ghost predicate LogOk(log: seq<Entry>) {
    forall j :: 0 <= j < |log| ==>
      match log[j]
      case GrantEntry(actor, row) => Manages(Replay(log[..j]), actor) && Known(row.key) && (Critical(row.key) ==> actor != row.admin)
      case BootstrapEntry(_, key) => key == MANAGE && !HasManager(Replay(log[..j]))
      case _ => true
  }

  ghost predicate Faithful(st: Store) {
    Replay(st.log) == ActiveRows(st) && LogOk(st.log)
  }

  /** Appending an entry that satisfies its own condition and does to the table what it
      says keeps the log a faithful journal. */
  lemma AppendKeepsFaithful(st: Store, table: map<Row, bool>, e: Entry)
    requires Faithful(st)
    requires (set r | r in table && table[r]) == Replayed(ActiveRows(st), e)
    requires match e
             case GrantEntry(actor, row) => Manages(ActiveRows(st), actor) && Known(row.key) && (Critical(row.key) ==> actor != row.admin)
             case BootstrapEntry(_, key) => key == MANAGE && !HasManager(ActiveRows(st))
             case _ => true
    ensures Faithful(Store(table, st.log + [e]))
  {
    var log := st.log + [e];
    ReplaySnoc(st.log, e);
    forall j | 0 <= j < |log|
      ensures log[..j] == st.log[..j]
    {
    }
    assert st.log[..|st.log|] == st.log;
  }

  lemma GrantKeepsFaithful(st: Store, m: Mutation)
    requires Faithful(st)
    ensures Faithful(Grant(st, m).0)
  {
    if InvalidMutation(m).None? {
      var actor, row := NonBlank(m.actor).value, RowNamed(m);
      if !Manages(ActiveRows(st), actor) {
        AppendKeepsFaithful(st, st.table, GrantDenied(actor, row.admin, row.key, MANAGE_REQUIRED));
      } else if actor == row.admin && Critical(row.key) {
        AppendKeepsFaithful(st, st.table, GrantDenied(actor, row.admin, row.key, SELF_GRANT_BLOCKED));
      } else {
        AppendKeepsFaithful(st, st.table[row := true], GrantEntry(actor, row));
      }
    }
  }

  lemma RevokeKeepsFaithful(st: Store, m: Mutation)
    requires Faithful(st)
    ensures Faithful(Revoke(st, m).0)
  {
    if InvalidMutation(m).None? {
      var actor, row := NonBlank(m.actor).value, RowNamed(m);
      if !Manages(ActiveRows(st), actor) {
        AppendKeepsFaithful(st, st.table, RevokeDenied(actor, row.admin, row.key, MANAGE_REQUIRED));
      } else {
        var existed := row in st.table && st.table[row];
        AppendKeepsFaithful(st, if existed then st.table[row := false] else st.table, RevokeEntry(actor, row, existed));
      }
    }
  }

  lemma BootstrapKeepsFaithful(st: Store, b: BootstrapInput)
    requires Faithful(st)
    ensures Faithful(Bootstrap(st, b).0)
  {
    var key := NonBlank(b.key).GetOr(MANAGE);
    var asked := NonBlank(b.targetId).Some? || NonBlank(b.targetEmail).Some?;
    var target := if asked && b.found.Some? then Some(b.found.value.id) else None;
    AppendKeepsFaithful(st, st.table, BootstrapAttempted(target, key));
    var attempted := Logged(st, BootstrapAttempted(target, key));
    match BootstrapRefusal(st, b)
    case Some(code) => AppendKeepsFaithful(attempted, st.table, BootstrapDenied(target, key, code));
    case None =>
      var row := PlatformRow(b.found.value.id, key);
      AppendKeepsFaithful(attempted, st.table[row := true], BootstrapEntry(b.found.value.id, key));
  }

  lemma StepKeepsFaithful(st: Store, step: Step)
    requires Faithful(st)
    ensures Faithful(Next(st, step))
  {
    match step
    case DoGrant(m) => GrantKeepsFaithful(st, m);
    case DoRevoke(m) => RevokeKeepsFaithful(st, m);
    case DoListOwn(actor) =>
      if NonBlank(actor).Some? {
        var a := NonBlank(actor).value;
        AppendKeepsFaithful(st, st.table, ListEntry(a, a, |ActiveOf(st, a)|));
      }
    case DoListAdmin(actor, target) =>
      if NonBlank(actor).Some? {
        var a := NonBlank(actor).value;
        AppendKeepsFaithful(st, st.table, ListEntry(a, target, |ActiveOf(st, target)|));
        AppendKeepsFaithful(st, st.table, ListDenied(a, target, MANAGE_REQUIRED));
      }
    case DoBootstrap(b) => BootstrapKeepsFaithful(st, b);
  }

  lemma {:induction false} RunKeepsFaithful(st: Store, run: seq<Step>)
    requires Faithful(st)
    ensures Faithful(RunAll(st, run))
    decreases |run|
  {
    if run != [] {
      StepKeepsFaithful(st, run[0]);
      RunKeepsFaithful(Next(st, run[0]), run[1..]);
    }
  }

  /** After any run from an empty table, replaying the log rebuilds the active rows. */
  lemma LogRebuildsTable(run: seq<Step>)
    ensures Replay(RunAll(EMPTY, run).log) == ActiveRows(RunAll(EMPTY, run))
  {
    RunKeepsFaithful(EMPTY, run);
  }

  // ----- provenance -----

  /** Entry `e` activates `row`. */
  predicate Activates(e: Entry, row: Row) {
    (e.GrantEntry? && e.row == row) || (e.BootstrapEntry? && PlatformRow(e.admin, e.key) == row)
  }

  /** The last activation of an active row: nothing after it revokes the row. */
  lemma {:induction false} LastActivation(log: seq<Entry>, row: Row) returns (j: nat)
    requires row in Replay(log)
    ensures j < |log| && Activates(log[j], row)
    ensures forall i :: j < i < |log| ==> !Activates(log[i], row) && !(log[i].RevokeEntry? && log[i].row == row)
  {
    var e, init := log[|log| - 1], log[..|log| - 1];
    if Activates(e, row) {
      j := |log| - 1;
    } else {
      j := LastActivation(init, row);
    }
  }

  /** `chain` follows activators back in time: each entry of it was made by an administrator
      whose manage row, active at that moment, was activated by the next one, and the last is
      a bootstrap. */
  ghost predicate IsChain(log: seq<Entry>, chain: seq<nat>) {
    |chain| > 0 && (forall i :: 0 <= i < |chain| ==> chain[i] < |log|) &&
    log[chain[|chain| - 1]].BootstrapEntry? &&
    forall i :: 0 <= i < |chain| - 1 ==>
      chain[i + 1] < chain[i] && log[chain[i]].GrantEntry? &&
      ActivatedManager(log, chain[i], chain[i + 1], log[chain[i]].actor)
  }

  /** Entry `earlier` activated a manage row of `admin` that is active right before entry `j`. */
  ghost predicate ActivatedManager(log: seq<Entry>, j: nat, earlier: nat, admin: AdminId)
    requires j < |log| && earlier < |log|
  {
    exists row :: row in Replay(log[..j]) && row.admin == admin && row.key == MANAGE && Activates(log[earlier], row)
  }

  /** Following activators back in time from any activation ends at a bootstrap. */
  lemma {:induction false} ChainToBootstrap(log: seq<Entry>, j: nat) returns (chain: seq<nat>)
    requires LogOk(log) && j < |log| && (log[j].GrantEntry? || log[j].BootstrapEntry?)
    ensures IsChain(log, chain) && chain[0] == j
    decreases j
  {
    if log[j].BootstrapEntry? {
      chain := [j];
    } else {
      var actor := log[j].actor;
      var row :| row in Replay(log[..j]) && row.admin == actor && row.key == MANAGE;
      var earlier := LastActivation(log[..j], row);
      assert log[..j][earlier] == log[earlier];
      assert ActivatedManager(log, j, earlier, actor);
      var rest := ChainToBootstrap(log, earlier);
      chain := [j] + rest;
    }
  }

  lemma {:induction false} ActiveUntilRevoked(log: seq<Entry>, row: Row, i: nat)
    requires i < |log| && Activates(log[i], row)
    requires forall m :: i < m < |log| ==> !(log[m].RevokeEntry? && log[m].row == row)
    ensures row in Replay(log)
  {
    if i < |log| - 1 {
      ActiveUntilRevoked(log[..|log| - 1], row, i);
    }
  }

  /** Between two successful bootstraps the manage permission of the first was revoked. */
  lemma BootstrapsNeedARevocation(run: seq<Step>, i: nat, j: nat) returns (m: nat)
    requires var log := RunAll(EMPTY, run).log;
             i < j < |log| && log[i].BootstrapEntry? && log[j].BootstrapEntry?
    ensures var log := RunAll(EMPTY, run).log;
            i < m < j && log[m].RevokeEntry? && log[m].row == PlatformRow(log[i].admin, MANAGE)
  {
    RunKeepsFaithful(EMPTY, run);
    var log := RunAll(EMPTY, run).log;
    var row := PlatformRow(log[i].admin, MANAGE);
    if forall m :: i < m < j ==> !(log[m].RevokeEntry? && log[m].row == row) {
      ActiveUntilRevoked(log[..j], row, i);
      assert false;
    }
    m :| i < m < j && log[m].RevokeEntry? && log[m].row == row;
  }

  /** In every reachable state, an active permission was last activated either by bootstrap
      or by an administrator who held manage at that moment and is not its receiver, and
      following activators back ends at a bootstrap. */
  lemma EveryPermissionHasProvenance(run: seq<Step>, row: Row) returns (j: nat, chain: seq<nat>)
    requires row in ActiveRows(RunAll(EMPTY, run))
    ensures var log := RunAll(EMPTY, run).log;
            j < |log| && Activates(log[j], row) &&
            (forall i :: j < i < |log| ==> !(log[i].RevokeEntry? && log[i].row == row)) &&
            (log[j].GrantEntry? ==> Manages(Replay(log[..j]), log[j].actor) && log[j].actor != row.admin) &&
            IsChain(log, chain) && chain[0] == j
  {
    RunKeepsFaithful(EMPTY, run);
    var log := RunAll(EMPTY, run).log;
    j := LastActivation(log, row);
    chain := ChainToBootstrap(log, j);
  }

  /** Every key of the catalog is critical, so nobody can grant anything to himself. */
  lemma NobodyGrantsHimself(st: Store, m: Mutation)
    requires Grant(st, m).1.GRANTED?
    ensures Trim(m.target) != NonBlank(m.actor).value
  {
  }

  // ----- who can change the table -----

  /** Some grant or revoke changes the table. */
  ghost predicate MutationCanChange(st: Store) {
    exists m :: Grant(st, m).0.table != st.table || Revoke(st, m).0.table != st.table
  }

  /** Some bootstrap changes the table. */
  ghost predicate BootstrapCanChange(st: Store) {
    exists b :: Bootstrap(st, b).0.table != st.table
  }

  /** The row can be named by a request: its texts are trimmed and not empty. */
  predicate Nameable(row: Row) {
    Trimmed(row.admin) && Trimmed(row.key) && Trimmed(row.scope) && Trimmed(row.scopeId)
  }

  ghost predicate TableNameable(st: Store) {
    forall r :: r in st.table ==> Nameable(r)
  }

  /** Account identifiers found by a bootstrap are trimmed. */
  predicate StepNameable(step: Step) {
    step.DoBootstrap? && step.bootstrap.found.Some? ==> Trimmed(step.bootstrap.found.value.id)
  }

  lemma NamedIsNameable(m: Mutation)
    requires InvalidMutation(m).None?
    ensures Nameable(RowNamed(m))
  {
    TrimTrims(m.target);
    TrimTrims(m.key);
    assert Trim(m.key) != "";
    if m.scope.Some? { TrimTrims(m.scope.value); }
    if m.scopeId.Some? { TrimTrims(m.scopeId.value); }
  }

  lemma GrantKeepsNameable(st: Store, m: Mutation)
    requires TableNameable(st)
    ensures TableNameable(Grant(st, m).0)
  {
    if InvalidMutation(m).None? {
      NamedIsNameable(m);
    }
  }

  lemma RevokeKeepsNameable(st: Store, m: Mutation)
    requires TableNameable(st)
    ensures TableNameable(Revoke(st, m).0)
  {
  }

  lemma BootstrapKeepsNameable(st: Store, b: BootstrapInput)
    requires TableNameable(st) && (b.found.Some? ==> Trimmed(b.found.value.id))
    ensures TableNameable(Bootstrap(st, b).0)
  {
  }

  lemma StepKeepsNameable(st: Store, step: Step)
    requires TableNameable(st) && StepNameable(step)
    ensures TableNameable(Next(st, step))
  {
    match step
    case DoGrant(m) => GrantKeepsNameable(st, m);
    case DoRevoke(m) => RevokeKeepsNameable(st, m);
    case DoBootstrap(b) => BootstrapKeepsNameable(st, b);
    case _ =>
  }

  lemma {:induction false} RunKeepsNameable(st: Store, run: seq<Step>)
    requires TableNameable(st) && forall i :: 0 <= i < |run| ==> StepNameable(run[i])
    ensures TableNameable(RunAll(st, run))
    decreases |run|
  {
    if run != [] {
      StepKeepsNameable(st, run[0]);
      RunKeepsNameable(Next(st, run[0]), run[1..]);
    }
  }

  /** The request by which the holder of `row` revokes it. */
  function SelfRevocation(row: Row): Mutation {
    Mutation(Some(row.admin), row.admin, row.key, "administrative change", Some(row.scope), Some(row.scopeId))
  }

  /** A grant or revoke can change the table exactly when somebody manages permissions. */
  lemma MutationsNeedManager(st: Store)
    requires TableNameable(st)
    ensures MutationCanChange(st) <==> HasManager(ActiveRows(st))
  {
    if HasManager(ActiveRows(st)) {
      var row :| row in ActiveRows(st) && row.key == MANAGE;
      var m := SelfRevocation(row);
      TrimmedIsFixed(row.admin);
      TrimmedIsFixed(row.key);
      TrimmedIsFixed(row.scope);
      TrimmedIsFixed(row.scopeId);
      TrimmedIsFixed(m.reason);
      assert RowNamed(m) == row;
      assert !Revoke(st, m).0.table[row];
    }
  }

  /** A bootstrap can change the table exactly when nobody does. */
  lemma BootstrapNeedsNoManager(st: Store)
    ensures BootstrapCanChange(st) <==> !HasManager(ActiveRows(st))
  {
    if !HasManager(ActiveRows(st)) {
      var b := BootstrapInput(Some("root"), None, None, Some("administrative change"), true, Some(Account("root", true, true)));
      TrimmedIsFixed("root");
      TrimmedIsFixed("administrative change");
      var row := PlatformRow("root", MANAGE);
      assert row !in ActiveRows(st);
      assert Bootstrap(st, b).0.table[row];
    }
  }

  /** In every reachable state exactly one of the two routes can change the table. */
  lemma ExactlyOneRouteIsOpen(run: seq<Step>)
    requires forall i :: 0 <= i < |run| ==> StepNameable(run[i])
    ensures MutationCanChange(RunAll(EMPTY, run)) <==> !BootstrapCanChange(RunAll(EMPTY, run))
  {
    RunKeepsNameable(EMPTY, run);
    MutationsNeedManager(RunAll(EMPTY, run));
    BootstrapNeedsNoManager(RunAll(EMPTY, run));
  }

  /** A bootstrap succeeds exactly when every check passes, whatever the order they run in. */
  lemma BootstrapGrantsExactly(st: Store, b: BootstrapInput)
    ensures Bootstrap(st, b).1.BOOTSTRAP_GRANTED? <==>
              (NonBlank(b.targetId).Some? || NonBlank(b.targetEmail).Some?) &&
              b.found.Some? && b.found.value.isPlatformAdmin && b.found.value.isActive && b.enabled &&
              NonBlank(b.reason).Some? && |NonBlank(b.reason).value| >= 12 &&
              NonBlank(b.key).GetOr(MANAGE) == MANAGE && !HasManager(ActiveRows(st))
    ensures Bootstrap(st, b).1.BOOTSTRAP_GRANTED? ==> HasManager(ActiveRows(Bootstrap(st, b).0))
  {
    if BootstrapRefusal(st, b).None? {
      assert PlatformRow(b.found.value.id, MANAGE) in ActiveRows(Bootstrap(st, b).0);
    }
  }
}
