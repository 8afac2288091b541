/** What a grant, a revocation, a listing and a bootstrap answer and write. */
module PermissionOutcomes {
  import opened Wrappers
  import opened Text
  import opened PermissionModel
  import opened PermissionRuns

  /** A request can be worked on: it names its actor and its target, a known key, and a reason of
      at least twelve characters without the white space around it. */
  predicate WellFormed(m: Mutation) {
    NonBlank(m.actor).Some? && Trim(m.target) != "" && Trim(m.key) in CATALOG && |Trim(m.reason)| >= 12
  }

  const CATALOG := {
    "admin-permissions.manage", "tenant.deletion.read", "tenant.deletion.request.manage", "tenant.deletion.identity.verify",
    "tenant.deletion.cancel", "tenant.deletion.quarantine", "tenant.deletion.execute", "support.session.revoke",
    "support.sync.force", "support.androidVersionPolicy.update", "support.push.send", "support.user.block",
    "support.user.unblock", "support.sync.conflict.resolve", "support.license.update"}

  /** The refusals of a malformed request, in their order; nothing is written or logged. */
  lemma MalformedRequests(st: Store, m: Mutation)
    ensures var code := Grant(st, m).1;
            (code.ACTOR_REQUIRED? <==> NonBlank(m.actor).None?) &&
            (code.UNSUPPORTED? <==> NonBlank(m.actor).Some? && Trim(m.target) != "" && Trim(m.key) !in CATALOG) &&
            (code.VALIDATION_ERROR? <==> NonBlank(m.actor).Some? &&
                                         (Trim(m.target) == "" || (Trim(m.key) in CATALOG && |Trim(m.reason)| < 12)))
    ensures !WellFormed(m) ==> Grant(st, m).0 == st && Revoke(st, m) == Grant(st, m)
  {
  }

  /** The row a request is about: target and key, and where no scope is given the whole platform. */
  lemma RequestedRow(m: Mutation)
    ensures RowNamed(m).admin == Trim(m.target) && RowNamed(m).key == Trim(m.key)
    ensures RowNamed(m).scope == if NonBlank(m.scope).Some? then Trim(m.scope.value) else "platform"
    ensures RowNamed(m).scopeId == if NonBlank(m.scopeId).Some? then Trim(m.scopeId.value) else "*"
  {
  }

  /** A well-formed grant goes through exactly when its actor manages permissions and is not its
      target; it then makes exactly its row active and logs itself, and otherwise logs its denial. */
  lemma GrantExactly(st: Store, m: Mutation)
    requires WellFormed(m)
    ensures var (after, code) := Grant(st, m);
            var actor, row := Trim(m.actor.value), RowNamed(m);
            (code.MANAGE_REQUIRED? <==> !Manages(ActiveRows(st), actor)) &&
            (code.SELF_GRANT_BLOCKED? <==> Manages(ActiveRows(st), actor) && actor == row.admin) &&
            (code.GRANTED? <==> Manages(ActiveRows(st), actor) && actor != row.admin) &&
            (code.GRANTED? ==> ActiveRows(after) == ActiveRows(st) + {row} && after.log == st.log + [GrantEntry(actor, row)]) &&
            (!code.GRANTED? ==> after.table == st.table && after.log == st.log + [GrantDenied(actor, row.admin, row.key, code)])
  {
  }

  /** A well-formed revocation goes through exactly when its actor manages permissions; it then
      makes exactly its row inactive and logs itself with whether the row was active. */
  lemma RevokeExactly(st: Store, m: Mutation)
    requires WellFormed(m)
    ensures var (after, code) := Revoke(st, m);
            var actor, row := Trim(m.actor.value), RowNamed(m);
            (code.MANAGE_REQUIRED? <==> !Manages(ActiveRows(st), actor)) && (code.REVOKED? <==> Manages(ActiveRows(st), actor)) &&
            (code.REVOKED? ==>
              ActiveRows(after) == ActiveRows(st) - {row} && after.log == st.log + [RevokeEntry(actor, row, row in ActiveRows(st))]) &&
            (!code.REVOKED? ==> after.table == st.table && after.log == st.log + [RevokeDenied(actor, row.admin, row.key, code)])
  {
  }

  /** Granting a row that was not active and revoking it again restores the active rows. */
  lemma GrantThenRevoke(st: Store, m: Mutation)
    requires WellFormed(m) && Grant(st, m).1.GRANTED? && RowNamed(m) !in ActiveRows(st)
    ensures Revoke(Grant(st, m).0, m).1.REVOKED? && ActiveRows(Revoke(Grant(st, m).0, m).0) == ActiveRows(st)
  {
    GrantExactly(st, m);
    var granted := Grant(st, m).0;
    var own :| own in ActiveRows(st) && own.admin == Trim(m.actor.value) && own.key == MANAGE;
    assert own in ActiveRows(granted);
    RevokeExactly(granted, m);
  }

  /** Whoever is granted manage manages permissions. */
  lemma GrantedManagerManages(st: Store, m: Mutation)
    requires WellFormed(m) && Grant(st, m).1.GRANTED? && Trim(m.key) == "admin-permissions.manage"
    ensures Manages(ActiveRows(Grant(st, m).0), Trim(m.target))
  {
    GrantExactly(st, m);
    assert RowNamed(m) in ActiveRows(Grant(st, m).0);
  }

  /** One's own permissions are listed without any, another administrator's only with manage;
      every listing and every refusal by a known actor is logged, and the table never changes. */
  lemma ListingsExactly(st: Store, actor: Option<string>, target: AdminId)
    ensures var (own, ownCode) := ListOwn(st, actor);
            var (other, code) := ListAdmin(st, actor, target);
            own.table == st.table && other.table == st.table &&
            (NonBlank(actor).None? ==> own == st && other == st && ownCode.ACTOR_REQUIRED? && code.ACTOR_REQUIRED?) &&
            (NonBlank(actor).Some? ==>
              var a := Trim(actor.value);
              ownCode.LISTED? && own.log == st.log + [ListEntry(a, a, |ActiveOf(st, a)|)] &&
              (code.LISTED? <==> Manages(ActiveRows(st), a)) && (code.MANAGE_REQUIRED? <==> !Manages(ActiveRows(st), a)) &&
              (code.LISTED? ==> other.log == st.log + [ListEntry(a, target, |ActiveOf(st, target)|)]) &&
              (code.MANAGE_REQUIRED? ==> other.log == st.log + [ListDenied(a, target, MANAGE_REQUIRED)]))
  {
  }

  /** The refusals of a bootstrap in the order they are checked. */
  lemma BootstrapRefusals(st: Store, b: BootstrapInput)
    ensures var code := Bootstrap(st, b).1;
            var named := NonBlank(b.targetId).Some? || NonBlank(b.targetEmail).Some?;
            var found := named && b.found.Some?;
            var reasoned := found && b.enabled && NonBlank(b.reason).Some? && |Trim(b.reason.value)| >= 12;
            var supported := reasoned && (NonBlank(b.key).None? || Trim(b.key.value) == "admin-permissions.manage");
            var admin := supported && b.found.value.isPlatformAdmin && b.found.value.isActive;
            (code.TARGET_REQUIRED? <==> !named) && (code.TARGET_NOT_FOUND? <==> named && !found) &&
            (code.DISABLED? <==> found && !b.enabled) && (code.REASON_REQUIRED? <==> found && b.enabled && !reasoned) &&
            (code.PERMISSION_UNSUPPORTED? <==> reasoned && !supported) && (code.TARGET_NOT_ADMIN? <==> supported && !admin) &&
            (code.ALREADY_CONFIGURED? <==> admin && HasManager(ActiveRows(st))) &&
            (code.BOOTSTRAP_GRANTED? <==> admin && !HasManager(ActiveRows(st)))
  {
  }

  /** A bootstrap logs the attempt and its result; granted, it makes exactly the platform-wide
      manage row of its target active, and denied it changes no row. */
  lemma BootstrapWrites(st: Store, b: BootstrapInput)
    ensures var (after, code) := Bootstrap(st, b);
            |after.log| == |st.log| + 2 && after.log[..|st.log|] == st.log && after.log[|st.log|].BootstrapAttempted? &&
            (code.BOOTSTRAP_GRANTED? ==>
              var row := Row(b.found.value.id, "admin-permissions.manage", "platform", "*");
              ActiveRows(after) == ActiveRows(st) + {row} && Manages(ActiveRows(after), b.found.value.id) &&
              after.log[|st.log| + 1] == BootstrapEntry(b.found.value.id, "admin-permissions.manage")) &&
            (!code.BOOTSTRAP_GRANTED? ==>
              after.table == st.table && after.log[|st.log| + 1].BootstrapDenied? && after.log[|st.log| + 1].bootstrapCode == code)
  {
    if Bootstrap(st, b).1.BOOTSTRAP_GRANTED? {
      var row := Row(b.found.value.id, "admin-permissions.manage", "platform", "*");
      assert row in ActiveRows(Bootstrap(st, b).0);
    }
  }
}
