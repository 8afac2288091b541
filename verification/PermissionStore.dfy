/** The permission services over their table and log, proved against the specification. */
module PermissionStore {
  import opened Wrappers
  import opened Text
  import opened PermissionModel

  class PermissionService {
    var table: map<Row, bool>
    var log: seq<Entry>

    ghost function View(): Store
      reads this
    {
      Store(table, log)
    }

    constructor ()
      ensures View() == EMPTY
    {
      table, log := map[], [];
    }

    method Audit(e: Entry)
      modifies this`log
      ensures log == old(log) + [e]
    {
      log := log + [e];
    }

    /** Whether the administrator holds an active manage row, in any scope. */
    method HasManagePermission(admin: AdminId) returns (manages: bool)
      ensures manages == Manages(ActiveRows(View()), admin)
    {
      var own := set r | r in table && table[r] && r.admin == admin;
      manages := exists r :: r in own && r.key == MANAGE;
      assert forall r :: r in own <==> r in ActiveRows(View()) && r.admin == admin;
    }

    method GrantPermission(m: Mutation) returns (code: Code)
      modifies this
      ensures (View(), code) == Grant(old(View()), m)
    {
      var invalid := InvalidMutation(m);
      if invalid.Some? {
        return invalid.value;
      }
      var actor, row := NonBlank(m.actor).value, RowNamed(m);
      var manages := HasManagePermission(actor);
      if !manages {
        Audit(GrantDenied(actor, row.admin, row.key, MANAGE_REQUIRED));
        return MANAGE_REQUIRED;
      }
      if actor == row.admin && Critical(row.key) {
        Audit(GrantDenied(actor, row.admin, row.key, SELF_GRANT_BLOCKED));
        return SELF_GRANT_BLOCKED;
      }
      table := table[row := true];
      Audit(GrantEntry(actor, row));
      return GRANTED;
    }

    method RevokePermission(m: Mutation) returns (code: Code)
      modifies this
      ensures (View(), code) == Revoke(old(View()), m)
    {
      var invalid := InvalidMutation(m);
      if invalid.Some? {
        return invalid.value;
      }
      var actor, row := NonBlank(m.actor).value, RowNamed(m);
      var manages := HasManagePermission(actor);
      if !manages {
        Audit(RevokeDenied(actor, row.admin, row.key, MANAGE_REQUIRED));
        return MANAGE_REQUIRED;
      }
      var existed := false;
      if row in table && table[row] {
        table := table[row := false];
        existed := true;
      }
      Audit(RevokeEntry(actor, row, existed));
      return REVOKED;
    }

    method ListOwnPermissions(actor: Option<string>) returns (code: Code, rows: set<Row>)
      modifies this`log
      ensures (View(), code) == ListOwn(old(View()), actor)
      ensures rows == if code.LISTED? then ActiveOf(old(View()), NonBlank(actor).value) else {}
    {
      var a := NonBlank(actor);
      if a.None? {
        return ACTOR_REQUIRED, {};
      }
      rows := set r | r in table && table[r] && r.admin == a.value;
      assert rows == ActiveOf(View(), a.value);
      Audit(ListEntry(a.value, a.value, |rows|));
      code := LISTED;
    }

    method ListAdminPermissions(actor: Option<string>, target: AdminId) returns (code: Code, rows: set<Row>)
      modifies this`log
      ensures (View(), code) == ListAdmin(old(View()), actor, target)
      ensures rows == if code.LISTED? then ActiveOf(old(View()), target) else {}
    {
      var a := NonBlank(actor);
      if a.None? {
        return ACTOR_REQUIRED, {};
      }
      var manages := HasManagePermission(a.value);
      if !manages {
        Audit(ListDenied(a.value, target, MANAGE_REQUIRED));
        return MANAGE_REQUIRED, {};
      }
      rows := set r | r in table && table[r] && r.admin == target;
      assert rows == ActiveOf(View(), target);
      Audit(ListEntry(a.value, target, |rows|));
      code := LISTED;
    }

    method Deny(account: Option<AdminId>, key: string, code: BootstrapCode)
      modifies this`log
      ensures log == old(log) + [BootstrapDenied(account, key, code)]
    {
      Audit(BootstrapDenied(account, key, code));
    }

    method BootstrapManagePermission(b: BootstrapInput) returns (code: BootstrapCode)
      modifies this
      ensures (View(), code) == Bootstrap(old(View()), b)
    {
      var key := NonBlank(b.key).GetOr(MANAGE);
      if NonBlank(b.targetId).None? && NonBlank(b.targetEmail).None? {
        Audit(BootstrapAttempted(None, key));
        Deny(None, key, TARGET_REQUIRED);
        return TARGET_REQUIRED;
      }
      if b.found.None? {
        Audit(BootstrapAttempted(None, key));
        Deny(None, key, TARGET_NOT_FOUND);
        return TARGET_NOT_FOUND;
      }
      var account := b.found.value;
      Audit(BootstrapAttempted(Some(account.id), key));
      if !b.enabled {
        Deny(Some(account.id), key, DISABLED);
        return DISABLED;
      }
      var reason := NonBlank(b.reason);
      if reason.None? || |reason.value| < 12 {
        Deny(Some(account.id), key, REASON_REQUIRED);
        return REASON_REQUIRED;
      }
      if key != MANAGE {
        Deny(Some(account.id), key, PERMISSION_UNSUPPORTED);
        return PERMISSION_UNSUPPORTED;
      }
      if !account.isPlatformAdmin || !account.isActive {
        Deny(Some(account.id), key, TARGET_NOT_ADMIN);
        return TARGET_NOT_ADMIN;
      }
      var managers := set r | r in table && table[r] && r.key == MANAGE;
      assert managers == set r | r in ActiveRows(View()) && r.key == MANAGE;
      if managers != {} {
        assert HasManager(ActiveRows(View()));
        Deny(Some(account.id), key, ALREADY_CONFIGURED);
        return ALREADY_CONFIGURED;
      }
      assert !HasManager(ActiveRows(View())) by {
        assert forall r :: r in ActiveRows(View()) && r.key == MANAGE ==> r in managers;
      }
      table := table[PlatformRow(account.id, key) := true];
      Audit(BootstrapEntry(account.id, key));
      return BOOTSTRAP_GRANTED;
    }
  }
}
