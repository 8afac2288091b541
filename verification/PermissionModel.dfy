/**
 Persisted administrator permissions: a table of rows that are active or not, and an
 audit log that records every grant, revocation, bootstrap, denial and listing.
 */
module PermissionModel {
  import opened Wrappers
  import opened Text

  type AdminId = string

  // ----- catalog -----

  datatype Risk = high | critical

  const MANAGE := "admin-permissions.manage"

  /** The risk level of a known permission key. */
  function RiskOf(key: string): Option<Risk> {
    if key == MANAGE then Some(critical)
    else if key == "tenant.deletion.read" then Some(high)
    else if key in {"tenant.deletion.request.manage", "tenant.deletion.identity.verify", "tenant.deletion.cancel",
                    "tenant.deletion.quarantine", "tenant.deletion.execute"} then Some(critical)
    else if key in {"support.session.revoke", "support.sync.force", "support.androidVersionPolicy.update", "support.push.send"} then Some(high)
    else if key in {"support.user.block", "support.user.unblock", "support.sync.conflict.resolve", "support.license.update"} then Some(critical)
    else None
  }

  predicate Known(key: string) { RiskOf(key).Some? }

  predicate Critical(key: string) { RiskOf(key) == Some(critical) || RiskOf(key) == Some(high) }

  // ----- table and log -----

  datatype Row = Row(admin: AdminId, key: string, scope: string, scopeId: string)

  datatype Code =
    | LISTED | GRANTED | REVOKED
    | ACTOR_REQUIRED | MANAGE_REQUIRED | SELF_GRANT_BLOCKED | UNSUPPORTED | VALIDATION_ERROR

  datatype BootstrapCode =
    | BOOTSTRAP_GRANTED | TARGET_REQUIRED | TARGET_NOT_FOUND | DISABLED | REASON_REQUIRED
    | PERMISSION_UNSUPPORTED | TARGET_NOT_ADMIN | ALREADY_CONFIGURED

  datatype Entry =
    | GrantEntry(actor: AdminId, row: Row)
    | RevokeEntry(actor: AdminId, row: Row, existed: bool)
    | GrantDenied(actor: AdminId, target: AdminId, key: string, code: Code)
    | RevokeDenied(actor: AdminId, target: AdminId, key: string, code: Code)
    | ListEntry(actor: AdminId, target: AdminId, count: nat)
    | ListDenied(actor: AdminId, target: AdminId, code: Code)
    | BootstrapAttempted(account: Option<AdminId>, key: string)
    | BootstrapDenied(account: Option<AdminId>, key: string, bootstrapCode: BootstrapCode)
    | BootstrapEntry(admin: AdminId, key: string)

  datatype Store = Store(table: map<Row, bool>, log: seq<Entry>)

  function ActiveRows(st: Store): set<Row> {
    set r | r in st.table && st.table[r]
  }

  /** Some active row of the administrator carries the manage key, whatever its scope. */
  predicate Manages(active: set<Row>, admin: AdminId) {
    exists r :: r in active && r.admin == admin && r.key == MANAGE
  }

  predicate HasManager(active: set<Row>) {
    exists r :: r in active && r.key == MANAGE
  }

  // ----- grant and revoke -----

  datatype Mutation = Mutation(actor: Option<string>, target: string, key: string, reason: string, scope: Option<string>, scopeId: Option<string>)

  /** The row a mutation names, after normalization. */
  function RowNamed(m: Mutation): Row {
    Row(Trim(m.target), Trim(m.key), NonBlank(m.scope).GetOr("platform"), NonBlank(m.scopeId).GetOr("*"))
  }

  function InvalidMutation(m: Mutation): Option<Code> {
    if NonBlank(m.actor).None? then Some(ACTOR_REQUIRED)
    else if Trim(m.target) == "" then Some(VALIDATION_ERROR)
    else if !Known(Trim(m.key)) then Some(UNSUPPORTED)
    else if |Trim(m.reason)| < 12 then Some(VALIDATION_ERROR)
    else None
  }

  function Logged(st: Store, e: Entry): Store {
    st.(log := st.log + [e])
  }

  function Grant(st: Store, m: Mutation): (Store, Code) {
    if InvalidMutation(m).Some? then (st, InvalidMutation(m).value)
    else
      var actor, row := NonBlank(m.actor).value, RowNamed(m);
      if !Manages(ActiveRows(st), actor) then
        (Logged(st, GrantDenied(actor, row.admin, row.key, MANAGE_REQUIRED)), MANAGE_REQUIRED)
      else if actor == row.admin && Critical(row.key) then
        (Logged(st, GrantDenied(actor, row.admin, row.key, SELF_GRANT_BLOCKED)), SELF_GRANT_BLOCKED)
      else
        (Logged(st.(table := st.table[row := true]), GrantEntry(actor, row)), GRANTED)
  }

  function Revoke(st: Store, m: Mutation): (Store, Code) {
    if InvalidMutation(m).Some? then (st, InvalidMutation(m).value)
    else
      var actor, row := NonBlank(m.actor).value, RowNamed(m);
      if !Manages(ActiveRows(st), actor) then
        (Logged(st, RevokeDenied(actor, row.admin, row.key, MANAGE_REQUIRED)), MANAGE_REQUIRED)
      else
        var existed := row in st.table && st.table[row];
        var table := if existed then st.table[row := false] else st.table;
        (Logged(st.(table := table), RevokeEntry(actor, row, existed)), REVOKED)
  }

  // ----- listings -----

  function ActiveOf(st: Store, admin: AdminId): set<Row> {
    set r | r in ActiveRows(st) && r.admin == admin
  }

  function ListOwn(st: Store, actor: Option<string>): (Store, Code) {
    if NonBlank(actor).None? then (st, ACTOR_REQUIRED)
    else
      var a := NonBlank(actor).value;
      (Logged(st, ListEntry(a, a, |ActiveOf(st, a)|)), LISTED)
  }

  function ListAdmin(st: Store, actor: Option<string>, target: AdminId): (Store, Code) {
    if NonBlank(actor).None? then (st, ACTOR_REQUIRED)
    else
      var a := NonBlank(actor).value;
      if !Manages(ActiveRows(st), a) then (Logged(st, ListDenied(a, target, MANAGE_REQUIRED)), MANAGE_REQUIRED)
      else (Logged(st, ListEntry(a, target, |ActiveOf(st, target)|)), LISTED)
  }

  // ----- bootstrap -----

  /** The account the bootstrap finds by id or e-mail. */
  datatype Account = Account(id: AdminId, isPlatformAdmin: bool, isActive: bool)

  datatype BootstrapInput = BootstrapInput(
    targetId: Option<string>, targetEmail: Option<string>, key: Option<string>, reason: Option<string>,
    enabled: bool, found: Option<Account>)

  /** The first reason to refuse a bootstrap, in the order the checks run. */
  function BootstrapRefusal(st: Store, b: BootstrapInput): Option<BootstrapCode> {
    if NonBlank(b.targetId).None? && NonBlank(b.targetEmail).None? then Some(TARGET_REQUIRED)
    else if b.found.None? then Some(TARGET_NOT_FOUND)
    else if !b.enabled then Some(DISABLED)
    else if NonBlank(b.reason).None? || |NonBlank(b.reason).value| < 12 then Some(REASON_REQUIRED)
    else if NonBlank(b.key).GetOr(MANAGE) != MANAGE then Some(PERMISSION_UNSUPPORTED)
    else if !b.found.value.isPlatformAdmin || !b.found.value.isActive then Some(TARGET_NOT_ADMIN)
    else if HasManager(ActiveRows(st)) then Some(ALREADY_CONFIGURED)
    else None
  }

  function PlatformRow(admin: AdminId, key: string): Row {
    Row(admin, key, "platform", "*")
  }

  /** Bootstrap writes two entries: the attempt, and the grant or the denial. */
  function Bootstrap(st: Store, b: BootstrapInput): (Store, BootstrapCode) {
    var key := NonBlank(b.key).GetOr(MANAGE);
    var asked := NonBlank(b.targetId).Some? || NonBlank(b.targetEmail).Some?;
    var target := if asked && b.found.Some? then Some(b.found.value.id) else None;
    var attempted := Logged(st, BootstrapAttempted(target, key));
    match BootstrapRefusal(st, b)
    case Some(code) => (Logged(attempted, BootstrapDenied(target, key, code)), code)
    case None =>
      var admin := b.found.value.id;
      (Logged(attempted.(table := st.table[PlatformRow(admin, key) := true]), BootstrapEntry(admin, key)), BOOTSTRAP_GRANTED)
  }

  // ----- steps and runs -----

  datatype Step =
    | DoGrant(grant: Mutation)
    | DoRevoke(revoke: Mutation)
    | DoListOwn(ownActor: Option<string>)
    | DoListAdmin(listActor: Option<string>, target: AdminId)
    | DoBootstrap(bootstrap: BootstrapInput)

  function Next(st: Store, step: Step): Store {
    match step
    case DoGrant(m) => Grant(st, m).0
    case DoRevoke(m) => Revoke(st, m).0
    case DoListOwn(actor) => ListOwn(st, actor).0
    case DoListAdmin(actor, target) => ListAdmin(st, actor, target).0
    case DoBootstrap(b) => Bootstrap(st, b).0
  }

  function RunAll(st: Store, run: seq<Step>): Store
    decreases |run|
  {
    if run == [] then st else RunAll(Next(st, run[0]), run[1..])
  }

  const EMPTY := Store(map[], [])
}
