/**
 The stored rows of the billing module and the effect of one provider answer on them.

 A `State` is the part of the database the billing service owns: one license per company
 and the checkout sessions. `ApplyDetails` says what one answer of the payment provider
 does to it. The answer carries the two database lookups it triggers, because their
 result is not a function of the rows when time stamps tie; `LookedUp` says which
 results are possible.
 */
module BillingModel {
  import opened Wrappers

  type CompanyId = string
  type CheckoutId = string
  type Time = int

  /** A provider reference is trimmed and never empty when it reaches the billing service. */
  type Ref = r: string | r != "" witness "r"

  datatype Plan = Free | Basic | Pro

  function Rank(plan: Plan): nat {
    match plan
    case Free => 0
    case Basic => 1
    case Pro => 2
  }

  /** A provider status after trimming and lower-casing. */
  datatype ProviderStatus =
    | Active | Authorized | Approved
    | Cancelled | Canceled | Expired
    | Rejected | Failed | Paused | Pending | InProcess
    | Other(text: string)

  predicate IsPaidActivation(s: ProviderStatus) {
    s.Active? || s.Authorized? || s.Approved?
  }

  predicate IsDowngrade(s: ProviderStatus) {
    s.Cancelled? || s.Canceled? || s.Expired?
  }

  predicate IsNeutral(s: ProviderStatus) {
    s.Pending? || s.InProcess? || s.Rejected?
  }

  datatype LicenseStatus = TRIAL | ACTIVE | SUSPENDED | EXPIRED

  datatype BillingStatus =
    | Provider(status: ProviderStatus)
    | CustomerCancelNowPeriodActive
    | CustomerCancelPeriodEnd
    | CustomerCancelled
    | CancelledPeriodEnded
    | DowngradeEffective

  datatype License = License(
    plan: Plan,
    status: LicenseStatus,
    expiresAt: Option<Time>,
    syncEnabled: bool,
    providerLinked: bool,
    providerRef: Option<Ref>,
    periodStart: Option<Time>,
    periodEnd: Option<Time>,
    nextPayment: Option<Time>,
    cancelAtPeriodEnd: bool,
    cancelRequestedAt: Option<Time>,
    canceledAt: Option<Time>,
    pendingPlan: Option<Plan>,
    pendingRequestedAt: Option<Time>,
    billingStatus: Option<BillingStatus>)

  datatype CheckoutStatus = PENDING | COMPLETED | CANCELLED | CHECKOUT_EXPIRED | FAILED | REJECTED

  datatype Checkout = Checkout(
    company: CompanyId,
    plan: Plan,
    status: CheckoutStatus,
    providerRef: Option<Ref>,
    updatedAt: Time)

  datatype State = State(
    licenses: map<CompanyId, License>,
    checkouts: map<CheckoutId, Checkout>,
    proPriceCents: int)

  /** What the provider says about one subscription. */
  datatype Details = Details(
    ref: Ref,
    status: ProviderStatus,
    externalRef: Option<CheckoutId>,
    periodStart: Option<Time>,
    periodEnd: Option<Time>,
    nextPayment: Option<Time>,
    amountCents: Option<int>)

  /** A provider answer with the results of the lookups it triggers: the checkout session
      it resolves to, and the company whose license carries its reference. */
  datatype Answer = Answer(details: Details, checkout: Option<CheckoutId>, linked: Option<CompanyId>)

  predicate CarriesRef(st: State, k: CheckoutId, ref: Ref) {
    k in st.checkouts && st.checkouts[k].providerRef == Some(ref)
  }

  /** `found` is a possible result of the checkout lookup: the external reference when it
      names a row, otherwise a most recently updated row carrying the provider reference. */
  ghost predicate FindsCheckout(st: State, d: Details, found: Option<CheckoutId>) {
    if d.externalRef.Some? && d.externalRef.value in st.checkouts then
      found == d.externalRef
    else
      match found
      case None => forall k :: !CarriesRef(st, k, d.ref)
      case Some(k) =>
        CarriesRef(st, k, d.ref) &&
        forall other :: CarriesRef(st, other, d.ref) ==> st.checkouts[other].updatedAt <= st.checkouts[k].updatedAt
  }

  predicate LicenseCarriesRef(st: State, c: CompanyId, ref: Ref) {
    c in st.licenses && st.licenses[c].providerLinked && st.licenses[c].providerRef == Some(ref)
  }

  /** `found` is a possible result of looking a license up by provider reference. */
  ghost predicate FindsLinked(st: State, ref: Ref, found: Option<CompanyId>) {
    match found
    case None => forall c :: !LicenseCarriesRef(st, c, ref)
    case Some(c) => LicenseCarriesRef(st, c, ref)
  }

  ghost predicate LookedUp(st: State, a: Answer) {
    FindsCheckout(st, a.details, a.checkout) && FindsLinked(st, a.details.ref, a.linked)
  }

  // ----- what an answer reads -----

  function SessionOf(st: State, a: Answer): Option<Checkout> {
    if a.checkout.Some? && a.checkout.value in st.checkouts
    then Some(st.checkouts[a.checkout.value]) else None
  }

  function LicenseOf(st: State, c: CompanyId): Option<License> {
    if c in st.licenses then Some(st.licenses[c]) else None
  }

  /** The plan a company holds; a company without license counts as free. */
  function PlanOf(st: State, c: CompanyId): Plan {
    if c in st.licenses then st.licenses[c].plan else Free
  }

  function PendingOf(st: State, c: CompanyId): Option<Plan> {
    if c in st.licenses then st.licenses[c].pendingPlan else None
  }

  function RefOf(st: State, c: CompanyId): Option<Ref> {
    if c in st.licenses then st.licenses[c].providerRef else None
  }

  /** The company an answer is about. */
  function Target(st: State, a: Answer, fallback: Option<CompanyId>): Option<CompanyId> {
    match SessionOf(st, a)
    case Some(s) => Some(s.company)
    case None => fallback.OrElse(a.linked)
  }

  predicate OtherSubscription(st: State, a: Answer, c: CompanyId) {
    SessionOf(st, a).Some? && RefOf(st, c).Some? && RefOf(st, c).value != a.details.ref
  }

  predicate MatchesPendingPlan(st: State, a: Answer, c: CompanyId) {
    SessionOf(st, a).Some? && PendingOf(st, c) == Some(SessionOf(st, a).value.plan)
  }

  predicate MayTakeOver(st: State, a: Answer, c: CompanyId) {
    SessionOf(st, a).Some? &&
    var s := SessionOf(st, a).value;
    s.status.PENDING? &&
    (MatchesPendingPlan(st, a, c) || RefOf(st, c).None? || (PlanOf(st, c).Basic? && s.plan.Pro?))
  }

  /** A pending upgrade recognised by the amount the provider charges. */
  predicate AmountUpgrade(st: State, d: Details, c: CompanyId) {
    PendingOf(st, c) == Some(Pro) && PlanOf(st, c).Basic? && d.amountCents == Some(st.proPriceCents)
  }

  function ResolvedPlan(st: State, a: Answer, c: CompanyId): Option<Plan> {
    if AmountUpgrade(st, a.details, c) then Some(Pro)
    else match SessionOf(st, a)
      case Some(s) => Some(s.plan)
      case None => if PlanOf(st, c).Free? then None else Some(PlanOf(st, c))
  }

  // ----- what an answer decides -----

  datatype Verdict = IgnoreUnknown | Activate | FailCheckout | KeepUntil(end: Time) | DropToFree | Pause | Reopen

  function Judge(st: State, a: Answer, c: CompanyId, plan: Plan, now: Time): Verdict {
    var s := a.details.status;
    if IsPaidActivation(s) then
      if (OtherSubscription(st, a, c) && !MayTakeOver(st, a, c)) || plan.Free? then IgnoreUnknown else Activate
    else if SessionOf(st, a).Some? &&
            (s.Rejected? ||
             ((IsDowngrade(s) || s.Failed?) &&
              (OtherSubscription(st, a, c) || MatchesPendingPlan(st, a, c) || RefOf(st, c).None?))) then
      FailCheckout
    else if IsDowngrade(s) then
      var end := a.details.periodEnd.OrElse(if c in st.licenses then st.licenses[c].periodEnd else None);
      if end.Some? && end.value > now then KeepUntil(end.value) else DropToFree
    else if s.Paused? then Pause
    else if IsNeutral(s) then Reopen
    else IgnoreUnknown
  }

  // ----- what a decision writes -----

  function FailedCheckoutStatus(s: ProviderStatus): CheckoutStatus {
    if s.Expired? then CHECKOUT_EXPIRED
    else if s.Cancelled? || s.Canceled? then CANCELLED
    else FAILED
  }

  function ClosedCheckoutStatus(s: ProviderStatus): CheckoutStatus {
    if s.Expired? then CHECKOUT_EXPIRED else CANCELLED
  }

  /** The checkout status a decision leaves, when it writes the session at all. */
  function CheckoutStatusAfter(v: Verdict, s: ProviderStatus): Option<CheckoutStatus> {
    match v
    case IgnoreUnknown => None
    case Activate => Some(COMPLETED)
    case FailCheckout => Some(FailedCheckoutStatus(s))
    case KeepUntil(_) => Some(ClosedCheckoutStatus(s))
    case DropToFree => Some(ClosedCheckoutStatus(s))
    case Pause => Some(PENDING)
    case Reopen => Some(PENDING)
  }

  function CheckoutsAfter(st: State, a: Answer, v: Verdict, now: Time): map<CheckoutId, Checkout> {
    if SessionOf(st, a).Some? && CheckoutStatusAfter(v, a.details.status).Some? then
      st.checkouts[a.checkout.value := SessionOf(st, a).value.(
        status := CheckoutStatusAfter(v, a.details.status).value,
        providerRef := Some(a.details.ref),
        updatedAt := now)]
    else st.checkouts
  }

  /** A license row with the column defaults of the schema. */
  function BlankLicense(plan: Plan): License {
    License(plan, ACTIVE, None, true, false, None, None, None, None, false, None, None, None, None, None)
  }

  function FreeLicense(base: License, status: BillingStatus, canceledAt: Time): License {
    base.(plan := Free, status := ACTIVE, expiresAt := None, syncEnabled := true,
          providerLinked := false, providerRef := None,
          periodStart := None, periodEnd := None, nextPayment := None,
          cancelAtPeriodEnd := false, cancelRequestedAt := None, canceledAt := Some(canceledAt),
          pendingPlan := None, pendingRequestedAt := None, billingStatus := Some(status))
  }

  function ActivatedLicense(st: State, a: Answer, c: CompanyId, plan: Plan): License {
    var d := a.details;
    var base := if c in st.licenses then st.licenses[c] else BlankLicense(plan);
    var hasSession := SessionOf(st, a).Some?;
    var clearPending := base.pendingPlan.None? || hasSession ||
                        (base.pendingPlan == Some(plan) && AmountUpgrade(st, d, c));
    var clearCancel := hasSession || !base.cancelAtPeriodEnd;
    base.(plan := plan, status := ACTIVE, expiresAt := None, syncEnabled := true,
          providerLinked := true, providerRef := Some(d.ref),
          periodStart := d.periodStart, periodEnd := d.periodEnd, nextPayment := d.nextPayment,
          cancelAtPeriodEnd := if clearCancel then false else base.cancelAtPeriodEnd,
          cancelRequestedAt := if clearCancel then None else base.cancelRequestedAt,
          canceledAt := if clearCancel then None else base.canceledAt,
          pendingPlan := if clearPending then None else base.pendingPlan,
          pendingRequestedAt := if clearPending then None else base.pendingRequestedAt,
          billingStatus := Some(Provider(d.status)))
  }

  function FailedAttemptLicense(st: State, a: Answer, c: CompanyId, base: License): License {
    if MatchesPendingPlan(st, a, c) then base.(pendingPlan := None, pendingRequestedAt := None) else base
  }

  function KeptLicense(d: Details, base: License, end: Time, now: Time): License {
    base.(expiresAt := None, syncEnabled := true, providerLinked := true, providerRef := Some(d.ref),
          periodStart := d.periodStart.OrElse(base.periodStart), periodEnd := Some(end),
          nextPayment := d.nextPayment,
          cancelAtPeriodEnd := true, cancelRequestedAt := Some(now),
          billingStatus := Some(Provider(d.status)))
  }

  function PausedLicense(d: Details, base: License, now: Time): License {
    var end := d.periodEnd.OrElse(base.periodEnd);
    base.(providerLinked := true, providerRef := Some(d.ref),
          periodStart := d.periodStart.OrElse(base.periodStart),
          periodEnd := if end.Some? && end.value > now then end else base.periodEnd,
          nextPayment := d.nextPayment.OrElse(base.nextPayment),
          billingStatus := Some(Provider(Paused)))
  }

  /** The license a decision leaves. A missing row is created by the three upserts and
      left missing by the two updates. */
  function LicenseAfter(st: State, a: Answer, c: CompanyId, plan: Plan, v: Verdict, now: Time): Option<License> {
    var d := a.details;
    var row := LicenseOf(st, c);
    match v
    case IgnoreUnknown => row
    case Reopen => row
    case Activate => Some(ActivatedLicense(st, a, c, plan))
    case FailCheckout => if row.None? then None else Some(FailedAttemptLicense(st, a, c, row.value))
    case KeepUntil(end) => Some(KeptLicense(d, row.GetOr(BlankLicense(plan)), end, now))
    case DropToFree => Some(FreeLicense(row.GetOr(BlankLicense(Free)), Provider(d.status), now))
    case Pause => if row.None? then None else Some(PausedLicense(d, row.value, now))
  }

  datatype Action = Activated | Downgraded | Unchanged | IgnoredUnknown | IgnoredMissingSession

  function ActionOf(v: Verdict): Action {
    match v
    case IgnoreUnknown => IgnoredUnknown
    case Activate => Activated
    case DropToFree => Downgraded
    case _ => Unchanged
  }

  datatype Applied = Applied(state: State, action: Action, company: Option<CompanyId>, plan: Option<Plan>)

  function WithLicense(st: State, c: CompanyId, l: Option<License>): State {
    if l.Some? then st.(licenses := st.licenses[c := l.value]) else st
  }

  /** The effect of one provider answer on the stored rows, and the action reported. */
  function ApplyDetails(st: State, a: Answer, fallback: Option<CompanyId>, now: Time): Applied {
    match Target(st, a, fallback)
    case None => Applied(st, IgnoredMissingSession, None, None)
    case Some(c) =>
      match ResolvedPlan(st, a, c)
      case None => Applied(st, IgnoredMissingSession, Some(c), None)
      case Some(plan) =>
        var v := Judge(st, a, c, plan, now);
        var reported := if v.DropToFree? then Free
                        else if v.IgnoreUnknown? && IsPaidActivation(a.details.status) &&
                                OtherSubscription(st, a, c) && !MayTakeOver(st, a, c) then PlanOf(st, c)
                        else plan;
        Applied(
          WithLicense(st, c, LicenseAfter(st, a, c, plan, v, now)).(checkouts := CheckoutsAfter(st, a, v, now)),
          ActionOf(v), Some(c), Some(reported))
  }
}
