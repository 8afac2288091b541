/**
 The owner's, the scheduler's and the administrator's actions on the billing rows, and
 the step relation they form together with account creation and provider answers. Every call is one atomic
 step with one reading of the clock.
 */
module BillingActions {
  import opened Wrappers
  import opened BillingModel

  // ----- scheduled transitions -----

  predicate PeriodEnded(l: License, now: Time) {
    l.periodEnd.None? || l.periodEnd.value <= now
  }

  function Transitioned(l: License, now: Time): License {
    if l.cancelAtPeriodEnd && PeriodEnded(l, now) then
      FreeLicense(l, l.billingStatus.GetOr(CancelledPeriodEnded), l.canceledAt.GetOr(now))
    else if l.plan.Pro? && l.pendingPlan == Some(Basic) && PeriodEnded(l, now) then
      l.(plan := Basic, status := ACTIVE, expiresAt := None, syncEnabled := true,
         pendingPlan := None, pendingRequestedAt := None, billingStatus := Some(DowngradeEffective))
    else l
  }

  function ApplyScheduled(st: State, c: CompanyId, now: Time): State {
    if c in st.licenses then WithLicense(st, c, Some(Transitioned(st.licenses[c], now))) else st
  }

  // ----- owner actions -----

  datatype Outcome =
    | Done
    | AlreadyOnPlan
    | NewCheckoutNeeded
    | LicenseNotFound
    | SubscribeUnavailable
    | ProviderFailed

  /** How the provider answers the creation of a checkout. */
  datatype CheckoutReply = Refused | WithoutUrl | Created(ref: Ref)

  function SetPending(st: State, c: CompanyId, plan: Plan, now: Time): State
    requires c in st.licenses
  {
    WithLicense(st, c, Some(st.licenses[c].(pendingPlan := Some(plan), pendingRequestedAt := Some(now))))
  }

  /** Starting a subscription to `plan`; `id` is the fresh key of the checkout row. */
  function Subscribe(st: State, c: CompanyId, plan: Plan, reply: CheckoutReply, id: CheckoutId, now: Time): (State, Outcome) {
    if c !in st.licenses then (st, LicenseNotFound)
    else if st.licenses[c].plan == plan && st.licenses[c].status.ACTIVE? then (st, AlreadyOnPlan)
    else
      match reply
      case Created(ref) =>
        (SetPending(st.(checkouts := st.checkouts[id := Checkout(c, plan, PENDING, Some(ref), now)]), c, plan, now), Done)
      case _ =>
        (st.(checkouts := st.checkouts[id := Checkout(c, plan, CANCELLED, None, now)]), SubscribeUnavailable)
  }

  predicate FuturePeriod(l: License, now: Time) {
    l.periodEnd.Some? && l.periodEnd.value > now
  }

  /** The local half of a customer cancel, after the provider has been told. */
  function CancelLocally(l: License, atOnce: bool, now: Time): License {
    if FuturePeriod(l, now) then
      l.(cancelAtPeriodEnd := true, cancelRequestedAt := Some(now), canceledAt := None,
         billingStatus := Some(if atOnce then CustomerCancelNowPeriodActive else CustomerCancelPeriodEnd))
    else FreeLicense(l, CustomerCancelled, now)
  }

  /** Customer cancel. `reply` is the provider's answer to the cancel request, `None` when
      the provider refuses; it is not read when no subscription is linked. */
  function Cancel(st: State, c: CompanyId, atOnce: bool, reply: Option<Answer>, now: Time): (State, Outcome) {
    if c !in st.licenses then (st, LicenseNotFound)
    else if st.licenses[c].providerRef.Some? && reply.None? then (st, ProviderFailed)
    else
      var told := if st.licenses[c].providerRef.Some? then ApplyDetails(st, reply.value, Some(c), now).state else st;
      if c !in told.licenses then (told, LicenseNotFound)
      else (WithLicense(told, c, Some(CancelLocally(told.licenses[c], atOnce, now))), Done)
  }

  /** Resuming a subscription. `reply` is the provider's answer to the resume request. */
  function Resume(st: State, c: CompanyId, reply: Option<Details>): (State, Outcome) {
    if c !in st.licenses then (st, LicenseNotFound)
    else
      var l := st.licenses[c];
      if l.providerRef.Some? && reply.Some? && IsPaidActivation(reply.value.status) && !l.plan.Free? then
        (WithLicense(st, c, Some(l.(cancelAtPeriodEnd := false, cancelRequestedAt := None, canceledAt := None,
                                    billingStatus := Some(Provider(reply.value.status)),
                                    nextPayment := reply.value.nextPayment))), Done)
      else (st, NewCheckoutNeeded)
  }

  /** What the provider answers during one plan change: to the cancel request, to the
      amount update, and to the creation of a checkout under the key `id`. */
  datatype ChangeReplies = ChangeReplies(
    cancel: Option<Answer>, amountAccepted: bool, checkout: CheckoutReply, id: CheckoutId)

  function ChangePlan(st: State, c: CompanyId, wanted: Plan, r: ChangeReplies, now: Time): (State, Outcome) {
    if c !in st.licenses then (st, LicenseNotFound)
    else
      var l := st.licenses[c];
      if wanted == l.plan then (st, AlreadyOnPlan)
      else if wanted.Free? then Cancel(st, c, false, r.cancel, now)
      else if l.plan.Free? then Subscribe(st, c, wanted, r.checkout, r.id, now)
      else if l.plan.Basic? then
        var asked := SetPending(st, c, Pro, now);
        if l.providerRef.Some? && r.amountAccepted then (asked, Done)
        else Subscribe(asked, c, Pro, r.checkout, r.id, now)
      else (SetPending(st, c, Basic, now), Done)
  }

  // ----- refresh -----

  predicate RefreshCandidate(st: State, k: CheckoutId, c: CompanyId, alsoCompleted: bool) {
    k in st.checkouts && st.checkouts[k].company == c && st.checkouts[k].providerRef.Some? &&
    (st.checkouts[k].status.PENDING? || (alsoCompleted && st.checkouts[k].status.COMPLETED?))
  }

  ghost predicate LatestCandidate(st: State, k: CheckoutId, c: CompanyId, alsoCompleted: bool) {
    RefreshCandidate(st, k, c, alsoCompleted) &&
    forall other :: RefreshCandidate(st, other, c, alsoCompleted) ==>
      st.checkouts[other].updatedAt <= st.checkouts[k].updatedAt
  }

  /** `ref` is a reference a refresh of `c` may ask the provider about: that of the latest
      pending checkout, else the license's own, else that of the latest pending or
      completed checkout; `None` when there is nothing to ask. */
  ghost predicate RefreshAsks(st: State, c: CompanyId, ref: Option<Ref>) {
    if exists k :: RefreshCandidate(st, k, c, false) then
      exists k :: LatestCandidate(st, k, c, false) && ref == st.checkouts[k].providerRef
    else if RefOf(st, c).Some? then ref == RefOf(st, c)
    else if exists k :: RefreshCandidate(st, k, c, true) then
      exists k :: LatestCandidate(st, k, c, true) && ref == st.checkouts[k].providerRef
    else ref.None?
  }

  /** Refresh from the provider: apply its answer about `asked`, then the scheduled
      transitions. Without anything to ask only the transitions run. */
  function Refresh(st: State, c: CompanyId, asked: Option<Ref>, reply: Option<Answer>, now: Time): (State, Outcome) {
    if asked.None? then (ApplyScheduled(st, c, now), Done)
    else if reply.None? then (st, ProviderFailed)
    else (ApplyScheduled(ApplyDetails(st, reply.value, Some(c), now).state, c, now), Done)
  }

  // ----- administrator actions that stay inside the machine -----

  const MAX_EXTENSION_DAYS := 7
  const DAY_MS := 86_400_000

  predicate ExpiredByDate(l: License, now: Time) {
    l.expiresAt.Some? && l.expiresAt.value <= now
  }

  predicate NeedsRecovery(l: License, now: Time) {
    l.status.EXPIRED? || l.status.SUSPENDED? || ExpiredByDate(l, now)
  }

  /** Emergency extension; the row is returned unchanged when the extension is blocked. */
  function Extended(l: License, days: int, now: Time): License {
    var active := l.expiresAt.Some? && l.expiresAt.value > now;
    if 1 <= days <= MAX_EXTENSION_DAYS && (active || NeedsRecovery(l, now)) then
      l.(status := if NeedsRecovery(l, now) then ACTIVE else l.status,
         expiresAt := Some((if active then l.expiresAt.value else now) + days * DAY_MS))
    else l
  }

  function Suspended(l: License): License {
    if l.status.SUSPENDED? then l else l.(status := SUSPENDED)
  }

  function Reactivated(l: License, now: Time): License {
    if l.status.SUSPENDED? && !ExpiredByDate(l, now) then l.(status := ACTIVE) else l
  }

  function Edited(st: State, c: CompanyId, edit: License -> License): State {
    if c in st.licenses then WithLicense(st, c, Some(edit(st.licenses[c]))) else st
  }

  // ----- account creation and the maintenance sweep -----

  /** The rows before any company exists. */
  function NoAccounts(proPriceCents: int): State {
    State(map[], map[], proPriceCents)
  }

  /** A new company gets a free, active license; its key is new, so an existing one is kept. */
  function Account(st: State, c: CompanyId): State {
    if c in st.licenses then st else WithLicense(st, c, Some(BlankLicense(Free)))
  }

  /** An active or trial license past its expiry date is marked expired. */
  function Swept(l: License, now: Time): License {
    if (l.status.ACTIVE? || l.status.TRIAL?) && l.expiresAt.Some? && l.expiresAt.value < now then l.(status := EXPIRED) else l
  }

  function SweepLicenses(st: State, now: Time): State {
    st.(licenses := map c | c in st.licenses :: Swept(st.licenses[c], now))
  }

  // ----- the step relation -----

  datatype Step =
    | DoCreate(company: CompanyId)
    | DoSubscribe(company: CompanyId, plan: Plan, reply: CheckoutReply, id: CheckoutId)
    | DoCancel(company: CompanyId, atOnce: bool, answer: Option<Answer>)
    | DoResume(company: CompanyId, details: Option<Details>)
    | DoChangePlan(company: CompanyId, plan: Plan, replies: ChangeReplies)
    | DoRefresh(company: CompanyId, asked: Option<Ref>, answer: Option<Answer>)
    | DoNotice(notice: Answer, fallback: Option<CompanyId>)
    | DoExtend(company: CompanyId, days: int)
    | DoSuspend(company: CompanyId)
    | DoReactivate(company: CompanyId)
    | DoSweep

  function Next(st: State, step: Step, now: Time): State {
    match step
    case DoCreate(c) => Account(st, c)
    case DoSubscribe(c, plan, reply, id) => Subscribe(st, c, plan, reply, id, now).0
    case DoCancel(c, atOnce, answer) => Cancel(st, c, atOnce, answer, now).0
    case DoResume(c, details) => Resume(st, c, details).0
    case DoChangePlan(c, plan, replies) => ChangePlan(st, c, plan, replies, now).0
    case DoRefresh(c, asked, answer) => Refresh(st, c, asked, answer, now).0
    case DoNotice(notice, fallback) => ApplyDetails(st, notice, fallback, now).state
    case DoExtend(c, days) => Edited(st, c, l => Extended(l, days, now))
    case DoSuspend(c) => Edited(st, c, Suspended)
    case DoReactivate(c) => Edited(st, c, l => Reactivated(l, now))
    case DoSweep => SweepLicenses(st, now)
  }

  /** The provider answer a step applies to the rows, if any. */
  function AppliedAnswer(st: State, step: Step): Option<Answer> {
    match step
    case DoCancel(c, _, answer) => if RefOf(st, c).Some? then answer else None
    case DoChangePlan(c, plan, r) =>
      if plan.Free? && !PlanOf(st, c).Free? && RefOf(st, c).Some? then r.cancel else None
    case DoRefresh(_, asked, answer) => if asked.Some? then answer else None
    case DoNotice(notice, _) => Some(notice)
    case _ => None
  }

  /** The company an applied answer falls back to when it resolves to no checkout. */
  function AppliedFallback(step: Step): Option<CompanyId> {
    match step
    case DoNotice(_, fallback) => fallback
    case DoCancel(c, _, _) => Some(c)
    case DoChangePlan(c, _, _) => Some(c)
    case DoRefresh(c, _, _) => Some(c)
    case _ => None
  }

  /** The key of the checkout row a step may create. */
  function NewCheckout(step: Step): Option<CheckoutId> {
    match step
    case DoSubscribe(_, _, _, id) => Some(id)
    case DoChangePlan(_, _, r) => Some(r.id)
    case _ => None
  }

  datatype TimedStep = At(now: Time, step: Step)

  /** The state after the first `n` steps of a run. */
  function StateAt(st: State, run: seq<TimedStep>, n: nat): State
    requires n <= |run|
  {
    if n == 0 then st
    else Next(StateAt(st, run, n - 1), run[n - 1].step, run[n - 1].now)
  }

  /** A run goes through the given states. */
  lemma {:induction false} RunIs(st: State, run: seq<TimedStep>, states: seq<State>)
    requires |states| == |run| + 1 && states[0] == st
    requires forall i :: 0 <= i < |run| ==> Next(states[i], run[i].step, run[i].now) == states[i + 1]
    ensures forall i :: 0 <= i <= |run| ==> StateAt(st, run, i) == states[i]
  {
    forall i | 0 <= i <= |run|
      ensures StateAt(st, run, i) == states[i]
    {
      RunIsAt(st, run, states, i);
    }
  }

  lemma {:induction false} RunIsAt(st: State, run: seq<TimedStep>, states: seq<State>, i: nat)
    requires |states| == |run| + 1 && states[0] == st && i <= |run|
    requires forall i :: 0 <= i < |run| ==> Next(states[i], run[i].step, run[i].now) == states[i + 1]
    ensures StateAt(st, run, i) == states[i]
  {
    if i > 0 {
      RunIsAt(st, run, states, i - 1);
    }
  }
}
