/**
 What one provider answer does to the company it is about, case by case, told by the fields
 of the answer and of the stored rows. Together the cases cover every answer.
 */
module BillingOutcomes {
  import opened Wrappers
  import opened BillingModel
  import opened BillingActions
  import BillingAccess

  // ----- answers that decide nothing -----

  /** An answer about nobody, or without checkout about a company on FREE, changes nothing. */
  lemma UnresolvedAnswer(st: State, a: Answer, fallback: Option<CompanyId>, now: Time)
    ensures ApplyDetails(st, a, fallback, now).action.IgnoredMissingSession? <==>
              Target(st, a, fallback).None? || ResolvedPlan(st, a, Target(st, a, fallback).value).None?
    ensures ApplyDetails(st, a, fallback, now).action.IgnoredMissingSession? ==> ApplyDetails(st, a, fallback, now).state == st
  {
  }

  /** The answer is about `c` and stands for some plan there. */
  predicate Resolves(st: State, a: Answer, fallback: Option<CompanyId>, c: CompanyId) {
    Target(st, a, fallback) == Some(c) && ResolvedPlan(st, a, c).Some?
  }

  /** A pending or in-process notice puts its checkout back to pending and leaves the license;
      a failed one that closes no attempt, and any other word, leaves everything. */
  lemma NeutralAnswer(st: State, a: Answer, fallback: Option<CompanyId>, now: Time, c: CompanyId)
    requires Resolves(st, a, fallback, c)
    ensures var r, s := ApplyDetails(st, a, fallback, now), a.details.status;
            (s in {Pending, InProcess} ==>
              r.action.Unchanged? && r.state.licenses == st.licenses && CheckoutBecomes(st, r.state, a, PENDING, now)) &&
            (s.Other? || (s.Failed? && !BillingAccess.ClosesAttempt(st, a, c)) ==> r.action.IgnoredUnknown? && r.state == st) &&
            (s.Rejected? && SessionOf(st, a).None? ==> r.action.Unchanged? && r.state == st)
  {
  }

  /** The checkout the answer resolves to, if any, ends up with a status, the reference of the
      answer and a new time stamp; no other checkout changes. */
  predicate CheckoutBecomes(st: State, after: State, a: Answer, status: CheckoutStatus, now: Time) {
    match SessionOf(st, a)
    case None => after.checkouts == st.checkouts
    case Some(s) =>
      after.checkouts == st.checkouts[a.checkout.value := Checkout(s.company, s.plan, status, Some(a.details.ref), now)]
  }

  // ----- paid answers -----

  /** A paid answer is held back: its checkout is of another subscription than the license's and
      is closed, or neither matches the pending plan nor upgrades BASIC to PRO; or it stands for
      FREE. */
  predicate HeldBack(st: State, a: Answer, c: CompanyId) {
    (SessionOf(st, a).Some? && RefOf(st, c).Some? && RefOf(st, c) != Some(a.details.ref) &&
     var s := SessionOf(st, a).value;
     !(s.status.PENDING? && (PendingOf(st, c) == Some(s.plan) || (PlanOf(st, c).Basic? && s.plan.Pro?)))) ||
    ResolvedPlan(st, a, c) == Some(Free)
  }

  /** A paid answer takes effect exactly when it is not held back: the license then holds the
      plan, the link and the dates of the answer, its checkout is completed, and a checkout also
      withdraws a pending plan and a recorded cancel. Held back, it changes nothing. */
  lemma PaidAnswer(st: State, a: Answer, fallback: Option<CompanyId>, now: Time, c: CompanyId)
    requires Resolves(st, a, fallback, c) && a.details.status in {Active, Authorized, Approved}
    ensures var r, d := ApplyDetails(st, a, fallback, now), a.details;
            (HeldBack(st, a, c) ==> r.action.IgnoredUnknown? && r.state == st) &&
            (!HeldBack(st, a, c) ==>
              r.action.Activated? && c in r.state.licenses && CheckoutBecomes(st, r.state, a, COMPLETED, now) &&
              var l := r.state.licenses[c];
              l.plan == ResolvedPlan(st, a, c).value && l.status.ACTIVE? && l.expiresAt.None? && l.syncEnabled &&
              l.providerLinked && l.providerRef == Some(d.ref) && l.billingStatus == Some(Provider(d.status)) &&
              l.periodStart == d.periodStart && l.periodEnd == d.periodEnd && l.nextPayment == d.nextPayment)
  {
  }

  /** What becomes of a pending plan and of a recorded cancel when a paid answer takes effect. */
  lemma PaidAnswerWithdraws(st: State, a: Answer, fallback: Option<CompanyId>, now: Time, c: CompanyId)
    requires Resolves(st, a, fallback, c) && a.details.status in {Active, Authorized, Approved}
    requires c in st.licenses && !HeldBack(st, a, c)
    ensures var before, after := st.licenses[c], ApplyDetails(st, a, fallback, now).state.licenses[c];
            (SessionOf(st, a).Some? ==> after.pendingPlan.None? && after.pendingRequestedAt.None? &&
                                        !after.cancelAtPeriodEnd && after.cancelRequestedAt.None? && after.canceledAt.None?) &&
            (SessionOf(st, a).None? ==>
              after.cancelAtPeriodEnd == before.cancelAtPeriodEnd &&
              (before.cancelAtPeriodEnd ==> after.cancelRequestedAt == before.cancelRequestedAt && after.canceledAt == before.canceledAt) &&
              (!before.cancelAtPeriodEnd ==> after.cancelRequestedAt.None? && after.canceledAt.None?) &&
              after.pendingPlan == (if AmountUpgrade(st, a.details, c) then None else before.pendingPlan))
  {
  }

  // ----- failed checkout attempts -----

  /** A rejected checkout, or a cancelled, expired or failed one that only closes an attempt, is
      closed; the license loses at most the pending plan the checkout was for. */
  lemma FailedAttempt(st: State, a: Answer, fallback: Option<CompanyId>, now: Time, c: CompanyId)
    requires Resolves(st, a, fallback, c) && SessionOf(st, a).Some?
    requires a.details.status.Rejected? ||
             (a.details.status in {Cancelled, Canceled, Expired, Failed} && BillingAccess.ClosesAttempt(st, a, c))
    ensures var r, s := ApplyDetails(st, a, fallback, now), a.details.status;
            r.action.Unchanged? &&
            CheckoutBecomes(st, r.state, a, if s.Expired? then CHECKOUT_EXPIRED else if s.Rejected? || s.Failed? then FAILED else CANCELLED, now) &&
            (PendingOf(st, c) != Some(SessionOf(st, a).value.plan) ==> r.state.licenses == st.licenses) &&
            (PendingOf(st, c) == Some(SessionOf(st, a).value.plan) ==>
              r.state.licenses == st.licenses[c := st.licenses[c].(pendingPlan := None, pendingRequestedAt := None)])
  {
  }

  // ----- the end of a subscription -----

  /** The end of the paid period an answer goes by: the one it names, else the stored one. */
  function PeriodEnd(st: State, a: Answer, c: CompanyId): Option<Time> {
    match a.details.periodEnd
    case Some(end) => Some(end)
    case None => if c in st.licenses then st.licenses[c].periodEnd else None
  }

  /** The answer ends the subscription of `c` at once: it says cancelled, canceled or expired, is
      about `c`, closes no abandoned attempt, and no end lies ahead. */
  predicate EndsNow(st: State, a: Answer, fallback: Option<CompanyId>, c: CompanyId, now: Time) {
    a.details.status in {Cancelled, Canceled, Expired} && Resolves(st, a, fallback, c) &&
    !BillingAccess.ClosesAttempt(st, a, c) &&
    (PeriodEnd(st, a, c).Some? ==> PeriodEnd(st, a, c).value <= now)
  }

  /** A free license without anything of a subscription. */
  predicate Dropped(l: License, s: ProviderStatus, now: Time) {
    l.plan.Free? && l.status.ACTIVE? && l.expiresAt.None? && l.syncEnabled &&
    !l.providerLinked && l.providerRef.None? && l.periodStart.None? && l.periodEnd.None? && l.nextPayment.None? &&
    !l.cancelAtPeriodEnd && l.cancelRequestedAt.None? && l.canceledAt == Some(now) &&
    l.pendingPlan.None? && l.pendingRequestedAt.None? && l.billingStatus == Some(Provider(s))
  }

  lemma EndDrops(st: State, a: Answer, fallback: Option<CompanyId>, now: Time, c: CompanyId)
    requires c in st.licenses && EndsNow(st, a, fallback, c, now)
    ensures var r := ApplyDetails(st, a, fallback, now);
            r.action.Downgraded? && c in r.state.licenses && Dropped(r.state.licenses[c], a.details.status, now) &&
            CheckoutBecomes(st, r.state, a, if a.details.status.Expired? then CHECKOUT_EXPIRED else CANCELLED, now)
  {
  }

  lemma OnlyEndsDrop(st: State, a: Answer, fallback: Option<CompanyId>, now: Time, c: CompanyId)
    requires c in st.licenses && !EndsNow(st, a, fallback, c, now)
    ensures var r := ApplyDetails(st, a, fallback, now);
            c in r.state.licenses && (!PlanOf(st, c).Free? ==> !PlanOf(r.state, c).Free?) &&
            (r.action.Downgraded? ==> Target(st, a, fallback) != Some(c))
  {
  }

  /** An answer takes a paid plan away, and reports a downgrade, exactly when it ends the
      subscription at once; the row is then a dropped one and the checkout is closed. */
  lemma AnswerTakesPlanExactly(st: State, a: Answer, fallback: Option<CompanyId>, now: Time, c: CompanyId)
    requires c in st.licenses && !PlanOf(st, c).Free?
    ensures var r := ApplyDetails(st, a, fallback, now);
            c in r.state.licenses && (PlanOf(r.state, c).Free? <==> EndsNow(st, a, fallback, c, now)) &&
            (r.action.Downgraded? && Target(st, a, fallback) == Some(c) <==> EndsNow(st, a, fallback, c, now)) &&
            (EndsNow(st, a, fallback, c, now) ==>
              Dropped(r.state.licenses[c], a.details.status, now) &&
              CheckoutBecomes(st, r.state, a, if a.details.status.Expired? then CHECKOUT_EXPIRED else CANCELLED, now))
  {
    if EndsNow(st, a, fallback, c, now) {
      EndDrops(st, a, fallback, now, c);
    } else {
      OnlyEndsDrop(st, a, fallback, now, c);
    }
  }

  /** With an end ahead the plan stays and the cancel is recorded for that end. */
  lemma EndAheadIsRecorded(st: State, a: Answer, fallback: Option<CompanyId>, now: Time, c: CompanyId)
    requires c in st.licenses && Resolves(st, a, fallback, c) && !BillingAccess.ClosesAttempt(st, a, c)
    requires a.details.status in {Cancelled, Canceled, Expired} && PeriodEnd(st, a, c).Some? && PeriodEnd(st, a, c).value > now
    ensures var r, l, d := ApplyDetails(st, a, fallback, now), st.licenses[c], a.details;
            r.action.Unchanged? && CheckoutBecomes(st, r.state, a, if d.status.Expired? then CHECKOUT_EXPIRED else CANCELLED, now) &&
            r.state.licenses == st.licenses[c := l.(
              periodEnd := PeriodEnd(st, a, c), periodStart := if d.periodStart.Some? then d.periodStart else l.periodStart,
              nextPayment := d.nextPayment, cancelAtPeriodEnd := true, cancelRequestedAt := Some(now),
              expiresAt := None, syncEnabled := true, providerLinked := true, providerRef := Some(d.ref),
              billingStatus := Some(Provider(d.status)))]
  {
  }

  /** A paused notice links the license and takes over dates, an end only when it lies ahead;
      plan, status, pending plan and recorded cancel stay. */
  lemma PausedAnswer(st: State, a: Answer, fallback: Option<CompanyId>, now: Time, c: CompanyId)
    requires c in st.licenses && Resolves(st, a, fallback, c) && a.details.status.Paused?
    ensures var r, l, d := ApplyDetails(st, a, fallback, now), st.licenses[c], a.details;
            var end := PeriodEnd(st, a, c);
            r.action.Unchanged? && CheckoutBecomes(st, r.state, a, PENDING, now) &&
            r.state.licenses == st.licenses[c := l.(
              periodEnd := if end.Some? && end.value > now then end else l.periodEnd,
              periodStart := if d.periodStart.Some? then d.periodStart else l.periodStart,
              nextPayment := if d.nextPayment.Some? then d.nextPayment else l.nextPayment,
              providerLinked := true, providerRef := Some(d.ref), billingStatus := Some(Provider(Paused)))]
  {
  }

  // ----- over runs of notices -----

  predicate Unpaid(step: Step) {
    step.DoNotice? && step.notice.details.status !in {Active, Authorized, Approved}
  }

  predicate EndsAt(st: State, run: seq<TimedStep>, i: nat, c: CompanyId)
    requires i < |run|
  {
    run[i].step.DoNotice? && EndsNow(StateAt(st, run, i), run[i].step.notice, run[i].step.fallback, c, run[i].now)
  }

  /** One unpaid notice, at any company and in any state. */
  lemma UnpaidNoticeKeepsOrDrops(st: State, step: Step, now: Time, c: CompanyId)
    requires c in st.licenses && Unpaid(step)
    ensures var next := Next(st, step, now);
            c in next.licenses &&
            PlanOf(next, c) == if EndsNow(st, step.notice, step.fallback, c, now) then Free else PlanOf(st, c)
  {
    if PlanOf(st, c).Free? {
      FreeStaysFree(st, step.notice, step.fallback, now, c);
    } else {
      AnswerTakesPlanExactly(st, step.notice, step.fallback, now, c);
      UnpaidKeepsOrDrops(st, step.notice, step.fallback, now, c);
    }
  }

  lemma FreeStaysFree(st: State, a: Answer, fallback: Option<CompanyId>, now: Time, c: CompanyId)
    requires c in st.licenses && PlanOf(st, c).Free? && a.details.status !in {Active, Authorized, Approved}
    ensures c in ApplyDetails(st, a, fallback, now).state.licenses && PlanOf(ApplyDetails(st, a, fallback, now).state, c).Free?
  {
  }

  lemma UnpaidKeepsOrDrops(st: State, a: Answer, fallback: Option<CompanyId>, now: Time, c: CompanyId)
    requires c in st.licenses && a.details.status !in {Active, Authorized, Approved}
    ensures PlanOf(ApplyDetails(st, a, fallback, now).state, c) in {Free, PlanOf(st, c)}
  {
  }

  lemma RunStepKeepsOrDrops(st: State, run: seq<TimedStep>, i: nat, c: CompanyId)
    requires i < |run| && Unpaid(run[i].step) && c in StateAt(st, run, i).licenses
    ensures c in StateAt(st, run, i + 1).licenses
    ensures PlanOf(StateAt(st, run, i + 1), c) == if EndsAt(st, run, i, c) then Free else PlanOf(StateAt(st, run, i), c)
  {
    UnpaidNoticeKeepsOrDrops(StateAt(st, run, i), run[i].step, run[i].now, c);
  }

  /** One of the first `n` steps ends the subscription at once. */
  predicate EndedWithin(st: State, run: seq<TimedStep>, n: nat, c: CompanyId)
    requires n <= |run|
  {
    exists i :: 0 <= i < n && EndsAt(st, run, i, c)
  }

  lemma EndedWithOneMore(st: State, run: seq<TimedStep>, n: nat, c: CompanyId)
    requires n < |run|
    ensures EndedWithin(st, run, n + 1, c) <==> EndedWithin(st, run, n, c) || EndsAt(st, run, n, c)
  {
  }

  /** Over a run of unpaid notices the plan stays what it was up to the first one that ends the
      subscription at once, and is FREE from then on. */
  lemma {:induction false} PlanLastsUntilFirstEnd(st: State, run: seq<TimedStep>, n: nat, c: CompanyId)
    requires n <= |run| && c in st.licenses && forall i :: 0 <= i < n ==> Unpaid(run[i].step)
    ensures c in StateAt(st, run, n).licenses
    ensures PlanOf(StateAt(st, run, n), c) == if EndedWithin(st, run, n, c) then Free else PlanOf(st, c)
  {
    if n == 0 {
      assert StateAt(st, run, n) == st;
    } else {
      PlanLastsUntilFirstEnd(st, run, n - 1, c);
      RunStepKeepsOrDrops(st, run, n - 1, c);
      EndedWithOneMore(st, run, n - 1, c);
    }
  }
}
