/** Who can raise a company's plan, over single steps and over whole runs. */
module BillingPlans {
  import opened Wrappers
  import opened BillingModel
  import opened BillingActions

  /** The answer pays for `plan` at company `c`: it reports a paid subscription, it is about
      `c`, and `plan` is that of the checkout it resolves to or a pending PRO upgrade
      recognised by its price. */
  predicate PaysFor(st: State, a: Answer, fallback: Option<CompanyId>, c: CompanyId, plan: Plan) {
    IsPaidActivation(a.details.status) && Target(st, a, fallback) == Some(c) &&
    ((SessionOf(st, a).Some? && SessionOf(st, a).value.company == c && SessionOf(st, a).value.plan == plan) ||
     (AmountUpgrade(st, a.details, c) && plan.Pro?))
  }

  /** An answer raises a plan only by paying for it, and then clears the pending plan. */
  lemma AnswerRaisesOnlyWhenPaid(st: State, a: Answer, fallback: Option<CompanyId>, now: Time, c: CompanyId)
    ensures var after := ApplyDetails(st, a, fallback, now).state;
            Rank(PlanOf(after, c)) > Rank(PlanOf(st, c)) ==>
              PaysFor(st, a, fallback, c, PlanOf(after, c)) && PendingOf(after, c).None?
  {
  }

  lemma SubscribeKeepsPlan(st: State, c: CompanyId, plan: Plan, reply: CheckoutReply, id: CheckoutId, now: Time, d: CompanyId)
    ensures PlanOf(Subscribe(st, c, plan, reply, id, now).0, d) == PlanOf(st, d)
  {
  }

  lemma CancelRaisesOnlyWhenPaid(st: State, c: CompanyId, atOnce: bool, reply: Option<Answer>, now: Time, d: CompanyId)
    ensures var after := Cancel(st, c, atOnce, reply, now).0;
            Rank(PlanOf(after, d)) > Rank(PlanOf(st, d)) ==>
              RefOf(st, c).Some? && reply.Some? && PaysFor(st, reply.value, Some(c), d, PlanOf(after, d))
  {
    if reply.Some? {
      AnswerRaisesOnlyWhenPaid(st, reply.value, Some(c), now, d);
    }
  }

  lemma ChangePlanRaisesOnlyWhenPaid(st: State, c: CompanyId, plan: Plan, q: ChangeReplies, now: Time, d: CompanyId)
    ensures var after := ChangePlan(st, c, plan, q, now).0;
            Rank(PlanOf(after, d)) > Rank(PlanOf(st, d)) ==>
              plan.Free? && !PlanOf(st, c).Free? && RefOf(st, c).Some? && q.cancel.Some? &&
              PaysFor(st, q.cancel.value, Some(c), d, PlanOf(after, d))
  {
    CancelRaisesOnlyWhenPaid(st, c, false, q.cancel, now, d);
    SubscribeKeepsPlan(st, c, plan, q.checkout, q.id, now, d);
    if c in st.licenses {
      SubscribeKeepsPlan(SetPending(st, c, Pro, now), c, Pro, q.checkout, q.id, now, d);
    }
  }

  lemma ScheduledNeverRaises(st: State, c: CompanyId, now: Time, d: CompanyId)
    ensures Rank(PlanOf(ApplyScheduled(st, c, now), d)) <= Rank(PlanOf(st, d))
    ensures PendingOf(st, d).None? ==> PlanOf(ApplyScheduled(st, c, now), d) in {Free, PlanOf(st, d)}
  {
  }

  lemma RefreshRaisesOnlyWhenPaid(st: State, c: CompanyId, asked: Option<Ref>, reply: Option<Answer>, now: Time, d: CompanyId)
    ensures var after := Refresh(st, c, asked, reply, now).0;
            Rank(PlanOf(after, d)) > Rank(PlanOf(st, d)) ==>
              asked.Some? && reply.Some? && PaysFor(st, reply.value, Some(c), d, PlanOf(after, d))
  {
    if asked.Some? && reply.Some? {
      AnswerRaisesOnlyWhenPaid(st, reply.value, Some(c), now, d);
      ScheduledNeverRaises(ApplyDetails(st, reply.value, Some(c), now).state, c, now, d);
    } else {
      ScheduledNeverRaises(st, c, now, d);
    }
  }

  lemma AdminStepsKeepPlans(st: State, c: CompanyId, edit: License -> License, d: CompanyId)
    requires forall l: License :: edit(l).plan == l.plan && edit(l).pendingPlan == l.pendingPlan
    ensures PlanOf(Edited(st, c, edit), d) == PlanOf(st, d)
    ensures PendingOf(Edited(st, c, edit), d) == PendingOf(st, d)
    ensures Edited(st, c, edit).checkouts == st.checkouts
  {
  }

  /** In every state and every step, a plan rises only because the step applies a paid
      answer that pays for exactly the plan reached. */
  lemma PlanRisesOnlyWhenPaid(st: State, step: Step, now: Time, c: CompanyId)
    requires Rank(PlanOf(Next(st, step, now), c)) > Rank(PlanOf(st, c))
    ensures AppliedAnswer(st, step).Some?
    ensures PaysFor(st, AppliedAnswer(st, step).value, AppliedFallback(step), c, PlanOf(Next(st, step, now), c))
  {
    match step
    case DoSubscribe(d, plan, reply, id) => SubscribeKeepsPlan(st, d, plan, reply, id, now, c);
    case DoCancel(d, atOnce, answer) => CancelRaisesOnlyWhenPaid(st, d, atOnce, answer, now, c);
    case DoChangePlan(d, plan, q) => ChangePlanRaisesOnlyWhenPaid(st, d, plan, q, now, c);
    case DoRefresh(d, asked, answer) => RefreshRaisesOnlyWhenPaid(st, d, asked, answer, now, c);
    case DoNotice(a, fallback) => AnswerRaisesOnlyWhenPaid(st, a, fallback, now, c);
    case DoResume(d, details) =>
    case DoExtend(d, days) => AdminStepsKeepPlans(st, d, l => Extended(l, days, now), c);
    case DoSuspend(d) => AdminStepsKeepPlans(st, d, Suspended, c);
    case DoReactivate(d) => AdminStepsKeepPlans(st, d, l => Reactivated(l, now), c);
    case DoCreate(d) =>
    case DoSweep =>
  }

  /** The two license-creating arms of a downgrade are dead: without a license, an answer
      that gets that far only closes the checkout attempt. */
  lemma DowngradeNeverCreatesLicense(st: State, a: Answer, fallback: Option<CompanyId>, c: CompanyId, plan: Plan, now: Time)
    requires c !in st.licenses && Target(st, a, fallback) == Some(c) && ResolvedPlan(st, a, c) == Some(plan)
    requires IsDowngrade(a.details.status)
    ensures Judge(st, a, c, plan, now).FailCheckout?
    ensures ApplyDetails(st, a, fallback, now).state.licenses == st.licenses
  {
    assert SessionOf(st, a).Some?;
  }

  // ----- over whole runs -----

  /** The rank of the plan the owner of `c` asks for in a step. */
  function RequestedRank(step: Step, c: CompanyId): nat {
    match step
    case DoSubscribe(d, plan, _, _) => if d == c then Rank(plan) else 0
    case DoChangePlan(d, plan, _) => if d == c then Rank(plan) else 0
    case _ => 0
  }

  function Max(a: nat, b: nat): nat { if a < b then b else a }

  /** The highest plan rank the owner of `c` asked for in the first `n` steps. */
  function HighestRequest(run: seq<TimedStep>, n: nat, c: CompanyId): nat
    requires n <= |run|
  {
    if n == 0 then 0 else Max(HighestRequest(run, n - 1, c), RequestedRank(run[n - 1].step, c))
  }

  /** Nothing stored for `c` names a plan above rank `r`. */
  ghost predicate Within(st: State, c: CompanyId, r: nat) {
    Rank(PlanOf(st, c)) <= r &&
    (PendingOf(st, c).Some? ==> Rank(PendingOf(st, c).value) <= r) &&
    (forall k :: k in st.checkouts && st.checkouts[k].company == c ==> Rank(st.checkouts[k].plan) <= r)
  }

  /** What account creation is for: the new company starts free, with nothing pending, linked or
      asked for, and every license and checkout of the others is left alone. */
  lemma AccountStartsFree(st: State, c: CompanyId, d: CompanyId)
    requires c !in st.licenses && forall k :: k in st.checkouts ==> st.checkouts[k].company != c
    ensures var after := Account(st, c);
            Within(after, c, 0) && c in after.licenses && PlanOf(after, c).Free? && RefOf(after, c).None? &&
            after.checkouts == st.checkouts && (d != c ==> LicenseOf(after, d) == LicenseOf(st, d))
  {
  }

  /** An answer asks for nothing new: it withdraws or keeps a pending plan, and changes
      neither company nor plan of a checkout session. */
  lemma AnswerKeepsRequests(st: State, a: Answer, fallback: Option<CompanyId>, now: Time, c: CompanyId)
    ensures var after := ApplyDetails(st, a, fallback, now).state;
            PendingOf(after, c) in {None, PendingOf(st, c)} && after.checkouts.Keys == st.checkouts.Keys &&
            forall k :: k in after.checkouts ==>
              after.checkouts[k].company == st.checkouts[k].company && after.checkouts[k].plan == st.checkouts[k].plan
  {
  }

  lemma AnswerStaysWithin(st: State, a: Answer, fallback: Option<CompanyId>, now: Time, c: CompanyId, r: nat)
    requires Within(st, c, r)
    ensures Within(ApplyDetails(st, a, fallback, now).state, c, r)
  {
    AnswerRaisesOnlyWhenPaid(st, a, fallback, now, c);
    AnswerKeepsRequests(st, a, fallback, now, c);
  }

  lemma SubscribeStaysWithin(st: State, d: CompanyId, plan: Plan, reply: CheckoutReply, id: CheckoutId, now: Time, c: CompanyId, r: nat)
    requires Within(st, c, r) && (d == c ==> Rank(plan) <= r)
    ensures Within(Subscribe(st, d, plan, reply, id, now).0, c, r)
  {
  }

  lemma LocalCancelStaysWithin(st: State, d: CompanyId, atOnce: bool, now: Time, c: CompanyId, r: nat)
    requires Within(st, c, r) && d in st.licenses
    ensures Within(WithLicense(st, d, Some(CancelLocally(st.licenses[d], atOnce, now))), c, r)
  {
  }

  lemma CancelStaysWithin(st: State, d: CompanyId, atOnce: bool, reply: Option<Answer>, now: Time, c: CompanyId, r: nat)
    requires Within(st, c, r)
    ensures Within(Cancel(st, d, atOnce, reply, now).0, c, r)
  {
    if d in st.licenses {
      var told := st;
      if st.licenses[d].providerRef.Some? && reply.Some? {
        AnswerStaysWithin(st, reply.value, Some(d), now, c, r);
        told := ApplyDetails(st, reply.value, Some(d), now).state;
      }
      if d in told.licenses {
        LocalCancelStaysWithin(told, d, atOnce, now, c, r);
      }
    }
  }

  lemma ChangePlanStaysWithin(st: State, d: CompanyId, plan: Plan, q: ChangeReplies, now: Time, c: CompanyId, r: nat)
    requires Within(st, c, r) && (d == c ==> Rank(plan) <= r)
    ensures Within(ChangePlan(st, d, plan, q, now).0, c, r)
  {
    CancelStaysWithin(st, d, false, q.cancel, now, c, r);
    SubscribeStaysWithin(st, d, plan, q.checkout, q.id, now, c, r);
    if d in st.licenses && plan.Pro? {
      var asked := SetPending(st, d, Pro, now);
      assert Within(asked, c, r);
      SubscribeStaysWithin(asked, d, Pro, q.checkout, q.id, now, c, r);
    }
  }

  lemma ScheduledStaysWithin(st: State, d: CompanyId, now: Time, c: CompanyId, r: nat)
    requires Within(st, c, r)
    ensures Within(ApplyScheduled(st, d, now), c, r)
  {
  }

  lemma RefreshStaysWithin(st: State, d: CompanyId, asked: Option<Ref>, reply: Option<Answer>, now: Time, c: CompanyId, r: nat)
    requires Within(st, c, r)
    ensures Within(Refresh(st, d, asked, reply, now).0, c, r)
  {
    if asked.Some? && reply.Some? {
      AnswerStaysWithin(st, reply.value, Some(d), now, c, r);
      ScheduledStaysWithin(ApplyDetails(st, reply.value, Some(d), now).state, d, now, c, r);
    } else {
      ScheduledStaysWithin(st, d, now, c, r);
    }
  }

  lemma StepStaysWithin(st: State, step: Step, now: Time, c: CompanyId, r: nat)
    requires Within(st, c, r) && RequestedRank(step, c) <= r
    ensures Within(Next(st, step, now), c, r)
  {
    match step
    case DoSubscribe(d, plan, reply, id) => SubscribeStaysWithin(st, d, plan, reply, id, now, c, r);
    case DoCancel(d, atOnce, answer) => CancelStaysWithin(st, d, atOnce, answer, now, c, r);
    case DoChangePlan(d, plan, q) => ChangePlanStaysWithin(st, d, plan, q, now, c, r);
    case DoRefresh(d, asked, answer) => RefreshStaysWithin(st, d, asked, answer, now, c, r);
    case DoNotice(a, fallback) => AnswerStaysWithin(st, a, fallback, now, c, r);
    case DoResume(d, details) =>
    case DoExtend(d, days) => AdminStepsKeepPlans(st, d, l => Extended(l, days, now), c);
    case DoSuspend(d) => AdminStepsKeepPlans(st, d, Suspended, c);
    case DoReactivate(d) => AdminStepsKeepPlans(st, d, l => Reactivated(l, now), c);
    case DoCreate(d) =>
    case DoSweep =>
  }

  lemma {:induction false} RunStaysWithin(st: State, run: seq<TimedStep>, n: nat, c: CompanyId)
    requires n <= |run| && Within(st, c, 0)
    ensures Within(StateAt(st, run, n), c, HighestRequest(run, n, c))
  {
    if n > 0 {
      RunStaysWithin(st, run, n - 1, c);
      StepStaysWithin(StateAt(st, run, n - 1), run[n - 1].step, run[n - 1].now, c, HighestRequest(run, n, c));
    }
  }

  /** From the first account on, no company holds, has pending or has a checkout for a plan
      above the highest one its owner has asked for so far. */
  lemma PlanNeverAboveRequests(proPriceCents: int, run: seq<TimedStep>, n: nat, c: CompanyId)
    requires n <= |run|
    ensures var st := StateAt(NoAccounts(proPriceCents), run, n);
            Within(st, c, HighestRequest(run, n, c)) && Rank(PlanOf(st, c)) <= HighestRequest(run, n, c)
  {
    RunStaysWithin(NoAccounts(proPriceCents), run, n, c);
  }

  /** Whenever a company holds a paid plan after a run in which it started without one, some
      step of the run applied a paid answer that paid for that plan or a higher one. */
  lemma {:induction false} PaidPlanWasPaidFor(st: State, run: seq<TimedStep>, n: nat, c: CompanyId) returns (i: nat)
    requires n <= |run| && PlanOf(st, c).Free? && !PlanOf(StateAt(st, run, n), c).Free?
    ensures i < n
    ensures var before := StateAt(st, run, i);
            var reached := PlanOf(StateAt(st, run, i + 1), c);
            Rank(reached) >= Rank(PlanOf(StateAt(st, run, n), c)) &&
            AppliedAnswer(before, run[i].step).Some? &&
            PaysFor(before, AppliedAnswer(before, run[i].step).value, AppliedFallback(run[i].step), c, reached)
  {
    i := n - 1;
    var before := StateAt(st, run, i);
    if Rank(PlanOf(StateAt(st, run, n), c)) > Rank(PlanOf(before, c)) {
      PlanRisesOnlyWhenPaid(before, run[i].step, run[i].now, c);
    } else {
      i := PaidPlanWasPaidFor(st, run, n - 1, c);
    }
  }
}
