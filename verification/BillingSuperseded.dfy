/**
 Late notices about a subscription the company has left. Once the license is linked to
 another subscription and the old checkout is no longer pending, what the provider says
 about the old one does not touch plan, link or period, whatever happens to other
 companies in between.
 */
module BillingSuperseded {
  import opened Wrappers
  import opened BillingModel
  import opened BillingActions

  /** The part of a license a stale notice must not touch. */
  datatype Core = Core(plan: Plan, linked: bool, ref: Option<Ref>, start: Option<Time>, end: Option<Time>)

  function CoreOf(l: License): Core {
    Core(l.plan, l.providerLinked, l.providerRef, l.periodStart, l.periodEnd)
  }

  /** Checkout `k` of company `c` belongs to a subscription `c` is no longer linked to. */
  predicate Left(st: State, c: CompanyId, k: CheckoutId, ref: Ref) {
    c in st.licenses && st.licenses[c].providerRef.Some? && st.licenses[c].providerRef.value != ref &&
    k in st.checkouts && st.checkouts[k].company == c
  }

  predicate Superseded(st: State, c: CompanyId, k: CheckoutId, ref: Ref) {
    Left(st, c, k, ref) && !st.checkouts[k].status.PENDING?
  }

  predicate About(a: Answer, k: CheckoutId, ref: Ref) {
    a.details.ref == ref && a.checkout == Some(k)
  }

  predicate Quiet(s: ProviderStatus) {
    IsPaidActivation(s) || IsDowngrade(s) || s.Rejected? || s.Failed? || s.Other?
  }

  /** Exactly which notices about a subscription the company has left touch the core of the
      license: a paused notice always, and a paid one when the checkout is pending and may
      take over. */
  lemma StaleNoticeTouchesCoreExactly(st: State, c: CompanyId, k: CheckoutId, a: Answer, fallback: Option<CompanyId>, now: Time)
    requires Left(st, c, k, a.details.ref) && About(a, k, a.details.ref)
    ensures var after := ApplyDetails(st, a, fallback, now).state;
            c in after.licenses &&
            (CoreOf(after.licenses[c]) != CoreOf(st.licenses[c])
             <==>
             (a.details.status.Paused? ||
              (IsPaidActivation(a.details.status) && st.checkouts[k].status.PENDING? &&
               (PendingOf(st, c) == Some(st.checkouts[k].plan) || (PlanOf(st, c).Basic? && st.checkouts[k].plan.Pro?)) &&
               (!st.checkouts[k].plan.Free? || AmountUpgrade(st, a.details, c)))))
  {
    var after := ApplyDetails(st, a, fallback, now).state;
    var plan := ResolvedPlan(st, a, c).value;
    var v := Judge(st, a, c, plan, now);
    assert v.Activate? || v.Pause? ==> after.licenses[c].providerRef == Some(a.details.ref);
    assert !v.Activate? && !v.Pause? ==> v.IgnoreUnknown? || v.FailCheckout? || v.Reopen?;
  }

  lemma QuietNoticeKeepsCore(st: State, c: CompanyId, k: CheckoutId, ref: Ref, a: Answer, fallback: Option<CompanyId>, now: Time)
    requires Superseded(st, c, k, ref) && About(a, k, ref) && Quiet(a.details.status)
    ensures var after := ApplyDetails(st, a, fallback, now).state;
            Superseded(after, c, k, ref) && CoreOf(after.licenses[c]) == CoreOf(st.licenses[c])
  {
  }

  /** A step that acts on another company and applies no answer about `c`. */
  predicate Elsewhere(st: State, step: Step, c: CompanyId) {
    (AppliedAnswer(st, step).Some? ==> Target(st, AppliedAnswer(st, step).value, AppliedFallback(step)) != Some(c)) &&
    (step.DoNotice? || (!step.DoSweep? && step.company != c)) &&
    (NewCheckout(step).Some? ==> NewCheckout(step).value !in st.checkouts)
  }

  /** The license of `c` and all its checkouts are the same in both states. */
  predicate SameRows(st: State, after: State, c: CompanyId) {
    LicenseOf(after, c) == LicenseOf(st, c) &&
    forall k :: k in st.checkouts && st.checkouts[k].company == c ==>
      k in after.checkouts && after.checkouts[k] == st.checkouts[k]
  }

  lemma AnswerElsewhere(st: State, a: Answer, fallback: Option<CompanyId>, now: Time, c: CompanyId)
    requires Target(st, a, fallback) != Some(c)
    ensures SameRows(st, ApplyDetails(st, a, fallback, now).state, c)
  {
  }

  lemma SubscribeElsewhere(st: State, d: CompanyId, plan: Plan, reply: CheckoutReply, id: CheckoutId, now: Time, c: CompanyId)
    requires d != c && id !in st.checkouts
    ensures SameRows(st, Subscribe(st, d, plan, reply, id, now).0, c)
  {
  }

  lemma CancelElsewhere(st: State, d: CompanyId, atOnce: bool, reply: Option<Answer>, now: Time, c: CompanyId)
    requires d != c
    requires RefOf(st, d).Some? && reply.Some? ==> Target(st, reply.value, Some(d)) != Some(c)
    ensures SameRows(st, Cancel(st, d, atOnce, reply, now).0, c)
  {
    if RefOf(st, d).Some? && reply.Some? {
      AnswerElsewhere(st, reply.value, Some(d), now, c);
    }
  }

  lemma ChangePlanElsewhere(st: State, d: CompanyId, plan: Plan, q: ChangeReplies, now: Time, c: CompanyId)
    requires d != c && q.id !in st.checkouts
    requires plan.Free? && !PlanOf(st, d).Free? && RefOf(st, d).Some? && q.cancel.Some? ==>
               Target(st, q.cancel.value, Some(d)) != Some(c)
    ensures SameRows(st, ChangePlan(st, d, plan, q, now).0, c)
  {
    if d in st.licenses && plan != PlanOf(st, d) {
      if plan.Free? {
        CancelElsewhere(st, d, false, q.cancel, now, c);
      } else {
        SubscribeElsewhere(st, d, plan, q.checkout, q.id, now, c);
        SubscribeElsewhere(SetPending(st, d, Pro, now), d, Pro, q.checkout, q.id, now, c);
      }
    }
  }

  lemma RefreshElsewhere(st: State, d: CompanyId, asked: Option<Ref>, reply: Option<Answer>, now: Time, c: CompanyId)
    requires d != c
    requires asked.Some? && reply.Some? ==> Target(st, reply.value, Some(d)) != Some(c)
    ensures SameRows(st, Refresh(st, d, asked, reply, now).0, c)
  {
    if asked.Some? && reply.Some? {
      AnswerElsewhere(st, reply.value, Some(d), now, c);
    }
  }

  /** A step elsewhere leaves every row of `c` alone: companies do not interfere. */
  lemma StepElsewhere(st: State, step: Step, now: Time, c: CompanyId)
    requires Elsewhere(st, step, c)
    ensures SameRows(st, Next(st, step, now), c)
  {
    match step
    case DoSubscribe(d, plan, reply, id) => SubscribeElsewhere(st, d, plan, reply, id, now, c);
    case DoCancel(d, atOnce, answer) => CancelElsewhere(st, d, atOnce, answer, now, c);
    case DoChangePlan(d, plan, q) => ChangePlanElsewhere(st, d, plan, q, now, c);
    case DoRefresh(d, asked, answer) => RefreshElsewhere(st, d, asked, answer, now, c);
    case DoNotice(a, fallback) => AnswerElsewhere(st, a, fallback, now, c);
    case _ =>
  }

  /** The company's own steps that apply no answer and no transition: opening a checkout,
      asking for a paid plan, resuming, and what administrators and the sweep do. */
  predicate KeepsTheSubscription(step: Step, st: State) {
    (NewCheckout(step).Some? ==> NewCheckout(step).value !in st.checkouts) &&
    (step.DoSubscribe? || step.DoResume? || (step.DoChangePlan? && !step.plan.Free?) ||
     step.DoExtend? || step.DoSuspend? || step.DoReactivate? || step.DoCreate? || step.DoSweep?)
  }

  /** The old subscription stays left and the core of the license stays what it was. */
  predicate KeepsCore(st: State, after: State, c: CompanyId, k: CheckoutId, ref: Ref) {
    c in st.licenses && Superseded(after, c, k, ref) && CoreOf(after.licenses[c]) == CoreOf(st.licenses[c])
  }

  lemma KeepsCoreTransitively(first: State, second: State, third: State, c: CompanyId, k: CheckoutId, ref: Ref)
    requires KeepsCore(first, second, c, k, ref) && KeepsCore(second, third, c, k, ref)
    ensures KeepsCore(first, third, c, k, ref)
  {
  }

  lemma SubscribeKeepsCore(st: State, d: CompanyId, plan: Plan, reply: CheckoutReply, id: CheckoutId, now: Time,
                           c: CompanyId, k: CheckoutId, ref: Ref)
    requires Superseded(st, c, k, ref) && id !in st.checkouts
    ensures KeepsCore(st, Subscribe(st, d, plan, reply, id, now).0, c, k, ref)
  {
  }

  lemma PendingKeepsCore(st: State, d: CompanyId, plan: Plan, now: Time, c: CompanyId, k: CheckoutId, ref: Ref)
    requires Superseded(st, c, k, ref) && d in st.licenses
    ensures KeepsCore(st, SetPending(st, d, plan, now), c, k, ref)
  {
  }

  lemma PaidChangeKeepsCore(st: State, d: CompanyId, plan: Plan, q: ChangeReplies, now: Time, c: CompanyId, k: CheckoutId, ref: Ref)
    requires Superseded(st, c, k, ref) && q.id !in st.checkouts && !plan.Free?
    ensures KeepsCore(st, ChangePlan(st, d, plan, q, now).0, c, k, ref)
  {
    if d in st.licenses {
      SubscribeKeepsCore(st, d, plan, q.checkout, q.id, now, c, k, ref);
      PendingKeepsCore(st, d, Pro, now, c, k, ref);
      PendingKeepsCore(st, d, Basic, now, c, k, ref);
      SubscribeKeepsCore(SetPending(st, d, Pro, now), d, Pro, q.checkout, q.id, now, c, k, ref);
    }
  }

  /** The checkout rows of the step's own company grow at most by a new one, and no license
      changes its core. */
  lemma OwnStepKeepsCore(st: State, step: Step, now: Time, c: CompanyId, k: CheckoutId, ref: Ref)
    requires Superseded(st, c, k, ref) && KeepsTheSubscription(step, st)
    ensures KeepsCore(st, Next(st, step, now), c, k, ref)
  {
    match step
    case DoSubscribe(d, plan, reply, id) => SubscribeKeepsCore(st, d, plan, reply, id, now, c, k, ref);
    case DoChangePlan(d, plan, q) => PaidChangeKeepsCore(st, d, plan, q, now, c, k, ref);
    case _ =>
  }

  /** A step of the run that may not matter: a quiet notice about the old subscription, a
      step of the company that keeps its subscription, or a step elsewhere. */
  predicate Harmless(st: State, step: Step, c: CompanyId, k: CheckoutId, ref: Ref) {
    (step.DoNotice? && About(step.notice, k, ref) && Quiet(step.notice.details.status)) ||
    KeepsTheSubscription(step, st) ||
    Elsewhere(st, step, c)
  }

  lemma HarmlessStepKeepsCore(st: State, step: Step, now: Time, c: CompanyId, k: CheckoutId, ref: Ref)
    requires Superseded(st, c, k, ref) && Harmless(st, step, c, k, ref)
    ensures KeepsCore(st, Next(st, step, now), c, k, ref)
  {
    if Elsewhere(st, step, c) {
      StepElsewhere(st, step, now, c);
    } else if KeepsTheSubscription(step, st) {
      OwnStepKeepsCore(st, step, now, c, k, ref);
    } else {
      QuietNoticeKeepsCore(st, c, k, ref, step.notice, step.fallback, now);
    }
  }

  predicate HarmlessAt(st: State, run: seq<TimedStep>, i: nat, c: CompanyId, k: CheckoutId, ref: Ref)
    requires i < |run|
  {
    Harmless(StateAt(st, run, i), run[i].step, c, k, ref)
  }

  lemma RunStepKeepsCore(st: State, run: seq<TimedStep>, i: nat, c: CompanyId, k: CheckoutId, ref: Ref)
    requires i < |run| && Superseded(StateAt(st, run, i), c, k, ref) && HarmlessAt(st, run, i, c, k, ref)
    ensures KeepsCore(StateAt(st, run, i), StateAt(st, run, i + 1), c, k, ref)
  {
    HarmlessStepKeepsCore(StateAt(st, run, i), run[i].step, run[i].now, c, k, ref);
  }

  /** Any run of quiet notices about the old subscription, mixed with steps of the company that
      keep its subscription and with anything that happens to other companies, leaves plan,
      link and period dates as they were. */
  lemma {:induction false} SupersededIsSilent(st: State, run: seq<TimedStep>, n: nat, c: CompanyId, k: CheckoutId, ref: Ref)
    requires n <= |run| && Superseded(st, c, k, ref)
    requires forall i :: 0 <= i < n ==> HarmlessAt(st, run, i, c, k, ref)
    ensures KeepsCore(st, StateAt(st, run, n), c, k, ref)
  {
    if n == 0 {
      assert StateAt(st, run, n) == st;
    } else {
      SupersededIsSilent(st, run, n - 1, c, k, ref);
      RunStepKeepsCore(st, run, n - 1, c, k, ref);
      KeepsCoreTransitively(st, StateAt(st, run, n - 1), StateAt(st, run, n), c, k, ref);
    }
  }

  // ----- leaving the quiet statuses -----

  const OLD := Details("old", Pending, Some("k"), None, None, None, None)
  const REOPEN := Answer(OLD, Some("k"), None)
  const PAY := Answer(OLD.(status := Authorized), Some("k"), None)

  /** A BASIC license linked to one subscription and a PRO checkout of another one. */
  function Moved(status: CheckoutStatus, stamp: Time): State {
    State(map["c" := BlankLicense(Basic).(providerLinked := true, providerRef := Some("new"))],
          map["k" := Checkout("c", Pro, status, Some("old"), stamp)], 8500)
  }

  lemma PendingReopens()
    ensures Next(Moved(COMPLETED, 0), DoNotice(REOPEN, None), 1) == Moved(PENDING, 1)
  {
    assert Judge(Moved(COMPLETED, 0), REOPEN, "c", Pro, 1).Reopen?;
  }

  lemma PaidTakesOver()
    ensures var after := Next(Moved(PENDING, 1), DoNotice(PAY, None), 2);
            RefOf(after, "c") == Some("old") && PlanOf(after, "c").Pro?
  {
    assert Judge(Moved(PENDING, 1), PAY, "c", Pro, 2).Activate?;
  }

  /** A pending notice reopens a completed checkout, and a paid one may then take over: the
      run leaves the quiet statuses and the subscription moves back. */
  lemma ReopenedCheckoutTakesOver() returns (st: State, run: seq<TimedStep>)
    ensures Superseded(st, "c", "k", "old") && st.checkouts["k"].status.COMPLETED?
    ensures |run| == 2 && forall i :: 0 <= i < 2 ==> run[i].step.DoNotice? && About(run[i].step.notice, "k", "old")
    ensures RefOf(StateAt(st, run, 2), "c") == Some("old") && PlanOf(StateAt(st, run, 2), "c").Pro?
  {
    st := Moved(COMPLETED, 0);
    run := [At(1, DoNotice(REOPEN, None)), At(2, DoNotice(PAY, None))];
    PendingReopens();
    PaidTakesOver();
    RunIs(st, run, [st, Moved(PENDING, 1), Next(Moved(PENDING, 1), DoNotice(PAY, None), 2)]);
  }
}
