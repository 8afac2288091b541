/**
 What the owner's actions lead to: subscribing and paying, changing plans, cancelling,
 resuming and refreshing, each followed to the point where it takes effect.
 */
module BillingJourneys {
  import opened Wrappers
  import opened BillingModel
  import opened BillingActions
  import opened BillingAccess
  import opened BillingOutcomes

  // ----- scheduled transitions -----

  /** The stored period is over, or there is none. */
  predicate Over(l: License, at: Time) {
    match l.periodEnd
    case None => true
    case Some(end) => end <= at
  }

  predicate CancelDue(l: License, at: Time) {
    l.cancelAtPeriodEnd && Over(l, at)
  }

  predicate DowngradeDue(l: License, at: Time) {
    l.plan.Pro? && l.pendingPlan == Some(Basic) && Over(l, at) && !l.cancelAtPeriodEnd
  }

  /** Which plan a scheduled transition leads to: FREE exactly when the company was on FREE or a
      recorded cancel is due, BASIC exactly when no cancel is due and it was on BASIC or a
      downgrade from PRO is due. */
  lemma TransitionReachesExactly(st: State, c: CompanyId, at: Time)
    requires c in st.licenses
    ensures var l, after := st.licenses[c], PlanOf(ApplyScheduled(st, c, at), c);
            (after.Free? <==> l.plan.Free? || CancelDue(l, at)) &&
            (after.Basic? <==> !CancelDue(l, at) && (l.plan.Basic? || DowngradeDue(l, at))) &&
            (after.Pro? <==> l.plan.Pro? && !CancelDue(l, at) && !DowngradeDue(l, at))
  {
  }

  /** What it writes: a due cancel leaves a free license without subscription, a due downgrade
      changes plan and pending plan and keeps link and dates, and otherwise nothing changes. */
  lemma TransitionWritesExactly(st: State, c: CompanyId, at: Time)
    requires c in st.licenses
    ensures var l, after := st.licenses[c], ApplyScheduled(st, c, at);
            c in after.licenses && var m := after.licenses[c];
            (CancelDue(l, at) ==>
              m.plan.Free? && !m.providerLinked && m.providerRef.None? && m.periodStart.None? && m.periodEnd.None? &&
              m.nextPayment.None? && !m.cancelAtPeriodEnd && m.cancelRequestedAt.None? && m.pendingPlan.None? &&
              m.pendingRequestedAt.None? && m.status.ACTIVE? && m.expiresAt.None? && m.syncEnabled &&
              (l.canceledAt.Some? ==> m.canceledAt == l.canceledAt) && (l.canceledAt.None? ==> m.canceledAt == Some(at)) &&
              m.billingStatus == (if l.billingStatus.Some? then l.billingStatus else Some(CancelledPeriodEnded))) &&
            (DowngradeDue(l, at) ==>
              m == l.(plan := Basic, status := ACTIVE, expiresAt := None, syncEnabled := true,
                      pendingPlan := None, pendingRequestedAt := None, billingStatus := Some(DowngradeEffective))) &&
            (!CancelDue(l, at) && !DowngradeDue(l, at) ==> after == st)
  {
    if !CancelDue(st.licenses[c], at) && !DowngradeDue(st.licenses[c], at) {
      assert ApplyScheduled(st, c, at).licenses == st.licenses;
    }
  }

  /** Nothing is left to do right after a transition. */
  lemma TransitionSettles(st: State, c: CompanyId, at: Time)
    ensures ApplyScheduled(ApplyScheduled(st, c, at), c, at) == ApplyScheduled(st, c, at)
  {
    if c in st.licenses {
      var once := ApplyScheduled(st, c, at);
      assert ApplyScheduled(once, c, at).licenses == once.licenses;
    }
  }

  predicate OnlyTransitions(run: seq<TimedAccess>, end: Time) {
    forall t :: t in run ==> t.step.Scheduled? && t.now < end
  }

  lemma {:induction false} TransitionsWait(st: State, c: CompanyId, run: seq<TimedAccess>, end: Time)
    requires PaidUntil(st, c, end) && OnlyTransitions(run, end)
    ensures AccessRun(st, c, run) == st
    decreases |run|
  {
    if run != [] {
      TransitionWritesExactly(st, c, run[0].now);
      TransitionsWait(st, c, run[1..], end);
    }
  }

  /** PRO asks for BASIC: the request is only noted, transitions before the end of the period
      change nothing, and the first one at or after it gives BASIC with link and dates kept. */
  lemma DowngradeTakesEffectAtEnd(st: State, c: CompanyId, q: ChangeReplies, now: Time, run: seq<TimedAccess>, end: Time, at: Time)
    requires c in st.licenses && st.licenses[c].plan.Pro? && st.licenses[c].periodEnd == Some(end) && !st.licenses[c].cancelAtPeriodEnd
    requires OnlyTransitions(run, end)
    ensures var (asked, outcome) := ChangePlan(st, c, Basic, q, now);
            outcome.Done? && asked.checkouts == st.checkouts &&
            asked.licenses == st.licenses[c := st.licenses[c].(pendingPlan := Some(Basic), pendingRequestedAt := Some(now))] &&
            AccessRun(asked, c, run) == asked &&
            var after := ApplyScheduled(asked, c, at);
            (at < end ==> after == asked) &&
            (at >= end ==> PlanOf(after, c).Basic? && PendingOf(after, c).None? && RefOf(after, c) == RefOf(st, c) &&
                           after.licenses[c].periodStart == st.licenses[c].periodStart && after.licenses[c].periodEnd == Some(end))
  {
    var asked := ChangePlan(st, c, Basic, q, now).0;
    TransitionsWait(asked, c, run, end);
    TransitionWritesExactly(asked, c, at);
  }

  // ----- subscribing and paying -----

  /** `d` names checkout `k`: by its key, or by a reference no other checkout carries. */
  ghost predicate Names(st: State, d: Details, k: CheckoutId, ref: Ref) {
    d.externalRef == Some(k) || (d.externalRef.None? && d.ref == ref && forall other :: CarriesRef(st, other, ref) ==> other == k)
  }

  /** What starting a subscription leaves: a pending checkout of that plan, and the plan pending. */
  lemma SubscribeAsks(st: State, c: CompanyId, plan: Plan, reply: CheckoutReply, id: CheckoutId, now: Time)
    requires c in st.licenses && id !in st.checkouts
    ensures var (after, outcome) := Subscribe(st, c, plan, reply, id, now);
            (outcome.AlreadyOnPlan? <==> PlanOf(st, c) == plan && st.licenses[c].status.ACTIVE?) &&
            (outcome.AlreadyOnPlan? ==> after == st) &&
            (!outcome.AlreadyOnPlan? && reply.Created? ==>
              outcome.Done? && after.checkouts == st.checkouts[id := Checkout(c, plan, PENDING, Some(reply.ref), now)] &&
              after.licenses == st.licenses[c := st.licenses[c].(pendingPlan := Some(plan), pendingRequestedAt := Some(now))]) &&
            (!outcome.AlreadyOnPlan? && !reply.Created? ==>
              outcome.SubscribeUnavailable? && after.licenses == st.licenses &&
              after.checkouts == st.checkouts[id := Checkout(c, plan, CANCELLED, None, now)])
  {
  }

  lemma NamedIsFound(st: State, a: Answer, k: CheckoutId, ref: Ref)
    requires LookedUp(st, a) && CarriesRef(st, k, ref) && Names(st, a.details, k, ref)
    ensures a.checkout == Some(k)
  {
  }

  /** A subscription that is paid gives its plan: after starting one at any company, whatever
      subscription it has, the first paid answer about the new checkout switches the license to
      that plan and subscription, whatever company the notice falls back to. */
  lemma SubscribeThenPaid(st: State, c: CompanyId, plan: Plan, ref: Ref, id: CheckoutId, now: Time,
                          a: Answer, fallback: Option<CompanyId>, later: Time)
    requires c in st.licenses && id !in st.checkouts && !plan.Free?
    requires !(PlanOf(st, c) == plan && st.licenses[c].status.ACTIVE?)
    requires var asked := Subscribe(st, c, plan, Created(ref), id, now).0;
             LookedUp(asked, a) && Names(asked, a.details, id, ref)
    requires a.details.status in {Active, Authorized, Approved}
    ensures var asked := Subscribe(st, c, plan, Created(ref), id, now).0;
            var r := ApplyDetails(asked, a, fallback, later);
            r.action.Activated? && r.company == Some(c) && PlanOf(r.state, c) == plan &&
            RefOf(r.state, c) == Some(a.details.ref) && r.state.checkouts[id].status.COMPLETED? &&
            PendingOf(r.state, c).None? && !r.state.licenses[c].cancelAtPeriodEnd &&
            r.state.licenses[c].periodEnd == a.details.periodEnd
  {
    var asked := Subscribe(st, c, plan, Created(ref), id, now).0;
    SubscribeAsks(st, c, plan, Created(ref), id, now);
    NamedIsFound(asked, a, id, ref);
    assert Resolves(asked, a, fallback, c) && !HeldBack(asked, a, c);
    PaidAnswer(asked, a, fallback, later, c);
    PaidAnswerWithdraws(asked, a, fallback, later, c);
  }

  /** A checkout just started is what a refresh asks the provider about. */
  lemma SubscribeThenRefreshAsks(st: State, c: CompanyId, plan: Plan, ref: Ref, id: CheckoutId, now: Time, asked: Option<Ref>)
    requires c in st.licenses && id !in st.checkouts && !(PlanOf(st, c) == plan && st.licenses[c].status.ACTIVE?)
    requires forall k :: k in st.checkouts ==> st.checkouts[k].updatedAt < now
    requires RefreshAsks(Subscribe(st, c, plan, Created(ref), id, now).0, c, asked)
    ensures asked == Some(ref)
  {
    var after := Subscribe(st, c, plan, Created(ref), id, now).0;
    assert RefreshCandidate(after, id, c, false);
    assert after.checkouts[id].updatedAt == now;
  }

  /** Without a pending checkout a refresh asks about the license's own subscription; without
      that, about the latest completed checkout. */
  lemma RefreshAsksAboutLicense(st: State, c: CompanyId, asked: Option<Ref>)
    requires RefreshAsks(st, c, asked)
    requires forall k :: k in st.checkouts && st.checkouts[k].company == c && st.checkouts[k].status.PENDING? ==> st.checkouts[k].providerRef.None?
    ensures RefOf(st, c).Some? ==> asked == RefOf(st, c)
    ensures RefOf(st, c).None? && asked.Some? ==>
              exists k :: k in st.checkouts && st.checkouts[k].company == c && st.checkouts[k].status.COMPLETED? && st.checkouts[k].providerRef == asked
    ensures RefOf(st, c).None? && asked.None? ==>
              forall k :: k in st.checkouts && st.checkouts[k].company == c && st.checkouts[k].status.COMPLETED? ==> st.checkouts[k].providerRef.None?
  {
    assert forall k :: !RefreshCandidate(st, k, c, false);
    if RefOf(st, c).None? && asked.None? {
      forall k | k in st.checkouts && st.checkouts[k].company == c && st.checkouts[k].status.COMPLETED?
        ensures st.checkouts[k].providerRef.None?
      {
        assert !RefreshCandidate(st, k, c, true);
      }
    }
  }

  /** A refresh with a paid answer for the new checkout gives the plan, whatever dates it names. */
  lemma SubscribeThenRefresh(st: State, c: CompanyId, plan: Plan, ref: Ref, id: CheckoutId, now: Time, a: Answer, later: Time)
    requires c in st.licenses && id !in st.checkouts && !plan.Free?
    requires !(PlanOf(st, c) == plan && st.licenses[c].status.ACTIVE?)
    requires var asked := Subscribe(st, c, plan, Created(ref), id, now).0;
             LookedUp(asked, a) && Names(asked, a.details, id, ref)
    requires a.details.status in {Active, Authorized, Approved}
    ensures var asked := Subscribe(st, c, plan, Created(ref), id, now).0;
            PlanOf(Refresh(asked, c, Some(ref), Some(a), later).0, c) == plan
  {
    SubscribeThenPaid(st, c, plan, ref, id, now, a, Some(c), later);
    var asked := Subscribe(st, c, plan, Created(ref), id, now).0;
    TransitionWritesExactly(ApplyDetails(asked, a, Some(c), later).state, c, later);
  }

  /** A refresh applies the answer and then the transition, after which no other one is due; it
      fails without an answer it asked for, and changes nothing then. */
  lemma RefreshSettles(st: State, c: CompanyId, asked: Option<Ref>, reply: Option<Answer>, now: Time)
    ensures var (after, outcome) := Refresh(st, c, asked, reply, now);
            (outcome.Done? ==> ApplyScheduled(after, c, now) == after) &&
            (outcome.Done? <==> asked.None? || reply.Some?) && (!outcome.Done? ==> after == st)
  {
    TransitionSettles(st, c, now);
    if reply.Some? {
      TransitionSettles(ApplyDetails(st, reply.value, Some(c), now).state, c, now);
    }
  }

  /** A paid notice about a subscription no checkout carries finds the license linked to it and
      renews it: the plan is kept, unless the amount upgrades it, and the dates are taken over. */
  lemma NoticeRenewsLinkedLicense(st: State, c: CompanyId, a: Answer, now: Time)
    requires LookedUp(st, a) && LicenseCarriesRef(st, c, a.details.ref) && !PlanOf(st, c).Free?
    requires forall d :: LicenseCarriesRef(st, d, a.details.ref) ==> d == c
    requires forall k :: k in st.checkouts ==> a.details.externalRef != Some(k) && st.checkouts[k].providerRef != Some(a.details.ref)
    requires a.details.status in {Active, Authorized, Approved}
    ensures var r := ApplyDetails(st, a, None, now);
            r.action.Activated? && r.company == Some(c) && c in r.state.licenses && r.state.checkouts == st.checkouts &&
            PlanOf(r.state, c) == (if AmountUpgrade(st, a.details, c) then Pro else PlanOf(st, c)) &&
            r.state.licenses[c].periodEnd == a.details.periodEnd && r.state.licenses[c].cancelAtPeriodEnd == st.licenses[c].cancelAtPeriodEnd
  {
    assert a.checkout.None? && a.linked == Some(c);
    PaidAnswer(st, a, None, now, c);
    PaidAnswerWithdraws(st, a, None, now, c);
  }

  // ----- changing plans -----

  /** Asking for the plan held changes nothing, asking for FREE is a cancel at the end of the
      period, and a company on FREE subscribes. */
  lemma PlanChangeBranches(st: State, c: CompanyId, wanted: Plan, q: ChangeReplies, now: Time)
    requires c in st.licenses
    ensures var r := ChangePlan(st, c, wanted, q, now);
            (wanted == PlanOf(st, c) ==> r == (st, AlreadyOnPlan)) &&
            (wanted.Free? && !PlanOf(st, c).Free? ==> r == Cancel(st, c, false, q.cancel, now)) &&
            (!wanted.Free? && PlanOf(st, c).Free? ==> r == Subscribe(st, c, wanted, q.checkout, q.id, now))
  {
  }

  /** BASIC asks for PRO: PRO is noted as pending, and when the provider accepts the new amount
      nothing else changes until a paid notice about the subscription names the PRO price; that
      notice gives PRO. */
  lemma UpgradeThenPaidPrice(st: State, c: CompanyId, q: ChangeReplies, now: Time, a: Answer, fallback: Option<CompanyId>, later: Time)
    requires c in st.licenses && PlanOf(st, c).Basic? && RefOf(st, c).Some? && q.amountAccepted
    requires var asked := ChangePlan(st, c, Pro, q, now).0; Target(asked, a, fallback) == Some(c)
    requires RefOf(st, c) == Some(a.details.ref) && a.details.status in {Active, Authorized, Approved}
    requires a.details.amountCents == Some(st.proPriceCents)
    ensures var (asked, outcome) := ChangePlan(st, c, Pro, q, now);
            outcome.Done? && asked.checkouts == st.checkouts &&
            asked.licenses == st.licenses[c := st.licenses[c].(pendingPlan := Some(Pro), pendingRequestedAt := Some(now))] &&
            PlanOf(ApplyDetails(asked, a, fallback, later).state, c).Pro? && PendingOf(ApplyDetails(asked, a, fallback, later).state, c).None?
  {
    var asked := ChangePlan(st, c, Pro, q, now).0;
    PaidAnswer(asked, a, fallback, later, c);
    PaidAnswerWithdraws(asked, a, fallback, later, c);
  }

  /** At any other amount the notice leaves the company on BASIC, with PRO still pending unless a
      checkout withdraws it. */
  lemma UpgradeNeedsThePrice(st: State, c: CompanyId, q: ChangeReplies, now: Time, a: Answer, fallback: Option<CompanyId>, later: Time)
    requires c in st.licenses && PlanOf(st, c).Basic? && RefOf(st, c) == Some(a.details.ref) && q.amountAccepted
    requires var asked := ChangePlan(st, c, Pro, q, now).0; Target(asked, a, fallback) == Some(c)
    requires SessionOf(st, a).Some? ==> SessionOf(st, a).value.plan.Basic?
    requires a.details.status in {Active, Authorized, Approved} && a.details.amountCents != Some(st.proPriceCents)
    ensures var asked := ChangePlan(st, c, Pro, q, now).0;
            PlanOf(ApplyDetails(asked, a, fallback, later).state, c).Basic? &&
            PendingOf(ApplyDetails(asked, a, fallback, later).state, c) == if SessionOf(st, a).Some? then None else Some(Pro)
  {
    var asked := ChangePlan(st, c, Pro, q, now).0;
    PaidAnswer(asked, a, fallback, later, c);
    PaidAnswerWithdraws(asked, a, fallback, later, c);
  }

  /** When the provider refuses the new amount, or nothing is linked, BASIC opens a PRO checkout. */
  lemma UpgradeByCheckout(st: State, c: CompanyId, q: ChangeReplies, now: Time)
    requires c in st.licenses && PlanOf(st, c).Basic? && !(RefOf(st, c).Some? && q.amountAccepted)
    requires q.id !in st.checkouts && q.checkout.Created?
    ensures var (asked, outcome) := ChangePlan(st, c, Pro, q, now);
            outcome.Done? && PlanOf(asked, c).Basic? && PendingOf(asked, c) == Some(Pro) &&
            asked.checkouts == st.checkouts[q.id := Checkout(c, Pro, PENDING, Some(q.checkout.ref), now)]
  {
  }

  // ----- cancelling and resuming -----

  /** A customer cancel of a license without subscription keeps the plan to a stored end that
      lies ahead, with the cancel recorded, and drops it at once otherwise. */
  lemma LocalCancel(st: State, c: CompanyId, atOnce: bool, reply: Option<Answer>, now: Time)
    requires c in st.licenses && RefOf(st, c).None?
    ensures var l, (after, outcome) := st.licenses[c], Cancel(st, c, atOnce, reply, now);
            outcome.Done? && after.checkouts == st.checkouts &&
            (!Over(l, now) ==> after.licenses == st.licenses[c := l.(
              cancelAtPeriodEnd := true, cancelRequestedAt := Some(now), canceledAt := None,
              billingStatus := Some(if atOnce then CustomerCancelNowPeriodActive else CustomerCancelPeriodEnd))]) &&
            (Over(l, now) ==> c in after.licenses && GivenUp(after.licenses[c], now))
  {
  }

  predicate GivenUp(l: License, now: Time) {
    l.plan.Free? && l.status.ACTIVE? && l.expiresAt.None? && l.syncEnabled && !l.providerLinked && l.providerRef.None? &&
    l.periodStart.None? && l.periodEnd.None? && l.nextPayment.None? && !l.cancelAtPeriodEnd && l.cancelRequestedAt.None? &&
    l.canceledAt == Some(now) && l.pendingPlan.None? && l.pendingRequestedAt.None? && l.billingStatus == Some(CustomerCancelled)
  }

  /** A customer cancel the provider confirms for the license's own subscription keeps the plan
      to the end the answer names, else the stored one, when that lies ahead, and drops it at
      once otherwise; without confirmation nothing changes. */
  lemma ConfirmedCancel(st: State, c: CompanyId, atOnce: bool, a: Answer, now: Time)
    requires c in st.licenses && !PlanOf(st, c).Free? && RefOf(st, c).Some?
    requires a.details.status in {Cancelled, Canceled, Expired} && Target(st, a, Some(c)) == Some(c) && !ClosesAttempt(st, a, c)
    ensures Cancel(st, c, atOnce, None, now) == (st, ProviderFailed)
    ensures var (after, outcome) := Cancel(st, c, atOnce, Some(a), now);
            var end := PeriodEnd(st, a, c);
            outcome.Done? && c in after.licenses && var l := after.licenses[c];
            (end.Some? && end.value > now ==>
              l.plan == PlanOf(st, c) && l.periodEnd == end && l.cancelAtPeriodEnd && l.cancelRequestedAt == Some(now) && l.canceledAt.None? &&
              l.billingStatus == Some(if atOnce then CustomerCancelNowPeriodActive else CustomerCancelPeriodEnd)) &&
            ((end.Some? ==> end.value <= now) ==> GivenUp(l, now))
  {
    if PeriodEnd(st, a, c).Some? && PeriodEnd(st, a, c).value > now {
      EndAheadIsRecorded(st, a, Some(c), now, c);
    } else {
      EndDrops(st, a, Some(c), now, c);
    }
  }

  /** The answer to a cancel request falls back to the company that asked. */
  lemma CancelAnswerIsAboutTheAsker(st: State, c: CompanyId, a: Answer)
    requires SessionOf(st, a).None? || SessionOf(st, a).value.company == c
    ensures Target(st, a, Some(c)) == Some(c)
  {
  }

  /** Resuming goes through exactly for a linked, paid license whose subscription the provider
      reports paid; it withdraws the cancel and changes nothing else of plan, link and period. */
  lemma ResumeExactly(st: State, c: CompanyId, reply: Option<Details>)
    requires c in st.licenses
    ensures var l, (after, outcome) := st.licenses[c], Resume(st, c, reply);
            (outcome.Done? <==> RefOf(st, c).Some? && reply.Some? && reply.value.status in {Active, Authorized, Approved} && !l.plan.Free?) &&
            (!outcome.Done? ==> outcome.NewCheckoutNeeded? && after == st) &&
            (outcome.Done? ==>
              after.checkouts == st.checkouts &&
              after.licenses == st.licenses[c := l.(cancelAtPeriodEnd := false, cancelRequestedAt := None, canceledAt := None,
                                                    nextPayment := reply.value.nextPayment,
                                                    billingStatus := Some(Provider(reply.value.status)))])
  {
  }

  /** A resumed subscription is not dropped by any later transition. */
  lemma ResumeUndoesCancel(st: State, c: CompanyId, reply: Option<Details>, now: Time, at: Time)
    requires c in st.licenses && Resume(st, c, reply).1.Done?
    ensures !PlanOf(ApplyScheduled(Next(st, DoResume(c, reply), now), c, at), c).Free?
  {
    ResumeExactly(st, c, reply);
    TransitionReachesExactly(Resume(st, c, reply).0, c, at);
  }

  /** A step of the owner or an administrator has the effect of the action it names, and an
      administrator's step and the sweep change nothing but licenses, one by one. */
  lemma StepsHaveTheirEffects(st: State, c: CompanyId, days: int, reply: Option<Details>, now: Time)
    requires c in st.licenses
    ensures Next(st, DoResume(c, reply), now) == Resume(st, c, reply).0
    ensures Next(st, DoExtend(c, days), now) == st.(licenses := st.licenses[c := Extended(st.licenses[c], days, now)])
    ensures Next(st, DoSuspend(c), now) == st.(licenses := st.licenses[c := Suspended(st.licenses[c])])
    ensures Next(st, DoReactivate(c), now) == st.(licenses := st.licenses[c := Reactivated(st.licenses[c], now)])
    ensures Next(st, DoSweep, now).checkouts == st.checkouts && Next(st, DoSweep, now).licenses.Keys == st.licenses.Keys &&
            forall d :: d in st.licenses ==> Next(st, DoSweep, now).licenses[d] == Swept(st.licenses[d], now)
  {
  }

  /** Without a license every owner action is refused. */
  lemma NothingWithoutLicense(st: State, c: CompanyId, plan: Plan, atOnce: bool, q: ChangeReplies, reply: Option<Details>, now: Time)
    requires c !in st.licenses
    ensures Subscribe(st, c, plan, q.checkout, q.id, now) == (st, LicenseNotFound)
    ensures Cancel(st, c, atOnce, q.cancel, now) == (st, LicenseNotFound)
    ensures ChangePlan(st, c, plan, q, now) == (st, LicenseNotFound) && Resume(st, c, reply) == (st, LicenseNotFound)
  {
  }
}
