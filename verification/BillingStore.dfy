/**
 The billing service over its stored rows: each method updates the rows in the order the
 service does and is proved to have exactly the effect the specification functions give.
 */
module BillingStore {
  import opened Wrappers
  import opened BillingModel
  import opened BillingActions
  import BillingFree
  import BillingPlans

  class BillingService {
    var licenses: map<CompanyId, License>
    var checkouts: map<CheckoutId, Checkout>
    const proPriceCents: int

    ghost function View(): State
      reads this
    {
      State(licenses, checkouts, proPriceCents)
    }

    constructor (proPriceCents: int)
      ensures View() == State(map[], map[], proPriceCents)
    {
      licenses, checkouts := map[], map[];
      this.proPriceCents := proPriceCents;
    }

    /** Account creation: a free, active license for a new company. It starts where the runs
        of the model start, clean and with nothing asked for. */
    method CreateAccount(c: CompanyId)
      requires c !in licenses
      modifies this`licenses
      ensures View() == Account(old(View()), c)
      ensures BillingFree.AllClean(old(View())) ==> BillingFree.AllClean(View())
      ensures BillingPlans.Within(old(View()), c, 0) ==> BillingPlans.Within(View(), c, 0)
    {
      var row := License(Free, ACTIVE, None, true, false, None, None, None, None, false, None, None, None, None, None);
      licenses := licenses[c := row];
    }

    /** The maintenance sweep marks overdue licenses expired and counts them. */
    method SweepOverdue(now: Time) returns (updated: nat)
      modifies this`licenses
      ensures View() == SweepLicenses(old(View()), now)
      ensures updated == |set c | c in old(licenses) && licenses[c] != old(licenses)[c]|
    {
      var overdue := set c | c in licenses && licenses[c].status in {ACTIVE, TRIAL} &&
                             licenses[c].expiresAt.Some? && licenses[c].expiresAt.value < now;
      licenses := map c | c in licenses :: if c in overdue then licenses[c].(status := EXPIRED) else licenses[c];
      updated := |overdue|;
      assert licenses == SweepLicenses(old(View()), now).licenses;
      assert overdue == set c | c in old(licenses) && licenses[c] != old(licenses)[c];
    }

    // ----- lookups -----

    /** The most recently updated checkout that carries the reference. */
    method LatestWithRef(ref: Ref) returns (found: Option<CheckoutId>)
      ensures found.None? ==> forall k :: !CarriesRef(View(), k, ref)
      ensures found.Some? ==> CarriesRef(View(), found.value, ref)
      ensures found.Some? ==> forall other :: CarriesRef(View(), other, ref) ==>
                                checkouts[other].updatedAt <= checkouts[found.value].updatedAt
    {
      found := None;
      var todo := checkouts.Keys;
      while todo != {}
        invariant todo <= checkouts.Keys
        invariant found.None? ==> forall k :: CarriesRef(View(), k, ref) ==> k in todo
        invariant found.Some? ==> CarriesRef(View(), found.value, ref)
        invariant found.Some? ==> forall k :: CarriesRef(View(), k, ref) && k !in todo ==>
                                    checkouts[k].updatedAt <= checkouts[found.value].updatedAt
        decreases todo
      {
        var k :| k in todo;
        todo := todo - {k};
        if checkouts[k].providerRef == Some(ref) &&
           (found.None? || checkouts[found.value].updatedAt < checkouts[k].updatedAt) {
          found := Some(k);
        }
      }
    }

    method FindCheckoutSession(d: Details) returns (found: Option<CheckoutId>)
      ensures FindsCheckout(View(), d, found)
    {
      if d.externalRef.Some? {
        if d.externalRef.value in checkouts {
          return d.externalRef;
        }
      }
      found := LatestWithRef(d.ref);
    }

    method FindLinkedCompany(ref: Ref) returns (found: Option<CompanyId>)
      ensures FindsLinked(View(), ref, found)
    {
      found := None;
      var todo := licenses.Keys;
      while todo != {} && found.None?
        invariant todo <= licenses.Keys
        invariant found.None? ==> forall c :: LicenseCarriesRef(View(), c, ref) ==> c in todo
        invariant found.Some? ==> LicenseCarriesRef(View(), found.value, ref)
        decreases todo
      {
        var c :| c in todo;
        todo := todo - {c};
        if licenses[c].providerLinked && licenses[c].providerRef == Some(ref) {
          found := Some(c);
        }
      }
    }

    // ----- one provider answer -----

    method UpdateCheckout(id: Option<CheckoutId>, status: CheckoutStatus, ref: Ref, now: Time)
      requires id.Some? ==> id.value in checkouts
      modifies this`checkouts
      ensures checkouts == if id.None? then old(checkouts)
        else old(checkouts)[id.value := old(checkouts)[id.value].(status := status, providerRef := Some(ref), updatedAt := now)]
    {
      if id.Some? {
        checkouts := checkouts[id.value := checkouts[id.value].(status := status, providerRef := Some(ref), updatedAt := now)];
      }
    }

    /** The license to write: the stored row, or one with the column defaults. */
    method RowOrBlank(c: CompanyId, plan: Plan) returns (row: License)
      ensures row == LicenseOf(View(), c).GetOr(BlankLicense(plan))
    {
      row := if c in licenses then licenses[c] else BlankLicense(plan);
    }

    /** What the applying of an answer reads before it decides. */
    method ReadAnswer(d: Details, fallback: Option<CompanyId>) returns (a: Answer, company: Option<CompanyId>)
      ensures a.details == d && LookedUp(View(), a)
      ensures a.checkout.Some? ==> a.checkout.value in checkouts
      ensures company == Target(View(), a, fallback)
    {
      var found := FindCheckoutSession(d);
      var linked := FindLinkedCompany(d.ref);
      a := Answer(d, found, linked);
      if found.Some? {
        company := Some(checkouts[found.value].company);
      } else if fallback.Some? {
        company := fallback;
      } else {
        company := linked;
      }
    }

    /** The plan an answer stands for at company `c`. */
    method ResolvePlan(a: Answer, c: CompanyId) returns (plan: Option<Plan>, byAmount: bool)
      requires a.checkout.Some? ==> a.checkout.value in checkouts
      ensures byAmount == AmountUpgrade(View(), a.details, c)
      ensures plan == ResolvedPlan(View(), a, c)
    {
      byAmount := false;
      if c in licenses {
        var l := licenses[c];
        byAmount := l.pendingPlan == Some(Pro) && l.plan.Basic? && a.details.amountCents == Some(proPriceCents);
      }
      if byAmount {
        plan := Some(Pro);
      } else if a.checkout.Some? {
        plan := Some(checkouts[a.checkout.value].plan);
      } else if c in licenses && licenses[c].plan != Free {
        plan := Some(licenses[c].plan);
      } else {
        plan := None;
      }
    }

    method Activate(a: Answer, c: CompanyId, plan: Plan, byAmount: bool, now: Time)
      requires a.checkout.Some? ==> a.checkout.value in checkouts
      requires byAmount == AmountUpgrade(View(), a.details, c)
      modifies this
      ensures View() == old(View()).(
        licenses := old(licenses)[c := ActivatedLicense(old(View()), a, c, plan)],
        checkouts := CheckoutsAfter(old(View()), a, Verdict.Activate, now))
    {
      var d := a.details;
      var row := RowOrBlank(c, plan);
      UpdateCheckout(a.checkout, COMPLETED, d.ref, now);
      if a.checkout.Some? || !row.cancelAtPeriodEnd {
        row := row.(cancelAtPeriodEnd := false, cancelRequestedAt := None, canceledAt := None);
      }
      if row.pendingPlan.None? || a.checkout.Some? || (row.pendingPlan == Some(plan) && byAmount) {
        row := row.(pendingPlan := None, pendingRequestedAt := None);
      }
      row := row.(plan := plan, status := ACTIVE, expiresAt := None, syncEnabled := true);
      row := row.(providerLinked := true, providerRef := Some(d.ref), billingStatus := Some(Provider(d.status)));
      row := row.(periodStart := d.periodStart, periodEnd := d.periodEnd, nextPayment := d.nextPayment);
      licenses := licenses[c := row];
    }

    /** Access is kept until an end that lies ahead, and the cancel is recorded. */
    method KeepAccess(d: Details, c: CompanyId, plan: Plan, end: Time, now: Time)
      modifies this`licenses
      ensures licenses == old(licenses)[c := KeptLicense(d, LicenseOf(old(View()), c).GetOr(BlankLicense(plan)), end, now)]
    {
      var row := RowOrBlank(c, plan);
      row := row.(expiresAt := None, syncEnabled := true, providerLinked := true, providerRef := Some(d.ref));
      if d.periodStart.Some? {
        row := row.(periodStart := d.periodStart);
      }
      row := row.(periodEnd := Some(end), nextPayment := d.nextPayment);
      row := row.(cancelAtPeriodEnd := true, cancelRequestedAt := Some(now), billingStatus := Some(Provider(d.status)));
      licenses := licenses[c := row];
    }

    /** A cancelled or expired subscription that is not a failed checkout attempt. */
    method EndSubscription(a: Answer, c: CompanyId, plan: Plan, now: Time) returns (dropped: bool)
      requires a.checkout.Some? ==> a.checkout.value in checkouts
      requires ResolvedPlan(View(), a, c) == Some(plan) && IsDowngrade(a.details.status)
      requires !Judge(View(), a, c, plan, now).FailCheckout?
      modifies this
      ensures var v := Judge(old(View()), a, c, plan, now);
              (v.KeepUntil? || v.DropToFree?) && dropped == v.DropToFree? &&
              View() == WithLicense(old(View()), c, LicenseAfter(old(View()), a, c, plan, v, now)).(
                checkouts := CheckoutsAfter(old(View()), a, v, now))
    {
      var d := a.details;
      UpdateCheckout(a.checkout, if d.status.Expired? then CHECKOUT_EXPIRED else CANCELLED, d.ref, now);
      var end := d.periodEnd;
      if end.None? && c in licenses {
        end := licenses[c].periodEnd;
      }
      if end.Some? && end.value > now {
        KeepAccess(d, c, plan, end.value, now);
        return false;
      }
      var row := RowOrBlank(c, Free);
      licenses := licenses[c := FreeLicense(row, Provider(d.status), now)];
      return true;
    }

    method PauseLicense(d: Details, c: CompanyId, now: Time)
      modifies this`licenses
      ensures licenses == if c in old(licenses) then old(licenses)[c := PausedLicense(d, old(licenses)[c], now)] else old(licenses)
    {
      if c !in licenses {
        return;
      }
      var row := licenses[c].(providerLinked := true, providerRef := Some(d.ref));
      if d.periodStart.Some? {
        row := row.(periodStart := d.periodStart);
      }
      var end := if d.periodEnd.Some? then d.periodEnd else row.periodEnd;
      if end.Some? && end.value > now {
        row := row.(periodEnd := end);
      }
      if d.nextPayment.Some? {
        row := row.(nextPayment := d.nextPayment);
      }
      licenses := licenses[c := row.(billingStatus := Some(Provider(Paused)))];
    }

    /** A paid subscription takes effect unless another subscription holds the license and
        this one may not take over. */
    method ApplyPaid(a: Answer, c: CompanyId, plan: Plan, byAmount: bool, now: Time) returns (result: Action)
      requires a.checkout.Some? ==> a.checkout.value in checkouts
      requires IsPaidActivation(a.details.status) && byAmount == AmountUpgrade(View(), a.details, c)
      modifies this
      ensures var v := Judge(old(View()), a, c, plan, now);
              result == ActionOf(v) &&
              View() == WithLicense(old(View()), c, LicenseAfter(old(View()), a, c, plan, v, now)).(
                checkouts := CheckoutsAfter(old(View()), a, v, now))
    {
      var current := if c in licenses then licenses[c].providerRef else None;
      if a.checkout.Some? && current.Some? && current.value != a.details.ref {
        var session := checkouts[a.checkout.value];
        var matchesPending := licenses[c].pendingPlan == Some(session.plan);
        if session.status != PENDING || !(matchesPending || (licenses[c].plan.Basic? && session.plan.Pro?)) {
          assert View().licenses == WithLicense(View(), c, LicenseOf(View(), c)).licenses;
          return IgnoredUnknown;
        }
      }
      if plan.Free? {
        assert View().licenses == WithLicense(View(), c, LicenseOf(View(), c)).licenses;
        return IgnoredUnknown;
      }
      Activate(a, c, plan, byAmount, now);
      return Activated;
    }

    /** A refused or abandoned checkout attempt is closed, and with it the plan it was for. */
    method CloseAttempt(a: Answer, c: CompanyId, plan: Plan, now: Time)
      requires a.checkout.Some? && a.checkout.value in checkouts
      modifies this
      ensures View() == WithLicense(old(View()), c, LicenseAfter(old(View()), a, c, plan, FailCheckout, now)).(
                checkouts := CheckoutsAfter(old(View()), a, FailCheckout, now))
    {
      var matchesPending := c in licenses && licenses[c].pendingPlan == Some(checkouts[a.checkout.value].plan);
      UpdateCheckout(a.checkout, FailedCheckoutStatus(a.details.status), a.details.ref, now);
      if matchesPending {
        licenses := licenses[c := licenses[c].(pendingPlan := None, pendingRequestedAt := None)];
      }
      assert View().licenses == WithLicense(old(View()), c, LicenseAfter(old(View()), a, c, plan, FailCheckout, now)).licenses;
    }

    /** Everything but a paid subscription: failed attempts, the end of a subscription, pauses
        and neutral notices. */
    method ApplyUnpaid(a: Answer, c: CompanyId, plan: Plan, now: Time) returns (result: Action)
      requires a.checkout.Some? ==> a.checkout.value in checkouts
      requires ResolvedPlan(View(), a, c) == Some(plan) && !IsPaidActivation(a.details.status)
      modifies this
      ensures var v := Judge(old(View()), a, c, plan, now);
              result == ActionOf(v) &&
              View() == WithLicense(old(View()), c, LicenseAfter(old(View()), a, c, plan, v, now)).(
                checkouts := CheckoutsAfter(old(View()), a, v, now))
    {
      var d, s := a.details, a.details.status;
      var abandoned := AbandonedAttempt(a, c);
      if a.checkout.Some? && (s.Rejected? || ((IsDowngrade(s) || s.Failed?) && abandoned)) {
        CloseAttempt(a, c, plan, now);
        return Unchanged;
      }
      if IsDowngrade(s) {
        var dropped := EndSubscription(a, c, plan, now);
        return if dropped then Downgraded else Unchanged;
      }
      if s.Paused? {
        PauseLicense(d, c, now);
        UpdateCheckout(a.checkout, PENDING, d.ref, now);
        return Unchanged;
      }
      assert View().licenses == WithLicense(old(View()), c, LicenseOf(old(View()), c)).licenses;
      if IsNeutral(s) {
        UpdateCheckout(a.checkout, PENDING, d.ref, now);
        return Unchanged;
      }
      return IgnoredUnknown;
    }

    /** The checkout, if any, is of another subscription, for the pending plan, or of a company
        without a subscription. */
    method AbandonedAttempt(a: Answer, c: CompanyId) returns (abandoned: bool)
      requires a.checkout.Some? ==> a.checkout.value in checkouts
      ensures abandoned <==> SessionOf(View(), a).Some? &&
                             (OtherSubscription(View(), a, c) || MatchesPendingPlan(View(), a, c) || RefOf(View(), c).None?)
    {
      if a.checkout.None? {
        return false;
      }
      var current := if c in licenses then licenses[c].providerRef else None;
      var pending := if c in licenses then licenses[c].pendingPlan else None;
      return current.None? || current.value != a.details.ref || pending == Some(checkouts[a.checkout.value].plan);
    }

    /** Applying what the provider says about a subscription. */
    method ApplyMercadoPagoDetails(d: Details, fallback: Option<CompanyId>, now: Time) returns (result: Action, a: Answer)
      modifies this
      ensures a.details == d && LookedUp(old(View()), a)
      ensures View() == ApplyDetails(old(View()), a, fallback, now).state
      ensures result == ApplyDetails(old(View()), a, fallback, now).action
    {
      var company;
      a, company := ReadAnswer(d, fallback);
      if company.None? {
        return IgnoredMissingSession, a;
      }
      var plan, byAmount := ResolvePlan(a, company.value);
      if plan.None? {
        return IgnoredMissingSession, a;
      }
      if IsPaidActivation(d.status) {
        result := ApplyPaid(a, company.value, plan.value, byAmount, now);
      } else {
        result := ApplyUnpaid(a, company.value, plan.value, now);
      }
    }

    // ----- scheduled transitions -----

    method DowngradeToFree(c: CompanyId, status: BillingStatus, canceledAt: Time)
      requires c in licenses
      modifies this`licenses
      ensures licenses == old(licenses)[c := FreeLicense(old(licenses)[c], status, canceledAt)]
    {
      var row := licenses[c].(plan := Free, status := ACTIVE, expiresAt := None, syncEnabled := true);
      row := row.(providerLinked := false, providerRef := None, periodStart := None, periodEnd := None, nextPayment := None);
      row := row.(cancelAtPeriodEnd := false, cancelRequestedAt := None, canceledAt := Some(canceledAt));
      row := row.(pendingPlan := None, pendingRequestedAt := None, billingStatus := Some(status));
      licenses := licenses[c := row];
    }

    method ApplyScheduledTransitions(c: CompanyId, now: Time)
      modifies this`licenses
      ensures View() == ApplyScheduled(old(View()), c, now)
    {
      if c !in licenses {
        return;
      }
      var l := licenses[c];
      var periodEnded := l.periodEnd.None? || l.periodEnd.value <= now;
      if l.cancelAtPeriodEnd && periodEnded {
        DowngradeToFree(c, if l.billingStatus.Some? then l.billingStatus.value else CancelledPeriodEnded,
                        if l.canceledAt.Some? then l.canceledAt.value else now);
        return;
      }
      if l.plan.Pro? && l.pendingPlan == Some(Basic) && periodEnded {
        licenses := licenses[c := l.(plan := Basic, status := ACTIVE, expiresAt := None, syncEnabled := true,
                                     pendingPlan := None, pendingRequestedAt := None,
                                     billingStatus := Some(DowngradeEffective))];
      }
      assert licenses == old(licenses)[c := Transitioned(l, now)];
    }

    // ----- owner actions -----

    method SetPendingPlan(c: CompanyId, plan: Plan, now: Time)
      requires c in licenses
      modifies this`licenses
      ensures View() == SetPending(old(View()), c, plan, now)
    {
      licenses := licenses[c := licenses[c].(pendingPlan := Some(plan), pendingRequestedAt := Some(now))];
    }

    method StartSubscription(c: CompanyId, plan: Plan, reply: CheckoutReply, id: CheckoutId, now: Time) returns (outcome: Outcome)
      requires id !in checkouts
      modifies this
      ensures (View(), outcome) == Subscribe(old(View()), c, plan, reply, id, now)
    {
      if c !in licenses {
        return LicenseNotFound;
      }
      if licenses[c].plan == plan && licenses[c].status == ACTIVE {
        return AlreadyOnPlan;
      }
      checkouts := checkouts[id := Checkout(c, plan, PENDING, None, now)];
      match reply {
        case Created(ref) =>
          checkouts := checkouts[id := checkouts[id].(providerRef := Some(ref), updatedAt := now)];
          assert checkouts == old(checkouts)[id := Checkout(c, plan, PENDING, Some(ref), now)];
          SetPendingPlan(c, plan, now);
          outcome := Done;
        case _ =>
          checkouts := checkouts[id := checkouts[id].(status := CANCELLED, updatedAt := now)];
          assert checkouts == old(checkouts)[id := Checkout(c, plan, CANCELLED, None, now)];
          outcome := SubscribeUnavailable;
      }
    }

    method CancelSubscription(c: CompanyId, atOnce: bool, reply: Option<Details>, now: Time)
      returns (outcome: Outcome, told: Option<Answer>)
      modifies this
      ensures told.Some? ==> reply == Some(told.value.details) && LookedUp(old(View()), told.value)
      ensures RefOf(old(View()), c).Some? && reply.Some? ==> told.Some?
      ensures (View(), outcome) == Cancel(old(View()), c, atOnce, told, now)
    {
      told := None;
      if c !in licenses {
        return LicenseNotFound, told;
      }
      if licenses[c].providerRef.Some? {
        if reply.None? {
          return ProviderFailed, told;
        }
        var _, a := ApplyMercadoPagoDetails(reply.value, Some(c), now);
        told := Some(a);
      }
      if c !in licenses {
        return LicenseNotFound, told;
      }
      var current := licenses[c];
      if current.periodEnd.Some? && current.periodEnd.value > now {
        licenses := licenses[c := current.(
          cancelAtPeriodEnd := true, cancelRequestedAt := Some(now), canceledAt := None,
          billingStatus := Some(if atOnce then CustomerCancelNowPeriodActive else CustomerCancelPeriodEnd))];
      } else {
        DowngradeToFree(c, CustomerCancelled, now);
      }
      return Done, told;
    }

    method ResumeSubscription(c: CompanyId, reply: Option<Details>) returns (outcome: Outcome)
      modifies this`licenses
      ensures (View(), outcome) == Resume(old(View()), c, reply)
    {
      if c !in licenses {
        return LicenseNotFound;
      }
      if licenses[c].providerRef.None? || reply.None? {
        return NewCheckoutNeeded;
      }
      var status := reply.value.status;
      if !IsPaidActivation(status) || licenses[c].plan == Free {
        return NewCheckoutNeeded;
      }
      var row := licenses[c].(cancelAtPeriodEnd := false, cancelRequestedAt := None, canceledAt := None);
      licenses := licenses[c := row.(billingStatus := Some(Provider(status)), nextPayment := reply.value.nextPayment)];
      return Done;
    }

    method ChangePlanTo(c: CompanyId, wanted: Plan, cancelReply: Option<Details>, amountAccepted: bool,
                        checkoutReply: CheckoutReply, id: CheckoutId, now: Time)
      returns (outcome: Outcome, told: Option<Answer>)
      requires id !in checkouts
      modifies this
      ensures told.Some? ==> cancelReply == Some(told.value.details) && LookedUp(old(View()), told.value)
      ensures wanted.Free? && !PlanOf(old(View()), c).Free? && RefOf(old(View()), c).Some? && cancelReply.Some? ==> told.Some?
      ensures (View(), outcome) == ChangePlan(old(View()), c, wanted, ChangeReplies(told, amountAccepted, checkoutReply, id), now)
    {
      told := None;
      if c !in licenses {
        return LicenseNotFound, told;
      }
      var current := licenses[c].plan;
      if wanted == current {
        return AlreadyOnPlan, told;
      }
      if wanted == Free {
        outcome, told := CancelSubscription(c, false, cancelReply, now);
        return;
      }
      if current == Free {
        outcome := StartSubscription(c, wanted, checkoutReply, id, now);
        return;
      }
      if current == Basic {
        var linked := licenses[c].providerRef.Some?;
        SetPendingPlan(c, Pro, now);
        if linked && amountAccepted {
          return Done, told;
        }
        outcome := StartSubscription(c, Pro, checkoutReply, id, now);
        return;
      }
      SetPendingPlan(c, Basic, now);
      return Done, told;
    }

    // ----- refresh -----

    method LatestCandidateOf(c: CompanyId, alsoCompleted: bool) returns (found: Option<CheckoutId>)
      ensures found.None? ==> forall k :: !RefreshCandidate(View(), k, c, alsoCompleted)
      ensures found.Some? ==> LatestCandidate(View(), found.value, c, alsoCompleted)
    {
      found := None;
      var todo := checkouts.Keys;
      while todo != {}
        invariant todo <= checkouts.Keys
        invariant found.None? ==> forall k :: RefreshCandidate(View(), k, c, alsoCompleted) ==> k in todo
        invariant found.Some? ==> RefreshCandidate(View(), found.value, c, alsoCompleted)
        invariant found.Some? ==> forall k :: RefreshCandidate(View(), k, c, alsoCompleted) && k !in todo ==>
                                    checkouts[k].updatedAt <= checkouts[found.value].updatedAt
        decreases todo
      {
        var k :| k in todo;
        todo := todo - {k};
        var row := checkouts[k];
        if row.company == c && row.providerRef.Some? && (row.status == PENDING || (alsoCompleted && row.status == COMPLETED)) {
          if found.None? || checkouts[found.value].updatedAt < row.updatedAt {
            found := Some(k);
          }
        }
      }
    }

    /** The reference a refresh asks the provider about. */
    method RefreshReference(c: CompanyId) returns (asked: Option<Ref>)
      ensures RefreshAsks(View(), c, asked)
    {
      var pending := LatestCandidateOf(c, false);
      if pending.Some? {
        assert RefreshCandidate(View(), pending.value, c, false);
        return checkouts[pending.value].providerRef;
      }
      if c in licenses && licenses[c].providerRef.Some? {
        return licenses[c].providerRef;
      }
      var latest := LatestCandidateOf(c, true);
      if latest.Some? {
        assert RefreshCandidate(View(), latest.value, c, true);
        return checkouts[latest.value].providerRef;
      }
      return None;
    }

    /** Refresh of one company; `provider` answers the question about a reference. */
    method RefreshCompany(c: CompanyId, provider: Ref -> Option<Details>, now: Time)
      returns (outcome: Outcome, asked: Option<Ref>, told: Option<Answer>)
      modifies this
      ensures RefreshAsks(old(View()), c, asked)
      ensures told.Some? ==> asked.Some? && provider(asked.value) == Some(told.value.details) && LookedUp(old(View()), told.value)
      ensures asked.Some? && provider(asked.value).Some? ==> told.Some?
      ensures (View(), outcome) == Refresh(old(View()), c, asked, told, now)
    {
      told := None;
      asked := RefreshReference(c);
      if asked.Some? {
        var reply := provider(asked.value);
        if reply.None? {
          return ProviderFailed, asked, told;
        }
        var _, a := ApplyMercadoPagoDetails(reply.value, Some(c), now);
        told := Some(a);
      }
      ApplyScheduledTransitions(c, now);
      return Done, asked, told;
    }

    // ----- administrator actions -----

    method ExtendLicense(c: CompanyId, days: int, now: Time) returns (applied: bool)
      modifies this`licenses
      ensures View() == Edited(old(View()), c, l => Extended(l, days, now))
      ensures applied <==> c in old(licenses) && Extended(old(licenses)[c], days, now) != old(licenses)[c]
    {
      if c !in licenses || days < 1 || days > MAX_EXTENSION_DAYS {
        assert c in licenses ==> licenses == licenses[c := Extended(licenses[c], days, now)];
        return false;
      }
      var l := licenses[c];
      var runsOn := l.expiresAt.Some? && l.expiresAt.value > now;
      var recover := l.status.EXPIRED? || l.status.SUSPENDED? || (l.expiresAt.Some? && l.expiresAt.value <= now);
      if !runsOn && !recover {
        assert licenses == licenses[c := Extended(l, days, now)];
        return false;
      }
      var base := if runsOn then l.expiresAt.value else now;
      var row := l.(expiresAt := Some(base + days * DAY_MS));
      if recover {
        row := row.(status := ACTIVE);
      }
      licenses := licenses[c := row];
      return true;
    }

    method SuspendLicense(c: CompanyId) returns (applied: bool)
      modifies this`licenses
      ensures View() == Edited(old(View()), c, Suspended)
      ensures applied <==> licenses != old(licenses)
    {
      applied := c in licenses && licenses[c].status != SUSPENDED;
      if applied {
        licenses := licenses[c := licenses[c].(status := SUSPENDED)];
      }
      assert c in licenses ==> licenses == old(licenses)[c := Suspended(old(licenses)[c])];
    }

    method ReactivateLicense(c: CompanyId, now: Time) returns (applied: bool)
      modifies this`licenses
      ensures View() == Edited(old(View()), c, l => Reactivated(l, now))
      ensures applied <==> licenses != old(licenses)
    {
      applied := c in licenses && licenses[c].status == SUSPENDED &&
                 (licenses[c].expiresAt.None? || licenses[c].expiresAt.value > now);
      if applied {
        licenses := licenses[c := licenses[c].(status := ACTIVE)];
      }
      assert c in licenses ==> licenses == old(licenses)[c := Reactivated(old(licenses)[c], now)];
    }
  }
}
