/** Applying the same paid answer twice. */
module BillingRepeat {
  import opened Wrappers
  import opened BillingModel
  import opened BillingActions

  /** The checkout rows without their time stamps. */
  ghost predicate SameButStamps(a: map<CheckoutId, Checkout>, b: map<CheckoutId, Checkout>) {
    a.Keys == b.Keys && forall k :: k in a ==> a[k].(updatedAt := 0) == b[k].(updatedAt := 0)
  }

  /** A second delivery of the same details, after every time stamp already stored, resolves
      to the same checkout as the first. */
  lemma SecondLookupAgrees(st: State, a: Answer, second: Answer, fallback: Option<CompanyId>, now: Time)
    requires LookedUp(st, a) && ApplyDetails(st, a, fallback, now).action.Activated?
    requires forall k :: k in st.checkouts ==> st.checkouts[k].updatedAt < now
    requires second.details == a.details && LookedUp(ApplyDetails(st, a, fallback, now).state, second)
    ensures second.checkout == a.checkout
  {
    var after := ApplyDetails(st, a, fallback, now).state;
    if a.details.externalRef.Some? && a.details.externalRef.value in st.checkouts {
    } else if a.checkout.Some? {
      assert CarriesRef(after, a.checkout.value, a.details.ref);
    } else {
      assert forall k :: !CarriesRef(st, k, a.details.ref);
      assert forall k :: CarriesRef(after, k, a.details.ref) ==> CarriesRef(st, k, a.details.ref);
    }
  }

  /** The exception: the first application upgrades by amount while the checkout it resolves
      to names the BASIC plan, so the second application takes that plan back. */
  predicate UpgradeTakenBack(st: State, a: Answer, c: CompanyId) {
    AmountUpgrade(st, a.details, c) && SessionOf(st, a).Some? && SessionOf(st, a).value.plan.Basic?
  }

  /** When the second application resolves to the same company, it changes the rows, apart from
      time stamps, exactly in that case. */
  lemma SameCompanyChangesExactly(
      st: State, a: Answer, second: Answer, fallback: Option<CompanyId>, now: Time, later: Time, c: CompanyId)
    requires ApplyDetails(st, a, fallback, now).action.Activated? && Target(st, a, fallback) == Some(c)
    requires second.details == a.details && second.checkout == a.checkout
    requires SessionOf(st, a).None? ==> fallback.Some? || second.linked == Some(c)
    ensures var once := ApplyDetails(st, a, fallback, now).state;
            var twice := ApplyDetails(once, second, fallback, later).state;
            (twice.licenses == once.licenses && SameButStamps(once.checkouts, twice.checkouts))
            <==> !UpgradeTakenBack(st, a, c)
  {
    var once := ApplyDetails(st, a, fallback, now).state;
    var twice := ApplyDetails(once, second, fallback, later).state;
    assert Target(once, second, fallback) == Some(c);
    assert RefOf(once, c) == Some(a.details.ref);
    if UpgradeTakenBack(st, a, c) {
      assert PlanOf(once, c).Pro? && PlanOf(twice, c).Basic?;
    } else {
      assert !AmountUpgrade(once, a.details, c);
      assert SessionOf(st, a).Some? && SessionOf(st, a).value.plan.Free? ==> twice == once;
      assert LicenseOf(twice, c) == LicenseOf(once, c);
      assert twice.licenses == once.licenses;
    }
  }

  /** The license shows the details already, as an activation without checkout leaves it. */
  predicate Shows(l: License, d: Details) {
    l.status.ACTIVE? && l.expiresAt.None? && l.syncEnabled && l.billingStatus == Some(Provider(d.status)) &&
    l.periodStart == d.periodStart && l.periodEnd == d.periodEnd && l.nextPayment == d.nextPayment &&
    (!l.cancelAtPeriodEnd ==> l.cancelRequestedAt.None? && l.canceledAt.None?) &&
    (l.pendingPlan.None? ==> l.pendingRequestedAt.None?)
  }

  /** The other exception: neither delivery resolves to a checkout or is told the company, and
      the second finds another paid license with the same reference, which does not show the
      details yet. References are not unique among licenses. */
  predicate AnotherLicenseAnswers(st: State, a: Answer, second: Answer, fallback: Option<CompanyId>, c: CompanyId) {
    SessionOf(st, a).None? && fallback.None? && second.linked.Some? && second.linked.value != c &&
    !PlanOf(st, second.linked.value).Free? &&
    (AmountUpgrade(st, a.details, second.linked.value) || !Shows(st.licenses[second.linked.value], a.details))
  }

  lemma OtherCompanyChangesExactly(
      st: State, a: Answer, second: Answer, now: Time, later: Time, c: CompanyId, d: CompanyId)
    requires ApplyDetails(st, a, None, now).action.Activated? && Target(st, a, None) == Some(c)
    requires SessionOf(st, a).None? && second.details == a.details && second.checkout == a.checkout
    requires second.linked == Some(d) && d != c && LicenseCarriesRef(st, d, a.details.ref)
    ensures var once := ApplyDetails(st, a, None, now).state;
            var twice := ApplyDetails(once, second, None, later).state;
            twice.checkouts == once.checkouts &&
            (twice.licenses == once.licenses <==> !AnotherLicenseAnswers(st, a, second, None, c))
  {
    var once := ApplyDetails(st, a, None, now).state;
    var twice := ApplyDetails(once, second, None, later).state;
    var l := st.licenses[d];
    assert once.licenses[d] == l && SessionOf(once, second).None?;
    if l.plan.Free? {
      assert twice == once;
    } else {
      var plan := if AmountUpgrade(st, a.details, d) then Pro else l.plan;
      assert twice.licenses == once.licenses[d := ActivatedLicense(once, second, d, plan)];
      assert ActivatedLicense(once, second, d, plan) == l <==> Shows(l, a.details) && !AmountUpgrade(st, a.details, d);
      assert twice.licenses == once.licenses <==> twice.licenses[d] == l;
    }
  }

  /** Delivering the same paid details again, later than every stored time stamp, changes the
      rows, apart from time stamps, exactly in one of the two cases. */
  lemma SecondApplicationChangesExactly(
      st: State, a: Answer, second: Answer, fallback: Option<CompanyId>, now: Time, later: Time, c: CompanyId)
    requires LookedUp(st, a) && ApplyDetails(st, a, fallback, now).action.Activated? && Target(st, a, fallback) == Some(c)
    requires forall k :: k in st.checkouts ==> st.checkouts[k].updatedAt < now
    requires second.details == a.details && LookedUp(ApplyDetails(st, a, fallback, now).state, second)
    ensures var once := ApplyDetails(st, a, fallback, now).state;
            var twice := ApplyDetails(once, second, fallback, later).state;
            (twice.licenses == once.licenses && SameButStamps(once.checkouts, twice.checkouts))
            <==> !UpgradeTakenBack(st, a, c) && !AnotherLicenseAnswers(st, a, second, fallback, c)
  {
    SecondLookupAgrees(st, a, second, fallback, now);
    ActivationLinks(st, a, fallback, now, c);
    if SessionOf(st, a).None? && fallback.None? && second.linked != Some(c) {
      OtherCompanyChangesExactly(st, a, second, now, later, c, second.linked.value);
    } else {
      SameCompanyChangesExactly(st, a, second, fallback, now, later, c);
    }
  }

  /** An activation links the license, and leaves the links of the others. */
  lemma ActivationLinks(st: State, a: Answer, fallback: Option<CompanyId>, now: Time, c: CompanyId)
    requires ApplyDetails(st, a, fallback, now).action.Activated? && Target(st, a, fallback) == Some(c)
    ensures var once := ApplyDetails(st, a, fallback, now).state;
            LicenseCarriesRef(once, c, a.details.ref) &&
            forall d :: d != c ==> (LicenseCarriesRef(once, d, a.details.ref) <==> LicenseCarriesRef(st, d, a.details.ref))
  {
  }

  // ----- the first exception happens -----

  const PAID := Answer(Details("r", Authorized, Some("k"), None, None, None, None), Some("k"), None)
  const PRICED := Answer(PAID.details.(amountCents := Some(8500)), Some("k"), Some("c"))

  /** An account, a BASIC checkout that is paid, an accepted request for PRO, and the notice at
      the PRO price, twice. */
  const UPGRADE_RUN := [
    At(1, DoCreate("c")), At(2, DoSubscribe("c", Basic, Created("r"), "k")), At(3, DoNotice(PAID, None)),
    At(4, DoChangePlan("c", Pro, ChangeReplies(None, true, Refused, "x"))),
    At(5, DoNotice(PRICED, None)), At(6, DoNotice(PRICED, None))]

  /** The rows of that run once the subscription is paid: the license and the checkout's stamp. */
  function Paid(plan: Plan, pending: Option<Plan>, askedAt: Option<Time>, stamp: Time): State {
    State(map["c" := BlankLicense(plan).(providerLinked := true, providerRef := Some("r"), pendingPlan := pending,
                                         pendingRequestedAt := askedAt, billingStatus := Some(Provider(Authorized)))],
          map["k" := Checkout("c", Basic, COMPLETED, Some("r"), stamp)], 8500)
  }

  function Asked(): State {
    State(map["c" := BlankLicense(Free).(pendingPlan := Some(Basic), pendingRequestedAt := Some(2))],
          map["k" := Checkout("c", Basic, PENDING, Some("r"), 2)], 8500)
  }

  lemma BasicIsBought()
    ensures Next(Next(NoAccounts(8500), DoCreate("c"), 1), UPGRADE_RUN[1].step, 2) == Asked()
    ensures Next(Asked(), DoNotice(PAID, None), 3) == Paid(Basic, None, None, 3)
  {
  }

  lemma ProIsAskedFor()
    ensures Next(Paid(Basic, None, None, 3), UPGRADE_RUN[3].step, 4) == Paid(Basic, Some(Pro), Some(4), 3)
  {
  }

  lemma PriceRaises()
    ensures Next(Paid(Basic, Some(Pro), Some(4), 3), DoNotice(PRICED, None), 5) == Paid(Pro, None, None, 5)
  {
  }

  lemma PriceLowers()
    ensures Next(Paid(Pro, None, None, 5), DoNotice(PRICED, None), 6) == Paid(Basic, None, None, 6)
  {
  }

  /** The second of the two identical notices takes the upgrade back. */
  lemma UpgradeIsTakenBack()
    ensures var st := NoAccounts(8500);
            LookedUp(StateAt(st, UPGRADE_RUN, 4), PRICED) && LookedUp(StateAt(st, UPGRADE_RUN, 5), PRICED) &&
            PlanOf(StateAt(st, UPGRADE_RUN, 4), "c").Basic? && PlanOf(StateAt(st, UPGRADE_RUN, 5), "c").Pro? &&
            PlanOf(StateAt(st, UPGRADE_RUN, 6), "c").Basic?
  {
    var st := NoAccounts(8500);
    BasicIsBought();
    ProIsAskedFor();
    PriceRaises();
    PriceLowers();
    RunIs(st, UPGRADE_RUN, [st, Next(st, DoCreate("c"), 1), Asked(), Paid(Basic, None, None, 3),
                            Paid(Basic, Some(Pro), Some(4), 3), Paid(Pro, None, None, 5), Paid(Basic, None, None, 6)]);
  }
}
