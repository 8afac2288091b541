/** What a delivery does to licenses, checkouts, invoices and its event, case by case. */
module WebhookOutcomes {
  import opened Wrappers
  import opened Text
  import opened BillingModel
  import opened BillingActions
  import opened Invoices
  import opened Webhook
  import BillingOutcomes
  import BillingPlans

  /** A delivery the service works on: signed, with an object, and not finished before. */
  predicate Accepted(w: World, d: Delivery) {
    d.signed && d.hasDataId &&
    !(d.key in w.events && w.events[d.key] in {EVENT_PROCESSED, EVENT_IGNORED, EVENT_IGNORED_UNKNOWN})
  }

  /** Other deliveries touch no license, checkout or invoice: an unsigned one is rejected, a
      finished one is answered with its status, and one without object is ignored for good. */
  lemma RefusedDelivery(w: World, d: Delivery, now: Time)
    requires !Accepted(w, d)
    ensures var (after, response) := Deliver(w, d, now);
            after.billing == w.billing && after.invoices == w.invoices &&
            (!d.signed ==> response.Rejected401? && after == w) &&
            (d.signed && d.key in w.events && w.events[d.key] in {EVENT_PROCESSED, EVENT_IGNORED, EVENT_IGNORED_UNKNOWN} ==>
              response == Duplicate(w.events[d.key]) && after == w) &&
            (response.Handled? ==> response.now.EVENT_IGNORED? && after.events == w.events[d.key := EVENT_IGNORED])
  {
  }

  // ----- subscription and payment events -----

  /** A subscription event acts on licenses and checkouts as the notice it carries, and its
      final status tells what became of it. */
  lemma SubscriptionEventIsNotice(w: World, d: Delivery, now: Time)
    requires Accepted(w, d) && d.work.About?
    ensures var (after, response) := Deliver(w, d, now);
            var action := ApplyDetails(w.billing, d.work.answer, None, now).action;
            after.billing == Next(w.billing, DoNotice(d.work.answer, None), now) && response.Handled? &&
            after.events == w.events[d.key := response.now] &&
            (response.now.EVENT_PROCESSED? <==> action in {Activated, Downgraded, Unchanged}) &&
            (response.now.EVENT_IGNORED_UNKNOWN? <==> action.IgnoredUnknown?) &&
            (response.now.EVENT_IGNORED? <==> action.IgnoredMissingSession?)
  {
  }

  /** The fetched payments are reconciled exactly for a company the reference is linked to, with
      its plan as the answer leaves it. */
  lemma SubscriptionEventReconciles(w: World, d: Delivery, now: Time)
    requires Accepted(w, d) && d.work.About? && UniqueIds(w.invoices)
    ensures var after := Deliver(w, d, now).0;
            var target := Target(w.billing, d.work.answer, None);
            match target
            case None => after.invoices == w.invoices
            case Some(c) =>
              var linked := (c in after.billing.licenses && after.billing.licenses[c].providerLinked && RefOf(after.billing, c) == Some(d.work.answer.details.ref)) ||
                            exists k :: k in after.billing.checkouts && after.billing.checkouts[k].company == c &&
                                        after.billing.checkouts[k].providerRef == Some(d.work.answer.details.ref);
              (linked && d.work.payments.Some? ==>
                RowByRow(w.invoices, after.invoices, c, PlanOf(after.billing, c), d.work.payments.value)) &&
              (!linked || d.work.payments.None? ==> after.invoices == w.invoices)
  {
    var target := Target(w.billing, d.work.answer, None);
    var after := Deliver(w, d, now).0;
    if target.Some? {
      var c := target.value;
      var ref := d.work.answer.details.ref;
      assert (exists k :: k in after.billing.checkouts && after.billing.checkouts[k].company == c && CarriesRef(after.billing, k, ref)) <==>
             (exists k :: k in after.billing.checkouts && after.billing.checkouts[k].company == c && after.billing.checkouts[k].providerRef == Some(ref));
      if d.work.payments.Some? {
        ReconcileRowByRow(w.invoices, c, PlanOf(after.billing, c), d.work.payments.value);
      }
    }
  }

  // ----- charges -----

  /** A charge of an owner whose subscription answers acts on licenses and checkouts as a notice
      with that answer about that owner; its event is processed. */
  lemma ChargeActsAsNotice(w: World, d: Delivery, now: Time)
    requires Accepted(w, d) && d.work.Charged? && d.work.payment.subscription.Some? && d.work.owner.Some? && d.work.followUp.Some?
    ensures var (after, response) := Deliver(w, d, now);
            after.billing == Next(w.billing, DoNotice(d.work.followUp.value, d.work.owner), now) &&
            response == Handled(EVENT_PROCESSED) && after.events == w.events[d.key := EVENT_PROCESSED]
  {
  }

  /** So a charge that pays for a plan, and is not held back, leaves the company on that plan, or
      on PRO when it is recognised as an upgrade by its amount. */
  lemma PaidChargeGivesThePlan(w: World, d: Delivery, now: Time, c: CompanyId, plan: Plan)
    requires Accepted(w, d) && d.work.Charged? && d.work.payment.subscription.Some? && d.work.owner.Some? && d.work.followUp.Some?
    requires BillingPlans.PaysFor(w.billing, d.work.followUp.value, d.work.owner, c, plan)
    requires !BillingOutcomes.HeldBack(w.billing, d.work.followUp.value, c)
    ensures PlanOf(Deliver(w, d, now).0.billing, c) ==
              if AmountUpgrade(w.billing, d.work.followUp.value.details, c) then Pro else plan
    ensures RefOf(Deliver(w, d, now).0.billing, c) == Some(d.work.followUp.value.details.ref)
  {
    ChargeActsAsNotice(w, d, now);
    BillingOutcomes.PaidAnswer(w.billing, d.work.followUp.value, d.work.owner, now, c);
  }

  /** A charge without subscription or owner is ignored; one whose subscription cannot be fetched
      changes no license and stays retryable. */
  lemma UnansweredCharge(w: World, d: Delivery, now: Time)
    requires Accepted(w, d) && d.work.Charged?
    ensures var (after, response) := Deliver(w, d, now);
            (d.work.payment.subscription.None? || d.work.owner.None? ==>
              response == Handled(EVENT_IGNORED) && after.billing == w.billing && after.invoices == w.invoices) &&
            (d.work.payment.subscription.Some? && d.work.owner.Some? && d.work.followUp.None? ==>
              response == Handled(EVENT_FAILED_RETRYABLE) && after.billing == w.billing)
  {
  }

  // ----- invoices -----

  /** The identifier an invoice is filed under: the invoice's, or the payment's when the payment
      has no invoice identifier, without surrounding white space. */
  function FiledUnder(p: Payment): Option<string> {
    var named := if p.invoiceId.Some? then p.invoiceId else p.paymentId;
    match named
    case None => None
    case Some(text) => if Trim(text) == "" then None else Some(Trim(text))
  }

  /** The plan shown on the invoice: the plan held, and for a company on FREE the paid plan of
      the checkout of the subscription. */
  function PlanShown(held: Plan, p: Payment): Option<Plan> {
    match held
    case Basic => Some(Basic)
    case Pro => Some(Pro)
    case Free => if p.subscription.Some? && p.sessionPlan.Some? && !p.sessionPlan.value.Free? then p.sessionPlan else None
  }

  /** After filing a payment the ledger shows it: the row with its identifier carries the
      company, the subscription, the plan, the status, the amount and the rest of the payment,
      unless it has no identifier or the row was another company's, and then nothing changes. */
  lemma FiledPaymentIsShown(rows: seq<Invoice>, c: CompanyId, held: Plan, p: Payment)
    requires UniqueIds(rows)
    ensures var after := Upsert(rows, c, held, p);
            match FiledUnder(p)
            case None => after == rows
            case Some(id) =>
              HasId(after, id) &&
              (after[RowOf(after, id)] == Invoice(c, id, p.subscription, PlanShown(held, p), p.status, p.amountCents, p.body) ||
               (after == rows && after[RowOf(after, id)].company != c))
  {
    if FiledUnder(p).Some? {
      var after, id := Upsert(rows, c, held, p), FiledUnder(p).value;
      UpsertFiles(rows, c, held, p);
      assert StableId(p) == Some(id);
      var at := if HasId(rows, id) then RowOf(rows, id) else |rows|;
      if !Skips(rows, c, p) {
        assert after[at].providerInvoiceId == id && after[RowOf(after, id)].providerInvoiceId == id;
        assert RowOf(after, id) == at;
        assert after[at] == RowFor(c, held, p);
        assert InferPlan(held, p) == PlanShown(held, p);
      }
    }
  }

  /** Also through a charge: its invoice is filed under the plan held before the answer. */
  lemma ChargeFilesInvoice(w: World, d: Delivery, now: Time)
    requires Accepted(w, d) && d.work.Charged? && d.work.payment.subscription.Some? && d.work.owner.Some?
    ensures var c := d.work.owner.value;
            Deliver(w, d, now).0.invoices == Upsert(w.invoices, c, PlanOf(w.billing, c), d.work.payment)
  {
  }
}
