/**
 The provider webhook: each delivery carries a dedupe key, and the stored event status
 decides whether it is processed. Deliveries are handled one at a time.
 */
module Webhook {
  import opened Wrappers
  import opened BillingModel
  import opened Invoices
  import BillingStore

  type Key = string

  datatype EventStatus = EVENT_RECEIVED | EVENT_PROCESSED | EVENT_IGNORED | EVENT_IGNORED_UNKNOWN | EVENT_FAILED_RETRYABLE

  predicate Terminal(s: EventStatus) {
    s.EVENT_PROCESSED? || s.EVENT_IGNORED? || s.EVENT_IGNORED_UNKNOWN?
  }

  /** Everything a delivery can change. */
  datatype World = World(billing: State, invoices: seq<Invoice>, events: map<Key, EventStatus>)

  /** What the provider answers while one delivery is handled. */
  datatype Work =
    /** The provider cannot be asked about the event's object. */
    | LookupFails
    /** A subscription or payment event; `payments` is the batch to reconcile, if it can be fetched. */
    | About(answer: Answer, payments: Option<seq<Payment>>)
    /** An authorized-payment event: the payment, the company its subscription belongs to,
        and the answer about that subscription, if it can be fetched. */
    | Charged(payment: Payment, owner: Option<CompanyId>, followUp: Option<Answer>)

  datatype Delivery = Delivery(key: Key, signed: bool, hasDataId: bool, work: Work)

  datatype Response = Rejected401 | Duplicate(was: EventStatus) | Handled(now: EventStatus)

  // ----- processing one event -----

  predicate LinkedToCompany(st: State, c: CompanyId, ref: Ref) {
    LicenseCarriesRef(st, c, ref) || exists k :: k in st.checkouts && st.checkouts[k].company == c && CarriesRef(st, k, ref)
  }

  /** Checkout `k` is a most recently updated one carrying the reference, and it is `c`'s. */
  ghost predicate OwnsThrough(st: State, ref: Ref, k: CheckoutId, c: CompanyId) {
    CarriesRef(st, k, ref) && st.checkouts[k].company == c &&
    forall other :: CarriesRef(st, other, ref) ==> st.checkouts[other].updatedAt <= st.checkouts[k].updatedAt
  }

  /** `owner` is a possible company of a charge: that of a latest checkout carrying its
      subscription, else that of a license linked to it. */
  ghost predicate FindsOwner(st: State, ref: Option<Ref>, owner: Option<CompanyId>) {
    if ref.None? then owner.None?
    else if exists k :: CarriesRef(st, k, ref.value) then
      owner.Some? && exists k :: OwnsThrough(st, ref.value, k, owner.value)
    else FindsLinked(st, ref.value, owner)
  }

  predicate CheckoutOf(st: State, k: CheckoutId, c: CompanyId, ref: Ref) {
    CarriesRef(st, k, ref) && st.checkouts[k].company == c
  }

  ghost predicate LatestOf(st: State, k: CheckoutId, c: CompanyId, ref: Ref) {
    CheckoutOf(st, k, c, ref) &&
    forall other :: CheckoutOf(st, other, c, ref) ==> st.checkouts[other].updatedAt <= st.checkouts[k].updatedAt
  }

  /** `filled` is `raw` with a possible result of looking the plan of `c`'s checkout up. */
  ghost predicate Planned(st: State, c: CompanyId, raw: Payment, filled: Payment) {
    filled == raw.(sessionPlan := filled.sessionPlan) &&
    match filled.sessionPlan
    case None => raw.subscription.None? || forall k :: !CheckoutOf(st, k, c, raw.subscription.value)
    case Some(plan) =>
      raw.subscription.Some? && exists k :: LatestOf(st, k, c, raw.subscription.value) && st.checkouts[k].plan == plan
  }

  ghost predicate AllPlanned(st: State, c: CompanyId, raw: seq<Payment>, filled: seq<Payment>) {
    |filled| == |raw| && forall i :: 0 <= i < |raw| ==> Planned(st, c, raw[i], filled[i])
  }

  function StatusFor(action: Action): EventStatus {
    match action
    case IgnoredUnknown => EVENT_IGNORED_UNKNOWN
    case IgnoredMissingSession => EVENT_IGNORED
    case _ => EVENT_PROCESSED
  }

  /** A subscription or payment event: apply the answer, then reconcile the invoices of the
      company it was about when its reference is linked there. */
  function ProcessAbout(w: World, a: Answer, payments: Option<seq<Payment>>, now: Time): (World, EventStatus) {
    var applied := ApplyDetails(w.billing, a, None, now);
    var st := applied.state;
    var invoices :=
      if applied.company.Some? && payments.Some? && LinkedToCompany(st, applied.company.value, a.details.ref) then
        Reconcile(w.invoices, applied.company.value, PlanOf(st, applied.company.value), payments.value)
      else w.invoices;
    (w.(billing := st, invoices := invoices), StatusFor(applied.action))
  }

  /** An authorized-payment event: the invoice is filed first and stays filed even when the
      subscription cannot be fetched afterwards. */
  function ProcessCharged(w: World, p: Payment, owner: Option<CompanyId>, followUp: Option<Answer>, now: Time): (World, EventStatus) {
    if p.subscription.None? || owner.None? then (w, EVENT_IGNORED)
    else
      var c := owner.value;
      var filed := w.(invoices := Upsert(w.invoices, c, PlanOf(w.billing, c), p));
      if followUp.None? then (filed, EVENT_FAILED_RETRYABLE)
      else (filed.(billing := ApplyDetails(w.billing, followUp.value, owner, now).state), EVENT_PROCESSED)
  }

  function Process(w: World, work: Work, now: Time): (World, EventStatus) {
    match work
    case LookupFails => (w, EVENT_FAILED_RETRYABLE)
    case About(a, payments) => ProcessAbout(w, a, payments, now)
    case Charged(p, owner, followUp) => ProcessCharged(w, p, owner, followUp, now)
  }

  function Done(w: World, key: Key): bool {
    key in w.events && Terminal(w.events[key])
  }

  function Deliver(w: World, d: Delivery, now: Time): (World, Response) {
    if !d.signed then (w, Rejected401)
    else if Done(w, d.key) then (w, Duplicate(w.events[d.key]))
    else if !d.hasDataId then (w.(events := w.events[d.key := EVENT_IGNORED]), Handled(EVENT_IGNORED))
    else
      var (after, status) := Process(w, d.work, now);
      (after.(events := after.events[d.key := status]), Handled(status))
  }

  // ----- runs -----

  datatype Timed = Timed(now: Time, delivery: Delivery)

  function RunAll(w: World, ds: seq<Timed>): World
    decreases |ds|
  {
    if ds == [] then w else RunAll(Deliver(w, ds[0].delivery, ds[0].now).0, ds[1..])
  }

  /** Delivery `i` of the run is the one that brings its key to a terminal status. */
  predicate Completes(w: World, ds: seq<Timed>, i: nat)
    requires i < |ds|
  {
    var before := RunAll(w, ds[..i]);
    var r := Deliver(before, ds[i].delivery, ds[i].now).1;
    r.Handled? && Terminal(r.now)
  }

  lemma {:induction false} RunSplits(w: World, a: seq<Timed>, b: seq<Timed>)
    ensures RunAll(w, a + b) == RunAll(RunAll(w, a), b)
    decreases |a|
  {
    if a == [] {
      assert a + b == b;
    } else {
      assert (a + b)[1..] == a[1..] + b;
      RunSplits(Deliver(w, a[0].delivery, a[0].now).0, a[1..], b);
    }
  }

  /** A terminal status is final: no delivery changes it. */
  lemma DoneStaysDone(w: World, d: Delivery, now: Time, key: Key)
    requires Done(w, key)
    ensures Done(Deliver(w, d, now).0, key) && Deliver(w, d, now).0.events[key] == w.events[key]
  {
  }

  lemma {:induction false} DoneStaysDoneInRun(w: World, ds: seq<Timed>, key: Key)
    requires Done(w, key)
    ensures Done(RunAll(w, ds), key) && RunAll(w, ds).events[key] == w.events[key]
    decreases |ds|
  {
    if ds != [] {
      DoneStaysDone(w, ds[0].delivery, ds[0].now, key);
      DoneStaysDoneInRun(Deliver(w, ds[0].delivery, ds[0].now).0, ds[1..], key);
    }
  }

  lemma CompletingMakesDone(w: World, ds: seq<Timed>, i: nat)
    requires i < |ds| && Completes(w, ds, i)
    ensures Done(RunAll(w, ds[..i + 1]), ds[i].delivery.key)
  {
    assert ds[..i + 1] == ds[..i] + [ds[i]];
    RunSplits(w, ds[..i], [ds[i]]);
    var before := RunAll(w, ds[..i]);
    assert RunAll(before, [ds[i]]) == Deliver(before, ds[i].delivery, ds[i].now).0;
  }

  /** At most one delivery per key reaches a terminal status in any run. */
  lemma AtMostOneCompletes(w: World, ds: seq<Timed>, i: nat, j: nat)
    requires i < j < |ds| && ds[i].delivery.key == ds[j].delivery.key
    requires Completes(w, ds, i)
    ensures !Completes(w, ds, j)
  {
    CompletingMakesDone(w, ds, i);
    assert ds[..j] == ds[..i + 1] + ds[i + 1..j];
    RunSplits(w, ds[..i + 1], ds[i + 1..j]);
    DoneStaysDoneInRun(RunAll(w, ds[..i + 1]), ds[i + 1..j], ds[i].delivery.key);
  }

  /** The deliveries of other keys, in order. */
  function Without(ds: seq<Timed>, key: Key): (rest: seq<Timed>)
    ensures forall t :: t in rest <==> t in ds && t.delivery.key != key
  {
    if ds == [] then []
    else if ds[0].delivery.key == key then Without(ds[1..], key)
    else [ds[0]] + Without(ds[1..], key)
  }

  lemma {:induction false} DuplicatesCanBeDropped(w: World, ds: seq<Timed>, key: Key)
    requires Done(w, key)
    ensures RunAll(w, ds) == RunAll(w, Without(ds, key))
    decreases |ds|
  {
    if ds != [] {
      var next := Deliver(w, ds[0].delivery, ds[0].now).0;
      DoneStaysDone(w, ds[0].delivery, ds[0].now, key);
      DuplicatesCanBeDropped(next, ds[1..], key);
      if ds[0].delivery.key == key {
        assert next == w;
      } else {
        var kept := [ds[0]] + Without(ds[1..], key);
        assert kept[1..] == Without(ds[1..], key);
      }
    }
  }

  /** Removing every later delivery of a completed key leads to the same licenses, checkouts,
      invoices and event statuses. */
  lemma LaterDeliveriesDoNotMatter(w: World, ds: seq<Timed>, i: nat)
    requires i < |ds| && Completes(w, ds, i)
    ensures RunAll(w, ds) == RunAll(w, ds[..i + 1] + Without(ds[i + 1..], ds[i].delivery.key))
  {
    var key := ds[i].delivery.key;
    CompletingMakesDone(w, ds, i);
    assert ds == ds[..i + 1] + ds[i + 1..];
    RunSplits(w, ds[..i + 1], ds[i + 1..]);
    RunSplits(w, ds[..i + 1], Without(ds[i + 1..], key));
    DuplicatesCanBeDropped(RunAll(w, ds[..i + 1]), ds[i + 1..], key);
  }

  /** A key left retryable is handled exactly like one never seen. */
  lemma RetryableIsRetried(w: World, d: Delivery, now: Time)
    requires d.key in w.events && w.events[d.key].EVENT_FAILED_RETRYABLE?
    ensures var unseen := w.(events := map k | k in w.events && k != d.key :: w.events[k]);
            d.signed ==>
              Deliver(w, d, now).1 == Deliver(unseen, d, now).1 &&
              Deliver(w, d, now).0 == Deliver(unseen, d, now).0
  {
    var unseen := w.(events := map k | k in w.events && k != d.key :: w.events[k]);
    if d.signed {
      assert Deliver(w, d, now).0.events == Deliver(unseen, d, now).0.events;
    }
  }

  /** A failed provider request leaves licenses and checkouts untouched and the key
      retryable. */
  lemma FailureIsRetryable(w: World, d: Delivery, now: Time)
    requires d.signed && d.hasDataId && !Done(w, d.key)
    requires d.work.LookupFails? ||
             (d.work.Charged? && d.work.payment.subscription.Some? && d.work.owner.Some? && d.work.followUp.None?)
    ensures var after := Deliver(w, d, now).0;
            after.billing == w.billing && after.events == w.events[d.key := EVENT_FAILED_RETRYABLE]
  {
  }

  /** Retrying a charge whose subscription could not be fetched files its invoice only once. */
  lemma RetriedChargeFilesOnce(w: World, p: Payment, owner: CompanyId, followUp: Option<Answer>, now: Time, later: Time)
    requires UniqueIds(w.invoices) && p.subscription.Some?
    ensures var failed := ProcessCharged(w, p, Some(owner), None, now).0;
            ProcessCharged(failed, p, Some(owner), followUp, later) == ProcessCharged(w, p, Some(owner), followUp, later)
  {
    ReconcileTwiceIsOnce(w.invoices, owner, PlanOf(w.billing, owner), [p]);
    assert [p][..0] == [];
    assert Reconcile(w.invoices, owner, PlanOf(w.billing, owner), []) == w.invoices;
    assert Reconcile(w.invoices, owner, PlanOf(w.billing, owner), [p]) == Upsert(w.invoices, owner, PlanOf(w.billing, owner), p);
    var once := Upsert(w.invoices, owner, PlanOf(w.billing, owner), p);
    assert Reconcile(once, owner, PlanOf(w.billing, owner), []) == once;
    assert Reconcile(once, owner, PlanOf(w.billing, owner), [p]) == Upsert(once, owner, PlanOf(w.billing, owner), p);
  }

  /** `after` has unique identifiers and a row for every identifier of `before`. */
  ghost predicate LedgerGrew(before: seq<Invoice>, after: seq<Invoice>) {
    UniqueIds(after) && forall id :: HasId(before, id) ==> HasId(after, id)
  }

  lemma UpsertGrows(rows: seq<Invoice>, c: CompanyId, held: Plan, p: Payment)
    requires UniqueIds(rows)
    ensures LedgerGrew(rows, Upsert(rows, c, held, p))
    ensures StableId(p).Some? ==> HasId(Upsert(rows, c, held, p), StableId(p).value)
  {
    if StableId(p).Some? {
      UpsertFiles(rows, c, held, p);
    }
  }

  lemma DeliverGrows(w: World, d: Delivery, now: Time)
    requires UniqueIds(w.invoices)
    ensures LedgerGrew(w.invoices, Deliver(w, d, now).0.invoices)
  {
    match d.work
    case LookupFails =>
    case About(a, payments) =>
      var applied := ApplyDetails(w.billing, a, None, now);
      if applied.company.Some? && payments.Some? {
        ReconcileRowByRow(w.invoices, applied.company.value, PlanOf(applied.state, applied.company.value), payments.value);
      }
    case Charged(p, owner, _) =>
      if owner.Some? {
        UpsertGrows(w.invoices, owner.value, PlanOf(w.billing, owner.value), p);
      }
  }

  lemma {:induction false} RunGrows(w: World, ds: seq<Timed>)
    requires UniqueIds(w.invoices)
    ensures LedgerGrew(w.invoices, RunAll(w, ds).invoices)
    decreases |ds|
  {
    if ds != [] {
      DeliverGrows(w, ds[0].delivery, ds[0].now);
      RunGrows(Deliver(w, ds[0].delivery, ds[0].now).0, ds[1..]);
    }
  }

  /** Whatever is delivered in between, and whatever company, plan and subscription the retry
      finds, retrying a charge adds no second row for its invoice. */
  lemma RetriedChargeNeverFilesTwice(w: World, p: Payment, owner: CompanyId, now: Time, between: seq<Timed>,
                                     again: Payment, newOwner: Option<CompanyId>, followUp: Option<Answer>, later: Time)
    requires UniqueIds(w.invoices) && p.subscription.Some? && StableId(again) == StableId(p)
    ensures var failed := ProcessCharged(w, p, Some(owner), None, now).0;
            var waiting := RunAll(failed, between);
            var retried := ProcessCharged(waiting, again, newOwner, followUp, later).0;
            UniqueIds(retried.invoices) && |retried.invoices| == |waiting.invoices|
  {
    var failed := ProcessCharged(w, p, Some(owner), None, now).0;
    UpsertGrows(w.invoices, owner, PlanOf(w.billing, owner), p);
    RunGrows(failed, between);
    var waiting := RunAll(failed, between);
    if newOwner.Some? {
      UpsertGrows(waiting.invoices, newOwner.value, PlanOf(waiting.billing, newOwner.value), again);
    }
  }

  // ----- the service -----

  /** What the provider replies while a delivery is handled, before any lookup in the store. */
  datatype Reply =
    | Unreachable
    | SubscriptionReply(details: Details, batch: Option<seq<Payment>>)
    | ChargeReply(charge: Payment, subscriptionDetails: Option<Details>)

  /** `work` is the provider's reply together with lookups that are possible in `st`, and for
      the payments of a reconciled batch in the rows the answer leaves. */
  ghost predicate WorkFor(st: State, reply: Reply, work: Work, now: Time) {
    match reply
    case Unreachable => work.LookupFails?
    case SubscriptionReply(details, batch) =>
      work.About? && work.answer.details == details && LookedUp(st, work.answer) &&
      (work.payments.Some? <==> batch.Some?) && (batch.Some? ==> Reconcilable(st, work, batch.value, now))
    case ChargeReply(charge, details) =>
      work.Charged? && FindsOwner(st, charge.subscription, work.owner) &&
      (if work.owner.None? then work.payment == charge else Planned(st, work.owner.value, charge, work.payment)) &&
      (work.followUp.Some? <==> work.owner.Some? && details.Some?) &&
      (work.followUp.Some? ==> work.followUp.value.details == details.value && LookedUp(st, work.followUp.value))
  }

  ghost predicate Reconcilable(st: State, work: Work, batch: seq<Payment>, now: Time)
    requires work.About? && work.payments.Some?
  {
    var applied := ApplyDetails(st, work.answer, None, now);
    applied.company.Some? && LinkedToCompany(applied.state, applied.company.value, work.answer.details.ref) ==>
      AllPlanned(applied.state, applied.company.value, batch, work.payments.value)
  }

  class WebhookService {
    const billing: BillingStore.BillingService
    const ledger: InvoiceLedger
    var events: map<Key, EventStatus>

    ghost function View(): World
      reads this, billing, ledger
    {
      World(billing.View(), ledger.rows, events)
    }

    constructor (billing: BillingStore.BillingService, ledger: InvoiceLedger)
      ensures this.billing == billing && this.ledger == ledger && events == map[]
    {
      this.billing, this.ledger := billing, ledger;
      events := map[];
    }

    method MarkEvent(key: Key, status: EventStatus)
      modifies this`events
      ensures events == old(events)[key := status]
    {
      events := events[key := status];
    }

    /** The company behind a subscription. */
    method FindOwner(ref: Option<Ref>) returns (owner: Option<CompanyId>)
      ensures FindsOwner(billing.View(), ref, owner)
    {
      if ref.None? {
        return None;
      }
      var k := billing.LatestWithRef(ref.value);
      if k.Some? {
        assert OwnsThrough(billing.View(), ref.value, k.value, billing.checkouts[k.value].company);
        return Some(billing.checkouts[k.value].company);
      }
      owner := billing.FindLinkedCompany(ref.value);
    }

    method IsLinked(c: CompanyId, ref: Ref) returns (linked: bool)
      ensures linked == LinkedToCompany(billing.View(), c, ref)
    {
      if c in billing.licenses && billing.licenses[c].providerLinked && billing.licenses[c].providerRef == Some(ref) {
        return true;
      }
      linked := exists k :: k in billing.checkouts && billing.checkouts[k].company == c && billing.checkouts[k].providerRef == Some(ref);
    }

    /** The plan of the company's latest checkout for the subscription of a payment. */
    method FillPlan(c: CompanyId, raw: Payment) returns (filled: Payment)
      ensures Planned(billing.View(), c, raw, filled)
    {
      filled := raw.(sessionPlan := None);
      if raw.subscription.None? {
        return;
      }
      var ref := raw.subscription.value;
      var latest: Option<CheckoutId> := None;
      var todo := billing.checkouts.Keys;
      while todo != {}
        invariant todo <= billing.checkouts.Keys
        invariant latest.None? ==> forall k :: CheckoutOf(billing.View(), k, c, ref) ==> k in todo
        invariant latest.Some? ==> CheckoutOf(billing.View(), latest.value, c, ref)
        invariant latest.Some? ==> forall k :: CheckoutOf(billing.View(), k, c, ref) && k !in todo ==>
                                     billing.checkouts[k].updatedAt <= billing.checkouts[latest.value].updatedAt
        decreases todo
      {
        var k :| k in todo;
        todo := todo - {k};
        var row := billing.checkouts[k];
        if row.company == c && row.providerRef == Some(ref) &&
           (latest.None? || billing.checkouts[latest.value].updatedAt < row.updatedAt) {
          latest := Some(k);
        }
      }
      if latest.Some? {
        assert LatestOf(billing.View(), latest.value, c, ref);
        filled := raw.(sessionPlan := Some(billing.checkouts[latest.value].plan));
      }
    }

    method FillPlans(c: CompanyId, raw: seq<Payment>) returns (filled: seq<Payment>)
      ensures AllPlanned(billing.View(), c, raw, filled)
    {
      filled := [];
      for i := 0 to |raw|
        invariant AllPlanned(billing.View(), c, raw[..i], filled)
      {
        var p := FillPlan(c, raw[i]);
        filled := filled + [p];
      }
      assert raw[..|raw|] == raw;
    }

    /** Handling one delivery. `reply` is what the provider answers, and the returned work
        adds the results of the lookups made on the way. */
    method Handle(key: Key, signed: bool, hasDataId: bool, reply: Reply, now: Time) returns (response: Response, work: Work)
      modifies this`events, billing, ledger
      ensures (View(), response) == Deliver(old(View()), Delivery(key, signed, hasDataId, work), now)
      ensures signed && hasDataId && !Done(old(View()), key) ==> WorkFor(old(billing.View()), reply, work, now)
    {
      work := LookupFails;
      if !signed {
        return Rejected401, work;
      }
      if key !in events {
        MarkEvent(key, EVENT_RECEIVED);
      }
      if Terminal(events[key]) {
        return Duplicate(events[key]), work;
      }
      if !hasDataId {
        MarkEvent(key, EVENT_IGNORED);
        assert events == old(events)[key := EVENT_IGNORED];
        return Handled(EVENT_IGNORED), work;
      }
      var status;
      match reply {
        case Unreachable =>
          status := EVENT_FAILED_RETRYABLE;
        case SubscriptionReply(details, batch) =>
          status, work := HandleSubscription(details, batch, now);
        case ChargeReply(charge, subscriptionDetails) =>
          status, work := HandleCharge(charge, subscriptionDetails, now);
      }
      MarkEvent(key, status);
      assert events == old(events)[key := status];
      return Handled(status), work;
    }

    method HandleSubscription(details: Details, batch: Option<seq<Payment>>, now: Time) returns (status: EventStatus, work: Work)
      modifies billing, ledger
      ensures WorkFor(old(billing.View()), SubscriptionReply(details, batch), work, now)
      ensures (View(), status) == ProcessAbout(old(View()), work.answer, work.payments, now)
      ensures events == old(events)
    {
      var action, a := billing.ApplyMercadoPagoDetails(details, None, now);
      work := About(a, batch);
      ghost var applied := ApplyDetails(old(billing.View()), a, None, now);
      var company := None;
      if a.checkout.Some? && a.checkout.value in billing.checkouts {
        company := Some(billing.checkouts[a.checkout.value].company);
      } else {
        company := a.linked;
      }
      assert company == applied.company;
      if company.Some? && batch.Some? {
        var linked := IsLinked(company.value, details.ref);
        if linked {
          var held := if company.value in billing.licenses then billing.licenses[company.value].plan else Free;
          var filled := FillPlans(company.value, batch.value);
          work := About(a, Some(filled));
          var _, _ := ledger.ReconcileBatch(company.value, held, filled);
        }
      }
      status := StatusFor(action);
    }

    method HandleCharge(charge: Payment, details: Option<Details>, now: Time) returns (status: EventStatus, work: Work)
      modifies billing, ledger
      ensures WorkFor(old(billing.View()), ChargeReply(charge, details), work, now)
      ensures (View(), status) == ProcessCharged(old(View()), work.payment, work.owner, work.followUp, now)
      ensures events == old(events)
    {
      var owner := FindOwner(charge.subscription);
      work := Charged(charge, owner, None);
      if charge.subscription.None? || owner.None? {
        return EVENT_IGNORED, work;
      }
      var c := owner.value;
      var held := if c in billing.licenses then billing.licenses[c].plan else Free;
      var filled := FillPlan(c, charge);
      work := Charged(filled, owner, None);
      var _ := ledger.UpsertFromPayment(c, held, filled);
      if details.None? {
        return EVENT_FAILED_RETRYABLE, work;
      }
      var _, a := billing.ApplyMercadoPagoDetails(details.value, owner, now);
      work := Charged(filled, owner, Some(a));
      return EVENT_PROCESSED, work;
    }
  }
}
