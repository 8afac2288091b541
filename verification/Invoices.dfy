/**
 The invoice ledger: one row per provider invoice, written by upserts of authorized
 payments. Rows are identified by their position, which no operation changes.
 */
module Invoices {
  import opened Wrappers
  import opened Text
  import opened BillingModel

  datatype PaymentStatus =
    | processed | paid | pending | in_process | failed | cancelled | refunded | unknown

  /** An authorized payment. `sessionPlan` is filled in when the invoice is filed: the plan of
      the company's checkout found for the subscription. */
  datatype Payment = Payment(
    invoiceId: Option<string>,
    paymentId: Option<string>,
    subscription: Option<Ref>,
    status: PaymentStatus,
    amountCents: int,
    body: string,
    sessionPlan: Option<Plan>)

  datatype Invoice = Invoice(
    company: CompanyId,
    providerInvoiceId: string,
    subscription: Option<Ref>,
    plan: Option<Plan>,
    status: PaymentStatus,
    amountCents: int,
    body: string)

  /** The stable identifier of a payment; a blank one makes the payment skipped. */
  function StableId(p: Payment): Option<string> {
    NonBlank(p.invoiceId.OrElse(p.paymentId))
  }

  /** The plan an invoice is filed under, for a company holding plan `held`. */
  function InferPlan(held: Plan, p: Payment): Option<Plan> {
    if !held.Free? then Some(held)
    else if p.subscription.None? || p.sessionPlan == Some(Free) then None
    else p.sessionPlan
  }

  function RowFor(c: CompanyId, held: Plan, p: Payment): Invoice
    requires StableId(p).Some?
  {
    Invoice(c, StableId(p).value, p.subscription, InferPlan(held, p), p.status, p.amountCents, p.body)
  }

  ghost predicate UniqueIds(rows: seq<Invoice>) {
    forall i, j :: 0 <= i < j < |rows| ==> rows[i].providerInvoiceId != rows[j].providerInvoiceId
  }

  predicate HasId(rows: seq<Invoice>, id: string) {
    exists i :: 0 <= i < |rows| && rows[i].providerInvoiceId == id
  }

  /** The first row carrying an identifier. */
  function RowOf(rows: seq<Invoice>, id: string): (i: nat)
    requires HasId(rows, id)
    ensures i < |rows| && rows[i].providerInvoiceId == id
  {
    if rows[0].providerInvoiceId == id then 0
    else
      assert HasId(rows[1..], id) by {
        var k :| 0 <= k < |rows| && rows[k].providerInvoiceId == id;
        assert rows[1..][k - 1].providerInvoiceId == id;
      }
      1 + RowOf(rows[1..], id)
  }

  predicate Skips(rows: seq<Invoice>, c: CompanyId, p: Payment) {
    StableId(p).None? ||
    (HasId(rows, StableId(p).value) && rows[RowOf(rows, StableId(p).value)].company != c)
  }

  function Upsert(rows: seq<Invoice>, c: CompanyId, held: Plan, p: Payment): seq<Invoice> {
    if Skips(rows, c, p) then rows
    else if HasId(rows, StableId(p).value) then rows[RowOf(rows, StableId(p).value) := RowFor(c, held, p)]
    else rows + [RowFor(c, held, p)]
  }

  /** The ledger after a batch, in order. */
  function Reconcile(rows: seq<Invoice>, c: CompanyId, held: Plan, batch: seq<Payment>): seq<Invoice> {
    if batch == [] then rows
    else Upsert(Reconcile(rows, c, held, batch[..|batch| - 1]), c, held, batch[|batch| - 1])
  }

  /** The last payment of the batch filed under an identifier. */
  function LastFor(batch: seq<Payment>, id: string): (p: Option<Payment>)
    ensures p.Some? ==> p.value in batch && StableId(p.value) == Some(id)
    ensures p.None? ==> forall q :: q in batch ==> StableId(q) != Some(id)
  {
    if batch == [] then None
    else if StableId(batch[|batch| - 1]) == Some(id) then Some(batch[|batch| - 1])
    else LastFor(batch[..|batch| - 1], id)
  }

  /** What a batch makes of one row: the last payment with its identifier wins, unless the
      row belongs to another company. */
  function Settled(row: Invoice, c: CompanyId, held: Plan, batch: seq<Payment>): Invoice {
    var last := LastFor(batch, row.providerInvoiceId);
    if row.company == c && last.Some? then RowFor(c, held, last.value) else row
  }

  /** `after` is `rows` with one payment filed under `id`. */
  ghost predicate Filed(rows: seq<Invoice>, after: seq<Invoice>, c: CompanyId, id: string, row: Invoice) {
    UniqueIds(after) && |rows| <= |after| <= |rows| + 1 &&
    (forall i :: 0 <= i < |rows| ==>
      after[i] == if rows[i].providerInvoiceId == id && rows[i].company == c then row else rows[i]) &&
    (|after| > |rows| ==> after[|rows|] == row) &&
    (forall x :: HasId(after, x) <==> HasId(rows, x) || x == id)
  }

  lemma UpsertFiles(rows: seq<Invoice>, c: CompanyId, held: Plan, p: Payment)
    requires UniqueIds(rows) && StableId(p).Some?
    ensures Filed(rows, Upsert(rows, c, held, p), c, StableId(p).value, RowFor(c, held, p))
  {
    var after, id := Upsert(rows, c, held, p), StableId(p).value;
    if HasId(rows, id) {
      var at := RowOf(rows, id);
      assert after[at].providerInvoiceId == id;
      forall x
        ensures HasId(after, x) <==> HasId(rows, x) || x == id
      {
        if HasId(rows, x) {
          assert after[RowOf(rows, x)].providerInvoiceId == x;
        }
        if HasId(after, x) {
          assert rows[RowOf(after, x)].providerInvoiceId == x;
        }
      }
    } else {
      assert after[|rows|].providerInvoiceId == id;
      forall x
        ensures HasId(after, x) <==> HasId(rows, x) || x == id
      {
        if HasId(rows, x) {
          assert after[RowOf(rows, x)].providerInvoiceId == x;
        }
        if HasId(after, x) && x != id {
          assert rows[RowOf(after, x)].providerInvoiceId == x;
        }
      }
    }
  }

  /** `after` is `rows` after some payments, `last` telling the last one for each identifier. */
  ghost predicate RowByRow(rows: seq<Invoice>, after: seq<Invoice>, c: CompanyId, held: Plan, batch: seq<Payment>) {
    UniqueIds(after) && |rows| <= |after| &&
    (forall i :: 0 <= i < |rows| ==> after[i] == Settled(rows[i], c, held, batch)) &&
    (forall i :: |rows| <= i < |after| ==>
      LastFor(batch, after[i].providerInvoiceId).Some? &&
      after[i] == RowFor(c, held, LastFor(batch, after[i].providerInvoiceId).value)) &&
    (forall id :: HasId(after, id) <==> HasId(rows, id) || LastFor(batch, id).Some?)
  }

  lemma LastForSnoc(init: seq<Payment>, p: Payment, id: string)
    ensures LastFor(init + [p], id) == if StableId(p) == Some(id) then Some(p) else LastFor(init, id)
  {
    assert (init + [p])[..|init|] == init;
  }

  lemma OldRowsSettle(rows: seq<Invoice>, before: seq<Invoice>, after: seq<Invoice>, c: CompanyId, held: Plan,
                      init: seq<Payment>, p: Payment, i: nat)
    requires i < |rows| <= |before| && before[i] == Settled(rows[i], c, held, init)
    requires StableId(p).Some? && Filed(before, after, c, StableId(p).value, RowFor(c, held, p))
    ensures after[i] == Settled(rows[i], c, held, init + [p])
  {
    LastForSnoc(init, p, rows[i].providerInvoiceId);
  }

  /** One more payment extends the row-by-row description. */
  lemma RowByRowSnoc(rows: seq<Invoice>, before: seq<Invoice>, after: seq<Invoice>, c: CompanyId, held: Plan,
                     init: seq<Payment>, p: Payment)
    requires RowByRow(rows, before, c, held, init)
    requires StableId(p).Some? && Filed(before, after, c, StableId(p).value, RowFor(c, held, p))
    ensures RowByRow(rows, after, c, held, init + [p])
  {
    var batch := init + [p];
    forall i | 0 <= i < |rows|
      ensures after[i] == Settled(rows[i], c, held, batch)
    {
      OldRowsSettle(rows, before, after, c, held, init, p, i);
    }
    forall i | |rows| <= i < |after|
      ensures LastFor(batch, after[i].providerInvoiceId).Some? &&
              after[i] == RowFor(c, held, LastFor(batch, after[i].providerInvoiceId).value)
    {
      LastForSnoc(init, p, after[i].providerInvoiceId);
    }
    forall id
      ensures HasId(after, id) <==> HasId(rows, id) || LastFor(batch, id).Some?
    {
      LastForSnoc(init, p, id);
      assert HasId(before, id) <==> HasId(rows, id) || LastFor(init, id).Some?;
    }
  }

  /** A payment without identifier changes nothing. */
  lemma RowByRowSkip(rows: seq<Invoice>, before: seq<Invoice>, c: CompanyId, held: Plan, init: seq<Payment>, p: Payment)
    requires RowByRow(rows, before, c, held, init) && StableId(p).None?
    ensures RowByRow(rows, before, c, held, init + [p])
  {
    forall id
      ensures LastFor(init + [p], id) == LastFor(init, id)
    {
      LastForSnoc(init, p, id);
    }
  }

  /** The ledger after a batch, described row by row without replaying it: old rows keep
      their place and are settled, new rows are the last payments for identifiers that had
      no row, and identifiers stay unique. */
  lemma {:induction false} ReconcileRowByRow(rows: seq<Invoice>, c: CompanyId, held: Plan, batch: seq<Payment>)
    requires UniqueIds(rows)
    ensures RowByRow(rows, Reconcile(rows, c, held, batch), c, held, batch)
  {
    if batch != [] {
      var init, p := batch[..|batch| - 1], batch[|batch| - 1];
      ReconcileRowByRow(rows, c, held, init);
      var before := Reconcile(rows, c, held, init);
      assert batch == init + [p];
      if StableId(p).Some? {
        UpsertFiles(before, c, held, p);
        RowByRowSnoc(rows, before, Reconcile(rows, c, held, batch), c, held, init, p);
      } else {
        RowByRowSkip(rows, before, c, held, init, p);
      }
    }
  }

  /** A batch whose identifiers all have a row adds none. */
  lemma {:induction false} KnownIdsAddNoRow(rows: seq<Invoice>, c: CompanyId, held: Plan, batch: seq<Payment>)
    requires UniqueIds(rows)
    requires forall p :: p in batch && StableId(p).Some? ==> HasId(rows, StableId(p).value)
    ensures |Reconcile(rows, c, held, batch)| == |rows|
  {
    if batch != [] {
      var init := batch[..|batch| - 1];
      KnownIdsAddNoRow(rows, c, held, init);
      ReconcileRowByRow(rows, c, held, init);
      assert batch[|batch| - 1] in batch;
    }
  }

  /** Rows of other companies are never touched, no row changes company or identifier, and
      identifiers stay unique. */
  lemma ReconcileNeverMovesInvoices(rows: seq<Invoice>, c: CompanyId, held: Plan, batch: seq<Payment>)
    requires UniqueIds(rows)
    ensures var after := Reconcile(rows, c, held, batch);
            UniqueIds(after) && |rows| <= |after| &&
            forall i :: 0 <= i < |rows| ==>
              after[i].company == rows[i].company && after[i].providerInvoiceId == rows[i].providerInvoiceId &&
              (rows[i].company != c ==> after[i] == rows[i])
  {
    ReconcileRowByRow(rows, c, held, batch);
  }

  /** The same batch again leaves the ledger as it is, even when it repeats identifiers. */
  lemma ReconcileTwiceIsOnce(rows: seq<Invoice>, c: CompanyId, held: Plan, batch: seq<Payment>)
    requires UniqueIds(rows)
    ensures Reconcile(Reconcile(rows, c, held, batch), c, held, batch) == Reconcile(rows, c, held, batch)
  {
    ReconcileRowByRow(rows, c, held, batch);
    var once := Reconcile(rows, c, held, batch);
    ReconcileRowByRow(once, c, held, batch);
    var twice := Reconcile(once, c, held, batch);
    forall p | p in batch && StableId(p).Some?
      ensures HasId(once, StableId(p).value)
    {
      assert LastFor(batch, StableId(p).value).Some?;
    }
    KnownIdsAddNoRow(once, c, held, batch);
    forall i | 0 <= i < |once|
      ensures twice[i] == once[i]
    {
      assert twice[i] == Settled(once[i], c, held, batch);
      if i < |rows| {
        assert once[i].providerInvoiceId == rows[i].providerInvoiceId;
      }
    }
  }

  /** The ledger as the service keeps it. */
  class InvoiceLedger {
    var rows: seq<Invoice>

    constructor ()
      ensures rows == []
    {
      rows := [];
    }

    method FindRow(id: string) returns (at: Option<nat>)
      ensures at.None? <==> !HasId(rows, id)
      ensures at.Some? ==> at.value < |rows| && at.value == RowOf(rows, id)
    {
      var i := 0;
      while i < |rows| && rows[i].providerInvoiceId != id
        invariant 0 <= i <= |rows|
        invariant forall k :: 0 <= k < i ==> rows[k].providerInvoiceId != id
      {
        i := i + 1;
      }
      if i < |rows| {
        FirstRowIsRowOf(rows, id, i);
        return Some(i);
      }
      return None;
    }

    method UpsertFromPayment(c: CompanyId, held: Plan, p: Payment) returns (skipped: bool)
      modifies this
      ensures skipped == Skips(old(rows), c, p)
      ensures rows == Upsert(old(rows), c, held, p)
    {
      var id := StableId(p);
      if id.None? {
        return true;
      }
      var at := FindRow(id.value);
      if at.Some? && rows[at.value].company != c {
        return true;
      }
      if at.None? {
        rows := rows + [RowFor(c, held, p)];
      } else {
        rows := rows[at.value := RowFor(c, held, p)];
      }
      return false;
    }

    /** Reconciling one batch: every payment is either upserted or skipped. */
    method ReconcileBatch(c: CompanyId, held: Plan, batch: seq<Payment>) returns (upserted: nat, skipped: nat)
      modifies this
      ensures rows == Reconcile(old(rows), c, held, batch)
      ensures upserted + skipped == |batch|
      ensures upserted >= |rows| - |old(rows)|
    {
      upserted, skipped := 0, 0;
      for i := 0 to |batch|
        invariant rows == Reconcile(old(rows), c, held, batch[..i])
        invariant upserted + skipped == i
        invariant upserted >= |rows| - |old(rows)|
      {
        var skip := UpsertFromPayment(c, held, batch[i]);
        assert batch[..i + 1][..i] == batch[..i];
        if skip {
          skipped := skipped + 1;
        } else {
          upserted := upserted + 1;
        }
      }
      assert batch[..|batch|] == batch;
    }
  }

  lemma {:induction false} FirstRowIsRowOf(rows: seq<Invoice>, id: string, i: nat)
    requires i < |rows| && rows[i].providerInvoiceId == id
    requires forall k :: 0 <= k < i ==> rows[k].providerInvoiceId != id
    ensures HasId(rows, id) && RowOf(rows, id) == i
  {
    assert HasId(rows, id);
    if i > 0 {
      assert rows[1..][i - 1] == rows[i];
      FirstRowIsRowOf(rows[1..], id, i - 1);
    }
  }
}
