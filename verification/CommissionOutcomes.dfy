/** Whom a sale is credited to, and what it earns: the commission report by the fields of its input. */
module CommissionOutcomes {
  import opened Wrappers
  import opened CommissionModel
  import opened CommissionBounds

  // ----- whom a sale is credited to -----

  /** `i` is the last employee listed with the user account. */
  predicate LastListed(employees: seq<Employee>, user: UserId, i: nat) {
    i < |employees| && employees[i].user == Some(user) &&
    forall j :: i < j < |employees| ==> employees[j].user != Some(user)
  }

  predicate Unlisted(employees: seq<Employee>, user: UserId) {
    forall e :: e in employees ==> e.user != Some(user)
  }

  lemma {:induction false} EmployeeIsLastListed(employees: seq<Employee>, user: UserId)
    ensures Unlisted(employees, user) ==> EmployeeOf(employees, user).None?
    ensures forall i: nat :: LastListed(employees, user, i) ==> EmployeeOf(employees, user) == Some(employees[i].id)
  {
    if employees != [] {
      var init := employees[..|employees| - 1];
      EmployeeIsLastListed(init, user);
      forall i: nat | LastListed(employees, user, i)
        ensures EmployeeOf(employees, user) == Some(employees[i].id)
      {
        if i < |init| {
          assert LastListed(init, user, i);
        }
      }
    }
  }

  lemma {:induction false} ListedOrNot(employees: seq<Employee>, user: UserId)
    ensures Unlisted(employees, user) || exists i: nat :: LastListed(employees, user, i)
  {
    if employees != [] && employees[|employees| - 1].user == Some(user) {
      assert LastListed(employees, user, |employees| - 1);
    } else if employees != [] {
      var init := employees[..|employees| - 1];
      ListedOrNot(init, user);
      if i: nat :| LastListed(init, user, i) {
        assert LastListed(employees, user, i);
      }
    }
  }

  /** The user account that stands for a sale: the seller its order names; without one the user of
      its first event; without that the user of its cash session. */
  predicate ActsFor(sale: Sale, events: seq<SaleEvent>, user: UserId) {
    SellerIs(sale, user) ||
    (NoSeller(sale) && FirstEventIs(events, sale.id, Some(user))) ||
    (NoSeller(sale) && NoEventUser(events, sale.id) && sale.cashUser == Some(user))
  }

  predicate SellerIs(sale: Sale, user: UserId) { sale.order.Some? && sale.order.value.seller == Some(user) }

  predicate NoSeller(sale: Sale) { sale.order.Some? ==> sale.order.value.seller.None? }

  /** The first event of the sale names this user, or none. */
  predicate FirstEventIs(events: seq<SaleEvent>, saleId: string, user: Option<UserId>) {
    exists i :: 0 <= i < |events| && events[i].saleId == saleId && events[i].user == user && NoneBefore(events, saleId, i)
  }

  predicate NoneBefore(events: seq<SaleEvent>, saleId: string, i: nat)
    requires i <= |events|
  {
    forall j :: 0 <= j < i ==> events[j].saleId != saleId
  }

  predicate NoEventUser(events: seq<SaleEvent>, saleId: string) {
    NoneBefore(events, saleId, |events|) || FirstEventIs(events, saleId, None)
  }

  lemma {:induction false} FirstEventFound(events: seq<SaleEvent>, saleId: string)
    ensures EventOf(events, saleId).None? <==> NoneBefore(events, saleId, |events|)
    ensures forall i :: 0 <= i < |events| && events[i].saleId == saleId && NoneBefore(events, saleId, i) ==>
              EventOf(events, saleId) == Some(events[i])
  {
    if events != [] {
      var init := events[..|events| - 1];
      FirstEventFound(init, saleId);
      forall i | 0 <= i < |events| && events[i].saleId == saleId && NoneBefore(events, saleId, i)
        ensures EventOf(events, saleId) == Some(events[i])
      {
        if i < |init| {
          assert init[i] == events[i] && NoneBefore(init, saleId, i);
        } else {
          assert NoneBefore(init, saleId, |init|);
        }
      }
      if NoneBefore(events, saleId, |events|) {
        assert NoneBefore(init, saleId, |init|);
      } else if NoneBefore(init, saleId, |init|) {
        assert events[|events| - 1].saleId == saleId;
      }
    }
  }

  /** The account that acts for a sale decides where it is counted: in the counters of the last
      employee listed with it, and nowhere when nobody is. */
  lemma SaleGoesToItsActor(employees: seq<Employee>, events: seq<SaleEvent>, sale: Sale, user: UserId)
    requires ActsFor(sale, events, user)
    ensures forall i: nat :: LastListed(employees, user, i) ==>
              CounterOf(employees, events, sale) == if sale.canceled || sale.canceledAt.Some? then CanceledSales(employees[i].id)
                                                    else ActiveSales(employees[i].id)
    ensures CounterOf(employees, events, sale).NoReliableActor? <==> Unlisted(employees, user)
  {
    FirstEventFound(events, sale.id);
    EmployeeIsLastListed(employees, user);
    ListedOrNot(employees, user);
  }

  /** Without any of the three a sale is counted as one without a reliable actor. */
  lemma SaleWithoutActor(employees: seq<Employee>, events: seq<SaleEvent>, sale: Sale)
    requires NoSeller(sale) && NoEventUser(events, sale.id) && sale.cashUser.None?
    ensures CounterOf(employees, events, sale).NoReliableActor?
  {
    FirstEventFound(events, sale.id);
  }

  /** Every sale has one of the three, or none. */
  lemma ActorOrNone(events: seq<SaleEvent>, sale: Sale)
    ensures (exists user :: ActsFor(sale, events, user)) ||
            (NoSeller(sale) && NoEventUser(events, sale.id) && sale.cashUser.None?)
  {
    FirstEventFound(events, sale.id);
    if NoSeller(sale) {
      if !NoneBefore(events, sale.id, |events|) {
        var i := FirstIndex(events, sale.id);
        if events[i].user.Some? {
          assert FirstEventIs(events, sale.id, Some(events[i].user.value));
          assert ActsFor(sale, events, events[i].user.value);
        } else {
          assert FirstEventIs(events, sale.id, None);
        }
      }
      if NoEventUser(events, sale.id) && sale.cashUser.Some? {
        assert ActsFor(sale, events, sale.cashUser.value);
      }
    } else {
      assert ActsFor(sale, events, sale.order.value.seller.value);
    }
  }

  lemma {:induction false} FirstIndex(events: seq<SaleEvent>, saleId: string) returns (i: nat)
    requires !NoneBefore(events, saleId, |events|)
    ensures i < |events| && events[i].saleId == saleId && NoneBefore(events, saleId, i)
  {
    var init := events[..|events| - 1];
    if NoneBefore(init, saleId, |init|) {
      i := |events| - 1;
      assert forall j :: 0 <= j < i ==> init[j] == events[j];
    } else {
      i := FirstIndex(init, saleId);
    }
  }

  // ----- what a sale amounts to -----

  /** The amounts of a sale: its order's when they are positive, else the sale's own total, never
      below zero; it is canceled by its status or its date. */
  lemma SaleAmounts(sale: Sale, employee: EmployeeId)
    ensures var c, total := Calculated(sale, employee), if sale.totalAmountCents > 0 then sale.totalAmountCents else 0;
            c.employee == employee && c.saleId == sale.id && c.occurredAt == sale.soldAt &&
            (c.canceled <==> sale.canceled || sale.canceledAt.Some?) &&
            (sale.order.Some? && sale.order.value.totalCents > 0 ==> c.net == sale.order.value.totalCents) &&
            (sale.order.None? || sale.order.value.totalCents <= 0 ==> c.net == total) &&
            (sale.order.Some? && sale.order.value.subtotalCents > 0 ==> c.gross == sale.order.value.subtotalCents) &&
            (sale.order.None? || sale.order.value.subtotalCents <= 0 ==> c.gross == total) &&
            c.discount == (if c.gross > c.net then c.gross - c.net else 0) && c.itemsWithoutCost == CostlessCount(sale.items)
  {
  }

  /** The cost of an item is its total cost, or failing that its unit cost for its quantity in
      thousandths, rounded down; without either it is unknown. */
  lemma CostOfItem(item: Item)
    ensures item.totalCostCents > 0 ==> ItemCost(item) == Some(item.totalCostCents)
    ensures item.totalCostCents <= 0 && item.unitCostCents > 0 && item.quantityMil > 0 ==>
              ItemCost(item).Some? && ItemCost(item).value == item.unitCostCents * item.quantityMil / 1000
    ensures item.totalCostCents <= 0 && (item.unitCostCents <= 0 || item.quantityMil <= 0) ==> ItemCost(item).None?
  {
  }

  /** A sale's costs are reliable exactly when it has items and every item has a cost. */
  lemma ReliableExactly(sale: Sale, employee: EmployeeId)
    ensures Calculated(sale, employee).reliableCost <==> sale.items != [] && forall i :: i in sale.items ==> ItemCost(i).Some?
  {
    CostlessExactly(sale.items);
  }

  lemma {:induction false} CostlessExactly(items: seq<Item>)
    ensures CostlessCount(items) == 0 <==> forall i :: i in items ==> ItemCost(i).Some?
  {
    if items != [] {
      CostlessExactly(items[..|items| - 1]);
      assert forall i :: i in items <==> i in items[..|items| - 1] || i == items[|items| - 1];
    }
  }

  /** One more item adds to the profit what its share of the net amount is above its cost, and
      nothing without a known cost. */
  lemma OneMoreItem(items: seq<Item>, item: Item, allItems: nat, net: nat)
    ensures var more, share := ProfitSum(items + [item], allItems, net) - ProfitSum(items, allItems, net),
                               ItemNet(item.totalPriceCents, allItems, net);
            (ItemCost(item).None? ==> more == 0) &&
            (ItemCost(item).Some? ==> more == if share > ItemCost(item).value then share - ItemCost(item).value else 0)
    ensures CostlessCount(items + [item]) == CostlessCount(items) + if ItemCost(item).None? then 1 else 0
  {
    assert (items + [item])[..|items|] == items;
  }

  function KnownCosts(items: seq<Item>): nat {
    if items == [] then 0 else KnownCosts(items[..|items| - 1]) + ItemCost(items[|items| - 1]).GetOr(0)
  }

  /** At full price, with every cost known and within its price, the profit is price less cost. */
  lemma {:induction false} FullPriceProfit(items: seq<Item>, allItems: nat, net: nat)
    requires net >= allItems && forall i :: i in items ==> ItemCost(i).Some? && i.totalPriceCents >= ItemCost(i).value
    ensures ProfitSum(items, allItems, net) + KnownCosts(items) == PriceSum(items)
  {
    if items != [] {
      FullPriceProfit(items[..|items| - 1], allItems, net);
    }
  }

  lemma WholeShare(price: nat, net: nat)
    requires price > 0
    ensures price * net / price == net
  {
    var share := price * net / price;
    FloorBounds(price * net, price);
    if share < net {
      StrictProduct(net, share, price);
    } else if share > net {
      StrictProduct(share, net, price);
    }
  }

  /** A sale of one item below its price earns its net amount less the cost of the item. */
  lemma OneItemProfit(sale: Sale, employee: EmployeeId)
    requires |sale.items| == 1 && ItemCost(sale.items[0]).Some? && Net(sale) < sale.items[0].totalPriceCents
    ensures var c, cost := Calculated(sale, employee), ItemCost(sale.items[0]).value;
            c.profit == (if c.net > cost then c.net - cost else 0) && c.reliableCost
  {
    var items := sale.items;
    assert items[..0] == [];
    assert PriceSum(items) == items[0].totalPriceCents;
    assert CostlessCount(items) == CostlessCount(items[..0]);
    WholeShare(items[0].totalPriceCents, Net(sale));
    assert ProfitSum(items, PriceSum(items), Net(sale)) == ItemProfit(items[0], PriceSum(items), Net(sale));
  }

  // ----- what a sale earns -----

  /** No commission for a canceled sale or a disabled commission; a fixed one is the fixed amount;
      a percentage is taken, rounded down, of gross, net or profit as the settings say, and one of
      the profit does not count when costs are missing and nothing is earned. */
  lemma CommissionExactly(c: Calculation, e: Employee)
    ensures var s, m := e.stored, CommissionFor(c, InForce(e));
            (c.canceled || !s.enabled || s.kind.NO_COMMISSION? ==> !m.eligible && m.amount == 0 && m.base == 0) &&
            (c.canceled <==> m.ignored == Some(SALE_CANCELED)) &&
            (!c.canceled && (!s.enabled || s.kind.NO_COMMISSION?) <==> m.ignored == Some(COMMISSION_DISABLED)) &&
            (!c.canceled && s.enabled && s.kind.FIXED_PER_SALE? ==>
              m.eligible && m.base == c.net && m.amount == s.fixedCents.GetOr(0) && m.ignored.None?) &&
            (!c.canceled && s.enabled && s.kind.PERCENTAGE? ==>
              m.base == (if s.base.GROSS_SALES? then c.gross else if s.base.NET_SALES? then c.net else c.profit) &&
              m.amount == m.base * s.rateBps.GetOr(0) / 10000 &&
              (m.eligible <==> !s.base.GROSS_PROFIT? || c.reliableCost || c.profit > 0) &&
              (m.ignored == Some(PARTIAL_COST_MISSING) <==> s.base.GROSS_PROFIT? && !c.reliableCost && c.profit > 0) &&
              (m.ignored == Some(COST_MISSING) <==> s.base.GROSS_PROFIT? && !c.reliableCost && c.profit == 0))
  {
  }

  // ----- rows -----

  /** The amounts of the sales of a row that count, by one of their amounts. */
  function SumOf(mine: seq<Calculation>, amount: Calculation -> int, counts: Calculation -> bool): int {
    if mine == [] then 0
    else
      var c := mine[|mine| - 1];
      SumOf(mine[..|mine| - 1], amount, counts) + if counts(c) then amount(c) else 0
  }

  /** A row adds up the net amounts of its active sales, and over the eligible ones their bases,
      their commissions and, for a commission on profit, their profits. */
  lemma {:induction false} RowAddsUp(mine: seq<Calculation>, s: Settings)
    ensures var row := RowOf(mine, s);
            row.salesAmountCents == SumOf(mine, (c: Calculation) => c.net, (c: Calculation) => !c.canceled) &&
            row.salesCount == SumOf(mine, (c: Calculation) => 1, (c: Calculation) => !c.canceled) &&
            row.canceledSalesCount == SumOf(mine, (c: Calculation) => 1, (c: Calculation) => c.canceled) &&
            row.eligibleSalesCount == SumOf(mine, (c: Calculation) => 1, (c: Calculation) => CommissionFor(c, s).eligible) &&
            row.eligibleBaseCents == SumOf(mine, (c: Calculation) => CommissionFor(c, s).base, (c: Calculation) => CommissionFor(c, s).eligible) &&
            row.grossProfitCents == SumOf(mine, (c: Calculation) => c.profit, (c: Calculation) => CommissionFor(c, s).eligible && s.base.GROSS_PROFIT?) &&
            row.salesWithoutCostCount ==
              SumOf(mine, (c: Calculation) => 1, (c: Calculation) => !c.canceled && s.enabled && s.kind.PERCENTAGE? && s.base.GROSS_PROFIT? && !c.reliableCost)
  {
    if mine != [] {
      RowAddsUp(mine[..|mine| - 1], s);
    }
  }

  /** The last sale of a row is its latest one, canceled or not. */
  lemma {:induction false} LastSaleIsLatest(mine: seq<Calculation>, s: Settings)
    ensures RowOf(mine, s).lastSaleAt.None? <==> mine == []
    ensures RowOf(mine, s).lastSaleAt.Some? ==>
              (exists c :: c in mine && c.occurredAt == RowOf(mine, s).lastSaleAt.value) &&
              forall c :: c in mine ==> c.occurredAt <= RowOf(mine, s).lastSaleAt.value
  {
    if mine != [] {
      var init, c := mine[..|mine| - 1], mine[|mine| - 1];
      LastSaleIsLatest(init, s);
      assert forall x :: x in mine <==> x in init || x == c;
    }
  }

  /** A fixed commission pays its amount for every active sale. */
  lemma {:induction false} FixedPaysPerSale(mine: seq<Calculation>, s: Settings)
    requires s.enabled && s.kind.FIXED_PER_SALE?
    ensures RowOf(mine, s).commissionCents == RowOf(mine, s).salesCount * s.fixedCents.GetOr(0)
    ensures RowOf(mine, s).eligibleSalesCount == RowOf(mine, s).salesCount
  {
    if mine != [] {
      FixedPaysPerSale(mine[..|mine| - 1], s);
      OneMorePayment(RowOf(mine[..|mine| - 1], s).salesCount, s.fixedCents.GetOr(0));
    }
  }

  lemma OneMorePayment(n: int, amount: int)
    ensures (n + 1) * amount == n * amount + amount
  {
  }
}
