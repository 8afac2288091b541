/** The commission report as the service computes it, in loops over events, items and sales. */
module CommissionReport {
  import opened Wrappers
  import opened CommissionModel
  import CommissionBounds

  method SumPrices(items: seq<Item>) returns (total: nat)
    ensures total == PriceSum(items)
  {
    total := 0;
    for i := 0 to |items|
      invariant total == PriceSum(items[..i])
    {
      assert items[..i + 1][..i] == items[..i];
      if items[i].totalPriceCents > 0 {
        total := total + items[i].totalPriceCents;
      }
    }
    assert items[..|items|] == items;
  }

  /** The profit of the items of a sale, and how many of them have no reliable cost. */
  method AddUpItems(items: seq<Item>, total: nat, net: nat) returns (profit: nat, costless: nat)
    ensures profit == ProfitSum(items, total, net) && costless == CostlessCount(items)
  {
    profit, costless := 0, 0;
    for i := 0 to |items|
      invariant profit == ProfitSum(items[..i], total, net)
      invariant costless == CostlessCount(items[..i])
    {
      assert items[..i + 1][..i] == items[..i];
      var part := ItemNet(items[i].totalPriceCents, total, net);
      var cost := ItemCost(items[i]);
      if cost.None? {
        costless := costless + 1;
        continue;
      }
      if part > cost.value {
        profit := profit + (part - cost.value);
      }
    }
    assert items[..|items|] == items;
  }

  /** One sale's amounts. */
  method CalculateSale(sale: Sale, employee: EmployeeId) returns (c: Calculation)
    ensures c == Calculated(sale, employee)
    ensures c.profit <= c.net
  {
    var gross := if sale.order.Some? && sale.order.value.subtotalCents > 0 then sale.order.value.subtotalCents
                 else if sale.totalAmountCents > 0 then sale.totalAmountCents else 0;
    var net := if sale.order.Some? && sale.order.value.totalCents > 0 then sale.order.value.totalCents
               else if sale.totalAmountCents > 0 then sale.totalAmountCents else 0;
    var discount := if gross > net then gross - net else 0;
    var total := SumPrices(sale.items);
    var profit, costless := AddUpItems(sale.items, total, net);
    c := Calculation(sale.id, employee, sale.soldAt, sale.canceled || sale.canceledAt.Some?,
                     gross, net, discount, profit, |sale.items| > 0 && costless == 0, costless);
    CommissionBounds.ProfitWithinNet(sale, employee);
  }

  /** The first event of each sale. */
  method FirstEvents(events: seq<SaleEvent>) returns (first: map<string, SaleEvent>)
    ensures forall id :: EventOf(events, id) == if id in first then Some(first[id]) else None
  {
    first := map[];
    for i := 0 to |events|
      invariant forall id :: EventOf(events[..i], id) == if id in first then Some(first[id]) else None
    {
      assert events[..i + 1][..i] == events[..i];
      ghost var before := first;
      if events[i].saleId !in first {
        first := first[events[i].saleId := events[i]];
      }
      forall id
        ensures EventOf(events[..i + 1], id) == if id in first then Some(first[id]) else None
      {
        assert EventOf(events[..i], id) == if id in before then Some(before[id]) else None;
      }
    }
    assert events[..|events|] == events;
  }

  /** Each employee by identifier, and the employee behind each user account. */
  method IndexById(employees: seq<Employee>) returns (byId: map<EmployeeId, Employee>)
    requires DistinctIds(employees)
    ensures byId.Keys == set e | e in employees :: e.id
    ensures forall e :: e in employees ==> byId[e.id] == e
  {
    byId := map[];
    for i := 0 to |employees|
      invariant byId.Keys == set k | 0 <= k < i :: employees[k].id
      invariant forall k :: 0 <= k < i ==> byId[employees[k].id] == employees[k]
    {
      byId := byId[employees[i].id := employees[i]];
    }
  }

  method IndexByUser(employees: seq<Employee>) returns (byUser: map<UserId, EmployeeId>)
    ensures forall u :: EmployeeOf(employees, u) == if u in byUser then Some(byUser[u]) else None
  {
    byUser := map[];
    for i := 0 to |employees|
      invariant forall u :: EmployeeOf(employees[..i], u) == if u in byUser then Some(byUser[u]) else None
    {
      assert employees[..i + 1][..i] == employees[..i];
      ghost var before := byUser;
      if employees[i].user.Some? {
        byUser := byUser[employees[i].user.value := employees[i].id];
      }
      forall u
        ensures EmployeeOf(employees[..i + 1], u) == if u in byUser then Some(byUser[u]) else None
      {
        assert EmployeeOf(employees[..i], u) == if u in before then Some(before[u]) else None;
      }
    }
    assert employees[..|employees|] == employees;
  }

  /** One attributed sale is added to its employee's row. */
  method CountSale(row: Row, c: Calculation, s: Settings) returns (after: Row)
    ensures after == Counted(row, c, s)
  {
    after := row;
    if after.lastSaleAt.None? || c.occurredAt > after.lastSaleAt.value {
      after := after.(lastSaleAt := Some(c.occurredAt));
    }
    if c.canceled {
      return after.(canceledSalesCount := after.canceledSalesCount + 1);
    }
    after := after.(salesCount := after.salesCount + 1, salesAmountCents := after.salesAmountCents + c.net);
    var m := CommissionFor(c, s);
    if m.eligible {
      after := after.(eligibleSalesCount := after.eligibleSalesCount + 1, eligibleBaseCents := after.eligibleBaseCents + m.base);
      if s.base == GROSS_PROFIT {
        after := after.(grossProfitCents := after.grossProfitCents + c.profit);
      }
      after := after.(commissionCents := after.commissionCents + m.amount);
    }
    if s.enabled && s.kind == PERCENTAGE && s.base == GROSS_PROFIT && !c.reliableCost {
      after := after.(salesWithoutCostCount := after.salesWithoutCostCount + 1);
    }
  }

  /** The employee a sale is attributed to, through the two indexes. */
  method Attribute(employees: seq<Employee>, events: seq<SaleEvent>, byUser: map<UserId, EmployeeId>, first: map<string, SaleEvent>, sale: Sale)
    returns (id: Option<EmployeeId>)
    requires forall u :: EmployeeOf(employees, u) == if u in byUser then Some(byUser[u]) else None
    requires forall k :: EventOf(events, k) == if k in first then Some(first[k]) else None
    ensures id == AttributedTo(employees, events, sale)
  {
    assert EventOf(events, sale.id) == if sale.id in first then Some(first[sale.id]) else None;
    var actor := ActorOf(sale, if sale.id in first then Some(first[sale.id]) else None);
    if actor.None? {
      return None;
    }
    assert EmployeeOf(employees, actor.value) == if actor.value in byUser then Some(byUser[actor.value]) else None;
    if actor.value !in byUser {
      return None;
    }
    return Some(byUser[actor.value]);
  }

  lemma OneSaleMore(employees: seq<Employee>, events: seq<SaleEvent>, init: seq<Sale>, sale: Sale)
    ensures var id, all := AttributedTo(employees, events, sale), AllCalculated(employees, events, init);
            AllCalculated(employees, events, init + [sale]) == (if id.None? then all else all + [Calculated(sale, id.value)]) &&
            Unattributed(employees, events, init + [sale]) == Unattributed(employees, events, init) + if id.None? then 1 else 0
  {
    assert (init + [sale])[..|init|] == init;
  }

  /** The three results stand for the sales seen so far. */
  ghost predicate ReportOf(employees: seq<Employee>, events: seq<SaleEvent>, sales: seq<Sale>,
                           rows: map<EmployeeId, Row>, calculated: seq<Calculation>, unattributed: nat) {
    calculated == AllCalculated(employees, events, sales) &&
    unattributed == Unattributed(employees, events, sales) &&
    rows.Keys == (set e | e in employees :: e.id) &&
    forall e :: e in employees ==> e.id in rows && rows[e.id] == RowOf(Mine(calculated, e.id), InForce(e))
  }

  lemma SkippedSale(employees: seq<Employee>, events: seq<SaleEvent>, sales: seq<Sale>, sale: Sale,
                    rows: map<EmployeeId, Row>, calculated: seq<Calculation>, unattributed: nat)
    requires ReportOf(employees, events, sales, rows, calculated, unattributed)
    requires AttributedTo(employees, events, sale).None?
    ensures ReportOf(employees, events, sales + [sale], rows, calculated, unattributed + 1)
  {
    OneSaleMore(employees, events, sales, sale);
  }

  lemma CountedSale(employees: seq<Employee>, events: seq<SaleEvent>, sales: seq<Sale>, sale: Sale,
                    rows: map<EmployeeId, Row>, calculated: seq<Calculation>, unattributed: nat,
                    owner: Employee, c: Calculation)
    requires DistinctIds(employees) && owner in employees
    requires ReportOf(employees, events, sales, rows, calculated, unattributed)
    requires AttributedTo(employees, events, sale) == Some(owner.id) && c == Calculated(sale, owner.id)
    ensures ReportOf(employees, events, sales + [sale],
                     rows[owner.id := Counted(rows[owner.id], c, InForce(owner))], calculated + [c], unattributed)
  {
    OneSaleMore(employees, events, sales, sale);
    var after := rows[owner.id := Counted(rows[owner.id], c, InForce(owner))];
    assert after.Keys == rows.Keys;
    forall e | e in employees
      ensures e.id in after && after[e.id] == RowOf(Mine(calculated + [c], e.id), InForce(e))
    {
      if e.id == owner.id {
        SameEmployee(employees, e, owner);
      }
      RowAfterCount(rows, calculated, owner, c, e);
    }
  }

  lemma SameEmployee(employees: seq<Employee>, a: Employee, b: Employee)
    requires DistinctIds(employees) && a in employees && b in employees && a.id == b.id
    ensures a == b
  {
  }

  /** What counting a sale of `owner` makes of the row of `e`. */
  lemma RowAfterCount(rows: map<EmployeeId, Row>, calculated: seq<Calculation>, owner: Employee, c: Calculation, e: Employee)
    requires owner.id in rows && e.id in rows && (e.id == owner.id ==> e == owner)
    requires rows[e.id] == RowOf(Mine(calculated, e.id), InForce(e)) && c.employee == owner.id
    ensures rows[owner.id := Counted(rows[owner.id], c, InForce(owner))][e.id]
            == RowOf(Mine(calculated + [c], e.id), InForce(e))
  {
    CommissionBounds.RowWithOneMore(calculated, c, e.id, InForce(e));
  }

  /** The report of a period: one row per employee, the calculated sales, and how many sales
      have no reliable actor. */
  method Build(employees: seq<Employee>, events: seq<SaleEvent>, sales: seq<Sale>)
    returns (rows: map<EmployeeId, Row>, calculated: seq<Calculation>, unattributed: nat)
    requires DistinctIds(employees)
    ensures ReportOf(employees, events, sales, rows, calculated, unattributed)
    ensures CommissionBounds.CountedSales(employees, calculated) + unattributed == |sales|
  {
    var byId := IndexById(employees);
    var byUser := IndexByUser(employees);
    var first := FirstEvents(events);
    rows := map id | id in byId :: BLANK_ROW;
    calculated, unattributed := [], 0;
    assert sales[..0] == [];
    for i := 0 to |sales|
      invariant ReportOf(employees, events, sales[..i], rows, calculated, unattributed)
    {
      assert sales[..i + 1] == sales[..i] + [sales[i]];
      var id := Attribute(employees, events, byUser, first, sales[i]);
      if id.None? {
        SkippedSale(employees, events, sales[..i], sales[i], rows, calculated, unattributed);
        unattributed := unattributed + 1;
        continue;
      }
      var c := CalculateSale(sales[i], id.value);
      var owner := byId[id.value];
      var row := CountSale(rows[id.value], c, InForce(owner));
      CountedSale(employees, events, sales[..i], sales[i], rows, calculated, unattributed, owner, c);
      calculated := calculated + [c];
      rows := rows[id.value := row];
    }
    assert sales[..|sales|] == sales;
    CommissionBounds.EverySaleCountedOnce(employees, events, sales);
  }
}
