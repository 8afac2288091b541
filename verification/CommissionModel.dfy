/** Estimated sales commissions of a company's employees. Amounts are whole cents. */
module CommissionModel {
  import opened Wrappers

  type EmployeeId = string
  type UserId = string
  type Time = int

  datatype Item = Item(totalPriceCents: int, quantityMil: int, unitCostCents: int, totalCostCents: int)

  /** The operational order a sale was converted from. */
  datatype Order = Order(seller: Option<UserId>, subtotalCents: int, totalCents: int)

  datatype Sale = Sale(
    id: string,
    canceled: bool,
    canceledAt: Option<Time>,
    totalAmountCents: int,
    soldAt: Time,
    cashUser: Option<UserId>,
    order: Option<Order>,
    items: seq<Item>)

  /** An accepted sync event of a sale. */
  datatype SaleEvent = SaleEvent(saleId: string, user: Option<UserId>)

  datatype CommissionType = NO_COMMISSION | PERCENTAGE | FIXED_PER_SALE

  datatype CommissionBase = GROSS_SALES | NET_SALES | GROSS_PROFIT

  datatype Settings = Settings(enabled: bool, kind: CommissionType, base: CommissionBase, rateBps: Option<int>, fixedCents: Option<int>)

  datatype Employee = Employee(id: EmployeeId, user: Option<UserId>, stored: Settings)

  /** The settings in force: a disabled commission has no type. */
  function InForce(e: Employee): Settings {
    if e.stored.enabled then e.stored else e.stored.(kind := NO_COMMISSION)
  }

  function Positive(x: int): nat { if x > 0 then x else 0 }

  // ----- one sale -----

  function PriceSum(items: seq<Item>): nat {
    if items == [] then 0 else PriceSum(items[..|items| - 1]) + Positive(items[|items| - 1].totalPriceCents)
  }

  /** The part of the sale's net amount an item carries. */
  function ItemNet(price: int, allItems: nat, net: nat): nat {
    if allItems == 0 || net >= allItems then Positive(price)
    else Positive(price) * net / allItems
  }

  function ItemCost(item: Item): Option<nat> {
    if item.totalCostCents > 0 then Some(item.totalCostCents)
    else if item.unitCostCents > 0 && item.quantityMil > 0 then Some(Positive(item.unitCostCents) * Positive(item.quantityMil) / 1000)
    else None
  }

  function ItemProfit(item: Item, allItems: nat, net: nat): nat {
    match ItemCost(item)
    case None => 0
    case Some(cost) => Positive(ItemNet(item.totalPriceCents, allItems, net) - cost)
  }

  function ProfitSum(items: seq<Item>, allItems: nat, net: nat): nat {
    if items == [] then 0
    else ProfitSum(items[..|items| - 1], allItems, net) + ItemProfit(items[|items| - 1], allItems, net)
  }

  function CostlessCount(items: seq<Item>): nat {
    if items == [] then 0
    else CostlessCount(items[..|items| - 1]) + if ItemCost(items[|items| - 1]).None? then 1 else 0
  }

  function Gross(sale: Sale): nat {
    if sale.order.Some? && sale.order.value.subtotalCents > 0 then sale.order.value.subtotalCents
    else Positive(sale.totalAmountCents)
  }

  function Net(sale: Sale): nat {
    if sale.order.Some? && sale.order.value.totalCents > 0 then sale.order.value.totalCents
    else Positive(sale.totalAmountCents)
  }

  datatype Calculation = Calculation(
    saleId: string,
    employee: EmployeeId,
    occurredAt: Time,
    canceled: bool,
    gross: nat,
    net: nat,
    discount: nat,
    profit: nat,
    reliableCost: bool,
    itemsWithoutCost: nat)

  function Calculated(sale: Sale, employee: EmployeeId): Calculation {
    Calculation(sale.id, employee, sale.soldAt, sale.canceled || sale.canceledAt.Some?,
                Gross(sale), Net(sale), Positive(Gross(sale) - Net(sale)),
                ProfitSum(sale.items, PriceSum(sale.items), Net(sale)),
                sale.items != [] && CostlessCount(sale.items) == 0, CostlessCount(sale.items))
  }

  // ----- one commission -----

  datatype Ignored = SALE_CANCELED | COMMISSION_DISABLED | PARTIAL_COST_MISSING | COST_MISSING

  datatype Commission = Commission(eligible: bool, base: nat, amount: int, ignored: Option<Ignored>)

  function BaseAmount(c: Calculation, base: CommissionBase): nat {
    match base
    case GROSS_SALES => c.gross
    case NET_SALES => c.net
    case GROSS_PROFIT => c.profit
  }

  function CommissionFor(c: Calculation, s: Settings): Commission {
    if c.canceled then Commission(false, 0, 0, Some(SALE_CANCELED))
    else if !s.enabled || s.kind.NO_COMMISSION? then Commission(false, 0, 0, Some(COMMISSION_DISABLED))
    else if s.kind.FIXED_PER_SALE? then Commission(true, c.net, s.fixedCents.GetOr(0), None)
    else
      var base := BaseAmount(c, s.base);
      var amount := base * s.rateBps.GetOr(0) / 10000;
      if s.base.GROSS_PROFIT? && !c.reliableCost then
        Commission(c.profit > 0, base, amount, Some(if c.profit > 0 then PARTIAL_COST_MISSING else COST_MISSING))
      else Commission(true, base, amount, None)
  }

  // ----- attribution -----

  /** The first event of a sale, in the order of the events. */
  function EventOf(events: seq<SaleEvent>, saleId: string): Option<SaleEvent> {
    if events == [] then None
    else
      var earlier := EventOf(events[..|events| - 1], saleId);
      if earlier.Some? then earlier
      else if events[|events| - 1].saleId == saleId then Some(events[|events| - 1])
      else None
  }

  /** Who made a sale: the seller of its order, else the user of its sync event, else the
      user of its cash session. */
  function ActorOf(sale: Sale, event: Option<SaleEvent>): Option<UserId> {
    var seller := if sale.order.Some? then sale.order.value.seller else None;
    var synced := if event.Some? then event.value.user else None;
    seller.OrElse(synced).OrElse(sale.cashUser)
  }

  /** The employee with a given user account; the last one listed wins. */
  function EmployeeOf(employees: seq<Employee>, user: UserId): (id: Option<EmployeeId>)
    ensures id.Some? ==> exists e :: e in employees && e.id == id.value
  {
    if employees == [] then None
    else if employees[|employees| - 1].user == Some(user) then Some(employees[|employees| - 1].id)
    else EmployeeOf(employees[..|employees| - 1], user)
  }

  function AttributedTo(employees: seq<Employee>, events: seq<SaleEvent>, sale: Sale): (id: Option<EmployeeId>)
    ensures id.Some? ==> exists e :: e in employees && e.id == id.value
  {
    match ActorOf(sale, EventOf(events, sale.id))
    case None => None
    case Some(user) => EmployeeOf(employees, user)
  }

  ghost predicate DistinctIds(employees: seq<Employee>) {
    forall i, j :: 0 <= i < j < |employees| ==> employees[i].id != employees[j].id
  }

  // ----- rows -----

  datatype Row = Row(
    salesCount: nat,
    eligibleSalesCount: nat,
    salesAmountCents: nat,
    eligibleBaseCents: nat,
    grossProfitCents: nat,
    commissionCents: int,
    canceledSalesCount: nat,
    salesWithoutCostCount: nat,
    lastSaleAt: Option<Time>)

  const BLANK_ROW := Row(0, 0, 0, 0, 0, 0, 0, 0, None)

  function Later(a: Option<Time>, b: Time): Option<Time> {
    if a.None? || b > a.value then Some(b) else a
  }

  /** What one more attributed sale does to its employee's row. */
  function Counted(row: Row, c: Calculation, s: Settings): Row {
    var seen := row.(lastSaleAt := Later(row.lastSaleAt, c.occurredAt));
    if c.canceled then seen.(canceledSalesCount := seen.canceledSalesCount + 1)
    else
      var m := CommissionFor(c, s);
      var uncosted := s.enabled && s.kind.PERCENTAGE? && s.base.GROSS_PROFIT? && !c.reliableCost;
      seen.(
        salesCount := seen.salesCount + 1,
        salesAmountCents := seen.salesAmountCents + c.net,
        eligibleSalesCount := seen.eligibleSalesCount + (if m.eligible then 1 else 0),
        eligibleBaseCents := seen.eligibleBaseCents + (if m.eligible then m.base else 0),
        grossProfitCents := seen.grossProfitCents + (if m.eligible && s.base.GROSS_PROFIT? then c.profit else 0),
        commissionCents := seen.commissionCents + (if m.eligible then m.amount else 0),
        salesWithoutCostCount := seen.salesWithoutCostCount + (if uncosted then 1 else 0))
  }

  function RowOf(mine: seq<Calculation>, s: Settings): Row {
    if mine == [] then BLANK_ROW else Counted(RowOf(mine[..|mine| - 1], s), mine[|mine| - 1], s)
  }

  /** The attributed sales of a period, calculated, in order. */
  function AllCalculated(employees: seq<Employee>, events: seq<SaleEvent>, sales: seq<Sale>): seq<Calculation> {
    if sales == [] then []
    else
      var sale := sales[|sales| - 1];
      var before := AllCalculated(employees, events, sales[..|sales| - 1]);
      match AttributedTo(employees, events, sale)
      case None => before
      case Some(id) => before + [Calculated(sale, id)]
  }

  function Mine(all: seq<Calculation>, id: EmployeeId): seq<Calculation> {
    if all == [] then []
    else
      var before := Mine(all[..|all| - 1], id);
      if all[|all| - 1].employee == id then before + [all[|all| - 1]] else before
  }

  function Unattributed(employees: seq<Employee>, events: seq<SaleEvent>, sales: seq<Sale>): nat {
    if sales == [] then 0
    else Unattributed(employees, events, sales[..|sales| - 1]) +
         if AttributedTo(employees, events, sales[|sales| - 1]).None? then 1 else 0
  }
}
