/** Rounding bounds, conservation and consistency of the commission report. */
module CommissionBounds {
  import opened CommissionModel

  // ----- splitting a sale's net amount over its items -----

  function SplitSum(items: seq<Item>, allItems: nat, net: nat): nat {
    if items == [] then 0
    else SplitSum(items[..|items| - 1], allItems, net) + ItemNet(items[|items| - 1].totalPriceCents, allItems, net)
  }

  lemma FloorBounds(a: nat, d: nat)
    requires d > 0
    ensures (a / d) * d <= a <= (a / d) * d + d - 1
  {
  }

  /** Adding one rounded part keeps a sum of rounded parts within one unit per part. */
  lemma AddRoundedPart(split: nat, whole: nat, n: nat, part: nat, add: nat, d: nat)
    requires d > 0 && split * d <= whole <= split * d + n * (d - 1)
    requires part * d <= add <= part * d + d - 1
    ensures (split + part) * d <= whole + add <= (split + part) * d + (n + 1) * (d - 1)
  {
    assert (split + part) * d == split * d + part * d;
    assert (n + 1) * (d - 1) == n * (d - 1) + (d - 1);
  }

  /** Scaled by the item total, the split of a list of items lies between its share of the
      net amount and that share less one per item. */
  lemma {:induction false} SplitScaled(items: seq<Item>, allItems: nat, net: nat)
    requires 0 < allItems && net < allItems
    ensures SplitSum(items, allItems, net) * allItems <= PriceSum(items) * net
    ensures PriceSum(items) * net <= SplitSum(items, allItems, net) * allItems + |items| * (allItems - 1)
  {
    if items != [] {
      var init, price := items[..|items| - 1], Positive(items[|items| - 1].totalPriceCents);
      SplitScaled(init, allItems, net);
      FloorBounds(price * net, allItems);
      AddRoundedPart(SplitSum(init, allItems, net), PriceSum(init) * net, |init|, price * net / allItems, price * net, allItems);
      Distribute(PriceSum(init), price, net);
    }
  }

  lemma Distribute(a: int, b: int, c: int)
    ensures (a + b) * c == a * c + b * c
  {
  }

  lemma {:induction false} FullSplit(items: seq<Item>, allItems: nat, net: nat)
    requires allItems == 0 || net >= allItems
    ensures SplitSum(items, allItems, net) == PriceSum(items)
  {
    if items != [] {
      FullSplit(items[..|items| - 1], allItems, net);
    }
  }

  lemma StrictProduct(a: int, b: int, d: nat)
    requires a > b
    ensures a * d >= b * d + d
  {
    NonNegativeProduct(a - b - 1, d);
    Distribute(a - b - 1, b + 1, d);
    Distribute(b, 1, d);
  }

  lemma NonNegativeProduct(x: nat, y: nat)
    ensures x * y >= 0
  {
  }

  lemma Product(a: int, b: int, d: nat)
    requires a >= b
    ensures a * d >= b * d
  {
    if a > b {
      StrictProduct(a, b, d);
    }
  }

  /** A rounded split of `net` in parts of `total` over `n` items misses less than `n`. */
  lemma ScaledSplitBounds(split: nat, net: nat, total: nat, n: nat)
    requires total > 0 && n > 0
    requires split * total <= total * net <= split * total + n * (total - 1)
    ensures split <= net && net - split < n
  {
    if split > net {
      StrictProduct(split, net, total);
      assert false;
    }
    Distribute(split, n, total);
    assert n * (total - 1) == n * total - n;
    if net - split >= n {
      Product(net, split + n, total);
      assert false;
    }
  }

  /** The item amounts never sum to more than the sale's net amount, and when the net amount
      is below the item total they fall short of it by less than one cent per item. */
  lemma SplitWithinNet(sale: Sale)
    ensures var total, net := PriceSum(sale.items), Net(sale);
            SplitSum(sale.items, total, net) <= net &&
            (net >= total ==> SplitSum(sale.items, total, net) == total) &&
            (net < total ==> net - SplitSum(sale.items, total, net) < |sale.items|)
  {
    var items, total, net := sale.items, PriceSum(sale.items), Net(sale);
    if total == 0 || net >= total {
      FullSplit(items, total, net);
    } else {
      SplitScaled(items, total, net);
      ScaledSplitBounds(SplitSum(items, total, net), net, total, |items|);
    }
  }

  lemma {:induction false} ProfitWithinSplit(items: seq<Item>, allItems: nat, net: nat)
    ensures ProfitSum(items, allItems, net) <= SplitSum(items, allItems, net)
  {
    if items != [] {
      ProfitWithinSplit(items[..|items| - 1], allItems, net);
    }
  }

  /** Gross profit never exceeds the net amount. */
  lemma ProfitWithinNet(sale: Sale, employee: EmployeeId)
    ensures Calculated(sale, employee).profit <= Calculated(sale, employee).net
  {
    SplitWithinNet(sale);
    ProfitWithinSplit(sale.items, PriceSum(sale.items), Net(sale));
  }

  // ----- percentage commission -----

  /** The rate the settings schema accepts. */
  predicate RateOk(s: Settings) {
    s.rateBps.Some? ==> 0 <= s.rateBps.value <= 10000
  }

  lemma AddPercentage(commission: int, base: nat, n: nat, more: nat, rate: nat)
    requires 0 <= commission && commission * 10000 <= base * rate <= commission * 10000 + 9999 * n
    ensures var part := more * rate / 10000;
            (commission + part) * 10000 <= (base + more) * rate <= (commission + part) * 10000 + 9999 * (n + 1)
  {
    FloorBounds(more * rate, 10000);
    Distribute(base, more, rate);
  }

  /** The row's commission lies between the rate on its base less one cent per sale and that rate. */
  predicate WithinACentPerSale(row: Row, rate: int) {
    0 <= row.commissionCents && row.commissionCents * 10000 <= row.eligibleBaseCents * rate &&
    row.eligibleBaseCents * rate <= row.commissionCents * 10000 + 9999 * row.eligibleSalesCount
  }

  lemma CountingStaysWithinACent(row: Row, c: Calculation, s: Settings)
    requires s.enabled && s.kind.PERCENTAGE? && RateOk(s) && WithinACentPerSale(row, s.rateBps.GetOr(0))
    ensures WithinACentPerSale(Counted(row, c, s), s.rateBps.GetOr(0))
  {
    var m, rate := CommissionFor(c, s), s.rateBps.GetOr(0);
    if m.eligible {
      AddPercentage(row.commissionCents, row.eligibleBaseCents, row.eligibleSalesCount, m.base, rate);
      assert m.amount == m.base * rate / 10000;
    }
  }

  /** A row's percentage commission never exceeds the rate on its eligible base and falls
      short of it by less than one cent per eligible sale. */
  lemma {:induction false} PercentageWithinOneCentPerSale(mine: seq<Calculation>, s: Settings)
    requires s.enabled && s.kind.PERCENTAGE? && RateOk(s)
    ensures WithinACentPerSale(RowOf(mine, s), s.rateBps.GetOr(0))
  {
    if mine != [] {
      var init, c := mine[..|mine| - 1], mine[|mine| - 1];
      PercentageWithinOneCentPerSale(init, s);
      CountingStaysWithinACent(RowOf(init, s), c, s);
    }
  }

  lemma RateWithinBase(commission: int, base: nat, rate: int)
    requires commission * 10000 <= base * rate && rate <= 10000
    ensures commission <= base
  {
    assert base * (10000 - rate) >= 0;
    assert base * rate == base * 10000 - base * (10000 - rate);
  }

  /** ... so a percentage commission is never more than the base it is taken of. */
  lemma PercentageWithinBase(mine: seq<Calculation>, s: Settings)
    requires s.enabled && s.kind.PERCENTAGE? && RateOk(s)
    ensures RowOf(mine, s).commissionCents <= RowOf(mine, s).eligibleBaseCents
  {
    PercentageWithinOneCentPerSale(mine, s);
    RateWithinBase(RowOf(mine, s).commissionCents, RowOf(mine, s).eligibleBaseCents, s.rateBps.GetOr(0));
  }

  // ----- every sale counts once -----

  lemma {:induction false} RowCountsItsSales(mine: seq<Calculation>, s: Settings)
    ensures RowOf(mine, s).salesCount + RowOf(mine, s).canceledSalesCount == |mine|
    ensures RowOf(mine, s).eligibleSalesCount <= RowOf(mine, s).salesCount
  {
    if mine != [] {
      RowCountsItsSales(mine[..|mine| - 1], s);
    }
  }

  /** The sales counted in the rows of the listed employees. */
  function CountedSales(employees: seq<Employee>, all: seq<Calculation>): nat {
    if employees == [] then 0
    else
      var e := employees[|employees| - 1];
      var row := RowOf(Mine(all, e.id), InForce(e));
      CountedSales(employees[..|employees| - 1], all) + row.salesCount + row.canceledSalesCount
  }

  lemma {:induction false} OneMoreSale(employees: seq<Employee>, all: seq<Calculation>, c: Calculation)
    requires DistinctIds(employees)
    ensures CountedSales(employees, all + [c]) ==
              CountedSales(employees, all) + if exists e :: e in employees && e.id == c.employee then 1 else 0
  {
    assert (all + [c])[..|all|] == all;
    if employees != [] {
      var init, e := employees[..|employees| - 1], employees[|employees| - 1];
      OneMoreSale(init, all, c);
      RowCountsItsSales(Mine(all, e.id), InForce(e));
      RowCountsItsSales(Mine(all + [c], e.id), InForce(e));
      assert forall x :: x in employees <==> x in init || x == e;
      if e.id == c.employee {
        assert !exists x :: x in init && x.id == c.employee;
      }
    }
  }

  lemma {:induction false} NothingCounted(employees: seq<Employee>)
    ensures CountedSales(employees, []) == 0
  {
    if employees != [] {
      NothingCounted(employees[..|employees| - 1]);
    }
  }

  /** Every sale of the period is counted exactly once: as active or canceled in one
      employee's row, or as unattributed. */
  lemma {:induction false} EverySaleCountedOnce(employees: seq<Employee>, events: seq<SaleEvent>, sales: seq<Sale>)
    requires DistinctIds(employees)
    ensures CountedSales(employees, AllCalculated(employees, events, sales)) + Unattributed(employees, events, sales) == |sales|
  {
    if sales == [] {
      NothingCounted(employees);
    } else {
      var init, sale := sales[..|sales| - 1], sales[|sales| - 1];
      EverySaleCountedOnce(employees, events, init);
      match AttributedTo(employees, events, sale)
      case None =>
      case Some(id) =>
        OneMoreSale(employees, AllCalculated(employees, events, init), Calculated(sale, id));
    }
  }

  /** The counters of a report: two per row, and the sales without a reliable actor. */
  datatype Counter = ActiveSales(employee: EmployeeId) | CanceledSales(canceledFor: EmployeeId) | NoReliableActor

  /** The counter a sale belongs to. */
  function CounterOf(employees: seq<Employee>, events: seq<SaleEvent>, sale: Sale): Counter {
    var id := AttributedTo(employees, events, sale);
    if !id.Some? then NoReliableActor
    else if sale.canceled || sale.canceledAt.Some? then CanceledSales(id.value)
    else ActiveSales(id.value)
  }

  /** What the report of a period shows on a counter. */
  function Shown(employees: seq<Employee>, events: seq<SaleEvent>, sales: seq<Sale>, s: Settings, counter: Counter): nat {
    match counter
    case NoReliableActor => Unattributed(employees, events, sales)
    case ActiveSales(id) => RowOf(Mine(AllCalculated(employees, events, sales), id), s).salesCount
    case CanceledSales(id) => RowOf(Mine(AllCalculated(employees, events, sales), id), s).canceledSalesCount
  }

  /** The number of sales that belong to a counter. */
  function Tally(employees: seq<Employee>, events: seq<SaleEvent>, sales: seq<Sale>, counter: Counter): nat {
    if sales == [] then 0
    else Tally(employees, events, sales[..|sales| - 1], counter) +
         if CounterOf(employees, events, sales[|sales| - 1]) == counter then 1 else 0
  }

  /** A further sale changes only the row of its own employee. */
  lemma RowWithOneMore(all: seq<Calculation>, c: Calculation, id: EmployeeId, s: Settings)
    ensures RowOf(Mine(all + [c], id), s) ==
              if c.employee == id then Counted(RowOf(Mine(all, id), s), c, s) else RowOf(Mine(all, id), s)
  {
    assert (all + [c])[..|all|] == all;
    var mine := Mine(all, id);
    assert (mine + [c])[..|mine|] == mine;
  }

  /** One more sale raises exactly the counter it belongs to, by one. */
  lemma ShownWithOneMore(employees: seq<Employee>, events: seq<SaleEvent>, sales: seq<Sale>, s: Settings, counter: Counter)
    requires sales != []
    ensures Shown(employees, events, sales, s, counter)
            == Shown(employees, events, sales[..|sales| - 1], s, counter) +
               if CounterOf(employees, events, sales[|sales| - 1]) == counter then 1 else 0
  {
    var init, sale := sales[..|sales| - 1], sales[|sales| - 1];
    var id := AttributedTo(employees, events, sale);
    if id.Some? && !counter.NoReliableActor? {
      var shownFor := if counter.ActiveSales? then counter.employee else counter.canceledFor;
      RowWithOneMore(AllCalculated(employees, events, init), Calculated(sale, id.value), shownFor, s);
    }
  }

  lemma {:induction false} ShownIsTally(employees: seq<Employee>, events: seq<SaleEvent>, sales: seq<Sale>, s: Settings, counter: Counter)
    ensures Shown(employees, events, sales, s, counter) == Tally(employees, events, sales, counter)
  {
    if sales != [] {
      ShownIsTally(employees, events, sales[..|sales| - 1], s, counter);
      ShownWithOneMore(employees, events, sales, s, counter);
    }
  }

  lemma {:induction false} TallyConcat(employees: seq<Employee>, events: seq<SaleEvent>, a: seq<Sale>, b: seq<Sale>, counter: Counter)
    ensures Tally(employees, events, a + b, counter) == Tally(employees, events, a, counter) + Tally(employees, events, b, counter)
  {
    if b == [] {
      assert a + b == a;
    } else {
      assert (a + b)[..|a + b| - 1] == a + b[..|b| - 1];
      TallyConcat(employees, events, a, b[..|b| - 1], counter);
    }
  }

  /** Every sale of the period is in exactly one counter, and that counter is shown: without
      the sale this counter is one lower and all others are the same. */
  lemma EverySaleInOneCounter(employees: seq<Employee>, events: seq<SaleEvent>, sales: seq<Sale>, i: nat, s: Settings, counter: Counter)
    requires i < |sales|
    ensures var its := CounterOf(employees, events, sales[i]);
            (its.NoReliableActor? || exists e :: e in employees && its in {ActiveSales(e.id), CanceledSales(e.id)}) &&
            Shown(employees, events, sales, s, counter)
            == Shown(employees, events, sales[..i] + sales[i + 1..], s, counter) + if counter == its then 1 else 0
  {
    ShownIsTally(employees, events, sales, s, counter);
    ShownIsTally(employees, events, sales[..i] + sales[i + 1..], s, counter);
    TallyWithout(employees, events, sales, i, counter);
    OwnerIsListed(employees, events, sales[i]);
  }

  lemma TallySnoc(employees: seq<Employee>, events: seq<SaleEvent>, a: seq<Sale>, sale: Sale, counter: Counter)
    ensures Tally(employees, events, a + [sale], counter)
            == Tally(employees, events, a, counter) + if CounterOf(employees, events, sale) == counter then 1 else 0
  {
    assert (a + [sale])[..|a|] == a;
  }

  lemma TallyOfParts(employees: seq<Employee>, events: seq<SaleEvent>, a: seq<Sale>, sale: Sale, b: seq<Sale>, counter: Counter)
    ensures Tally(employees, events, a + [sale] + b, counter)
            == Tally(employees, events, a + b, counter) + if CounterOf(employees, events, sale) == counter then 1 else 0
  {
    TallySnoc(employees, events, a, sale, counter);
    TallyConcat(employees, events, a + [sale], b, counter);
    TallyConcat(employees, events, a, b, counter);
  }

  lemma TallyWithout(employees: seq<Employee>, events: seq<SaleEvent>, sales: seq<Sale>, i: nat, counter: Counter)
    requires i < |sales|
    ensures Tally(employees, events, sales, counter)
            == Tally(employees, events, sales[..i] + sales[i + 1..], counter) +
               if CounterOf(employees, events, sales[i]) == counter then 1 else 0
  {
    assert sales == sales[..i] + [sales[i]] + sales[i + 1..];
    TallyOfParts(employees, events, sales[..i], sales[i], sales[i + 1..], counter);
  }

  lemma OwnerIsListed(employees: seq<Employee>, events: seq<SaleEvent>, sale: Sale)
    ensures var its := CounterOf(employees, events, sale);
            its.NoReliableActor? || exists e :: e in employees && its in {ActiveSales(e.id), CanceledSales(e.id)}
  {
    var id := AttributedTo(employees, events, sale);
    if id.Some? {
      var e :| e in employees && e.id == id.value;
      assert CounterOf(employees, events, sale) in {ActiveSales(e.id), CanceledSales(e.id)};
    }
  }

  // ----- detail and summary agree -----

  function ListedSum(sales: seq<Calculation>, s: Settings): int {
    if sales == [] then 0 else CommissionFor(sales[0], s).amount + ListedSum(sales[1..], s)
  }

  lemma {:induction false} ListedSumConcat(a: seq<Calculation>, b: seq<Calculation>, s: Settings)
    ensures ListedSum(a + b, s) == ListedSum(a, s) + ListedSum(b, s)
  {
    if a == [] {
      assert a + b == b;
    } else {
      assert (a + b)[1..] == a[1..] + b;
      ListedSumConcat(a[1..], b, s);
    }
  }

  lemma TakeOut(b: seq<Calculation>, i: nat, s: Settings)
    requires i < |b|
    ensures ListedSum(b, s) == CommissionFor(b[i], s).amount + ListedSum(b[..i] + b[i + 1..], s)
  {
    ListedSumConcat(b[..i], b[i..], s);
    ListedSumConcat(b[..i], b[i + 1..], s);
    assert b == b[..i] + b[i..];
    assert b[i..][1..] == b[i + 1..];
  }

  lemma SameRest<T>(a: seq<T>, b: seq<T>, i: nat)
    requires a != [] && i < |b| && b[i] == a[0] && multiset(a) == multiset(b)
    ensures multiset(a[1..]) == multiset(b[..i] + b[i + 1..])
  {
    assert a == [a[0]] + a[1..];
    assert b == b[..i] + [b[i]] + b[i + 1..];
    assert multiset(a[1..]) == multiset(a) - multiset{a[0]};
    assert multiset(b[..i] + b[i + 1..]) == multiset(b) - multiset{a[0]};
  }

  /** The sum does not depend on the order of the list. */
  lemma {:induction false} ListedSumAnyOrder(a: seq<Calculation>, b: seq<Calculation>, s: Settings)
    requires multiset(a) == multiset(b)
    ensures ListedSum(a, s) == ListedSum(b, s)
  {
    if a == [] {
      assert |multiset(b)| == 0;
    } else {
      assert a[0] in multiset(b);
      var i :| 0 <= i < |b| && b[i] == a[0];
      SameRest(a, b, i);
      TakeOut(b, i, s);
      ListedSumAnyOrder(a[1..], b[..i] + b[i + 1..], s);
    }
  }

  /** A sale that does not count toward a commission is listed with amount zero. */
  lemma IneligibleIsZero(c: Calculation, s: Settings)
    ensures !CommissionFor(c, s).eligible ==> CommissionFor(c, s).amount == 0
  {
  }

  lemma {:induction false} RowSumsCommissions(mine: seq<Calculation>, s: Settings)
    ensures RowOf(mine, s).commissionCents == ListedSum(mine, s)
  {
    if mine != [] {
      var init, c := mine[..|mine| - 1], mine[|mine| - 1];
      RowSumsCommissions(init, s);
      IneligibleIsZero(c, s);
      assert mine == init + [c];
      ListedSumConcat(init, [c], s);
      assert [c][1..] == [];
    }
  }

  /** The commissions listed sale by sale in an employee's detail, in whatever order, sum to
      that employee's row total. */
  lemma DetailSumsToRow(listed: seq<Calculation>, all: seq<Calculation>, e: Employee)
    requires multiset(listed) == multiset(Mine(all, e.id))
    ensures ListedSum(listed, InForce(e)) == RowOf(Mine(all, e.id), InForce(e)).commissionCents
  {
    ListedSumAnyOrder(listed, Mine(all, e.id), InForce(e));
    RowSumsCommissions(Mine(all, e.id), InForce(e));
  }
}
