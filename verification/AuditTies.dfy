/**
 Audit pages when the database orders rows with equal times differently from one query to
 the next. Each page is then cut from its own arrangement of the two logs.
 */
module AuditTies {
  import opened AuditPages

  /** Another newest-first arrangement of the same log. */
  ghost predicate Reordered(xs: seq<Event>, ys: seq<Event>) {
    Newest(ys) && multiset(ys) == multiset(xs)
  }

  /** Every event of a log is there once. */
  ghost predicate NoRepeats(xs: seq<Event>) {
    forall i, j :: 0 <= i < j < |xs| ==> xs[i] != xs[j]
  }

  // ----- where a merge cuts its logs -----

  /** How many of the first `n` merged events come from the left log. */
  function LeftOf(a: seq<Event>, b: seq<Event>, n: nat): (i: nat)
    ensures i <= |a|
    decreases n
  {
    if n == 0 || a == [] then 0
    else if b == [] || a[0].at >= b[0].at then 1 + LeftOf(a[1..], b, n - 1)
    else LeftOf(a, b[1..], n - 1)
  }

  /** ... and how many from the right one. */
  function RightOf(a: seq<Event>, b: seq<Event>, n: nat): (j: nat)
    ensures j <= |b|
    decreases n
  {
    if n == 0 || b == [] then 0
    else if a == [] || a[0].at < b[0].at then 1 + RightOf(a, b[1..], n - 1)
    else RightOf(a[1..], b, n - 1)
  }

  lemma MergeTakesLeft(a: seq<Event>, b: seq<Event>)
    requires a != [] && (b == [] || a[0].at >= b[0].at)
    ensures Merge(a, b) == [a[0]] + Merge(a[1..], b)
  {
    if b == [] {
      assert Merge(a[1..], b) == a[1..];
    }
  }

  lemma MergeTakesRight(a: seq<Event>, b: seq<Event>)
    requires b != [] && (a == [] || a[0].at < b[0].at)
    ensures Merge(a, b) == [b[0]] + Merge(a, b[1..])
  {
  }

  /** One more merged event lengthens the prefix of the log it comes from. */
  lemma OneMoreMerged(a: seq<Event>, i: nat, merged: seq<Event>, rest: seq<Event>, other: multiset<Event>, n: nat)
    requires n > 0 && 0 < i <= |a| && merged == [a[0]] + rest
    requires multiset(Take(rest, n - 1)) == multiset(a[1..][..i - 1]) + other
    ensures multiset(Take(merged, n)) == multiset(a[..i]) + other
  {
    assert Take(merged, n) == [a[0]] + Take(rest, n - 1);
    assert a[..i] == [a[0]] + a[1..][..i - 1];
  }

  /** The first `n` merged events are those the cuts say. */
  predicate CutsTellMerged(a: seq<Event>, b: seq<Event>, n: nat) {
    multiset(Take(Merge(a, b), n)) == multiset(a[..LeftOf(a, b, n)]) + multiset(b[..RightOf(a, b, n)])
  }

  lemma LeftMerged(a: seq<Event>, b: seq<Event>, n: nat)
    requires n > 0 && a != [] && (b == [] || a[0].at >= b[0].at) && CutsTellMerged(a[1..], b, n - 1)
    ensures CutsTellMerged(a, b, n)
  {
    MergeTakesLeft(a, b);
    OneMoreMerged(a, LeftOf(a, b, n), Merge(a, b), Merge(a[1..], b), multiset(b[..RightOf(a, b, n)]), n);
  }

  lemma RightMerged(a: seq<Event>, b: seq<Event>, n: nat)
    requires n > 0 && b != [] && (a == [] || a[0].at < b[0].at) && CutsTellMerged(a, b[1..], n - 1)
    ensures CutsTellMerged(a, b, n)
  {
    MergeTakesRight(a, b);
    OneMoreMerged(b, RightOf(a, b, n), Merge(a, b), Merge(a, b[1..]), multiset(a[..LeftOf(a, b, n)]), n);
  }

  lemma NothingMerged(a: seq<Event>, b: seq<Event>, n: nat)
    requires n == 0 || (a == [] && b == [])
    ensures CutsTellMerged(a, b, n)
  {
  }

  lemma {:induction false} FirstMerged(a: seq<Event>, b: seq<Event>, n: nat)
    ensures CutsTellMerged(a, b, n)
    decreases n
  {
    if n == 0 || (a == [] && b == []) {
      NothingMerged(a, b, n);
    } else if a != [] && (b == [] || a[0].at >= b[0].at) {
      FirstMerged(a[1..], b, n - 1);
      LeftMerged(a, b, n);
    } else {
      FirstMerged(a, b[1..], n - 1);
      RightMerged(a, b, n);
    }
  }

  ghost predicate SameTimes(xs: seq<Event>, ys: seq<Event>) {
    |xs| == |ys| && forall i :: 0 <= i < |xs| ==> xs[i].at == ys[i].at
  }

  /** The cuts depend on the times only. */
  lemma {:induction false} CutsDependOnTimes(a: seq<Event>, b: seq<Event>, c: seq<Event>, d: seq<Event>, n: nat)
    requires SameTimes(a, c) && SameTimes(b, d)
    ensures LeftOf(a, b, n) == LeftOf(c, d, n) && RightOf(a, b, n) == RightOf(c, d, n)
    decreases n
  {
    if n > 0 {
      if a != [] && (b == [] || a[0].at >= b[0].at) {
        CutsDependOnTimes(a[1..], b, c[1..], d, n - 1);
      } else if b != [] {
        CutsDependOnTimes(a, b[1..], c, d[1..], n - 1);
      }
    }
  }

  lemma Without(ys: seq<Event>, i: nat)
    requires i < |ys| && Newest(ys)
    ensures Newest(ys[..i] + ys[i + 1..])
    ensures multiset(ys) == multiset{ys[i]} + multiset(ys[..i] + ys[i + 1..])
  {
    assert ys == ys[..i] + [ys[i]] + ys[i + 1..];
  }

  lemma SameTimesWithFront(xs: seq<Event>, ys: seq<Event>, i: nat)
    requires xs != [] && i < |ys| && SameTimes(xs[1..], ys[..i] + ys[i + 1..])
    requires forall j :: 0 <= j <= i ==> ys[j].at == xs[0].at
    ensures SameTimes(xs, ys)
  {
    var rest := ys[..i] + ys[i + 1..];
    forall j | 0 <= j < |xs|
      ensures xs[j].at == ys[j].at
    {
      if j > 0 {
        assert xs[j] == xs[1..][j - 1];
        assert rest[j - 1] == if j - 1 < i then ys[j - 1] else ys[j];
      }
    }
  }

  lemma FrontIsNewest(xs: seq<Event>, ys: seq<Event>, i: nat)
    requires xs != [] && Newest(xs) && Reordered(xs, ys) && i < |ys| && ys[i] == xs[0]
    ensures forall j :: 0 <= j <= i ==> ys[j].at == xs[0].at
  {
    forall j | 0 <= j <= i
      ensures ys[j].at == xs[0].at
    {
      assert ys[j] in multiset(xs);
      HeadIsNewest(xs, ys[j]);
    }
  }

  /** Arrangements of one log show the same times in the same places. */
  lemma {:induction false} ReorderedSameTimes(xs: seq<Event>, ys: seq<Event>)
    requires Newest(xs) && Reordered(xs, ys)
    ensures SameTimes(xs, ys)
  {
    if xs == [] {
      assert |multiset(ys)| == 0;
    } else {
      var i := FrontIn(xs, ys);
      FrontIsNewest(xs, ys, i);
      ReorderedSameTimes(xs[1..], ys[..i] + ys[i + 1..]);
      SameTimesWithFront(xs, ys, i);
    }
  }

  /** Where the newest event of a log stands in another arrangement. */
  lemma FrontIn(xs: seq<Event>, ys: seq<Event>) returns (i: nat)
    requires xs != [] && Newest(xs) && Reordered(xs, ys)
    ensures i < |ys| && ys[i] == xs[0]
    ensures Newest(xs[1..]) && Reordered(xs[1..], ys[..i] + ys[i + 1..])
  {
    assert xs[0] in multiset(ys);
    i :| 0 <= i < |ys| && ys[i] == xs[0];
    Without(ys, i);
    assert xs == [xs[0]] + xs[1..];
    assert multiset(xs[1..]) == multiset(xs) - multiset{xs[0]};
  }

  // ----- clean boundaries -----

  /** The cut before index `i` separates no events with equal times. */
  predicate CleanCut(xs: seq<Event>, i: nat) {
    0 < i < |xs| ==> xs[i - 1].at != xs[i].at
  }

  /** No group of equal times of either log lies across the first `n` merged events. */
  predicate CleanBoundary(admin: seq<Event>, session: seq<Event>, n: nat) {
    CleanCut(admin, LeftOf(admin, session, n)) && CleanCut(session, RightOf(admin, session, n))
  }

  lemma PrefixCount(xs: seq<Event>, i: nat, t: Time, e: Event)
    requires i <= |xs|
    requires forall j :: 0 <= j < |xs| ==> (xs[j].at > t <==> j < i)
    ensures multiset(xs[..i])[e] == if e.at > t then multiset(xs)[e] else 0
  {
    assert xs == xs[..i] + xs[i..];
    if e.at > t {
      assert e !in xs[i..];
    } else {
      assert e !in xs[..i];
    }
  }

  /** A clean cut leaves the same events before it in every arrangement. */
  lemma CleanPrefix(xs: seq<Event>, ys: seq<Event>, i: nat)
    requires Newest(xs) && Reordered(xs, ys) && i <= |xs| && CleanCut(xs, i)
    ensures i <= |ys| && multiset(xs[..i]) == multiset(ys[..i])
  {
    ReorderedSameTimes(xs, ys);
    if i == |xs| {
      assert xs[..i] == xs && ys[..i] == ys;
    } else if i > 0 {
      var t := xs[i].at;
      forall e
        ensures multiset(xs[..i])[e] == multiset(ys[..i])[e]
      {
        PrefixCount(xs, i, t, e);
        PrefixCount(ys, i, t, e);
      }
    }
  }

  lemma PrefixIgnoresTies(admin: seq<Event>, session: seq<Event>, a: seq<Event>, s: seq<Event>, n: nat)
    requires Newest(admin) && Newest(session) && Reordered(admin, a) && Reordered(session, s)
    requires CleanBoundary(admin, session, n)
    ensures multiset(Take(Merge(a, s), n)) == multiset(Take(Merge(admin, session), n))
  {
    ReorderedSameTimes(admin, a);
    ReorderedSameTimes(session, s);
    CutsDependOnTimes(admin, session, a, s, n);
    FirstMerged(admin, session, n);
    FirstMerged(a, s, n);
    CleanPrefix(admin, a, LeftOf(admin, session, n));
    CleanPrefix(session, s, RightOf(admin, session, n));
  }

  /** Exchanging two neighbours with equal times. */
  function Exchanged(xs: seq<Event>, i: nat): seq<Event>
    requires 0 < i < |xs|
  {
    xs[i - 1 := xs[i]][i := xs[i - 1]]
  }

  lemma ExchangedReorders(xs: seq<Event>, i: nat)
    requires Newest(xs) && NoRepeats(xs) && 0 < i < |xs| && xs[i - 1].at == xs[i].at
    ensures Reordered(xs, Exchanged(xs, i))
    ensures multiset(Exchanged(xs, i)[..i])[xs[i]] == 1 && multiset(xs[..i])[xs[i]] == 0
  {
    var ys := Exchanged(xs, i);
    assert ys[..i] == xs[..i - 1] + [xs[i]];
    assert xs == xs[..i - 1] + [xs[i - 1], xs[i]] + xs[i + 1..];
    assert ys == xs[..i - 1] + [xs[i], xs[i - 1]] + xs[i + 1..];
    assert xs[i] !in xs[..i] && xs[i] !in xs[..i - 1];
  }

  /** A boundary that is not clean shows different events in some arrangement. */
  lemma PrefixDependsOnTies(admin: seq<Event>, session: seq<Event>, n: nat) returns (a: seq<Event>, s: seq<Event>)
    requires Newest(admin) && Newest(session) && NoRepeats(admin) && NoRepeats(session)
    requires !CleanBoundary(admin, session, n)
    ensures Reordered(admin, a) && Reordered(session, s)
    ensures multiset(Take(Merge(a, s), n)) != multiset(Take(Merge(admin, session), n))
  {
    var i, j := LeftOf(admin, session, n), RightOf(admin, session, n);
    FirstMerged(admin, session, n);
    var e;
    if !CleanCut(admin, i) {
      a, s, e := Exchanged(admin, i), session, admin[i];
      ExchangedReorders(admin, i);
    } else {
      a, s, e := admin, Exchanged(session, j), session[j];
      ExchangedReorders(session, j);
    }
    ReorderedSameTimes(admin, a);
    ReorderedSameTimes(session, s);
    CutsDependOnTimes(admin, session, a, s, n);
    FirstMerged(a, s, n);
    assert multiset(Take(Merge(a, s), n))[e] == multiset(a[..i])[e] + multiset(s[..j])[e];
    assert multiset(Take(Merge(admin, session), n))[e] == multiset(admin[..i])[e] + multiset(session[..j])[e];
  }

  // ----- pages under changing arrangements -----

  /** The arrangement of both logs one page request sees. */
  datatype Order = Order(admin: seq<Event>, session: seq<Event>)

  ghost predicate OrdersOf(admin: seq<Event>, session: seq<Event>, orders: seq<Order>) {
    forall k :: 0 <= k < |orders| ==> Reordered(admin, orders[k].admin) && Reordered(session, orders[k].session)
  }

  /** Consecutive pages, page `k` taken under arrangement `k`. */
  function PagesUnder(orders: seq<Order>, size: nat): seq<Event> {
    if orders == [] then []
    else PagesUnder(orders[..|orders| - 1], size) +
         SummaryPage(orders[|orders| - 1].admin, orders[|orders| - 1].session, |orders|, size)
  }

  /** The events of the first `n` pages under one arrangement. */
  function Shown(o: Order, n: nat, size: nat): multiset<Event> {
    multiset(Take(Merge(o.admin, o.session), n * size))
  }

  /** A page under one arrangement completes the pages before it under the same arrangement. */
  lemma PageAdds(o: Order, n: nat, size: nat)
    requires Newest(o.admin) && Newest(o.session) && n > 0
    ensures Shown(o, n, size) == Shown(o, n - 1, size) + multiset(SummaryPage(o.admin, o.session, n, size))
  {
    PageOfBoundedFetchIsExact(o.admin, o.session, n, size);
    SortIsMerge(o.admin, o.session);
    NextPageFollows(Merge(o.admin, o.session), n, size);
  }

  lemma NothingShown(o: Order, size: nat)
    ensures Shown(o, 0, size) == multiset{}
  {
  }

  /** Page `k` ends at a clean boundary. */
  predicate EndsClean(log: Order, size: nat, k: nat) {
    CleanBoundary(log.admin, log.session, k * size)
  }

  predicate AllEndClean(log: Order, size: nat, n: nat) {
    forall k :: 1 <= k <= n ==> EndsClean(log, size, k)
  }

  /** Both logs are newest first and hold every event once. */
  ghost predicate IsLog(log: Order) {
    Newest(log.admin) && Newest(log.session) && NoRepeats(log.admin) && NoRepeats(log.session)
  }

  lemma CleanShows(log: Order, o: Order, n: nat, size: nat)
    requires Newest(log.admin) && Newest(log.session) && Reordered(log.admin, o.admin) && Reordered(log.session, o.session)
    requires n > 0 ==> EndsClean(log, size, n)
    ensures Shown(o, n, size) == Shown(log, n, size)
  {
    if n > 0 {
      PrefixIgnoresTies(log.admin, log.session, o.admin, o.session, n * size);
    } else {
      NothingShown(o, size);
      NothingShown(log, size);
    }
  }

  lemma {:induction false} CleanPagesAgree(log: Order, orders: seq<Order>, size: nat)
    requires Newest(log.admin) && Newest(log.session) && OrdersOf(log.admin, log.session, orders)
    requires AllEndClean(log, size, |orders|)
    ensures multiset(PagesUnder(orders, size)) == Shown(log, |orders|, size)
  {
    if orders == [] {
      NothingShown(log, size);
    } else {
      var n, o := |orders|, orders[|orders| - 1];
      CleanPagesAgree(log, orders[..n - 1], size);
      PageAdds(o, n, size);
      CleanShows(log, o, n - 1, size);
      CleanShows(log, o, n, size);
    }
  }

  /** The first `k` pages under one arrangement, the others under another. */
  function Mixed(first: Order, others: Order, k: nat, n: nat): seq<Order> {
    seq(n, j => if j < k then first else others)
  }

  lemma MixedSnoc(first: Order, others: Order, k: nat, n: nat, size: nat)
    requires n > 0
    ensures var o := if n <= k then first else others;
            PagesUnder(Mixed(first, others, k, n), size)
            == PagesUnder(Mixed(first, others, k, n - 1), size) + SummaryPage(o.admin, o.session, n, size)
  {
    assert Mixed(first, others, k, n)[..n - 1] == Mixed(first, others, k, n - 1);
  }

  lemma {:induction false} FirstPages(first: Order, others: Order, k: nat, n: nat, size: nat)
    requires Newest(first.admin) && Newest(first.session) && n <= k
    ensures multiset(PagesUnder(Mixed(first, others, k, n), size)) == Shown(first, n, size)
    decreases n
  {
    if n == 0 {
      NothingShown(first, size);
    } else {
      FirstPages(first, others, k, n - 1, size);
      MixedSnoc(first, others, k, n, size);
      PageAdds(first, n, size);
    }
  }

  lemma Regrouped(before: multiset<Event>, page: multiset<Event>, x: multiset<Event>, y: multiset<Event>, low: multiset<Event>)
    requires before + x == y + low
    ensures before + page + x == y + (low + page)
  {
    assert before + page + x == (before + x) + page;
  }

  /** After the change of arrangement the pages add what the second arrangement shows. */
  lemma {:induction false} LaterPages(first: Order, others: Order, k: nat, n: nat, size: nat)
    requires Newest(first.admin) && Newest(first.session) && Newest(others.admin) && Newest(others.session) && k <= n
    ensures multiset(PagesUnder(Mixed(first, others, k, n), size)) + Shown(others, k, size)
            == Shown(first, k, size) + Shown(others, n, size)
    decreases n
  {
    if n == k {
      FirstPages(first, others, k, n, size);
    } else {
      LaterPages(first, others, k, n - 1, size);
      MixedSnoc(first, others, k, n, size);
      PageAdds(others, n, size);
      Regrouped(multiset(PagesUnder(Mixed(first, others, k, n - 1), size)),
                multiset(SummaryPage(others.admin, others.session, n, size)),
                Shown(others, k, size), Shown(first, k, size), Shown(others, n - 1, size));
    }
  }

  /** Enough pages under one arrangement show every event of both logs. */
  lemma ShownIsAll(o: Order, n: nat, size: nat)
    requires |o.admin| + |o.session| <= n * size && Newest(o.admin) && Newest(o.session)
    ensures Shown(o, n, size) == multiset(o.admin) + multiset(o.session)
  {
    var all := o.admin + o.session;
    SortIsMerge(o.admin, o.session);
    StableSortKeepsAll(all);
    assert Take(StableSort(all), n * size) == StableSort(all);
  }

  /** However each of the first `n` page requests sees the ties, the pages show the newest
      events, none lost or repeated. */
  ghost predicate AlwaysShown(log: Order, size: nat, n: nat) {
    forall orders :: |orders| == n && OrdersOf(log.admin, log.session, orders) ==>
      multiset(PagesUnder(orders, size)) == Shown(log, n, size)
  }

  /** That is the case if and only if no page ends inside a group of equal times of one log. */
  lemma PagesIgnoreTiesExactly(log: Order, size: nat, n: nat)
    requires IsLog(log)
    ensures AlwaysShown(log, size, n) <==> AllEndClean(log, size, n)
  {
    if AllEndClean(log, size, n) {
      forall orders | |orders| == n && OrdersOf(log.admin, log.session, orders)
        ensures multiset(PagesUnder(orders, size)) == Shown(log, n, size)
      {
        CleanPagesAgree(log, orders, size);
      }
    } else {
      var k :| 1 <= k <= n && !EndsClean(log, size, k);
      var _ := DisagreeingPages(log, size, n, k);
    }
  }

  lemma MixedOrders(log: Order, first: Order, k: nat, n: nat)
    requires Newest(log.admin) && Newest(log.session)
    requires Reordered(log.admin, first.admin) && Reordered(log.session, first.session)
    ensures |Mixed(first, log, k, n)| == n && OrdersOf(log.admin, log.session, Mixed(first, log, k, n))
  {
  }

  lemma DisagreeingPages(log: Order, size: nat, n: nat, k: nat) returns (orders: seq<Order>)
    requires IsLog(log) && 1 <= k <= n && !EndsClean(log, size, k)
    ensures |orders| == n && OrdersOf(log.admin, log.session, orders)
    ensures multiset(PagesUnder(orders, size)) != Shown(log, n, size)
  {
    var a, s := PrefixDependsOnTies(log.admin, log.session, k * size);
    var first := Order(a, s);
    assert Shown(first, k, size) != Shown(log, k, size);
    orders := Mixed(first, log, k, n);
    MixedOrders(log, first, k, n);
    LaterPages(first, log, k, n, size);
    Cancelled(multiset(PagesUnder(orders, size)), Shown(log, k, size), Shown(first, k, size), Shown(log, n, size));
  }

  lemma Cancelled(x: multiset<Event>, low: multiset<Event>, other: multiset<Event>, high: multiset<Event>)
    requires x + low == other + high
    ensures x == high ==> low == other
  {
    if x == high {
      assert low == (x + low) - x;
      assert other == (other + high) - high;
    }
  }
}
