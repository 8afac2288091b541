/**
 The paged audit summary: the newest rows of two logs are fetched up to the end of the
 page, merged by a stable sort, and sliced; actions are counted per log and added up.
 */
module AuditPages {
  type Time = int

  datatype Event = Event(id: string, at: Time, action: string)

  // ----- the stable sort -----

  ghost predicate Newest(xs: seq<Event>) {
    forall i, j :: 0 <= i < j < |xs| ==> xs[i].at >= xs[j].at
  }

  /** The events at one moment, in order. */
  function AtTime(xs: seq<Event>, t: Time): seq<Event> {
    if xs == [] then []
    else if xs[0].at == t then [xs[0]] + AtTime(xs[1..], t)
    else AtTime(xs[1..], t)
  }

  /** `ys` is `xs` sorted newest first with simultaneous events in their old order. */
  ghost predicate StablySorted(xs: seq<Event>, ys: seq<Event>) {
    Newest(ys) && forall t :: AtTime(ys, t) == AtTime(xs, t)
  }

  /** Puts an event before the first one that is not newer. */
  function Insert(x: Event, ys: seq<Event>): seq<Event> {
    if ys == [] || ys[0].at <= x.at then [x] + ys else [ys[0]] + Insert(x, ys[1..])
  }

  function StableSort(xs: seq<Event>): seq<Event> {
    if xs == [] then [] else Insert(xs[0], StableSort(xs[1..]))
  }

  lemma {:induction false} AtTimeConcat(a: seq<Event>, b: seq<Event>, t: Time)
    ensures AtTime(a + b, t) == AtTime(a, t) + AtTime(b, t)
  {
    if a == [] {
      assert a + b == b;
    } else {
      assert (a + b)[1..] == a[1..] + b;
      AtTimeConcat(a[1..], b, t);
    }
  }

  lemma {:induction false} NothingAtTime(xs: seq<Event>, t: Time)
    requires forall i :: 0 <= i < |xs| ==> xs[i].at != t
    ensures AtTime(xs, t) == []
  {
    if xs != [] {
      NothingAtTime(xs[1..], t);
    }
  }

  lemma {:induction false} FirstAtTime(xs: seq<Event>, t: Time)
    requires AtTime(xs, t) != []
    ensures exists i :: 0 <= i < |xs| && xs[i].at == t
  {
    if xs[0].at != t {
      FirstAtTime(xs[1..], t);
      var i :| 0 <= i < |xs[1..]| && xs[1..][i].at == t;
      assert xs[i + 1].at == t;
    }
  }

  /** Two stable sorts of the same events are the same list. */
  lemma {:induction false} StablySortedIsUnique(ys: seq<Event>, zs: seq<Event>)
    requires Newest(ys) && Newest(zs) && forall t :: AtTime(ys, t) == AtTime(zs, t)
    ensures ys == zs
    decreases |ys|
  {
    if zs != [] {
      assert AtTime(zs, zs[0].at) != [];
    }
    if ys != [] {
      var t := ys[0].at;
      FirstAtTime(zs, t);
      FirstAtTime(ys, zs[0].at);
      assert zs[0].at == t;
      assert AtTime(ys, t)[0] == AtTime(zs, t)[0];
      forall u
        ensures AtTime(ys[1..], u) == AtTime(zs[1..], u)
      {
        assert AtTime(ys, u) == AtTime(zs, u);
        if u == t {
          assert AtTime(ys, t)[1..] == AtTime(zs, t)[1..];
        }
      }
      StablySortedIsUnique(ys[1..], zs[1..]);
    }
  }

  lemma {:induction false} InsertNewest(x: Event, ys: seq<Event>)
    requires Newest(ys)
    ensures Newest(Insert(x, ys))
    ensures forall e :: e in Insert(x, ys) ==> e == x || e in ys
  {
    if ys != [] && ys[0].at > x.at {
      InsertNewest(x, ys[1..]);
      assert forall e :: e in ys[1..] ==> e.at <= ys[0].at;
      var rest := Insert(x, ys[1..]);
      assert forall i :: 0 <= i < |rest| ==> rest[i] in rest;
    }
  }

  lemma {:induction false} InsertAtTime(x: Event, ys: seq<Event>, t: Time)
    ensures AtTime(Insert(x, ys), t) == if x.at == t then [x] + AtTime(ys, t) else AtTime(ys, t)
  {
    if ys != [] && ys[0].at > x.at {
      InsertAtTime(x, ys[1..], t);
      assert Insert(x, ys)[1..] == Insert(x, ys[1..]);
      if x.at == t {
        assert ys[0].at != t;
      }
    } else {
      assert ([x] + ys)[1..] == ys;
    }
  }

  lemma {:induction false} InsertKeepsAll(x: Event, ys: seq<Event>)
    ensures multiset(Insert(x, ys)) == multiset{x} + multiset(ys)
  {
    if ys != [] && ys[0].at > x.at {
      InsertKeepsAll(x, ys[1..]);
      assert ys == [ys[0]] + ys[1..];
    }
  }

  lemma {:induction false} StableSortKeepsAll(xs: seq<Event>)
    ensures multiset(StableSort(xs)) == multiset(xs) && |StableSort(xs)| == |xs|
  {
    if xs != [] {
      StableSortKeepsAll(xs[1..]);
      InsertKeepsAll(xs[0], StableSort(xs[1..]));
      assert xs == [xs[0]] + xs[1..];
      assert |multiset(StableSort(xs))| == |multiset(xs)|;
    }
  }

  lemma {:induction false} StableSortIsStable(xs: seq<Event>, t: Time)
    ensures Newest(StableSort(xs)) && AtTime(StableSort(xs), t) == AtTime(xs, t)
  {
    if xs != [] {
      StableSortIsStable(xs[1..], t);
      InsertNewest(xs[0], StableSort(xs[1..]));
      InsertAtTime(xs[0], StableSort(xs[1..]), t);
    }
  }

  /** The sort is stable, and loses or repeats nothing. */
  lemma StableSortSorts(xs: seq<Event>, t: Time)
    ensures Newest(StableSort(xs)) && AtTime(StableSort(xs), t) == AtTime(xs, t)
    ensures multiset(StableSort(xs)) == multiset(xs) && |StableSort(xs)| == |xs|
  {
    StableSortIsStable(xs, t);
    StableSortKeepsAll(xs);
  }

  /** Whatever algorithm sorts stably gives this list. */
  lemma StableSortIsTheOnlyOne(xs: seq<Event>, ys: seq<Event>)
    requires StablySorted(xs, ys)
    ensures ys == StableSort(xs)
  {
    StableSortSorts(xs, 0);
    forall t
      ensures AtTime(ys, t) == AtTime(StableSort(xs), t)
    {
      StableSortSorts(xs, t);
    }
    StablySortedIsUnique(ys, StableSort(xs));
  }

  // ----- merging two sorted logs -----

  /** The merge that prefers the left log on ties. */
  function Merge(a: seq<Event>, b: seq<Event>): seq<Event>
    decreases |a| + |b|
  {
    if a == [] then b
    else if b == [] then a
    else if a[0].at >= b[0].at then [a[0]] + Merge(a[1..], b)
    else [b[0]] + Merge(a, b[1..])
  }

  lemma {:induction false} MergeMembers(a: seq<Event>, b: seq<Event>, e: Event)
    requires e in Merge(a, b)
    ensures e in a || e in b
    decreases |a| + |b|
  {
    if a != [] && b != [] {
      if a[0].at >= b[0].at {
        if e != a[0] { MergeMembers(a[1..], b, e); }
      } else {
        if e != b[0] { MergeMembers(a, b[1..], e); }
      }
    }
  }

  /** Every merged event is at most as new as a bound on both logs. */
  lemma MergeBelow(a: seq<Event>, b: seq<Event>, at: Time)
    requires forall e :: e in a || e in b ==> e.at <= at
    ensures forall i :: 0 <= i < |Merge(a, b)| ==> Merge(a, b)[i].at <= at
  {
    forall i | 0 <= i < |Merge(a, b)|
      ensures Merge(a, b)[i].at <= at
    {
      MergeMembers(a, b, Merge(a, b)[i]);
    }
  }

  lemma NewestFirst(x: Event, ys: seq<Event>)
    requires Newest(ys) && forall i :: 0 <= i < |ys| ==> ys[i].at <= x.at
    ensures Newest([x] + ys)
  {
  }

  lemma HeadIsNewest(xs: seq<Event>, e: Event)
    requires Newest(xs) && e in xs
    ensures e.at <= xs[0].at && Newest(xs[1..])
  {
  }

  lemma {:induction false} MergeIsNewest(a: seq<Event>, b: seq<Event>)
    requires Newest(a) && Newest(b)
    ensures Newest(Merge(a, b))
    decreases |a| + |b|
  {
    if a != [] && b != [] {
      forall e | e in a || e in b
        ensures e.at <= a[0].at || e.at <= b[0].at
        ensures e in a ==> e.at <= a[0].at
        ensures e in b ==> e.at <= b[0].at
      {
        if e in a { HeadIsNewest(a, e); }
        if e in b { HeadIsNewest(b, e); }
      }
      if a[0].at >= b[0].at {
        MergeIsNewest(a[1..], b);
        MergeBelow(a[1..], b, a[0].at);
        NewestFirst(a[0], Merge(a[1..], b));
      } else {
        MergeIsNewest(a, b[1..]);
        MergeBelow(a, b[1..], b[0].at);
        NewestFirst(b[0], Merge(a, b[1..]));
      }
    }
  }

  lemma {:induction false} MergeKeepsOrderAtTime(a: seq<Event>, b: seq<Event>, t: Time)
    requires Newest(a) && Newest(b)
    ensures AtTime(Merge(a, b), t) == AtTime(a, t) + AtTime(b, t)
    decreases |a| + |b|
  {
    if a != [] && b != [] {
      if a[0].at >= b[0].at {
        assert Merge(a, b)[1..] == Merge(a[1..], b);
        MergeKeepsOrderAtTime(a[1..], b, t);
      } else {
        assert Merge(a, b)[1..] == Merge(a, b[1..]);
        MergeKeepsOrderAtTime(a, b[1..], t);
        if b[0].at == t {
          NothingAtTime(a, t);
        }
      }
    }
  }

  lemma MergeSorts(a: seq<Event>, b: seq<Event>, t: Time)
    requires Newest(a) && Newest(b)
    ensures Newest(Merge(a, b))
    ensures AtTime(Merge(a, b), t) == AtTime(a, t) + AtTime(b, t)
  {
    MergeIsNewest(a, b);
    MergeKeepsOrderAtTime(a, b, t);
  }

  /** Sorting the concatenation of two sorted logs is merging them. */
  lemma SortIsMerge(a: seq<Event>, b: seq<Event>)
    requires Newest(a) && Newest(b)
    ensures StableSort(a + b) == Merge(a, b)
  {
    StableSortSorts(a + b, 0);
    MergeSorts(a, b, 0);
    forall t
      ensures AtTime(StableSort(a + b), t) == AtTime(Merge(a, b), t)
    {
      StableSortSorts(a + b, t);
      MergeSorts(a, b, t);
      AtTimeConcat(a, b, t);
    }
    StablySortedIsUnique(StableSort(a + b), Merge(a, b));
  }

  // ----- pages -----

  function Take<T>(xs: seq<T>, n: nat): seq<T> {
    if n <= |xs| then xs[..n] else xs
  }

  function Drop<T>(xs: seq<T>, n: nat): seq<T> {
    if n <= |xs| then xs[n..] else []
  }

  /** The rows of a page, as a slice that stops at the end of the list. */
  function Page<T>(xs: seq<T>, page: nat, size: nat): seq<T>
    requires page >= 1
  {
    Drop(Take(xs, page * size), (page - 1) * size)
  }

  /** The page the service answers with: both logs cut at the end of the page, then sorted
      and sliced. Both logs come newest first. */
  function SummaryPage(admin: seq<Event>, session: seq<Event>, page: nat, size: nat): seq<Event>
    requires page >= 1
  {
    Page(StableSort(Take(admin, page * size) + Take(session, page * size)), page, size)
  }

  /** The first `n` merged events depend only on the first `i` and `j` of each log, when
      neither is cut before `n`. */
  lemma {:induction false} MergePrefix(a: seq<Event>, b: seq<Event>, i: nat, j: nat, n: nat)
    requires n <= i && n <= j
    ensures Take(Merge(Take(a, i), Take(b, j)), n) == Take(Merge(a, b), n)
    decreases n
  {
    if n > 0 && a != [] && b != [] {
      var x, y := Take(a, i), Take(b, j);
      assert x[0] == a[0] && y[0] == b[0];
      if a[0].at >= b[0].at {
        assert x[1..] == Take(a[1..], i - 1);
        MergePrefix(a[1..], b, i - 1, j, n - 1);
        SamePrefix(a[0], Merge(x, y), Merge(x[1..], y), Merge(a, b), Merge(a[1..], b), n);
      } else {
        assert y[1..] == Take(b[1..], j - 1);
        MergePrefix(a, b[1..], i, j - 1, n - 1);
        SamePrefix(b[0], Merge(x, y), Merge(x, y[1..]), Merge(a, b), Merge(a, b[1..]), n);
      }
    }
  }

  lemma SamePrefix<T>(x: T, p: seq<T>, p1: seq<T>, q: seq<T>, q1: seq<T>, n: nat)
    requires n > 0 && p == [x] + p1 && q == [x] + q1 && Take(p1, n - 1) == Take(q1, n - 1)
    ensures Take(p, n) == Take(q, n)
  {
    assert Take(p, n) == [x] + Take(p1, n - 1);
    assert Take(q, n) == [x] + Take(q1, n - 1);
  }

  lemma NewestPrefix(xs: seq<Event>, n: nat)
    requires Newest(xs)
    ensures Newest(Take(xs, n))
  {
  }

  /** The bounded fetch is exact: every page equals that page of the whole merged log. */
  lemma PageOfBoundedFetchIsExact(admin: seq<Event>, session: seq<Event>, page: nat, size: nat)
    requires page >= 1 && Newest(admin) && Newest(session)
    ensures SummaryPage(admin, session, page, size) == Page(StableSort(admin + session), page, size)
  {
    var n := page * size;
    NewestPrefix(admin, n);
    NewestPrefix(session, n);
    SortIsMerge(Take(admin, n), Take(session, n));
    SortIsMerge(admin, session);
    MergePrefix(admin, session, n, n, n);
  }

  /** The first `n` pages, one after the other. */
  function Pages(admin: seq<Event>, session: seq<Event>, size: nat, n: nat): seq<Event> {
    if n == 0 then [] else Pages(admin, session, size, n - 1) + SummaryPage(admin, session, n, size)
  }

  lemma TakeDrop<T>(xs: seq<T>, m: nat, n: nat)
    requires m <= n
    ensures Take(xs, m) + Drop(Take(xs, n), m) == Take(xs, n)
  {
  }

  lemma PageEnd(n: nat, size: nat)
    requires n > 0
    ensures 0 <= (n - 1) * size <= n * size
  {
    assert n * size == (n - 1) * size + size;
  }

  lemma NextPageFollows<T>(xs: seq<T>, n: nat, size: nat)
    requires n > 0
    ensures 0 <= (n - 1) * size && 0 <= n * size
    ensures Take(xs, (n - 1) * size) + Page(xs, n, size) == Take(xs, n * size)
  {
    PageEnd(n, size);
    TakeDrop(xs, (n - 1) * size, n * size);
  }

  lemma {:induction false} PagesAreAPrefix(admin: seq<Event>, session: seq<Event>, size: nat, n: nat)
    requires Newest(admin) && Newest(session)
    ensures Pages(admin, session, size, n) == Take(StableSort(admin + session), n * size)
  {
    if n > 0 {
      PagesAreAPrefix(admin, session, size, n - 1);
      PageOfBoundedFetchIsExact(admin, session, n, size);
      NextPageFollows(StableSort(admin + session), n, size);
    }
  }

  /** Enough consecutive pages make up the whole log: every event of both logs, as often as
      it occurs, newest first. */
  lemma PagesCoverTheLog(admin: seq<Event>, session: seq<Event>, size: nat, n: nat)
    requires Newest(admin) && Newest(session) && |admin| + |session| <= n * size
    ensures multiset(Pages(admin, session, size, n)) == multiset(admin) + multiset(session)
    ensures Newest(Pages(admin, session, size, n))
  {
    PagesAreAPrefix(admin, session, size, n);
    StableSortSorts(admin + session, 0);
    assert Take(StableSort(admin + session), n * size) == StableSort(admin + session);
    assert multiset(admin + session) == multiset(admin) + multiset(session);
  }

  // ----- counts by action -----

  function CountAction(xs: seq<Event>, action: string): nat {
    if xs == [] then 0 else CountAction(xs[1..], action) + if xs[0].action == action then 1 else 0
  }

  /** The result of grouping a log by action: each action once, with its number of events. */
  ghost predicate Groups(xs: seq<Event>, pairs: seq<(string, nat)>) {
    (forall i, j :: 0 <= i < j < |pairs| ==> pairs[i].0 != pairs[j].0) &&
    (forall i :: 0 <= i < |pairs| ==> pairs[i].1 == CountAction(xs, pairs[i].0) > 0) &&
    (forall e :: e in xs ==> exists i :: 0 <= i < |pairs| && pairs[i].0 == e.action)
  }

  function PairSum(pairs: seq<(string, nat)>): nat {
    if pairs == [] then 0 else PairSum(pairs[..|pairs| - 1]) + pairs[|pairs| - 1].1
  }

  function SumFor(pairs: seq<(string, nat)>, action: string): nat {
    if pairs == [] then 0
    else SumFor(pairs[..|pairs| - 1], action) + if pairs[|pairs| - 1].0 == action then pairs[|pairs| - 1].1 else 0
  }

  /** The sum of all values of a map. */
  ghost function MapSum(m: map<string, nat>): nat
    decreases |m|
  {
    if m == map[] then 0
    else
      var k :| k in m;
      m[k] + MapSum(m - {k})
  }

  lemma {:induction false} MapSumAt(m: map<string, nat>, k: string)
    requires k in m
    ensures MapSum(m) == m[k] + MapSum(m - {k})
    decreases |m|
  {
    var l :| l in m && MapSum(m) == m[l] + MapSum(m - {l});
    if l != k {
      MapSumAt(m - {l}, k);
      MapSumAt(m - {k}, l);
      assert m - {l} - {k} == m - {k} - {l};
    }
  }

  lemma MapSumPut(m: map<string, nat>, k: string, v: nat)
    ensures MapSum(m[k := v]) == MapSum(m - {k}) + v
  {
    MapSumAt(m[k := v], k);
    assert m[k := v] - {k} == m - {k};
  }

  /** Adding up the groups of both logs: one entry per action, and the entries sum to the
      groups' total. */
  method AddCounts(pairs: seq<(string, nat)>) returns (counts: map<string, nat>)
    ensures forall a :: (if a in counts then counts[a] else 0) == SumFor(pairs, a)
    ensures forall a :: a in counts ==> exists i :: 0 <= i < |pairs| && pairs[i].0 == a
    ensures MapSum(counts) == PairSum(pairs)
  {
    counts := map[];
    for i := 0 to |pairs|
      invariant forall a :: (if a in counts then counts[a] else 0) == SumFor(pairs[..i], a)
      invariant forall a :: a in counts ==> exists k :: 0 <= k < i && pairs[k].0 == a
      invariant MapSum(counts) == PairSum(pairs[..i])
    {
      assert pairs[..i + 1][..i] == pairs[..i];
      var (action, n) := pairs[i];
      var sofar := if action in counts then counts[action] else 0;
      MapSumPut(counts, action, sofar + n);
      if action in counts {
        MapSumAt(counts, action);
      } else {
        assert counts - {action} == counts;
      }
      ghost var before := counts;
      counts := counts[action := sofar + n];
      forall a
        ensures (if a in counts then counts[a] else 0) == SumFor(pairs[..i + 1], a)
      {
        assert (if a in before then before[a] else 0) == SumFor(pairs[..i], a);
      }
    }
    assert pairs[..|pairs|] == pairs;
  }

  lemma {:induction false} SumForConcat(p: seq<(string, nat)>, q: seq<(string, nat)>, a: string)
    ensures SumFor(p + q, a) == SumFor(p, a) + SumFor(q, a)
    ensures PairSum(p + q) == PairSum(p) + PairSum(q)
  {
    if q == [] {
      assert p + q == p;
    } else {
      assert (p + q)[..|p + q| - 1] == p + q[..|q| - 1];
      SumForConcat(p, q[..|q| - 1], a);
    }
  }

  lemma {:induction false} SumForAbsent(pairs: seq<(string, nat)>, a: string)
    requires forall i :: 0 <= i < |pairs| ==> pairs[i].0 != a
    ensures SumFor(pairs, a) == 0
  {
    if pairs != [] {
      SumForAbsent(pairs[..|pairs| - 1], a);
    }
  }

  lemma {:induction false} SumForPresent(pairs: seq<(string, nat)>, i: nat)
    requires i < |pairs| && forall k, l :: 0 <= k < l < |pairs| ==> pairs[k].0 != pairs[l].0
    ensures SumFor(pairs, pairs[i].0) == pairs[i].1
  {
    var init := pairs[..|pairs| - 1];
    if i == |pairs| - 1 {
      SumForAbsent(init, pairs[i].0);
    } else {
      SumForPresent(init, i);
    }
  }

  lemma {:induction false} CountPositive(xs: seq<Event>, a: string)
    ensures CountAction(xs, a) > 0 ==> exists e :: e in xs && e.action == a
  {
    if xs != [] {
      CountPositive(xs[1..], a);
      assert xs[0] in xs;
    }
  }

  /** A grouping gives every action its number of events. */
  lemma GroupsCount(xs: seq<Event>, pairs: seq<(string, nat)>, a: string)
    requires Groups(xs, pairs)
    ensures SumFor(pairs, a) == CountAction(xs, a)
  {
    if i :| 0 <= i < |pairs| && pairs[i].0 == a {
      SumForPresent(pairs, i);
    } else {
      SumForAbsent(pairs, a);
      CountPositive(xs, a);
    }
  }

  /** The events with another action. */
  function Others(xs: seq<Event>, a: string): (rest: seq<Event>)
    ensures |rest| + CountAction(xs, a) == |xs|
    ensures forall e :: e in rest <==> e in xs && e.action != a
  {
    if xs == [] then []
    else if xs[0].action == a then Others(xs[1..], a)
    else [xs[0]] + Others(xs[1..], a)
  }

  lemma {:induction false} OthersCount(xs: seq<Event>, a: string, b: string)
    requires a != b
    ensures CountAction(Others(xs, a), b) == CountAction(xs, b)
  {
    if xs != [] {
      OthersCount(xs[1..], a, b);
    }
  }

  /** The counts of a grouping sum to the number of events. */
  lemma {:induction false} GroupsSumToTotal(xs: seq<Event>, pairs: seq<(string, nat)>)
    requires Groups(xs, pairs)
    ensures PairSum(pairs) == |xs|
    decreases |pairs|
  {
    if xs != [] {
      assert xs[0] in xs;
    }
    if pairs != [] {
      var init, a := pairs[..|pairs| - 1], pairs[|pairs| - 1].0;
      forall i | 0 <= i < |init|
        ensures CountAction(Others(xs, a), init[i].0) == CountAction(xs, init[i].0)
      {
        OthersCount(xs, a, init[i].0);
      }
      forall e | e in Others(xs, a)
        ensures exists i :: 0 <= i < |init| && init[i].0 == e.action
      {
        var i :| 0 <= i < |pairs| && pairs[i].0 == e.action;
        assert init[i].0 == e.action;
      }
      GroupsSumToTotal(Others(xs, a), init);
    }
  }

  /** The overview of the summary: the number of events and the events per action of both
      logs together, from the two groupings. */
  method Overview(admin: seq<Event>, session: seq<Event>, adminGroups: seq<(string, nat)>, sessionGroups: seq<(string, nat)>)
    returns (total: nat, counts: map<string, nat>)
    requires Groups(admin, adminGroups) && Groups(session, sessionGroups)
    ensures total == |admin| + |session|
    ensures forall a :: (if a in counts then counts[a] else 0) == CountAction(admin, a) + CountAction(session, a)
    ensures MapSum(counts) == total
  {
    total := |admin| + |session|;
    counts := AddCounts(adminGroups + sessionGroups);
    SumForConcat(adminGroups, sessionGroups, "");
    GroupsSumToTotal(admin, adminGroups);
    GroupsSumToTotal(session, sessionGroups);
    forall a
      ensures SumFor(adminGroups + sessionGroups, a) == CountAction(admin, a) + CountAction(session, a)
    {
      SumForConcat(adminGroups, sessionGroups, a);
      GroupsCount(admin, adminGroups, a);
      GroupsCount(session, sessionGroups, a);
    }
  }
}
