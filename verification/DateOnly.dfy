/** Date-only request parameters: the build-and-compare check and the employee range limit. */
module DateOnly {
  import opened Wrappers
  import opened Calendar

  // ----- text -----

  predicate IsDigit(c: char) { '0' <= c <= '9' }

  predicate AllDigits(s: string) {
    forall i :: 0 <= i < |s| ==> IsDigit(s[i])
  }

  function DigitValue(c: char): nat
    requires IsDigit(c)
  {
    c as int - '0' as int
  }

  function NumberOf(s: string): nat
    requires AllDigits(s)
  {
    if s == "" then 0 else NumberOf(s[..|s| - 1]) * 10 + DigitValue(s[|s| - 1])
  }

  /** Four digits, two digits and two digits, separated by dashes. */
  predicate DateShaped(s: string) {
    |s| == 10 && s[4] == '-' && s[7] == '-' && AllDigits(s[..4]) && AllDigits(s[5..7]) && AllDigits(s[8..])
  }

  /** The date a text names, month from 0; it need not exist. */
  function Named(s: string): Civil
    requires DateShaped(s)
  {
    Civil(NumberOf(s[..4]), NumberOf(s[5..7]) - 1, NumberOf(s[8..]))
  }

  // ----- the check -----

  /** Build the time from the three numbers and accept when reading it gives them back. */
  function ParseDateOnly(s: string): Option<Time>
    requires DateShaped(s)
  {
    var c := Named(s);
    var t := DateUTC(c.year, c.month, c.day);
    if ToCivil(DayOf(t)) != c then None else Some(t)
  }

  /** The check accepts exactly the real dates from the year 100 on, with their day number. */
  lemma AcceptsExactlyRealDates(s: string)
    requires DateShaped(s)
    ensures ParseDateOnly(s).Some? <==> Real(Named(s)) && Named(s).year >= 100
    ensures ParseDateOnly(s).Some? ==> ParseDateOnly(s).value == ToDay(Named(s)) * DAY_MS
  {
    var c := Named(s);
    var t := DateUTC(c.year, c.month, c.day);
    if c.year <= 99 {
      var n := MakeDay(1900 + c.year, c.month, c.day);
      MidnightDay(n);
      EarlyYearsMove(c);
    } else {
      MidnightDay(ToDay(c));
      if Real(c) {
        CivilToDayAndBack(c);
      }
    }
  }

  /** A date built from a year below 100 never reads back with that year. */
  lemma EarlyYearsMove(c: Civil)
    requires 0 <= c.year <= 99 && -1 <= c.month && 0 <= c.day
    ensures ToCivil(MakeDay(1900 + c.year, c.month, c.day)).year != c.year
  {
    var n := MakeDay(1900 + c.year, c.month, c.day);
    var y := 1900 + c.year + c.month / 12;
    assert y >= 1899;
    MonthStartsGrow(0, c.month % 12, Leap(y));
    if YearOf(n) <= 99 {
      YearsGrow(YearOf(n) + 1, y);
    }
  }

  // ----- text order -----

  /** The string comparison `s <= t`, by character codes. */
  predicate TextLe(s: string, t: string) {
    s == "" || (t != "" && (s[0] < t[0] || (s[0] == t[0] && TextLe(s[1..], t[1..]))))
  }

  /** On texts that start with parts of equal length the first difference decides. */
  lemma {:induction false} TextLeByParts(a: string, b: string, s: string, t: string)
    requires |a| == |b|
    ensures TextLe(a + s, b + t) <==> (a == b && TextLe(s, t)) || (a != b && TextLe(a, b))
  {
    if a == "" {
      assert a + s == s && b + t == t;
    } else {
      assert (a + s)[1..] == a[1..] + s && (b + t)[1..] == b[1..] + t;
      TextLeByParts(a[1..], b[1..], s, t);
      assert a == [a[0]] + a[1..] && b == [b[0]] + b[1..];
    }
  }

  lemma {:induction false} TextLeReflexive(s: string)
    ensures TextLe(s, s)
  {
    if s != "" {
      TextLeReflexive(s[1..]);
    }
  }

  /** Digit strings of the same length compare as their numbers. */
  lemma {:induction false} DigitsCompareAsNumbers(a: string, b: string)
    requires |a| == |b| && AllDigits(a) && AllDigits(b)
    ensures TextLe(a, b) <==> NumberOf(a) <= NumberOf(b)
    ensures a == b <==> NumberOf(a) == NumberOf(b)
  {
    if a != "" {
      var n := |a| - 1;
      DigitsCompareAsNumbers(a[..n], b[..n]);
      TextLeByParts(a[..n], b[..n], a[n..], b[n..]);
      assert a == a[..n] + a[n..] && b == b[..n] + b[n..];
      assert a[n..][1..] == "" && b[n..][1..] == "";
      TextLeReflexive("");
    }
  }

  /** One fixed-width number followed by a rest. */
  lemma NumberThenRest(a: string, b: string, s: string, t: string)
    requires |a| == |b| && AllDigits(a) && AllDigits(b)
    ensures TextLe(a + s, b + t) <==>
              NumberOf(a) < NumberOf(b) || (NumberOf(a) == NumberOf(b) && TextLe(s, t))
  {
    TextLeByParts(a, b, s, t);
    DigitsCompareAsNumbers(a, b);
  }

  lemma DashThenRest(s: string, t: string)
    ensures TextLe("-" + s, "-" + t) <==> TextLe(s, t)
  {
    TextLeByParts("-", "-", s, t);
  }

  /** On date-shaped texts the text order is the calendar order of the dates they name. */
  lemma TextOrderIsCalendarOrder(s: string, t: string)
    requires DateShaped(s) && DateShaped(t)
    ensures TextLe(s, t) <==> !Before(Named(t), Named(s))
  {
    assert s == s[..4] + ("-" + (s[5..7] + ("-" + s[8..])));
    assert t == t[..4] + ("-" + (t[5..7] + ("-" + t[8..])));
    NumberThenRest(s[..4], t[..4], "-" + (s[5..7] + ("-" + s[8..])), "-" + (t[5..7] + ("-" + t[8..])));
    DashThenRest(s[5..7] + ("-" + s[8..]), t[5..7] + ("-" + t[8..]));
    NumberThenRest(s[5..7], t[5..7], "-" + s[8..], "-" + t[8..]);
    DashThenRest(s[8..], t[8..]);
    DigitsCompareAsNumbers(s[8..], t[8..]);
  }

  /** On accepted texts it is also the order of the times they stand for. */
  lemma TextOrderIsTimeOrder(s: string, t: string)
    requires DateShaped(s) && DateShaped(t) && ParseDateOnly(s).Some? && ParseDateOnly(t).Some?
    ensures TextLe(s, t) <==> ParseDateOnly(s).value <= ParseDateOnly(t).value
  {
    AcceptsExactlyRealDates(s);
    AcceptsExactlyRealDates(t);
    TextOrderIsCalendarOrder(s, t);
    OrderIsDayOrder(Named(t), Named(s));
  }

  // ----- the employee activity range -----

  const MAX_RANGE_DAYS := 93

  function RangeDays(from: Time, to: Time): int {
    (to - from) / DAY_MS + 1
  }

  predicate AcceptsDate(s: string) { DateShaped(s) && ParseDateOnly(s).Some? }

  predicate AcceptsRange(from: string, to: string) {
    AcceptsDate(from) && AcceptsDate(to) && TextLe(from, to) &&
    RangeDays(ParseDateOnly(from).value, ParseDateOnly(to).value) <= MAX_RANGE_DAYS
  }

  /** What `f` gives for each number from `first` to `last`. */
  function Listed<T>(f: int -> T, first: int, last: int): seq<T> {
    seq(Above(last - first + 1), i => f(first + i))
  }

  lemma ListedAt<T>(f: int -> T, first: int, last: int, n: int)
    requires first <= n <= last
    ensures Listed(f, first, last)[n - first] == f(n)
  {
  }

  lemma ListedFrom<T>(f: int -> T, first: int, last: int, x: T) returns (n: int)
    requires x in Listed(f, first, last)
    ensures first <= n <= last && x == f(n)
  {
    var i :| 0 <= i < |Listed(f, first, last)| && Listed(f, first, last)[i] == x;
    n := first + i;
  }

  lemma ListedInOrder<T>(f: int -> T, less: (T, T) -> bool, first: int, last: int, i: nat, j: nat)
    requires forall m: int, n: int :: m < n ==> less(f(m), f(n))
    requires i < j < |Listed(f, first, last)|
    ensures less(Listed(f, first, last)[i], Listed(f, first, last)[j])
  {
  }

  /** The real dates of a closed range, in order. */
  function DatesBetween(a: Civil, b: Civil): seq<Civil> {
    Listed(ToCivil, ToDay(a), ToDay(b))
  }

  /** That list holds exactly the real dates from `a` to `b` ... */
  lemma DatesBetweenAreTheDates(a: Civil, b: Civil, c: Civil)
    requires Real(a) && Real(b)
    ensures c in DatesBetween(a, b) <==> Real(c) && !Before(c, a) && !Before(b, c)
  {
    if c in DatesBetween(a, b) {
      var n := ListedFrom(ToCivil, ToDay(a), ToDay(b), c);
      DayToCivilAndBack(n);
      WithinByNumber(a, b, c);
    } else if Real(c) {
      WithinByNumber(a, b, c);
      CivilToDayAndBack(c);
      if ToDay(a) <= ToDay(c) <= ToDay(b) {
        ListedAt(ToCivil, ToDay(a), ToDay(b), ToDay(c));
      }
    }
  }

  lemma WithinByNumber(a: Civil, b: Civil, c: Civil)
    requires Real(a) && Real(b) && Real(c)
    ensures !Before(c, a) && !Before(b, c) <==> ToDay(a) <= ToDay(c) <= ToDay(b)
  {
    OrderIsDayOrder(c, a);
    OrderIsDayOrder(b, c);
  }

  lemma DaysInOrder(m: int, n: int)
    requires m < n
    ensures Before(ToCivil(m), ToCivil(n))
  {
    var a, b := ToCivil(m), ToCivil(n);
    DayToCivilAndBack(m);
    DayToCivilAndBack(n);
    OrderIsDayOrder(a, b);
  }

  /** ... each of them once and in calendar order. */
  lemma DatesBetweenInOrder(a: Civil, b: Civil, i: nat, j: nat)
    requires i < j < |DatesBetween(a, b)|
    ensures Before(DatesBetween(a, b)[i], DatesBetween(a, b)[j])
  {
    forall m: int, n: int | m < n
      ensures Before(ToCivil(m), ToCivil(n))
    {
      DaysInOrder(m, n);
    }
    ListedInOrder(ToCivil, Before, ToDay(a), ToDay(b), i, j);
  }

  lemma RangeDaysCount(m: int, n: int)
    ensures RangeDays(m * DAY_MS, n * DAY_MS) == n - m + 1
  {
    MidnightDay(n - m);
  }

  predicate NamesRealDate(s: string) {
    DateShaped(s) && Real(Named(s)) && Named(s).year >= 100
  }

  lemma AcceptedIsReal(s: string)
    ensures AcceptsDate(s) <==> NamesRealDate(s)
    ensures AcceptsDate(s) ==> ParseDateOnly(s).value == ToDay(Named(s)) * DAY_MS
  {
    if DateShaped(s) {
      AcceptsExactlyRealDates(s);
    }
  }

  lemma CountedRange(a: Civil, b: Civil)
    requires Real(a) && Real(b) && !Before(b, a)
    ensures RangeDays(ToDay(a) * DAY_MS, ToDay(b) * DAY_MS) == |DatesBetween(a, b)|
  {
    OrderIsDayOrder(b, a);
    RangeDaysCount(ToDay(a), ToDay(b));
  }

  /** A range is accepted exactly when both texts name real dates from the year 100 on, in
      order, and the closed range holds at most 93 calendar days. */
  lemma RangeLimitCountsCalendarDays(from: string, to: string)
    ensures AcceptsRange(from, to) <==>
              NamesRealDate(from) && NamesRealDate(to) && !Before(Named(to), Named(from)) &&
              |DatesBetween(Named(from), Named(to))| <= 93
  {
    AcceptedIsReal(from);
    AcceptedIsReal(to);
    if AcceptsDate(from) && AcceptsDate(to) {
      TextOrderIsCalendarOrder(from, to);
      if TextLe(from, to) {
        CountedRange(Named(from), Named(to));
      }
    }
  }
}
