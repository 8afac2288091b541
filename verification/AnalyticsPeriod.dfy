/** Analytics periods: start of day, date labels, range normalisation and the list of days. */
module AnalyticsPeriod {
  import opened Wrappers
  import opened Calendar
  import opened DateOnly

  // ----- start of day -----

  function CivilOf(t: Time): Civil { ToCivil(DayOf(t)) }

  function StartOfUtcDay(t: Time): Time {
    DateUTC(CivilOf(t).year, CivilOf(t).month, CivilOf(t).day)
  }

  function AddUtcDays(t: Time, days: int): Time { StartOfUtcDay(t) + days * DAY_MS }

  /** The years `Date.UTC` takes for two-digit years. */
  predicate TwoDigit(t: Time) { 0 <= YearOf(DayOf(t)) <= 99 }

  predicate Midnight(t: Time) { t == DayOf(t) * DAY_MS }

  /** Any day up to the 31st of any month stays within its year. */
  lemma DayStaysInYear(y: int, m: int, d: int)
    requires 0 <= m <= 11 && 1 <= d <= 31
    ensures DayFromYear(y) <= MakeDay(y, m, d) < DayFromYear(y + 1)
    ensures YearOf(MakeDay(y, m, d)) == y
  {
    MonthStartsGrow(0, m, Leap(y));
    MonthStartsGrow(m, 11, Leap(y));
    assert MakeDay(y, m, d) == DayFromYear(y) + MonthStart(m, Leap(y)) + d - 1 by {
      assert m / 12 == 0 && m % 12 == m;
    }
    NextYear(y);
    YearIsUnique(MakeDay(y, m, d), y);
  }

  /** The day number `Date.UTC` gives to a date. */
  function Rebuilt(c: Civil): int { MakeDay(FullYear(c.year), c.month, c.day) }

  function RebuiltDay(n: int): int { Rebuilt(ToCivil(n)) }

  lemma RebuiltYear(c: Civil)
    requires Real(c)
    ensures YearOf(Rebuilt(c)) == FullYear(c.year)
  {
    DayStaysInYear(FullYear(c.year), c.month, c.day);
  }

  lemma LaterYearIsLater(m: int, n: int)
    requires YearOf(m) < YearOf(n)
    ensures m < n
  {
    YearsGrow(YearOf(m) + 1, YearOf(n));
  }

  lemma RebuiltOtherDay(n: int)
    requires !(0 <= YearOf(n) <= 99)
    ensures RebuiltDay(n) == n
  {
    DayToCivilAndBack(n);
  }

  /** It is the day itself outside the years 0 to 99 and 1900 years later inside them. */
  lemma RebuiltDayMoves(n: int)
    ensures RebuiltDay(n) == n <==> !(0 <= YearOf(n) <= 99)
    ensures RebuiltDay(n) >= n
    ensures YearOf(RebuiltDay(n)) == FullYear(YearOf(n))
  {
    if 0 <= YearOf(n) <= 99 {
      RebuiltYear(ToCivil(n));
      LaterYearIsLater(n, RebuiltDay(n));
    } else {
      RebuiltOtherDay(n);
    }
  }

  lemma StartIsRebuiltDay(t: Time)
    ensures StartOfUtcDay(t) == RebuiltDay(DayOf(t)) * DAY_MS
  {
  }

  /** The result is the midnight before exactly outside the years 0 to 99; it is always a
      midnight, never earlier, and never in those years itself. */
  lemma StartOfDayIsMidnightBefore(t: Time)
    ensures StartOfUtcDay(t) == DayOf(t) * DAY_MS <==> !TwoDigit(t)
    ensures StartOfUtcDay(t) >= DayOf(t) * DAY_MS
    ensures Midnight(StartOfUtcDay(t)) && !TwoDigit(StartOfUtcDay(t))
  {
    var n := DayOf(t);
    StartIsRebuiltDay(t);
    RebuiltDayMoves(n);
    MidnightDay(RebuiltDay(n));
    MidnightsCompare(RebuiltDay(n), n);
  }

  lemma MidnightsCompare(m: int, n: int)
    ensures m * DAY_MS <= n * DAY_MS <==> m <= n
  {
  }

  lemma StartOfDayTwice(t: Time)
    ensures StartOfUtcDay(StartOfUtcDay(t)) == StartOfUtcDay(t)
  {
    StartOfDayIsMidnightBefore(t);
    StartOfDayIsMidnightBefore(StartOfUtcDay(t));
  }

  lemma NextDayIsLater(t: Time)
    ensures AddUtcDays(t, 1) > t
  {
    StartOfDayIsMidnightBefore(t);
  }

  // ----- labels -----

  function ParseDateOnlyAsUtc(s: string): Time
    requires DateShaped(s)
  {
    DateUTC(Named(s).year, Named(s).month, Named(s).day)
  }

  function Pad(n: nat, width: nat): (s: string)
    ensures |s| == width && AllDigits(s)
  {
    if width == 0 then "" else Pad(n / 10, width - 1) + [('0' as int + n % 10) as char]
  }

  function Tens(width: nat): nat {
    if width == 0 then 1 else 10 * Tens(width - 1)
  }

  /** The first ten characters of the ISO text of a date: years outside 0 to 9999 are
      written with a sign and six digits, so the day is cut off. */
  function IsoDate(c: Civil): string
    requires Real(c)
  {
    if 0 <= c.year <= 9999 then Pad(c.year, 4) + "-" + Pad(c.month + 1, 2) + "-" + Pad(c.day, 2)
    else if c.year > 0 then "+" + Pad(c.year, 6) + "-" + Pad(c.month + 1, 2)
    else "-" + Pad(-c.year, 6) + "-" + Pad(c.month + 1, 2)
  }

  function FormatUtcDateOnly(t: Time): string { IsoDate(CivilOf(StartOfUtcDay(t))) }

  lemma {:induction false} PadKeepsTheNumber(n: nat, width: nat)
    requires n < Tens(width)
    ensures NumberOf(Pad(n, width)) == n
  {
    if width > 0 {
      PadKeepsTheNumber(n / 10, width - 1);
      var s := Pad(n, width);
      assert s[..|s| - 1] == Pad(n / 10, width - 1);
    }
  }

  lemma DashedParts(year: string, month: string, day: string, s: string)
    requires |year| == 4 && |month| == 2 && |day| == 2 && s == year + "-" + month + "-" + day
    ensures |s| == 10 && s[4] == '-' && s[7] == '-' && s[..4] == year && s[5..7] == month && s[8..] == day
  {
  }

  lemma FourDigits(n: nat)
    requires n <= 9999
    ensures NumberOf(Pad(n, 4)) == n
  {
    assert Tens(4) == 10 * (10 * (10 * (10 * Tens(0))));
    PadKeepsTheNumber(n, 4);
  }

  lemma TwoDigits(n: nat)
    requires n <= 99
    ensures NumberOf(Pad(n, 2)) == n
  {
    assert Tens(2) == 10 * (10 * Tens(0));
    PadKeepsTheNumber(n, 2);
  }

  lemma NamedByParts(year: string, month: string, day: string, s: string)
    requires |year| == 4 && |month| == 2 && |day| == 2 && s == year + "-" + month + "-" + day
    requires AllDigits(year) && AllDigits(month) && AllDigits(day)
    ensures DateShaped(s) && Named(s) == Civil(NumberOf(year), NumberOf(month) - 1, NumberOf(day))
  {
    DashedParts(year, month, day, s);
  }

  lemma IsoNamesTheDate(c: Civil)
    requires Real(c) && 0 <= c.year <= 9999
    ensures DateShaped(IsoDate(c)) && Named(IsoDate(c)) == c
  {
    NamedByParts(Pad(c.year, 4), Pad(c.month + 1, 2), Pad(c.day, 2), IsoDate(c));
    FourDigits(c.year);
    TwoDigits(c.month + 1);
    TwoDigits(c.day);
  }

  lemma LongYearsAreNotDates(c: Civil)
    requires Real(c) && !(0 <= c.year <= 9999)
    ensures !DateShaped(IsoDate(c))
  {
    assert IsDigit(IsoDate(c)[4]);
  }

  lemma SixDigits(n: nat)
    requires n <= 999999
    ensures NumberOf(Pad(n, 6)) == n
  {
    assert Tens(6) == 10 * (10 * (10 * (10 * (10 * (10 * Tens(0))))));
    PadKeepsTheNumber(n, 6);
  }

  lemma SignedParts(sign: string, year: string, month: string, s: string)
    requires |sign| == 1 && |year| == 6 && |month| == 2 && s == sign + year + "-" + month
    ensures |s| == 10 && s[..1] == sign && s[1..7] == year && s[7] == '-' && s[8..] == month
  {
  }

  /** Other years are labelled with their sign, six digits and the month; the day is cut off. */
  lemma LongYearLabel(c: Civil)
    requires Real(c) && !(0 <= c.year <= 9999) && -999999 <= c.year <= 999999
    ensures var s := IsoDate(c);
            |s| == 10 && s[..1] == (if c.year > 0 then "+" else "-") && AllDigits(s[1..7]) && AllDigits(s[8..]) &&
            NumberOf(s[1..7]) == (if c.year > 0 then c.year else -c.year) && NumberOf(s[8..]) == c.month + 1
  {
    var year := if c.year > 0 then c.year else -c.year;
    SignedParts(if c.year > 0 then "+" else "-", Pad(year, 6), Pad(c.month + 1, 2), IsoDate(c));
    SixDigits(year);
    TwoDigits(c.month + 1);
  }

  /** The number a parsed date label stands for. */
  lemma IsoParsesBack(c: Civil)
    requires Real(c) && 100 <= c.year <= 9999
    ensures DateShaped(IsoDate(c)) && ParseDateOnlyAsUtc(IsoDate(c)) == ToDay(c) * DAY_MS
  {
    IsoNamesTheDate(c);
  }

  /** A time has a full date label exactly when its year is within 0 to 9999, and that label
      parses to the start of the day it shows: the time's own day exactly from the year 100 on. */
  lemma FormatParsesBack(t: Time)
    ensures DateShaped(FormatUtcDateOnly(t)) <==> 0 <= YearOf(DayOf(t)) <= 9999
    ensures DateShaped(FormatUtcDateOnly(t)) ==> ParseDateOnlyAsUtc(FormatUtcDateOnly(t)) == StartOfUtcDay(t)
    ensures DateShaped(FormatUtcDateOnly(t)) ==>
              (ParseDateOnlyAsUtc(FormatUtcDateOnly(t)) == DayOf(t) * DAY_MS <==> YearOf(DayOf(t)) >= 100)
  {
    LabelYear(t);
    StartOfDayIsMidnightBefore(t);
    var n := DayOf(StartOfUtcDay(t));
    DayToCivilAndBack(n);
    if 0 <= YearOf(DayOf(t)) <= 9999 {
      IsoParsesBack(ToCivil(n));
    } else {
      LongYearsAreNotDates(ToCivil(n));
    }
  }

  /** The label shows a year within 0 to 9999 exactly when the time lies in one. */
  lemma LabelYear(t: Time)
    ensures 0 <= CivilOf(StartOfUtcDay(t)).year <= 9999 <==> 0 <= YearOf(DayOf(t)) <= 9999
  {
    StartOfDayIsMidnightBefore(t);
    StartIsRebuiltDay(t);
    RebuiltDayMoves(DayOf(t));
    MidnightDay(RebuiltDay(DayOf(t)));
  }

  // ----- ranges -----

  datatype Range =
    | Accepted(start: Time, end: Time, startLabel: string, endLabel: string, dayCount: int)
    | InvalidRange
    | TooLarge

  function EndOf(end: Option<string>, now: Time): Time
    requires end.Some? ==> DateShaped(end.value)
  {
    if end.None? then StartOfUtcDay(now) else StartOfUtcDay(ParseDateOnlyAsUtc(end.value))
  }

  function StartOf(start: Option<string>, end: Time, defaultDays: int): Time
    requires start.Some? ==> DateShaped(start.value)
  {
    if start.None? then AddUtcDays(end, -(defaultDays - 1)) else StartOfUtcDay(ParseDateOnlyAsUtc(start.value))
  }

  function Normalize(start: Option<string>, end: Option<string>, defaultDays: int, maxDays: int, now: Time): Range
    requires start.Some? ==> DateShaped(start.value)
    requires end.Some? ==> DateShaped(end.value)
  {
    var last := EndOf(end, now);
    var first := StartOf(start, last, defaultDays);
    var dayCount := RangeDays(first, last);
    if first > last then InvalidRange
    else if dayCount > maxDays then TooLarge
    else Accepted(first, last, FormatUtcDateOnly(first), FormatUtcDateOnly(last), dayCount)
  }

  lemma MidnightShift(t: Time, days: int)
    requires Midnight(t)
    ensures DayOf(t + days * DAY_MS) == DayOf(t) + days && Midnight(t + days * DAY_MS)
  {
    MidnightDay(DayOf(t) + days);
  }

  /** The end of a range is a midnight outside the years 0 to 99 ... */
  lemma EndIsMidnight(end: Option<string>, now: Time)
    requires end.Some? ==> DateShaped(end.value)
    ensures Midnight(EndOf(end, now)) && !TwoDigit(EndOf(end, now))
  {
    StartOfDayIsMidnightBefore(if end.None? then now else ParseDateOnlyAsUtc(end.value));
  }

  /** ... and so is a requested start; a start left out is a midnight counted back from the end. */
  lemma StartIsMidnight(start: Option<string>, end: Time, defaultDays: int)
    requires start.Some? ==> DateShaped(start.value)
    requires Midnight(end) && !TwoDigit(end)
    ensures Midnight(StartOf(start, end, defaultDays))
    ensures start.Some? ==> !TwoDigit(StartOf(start, end, defaultDays))
    ensures start.None? ==> StartOf(start, end, defaultDays) == end - (defaultDays - 1) * DAY_MS
  {
    if start.Some? {
      StartOfDayIsMidnightBefore(ParseDateOnlyAsUtc(start.value));
    } else {
      StartOfDayIsMidnightBefore(end);
      MidnightShift(end, -(defaultDays - 1));
    }
  }

  // ----- listing the days -----

  /** What the loop lists from a cursor on. */
  function DaysFrom(cursor: Time, end: Time): seq<Time>
    decreases Above(end - cursor + 1)
  {
    NextDayIsLater(cursor);
    if cursor <= end then [cursor] + DaysFrom(AddUtcDays(cursor, 1), end) else []
  }

  lemma ListOneDay(cursor: Time, next: Time, end: Time)
    requires cursor <= end && next == AddUtcDays(cursor, 1)
    ensures next > cursor && DaysFrom(cursor, end) == [cursor] + DaysFrom(next, end)
  {
    NextDayIsLater(cursor);
  }

  lemma MoveAcross(done: seq<Time>, t: Time, rest: seq<Time>)
    ensures done + ([t] + rest) == (done + [t]) + rest
  {
  }

  method ListUtcDaysInclusive(start: Time, end: Time) returns (dates: seq<Time>)
    ensures dates == DaysFrom(StartOfUtcDay(start), end)
  {
    dates := [];
    var cursor := StartOfUtcDay(start);
    ghost var all := DaysFrom(cursor, end);
    while cursor <= end
      invariant dates + DaysFrom(cursor, end) == all
      decreases end - cursor
    {
      var next := AddUtcDays(cursor, 1);
      ListOneDay(cursor, next, end);
      MoveAcross(dates, cursor, DaysFrom(next, end));
      dates := dates + [cursor];
      cursor := next;
    }
  }

  /** The midnights of `count` consecutive days. */
  function Consecutive(first: int, count: nat): seq<Time> {
    seq(count, i => (first + i) * DAY_MS)
  }

  /** The list holds every day of a closed range of day numbers. */
  predicate Gapless(first: int, last: int)
    requires first <= last + 1
  {
    DaysFrom(first * DAY_MS, last * DAY_MS) == Consecutive(first, last - first + 1)
  }

  /** No day of a closed range of day numbers lies in the years 0 to 99. */
  predicate ClearOfTwoDigitYears(first: int, last: int) {
    YearOf(first) > 99 || YearOf(last) < 0
  }

  lemma YearsDoNotFall(m: int, n: int)
    requires m <= n
    ensures YearOf(m) <= YearOf(n)
  {
    if YearOf(n) < YearOf(m) {
      YearsGrow(YearOf(n) + 1, YearOf(m));
    }
  }

  lemma AddOneDay(n: int)
    ensures AddUtcDays(n * DAY_MS, 1) == (n + 1) * DAY_MS <==> !(0 <= YearOf(n) <= 99)
  {
    MidnightDay(n);
    StartOfDayIsMidnightBefore(n * DAY_MS);
  }

  lemma ConsecutiveSplits(first: int, count: nat)
    requires count > 0
    ensures Consecutive(first, count) == [first * DAY_MS] + Consecutive(first + 1, count - 1)
  {
  }

  lemma GaplessStep(first: int, last: int)
    requires first <= last && AddUtcDays(first * DAY_MS, 1) == (first + 1) * DAY_MS && Gapless(first + 1, last)
    ensures Gapless(first, last)
  {
    MidnightsCompare(first, last);
    ListOneDay(first * DAY_MS, (first + 1) * DAY_MS, last * DAY_MS);
    ConsecutiveSplits(first, last - first + 1);
  }

  lemma ClearStep(first: int, last: int)
    requires first <= last && ClearOfTwoDigitYears(first, last)
    ensures AddUtcDays(first * DAY_MS, 1) == (first + 1) * DAY_MS && ClearOfTwoDigitYears(first + 1, last)
  {
    YearsDoNotFall(first, last);
    YearsDoNotFall(first, first + 1);
    AddOneDay(first);
  }

  lemma NothingAfterTheEnd(last: int)
    ensures Gapless(last + 1, last)
  {
    MidnightsCompare(last + 1, last);
  }

  lemma {:induction false} ClearRangeListsEveryDay(first: int, last: int)
    requires first <= last + 1 && ClearOfTwoDigitYears(first, last)
    ensures Gapless(first, last)
    decreases last - first
  {
    if first > last {
      NothingAfterTheEnd(last);
    } else {
      ClearStep(first, last);
      ClearRangeListsEveryDay(first + 1, last);
      GaplessStep(first, last);
    }
  }

  lemma ListStep(cursor: Time, end: Time, listed: seq<Time>)
    requires listed == DaysFrom(cursor, end) && |listed| >= 2
    ensures listed[0] == cursor && listed[1] == AddUtcDays(cursor, 1) && listed[1..] == DaysFrom(listed[1], end)
  {
    var next := AddUtcDays(cursor, 1);
    ListOneDay(cursor, next, end);
    assert listed[1..] == DaysFrom(next, end);
  }

  /** Each listed day after the first is what adding one day to its predecessor gives. */
  lemma {:induction false} ListedDaysFollow(cursor: Time, end: Time, listed: seq<Time>, k: nat)
    requires listed == DaysFrom(cursor, end) && k + 1 < |listed|
    ensures listed[k + 1] == AddUtcDays(listed[k], 1)
    decreases k
  {
    ListStep(cursor, end, listed);
    if k > 0 {
      var rest := listed[1..];
      ListedDaysFollow(listed[1], end, rest, k - 1);
      assert rest[k - 1] == listed[k] && rest[k] == listed[k + 1];
    }
  }

  lemma ConsecutiveAt(first: int, count: nat, n: int)
    requires first <= n < first + count
    ensures Consecutive(first, count)[n - first] == n * DAY_MS
  {
  }

  lemma ListedPair(cursor: Time, end: Time, listed: seq<Time>, k: nat, n: int)
    requires listed == DaysFrom(cursor, end) && k + 1 < |listed|
    requires listed[k] == n * DAY_MS && listed[k + 1] == (n + 1) * DAY_MS
    ensures !(0 <= YearOf(n) <= 99)
  {
    ListedDaysFollow(cursor, end, listed, k);
    AddOneDay(n);
  }

  /** A list without gaps never passed through the years 0 to 99. */
  lemma ListedDayIsClear(first: int, last: int, n: int)
    requires first <= n < last && Gapless(first, last)
    ensures !(0 <= YearOf(n) <= 99)
  {
    var count := last - first + 1;
    ConsecutiveAt(first, count, n);
    ConsecutiveAt(first, count, n + 1);
    ListedPair(first * DAY_MS, last * DAY_MS, Consecutive(first, count), n - first, n);
  }

  lemma GaplessListIsClear(first: int, last: int)
    requires first <= last && !(0 <= YearOf(last) <= 99)
    requires Gapless(first, last)
    ensures ClearOfTwoDigitYears(first, last)
  {
    if YearOf(last) > 99 && YearOf(first) <= 99 {
      YearsGrow(YearOf(first) + 1, 100);
      YearsGrow(100, YearOf(last));
      if YearOf(first) < 0 {
        YearsGrow(YearOf(first) + 1, 0);
        YearsGrow(0, 100);
        NextYear(0);
        YearIsUnique(DayFromYear(0), 0);
        ListedDayIsClear(first, last, DayFromYear(0));
      } else {
        ListedDayIsClear(first, last, first);
      }
    }
  }

  // ----- accepted ranges -----

  lemma MidnightRange(first: Time, last: Time)
    requires Midnight(first) && Midnight(last)
    ensures RangeDays(first, last) == DayOf(last) - DayOf(first) + 1
    ensures first <= last <==> DayOf(first) <= DayOf(last)
  {
    RangeDaysCount(DayOf(first), DayOf(last));
    MidnightsCompare(DayOf(first), DayOf(last));
  }

  /** The day count of an accepted range counts its days and keeps the limit. */
  lemma DayCountCountsTheDays(
    start: Option<string>, end: Option<string>, defaultDays: int, maxDays: int, now: Time, r: Range)
    requires start.Some? ==> DateShaped(start.value)
    requires end.Some? ==> DateShaped(end.value)
    requires r == Normalize(start, end, defaultDays, maxDays, now) && r.Accepted?
    ensures Midnight(r.start) && Midnight(r.end) && !TwoDigit(r.end)
    ensures r.dayCount == DayOf(r.end) - DayOf(r.start) + 1 && 1 <= r.dayCount <= maxDays
  {
    EndIsMidnight(end, now);
    StartIsMidnight(start, r.end, defaultDays);
    MidnightRange(r.start, r.end);
  }

  /** The listed days of an accepted range are all its days, one after the other from the
      start to the end, exactly when none of them lies in the years 0 to 99. */
  lemma ListHoldsEveryDayExactlyWhenClear(
    start: Option<string>, end: Option<string>, defaultDays: int, maxDays: int, now: Time, r: Range)
    requires start.Some? ==> DateShaped(start.value)
    requires end.Some? ==> DateShaped(end.value)
    requires r == Normalize(start, end, defaultDays, maxDays, now) && r.Accepted?
    ensures r.dayCount >= 0
    ensures DaysFrom(StartOfUtcDay(r.start), r.end) == Consecutive(DayOf(r.start), r.dayCount) <==>
            ClearOfTwoDigitYears(DayOf(r.start), DayOf(r.end))
  {
    DayCountCountsTheDays(start, end, defaultDays, maxDays, now, r);
    ListOfMidnights(r.start, r.end, r.dayCount);
  }

  lemma ListOfMidnights(start: Time, end: Time, count: nat)
    requires Midnight(start) && Midnight(end) && !TwoDigit(end)
    requires count == DayOf(end) - DayOf(start) + 1 && count > 0
    ensures DaysFrom(StartOfUtcDay(start), end) == Consecutive(DayOf(start), count) <==>
            ClearOfTwoDigitYears(DayOf(start), DayOf(end))
  {
    var first, last := DayOf(start), DayOf(end);
    StartOfDayIsMidnightBefore(start);
    if ClearOfTwoDigitYears(first, last) {
      YearsDoNotFall(first, last);
      ClearRangeListsEveryDay(first, last);
    } else if DaysFrom(StartOfUtcDay(start), end) == Consecutive(first, last - first + 1) {
      ConsecutiveAt(first, last - first + 1, first);
      ListStartsAtCursor(StartOfUtcDay(start), end);
      GaplessListIsClear(first, last);
    }
  }

  lemma ListStartsAtCursor(cursor: Time, end: Time)
    ensures DaysFrom(cursor, end) != [] ==> DaysFrom(cursor, end)[0] == cursor
  {
  }

  /** A requested date is never before the year 100. */
  lemma RequestedDateIsLate(s: string)
    requires DateShaped(s)
    ensures YearOf(DayOf(StartOfUtcDay(ParseDateOnlyAsUtc(s)))) >= 100
  {
    var c := Named(s);
    var n := MakeDay(FullYear(c.year), c.month, c.day);
    LateDate(FullYear(c.year), c.month, c.day);
    MidnightDay(n);
    StartIsRebuiltDay(ParseDateOnlyAsUtc(s));
    RebuiltDayMoves(n);
    MidnightDay(RebuiltDay(n));
  }

  lemma LateDay(n: int)
    requires n >= DayFromYear(99)
    ensures YearOf(n) >= 99
  {
    if YearOf(n) < 99 {
      YearsGrow(YearOf(n) + 1, 99);
    }
  }

  lemma LateDate(year: int, month: int, day: int)
    requires year >= 100 && month >= -1 && day >= 0
    ensures YearOf(MakeDay(year, month, day)) >= 99
  {
    var y, m := year + month / 12, month % 12;
    assert y >= 100 || (y == 99 && m == 11);
    MonthStartsGrow(0, m, Leap(y));
    YearsGrow(99, y);
    LateDay(MakeDay(year, month, day));
  }

  /** Every accepted range with a requested start lists each of its days once, in order. */
  lemma RequestedRangeListsEveryDay(
    start: string, end: Option<string>, defaultDays: int, maxDays: int, now: Time, r: Range)
    requires DateShaped(start)
    requires end.Some? ==> DateShaped(end.value)
    requires r == Normalize(Some(start), end, defaultDays, maxDays, now) && r.Accepted?
    ensures r.dayCount >= 0 && DaysFrom(StartOfUtcDay(r.start), r.end) == Consecutive(DayOf(r.start), r.dayCount)
  {
    RequestedDateIsLate(start);
    ListHoldsEveryDayExactlyWhenClear(Some(start), end, defaultDays, maxDays, now, r);
  }

  /** With the end left out the range ends with the day of the request. */
  lemma EndLeftOutIsToday(start: Option<string>, defaultDays: int, maxDays: int, now: Time, r: Range)
    requires start.Some? ==> DateShaped(start.value)
    requires r == Normalize(start, None, defaultDays, maxDays, now) && r.Accepted? && !TwoDigit(now)
    ensures r.end <= now < r.end + DAY_MS
  {
    StartOfDayIsMidnightBefore(now);
  }

  /** With the start left out the range is accepted exactly when the default length keeps
      the limit, and then has that length. */
  lemma DefaultRangeHasDefaultLength(end: Option<string>, defaultDays: int, maxDays: int, now: Time)
    requires end.Some? ==> DateShaped(end.value)
    ensures Normalize(None, end, defaultDays, maxDays, now).Accepted? <==> 1 <= defaultDays <= maxDays
    ensures Normalize(None, end, defaultDays, maxDays, now).Accepted? ==>
              Normalize(None, end, defaultDays, maxDays, now).dayCount == defaultDays
  {
    EndIsMidnight(end, now);
    DefaultStart(EndOf(end, now), defaultDays);
  }

  lemma DefaultStart(last: Time, defaultDays: int)
    requires Midnight(last) && !TwoDigit(last)
    ensures var first := StartOf(None, last, defaultDays);
            (first <= last <==> defaultDays >= 1) && RangeDays(first, last) == defaultDays
  {
    StartIsMidnight(None, last, defaultDays);
    MidnightShift(last, -(defaultDays - 1));
    MidnightRange(last - (defaultDays - 1) * DAY_MS, last);
  }

  lemma LabelOfMidnight(t: Time)
    requires Midnight(t) && DateShaped(FormatUtcDateOnly(t))
    ensures ParseDateOnlyAsUtc(FormatUtcDateOnly(t)) == t <==> YearOf(DayOf(t)) >= 100
    ensures YearOf(DayOf(t)) >= 0
  {
    FormatParsesBack(t);
  }

  /** Full labels of an accepted range parse to its bounds; a start label does so exactly
      from the year 100 on. */
  lemma LabelsNameTheBounds(
    start: Option<string>, end: Option<string>, defaultDays: int, maxDays: int, now: Time, r: Range)
    requires start.Some? ==> DateShaped(start.value)
    requires end.Some? ==> DateShaped(end.value)
    requires r == Normalize(start, end, defaultDays, maxDays, now) && r.Accepted?
    ensures DateShaped(r.endLabel) <==> 0 <= YearOf(DayOf(r.end)) <= 9999
    ensures DateShaped(r.startLabel) <==> 0 <= YearOf(DayOf(r.start)) <= 9999
    ensures DateShaped(r.endLabel) ==> ParseDateOnlyAsUtc(r.endLabel) == r.end
    ensures DateShaped(r.startLabel) ==>
              (ParseDateOnlyAsUtc(r.startLabel) == r.start <==> YearOf(DayOf(r.start)) >= 100)
  {
    DayCountCountsTheDays(start, end, defaultDays, maxDays, now, r);
    FormatParsesBack(r.start);
    FormatParsesBack(r.end);
    if DateShaped(r.endLabel) {
      LabelOfMidnight(r.end);
    }
  }

  /** On texts that name real dates from the year 100 on the outcome is the calendar's:
      reversed dates are invalid, and otherwise the dates in the closed range are counted. */
  lemma RealDatesAreJudgedByTheCalendar(start: string, end: string, defaultDays: int, maxDays: int, now: Time)
    requires NamesRealDate(start) && NamesRealDate(end)
    ensures Normalize(Some(start), Some(end), defaultDays, maxDays, now).InvalidRange? <==>
            Before(Named(end), Named(start))
    ensures Normalize(Some(start), Some(end), defaultDays, maxDays, now).Accepted? <==>
            !Before(Named(end), Named(start)) && |DatesBetween(Named(start), Named(end))| <= maxDays
  {
    RealDateParses(start);
    RealDateParses(end);
    OrderIsDayOrder(Named(end), Named(start));
    MidnightsCompare(ToDay(Named(start)), ToDay(Named(end)));
    if !Before(Named(end), Named(start)) {
      CountedRange(Named(start), Named(end));
    }
  }

  /** A real date parses to its own midnight and is its own start of day. */
  lemma RealDateParses(s: string)
    requires NamesRealDate(s)
    ensures ParseDateOnlyAsUtc(s) == ToDay(Named(s)) * DAY_MS
    ensures StartOfUtcDay(ParseDateOnlyAsUtc(s)) == ParseDateOnlyAsUtc(s)
  {
    var n := ToDay(Named(s));
    CivilToDayAndBack(Named(s));
    MidnightDay(n);
    StartOfDayIsMidnightBefore(n * DAY_MS);
  }

  /** From a start in the years 0 to 99 to an end before 1900 nothing is listed. */
  lemma EarlyStartListsNothing(start: Time, end: Time)
    requires TwoDigit(start) && YearOf(DayOf(end)) < 1900
    ensures DaysFrom(StartOfUtcDay(start), end) == []
  {
    var n := RebuiltDay(DayOf(start));
    StartIsRebuiltDay(start);
    RebuiltDayMoves(DayOf(start));
    LaterYearIsLater(DayOf(end), n);
  }

  lemma EarlyJanuary(n: int)
    requires n == ToDay(Civil(100, 0, 5))
    ensures YearOf(n) == 100 && YearOf(n - 29) == 99
  {
    NextYear(100);
    NextYear(99);
    YearIsUnique(n, 100);
    YearIsUnique(n - 29, 99);
  }

  lemma EarlyBounds(end: string, now: Time, r: Range)
    requires DateShaped(end) && Named(end) == Civil(100, 0, 5)
    requires r == Normalize(None, Some(end), 30, 180, now) && r.Accepted?
    ensures r.end == ToDay(Civil(100, 0, 5)) * DAY_MS && r.start == AddUtcDays(r.end, -29)
  {
    EarlyEnd(end);
    AcceptedBounds(None, Some(end), 30, 180, now, r);
  }

  lemma AcceptedBounds(
    start: Option<string>, end: Option<string>, defaultDays: int, maxDays: int, now: Time, r: Range)
    requires start.Some? ==> DateShaped(start.value)
    requires end.Some? ==> DateShaped(end.value)
    requires r == Normalize(start, end, defaultDays, maxDays, now) && r.Accepted?
    ensures r.end == EndOf(end, now) && r.start == StartOf(start, r.end, defaultDays)
  {
  }

  lemma EarlyEnd(end: string)
    requires DateShaped(end) && Named(end) == Civil(100, 0, 5)
    ensures StartOfUtcDay(ParseDateOnlyAsUtc(end)) == ToDay(Civil(100, 0, 5)) * DAY_MS
  {
    assert NamesRealDate(end);
    RealDateParses(end);
  }

  lemma EarlyRange(r: Range, n: int)
    requires n == ToDay(Civil(100, 0, 5))
    requires r.Accepted? && r.end == n * DAY_MS && r.start == AddUtcDays(r.end, -29)
    ensures DaysFrom(StartOfUtcDay(r.start), r.end) == []
  {
    EarlyJanuary(n);
    MidnightDay(n);
    StartOfDayIsMidnightBefore(r.end);
    MidnightShift(r.end, -29);
    EarlyStartListsNothing(r.start, r.end);
  }

  /** A default start can reach those years: 5 January 100 with the default 30 days is an
      accepted range for which nothing is listed. */
  lemma EarlyDefaultStart(end: string, now: Time, r: Range)
    requires DateShaped(end) && Named(end) == Civil(100, 0, 5)
    requires r == Normalize(None, Some(end), 30, 180, now)
    ensures r.Accepted? && r.dayCount == 30 && DaysFrom(StartOfUtcDay(r.start), r.end) == []
  {
    DefaultRangeHasDefaultLength(Some(end), 30, 180, now);
    EarlyBounds(end, now, r);
    EarlyRange(r, ToDay(Civil(100, 0, 5)));
  }
}
