/** Week keys.  Days are counted from 1 January 1970 and years are found from
    them as in sections 21.4.1.3 and 21.4.1.6 of ECMA-262 2021; the weeks are
    those of section 2.2.10 of ISO 8601:2004. */
module WeekGrouping {
  import opened Analytics
  import opened Grouping

  const MS_PER_DAY: int := 86_400_000

  /** The first year whose weeks lie clear of the years 0 to 99, which
      `Date.UTC` reads as 1900 to 1999. */
  const FIRST_YEAR: int := 101

  datatype Week = Week(year: int, number: int)

  // ----- days and years -----

  /** The day number of 1 January.  Division rounds down. */
  function DayFromYear(y: int): int
  {
    365 * (y - 1970) + (y - 1969) / 4 - (y - 1901) / 100 + (y - 1601) / 400
  }

  /** Years have the lengths of the Gregorian calendar, and day 0 is 1 January
      1970. */
  lemma YearLength(y: int)
    ensures DayFromYear(y + 1) - DayFromYear(y)
            == if y % 4 == 0 && (y % 100 != 0 || y % 400 == 0) then 366 else 365
    ensures DayFromYear(1970) == 0
  {
    assert (y - 1968) / 4 - (y - 1969) / 4 == if (y - 1968) % 4 == 0 then 1 else 0;
    assert (y - 1900) / 100 - (y - 1901) / 100 == if (y - 1900) % 100 == 0 then 1 else 0;
    assert (y - 1600) / 400 - (y - 1601) / 400 == if (y - 1600) % 400 == 0 then 1 else 0;
  }

  lemma {:induction false} YearsRise(y: int, z: int)
    requires y <= z
    ensures DayFromYear(z) - DayFromYear(y) >= 365 * (z - y)
    decreases z - y
  {
    hide DayFromYear;
    if y < z {
      YearsRise(y, z - 1);
      YearLength(z - 1);
    }
  }

  function YearFrom(d: int, y: int): (r: int)
    requires DayFromYear(y) <= d
    ensures y <= r && DayFromYear(r) <= d < DayFromYear(r + 1)
    decreases d - DayFromYear(y)
  {
    YearLength(y);
    if d < DayFromYear(y + 1) then y else YearFrom(d, y + 1)
  }

  predicate Supported(d: int)
  {
    d >= DayFromYear(FIRST_YEAR)
  }

  function YearOf(d: int): (r: int)
    requires d >= DayFromYear(FIRST_YEAR - 1)
    ensures FIRST_YEAR - 1 <= r && DayFromYear(r) <= d < DayFromYear(r + 1)
  {
    YearFrom(d, FIRST_YEAR - 1)
  }

  /** The year containing a day is unique. */
  lemma YearUnique(d: int, y: int, z: int)
    requires DayFromYear(y) <= d < DayFromYear(y + 1)
    requires DayFromYear(z) <= d < DayFromYear(z + 1)
    ensures y == z
  {
    hide DayFromYear;
    if y < z {
      YearsRise(y + 1, z);
    } else if z < y {
      YearsRise(z + 1, y);
    }
  }

  // ----- weeks -----

  /** 0 is Sunday. */
  function WeekDay(d: int): int
  {
    (d + 4) % 7
  }

  function DayOfWeek(d: int): int
  {
    if WeekDay(d) == 0 then 7 else WeekDay(d)
  }

  function Monday(d: int): int
  {
    d - (DayOfWeek(d) - 1)
  }

  /** Day 0 was a Thursday, and the days of the week follow one another. */
  lemma DaysOfWeek(d: int)
    ensures DayOfWeek(0) == 4
    ensures DayOfWeek(d + 1) == if DayOfWeek(d) == 7 then 1 else DayOfWeek(d) + 1
  {
  }

  function CeilSevenths(n: int): int
  {
    -((-n) / 7)
  }

  /** The Thursday of the week decides its year; the number is how many weeks
      into that year the Thursday lies. */
  function WeekOf(d: int): Week
    requires Supported(d)
  {
    var thursday := d + 4 - DayOfWeek(d);
    YearLength(FIRST_YEAR - 1);
    var year := YearOf(thursday);
    Week(year, CeilSevenths(thursday - DayFromYear(year) + 1))
  }

  function Digit(n: int): char
    requires 0 <= n < 10
  {
    "0123456789"[n]
  }

  function Decimal(n: nat): (s: string)
    ensures s != []
  {
    if n < 10 then [Digit(n)] else Decimal(n / 10) + [Digit(n % 10)]
  }

  function PadStartTwo(s: string): string
  {
    if |s| == 1 then "0" + s else s
  }

  function WeekKey(w: Week): string
    requires w.year >= 0 && w.number >= 0
  {
    Decimal(w.year) + "-W" + PadStartTwo(Decimal(w.number))
  }

  function ToWeekKey(d: int): string
    requires Supported(d)
  {
    WeekInYear(d);
    WeekKey(WeekOf(d))
  }

  function DayOf(ms: int): int
  {
    ms / MS_PER_DAY
  }

  /** A moment lies within its day. */
  lemma WithinDay(ms: int)
    ensures 86_400_000 * DayOf(ms) <= ms < 86_400_000 * (DayOf(ms) + 1)
  {
  }

  // ----- what a key says -----

  /** The number a string of digits stands for. */
  function Value(s: string): nat
  {
    if s == "" then 0
    else Value(s[..|s| - 1]) * 10 + if '0' <= s[|s| - 1] <= '9' then (s[|s| - 1] as int) - ('0' as int) else 0
  }

  lemma DigitValue(n: int)
    requires 0 <= n < 10
    ensures '0' <= Digit(n) <= '9' && (Digit(n) as int) - ('0' as int) == n
  {
  }

  lemma {:induction false} DecimalValue(n: nat)
    ensures Value(Decimal(n)) == n
  {
    DigitValue(n % 10);
    hide Digit;
    if n >= 10 {
      DecimalValue(n / 10);
      assert Decimal(n)[..|Decimal(n)| - 1] == Decimal(n / 10);
    } else {
      assert Value("") == 0;
    }
  }

  /** A key is its year, the mark and its number, the number in two digits. */
  lemma KeyReads(w: Week) returns (year: string, number: string)
    requires w.year >= 0 && 0 <= w.number < 100
    ensures WeekKey(w) == year + "-W" + number && |number| == 2
    ensures Value(year) == w.year && Value(number) == w.number
  {
    year, number := Decimal(w.year), PadStartTwo(Decimal(w.number));
    DecimalValue(w.year);
    TwoDigits(w.number);
    TwoDigitValue(w.number / 10, w.number % 10);
    hide Decimal, Digit;
  }

  lemma TwoDigitValue(a: nat, b: nat)
    requires a < 10 && b < 10
    ensures Value([Digit(a), Digit(b)]) == 10 * a + b
  {
    DigitValue(a);
    DigitValue(b);
    hide Digit;
    ValueAppend("", Digit(a));
    ValueAppend([Digit(a)], Digit(b));
    assert [Digit(a)] + [Digit(b)] == [Digit(a), Digit(b)] && "" + [Digit(a)] == [Digit(a)];
    assert Value("") == 0;
  }

  lemma ValueAppend(s: string, c: char)
    requires '0' <= c <= '9'
    ensures Value(s + [c]) == Value(s) * 10 + ((c as int) - ('0' as int))
  {
    assert (s + [c])[..|s|] == s;
  }

  // ----- the numbering is that of ISO 8601 -----

  /** The Monday of the week holding 4 January, where the year's weeks begin. */
  function FirstMonday(y: int): int
  {
    Monday(DayFromYear(y) + 3)
  }

  lemma CeilBounds(n: int)
    ensures 7 * CeilSevenths(n) - 6 <= n <= 7 * CeilSevenths(n)
  {
  }

  /** Two Mondays less than a week apart are the same day. */
  lemma MondaysAWeekApart(d: int)
    ensures DayOfWeek(Monday(d)) == 1 && Monday(d) <= d <= Monday(d) + 6
    ensures (Monday(d) + 3) % 7 == 0
  {
  }

  /** The week of a day starts (number - 1) weeks after the week of 4 January of
      its year and before that of the next year. */
  lemma WeekInYear(d: int)
    requires Supported(d)
    ensures var w := WeekOf(d);
            && Monday(d) == FirstMonday(w.year) + 7 * (w.number - 1)
            && Monday(d) < FirstMonday(w.year + 1)
            && 1 <= w.number <= 53
            && w.year >= FIRST_YEAR - 1
  {
    hide DayFromYear, YearOf, DayOfWeek, Monday, CeilSevenths;
    var w := WeekOf(d);
    var thursday := d + 4 - DayOfWeek(d);
    var start, next := DayFromYear(w.year), DayFromYear(w.year + 1);
    ThursdayOfWeek(d);
    YearLength(FIRST_YEAR - 1);
    YearLength(w.year);
    MondaysAWeekApart(d);
    MondaysAWeekApart(start + 3);
    MondaysAWeekApart(next + 3);
    CeilBounds(thursday - start + 1);
    CountedThursdays(thursday, start, FirstMonday(w.year) + 3, w.number);
    LaterThursday(thursday, next, FirstMonday(w.year + 1) + 3);
  }

  lemma ThursdayOfWeek(d: int)
    ensures Monday(d) + 3 == d + 4 - DayOfWeek(d)
    ensures 1 <= DayOfWeek(d) <= 7
  {
  }

  /** Counting Thursdays from the first on or after 1 January. */
  lemma CountedThursdays(t: int, start: int, first: int, number: int)
    requires t % 7 == 0 && first % 7 == 0 && start <= first <= start + 6
    requires 7 * number - 6 <= t - start + 1 <= 7 * number
    ensures t == first + 7 * (number - 1)
  {
    var a, b := t / 7, first / 7;
    assert t == 7 * a && first == 7 * b;
  }

  lemma LaterThursday(t: int, next: int, first: int)
    requires t % 7 == 0 && first % 7 == 0 && t < next <= first
    ensures t < first
  {
  }

  /** That account fixes the year and the number. */
  lemma WeekUnique(d: int, w: Week)
    requires Supported(d)
    requires Monday(d) == FirstMonday(w.year) + 7 * (w.number - 1)
    requires FirstMonday(w.year) <= Monday(d) < FirstMonday(w.year + 1)
    ensures w == WeekOf(d)
  {
    WeekInYear(d);
    var y := WeekOf(d).year;
    hide WeekOf, DayFromYear, Monday, FirstMonday, Supported;
    if y < w.year {
      FirstMondaysRise(y + 1, w.year);
    } else if w.year < y {
      FirstMondaysRise(w.year + 1, y);
    }
  }

  lemma FirstMondaysRise(y: int, z: int)
    requires y <= z
    ensures FirstMonday(y) <= FirstMonday(z)
  {
    YearsRise(y, z);
    MondaysAWeekApart(DayFromYear(y) + 3);
    MondaysAWeekApart(DayFromYear(z) + 3);
    hide DayFromYear, DayOfWeek, Monday;
  }

  // ----- the key is one-to-one -----

  lemma DigitInjective(a: int, b: int)
    requires 0 <= a < 10 && 0 <= b < 10 && Digit(a) == Digit(b)
    ensures a == b
  {
  }

  lemma DecimalLength(n: nat)
    ensures |Decimal(n)| == 1 <==> n < 10
  {
  }

  lemma {:induction false} DecimalInjective(a: nat, b: nat)
    requires Decimal(a) == Decimal(b)
    ensures a == b
  {
    var s := Decimal(a);
    DecimalLength(a);
    DecimalLength(b);
    if a >= 10 && b >= 10 {
      assert s[..|s| - 1] == Decimal(a / 10) && s[..|s| - 1] == Decimal(b / 10);
      assert s[|s| - 1] == Digit(a % 10) && s[|s| - 1] == Digit(b % 10);
      DigitInjective(a % 10, b % 10);
      DecimalInjective(a / 10, b / 10);
    } else if a < 10 && b < 10 {
      assert s[0] == Digit(a) == Digit(b);
      DigitInjective(a, b);
    } else {
      assert false;
    }
  }

  lemma TwoDigits(n: nat)
    requires n < 100
    ensures PadStartTwo(Decimal(n)) == [Digit(n / 10), Digit(n % 10)]
  {
    if n >= 10 {
      assert Decimal(n / 10) == [Digit(n / 10)];
    }
  }

  lemma WeekKeyInjective(v: Week, w: Week)
    requires v.year >= 0 && w.year >= 0 && 0 <= v.number < 100 && 0 <= w.number < 100
    requires WeekKey(v) == WeekKey(w)
    ensures v == w
  {
    hide Decimal, Digit;
    TwoDigits(v.number);
    TwoDigits(w.number);
    var s := WeekKey(v);
    var n := |s|;
    assert s[..n - 4] == Decimal(v.year) && s[..n - 4] == Decimal(w.year);
    assert s[n - 2] == Digit(v.number / 10) && s[n - 2] == Digit(w.number / 10);
    assert s[n - 1] == Digit(v.number % 10) && s[n - 1] == Digit(w.number % 10);
    DecimalInjective(v.year, w.year);
    DigitInjective(v.number / 10, w.number / 10);
    DigitInjective(v.number % 10, w.number % 10);
  }

  /** Two dates share a key exactly when they share a Monday-to-Sunday week. */
  lemma SameKeyExactlyWhen(d: int, e: int)
    requires Supported(d) && Supported(e)
    ensures ToWeekKey(d) == ToWeekKey(e) <==> Monday(d) == Monday(e)
  {
    WeekInYear(d);
    WeekInYear(e);
    hide WeekOf, Monday, FirstMonday, Supported;
    if ToWeekKey(d) == ToWeekKey(e) {
      hide WeekKey;
      WeekKeyInjective(WeekOf(d), WeekOf(e));
    } else if Monday(d) == Monday(e) {
      SameWeek(d, e);
    }
  }

  lemma SameWeek(d: int, e: int)
    requires Supported(d) && Supported(e) && Monday(d) == Monday(e)
    ensures WeekOf(d) == WeekOf(e)
  {
    assert d + 4 - DayOfWeek(d) == e + 4 - DayOfWeek(e);
  }

  /** A trade's weekly key; dates before the supported years have none here. */
  function WeekKeyOf(t: AnalyticsTrade): string
  {
    var d := DayOf(TradeDate(t));
    if Supported(d) then ToWeekKey(d) else ""
  }

  predicate AllSupported(trades: seq<AnalyticsTrade>)
  {
    forall t :: t in trades ==> Supported(DayOf(TradeDate(t)))
  }

  /** Grouped by week, two trades fall in one group exactly when their dates lie
      in the same Monday-to-Sunday week. */
  lemma WeeklyGroups(groups: seq<Group>, trades: seq<AnalyticsTrade>, t: AnalyticsTrade, u: AnalyticsTrade)
    requires IsPartition(groups, trades, WeekKeyOf) && AllSupported(trades) && t in trades && u in trades
    ensures (exists i :: 0 <= i < |groups| && t in groups[i].trades && u in groups[i].trades)
            <==> Monday(DayOf(TradeDate(t))) == Monday(DayOf(TradeDate(u)))
  {
    SameKeyExactlyWhen(DayOf(TradeDate(t)), DayOf(TradeDate(u)));
    assert WeekKeyOf(t) == WeekKeyOf(u) <==> Monday(DayOf(TradeDate(t))) == Monday(DayOf(TradeDate(u)));
    hide Supported, ToWeekKey, Monday, DayOf, OfKey, WeekKeyOf;
    OfKeyHolds(trades, WeekKeyOf, t);
    OfKeyHolds(trades, WeekKeyOf, u);
    assert WeekKeyOf(t) in Keys(groups);
    var i :| 0 <= i < |groups| && Keys(groups)[i] == WeekKeyOf(t);
    assert t in groups[i].trades;
    if WeekKeyOf(t) == WeekKeyOf(u) {
      assert u in groups[i].trades;
    }
    forall j | 0 <= j < |groups| && t in groups[j].trades && u in groups[j].trades
      ensures WeekKeyOf(t) == WeekKeyOf(u)
    {
      OfKeyOnly(trades, WeekKeyOf, groups[j].key, t);
      OfKeyOnly(trades, WeekKeyOf, groups[j].key, u);
    }
  }

  lemma {:induction false} OfKeyHolds(trades: seq<AnalyticsTrade>, keyOf: KeyOf, t: AnalyticsTrade)
    requires t in trades
    ensures t in OfKey(trades, keyOf, keyOf(t))
  {
    var n := |trades| - 1;
    assert trades == trades[..n] + [trades[n]];
    if t in trades[..n] {
      OfKeyHolds(trades[..n], keyOf, t);
    }
  }

  lemma {:induction false} OfKeyOnly(trades: seq<AnalyticsTrade>, keyOf: KeyOf, key: string, t: AnalyticsTrade)
    requires t in OfKey(trades, keyOf, key)
    ensures keyOf(t) == key
  {
    var n := |trades| - 1;
    if t in OfKey(trades[..n], keyOf, key) {
      OfKeyOnly(trades[..n], keyOf, key, t);
    }
  }
}
