/**
 * Holidays and business days. A date is its proleptic Gregorian ordinal, unbounded in both
 * directions: day 1 is Monday, 1 January of year 1.
 */
module Dates {

  type Date = int

  /** Monday is 0. */
  function Weekday(d: Date): (w: nat)
    ensures w < 7
  {
    (d + 6) % 7
  }

  predicate IsWeekend(d: Date) {
    Weekday(d) >= 5
  }

  /** The ordinal of the last day before the given year. */
  function DaysBefore(y: int): Date {
    (y - 1) * 365 + (y - 1) / 4 - (y - 1) / 100 + (y - 1) / 400
  }

  lemma DivStep(k: int, m: int)
    requires m == 4 || m == 100 || m == 400
    ensures (k + 1) / m - k / m == if (k + 1) % m == 0 then 1 else 0
  {
  }

  lemma Centuries(k: int)
    ensures (k % 400 == 0 ==> k % 100 == 0) && (k % 100 == 0 ==> k % 4 == 0)
  {
  }

  predicate IsLeap(y: int) {
    y % 4 == 0 && (y % 100 != 0 || y % 400 == 0)
  }

  /** A year has 366 days exactly when it is a leap year. */
  lemma YearLength(y: int)
    ensures DaysBefore(y + 1) - DaysBefore(y) == if IsLeap(y) then 366 else 365
  {
    var k := y - 1;
    DivStep(k, 4);
    DivStep(k, 100);
    DivStep(k, 400);
    Centuries(k + 1);
  }

  /**
   * Day 1 is a Monday and the first day of year 1, and weekdays follow each other: the calendar has
   * no other freedom.
   */
  lemma Anchored(d: Date)
    ensures DaysBefore(1) == 0 && Weekday(1) == 0
    ensures Weekday(d + 1) == if Weekday(d) == 6 then 0 else Weekday(d) + 1
  {
  }

  lemma {:induction false} DaysBeforeGrows(y: int, z: int)
    requires y <= z
    ensures DaysBefore(z) >= DaysBefore(y) + 365 * (z - y)
    decreases z - y
  {
    if y < z {
      DaysBeforeGrows(y, z - 1);
      YearLength(z - 1);
    }
  }

  ghost predicate InYear(d: Date, y: int) {
    DaysBefore(y) < d <= DaysBefore(y + 1)
  }

  function YearOf(d: Date): (y: int)
    ensures InYear(d, y)
  {
    var y := (d - 1) * 400 / 146097 + 1;
    if d <= DaysBefore(y) then y - 1 else if d > DaysBefore(y + 1) then y + 1 else y
  }

  /** A date lies in exactly one year. */
  lemma YearUnique(d: Date, y: int)
    requires InYear(d, y)
    ensures YearOf(d) == y
  {
    var z := YearOf(d);
    if z < y {
      DaysBeforeGrows(z + 1, y);
    } else if y < z {
      DaysBeforeGrows(y + 1, z);
    }
  }

  /** Neighbouring days lie in the same year or neighbouring ones. */
  lemma NextDayYear(d: Date)
    ensures YearOf(d + 1) == YearOf(d) || (YearOf(d + 1) == YearOf(d) + 1 && d == DaysBefore(YearOf(d) + 1))
  {
    var y := YearOf(d);
    YearLength(y + 1);
    if d < DaysBefore(y + 1) {
      YearUnique(d + 1, y);
    } else {
      YearUnique(d + 1, y + 1);
    }
  }
}

/** Observed holidays of a jurisdiction, from raw dates per jurisdiction and year, with a cache. */
module Holidays {
  import opened Options
  import opened Dates

  datatype Config = Config(usesFederal: bool, hasCustom: bool)

  /** The raw dates of each jurisdiction's file for each year; a missing file lists none. */
  type RawDates = (string, int) -> set<Date>

  const FEDERAL := "US-FEDERAL"

  /** A Saturday holiday is observed on Friday, a Sunday one on Monday. */
  function Observed(d: Date): (o: Date)
    ensures !IsWeekend(o)
  {
    if Weekday(d) == 5 then d - 1 else if Weekday(d) == 6 then d + 1 else d
  }

  /** The dates of one file whose observance falls into the given year. */
  function ObservedIn(dates: set<Date>, year: int): (r: set<Date>)
    ensures forall o :: o in r ==> !IsWeekend(o) && YearOf(o) == year
  {
    set d | d in dates && YearOf(Observed(d)) == year :: Observed(d)
  }

  function CustomPart(configs: map<string, Config>, raw: RawDates, code: string, year: int): set<Date>
    requires code in configs
  {
    (if configs[code].hasCustom then ObservedIn(raw(code, year), year) else {}) + ObservedIn(raw(code, year + 1), year)
  }

  predicate NeedsFederal(configs: map<string, Config>, code: string)
    requires code in configs
  {
    configs[code].usesFederal && code != FEDERAL
  }

  /** The observed holidays of a year, unless the jurisdiction, or the federal one it builds on, is unknown. */
  function HolidaysOf(configs: map<string, Config>, raw: RawDates, code: string, year: int): (r: Option<set<Date>>)
    decreases code != FEDERAL
  {
    if code !in configs then None
    else if !NeedsFederal(configs, code) then Some(CustomPart(configs, raw, code, year))
    else
      match HolidaysOf(configs, raw, FEDERAL, year)
      case None => None
      case Some(federal) => Some(federal + CustomPart(configs, raw, code, year))
  }

  /** A date kept on Friday when it is a Saturday, on Monday when it is a Sunday, and on itself otherwise. */
  predicate KeptOn(date: Date, d: Date) {
    || (Weekday(date) < 5 && d == date)
    || (Weekday(date) == 5 && d == date - 1)
    || (Weekday(date) == 6 && d == date + 1)
  }

  /** Some date in the jurisdiction's own files for the year, if it has such, or for the next year is kept on `d`. */
  ghost predicate OwnHoliday(configs: map<string, Config>, raw: RawDates, code: string, year: int, d: Date)
    requires code in configs
  {
    || (configs[code].hasCustom && exists date :: date in raw(code, year) && KeptOn(date, d))
    || (exists date :: date in raw(code, year + 1) && KeptOn(date, d))
  }

  lemma OwnIsCustom(configs: map<string, Config>, raw: RawDates, code: string, year: int, d: Date)
    requires code in configs
    ensures d in CustomPart(configs, raw, code, year) <==> YearOf(d) == year && OwnHoliday(configs, raw, code, year, d)
  {
    assert forall date :: KeptOn(date, d) <==> Observed(date) == d;
  }

  /**
   * There are holidays exactly when the jurisdiction, and the federal one if it uses that, are known;
   * and a day is one exactly when it lies in the year and a date of the jurisdiction's own files, or of
   * the federal ones if it uses them, is kept on it.
   */
  lemma HolidaysExactly(configs: map<string, Config>, raw: RawDates, code: string, year: int, d: Date)
    ensures var r := HolidaysOf(configs, raw, code, year);
      && (r.Some? <==> code in configs && (configs[code].usesFederal ==> "US-FEDERAL" in configs))
      && (r.Some? ==>
            (d in r.value <==>
             YearOf(d) == year &&
             (OwnHoliday(configs, raw, code, year, d) ||
              (configs[code].usesFederal && OwnHoliday(configs, raw, "US-FEDERAL", year, d)))))
  {
    if code in configs {
      OwnIsCustom(configs, raw, code, year, d);
      if FEDERAL in configs {
        OwnIsCustom(configs, raw, FEDERAL, year, d);
      }
    }
  }

  /** Every observed holiday is a weekday of the year it is listed for. */
  lemma HolidaysAreWeekdays(configs: map<string, Config>, raw: RawDates, code: string, year: int, d: Date)
    requires HolidaysOf(configs, raw, code, year).Some? && d in HolidaysOf(configs, raw, code, year).value
    ensures !IsWeekend(d) && YearOf(d) == year
  {
    if d !in CustomPart(configs, raw, code, year) {
      assert d in HolidaysOf(configs, raw, FEDERAL, year).value;
      assert d in CustomPart(configs, raw, FEDERAL, year);
    }
  }

  predicate LastSunday(d: Date) {
    Weekday(d) == 6 && YearOf(d + 1) != YearOf(d)
  }

  /** Only a date that ends its year on a Sunday is observed in a later year. */
  lemma ObservedYear(d: Date)
    requires !LastSunday(d)
    ensures YearOf(Observed(d)) == YearOf(d) || YearOf(Observed(d)) + 1 == YearOf(d)
  {
    NextDayYear(d);
    NextDayYear(d - 1);
  }

  /** A listed date is observed in the year its observance falls into, unless it is a Sunday that ends its year. */
  lemma ListedIsObserved(configs: map<string, Config>, raw: RawDates, code: string, d: Date)
    requires HolidaysOf(configs, raw, code, YearOf(Observed(d))).Some? && configs[code].hasCustom
    requires d in raw(code, YearOf(d)) && !LastSunday(d)
    ensures Observed(d) in HolidaysOf(configs, raw, code, YearOf(Observed(d))).value
  {
    var o := Observed(d);
    ObservedYear(d);
    assert o in ObservedIn(raw(code, YearOf(d)), YearOf(o));
    assert o in CustomPart(configs, raw, code, YearOf(o));
  }

  /** When a date is all there is, it is observed exactly when it is not a Sunday that ends its year. */
  lemma LoneDateObserved(configs: map<string, Config>, raw: RawDates, code: string, d: Date)
    requires code in configs && configs[code].hasCustom && !NeedsFederal(configs, code)
    requires forall c, y :: raw(c, y) == if c == code && y == YearOf(d) then {d} else {}
    ensures Observed(d) in HolidaysOf(configs, raw, code, YearOf(Observed(d))).value <==> !LastSunday(d)
  {
    if LastSunday(d) {
      NextDayYear(d);
      var y := YearOf(d + 1);
      assert raw(code, y) == {} && raw(code, y + 1) == {};
      assert CustomPart(configs, raw, code, y) == {};
    } else {
      ListedIsObserved(configs, raw, code, d);
    }
  }

  /** The registry: configurations, raw dates, and the holidays worked out so far. */
  class Registry {
    const configs: map<string, Config>
    const raw: RawDates
    var cache: map<(string, int), set<Date>>

    /** The cache holds nothing but what would be worked out again. */
    ghost predicate Valid()
      reads this
    {
      forall k :: k in cache ==> HolidaysOf(configs, raw, k.0, k.1) == Some(cache[k])
    }

    constructor (configs: map<string, Config>, raw: RawDates)
      ensures Valid() && this.configs == configs && this.raw == raw
    {
      this.configs, this.raw, cache := configs, raw, map[];
    }

    method GetHolidays(code: string, year: int) returns (r: Option<set<Date>>)
      requires Valid()
      modifies this
      ensures Valid() && r == HolidaysOf(configs, raw, code, year)
      ensures r.Some? ==> code in configs && forall d :: d in r.value <==>
                YearOf(d) == year &&
                (OwnHoliday(configs, raw, code, year, d) ||
                 (configs[code].usesFederal && FEDERAL in configs && OwnHoliday(configs, raw, FEDERAL, year, d)))
      ensures r.Some? ==> (code, year) in cache && cache[(code, year)] == r.value
      decreases code != FEDERAL
    {
      forall d {
        HolidaysExactly(configs, raw, code, year, d);
      }
      if (code, year) in cache {
        return Some(cache[(code, year)]);
      }
      if code !in configs {
        return None;
      }
      var holidays: set<Date>;
      if NeedsFederal(configs, code) {
        var federal := GetHolidays(FEDERAL, year);
        if federal.None? {
          return None;
        }
        holidays := federal.value + CustomPart(configs, raw, code, year);
      } else {
        holidays := CustomPart(configs, raw, code, year);
      }
      cache := cache[(code, year) := holidays];
      return Some(holidays);
    }
  }
}

/** Adding and counting business days. */
module BusinessCalendar {
  import opened Options
  import opened Dates
  import opened Holidays

  // ------------------------------------------------------------------ counting and adding, for any set of days

  type Days = Date -> bool

  /** The number of such days from `lo` up to, but not including, `hi`. */
  function CountIn(days: Days, lo: Date, hi: Date): nat
    decreases hi - lo
  {
    if hi <= lo then 0 else CountIn(days, lo, hi - 1) + if days(hi - 1) then 1 else 0
  }

  lemma {:induction false} CountSplit(days: Days, lo: Date, mid: Date, hi: Date)
    requires lo <= mid <= hi
    ensures CountIn(days, lo, hi) == CountIn(days, lo, mid) + CountIn(days, mid, hi)
    decreases hi - mid
  {
    if mid < hi {
      CountSplit(days, lo, mid, hi - 1);
    }
  }

  /** `r` is the n-th such day after `start`, or before it when n is negative. */
  ghost predicate IsSum(days: Days, start: Date, n: int, r: Date) {
    if n == 0 then r == start
    else if n > 0 then start < r && days(r) && CountIn(days, start + 1, r + 1) == n
    else r < start && days(r) && CountIn(days, r, start) == -n
  }

  /** There is only one such day. */
  lemma SumUnique(days: Days, start: Date, n: int, r: Date, s: Date)
    requires IsSum(days, start, n, r) && IsSum(days, start, n, s)
    ensures r == s
  {
    var lo, hi := if r < s then r else s, if r < s then s else r;
    if n > 0 && lo < hi {
      CountSplit(days, start + 1, lo + 1, hi);
    } else if n < 0 && lo < hi {
      CountSplit(days, lo, lo + 1, start);
      CountSplit(days, lo + 1, hi, start);
    }
  }

  /** It is the least date with that many such days after the start. */
  lemma SumIsLeast(days: Days, start: Date, n: int, r: Date, d: Date)
    requires n > 0 && IsSum(days, start, n, r) && start <= d
    ensures CountIn(days, start + 1, d + 1) >= n <==> r <= d
  {
    if r <= d {
      CountSplit(days, start + 1, r + 1, d + 1);
    } else {
      CountSplit(days, start + 1, d + 1, r);
    }
  }

  /** Going m days and then n more comes back to the start or passes it. */
  predicate Crosses(m: int, n: int) {
    (m > 0 && m + n <= 0) || (m < 0 && m + n >= 0)
  }

  lemma CountOne(days: Days, d: Date)
    ensures CountIn(days, d, d + 1) == if days(d) then 1 else 0
  {
  }

  /** Forward and then less far back. */
  lemma ForwardShort(days: Days, start: Date, m: int, a: Date, n: int, b: Date)
    requires m > 0 && n < 0 && m + n > 0 && IsSum(days, start, m, a) && IsSum(days, a, n, b)
    ensures IsSum(days, start, m + n, b)
  {
    CountSplit(days, start + 1, a, a + 1);
    CountOne(days, a);
    if b <= start {
      CountSplit(days, b, start + 1, a);
      CountSplit(days, b, b + 1, start + 1);
      CountOne(days, b);
    } else {
      CountSplit(days, start + 1, b, a);
    }
  }

  /** Forward and then back to the start or past it. */
  lemma ForwardFar(days: Days, start: Date, m: int, a: Date, n: int, b: Date)
    requires m > 0 && m + n <= 0 && IsSum(days, start, m, a) && IsSum(days, a, n, b)
    ensures b <= start && (IsSum(days, start, m + n, b) <==> days(start))
  {
    CountSplit(days, start + 1, a, a + 1);
    CountOne(days, a);
    if start < b {
      CountSplit(days, start + 1, b, a);
      CountSplit(days, b, b + 1, a);
      CountOne(days, b);
    } else {
      CountSplit(days, b, start, a);
      CountSplit(days, start, start + 1, a);
      CountOne(days, start);
      if b < start {
        CountSplit(days, b, b + 1, start);
        CountOne(days, b);
      }
    }
  }

  /** Back and then less far forward. */
  lemma BackShort(days: Days, start: Date, m: int, a: Date, n: int, b: Date)
    requires m < 0 && n > 0 && m + n < 0 && IsSum(days, start, m, a) && IsSum(days, a, n, b)
    ensures IsSum(days, start, m + n, b)
  {
    CountSplit(days, a, a + 1, start);
    CountOne(days, a);
    if start <= b {
      CountSplit(days, a + 1, start, b + 1);
    } else {
      CountSplit(days, a + 1, b, start);
      CountSplit(days, a + 1, b, b + 1);
    }
  }

  /** Back and then forward to the start or past it. */
  lemma BackFar(days: Days, start: Date, m: int, a: Date, n: int, b: Date)
    requires m < 0 && m + n >= 0 && IsSum(days, start, m, a) && IsSum(days, a, n, b)
    ensures start <= b && (IsSum(days, start, m + n, b) <==> days(start))
  {
    CountSplit(days, a, a + 1, start);
    CountOne(days, a);
    if b < start {
      CountSplit(days, a + 1, b + 1, start);
    } else {
      CountSplit(days, a + 1, start, b + 1);
      CountSplit(days, start, start + 1, b + 1);
      CountOne(days, start);
      if start < b {
        CountSplit(days, start + 1, b, b + 1);
        CountOne(days, b);
      }
    }
  }

  /**
   * Adding m and then n is adding m + n, in every direction, unless the two cross the start; then it
   * is exactly when the start is itself such a day.
   */
  lemma SumsCompose(days: Days, start: Date, m: int, a: Date, n: int, b: Date)
    requires IsSum(days, start, m, a) && IsSum(days, a, n, b)
    ensures IsSum(days, start, m + n, b) <==> !Crosses(m, n) || days(start)
  {
    if m > 0 && n > 0 {
      CountSplit(days, start + 1, a + 1, b + 1);
    } else if m < 0 && n < 0 {
      CountSplit(days, b, a, start);
    } else if m > 0 && m + n > 0 && n < 0 {
      ForwardShort(days, start, m, a, n, b);
    } else if m > 0 && n < 0 {
      ForwardFar(days, start, m, a, n, b);
    } else if m < 0 && m + n < 0 && n > 0 {
      BackShort(days, start, m, a, n, b);
    } else if m < 0 && n > 0 {
      BackFar(days, start, m, a, n, b);
    }
  }

  /** Going n days and n days back returns to the start exactly when it is itself such a day. */
  lemma SumInverts(days: Days, start: Date, n: int, r: Date, back: Date)
    requires n != 0 && IsSum(days, start, n, r) && IsSum(days, r, -n, back)
    ensures back == start <==> days(start)
  {
    SumsCompose(days, start, n, r, -n, back);
  }

  /**
   * Counting from the start up to the n-th such day after it finds the n - 1 days between, and the
   * start if it is one.
   */
  lemma CountToSum(days: Days, start: Date, n: int, r: Date)
    requires n > 0 && IsSum(days, start, n, r)
    ensures CountIn(days, start, r) == n - 1 + if days(start) then 1 else 0
  {
    CountSplit(days, start, start + 1, r);
    CountSplit(days, start + 1, r, r + 1);
    CountOne(days, start);
    CountOne(days, r);
  }

  /** Adding undoes counting: a later date is the sum of the days counted up to it exactly when it is such a day. */
  lemma SumOfCount(days: Days, start: Date, d: Date)
    requires start < d
    ensures IsSum(days, start, CountIn(days, start + 1, d + 1), d) <==> days(d)
  {
    CountSplit(days, start + 1, d, d + 1);
    CountOne(days, d);
  }

  /** There is an n-th such day in the given direction. */
  ghost predicate HasSum(days: Days, start: Date, n: int) {
    exists r :: IsSum(days, start, n, r)
  }

  /** An n-th day exists exactly when some range from the start holds that many. */
  lemma {:induction false} SumFrom(days: Days, start: Date, n: int, d: Date) returns (r: Date)
    requires n > 0 && start <= d && CountIn(days, start + 1, d + 1) >= n
    ensures IsSum(days, start, n, r) && r <= d
    decreases d - start
  {
    CountSplit(days, start + 1, d, d + 1);
    CountOne(days, d);
    if CountIn(days, start + 1, d) >= n {
      r := SumFrom(days, start, n, d - 1);
    } else {
      r := d;
    }
  }

  lemma {:induction false} SumBack(days: Days, start: Date, n: int, d: Date) returns (r: Date)
    requires n > 0 && d <= start && CountIn(days, d, start) >= n
    ensures IsSum(days, start, -n, r) && d <= r
    decreases start - d
  {
    CountSplit(days, d, d + 1, start);
    CountOne(days, d);
    if CountIn(days, d + 1, start) >= n {
      r := SumBack(days, start, n, d + 1);
    } else {
      r := d;
    }
  }

  /** Stepping from the start, n such days have been passed at date `d`. */
  ghost predicate Passes(days: Days, start: Date, n: int, d: Date) {
    if n > 0 then start <= d && CountIn(days, start + 1, d + 1) == n else d <= start && CountIn(days, d, start) == -n
  }

  /** The stepping loop passes n such days at some date exactly when there is an n-th one. */
  lemma LoopEnds(days: Days, start: Date, n: int)
    requires n != 0
    ensures HasSum(days, start, n) <==> exists d :: Passes(days, start, n, d)
  {
    if r :| IsSum(days, start, n, r) {
      assert Passes(days, start, n, r);
    }
    if d :| Passes(days, start, n, d) {
      if n > 0 {
        var r := SumFrom(days, start, n, d);
      } else {
        var r := SumBack(days, start, -n, d);
      }
    }
  }

  /** Every year has such a day. */
  ghost predicate Workable(days: Days) {
    forall y: int :: HasDay(days, y)
  }

  ghost predicate HasDay(days: Days, y: int) {
    exists d :: InYear(d, y) && days(d)
  }

  /** If every year has such a day, every number of days can be added to every date. */
  lemma {:induction false} WorkableHasSum(days: Days, start: Date, n: int)
    requires Workable(days)
    ensures HasSum(days, start, n)
    decreases if n < 0 then -n else n
  {
    if n == 0 {
      assert IsSum(days, start, 0, start);
    } else {
      var step := if n > 0 then 1 else -1;
      WorkableHasSum(days, start, n - step);
      var a :| IsSum(days, start, n - step, a);
      assert HasDay(days, YearOf(a) + step);
      var d :| InYear(d, YearOf(a) + step) && days(d);
      CountOne(days, d);
      if n > 0 {
        CountSplit(days, a + 1, d, d + 1);
        var r := SumFrom(days, a, 1, d);
        SumsCompose(days, start, n - 1, a, 1, r);
      } else {
        CountSplit(days, d, d + 1, a);
        var r := SumBack(days, a, 1, d);
        SumsCompose(days, start, n + 1, a, -1, r);
      }
    }
  }

  // ------------------------------------------------------------------ business days of a jurisdiction

  predicate Known(configs: map<string, Config>, code: string) {
    code in configs && (NeedsFederal(configs, code) ==> FEDERAL in configs)
  }

  lemma KnownHasHolidays(configs: map<string, Config>, raw: RawDates, code: string, year: int)
    ensures HolidaysOf(configs, raw, code, year).Some? <==> Known(configs, code)
  {
  }

  predicate IsHoliday(configs: map<string, Config>, raw: RawDates, code: string, d: Date) {
    var r := HolidaysOf(configs, raw, code, YearOf(d));
    r.Some? && d in r.value
  }

  function BusinessDays(configs: map<string, Config>, raw: RawDates, code: string): Days {
    (d: Date) => !IsWeekend(d) && !IsHoliday(configs, raw, code, d)
  }

  /** A business day is a day from Monday to Friday on which no date of the files that count is kept. */
  lemma BusinessDayExactly(configs: map<string, Config>, raw: RawDates, code: string, d: Date)
    requires Known(configs, code)
    ensures BusinessDays(configs, raw, code)(d) <==>
            && Weekday(d) <= 4 && !OwnHoliday(configs, raw, code, YearOf(d), d)
            && (configs[code].usesFederal && "US-FEDERAL" in configs ==>
                  !OwnHoliday(configs, raw, "US-FEDERAL", YearOf(d), d))
  {
    HolidaysExactly(configs, raw, code, YearOf(d), d);
  }

  function HolidayDays(configs: map<string, Config>, raw: RawDates, code: string): Days {
    (d: Date) => IsHoliday(configs, raw, code, d)
  }

  function WeekendDays(): Days {
    (d: Date) => IsWeekend(d)
  }

  /** Exactly one of three. */
  ghost predicate OneOf(a: bool, b: bool, c: bool) {
    (a && !b && !c) || (!a && b && !c) || (!a && !b && c)
  }

  lemma {:induction false} CountPartition(a: Days, b: Days, c: Days, lo: Date, hi: Date)
    requires lo <= hi && forall d :: OneOf(a(d), b(d), c(d))
    ensures hi - lo == CountIn(a, lo, hi) + CountIn(b, lo, hi) + CountIn(c, lo, hi)
    decreases hi - lo
  {
    if lo < hi {
      CountPartition(a, b, c, lo, hi - 1);
      assert OneOf(a(hi - 1), b(hi - 1), c(hi - 1));
    }
  }

  /** Every day is exactly one of a business day, a weekend day and a holiday. */
  lemma DaysPartition(configs: map<string, Config>, raw: RawDates, code: string, lo: Date, hi: Date)
    requires lo <= hi
    ensures hi - lo == CountIn(BusinessDays(configs, raw, code), lo, hi) + CountIn(WeekendDays(), lo, hi)
                       + CountIn(HolidayDays(configs, raw, code), lo, hi)
  {
    forall d ensures OneOf(BusinessDays(configs, raw, code)(d), WeekendDays()(d), HolidayDays(configs, raw, code)(d)) {
      if IsHoliday(configs, raw, code, d) {
        HolidaysAreWeekdays(configs, raw, code, YearOf(d), d);
      }
    }
    CountPartition(BusinessDays(configs, raw, code), WeekendDays(), HolidayDays(configs, raw, code), lo, hi);
  }

  datatype DeadlineRecord = DeadlineRecord(start: Date, days: int, result: Date,
                                         jurisdiction: string, holidaysSkipped: seq<Date>)

  /** The days of a range, earliest first. */
  ghost function ListIn(days: Days, lo: Date, hi: Date): seq<Date>
    decreases hi - lo
  {
    if hi <= lo then [] else ListIn(days, lo, hi - 1) + if days(hi - 1) then [hi - 1] else []
  }

  /** The list so far, on the way from `lo` to `hi`. */
  ghost predicate Listed(days: Days, lo: Date, hi: Date, current: Date, s: seq<Date>) {
    if current <= hi then s == ListIn(days, lo, current) else s == ListIn(days, lo, hi)
  }

  lemma ListedStart(days: Days, lo: Date, hi: Date)
    ensures Listed(days, lo, hi, lo, [])
  {
  }

  lemma ListedEnd(days: Days, lo: Date, hi: Date, current: Date, s: seq<Date>)
    requires hi <= current && Listed(days, lo, hi, current, s)
    ensures s == ListIn(days, lo, hi)
  {
  }

  lemma ListInNext(days: Days, lo: Date, hi: Date, d: Date, s: seq<Date>, note: bool)
    requires lo <= d < hi && Listed(days, lo, hi, d, s) && note == days(d)
    ensures Listed(days, lo, hi, d + 1, s + if note then [d] else [])
  {
  }

  /** The list is strictly increasing, as long as the count, and holds exactly such days of the range. */
  lemma {:induction false} ListInMeans(days: Days, lo: Date, hi: Date)
    ensures var s := ListIn(days, lo, hi);
      && |s| == CountIn(days, lo, hi)
      && (forall d :: d in s <==> lo <= d < hi && days(d))
      && (forall i, j :: 0 <= i < j < |s| ==> s[i] < s[j])
    decreases hi - lo
  {
    if lo < hi {
      ListInMeans(days, lo, hi - 1);
      var rest := ListIn(days, lo, hi - 1);
      assert forall i :: 0 <= i < |rest| ==> rest[i] in rest;
    }
  }

  /** The dates a deadline of `days` from `start` passes over, as a half-open range. */
  function RangeOf(start: Date, days: int, result: Date): (Date, Date) {
    if days >= 0 then (start + 1, result + 1) else (result, start)
  }

  class Calendar {
    const registry: Registry

    ghost predicate Valid()
      reads this, registry
    {
      registry.Valid()
    }

    constructor (registry: Registry)
      requires registry.Valid()
      ensures Valid() && this.registry == registry
    {
      this.registry := registry;
    }

    /**
     * Looks at one day; holidays are looked up for weekdays only, and the lookup fails if the
     * federal ones are needed and missing.
     */
    method CheckDay(d: Date, code: string) returns (r: Option<bool>)
      requires Valid() && code in registry.configs
      modifies registry
      ensures Valid() && (r.None? <==> !IsWeekend(d) && !Known(registry.configs, code))
      ensures r.Some? ==> r.value == BusinessDays(registry.configs, registry.raw, code)(d)
    {
      if Weekday(d) >= 5 {
        return Some(false);
      }
      KnownHasHolidays(registry.configs, registry.raw, code, YearOf(d));
      var holidays := registry.GetHolidays(code, YearOf(d));
      return if holidays.None? then None else Some(d !in holidays.value);
    }

    method IsBusinessDay(d: Date, code: string) returns (r: Option<bool>)
      requires Valid()
      modifies registry
      ensures Valid()
      ensures r.None? <==> code !in registry.configs || (!IsWeekend(d) && !Known(registry.configs, code))
      ensures r.Some? ==> r.value == BusinessDays(registry.configs, registry.raw, code)(d)
    {
      if code !in registry.configs {
        return None;
      }
      r := CheckDay(d, code);
    }

    /**
     * Adds business days, forward or backward. Zero days need no jurisdiction. The loop ends because
     * there is an n-th business day to reach.
     */
    method Add(start: Date, days: int, code: string) returns (r: Option<Date>)
      requires Valid()
      requires Known(registry.configs, code) ==> HasSum(BusinessDays(registry.configs, registry.raw, code), start, days)
      modifies registry
      ensures Valid() && (r.None? <==> days != 0 && !Known(registry.configs, code))
      ensures r.Some? ==> IsSum(BusinessDays(registry.configs, registry.raw, code), start, days, r.value)
    {
      if days == 0 {
        return Some(start);
      }
      if code !in registry.configs {
        return None;
      }
      var step := if days > 0 then 1 else -1;
      r := Walk(start, step, if days > 0 then days else -days, code,
                BusinessDays(registry.configs, registry.raw, code));
    }

    /** Steps day by day until the given number of business days has been passed, or a lookup fails. */
    method Walk(start: Date, step: int, n: int, code: string, ghost days: Days) returns (r: Option<Date>)
      requires Valid() && code in registry.configs && (step == 1 || step == -1) && n > 0
      requires days == BusinessDays(registry.configs, registry.raw, code)
      requires Known(registry.configs, code) ==> HasSum(days, start, n * step)
      modifies registry
      ensures Valid() && (r.None? <==> !Known(registry.configs, code))
      ensures r.Some? ==> IsSum(days, start, n * step, r.value)
    {
      ghost var known := Known(registry.configs, code);
      ghost var goal := Goal(days, known, start, step, n);
      var remaining, current := n, start;
      while remaining > 0
        invariant Valid() && OnTheWay(days, known, start, step, n, remaining, current, goal)
        decreases Gap(current, goal, step)
      {
        var ok;
        ok, remaining, current := Pass(start, step, n, remaining, current, code, days, known, goal);
        if !ok {
          return None;
        }
      }
      Arrived(days, known, start, step, n, current, goal);
      return Some(current);
    }

    /** Goes one day further and counts it if it is a business day. */
    method Pass(ghost start: Date, step: int, ghost n: int, remaining: int, current: Date, code: string,
                ghost days: Days, ghost known: bool, ghost goal: Date)
      returns (ok: bool, remaining': int, current': Date)
      requires Valid() && code in registry.configs && (step == 1 || step == -1) && n > 0 && remaining > 0
      requires days == BusinessDays(registry.configs, registry.raw, code) && known == Known(registry.configs, code)
      requires OnTheWay(days, known, start, step, n, remaining, current, goal)
      modifies registry
      ensures Valid() && (!ok ==> !known) && current' == current + step
      ensures ok ==> OnTheWay(days, known, start, step, n, remaining', current', goal)
    {
      current' := current + step;
      var business := CheckDay(current', code);
      ok := business.Some?;
      remaining' := if ok && business.value then remaining - 1 else remaining;
      Stepped(days, known, start, step, n, remaining, current, goal, business);
    }

    /** Adds business days and records the holidays passed over; the calendar distance is fully accounted for. */
    method AddAudited(start: Date, days: int, code: string) returns (r: Option<DeadlineRecord>)
      requires Valid()
      requires Known(registry.configs, code) ==> HasSum(BusinessDays(registry.configs, registry.raw, code), start, days)
      modifies registry
      ensures Valid() && (r.None? <==> code !in registry.configs || (days != 0 && !Known(registry.configs, code)))
      ensures r.Some? ==>
        var (lo, hi) := RangeOf(start, days, r.value.result);
        && IsSum(BusinessDays(registry.configs, registry.raw, code), start, days, r.value.result)
        && r.value ==
           DeadlineRecord(start, days, r.value.result, code,
                          ListIn(HolidayDays(registry.configs, registry.raw, code), lo, hi))
        && Accounted(start, days, r.value.result, r.value.holidaysSkipped)
    {
      if code !in registry.configs {
        return None;
      }
      var sum :- Add(start, days, code);
      var (lo, hi) := RangeOf(start, days, sum);
      var skipped := [];
      if lo < hi {
        skipped := HolidaysBetween(lo, hi, code, HolidayDays(registry.configs, registry.raw, code));
      }
      DistanceAccounted(registry.configs, registry.raw, code, start, days, sum);
      return Some(DeadlineRecord(start, days, sum, code, skipped));
    }

    method IsHolidayDate(d: Date, code: string) returns (r: bool)
      requires Valid() && Known(registry.configs, code)
      modifies registry
      ensures Valid() && r == HolidayDays(registry.configs, registry.raw, code)(d)
    {
      KnownHasHolidays(registry.configs, registry.raw, code, YearOf(d));
      var holidays := registry.GetHolidays(code, YearOf(d));
      r := d in holidays.value;
    }

    method HolidaysBetween(lo: Date, hi: Date, code: string, ghost days: Days) returns (skipped: seq<Date>)
      requires Valid() && Known(registry.configs, code) && days == HolidayDays(registry.configs, registry.raw, code)
      modifies registry
      ensures Valid() && skipped == ListIn(days, lo, hi)
    {
      skipped := [];
      var current := lo;
      ListedStart(days, lo, hi);
      while current < hi
        invariant Valid() && lo <= current && Listed(days, lo, hi, current, skipped)
        decreases hi - current
      {
        skipped, current := NoteHoliday(skipped, lo, hi, current, code, days);
      }
      ListedEnd(days, lo, hi, current, skipped);
    }

    method NoteHoliday(skipped: seq<Date>, ghost lo: Date, ghost hi: Date, current: Date, code: string,
                       ghost days: Days)
      returns (skipped': seq<Date>, next: Date)
      requires Valid() && Known(registry.configs, code) && days == HolidayDays(registry.configs, registry.raw, code)
      requires lo <= current < hi && Listed(days, lo, hi, current, skipped)
      modifies registry
      ensures Valid() && next == current + 1 && Listed(days, lo, hi, next, skipped')
    {
      var holiday := IsHolidayDate(current, code);
      ListInNext(days, lo, hi, current, skipped, holiday);
      skipped', next := skipped + if holiday then [current] else [], current + 1;
    }

    /**
     * Counts the business days from `start` up to, but not including, `end`; a range without
     * weekdays needs no lookup.
     */
    method Count(start: Date, end: Date, code: string) returns (r: Option<nat>)
      requires Valid()
      modifies registry
      ensures Valid()
      ensures r.None? <==>
              start < end && (code !in registry.configs || (!Known(registry.configs, code) && HasWeekday(start, end)))
      ensures r.Some? ==> r.value == CountIn(BusinessDays(registry.configs, registry.raw, code), start, end)
    {
      if start >= end {
        return Some(0);
      }
      if code !in registry.configs {
        return None;
      }
      ghost var days, known := BusinessDays(registry.configs, registry.raw, code), Known(registry.configs, code);
      var count: nat, current := 0, start;
      while current < end
        invariant Valid() && start <= current <= end
        invariant Tallied(days, known, start, current, count)
      {
        var business := CheckDay(current, code);
        Tally(days, known, start, current, count, business);
        if business.None? {
          return None;
        }
        if business.value {
          count := count + 1;
        }
        current := current + 1;
      }
      return Some(count);
    }
  }

  ghost predicate HasWeekday(lo: Date, hi: Date) {
    exists d :: lo <= d < hi && !IsWeekend(d)
  }

  /** The count so far; without the federal holidays no weekday has been met. */
  ghost predicate Tallied(days: Days, known: bool, start: Date, current: Date, count: nat) {
    count == CountIn(days, start, current) && (known || !HasWeekday(start, current))
  }

  lemma Tally(days: Days, known: bool, start: Date, current: Date, count: nat, business: Option<bool>)
    requires start <= current && Tallied(days, known, start, current, count)
    requires business.None? <==> !IsWeekend(current) && !known
    requires business.Some? ==> business.value == days(current)
    ensures business.Some? ==> Tallied(days, known, start, current + 1, if business.value then count + 1 else count)
  {
  }

  /** How far ahead one date is of another in the given direction. */
  function Gap(from: Date, to: Date, step: int): int {
    if step == 1 then to - from else from - to
  }

  /** The days passed in the given direction, the last one included. */
  ghost function Behind(days: Days, start: Date, step: int, current: Date): nat {
    if step == 1 then CountIn(days, start + 1, current + 1) else CountIn(days, current, start)
  }

  /** The nearest weekday after, or before, a date. */
  function NearestWeekday(start: Date, step: int): (d: Date)
    requires step == 1 || step == -1
    ensures Gap(start, d, step) > 0 && !IsWeekend(d)
    ensures forall e :: Gap(start, e, step) > 0 && Gap(e, d, step) > 0 ==> IsWeekend(e)
  {
    if !IsWeekend(start + step) then start + step
    else if !IsWeekend(start + 2 * step) then start + 2 * step
    else start + 3 * step
  }

  /** Where the stepping loop ends: the n-th business day, or the first weekday, whose lookup fails. */
  ghost function Goal(days: Days, known: bool, start: Date, step: int, n: int): (d: Date)
    requires (step == 1 || step == -1) && n > 0 && (known ==> HasSum(days, start, n * step))
    ensures if known then IsSum(days, start, n * step, d) else d == NearestWeekday(start, step)
    ensures Gap(start, d, step) > 0
  {
    if known then var r :| IsSum(days, start, n * step, r); r else NearestWeekday(start, step)
  }

  /**
   * What holds while stepping: the days passed and the days left make up the request, and the goal
   * is not yet passed.
   */
  ghost predicate OnTheWay(days: Days, known: bool, start: Date, step: int, n: int, remaining: int, current: Date,
                           goal: Date) {
    && (step == 1 || step == -1) && 0 <= remaining <= n
    && Gap(start, current, step) >= 0 && Gap(current, goal, step) >= 0
    && (remaining > 0 ==> Gap(current, goal, step) > 0)
    && (if known then IsSum(days, start, n * step, goal) && Behind(days, start, step, current) + remaining == n
        else goal == NearestWeekday(start, step) && remaining == n)
  }

  lemma BehindStep(days: Days, start: Date, step: int, current: Date)
    requires (step == 1 || step == -1) && Gap(start, current, step) >= 0
    ensures Behind(days, start, step, current + step) ==
            Behind(days, start, step, current) + if days(current + step) then 1 else 0
  {
    if step == -1 {
      CountSplit(days, current - 1, current, start);
      CountOne(days, current - 1);
    }
  }

  lemma BehindGoal(days: Days, start: Date, step: int, n: int, current: Date, goal: Date)
    requires (step == 1 || step == -1) && n > 0 && IsSum(days, start, n * step, goal)
    requires Gap(start, current, step) >= 0 && Gap(current, goal, step) >= 0
    ensures Behind(days, start, step, current) <= n
    ensures Behind(days, start, step, current) == n <==> current == goal
  {
    if step == 1 {
      CountSplit(days, start + 1, current + 1, goal + 1);
      if current < goal {
        CountSplit(days, current + 1, goal, goal + 1);
        CountOne(days, goal);
      }
    } else {
      CountSplit(days, goal, current, start);
      if goal < current {
        CountSplit(days, goal, goal + 1, current);
        CountOne(days, goal);
      }
    }
  }

  /** One step goes nearer to the goal; a failing lookup means that the goal has been reached. */
  lemma Stepped(days: Days, known: bool, start: Date, step: int, n: int, remaining: int, current: Date, goal: Date,
                business: Option<bool>)
    requires n > 0 && remaining > 0 && OnTheWay(days, known, start, step, n, remaining, current, goal)
    requires business.None? <==> !IsWeekend(current + step) && !known
    requires business.Some? ==>
             business.value == days(current + step) && (IsWeekend(current + step) ==> !business.value)
    ensures business.Some? ==>
      OnTheWay(days, known, start, step, n, if business.value then remaining - 1 else remaining, current + step, goal)
  {
    if known {
      BehindStep(days, start, step, current);
      BehindGoal(days, start, step, n, current + step, goal);
    }
  }

  lemma Arrived(days: Days, known: bool, start: Date, step: int, n: int, current: Date, goal: Date)
    requires n > 0 && OnTheWay(days, known, start, step, n, 0, current, goal)
    ensures known && IsSum(days, start, n * step, current)
  {
    BehindGoal(days, start, step, n, current, goal);
  }

  /** Calendar days = business days + weekend days + holidays skipped. */
  ghost predicate Accounted(start: Date, days: int, result: Date, skipped: seq<Date>) {
    var (lo, hi) := RangeOf(start, days, result);
    (if days >= 0 then result - start else start - result)
    == (if days >= 0 then days else -days) + CountIn(WeekendDays(), lo, hi) + |skipped|
  }

  lemma DistanceAccounted(configs: map<string, Config>, raw: RawDates, code: string, start: Date, days: int,
                          result: Date)
    requires IsSum(BusinessDays(configs, raw, code), start, days, result)
    ensures var (lo, hi) := RangeOf(start, days, result);
      Accounted(start, days, result, ListIn(HolidayDays(configs, raw, code), lo, hi))
  {
    var (lo, hi) := RangeOf(start, days, result);
    DaysPartition(configs, raw, code, lo, hi);
    ListInMeans(HolidayDays(configs, raw, code), lo, hi);
  }
}
