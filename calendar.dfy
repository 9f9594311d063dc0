/** Proleptic Gregorian dates and naive datetimes as Python's `datetime` module treats them, and
    the month arithmetic of `dateutil.relativedelta`. Every operation that Python would refuse
    (a field out of range, a result outside years 1..9999) yields an `Err`. */
module Calendar {
  import opened Outcomes

  const MinYear := 1
  const MaxYear := 9999
  const MicrosPerMinute := 60000000

  datatype Date = Date(year: int, month: int, day: int)

  /** A naive `datetime`; `micros` is seconds * 1000000 + microseconds within the minute. */
  datatype DateTime = DateTime(date: Date, hour: int, minute: int, micros: int)

  predicate IsLeapYear(y: int) {
    y % 4 == 0 && (y % 100 != 0 || y % 400 == 0)
  }

  function DaysInMonth(y: int, m: int): (n: int)
    requires 1 <= m <= 12
    ensures 28 <= n <= 31
    ensures m == 2 ==> (n == 29 <==> IsLeapYear(y))
  {
    if m == 2 then (if IsLeapYear(y) then 29 else 28)
    else if m == 4 || m == 6 || m == 9 || m == 11 then 30
    else 31
  }

  function YearLength(y: int): int {
    if IsLeapYear(y) then 366 else 365
  }

  /** A calendar day, whatever its year. */
  predicate WellFormed(d: Date) {
    1 <= d.month <= 12 && 1 <= d.day <= DaysInMonth(d.year, d.month)
  }

  /** A day Python's `date` can hold. */
  predicate ValidDate(d: Date) {
    WellFormed(d) && MinYear <= d.year <= MaxYear
  }

  predicate Valid(dt: DateTime) {
    ValidDate(dt.date) && 0 <= dt.hour < 24 && 0 <= dt.minute < 60 && 0 <= dt.micros < MicrosPerMinute
  }

  /** Days in the years before `y` (as in Python's `date.toordinal`). */
  function DaysBeforeYear(y: int): int {
    var p := y - 1;
    365 * p + p / 4 - p / 100 + p / 400
  }

  /** Days in the months of year `y` before month `m`. */
  function DaysBeforeMonth(y: int, m: int): int
    requires 1 <= m <= 12
  {
    var common :=
      if m == 1 then 0 else if m == 2 then 31 else if m == 3 then 59 else if m == 4 then 90
      else if m == 5 then 120 else if m == 6 then 151 else if m == 7 then 181 else if m == 8 then 212
      else if m == 9 then 243 else if m == 10 then 273 else if m == 11 then 304 else 334;
    common + if m > 2 && IsLeapYear(y) then 1 else 0
  }

  /** Python's `date.toordinal`: 1 January of year 1 is day 1. */
  function Ordinal(d: Date): int
    requires WellFormed(d)
  {
    DaysBeforeYear(d.year) + DaysBeforeMonth(d.year, d.month) + d.day
  }

  /** Python's `date.weekday`: Monday is 0, Sunday is 6 (1 January of year 1 was a Monday). */
  function Weekday(d: Date): (w: int)
    requires WellFormed(d)
    ensures 0 <= w < 7
  {
    (Ordinal(d) + 6) % 7
  }

  /** Known days anchor the week: 1 January of year 1 and 1 January 2024 were Mondays, 17 March
      2024 a Sunday and 16 March 2024 a Saturday. */
  lemma WeekdayAnchors()
    ensures Weekday(Date(1, 1, 1)) == 0
    ensures Weekday(Date(2024, 1, 1)) == 0
    ensures Weekday(Date(2024, 3, 16)) == 5
    ensures Weekday(Date(2024, 3, 17)) == 6
  {
  }

  lemma YearStep(y: int)
    ensures DaysBeforeYear(y + 1) == DaysBeforeYear(y) + YearLength(y)
  {
    assert y / 4 - (y - 1) / 4 == if y % 4 == 0 then 1 else 0;
    assert y / 100 - (y - 1) / 100 == if y % 100 == 0 then 1 else 0;
    assert y / 400 - (y - 1) / 400 == if y % 400 == 0 then 1 else 0;
  }

  /** The day after `d`. */
  function DayAfter(d: Date): (r: Date)
    requires WellFormed(d)
    ensures WellFormed(r) && Ordinal(r) == Ordinal(d) + 1
  {
    if d.day < DaysInMonth(d.year, d.month) then d.(day := d.day + 1)
    else if d.month < 12 then Date(d.year, d.month + 1, 1)
    else YearStep(d.year); Date(d.year + 1, 1, 1)
  }

  /** The day before `d`. */
  function DayBefore(d: Date): (r: Date)
    requires WellFormed(d)
    ensures WellFormed(r) && Ordinal(r) == Ordinal(d) - 1
  {
    if d.day > 1 then d.(day := d.day - 1)
    else if d.month > 1 then Date(d.year, d.month - 1, DaysInMonth(d.year, d.month - 1))
    else YearStep(d.year - 1); Date(d.year - 1, 12, 31)
  }

  /** `d + timedelta(days=k)`, before the year range is checked. */
  function AddDays(d: Date, k: int): (r: Date)
    requires WellFormed(d)
    ensures WellFormed(r) && Ordinal(r) == Ordinal(d) + k
    decreases if k < 0 then -k else k
  {
    if k == 0 then d
    else if k > 0 then AddDays(DayAfter(d), k - 1)
    else AddDays(DayBefore(d), k + 1)
  }

  /** Adding days moves the weekday round the week by the same amount. */
  lemma WeekdayAddDays(d: Date, k: int)
    requires WellFormed(d)
    ensures Weekday(AddDays(d, k)) == (Weekday(d) + k) % 7
  {
    var o := Ordinal(d) + 6;
    assert o == 7 * (o / 7) + o % 7;
    ModSevenShift(o / 7, o % 7 + k);
  }

  lemma ModSevenShift(q: int, x: int)
    ensures (7 * q + x) % 7 == x % 7
  {
  }

  /** `d + relativedelta(months=k)`, before the year range is checked: the month moves by `k`
      (carrying into the year), and the day is clamped to the length of the new month. */
  function AddMonths(d: Date, k: int): (r: Date)
    requires WellFormed(d)
    ensures WellFormed(r)
    ensures r.year * 12 + r.month == d.year * 12 + d.month + k
    ensures r.day <= d.day && (r.day == d.day || r.day == DaysInMonth(r.year, r.month))
  {
    var index := d.year * 12 + (d.month - 1) + k;
    var y, m := index / 12, index % 12 + 1;
    Date(y, m, if d.day <= DaysInMonth(y, m) then d.day else DaysInMonth(y, m))
  }

  /** Date order, compared field by field as Python compares dates. */
  predicate DateBefore(a: Date, b: Date) {
    a.year < b.year || (a.year == b.year && (a.month < b.month || (a.month == b.month && a.day < b.day)))
  }

  /** Datetime order, compared field by field as Python compares datetimes. */
  predicate Before(a: DateTime, b: DateTime) {
    DateBefore(a.date, b.date) ||
    (a.date == b.date &&
      (a.hour < b.hour || (a.hour == b.hour &&
        (a.minute < b.minute || (a.minute == b.minute && a.micros < b.micros)))))
  }

  /** `Before` is a strict total order, as datetime comparison is. */
  lemma BeforeIsStrictTotalOrder(a: DateTime, b: DateTime, c: DateTime)
    ensures !Before(a, a)
    ensures Before(a, b) ==> !Before(b, a)
    ensures Before(a, b) && Before(b, c) ==> Before(a, c)
    ensures a != b ==> Before(a, b) || Before(b, a)
  {
  }

  lemma {:induction false} DaysBeforeYearGrows(y1: int, y2: int)
    requires y1 < y2
    ensures DaysBeforeYear(y1) + YearLength(y1) <= DaysBeforeYear(y2)
    decreases y2 - y1
  {
    YearStep(y1);
    if y1 + 1 < y2 {
      DaysBeforeYearGrows(y1 + 1, y2);
    }
  }

  /** The ordinal orders days exactly as the calendar does, and tells different days apart. */
  lemma OrdinalOrder(a: Date, b: Date)
    requires WellFormed(a) && WellFormed(b)
    ensures DateBefore(a, b) <==> Ordinal(a) < Ordinal(b)
    ensures a == b <==> Ordinal(a) == Ordinal(b)
  {
    if a.year < b.year {
      DaysBeforeYearGrows(a.year, b.year);
    } else if b.year < a.year {
      DaysBeforeYearGrows(b.year, a.year);
    }
  }

  /** `dt + timedelta(days=k)`; OverflowError outside years 1..9999. */
  function PlusDays(dt: DateTime, k: int): (r: Result<DateTime>)
    requires WellFormed(dt.date)
    ensures r.Ok? <==> MinYear <= AddDays(dt.date, k).year <= MaxYear
    ensures r.Ok? ==> ValidDate(r.value.date) && Ordinal(r.value.date) == Ordinal(dt.date) + k
    ensures r.Ok? ==> r.value == dt.(date := r.value.date)
    ensures r.Err? ==> r.error == OverflowError
  {
    var d := AddDays(dt.date, k);
    if MinYear <= d.year <= MaxYear then Ok(dt.(date := d)) else Err(OverflowError)
  }

  /** Up to a year of days ahead stays in the same year or reaches the next one. */
  lemma AddDaysYears(d: Date, k: int)
    requires WellFormed(d) && 0 <= k <= 365
    ensures d.year <= AddDays(d, k).year <= d.year + 1
  {
    var r := AddDays(d, k);
    if r.year < d.year {
      OrdinalOrder(r, d);
      assert false;
    }
    if r.year > d.year + 1 {
      LastDayOfYear(d);
      LastDayOfYear(Date(d.year + 1, 1, 1));
      OrdinalOrder(Date(d.year + 1, 12, 31), r);
      assert false;
    }
  }

  /** No day of a year comes after its 31 December, which ends the year's count of days. */
  lemma LastDayOfYear(d: Date)
    requires WellFormed(d)
    ensures Ordinal(d) <= Ordinal(Date(d.year, 12, 31)) == DaysBeforeYear(d.year + 1)
  {
    OrdinalOrder(d, Date(d.year, 12, 31));
    YearStep(d.year);
  }

  /** Up to a year of months ahead stays in the same year or reaches the next one. */
  lemma AddMonthsYears(d: Date, k: int)
    requires WellFormed(d)
    ensures 0 <= k <= 12 ==> d.year <= AddMonths(d, k).year <= d.year + 1
  {
    var r := AddMonths(d, k);
    assert r.year * 12 + r.month == d.year * 12 + d.month + k;
  }

  /** `dt + relativedelta(months=k)`; ValueError outside years 1..9999. */
  function PlusMonths(dt: DateTime, k: int): (r: Result<DateTime>)
    requires WellFormed(dt.date)
    ensures r.Ok? <==> MinYear <= AddMonths(dt.date, k).year <= MaxYear
    ensures r.Ok? ==> ValidDate(r.value.date) && r.value == dt.(date := AddMonths(dt.date, k))
    ensures r.Err? ==> r.error == ValueError
  {
    var d := AddMonths(dt.date, k);
    if MinYear <= d.year <= MaxYear then Ok(dt.(date := d)) else Err(ValueError)
  }

  /** Minutes elapsed since the start of the ordinal calendar. */
  function MinuteStamp(dt: DateTime): int
    requires WellFormed(dt.date)
  {
    Ordinal(dt.date) * 1440 + dt.hour * 60 + dt.minute
  }

  /** `dt + timedelta(minutes=k)` for a datetime whose clock fields are in range. */
  function PlusMinutes(dt: DateTime, k: int): (r: Result<DateTime>)
    requires Valid(dt)
    ensures r.Ok? ==> Valid(r.value) && r.value.micros == dt.micros
    ensures r.Ok? ==> MinuteStamp(r.value) == MinuteStamp(dt) + k
    ensures 0 <= dt.hour * 60 + dt.minute + k < 1440 ==> r.Ok? && r.value.date == dt.date
    ensures dt.date.year < MaxYear && 0 <= k <= 1440 ==> r.Ok?
    ensures r.Err? ==> r.error == OverflowError
  {
    var total := dt.hour * 60 + dt.minute + k;
    var d := AddDays(dt.date, total / 1440);
    var rest := total % 1440;
    var r := if MinYear <= d.year <= MaxYear then Ok(DateTime(d, rest / 60, rest % 60, dt.micros))
      else Err(OverflowError);
    if 0 <= k <= 1440 then AddDaysYears(dt.date, total / 1440); r else r
  }

  /** `dt.replace(day=day)`, restating the documented behaviour of Python's `datetime.replace`
      (the library itself is not part of this model). */
  function WithDay(dt: DateTime, day: int): (r: Result<DateTime>)
    requires Valid(dt)
    ensures r.Ok? <==> 1 <= day <= DaysInMonth(dt.date.year, dt.date.month)
    ensures r.Ok? ==> Valid(r.value) && r.value.date.day == day
    ensures r.Ok? ==> r.value == dt.(date := dt.date.(day := day))
  {
    if 1 <= day <= DaysInMonth(dt.date.year, dt.date.month) then Ok(dt.(date := dt.date.(day := day)))
    else Err(ValueError)
  }

  /** `dt.replace(year=year, month=month, day=day)`, restating the documented behaviour of
      Python's `datetime.replace`. */
  function WithDate(dt: DateTime, year: int, month: int, day: int): (r: Result<DateTime>)
    requires Valid(dt)
    ensures r.Ok? <==> ValidDate(Date(year, month, day))
    ensures r.Ok? ==> Valid(r.value) && r.value == dt.(date := Date(year, month, day))
  {
    if MinYear <= year <= MaxYear && 1 <= month <= 12 && 1 <= day <= DaysInMonth(year, month)
    then Ok(dt.(date := Date(year, month, day)))
    else Err(ValueError)
  }

  /** `dt.replace(hour=hour, minute=minute, second=0, microsecond=0)`, restating the documented
      behaviour of Python's `datetime.replace`. */
  function AtClock(dt: DateTime, hour: int, minute: int): (r: Result<DateTime>)
    requires Valid(dt)
    ensures r.Ok? <==> 0 <= hour < 24 && 0 <= minute < 60
    ensures r.Ok? ==> Valid(r.value) && r.value == DateTime(dt.date, hour, minute, 0)
  {
    if 0 <= hour < 24 && 0 <= minute < 60 then Ok(DateTime(dt.date, hour, minute, 0))
    else Err(ValueError)
  }
}
