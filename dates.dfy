/** Date resolution (cal.py lines 315-378, 470-494, 523-557): turning a DATE group into a
    datetime relative to the current moment `now`. */
module DateResolution {
  import opened Outcomes
  import opened Trees
  import opened Calendar
  import opened Lexicon
  import opened Tagging

  /** One noun after "next": a week moves seven days, a month one calendar month, any other
      noun nothing. */
  function NextStep(dt: DateTime, noun: string): (r: Result<DateTime>)
    requires Valid(dt)
    ensures r.Ok? ==> Valid(r.value) && r.value == dt.(date := r.value.date)
    ensures noun != "week" && noun != "month" ==> r == Ok(dt)
    ensures noun == "week" && r.Ok? ==> Ordinal(r.value.date) == Ordinal(dt.date) + 7
    ensures noun == "week" && r.Err? ==> r.error == OverflowError
    ensures noun == "month" && r.Ok? ==> r.value.date == AddMonths(dt.date, 1)
    ensures noun == "month" && r.Err? ==> r.error == ValueError
  {
    if noun == "week" then PlusDays(dt, 7)
    else if noun == "month" then PlusMonths(dt, 1)
    else Ok(dt)
  }

  /** The nouns after "next" applied left to right; the first failing step aborts. */
  function ApplyNextNouns(now: DateTime, nouns: seq<string>): (r: Result<DateTime>)
    requires Valid(now)
    ensures r.Ok? ==> Valid(r.value) && r.value == now.(date := r.value.date)
  {
    if nouns == [] then Ok(now)
    else
      var prev :- ApplyNextNouns(now, nouns[..|nouns| - 1]);
      NextStep(prev, nouns[|nouns| - 1])
  }

  /** Nouns other than "week" and "month" after "next" leave the moment unchanged. */
  lemma {:induction false} OtherNextNounsKeepNow(now: DateTime, nouns: seq<string>)
    requires Valid(now)
    requires forall i :: 0 <= i < |nouns| ==> nouns[i] != "week" && nouns[i] != "month"
    ensures ApplyNextNouns(now, nouns) == Ok(now)
  {
    if nouns != [] {
      OtherNextNounsKeepNow(now, nouns[..|nouns| - 1]);
    }
  }

  /** One entry of the unit dictionary: "day(s)" adds days, "week(s)" weeks, "month(s)" months,
      and "yearh"/"years" years. The singular "year" is not among them, so it moves nothing. */
  function UnitStep(dt: DateTime, entry: (string, int)): (r: Result<DateTime>)
    requires Valid(dt)
    ensures r.Ok? ==> Valid(r.value) && r.value == dt.(date := r.value.date)
    ensures (entry.0 == "day" || entry.0 == "days") && r.Ok? ==> Ordinal(r.value.date) == Ordinal(dt.date) + entry.1
    ensures (entry.0 == "week" || entry.0 == "weeks") && r.Ok? ==> Ordinal(r.value.date) == Ordinal(dt.date) + 7 * entry.1
    ensures (entry.0 == "month" || entry.0 == "months") && r.Ok? ==> r.value.date == AddMonths(dt.date, entry.1)
    ensures (entry.0 == "yearh" || entry.0 == "years") && r.Ok? ==> r.value.date == AddMonths(dt.date, 12 * entry.1)
    ensures entry.0 !in ["day", "days", "week", "weeks", "month", "months", "yearh", "years"] ==> r == Ok(dt)
  {
    var (unit, n) := entry;
    if unit == "day" || unit == "days" then PlusDays(dt, n)
    else if unit == "week" || unit == "weeks" then PlusDays(dt, 7 * n)
    else if unit == "month" || unit == "months" then PlusMonths(dt, n)
    else if unit == "yearh" || unit == "years" then PlusMonths(dt, 12 * n)
    else Ok(dt)
  }

  /** The unit dictionary applied entry by entry, in its iteration order. */
  function ApplyUnits(now: DateTime, entries: seq<(string, int)>): (r: Result<DateTime>)
    requires Valid(now)
    ensures r.Ok? ==> Valid(r.value) && r.value == now.(date := r.value.date)
  {
    if entries == [] then Ok(now)
    else
      var prev :- ApplyUnits(now, entries[..|entries| - 1]);
      UnitStep(prev, entries[|entries| - 1])
  }

  /** The order in which the unit dictionary is walked matters once months and years clamp the
      day: from 31 January 2023, a month then a year gives 28 February 2024, a year then a month
      29 February 2024. */
  lemma UnitOrderMatters()
    ensures var now := DateTime(Date(2023, 1, 31), 9, 0, 0);
      ApplyUnits(now, [("months", 1), ("years", 1)]) == Ok(DateTime(Date(2024, 2, 28), 9, 0, 0)) &&
      ApplyUnits(now, [("years", 1), ("months", 1)]) == Ok(DateTime(Date(2024, 2, 29), 9, 0, 0))
  {
    MonthThenYear();
    YearThenMonth();
  }

  lemma MonthThenYear()
    ensures ApplyUnits(DateTime(Date(2023, 1, 31), 9, 0, 0), [("months", 1), ("years", 1)]) ==
      Ok(DateTime(Date(2024, 2, 28), 9, 0, 0))
  {
    var now := DateTime(Date(2023, 1, 31), 9, 0, 0);
    var mid := DateTime(Date(2023, 2, 28), 9, 0, 0);
    assert AddMonths(now.date, 1) == mid.date;
    assert AddMonths(mid.date, 12) == Date(2024, 2, 28);
    assert ApplyUnits(now, [("months", 1)]) == Ok(mid) by {
      assert [("months", 1)][..0] == [];
    }
    assert [("months", 1), ("years", 1)][..1] == [("months", 1)];
  }

  lemma YearThenMonth()
    ensures ApplyUnits(DateTime(Date(2023, 1, 31), 9, 0, 0), [("years", 1), ("months", 1)]) ==
      Ok(DateTime(Date(2024, 2, 29), 9, 0, 0))
  {
    var now := DateTime(Date(2023, 1, 31), 9, 0, 0);
    var mid := DateTime(Date(2024, 1, 31), 9, 0, 0);
    assert AddMonths(now.date, 12) == mid.date;
    assert AddMonths(mid.date, 1) == Date(2024, 2, 29);
    assert ApplyUnits(now, [("years", 1)]) == Ok(mid) by {
      assert [("years", 1)][..0] == [];
    }
    assert [("years", 1), ("months", 1)][..1] == [("years", 1)];
  }

  /** A resolved moment as parse_date hands it on: found, or the error that stopped it. */
  function Found(x: Result<DateTime>): (r: Result<Option<DateTime>>)
    ensures r.Ok? <==> x.Ok?
    ensures r.Ok? ==> r.value == Some(x.value)
    ensures r.Err? ==> r.error == x.error
  {
    match x
    case Ok(d) => Ok(Some(d))
    case Err(e) => Err(e)
  }

  /** relative_date: "next <noun>" phrases first; otherwise the unit dictionary, where a
      "tomorrow" key means one day ahead whatever its number. */
  function RelativeDate(tree: Tree, now: DateTime): (r: Result<Option<DateTime>>)
    requires Valid(now)
    ensures r.Ok? && r.value.Some? ==> Valid(r.value.value)
    ensures ExtractDateUnits(tree).Err? && (ExtractRelativeUnits(tree).None? || ExtractRelativeUnits(tree).value == []) ==> r.Err?
    ensures ExtractRelativeUnits(tree).Some? && ExtractRelativeUnits(tree).value != [] ==>
      r == Found(ApplyNextNouns(now, ExtractRelativeUnits(tree).value))
    ensures (ExtractRelativeUnits(tree).None? || ExtractRelativeUnits(tree).value == []) && ExtractDateUnits(tree).Ok? ==>
      var units := ExtractDateUnits(tree).value;
      ("tomorrow" in Keys(units) ==> r == Found(PlusDays(now, 1))) &&
      (units == [] ==> r == Ok(None)) &&
      (units != [] && "tomorrow" !in Keys(units) ==> r == Found(ApplyUnits(now, units)))
  {
    var rel := ExtractRelativeUnits(tree);
    if rel.Some? && rel.value != [] then Found(ApplyNextNouns(now, rel.value))
    else
      match ExtractDateUnits(tree)
      case Err(e) => Err(e)
      case Ok(units) =>
        if "tomorrow" in Keys(units) then Found(PlusDays(now, 1))
        else if units == [] then Ok(None)
        else Found(ApplyUnits(now, units))
  }

  /** "next week" or "next month": a single noun after "next" is a single step from now. */
  lemma NextNounStep(tree: Tree, now: DateTime, noun: string)
    requires Valid(now)
    requires ExtractRelativeUnits(tree) == Some([noun])
    ensures RelativeDate(tree, now) == Found(NextStep(now, noun))
  {
    OneNoun(now, noun);
  }

  lemma OneNoun(now: DateTime, noun: string)
    requires Valid(now)
    ensures ApplyNextNouns(now, [noun]) == NextStep(now, noun)
  {
    assert [noun][..0] == [];
  }

  /** "in 3 days": a single entry in the unit dictionary, other than "tomorrow", is a single
      step from now. */
  lemma SingleUnitStep(tree: Tree, now: DateTime, entry: (string, int))
    requires Valid(now)
    requires ExtractRelativeUnits(tree).None? || ExtractRelativeUnits(tree).value == []
    requires ExtractDateUnits(tree) == Ok([entry]) && entry.0 != "tomorrow"
    ensures RelativeDate(tree, now) == Found(UnitStep(now, entry))
  {
    assert Keys([entry]) == [entry.0];
    OneUnit(now, entry);
  }

  lemma OneUnit(now: DateTime, entry: (string, int))
    requires Valid(now)
    ensures ApplyUnits(now, [entry]) == UnitStep(now, entry)
  {
    assert [entry][..0] == [];
  }

  /** Without "next" and without date nouns, there is no relative date (as long as the
      cardinals convert). */
  lemma NoRelativeWords(tree: Tree, now: DateTime)
    requires Valid(now)
    requires ExtractRelativeUnits(tree).None? || ExtractRelativeUnits(tree).value == []
    requires DateNouns(tree) == [] && NumbersOf(ExtractTag(tree, "CD")).Ok?
    ensures RelativeDate(tree, now) == Ok(None)
  {
    assert Zip(DateNouns(tree), NumbersOf(ExtractTag(tree, "CD")).value) == [];
  }

  /** A failed step stays failed whatever nouns follow it. */
  lemma {:induction false} NextNounsErrorPersists(now: DateTime, nouns: seq<string>, i: nat)
    requires Valid(now) && i <= |nouns|
    requires ApplyNextNouns(now, nouns[..i]).Err?
    ensures ApplyNextNouns(now, nouns) == ApplyNextNouns(now, nouns[..i])
    decreases |nouns| - i
  {
    if i < |nouns| {
      assert nouns[..i + 1][..i] == nouns[..i];
      NextNounsErrorPersists(now, nouns, i + 1);
    } else {
      assert nouns[..i] == nouns;
    }
  }

  lemma {:induction false} UnitsErrorPersists(now: DateTime, entries: seq<(string, int)>, i: nat)
    requires Valid(now) && i <= |entries|
    requires ApplyUnits(now, entries[..i]).Err?
    ensures ApplyUnits(now, entries) == ApplyUnits(now, entries[..i])
    decreases |entries| - i
  {
    if i < |entries| {
      assert entries[..i + 1][..i] == entries[..i];
      UnitsErrorPersists(now, entries, i + 1);
    } else {
      assert entries[..i] == entries;
    }
  }

  /** The loop over the nouns after "next", reassigning the running date. */
  method AdvanceByNouns(now: DateTime, nouns: seq<string>) returns (r: Result<DateTime>)
    requires Valid(now)
    ensures r == ApplyNextNouns(now, nouns)
  {
    var cur := now;
    for i := 0 to |nouns|
      invariant ApplyNextNouns(now, nouns[..i]) == Ok(cur)
    {
      assert nouns[..i + 1][..i] == nouns[..i];
      var next := NextStep(cur, nouns[i]);
      if next.Err? {
        NextNounsErrorPersists(now, nouns, i + 1);
        return next;
      }
      cur := next.value;
    }
    assert nouns[..|nouns|] == nouns;
    return Ok(cur);
  }

  /** The loop over the unit dictionary, reassigning the running date. */
  method AdvanceByUnits(now: DateTime, units: seq<(string, int)>) returns (r: Result<DateTime>)
    requires Valid(now)
    ensures r == ApplyUnits(now, units)
  {
    var cur := now;
    for i := 0 to |units|
      invariant ApplyUnits(now, units[..i]) == Ok(cur)
    {
      assert units[..i + 1][..i] == units[..i];
      var next := UnitStep(cur, units[i]);
      if next.Err? {
        UnitsErrorPersists(now, units, i + 1);
        return next;
      }
      cur := next.value;
    }
    assert units[..|units|] == units;
    return Ok(cur);
  }

  /** relative_date as the source runs it: `now` is reassigned once per noun or unit. */
  method ResolveRelativeDate(tree: Tree, now: DateTime) returns (r: Result<Option<DateTime>>)
    requires Valid(now)
    ensures r == RelativeDate(tree, now)
  {
    var rel := ExtractRelativeUnits(tree);
    if rel.Some? && rel.value != [] {
      var d :- AdvanceByNouns(now, rel.value);
      return Ok(Some(d));
    }
    var units :- ExtractDateUnits(tree);
    if "tomorrow" in Keys(units) {
      var d :- PlusDays(now, 1);
      return Ok(Some(d));
    }
    var d :- AdvanceByUnits(now, units);
    if units == [] {
      return Ok(None);
    }
    return Ok(Some(d));
  }

  /** The singular "year" is not a recognised unit (the source checks for "yearh"), while
      "years" adds twelve months per year. */
  lemma YearUnitTypo(dt: DateTime, n: int)
    requires Valid(dt)
    ensures UnitStep(dt, ("year", n)) == Ok(dt)
    ensures UnitStep(dt, ("yearh", n)) == UnitStep(dt, ("years", n)) == PlusMonths(dt, 12 * n)
  {
  }

  /** Without any cardinal in the group the unit dictionary is empty, so "tomorrow" on its own
      (and with no "next" phrase) resolves to nothing. */
  lemma TomorrowNeedsNumeral(tree: Tree, now: DateTime)
    requires Valid(now)
    requires ExtractRelativeUnits(tree).None? || ExtractRelativeUnits(tree).value == []
    requires ExtractTag(tree, "CD") == []
    ensures RelativeDate(tree, now) == Ok(None)
  {
    assert Zip(DateNouns(tree), []) == [];
  }

  /** Paired with a numeral, "tomorrow" means exactly one day ahead, whatever the numeral. */
  lemma TomorrowWithNumeral(tree: Tree, now: DateTime)
    requires Valid(now)
    requires ExtractRelativeUnits(tree).None? || ExtractRelativeUnits(tree).value == []
    requires ExtractDateUnits(tree).Ok? && "tomorrow" in Keys(ExtractDateUnits(tree).value)
    ensures RelativeDate(tree, now).Ok? ==>
      RelativeDate(tree, now).value.Some? && Ordinal(RelativeDate(tree, now).value.value.date) == Ordinal(now.date) + 1
  {
    var next := PlusDays(now, 1);
    assert RelativeDate(tree, now) == if next.Ok? then Ok(Some(next.value)) else Err(next.error);
  }

  /** next_day: the first day strictly after today that falls on `weekday`. */
  function NextDay(now: DateTime, weekday: int): (r: Result<DateTime>)
    requires Valid(now)
    ensures r.Ok? ==> Valid(r.value) && r.value == now.(date := r.value.date)
    ensures 0 <= weekday < 7 && r.Ok? ==>
      1 <= Ordinal(r.value.date) - Ordinal(now.date) <= 7 && Weekday(r.value.date) == weekday &&
      DateBefore(now.date, r.value.date)
    ensures 0 <= weekday < 7 && now.date.year < MaxYear ==> r.Ok?
    ensures r.Err? ==> r.error == OverflowError
  {
    var ahead := weekday - Weekday(now.date);
    var days := if ahead <= 0 then ahead + 7 else ahead;
    var r := PlusDays(now, days);
    if 0 <= weekday < 7 then
      NextDayLands(now.date, weekday, days);
      AddDaysYears(now.date, days);
      r
    else r
  }

  /** Moving `days` ahead, as next_day computes it, lands strictly later on the target weekday. */
  lemma NextDayLands(d: Date, weekday: int, days: int)
    requires WellFormed(d) && 0 <= weekday < 7
    requires days == (if weekday - Weekday(d) <= 0 then weekday - Weekday(d) + 7 else weekday - Weekday(d))
    ensures 1 <= days <= 7 && Weekday(AddDays(d, days)) == weekday && DateBefore(d, AddDays(d, days))
  {
    DaysAheadMod(Weekday(d), weekday, days);
    LandsOnWeekday(d, weekday, days);
    LaterByDays(d, days);
  }

  lemma LandsOnWeekday(d: Date, weekday: int, days: int)
    requires WellFormed(d) && 0 <= weekday < 7
    requires days == (if weekday - Weekday(d) <= 0 then weekday - Weekday(d) + 7 else weekday - Weekday(d))
    ensures Weekday(AddDays(d, days)) == weekday
  {
    DaysAheadMod(Weekday(d), weekday, days);
    WeekdayAddDays(d, days);
  }

  /** Moving forward by at least one day gives a later date. */
  lemma LaterByDays(d: Date, days: int)
    requires WellFormed(d) && 1 <= days
    ensures DateBefore(d, AddDays(d, days))
  {
    OrdinalOrder(d, AddDays(d, days));
  }

  lemma DaysAheadMod(w: int, weekday: int, days: int)
    requires 0 <= w < 7 && 0 <= weekday < 7
    requires days == (if weekday - w <= 0 then weekday - w + 7 else weekday - w)
    ensures 1 <= days <= 7 && (w + days) % 7 == weekday
  {
  }

  /** The `months_ahead` of next_month_date, for a target month `target` (1-based) and whether
      the requested day of the current month has already passed. */
  function MonthsAhead(nowMonth: int, target: int, passed: bool): (k: int)
    ensures 1 <= nowMonth <= 12 && 1 <= target <= 12 ==>
      0 <= k <= 12 && (nowMonth - 1 + k) % 12 == target - 1 && (k == 12 <==> target == nowMonth && passed)
  {
    var k := target - nowMonth;
    var k' := if k < 0 then k + 12 else k;
    if k' == 0 && passed then k' + 12 else k'
  }

  /** The month index that orders months across years. */
  function MonthIndex(d: Date): int {
    d.year * 12 + d.month
  }

  /** A later month is a later date. */
  lemma LaterMonth(a: Date, b: Date)
    requires WellFormed(a) && WellFormed(b) && MonthIndex(a) < MonthIndex(b)
    ensures DateBefore(a, b)
  {
  }

  /** next_month_date: `month` is 0-based, as extract_month yields. Python 2 orders every
      int below every list, so `date.day > <list>` is false: a number list from extract_date
      never counts as passed, and `replace(day=<list>)` raises TypeError. */
  function NextMonthDate(now: DateTime, month: int, day: DayNumbers): (r: Result<DateTime>)
    requires Valid(now)
    ensures r.Ok? ==> day.DayOfMonth? && Valid(r.value) && r.value.date.day == day.n
    ensures r.Ok? ==> r.value == now.(date := r.value.date)
    ensures day.NumberList? ==> r.Err?
    ensures 0 <= month < 12 && r.Ok? ==> r.value.date.month == month + 1 && !Before(r.value, now)
    ensures 0 <= month < 12 && r.Ok? ==> MonthIndex(r.value.date) - MonthIndex(now.date) <= 12
    ensures r.Ok? ==> MonthIndex(r.value.date) - MonthIndex(now.date) == MonthsAhead(now.date.month, month + 1, now.date.day > day.n)
    ensures day.DayOfMonth? && 0 <= month < 12 && now.date.year < MaxYear ==>
      var target := AddMonths(now.date, MonthsAhead(now.date.month, month + 1, now.date.day > day.n));
      (r.Ok? <==> 1 <= day.n <= DaysInMonth(target.year, target.month))
    ensures day.DayOfMonth? && 0 <= month < 12 && now.date.year < MaxYear && 1 <= day.n <= 28 ==> r.Ok?
    ensures day.DayOfMonth? && r.Err? ==> r.error == ValueError
  {
    match day
    case NumberList(_) =>
      var _ :- PlusMonths(now, MonthsAhead(now.date.month, month + 1, false));
      Err(TypeError)
    case DayOfMonth(n) =>
      var k := MonthsAhead(now.date.month, month + 1, now.date.day > n);
      AddMonthsYears(now.date, k);
      var moved :- PlusMonths(now, k);
      var r := WithDay(moved, n);
      if r.Ok? then NextMonthLands(now, month, n, r.value); r else r
  }

  /** Where next_month_date lands when both of its steps succeed. */
  lemma NextMonthLands(now: DateTime, month: int, n: int, t: DateTime)
    requires Valid(now)
    requires PlusMonths(now, MonthsAhead(now.date.month, month + 1, now.date.day > n)).Ok?
    requires WithDay(PlusMonths(now, MonthsAhead(now.date.month, month + 1, now.date.day > n)).value, n) == Ok(t)
    ensures Valid(t) && t.date.day == n && t == now.(date := t.date)
    ensures MonthIndex(t.date) - MonthIndex(now.date) == MonthsAhead(now.date.month, month + 1, now.date.day > n)
    ensures 0 <= month < 12 ==>
      t.date.month == month + 1 && !Before(t, now) && MonthIndex(t.date) - MonthIndex(now.date) <= 12
  {
    var k := MonthsAhead(now.date.month, month + 1, now.date.day > n);
    var moved := AddMonths(now.date, k);
    assert PlusMonths(now, k).value.date == moved;
    assert t == now.(date := moved.(day := n));
    if 0 <= month < 12 {
      if k > 0 {
        LaterMonth(now.date, t.date);
      } else {
        assert t.date.year == now.date.year && t.date.month == now.date.month && now.date.day <= n;
      }
    }
  }

  /** next_date: the requested day of this month, or of the next month when it has passed. */
  function NextDate(now: DateTime, day: DayNumbers): (r: Result<DateTime>)
    requires Valid(now)
    ensures r.Ok? ==> day.DayOfMonth? && Valid(r.value) && r.value.date.day == day.n
    ensures r.Ok? ==> r.value == now.(date := r.value.date) && !Before(r.value, now)
    ensures r.Ok? ==> day.DayOfMonth? && MonthIndex(r.value.date) - MonthIndex(now.date) == (if now.date.day > day.n then 1 else 0)
    ensures day.NumberList? ==> r == Err(TypeError)
    ensures day.DayOfMonth? && now.date.day <= day.n <= DaysInMonth(now.date.year, now.date.month) ==>
      r == Ok(now.(date := now.date.(day := day.n)))
    ensures (day.DayOfMonth? && 1 <= day.n < now.date.day && now.date.year < MaxYear &&
             day.n <= DaysInMonth(AddMonths(now.date, 1).year, AddMonths(now.date, 1).month)) ==>
      r == Ok(now.(date := AddMonths(now.date, 1).(day := day.n)))
    ensures day.DayOfMonth? && !(1 <= day.n <= 31) ==> r == Err(ValueError)
  {
    match day
    case NumberList(_) => Err(TypeError)
    case DayOfMonth(n) =>
      if now.date.day > n then
        AddMonthsYears(now.date, 1);
        var moved :- PlusMonths(now, 1);
        var r := WithDay(moved, n);
        if r.Ok? then LaterMonth(now.date, r.value.date); r else r
      else WithDay(now, n)
  }

  /** `int('20' + str(n))` when `str(n)` has two characters, `n` otherwise. */
  function ExpandYear(n: int): (r: Result<int>)
    ensures 0 <= n ==> r == Ok(if 10 <= n < 100 then 2000 + n else n)
  {
    if |DecimalText(n)| == 2 then
      match ParseInt("20" + DecimalText(n))
      case Some(y) => (if 0 <= n then TwentyPrefix(n); Ok(y) else Ok(y))
      case None => Err(ValueError)
    else Ok(n)
  }

  lemma TwentyPrefix(n: int)
    requires 10 <= n < 100
    ensures ParseInt("20" + DecimalText(n)) == Some(2000 + n)
  {
    var hi, lo := (('0' as int) + n / 10) as char, (('0' as int) + n % 10) as char;
    var s := "20" + DecimalText(n);
    assert DecimalText(n) == Digits(n / 10) + [lo];
    assert s == ['2', '0', hi, lo];
    assert AllDigits(s);
    assert s[..3] == ['2', '0', hi];
    assert s[..3][..2] == "20";
    assert "20"[..1] == "2";
    assert DigitsValue("2") == 2;
    assert DigitsValue("20") == 20;
    assert DigitsValue(s[..3]) == 200 + n / 10;
    assert DigitsValue(s) == 2000 + n;
  }

  /** extract_absolute_date: at most one NUM_DATE token; its word groups are read as day,
      month and, when there is a third, year (two-digit years become 20xx). */
  function ExtractAbsoluteDate(tree: Tree, now: DateTime): (r: Result<Option<DateTime>>)
    requires Valid(now)
    ensures |ExtractTag(tree, "NUM_DATE")| > 1 ==> r == Err(Raised("Found more then 1 date!"))
    ensures ExtractTag(tree, "NUM_DATE") == [] ==> r == Ok(None)
    ensures r.Ok? && r.value.Some? ==> Valid(r.value.value) && r.value.value == now.(date := r.value.value.date)
    ensures |ExtractTag(tree, "NUM_DATE")| == 1 ==>
      var fields := IntsOf(WordRuns(ExtractTag(tree, "NUM_DATE")[0]));
      (fields.Err? ==> r == Err(ValueError)) &&
      (fields.Ok? && |fields.value| != 2 && |fields.value| != 3 ==> r == Ok(None)) &&
      (r.Ok? && r.value.Some? ==>
        fields.Ok? && (|fields.value| == 2 || |fields.value| == 3) &&
        r.value.value.date.day == fields.value[0] && r.value.value.date.month == fields.value[1] &&
        (|fields.value| == 2 ==> r.value.value.date.year == now.date.year) &&
        (|fields.value| == 3 ==> ExpandYear(fields.value[2]) == Ok(r.value.value.date.year))) &&
      (fields.Ok? && |fields.value| == 2 ==>
        (r.Ok? <==> ValidDate(Date(now.date.year, fields.value[1], fields.value[0])))) &&
      (fields.Ok? && |fields.value| == 3 && ExpandYear(fields.value[2]).Ok? ==>
        (r.Ok? <==> ValidDate(Date(ExpandYear(fields.value[2]).value, fields.value[1], fields.value[0])))) &&
      (r.Err? ==> r.error == ValueError)
  {
    var dates := ExtractTag(tree, "NUM_DATE");
    if |dates| > 1 then Err(Raised("Found more then 1 date!"))
    else if |dates| == 0 then Ok(None)
    else
      match IntsOf(WordRuns(dates[0]))
      case Err(e) => Err(e)
      case Ok(nums) =>
        if |nums| == 2 then Found(WithDate(now, now.date.year, nums[1], nums[0]))
        else if |nums| == 3 then
          match ExpandYear(nums[2])
          case Err(e) => Err(e)
          case Ok(year) => Found(WithDate(now, year, nums[1], nums[0]))
        else Ok(None)
  }

  /** A single token tagged as a numeric date always yields a date, or the ValueError of a
      day or month out of range: never nothing. */
  lemma AbsoluteDateOfNumDate(tree: Tree, now: DateTime)
    requires Valid(now)
    requires |ExtractTag(tree, "NUM_DATE")| == 1 && IsNumDate(ExtractTag(tree, "NUM_DATE")[0])
    ensures ExtractAbsoluteDate(tree, now) != Ok(None)
    ensures ExtractAbsoluteDate(tree, now).Err? ==> ExtractAbsoluteDate(tree, now).error == ValueError
  {
    var w := ExtractTag(tree, "NUM_DATE")[0];
    NumDateGroups(w);
    var runs := WordRuns(w);
    var nums := IntsOf(runs);
    assert nums.Ok?;
    assert forall k :: 0 <= k < |runs| ==> 0 <= nums.value[k] by {
      forall k | 0 <= k < |runs| ensures 0 <= nums.value[k] {
        assert ParseInt(runs[k]) == Some(DigitsValue(runs[k]));
      }
    }
  }

  /** "25/12/24" is read day first: 25 December 2024, at the current clock time. */
  lemma ChristmasDate(tree: Tree, now: DateTime)
    requires Valid(now)
    requires ExtractTag(tree, "NUM_DATE") == ["25/12/24"]
    ensures ExtractAbsoluteDate(tree, now) == Ok(Some(now.(date := Date(2024, 12, 25))))
  {
    ChristmasRuns();
    ChristmasFields();
    assert IntsOf(WordRuns(ExtractTag(tree, "NUM_DATE")[0])) == Ok([25, 12, 24]);
    assert ExpandYear(24) == Ok(2024);
    assert WithDate(now, 2024, 12, 25) == Ok(now.(date := Date(2024, 12, 25)));
  }

  lemma ChristmasRuns()
    ensures WordRuns("25/12/24") == ["25", "12", "24"]
  {
    MonthYearRuns();
    WordRunsSplit("25", '/', "12/24");
    assert "25" + ['/'] + "12/24" == "25/12/24";
  }

  lemma MonthYearRuns()
    ensures WordRuns("12/24") == ["12", "24"]
  {
    WordRunsWhole("24");
    WordRunsSplit("12", '/', "24");
    assert "12" + ['/'] + "24" == "12/24";
  }

  lemma ChristmasFields()
    ensures IntsOf(["25", "12", "24"]) == Ok([25, 12, 24])
  {
    assert ParseInt("25") == Some(25) by { ParseIntOfDecimalText(25); assert DecimalText(25) == "25"; }
    assert ParseInt("12") == Some(12) by { ParseIntOfDecimalText(12); assert DecimalText(12) == "12"; }
    assert ParseInt("24") == Some(24) by { ParseIntOfDecimalText(24); assert DecimalText(24) == "24"; }
    var fields := IntsOf(["25", "12", "24"]);
    assert fields.value[0] == 25 && fields.value[1] == 12 && fields.value[2] == 24;
    assert fields.value == [25, 12, 24];
  }

  /** "05" as a year field is read as the int 5, whose text has one digit: the year is 5. */
  lemma LeadingZeroYear()
    ensures ParseInt("05") == Some(5) && ExpandYear(5) == Ok(5)
  {
    assert "05"[..1] == "0";
    assert DigitsValue("0") == 0;
    assert DigitsValue("05") == 5;
    assert DecimalText(5) == "5";
  }

  /** The last steps of parse_date, once neither a relative phrase nor a numeric date applied:
      a lone day number, then a lone weekday, then a month with a day number. */
  function FromNames(now: DateTime, months: seq<int>, days: seq<int>, dates: Option<DayNumbers>): (r: Result<Option<DateTime>>)
    requires Valid(now)
    ensures r.Ok? && r.value.Some? ==> Valid(r.value.value)
    ensures ((forall i :: 0 <= i < |months| ==> 0 <= months[i] < 12) && (forall i :: 0 <= i < |days| ==> 0 <= days[i] < 7) &&
             r.Ok? && r.value.Some?) ==> !Before(r.value.value, now)
    ensures dates.None? && (months != [] || days == []) ==> r == Ok(None)
    ensures months == [] && dates.Some? ==> r == Found(NextDate(now, dates.value))
    ensures months == [] && dates.None? && days != [] ==> r == Found(NextDay(now, days[0]))
    ensures months != [] && dates.Some? ==> r == Found(NextMonthDate(now, months[0], dates.value))
  {
    if months == [] && dates.Some? then
      var d :- NextDate(now, dates.value);
      Ok(Some(d))
    else if months == [] && dates.None? && days != [] then
      var d :- NextDay(now, days[0]);
      (if 0 <= days[0] < 7 then OrdinalOrder(now.date, d.date); Ok(Some(d)) else Ok(Some(d)))
    else if months != [] && dates.Some? then
      var d :- NextMonthDate(now, months[0], dates.value);
      Ok(Some(d))
    else Ok(None)
  }

  /** A date resolved from month and weekday names never lies before now. */
  lemma NamesNotPast(now: DateTime, names: seq<string>, dates: Option<DayNumbers>)
    requires Valid(now)
    ensures var r := FromNames(now, LookupAll(MonthNumbers, names), LookupAll(WeekdayNumbers, names), dates);
      r.Ok? && r.value.Some? ==> !Before(r.value.value, now)
  {
    MonthNumbersRange(names);
    WeekdayNumbersRange(names);
  }

  /** parse_date: a relative phrase wins; otherwise months, weekdays, the day number and the
      numeric date are all extracted (in that order, so their errors come in that order), and
      a numeric date wins over the names. */
  function ParsedDate(tree: Tree, now: DateTime): (r: Result<Option<DateTime>>)
    requires Valid(now)
    ensures r.Ok? && r.value.Some? ==> Valid(r.value.value)
    ensures RelativeDate(tree, now).Ok? && RelativeDate(tree, now).value.Some? ==> r == RelativeDate(tree, now)
    ensures RelativeDate(tree, now) == Ok(None) && ExtractTag(tree, "NUM_DATE") == [] && r.Ok? && r.value.Some? ==>
      !Before(r.value.value, now)
  {
    var rel :- RelativeDate(tree, now);
    if rel.Some? then Ok(rel)
    else
      var months := LookupAll(MonthNumbers, ExtractTag(tree, "NNP"));
      var days := LookupAll(WeekdayNumbers, ExtractTag(tree, "NNP"));
      var dates :- ExtractDate(tree);
      var absolute :- ExtractAbsoluteDate(tree, now);
      if absolute.Some? then Ok(absolute)
      else
        NamesNotPast(now, ExtractTag(tree, "NNP"), dates);
        FromNames(now, months, days, dates)
  }

  /** parse_date, calling the extractors as the source does. */
  method ParseDate(tree: Tree, now: DateTime) returns (r: Result<Option<DateTime>>)
    requires Valid(now)
    ensures r == ParsedDate(tree, now)
  {
    var rel :- ResolveRelativeDate(tree, now);
    if rel.Some? {
      return Ok(rel);
    }
    var months := ExtractMonth(tree);
    var days := ExtractDay(tree);
    var dates :- ExtractDate(tree);
    var absolute :- ExtractAbsoluteDate(tree, now);
    if absolute.Some? {
      return Ok(absolute);
    }
    r := ResolveFromNames(now, months, days, dates);
  }

  /** The tail of parse_date: a day number, a weekday or a month with a day number. */
  method ResolveFromNames(now: DateTime, months: seq<int>, days: seq<int>, dates: Option<DayNumbers>)
    returns (r: Result<Option<DateTime>>)
    requires Valid(now)
    ensures r == FromNames(now, months, days, dates)
  {
    if months == [] && dates.Some? {
      var d :- NextDate(now, dates.value);
      return Ok(Some(d));
    }
    if months == [] && dates.None? && days != [] {
      var d :- NextDay(now, days[0]);
      return Ok(Some(d));
    }
    if months != [] && dates.Some? {
      var d :- NextMonthDate(now, months[0], dates.value);
      return Ok(Some(d));
    }
    return Ok(None);
  }

  /** extract_date runs before extract_absolute_date, so two adjectives raise even when the
      group also holds a numeric date. */
  lemma SecondAdjectiveRaises(tree: Tree, now: DateTime)
    requires Valid(now)
    requires RelativeDate(tree, now) == Ok(None)
    requires |ExtractTag(tree, "JJ")| > 1
    ensures ParsedDate(tree, now) == Err(Raised("Found more than 1 date!"))
  {
  }

  /** A numeric date overrides any month, weekday or day number in the same group. */
  lemma NumericDateWins(tree: Tree, now: DateTime)
    requires Valid(now)
    requires RelativeDate(tree, now) == Ok(None) && ExtractDate(tree).Ok?
    requires ExtractAbsoluteDate(tree, now).Ok? && ExtractAbsoluteDate(tree, now).value.Some?
    ensures ParsedDate(tree, now) == ExtractAbsoluteDate(tree, now)
  {
  }

  /** Without a relative phrase or a numeric date, parse_date is the cascade over the names. */
  lemma ParsedDateFromNames(tree: Tree, now: DateTime)
    requires Valid(now)
    requires RelativeDate(tree, now) == Ok(None) && ExtractDate(tree).Ok?
    requires ExtractAbsoluteDate(tree, now) == Ok(None)
    ensures ParsedDate(tree, now) ==
      FromNames(now, LookupAll(MonthNumbers, ExtractTag(tree, "NNP")), LookupAll(WeekdayNumbers, ExtractTag(tree, "NNP")), ExtractDate(tree).value)
  {
  }

  /** "next" tagged as an adjective is taken for a day of the month as well: once the
      relative phrase yields nothing, the group's one adjective is handed to int() and fails. */
  lemma NextAdjectiveRaises(tree: Tree, now: DateTime)
    requires Valid(now)
    requires ExtractTag(tree, "JJ") == ["next"]
    requires ExtractTag(tree, "NN") == [] && ExtractTag(tree, "NNS") == [] && ExtractTag(tree, "CD") == []
    ensures ParsedDate(tree, now) == Err(ValueError)
  {
    NoRelativeWords(tree, now);
    NextIsNoNumber();
    assert ExtractDate(tree) == Err(ValueError);
  }

  lemma NextIsNoNumber()
    ensures ParseInt(StripOrdinalSuffix("next")) == None
  {
    var next := "next";
    RemoveAllAfter(next[..3], next[3..], "th");
    assert next[..3] + next[3..] == next;
    RemoveAllAfter(next, [], "st");
    RemoveAllAfter(next[1..], [], "nd");
    assert next[..2] != "nd";
    RemoveAllAfter(next, [], "rd");
    assert next + [] == next && next[1..] + [] == next[1..];
    assert StripOrdinalSuffix(next) == next;
  }

  /** "next Tuesday", chunked as an adjective before a proper noun, raises rather than
      resolving to the coming weekday. */
  lemma NextWeekdayRaises(now: DateTime, weekday: string)
    requires Valid(now)
    ensures ParsedDate(Node("DATE", [Leaf("next", "JJ"), Leaf(weekday, "NNP")]), now) == Err(ValueError)
  {
    var words := [Leaf("next", "JJ"), Leaf(weekday, "NNP")];
    assert words[1..] == [Leaf(weekday, "NNP")] && words[1..][1..] == [];
    forall tag | tag != "NNP"
      ensures ExtractTag(Node("DATE", words), tag) == if tag == "JJ" then ["next"] else []
    {
      assert ExtractTagAll(words[1..], tag) == [];
    }
    NextAdjectiveRaises(Node("DATE", words), now);
  }
}
