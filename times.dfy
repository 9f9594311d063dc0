/** Time resolution (cal.py lines 143-313): turning a TIME group into a clock time on today's
    date, or tomorrow's when that time has already passed. */
module TimeResolution {
  import opened Outcomes
  import opened Trees
  import opened Calendar
  import opened Lexicon

  /** exrt_meridiem's result: -1 (before noon), 1 (after noon) or 0 (not said). */
  datatype Meridiem = Am | Pm | Unspecified

  const AmNouns: seq<string> := ["am", "morning"]
  const PmNouns: seq<string> := ["pm", "afternoon", "evening"]

  /** One of `words` occurs in the group as a singular noun. */
  ghost predicate Mentions(tree: Tree, words: seq<string>) {
    exists w :: w in words && SubtreeOf(Leaf(w, "NN"), tree)
  }

  /** exrt_meridiem: am if a morning noun occurs, pm if an afternoon noun occurs, and an
      exception if both do. */
  function ExrtMeridiem(tree: Tree): (r: Result<Meridiem>)
    ensures r.Err? <==> Mentions(tree, AmNouns) && Mentions(tree, PmNouns)
    ensures r.Err? ==> r.error == Raised("Can not be both before and after noon")
    ensures r == Ok(Am) <==> Mentions(tree, AmNouns) && !Mentions(tree, PmNouns)
    ensures r == Ok(Pm) <==> !Mentions(tree, AmNouns) && Mentions(tree, PmNouns)
    ensures r == Ok(Unspecified) <==> !Mentions(tree, AmNouns) && !Mentions(tree, PmNouns)
  {
    var nouns := ExtractTag(tree, "NN");
    var am := exists w | w in AmNouns :: w in nouns;
    var pm := exists w | w in PmNouns :: w in nouns;
    if am && pm then Err(Raised("Can not be both before and after noon"))
    else if am then Ok(Am)
    else if pm then Ok(Pm)
    else Ok(Unspecified)
  }

  /** working_hours: an hour before 6 is taken to be in the afternoon. */
  function WorkingHours(hours: int, mins: int): (r: (int, int))
    ensures r.1 == mins
    ensures r.0 == hours || r.0 == hours + 12
    ensures 0 <= hours < 12 ==> 6 <= r.0 < 18
    ensures 6 <= hours ==> r.0 == hours
  {
    if hours < 6 then (hours + 12, mins) else (hours, mins)
  }

  /** The minutes of a proposed time: the second number of a pair, otherwise 0. */
  function MinuteOf(time: seq<int>): int {
    if |time| == 2 then time[1] else 0
  }

  /** to_24_hour: the proposed hour and minute on today's date, adjusted by the meridiem. With
      no meridiem: the pm reading if the date is not in the future and the pm reading is still
      ahead; working hours if the date is in the future; the hour as given otherwise. */
  function ToTwentyFourHour(now: DateTime, meridiem: Meridiem, time: seq<int>, date: DateTime): (r: Result<DateTime>)
    requires Valid(now)
    ensures time == [] ==> r == Err(IndexError)
    ensures time != [] && time[0] > 12 && meridiem == Am ==> r == Err(Raised("time is am however hours > 12"))
    ensures r.Ok? ==> Valid(r.value) && r.value.date == now.date && r.value.micros == 0 && r.value.minute == MinuteOf(time)
    ensures r.Ok? && (meridiem == Am || time[0] > 12) ==> r.value.hour == time[0]
    ensures r.Ok? && meridiem == Pm && time[0] <= 12 ==> r.value.hour == time[0] + 12
    ensures time != [] && meridiem == Pm && time[0] == 12 ==> r == Err(ValueError)
    ensures r.Ok? && meridiem == Unspecified && time[0] <= 12 && Before(now, date) ==>
      r.value.hour == WorkingHours(time[0], MinuteOf(time)).0
    ensures r.Ok? && meridiem == Unspecified && time[0] <= 12 && !Before(now, date) ==>
      (r.value.hour == time[0] + 12 <==> Before(now, DateTime(now.date, time[0] + 12, MinuteOf(time), 0)))
    ensures (r.Ok? && meridiem == Unspecified && time[0] <= 12 && !Before(now, date) &&
             !Before(now, DateTime(now.date, time[0] + 12, MinuteOf(time), 0))) ==> r.value.hour == time[0]
    ensures (time != [] && meridiem == Am && 0 <= time[0] <= 12 && 0 <= MinuteOf(time) < 60) ==>
      r == Ok(DateTime(now.date, time[0], MinuteOf(time), 0))
    ensures (time != [] && meridiem == Pm && 0 <= time[0] < 12 && 0 <= MinuteOf(time) < 60) ==>
      r == Ok(DateTime(now.date, time[0] + 12, MinuteOf(time), 0))
    ensures (time != [] && meridiem != Am && 12 < time[0] < 24 && 0 <= MinuteOf(time) < 60) ==>
      r == Ok(DateTime(now.date, time[0], MinuteOf(time), 0))
    ensures time != [] && meridiem == Unspecified && 0 <= time[0] < 12 && 0 <= MinuteOf(time) < 60 ==> r.Ok?
    ensures (time != [] && !(0 <= MinuteOf(time) < 60) && !(meridiem == Am && time[0] > 12)) ==> r == Err(ValueError)
  {
    if time == [] then Err(IndexError)
    else
      var h, m := time[0], MinuteOf(time);
      if h > 12 then
        if meridiem == Am then Err(Raised("time is am however hours > 12")) else AtClock(now, h, m)
      else if meridiem == Am then AtClock(now, h, m)
      else if meridiem == Pm then AtClock(now, h + 12, m)
      else if !Before(now, date) then
        var afternoon :- AtClock(now, h + 12, m);
        if Before(now, afternoon) then Ok(afternoon) else AtClock(now, h, m)
      else
        var (wh, wm) := WorkingHours(h, m);
        AtClock(now, wh, wm)
  }

  /** "at 12" with no meridiem, for a date that is not in the future, first builds the pm
      reading, hour 24, which `replace` rejects. */
  lemma NoonWithoutMeridiem(now: DateTime, time: seq<int>, date: DateTime)
    requires Valid(now) && time != [] && time[0] == 12 && !Before(now, date)
    ensures ToTwentyFourHour(now, Unspecified, time, date) == Err(ValueError)
  {
  }

  /** case_24_hour: a time already past today is moved to the same time tomorrow, so the result
      is never before `now`. */
  function CaseTwentyFourHour(now: DateTime, meridiem: Meridiem, time: seq<int>, date: DateTime): (r: Result<DateTime>)
    requires Valid(now)
    ensures r.Ok? ==> Valid(r.value) && !Before(r.value, now)
    ensures r.Ok? ==> r.value.date == now.date || Ordinal(r.value.date) == Ordinal(now.date) + 1
    ensures r.Ok? ==> (ToTwentyFourHour(now, meridiem, time, date).Ok? &&
                       r.value == ToTwentyFourHour(now, meridiem, time, date).value.(date := r.value.date))
    ensures r.Ok? ==> (r.value.date == now.date <==> !Before(ToTwentyFourHour(now, meridiem, time, date).value, now))
    ensures ToTwentyFourHour(now, meridiem, time, date).Err? ==> r == ToTwentyFourHour(now, meridiem, time, date)
    ensures ToTwentyFourHour(now, meridiem, time, date).Ok? && now.date.year < MaxYear ==> r.Ok?
  {
    var t :- ToTwentyFourHour(now, meridiem, time, date);
    if Before(t, now) then
      AddDaysYears(t.date, 1);
      var r := PlusDays(t, 1);
      if r.Ok? then OrdinalOrder(now.date, r.value.date); r else r
    else Ok(t)
  }

  /** The unit names exrt_units would normalise to: "mins" and "minute" become "minutes",
      "hour" becomes "hours", and every other noun stays as it is. */
  function CanonicalUnit(noun: string): (u: string)
    ensures u == "minutes" <==> noun == "mins" || noun == "minute" || noun == "minutes"
    ensures u == "hours" <==> noun == "hour" || noun == "hours"
    ensures noun != "mins" && noun != "minute" && noun != "hour" ==> u == noun
  {
    if noun == "mins" || noun == "minute" then "minutes" else if noun == "hour" then "hours" else noun
  }

  /** The normalising loop of exrt_units, noun by noun in place. */
  function CanonicalUnits(nouns: seq<string>): (r: seq<string>)
    ensures |r| == |nouns|
    ensures forall i :: 0 <= i < |nouns| ==> r[i] == CanonicalUnit(nouns[i])
  {
    if nouns == [] then [] else [CanonicalUnit(nouns[0])] + CanonicalUnits(nouns[1..])
  }

  function TimeUnitsAmong(nouns: seq<string>): seq<string> {
    if nouns == [] then []
    else (if nouns[0] in ["minutes", "hours"] then [nouns[0]] else []) + TimeUnitsAmong(nouns[1..])
  }

  /** exrt_units as written: `units` is still the empty list when its length is checked, so the
      function returns None before reaching the normalisation and the dictionary. */
  function ExrtUnits(tree: Tree): (r: Result<Option<seq<(string, int)>>>)
    ensures r == Ok(None)
  {
    var nouns := ExtractTag(tree, "NNS") + ExtractTag(tree, "NN");
    var units: seq<string> := [];
    if |units| == 0 then Ok(None)
    else
      var found := units + TimeUnitsAmong(CanonicalUnits(nouns));
      match IntsOf(ExrtTags(tree, "CD"))
      case Err(e) => Err(e)
      case Ok(nums) => Ok(Some(Dict(Zip(found, nums))))
  }

  /** parse_relative_time: `now` with seconds cleared, advanced by the hours and minutes units. */
  function ParseRelativeTime(now: DateTime, units: seq<(string, int)>): (r: Result<DateTime>)
    requires Valid(now)
    ensures r.Ok? ==> Valid(r.value) && r.value.micros == 0
    ensures |units| == 2 && r.Ok? ==>
      Lookup(units, "hours").Some? && Lookup(units, "minutes").Some? &&
      MinuteStamp(r.value) == MinuteStamp(now) + 60 * Lookup(units, "hours").value + Lookup(units, "minutes").value
    ensures |units| == 2 && (Lookup(units, "hours").None? || Lookup(units, "minutes").None?) ==> r == Err(KeyError)
    ensures |units| != 2 && Lookup(units, "hours").None? && Lookup(units, "minutes").None? ==>
      r == Err(Raised("Couln't parse units"))
    ensures |units| != 2 && Lookup(units, "minutes").None? && r.Ok? ==>
      Lookup(units, "hours").Some? &&
      MinuteStamp(r.value) == MinuteStamp(now) + 60 * Lookup(units, "hours").value
    ensures |units| != 2 && Lookup(units, "hours").None? && r.Ok? ==>
      Lookup(units, "minutes").Some? &&
      MinuteStamp(r.value) == MinuteStamp(now) + Lookup(units, "minutes").value
  {
    var base := now.(micros := 0);
    var hours, minutes := Lookup(units, "hours"), Lookup(units, "minutes");
    if |units| == 2 then
      if hours.Some? && minutes.Some? then PlusMinutes(base, 60 * hours.value + minutes.value) else Err(KeyError)
    else if hours.Some? && hours.value != 0 then PlusMinutes(base, 60 * hours.value)
    else if minutes.Some? && minutes.value != 0 then PlusMinutes(base, minutes.value)
    else Err(Raised("Couln't parse units"))
  }

  /** Python's `s.split(sep)`: the pieces between separators, at least one. */
  function Split(s: string, sep: char): (parts: seq<string>)
    ensures |parts| >= 1
    ensures forall k :: 0 <= k < |parts| ==> sep !in parts[k]
    ensures |parts| == 1 <==> sep !in s
  {
    if s == [] then [""]
    else
      var rest := Split(s[1..], sep);
      assert sep in s <==> s[0] == sep || sep in s[1..];
      if s[0] == sep then [""] + rest
      else
        assert forall k :: 1 <= k < |rest| ==> ([[s[0]] + rest[0]] + rest[1..])[k] == rest[k];
        [[s[0]] + rest[0]] + rest[1..]
  }

  /** `sep.join(parts)`. */
  function Join(parts: seq<string>, sep: char): string {
    if parts == [] then ""
    else if |parts| == 1 then parts[0]
    else parts[0] + [sep] + Join(parts[1..], sep)
  }

  /** Splitting and joining again gives back the original text. */
  lemma {:induction false} JoinSplit(s: string, sep: char)
    ensures Join(Split(s, sep), sep) == s
    decreases |s|
  {
    if s != [] {
      var rest := Split(s[1..], sep);
      JoinSplit(s[1..], sep);
      if s[0] == sep {
        assert ([""] + rest)[1..] == rest;
        assert s == [sep] + s[1..];
      } else {
        var parts := [[s[0]] + rest[0]] + rest[1..];
        assert parts[1..] == rest[1..];
        if |rest| == 1 {
          assert s == [s[0]] + rest[0];
        } else {
          assert Join(rest, sep) == rest[0] + [sep] + Join(rest[1..], sep);
          assert s == [s[0]] + rest[0] + [sep] + Join(rest[1..], sep);
        }
      }
    }
  }

  /** The colon split of parse_time: for a single number token, its colon-separated fields as
      ints (ValueError if one is not an int); `None` for one field or for several tokens. */
  function ColonSplit(texts: seq<string>): (r: Result<Option<seq<int>>>)
    ensures r.Ok? && r.value.Some? ==> |texts| == 1 && ':' in texts[0] && |r.value.value| >= 2
    ensures r.Ok? && r.value.Some? ==> IntsOf(Split(texts[0], ':')) == Ok(r.value.value)
    ensures |texts| == 1 ==> (r.Err? <==> IntsOf(Split(texts[0], ':')).Err?)
    ensures |texts| == 1 && ':' in texts[0] && r.Ok? ==> r.value.Some?
    ensures |texts| != 1 ==> r == Ok(None)
  {
    if |texts| == 1 then
      var fields :- IntsOf(Split(texts[0], ':'));
      if |fields| == 1 then Ok(None) else Ok(Some(fields))
    else Ok(None)
  }

  /** `nums.reverse()`. */
  function Reverse(nums: seq<int>): (r: seq<int>)
    ensures |r| == |nums| && forall i :: 0 <= i < |nums| ==> r[i] == nums[|nums| - 1 - i]
  {
    if nums == [] then [] else Reverse(nums[1..]) + [nums[0]]
  }

  /** The closing dispatch of parse_time: absolute numbers go to case_24_hour (through
      parse_absolute_time), relative units to parse_relative_time, and nothing gives None. */
  function DispatchTime(now: DateTime, absolute: seq<int>, relative: seq<(string, int)>, meridiem: Meridiem, date: DateTime): (r: Result<Option<DateTime>>)
    requires Valid(now)
    ensures r == Ok(None) <==> absolute == [] && relative == []
    ensures absolute != [] && r.Ok? ==> !Before(r.value.value, now)
  {
    if absolute != [] then
      var t :- CaseTwentyFourHour(now, meridiem, absolute, date);
      Ok(Some(t))
    else if relative != [] then
      var t :- ParseRelativeTime(now, relative);
      Ok(Some(t))
    else Ok(None)
  }

  /** parse_time: the cardinals of the group, read either as one "h:m" token or as ints,
      reversed when the group says "past", with the meridiem of its nouns. */
  function ParseTime(tree: Tree, date: DateTime, now: DateTime): (r: Result<Option<DateTime>>)
    requires Valid(now)
    ensures r == Ok(None) <==> ExrtTags(tree, "CD") == [] && ExrtMeridiem(tree).Ok?
    ensures r.Ok? && r.value.Some? ==> Valid(r.value.value) && !Before(r.value.value, now)
    ensures r.Ok? && r.value.Some? ==>
      r.value.value.date == now.date || Ordinal(r.value.value.date) == Ordinal(now.date) + 1
  {
    var texts := ExrtTags(tree, "CD");
    var colon :- ColonSplit(texts);
    // With a colon split, the ints of the tokens are never computed.
    var nums :- if colon.None? then IntsOf(texts) else Ok([]);
    var meridiem :- ExrtMeridiem(tree);
    match ExrtUnits(tree)
    case Err(e) => Err(e)
    case Ok(units) =>
      var ordered := if "past" in ExtractTag(tree, "NN") then Reverse(nums) else nums;
      var absolute := if colon.Some? then colon.value else if !HasUnits(units) then ordered else [];
      DispatchTime(now, absolute, UnitsOf(units), meridiem, date)
  }

  /** The truth value of exrt_units' result: a dictionary with at least one entry. */
  predicate HasUnits(units: Option<seq<(string, int)>>) {
    match units
    case None => false
    case Some(entries) => entries != []
  }

  /** The relative units parse_time hands on: the dictionary when it is non-empty. */
  function UnitsOf(units: Option<seq<(string, int)>>): (r: seq<(string, int)>)
    ensures r != [] <==> HasUnits(units)
  {
    match units
    case None => []
    case Some(entries) => entries
  }

  /** A numeral (an optional sign and digits) holds no colon. */
  lemma NumeralHasNoColon(s: string)
    requires ParseInt(s).Some?
    ensures ':' !in s
  {
  }

  /** Splitting at the first separator: the text before it, then the split of the rest. */
  lemma {:induction false} SplitAtSeparator(a: string, b: string, sep: char)
    requires sep !in a
    ensures Split(a + [sep] + b, sep) == [a] + Split(b, sep)
    decreases |a|
  {
    var s := a + [sep] + b;
    if a == [] {
      assert s[1..] == b;
    } else {
      assert s[1..] == a[1..] + [sep] + b;
      SplitAtSeparator(a[1..], b, sep);
      assert [a[0]] + a[1..] == a;
    }
  }

  /** Text without the separator splits into itself alone. */
  lemma SplitWithoutSeparator(b: string, sep: char)
    requires sep !in b
    ensures Split(b, sep) == [b]
  {
    JoinSplit(b, sep);
  }

  /** "h:m": a single token of two numerals around a colon is read as hour and minute whatever
      else the group says, and handed to case_24_hour. */
  lemma ColonTime(tree: Tree, date: DateTime, now: DateTime, hs: string, ms: string)
    requires Valid(now)
    requires ExrtTags(tree, "CD") == [hs + ":" + ms] && ParseInt(hs).Some? && ParseInt(ms).Some?
    requires ExrtMeridiem(tree).Ok?
    ensures var c := CaseTwentyFourHour(now, ExrtMeridiem(tree).value, [ParseInt(hs).value, ParseInt(ms).value], date);
      ParseTime(tree, date, now) == if c.Ok? then Ok(Some(c.value)) else Err(c.error)
  {
    NumeralHasNoColon(hs);
    NumeralHasNoColon(ms);
    SplitAtSeparator(hs, ms, ':');
    SplitWithoutSeparator(ms, ':');
    assert hs + ":" + ms == hs + [':'] + ms;
    var fields := [hs, ms];
    assert Split(hs + ":" + ms, ':') == fields;
    assert fields[1..] == [ms] && [ms][1..] == [];
    assert IntsOf([]) == Ok([]);
    assert [ParseInt(ms).value] + [] == [ParseInt(ms).value];
    assert IntsOf([ms]) == Ok([ParseInt(ms).value]);
    assert fields[0] == hs && [ParseInt(hs).value] + [ParseInt(ms).value] == [ParseInt(hs).value, ParseInt(ms).value];
    assert IntsOf(fields) == Ok([ParseInt(hs).value, ParseInt(ms).value]);
  }

  /** Plain numerals without "past" and without a colon are read as the numbers in order,
      hour first, and handed to case_24_hour. */
  lemma PlainNumeralTime(tree: Tree, date: DateTime, now: DateTime)
    requires Valid(now)
    requires ExrtTags(tree, "CD") != [] && IntsOf(ExrtTags(tree, "CD")).Ok?
    requires forall k :: 0 <= k < |ExrtTags(tree, "CD")| ==> ':' !in ExrtTags(tree, "CD")[k]
    requires "past" !in ExtractTag(tree, "NN") && ExrtMeridiem(tree).Ok?
    ensures var c := CaseTwentyFourHour(now, ExrtMeridiem(tree).value, IntsOf(ExrtTags(tree, "CD")).value, date);
      ParseTime(tree, date, now) == if c.Ok? then Ok(Some(c.value)) else Err(c.error)
  {
    var texts := ExrtTags(tree, "CD");
    if |texts| == 1 {
      SplitWithoutSeparator(texts[0], ':');
      assert Split(texts[0], ':') == texts;
    }
  }

  /** "20 past 5": with "past" the two numbers are swapped, so the second is the hour. */
  lemma MinutesPastHour(tree: Tree, date: DateTime, now: DateTime, a: string, b: string)
    requires Valid(now)
    requires ExrtTags(tree, "CD") == [a, b] && ParseInt(a).Some? && ParseInt(b).Some?
    requires "past" in ExtractTag(tree, "NN") && ExrtMeridiem(tree).Ok?
    ensures var c := CaseTwentyFourHour(now, ExrtMeridiem(tree).value, [ParseInt(b).value, ParseInt(a).value], date);
      ParseTime(tree, date, now) == if c.Ok? then Ok(Some(c.value)) else Err(c.error)
  {
    var nums := [ParseInt(a).value, ParseInt(b).value];
    assert [a, b][1..] == [b] && [b][1..] == [];
    assert IntsOf([]) == Ok([]);
    assert [ParseInt(b).value] + [] == [ParseInt(b).value];
    assert IntsOf([b]) == Ok([ParseInt(b).value]);
    assert [a, b][0] == a && [ParseInt(a).value] + [ParseInt(b).value] == nums;
    assert IntsOf([a, b]) == Ok(nums);
    assert Reverse(nums) == [ParseInt(b).value, ParseInt(a).value];
  }
}
