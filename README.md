# cal.py event resolver, modelled in Dafny

`cal.py` turns one English sentence ("meet Bob at the office next Friday at 3pm") into a
calendar event: an action text, a date and a time, the people and a place. A statistical
part-of-speech tagger and a chunker (NLTK) turn the sentence into a tree. Everything after
that is deterministic, and this project models it:

- the tree walks `exrt_tree`, `ne_exrt_tree`, `extract_tag` and `exrt_tags` (`trees.dfy`);
- the numeric-date retagging `custom_tag` (`tagging.dfy`);
- the lexical extractors for months, weekdays, ordinal adjectives, number words, date units and
  "next" units (`lexicon.dfy`);
- the date resolution `parse_date`, `relative_date`, `next_day`, `next_date`, `next_month_date`
  and `extract_absolute_date` (`dates.dfy`);
- the time resolution `parse_time`, `exrt_meridiem`, `exrt_units`, `parse_relative_time`,
  `case_24_hour`, `to_24_hour` and `working_hours` (`times.dfy`);
- the assembly `parse_action`, `parse_people`, `join_date_time` and the body of `parse`
  (`assembly.dfy`);
- the parts of Python's `datetime` and `dateutil.relativedelta` the program relies on, over an
  explicit proleptic Gregorian calendar (`calendar.dfy`);
- the `Result`/`Option` types, with one error constructor per exception the program can raise
  (`outcomes.dfy`).

The chunked tree is `Tree = Leaf(word, tag) | Node(category, children)`.

The program reads the system clock at many sites. The model takes one instant `now` as a
parameter instead, and every function that reads the clock receives it.

Every `raise` and every exception that Python's library would throw becomes an `Err` result:
- `replace` with an invalid field, and `strftime` before 1900, give `ValueError`;
- date arithmetic outside years 1..9999 gives `OverflowError` or `ValueError`, as Python does;
- a missing dictionary key gives `KeyError`;
- indexing an empty list gives `IndexError`;
- joining a non-string gives `TypeError`.

Python 2 semantics are followed where they matter:
- `\d` and `\w` are ASCII;
- `$` also matches before a final newline;
- every `int` orders below every list, so `int > list` is false.

Operations the program performs by updating state are methods proved against the functions that
specify them:
- `custom_tag` rewrites an `array` in place;
- the accumulator loops of `extract_month`, `extract_day`, `relative_date` and `parse_action`;
- the field-by-field filling of `parse`.

## Model

| member | source | states |
|---|---|---|
| Trees.Collect | cal.py:75-86 | exrt_tree returns only groups carrying the label, each a sub-tree of the input; a group that carries the label is returned whole, and nothing inside it is searched |
| Trees.CollectAll | cal.py:83-84 | over a list of children, every result is a labelled group inside one of them |
| Trees.CollectEmptyIff | cal.py:75-86 | exrt_tree is empty exactly when no group in the tree carries the label, so a token yields nothing |
| Trees.CollectAllEmptyIff | cal.py:83-84 | the children yield nothing exactly when none of them contains a group with the label |
| Trees.CollectAllAppend | cal.py:83-84 | collecting over concatenated children concatenates the results |
| Trees.Exclude | cal.py:88-102 | every tree ne_exrt_tree returns is a sub-tree of its input |
| Trees.ExcludeKeepsOthers | cal.py:92-100 | a token, or a group with another label, comes back unchanged as a one-element list |
| Trees.ExcludeMatchedGroup | cal.py:95-97 | a group with the label is replaced by the same-label groups found inside it (never its own tokens), and by nothing if it contains none; whatever comes back lies inside one of its children, so never the group itself |
| Trees.ExtractTag | cal.py:117-127 | a word is returned exactly when a token with that word and tag occurs in the tree; a token gives its own word when its tag matches and nothing otherwise |
| Trees.ExtractTagAll | cal.py:121-122 | the same over a list of children |
| Trees.ExtractTagAllAppend | cal.py:121-122 | over concatenated children the words come in order and with every repetition: those of the first part, then those of the second |
| Trees.ExtractTagOfTokens | cal.py:117-127 | a run of tokens all carrying the tag yields their words one for one, in order |
| Trees.ExrtTags | cal.py:104-115 | exrt_tags agrees with extract_tag on every tree and tag |
| Tagging.Retag | cal.py:57-62 | a token keeps its word; its tag becomes NUM_DATE exactly when the word matches the numeric-date pattern, and is unchanged otherwise |
| Tagging.CustomTag | cal.py:52-64 | after the in-place loop every position holds the retagged original token |
| Tagging.NumDateGroups | cal.py:481-483 | every NUM_DATE word splits under `re.findall(r'[\w]+')` into two or three groups of one or two ASCII digits, each of which `int` accepts |
| Tagging.NumDateExamples | cal.py:54 | "31/12", "1.2.15" and "7-4" followed by a newline are numeric dates |
| Tagging.NotNumDateExamples | cal.py:54 | "2015-01-01", "1/2/3/4" and "12:30" are not numeric dates |
| Lexicon.Digits | cal.py:491 | `str` of a non-negative number is a non-empty digit string, with two digits exactly when the number is in 10..99 |
| Lexicon.DigitsValueOfDigits | cal.py:491 | reading back the digits of `str(n)` gives `n` |
| Lexicon.ParseInt | cal.py:483 | `int(s)` succeeds exactly on an optional sign followed by one or more ASCII digits, and gives the digits' value, negated after a minus sign |
| Lexicon.ParseIntOfDecimalText | cal.py:491 | `int(str(n)) == n` for every integer |
| Lexicon.WordNumberToInt | cal.py:559-574 | a number word succeeds exactly when it is in the table (KeyError otherwise), and its value lies in 0..9 and is never 6 |
| Lexicon.NumbersOf | cal.py:505-509 | the list converts exactly when every token is a numeral or a number word, and then position by position |
| Lexicon.IntsOf | cal.py:483 | `[int(n) for n in nums]` succeeds exactly when every text is a decimal numeral, position by position; otherwise ValueError |
| Lexicon.LookupAll | cal.py:412-414 | the found values come from the table and are at most as many as the names; one name gives its table value, or nothing when the table lacks it |
| Lexicon.LookupAllAppend | cal.py:412-414 | looking up a list piece by piece concatenates the lookups of the pieces, in order |
| Lexicon.LookupAllMembers | cal.py:412-414 | every name the table holds contributes its value, and every value found belongs to a name in the list |
| Lexicon.WeekendNumbers | cal.py:418-445 | Friday, Saturday, Sunday give 4, 4, 5: Saturday shares Friday's number |
| Lexicon.ExtractMonth | cal.py:380-416 | the loop returns the table values of the NNP words in order, all in 0..11 |
| Lexicon.ExtractDay | cal.py:418-445 | the loop returns the table values of the NNP words in order, all in 0..5 (Saturday is 4, Sunday 5) |
| Lexicon.RemoveAll | cal.py:455 | `str.replace(pat, '')` never lengthens the text |
| Lexicon.RemoveAllAfter | cal.py:455 | a prefix that cannot start the pattern passes through the replacement unchanged |
| Lexicon.StripOrdinalSuffix | cal.py:455 | removing th, st, nd and rd never lengthens the adjective |
| Lexicon.StripOrdinalKeepsNumeral | cal.py:455 | a bare numeral passes through the removals unchanged |
| Lexicon.StripOrdinalOfNumber | cal.py:455 | stripping th/st/nd/rd from a number followed by one of them gives back the number |
| Lexicon.ExtractDate | cal.py:447-468 | more than one adjective raises "Found more than 1 date!"; one adjective gives the day `int` reads after th/st/nd/rd are removed, or ValueError; without adjectives the numerals convert exactly when every one does, and give the list of their values; nothing is found exactly when there is no adjective and no numeral |
| Lexicon.OrdinalAdjective | cal.py:447-455 | one adjective such as "15th", "21st", "22nd" or "3rd" gives that number as the day of the month |
| Lexicon.RunLength | cal.py:481 | the front run is the longest prefix of word characters |
| Lexicon.WordRuns | cal.py:481 | every match of `[\w]+` is a non-empty run of word characters |
| Lexicon.Zip | cal.py:511 | `zip` is as long as the shorter list and pairs position by position |
| Lexicon.Lookup | cal.py:246-250 | a key is found exactly when it is stored |
| Lexicon.Store | cal.py:511 | after `d[key] = value` the key looks up to the value, and every other key looks up as before |
| Lexicon.StoreKeys | cal.py:511 | storing keeps the first-insertion key order: an existing key keeps its place, a new key goes last |
| Lexicon.LastValue | cal.py:511 | the last pair with a key exists exactly when the key occurs among the pairs |
| Lexicon.LastValueAt | cal.py:511 | a pair whose key does not occur again later gives the last value of that key |
| Lexicon.Dict | cal.py:511 | in `dict(pairs)` every key looks up to the value of the last pair with that key |
| Lexicon.DictKeys | cal.py:511 | `dict(pairs)` has exactly the keys of the pairs |
| Lexicon.DictOfZip | cal.py:511 | `dict(zip(nouns, nums))` maps each noun to the number beside its last occurrence within the shorter list |
| Lexicon.ExtractDateUnits | cal.py:496-511 | it converts exactly when every numeral converts; its keys are exactly the nouns that have a numeral at the same position; each noun maps to the number of the numeral beside its last occurrence |
| Lexicon.ExtractRelativeUnits | cal.py:513-521 | units are found exactly when "next" occurs as adjective or preposition, and they are then the singular nouns of the group, in order and with repeats |
| Calendar.DaysInMonth | cal.py:368 | months have 28..31 days, and February has 29 exactly in leap years |
| Calendar.Weekday | cal.py:347 | `weekday()` lies in 0..6 |
| Calendar.WeekdayAnchors | cal.py:347 | 1 January of year 1 and 1 January 2024 are Mondays (0), 16 and 17 March 2024 a Saturday (5) and a Sunday (6) |
| Calendar.AddDays | cal.py:351 | adding k days moves the day ordinal by exactly k |
| Calendar.WeekdayAddDays | cal.py:347-351 | adding k days moves the weekday by k modulo 7 |
| Calendar.AddMonths | cal.py:367 | relativedelta(months=k) moves the month index by exactly k and keeps the day, or clamps it to the last day of the shorter month |
| Calendar.BeforeIsStrictTotalOrder | cal.py:265 | datetime comparison is irreflexive, asymmetric, transitive and total on distinct instants |
| Calendar.OrdinalOrder | cal.py:265 | date comparison agrees with the order of day ordinals, and equal ordinals mean equal dates |
| Calendar.PlusDays | cal.py:633 | adding a timedelta of days moves the date by exactly that many days and keeps the clock; it succeeds exactly when the new year lies in 1..9999, and OverflowError otherwise |
| Calendar.PlusMonths | cal.py:376 | adding relativedelta months changes only the date, by month arithmetic; it succeeds exactly when the new year lies in 1..9999, and ValueError otherwise |
| Calendar.AddDaysYears | cal.py:351 | adding 0..365 days reaches at most the next year |
| Calendar.LastDayOfYear | cal.py:351 | 31 December is the last day of its year: every date of the year lies on or before it, and the next year starts the day after |
| Calendar.AddMonthsYears | cal.py:367 | adding 0..12 calendar months reaches at most the next year |
| Calendar.PlusMinutes | cal.py:246-250 | adding a timedelta of minutes moves the minute stamp by exactly that amount and keeps the seconds; it stays on the same date when the clock does not leave the day, always succeeds for 0..1440 minutes before year 9999, and fails only with OverflowError |
| Calendar.WithDay | cal.py:378 | `replace(day=n)` succeeds exactly when day n exists in that month, and changes only the day |
| Calendar.WithDate | cal.py:488-492 | `replace(day, month, year)` succeeds exactly when the date exists, and changes only the date |
| Calendar.AtClock | cal.py:303-307 | create_base_time succeeds exactly for hour 0..23 and minute 0..59, giving today at that clock with zero seconds |
| DateResolution.NextStep | cal.py:530-534 | a "week" unit moves the date 7 days (OverflowError past year 9999), "month" one calendar month with the day clamped (ValueError past year 9999), any other noun nothing; the clock is kept |
| DateResolution.ApplyNextNouns | cal.py:529-536 | the "next" nouns, applied in order, give a valid instant with the clock of now |
| DateResolution.OtherNextNounsKeepNow | cal.py:529-536 | "next" nouns other than week and month leave now unchanged |
| DateResolution.UnitStep | cal.py:544-552 | day(s) move by n days, week(s) by 7n days, month(s) by n calendar months and yearh/years by 12n months; any other noun changes nothing; the clock is kept |
| DateResolution.ApplyUnits | cal.py:544-552 | the date units, applied in order, give a valid instant with the clock of now |
| DateResolution.MonthThenYear | cal.py:544-552 | from 31 January 2023, one month then one year gives 28 February 2024 |
| DateResolution.YearThenMonth | cal.py:544-552 | from 31 January 2023, one year then one month gives 29 February 2024 |
| DateResolution.UnitOrderMatters | cal.py:544-552 | from 31 January 2023, one month then one year gives 28 February 2024, but one year then one month gives 29 February 2024 |
| DateResolution.RelativeDate | cal.py:523-557 | "next" nouns, when there are any, give the fold of their steps; otherwise a "tomorrow" key gives now plus one day, an empty unit dictionary gives nothing and any other gives the fold of the unit steps; a unit list that does not convert raises; a found date is valid |
| DateResolution.NextNounStep | cal.py:529-536 | a single noun after "next" ("next week", "next month") resolves to exactly one step from now |
| DateResolution.SingleUnitStep | cal.py:539-552 | a single unit other than "tomorrow" ("in 3 days") resolves to exactly one unit step from now |
| DateResolution.NoRelativeWords | cal.py:539-557 | with no "next" nouns, no date nouns and numerals that convert, there is no relative date |
| DateResolution.AdvanceByNouns | cal.py:530-534 | the loop that reassigns `now` computes the "next" nouns' fold, stopping at the first error |
| DateResolution.AdvanceByUnits | cal.py:544-552 | the loop that reassigns `now` computes the units' fold, stopping at the first error |
| DateResolution.ResolveRelativeDate | cal.py:523-557 | relative_date as the program runs it equals the specification |
| DateResolution.YearUnitTypo | cal.py:551 | the singular "year" is ignored, while "yearh" and "years" add 12n months |
| DateResolution.TomorrowNeedsNumeral | cal.py:539-541 | without a numeral the units dictionary is empty, so "tomorrow" alone gives no relative date |
| DateResolution.TomorrowWithNumeral | cal.py:541-542 | when "tomorrow" is paired with a numeral the date is the next day |
| DateResolution.NextDay | cal.py:343-351 | next_day keeps the clock and lands 1..7 days ahead on the requested weekday, never today; it always succeeds before year 9999, and fails only with OverflowError |
| DateResolution.NextDayLands | cal.py:347-351 | `days_ahead` lies in 1..7 and reaches the requested weekday |
| DateResolution.DaysAheadMod | cal.py:347-351 | the `days_ahead` arithmetic gives a count in 1..7 that reaches the requested weekday modulo 7 |
| DateResolution.LandsOnWeekday | cal.py:347-351 | moving `days_ahead` days lands on the requested weekday |
| DateResolution.LaterByDays | cal.py:351 | moving forward one day or more gives a later date |
| DateResolution.MonthsAhead | cal.py:357-365 | `months_ahead` lies in 0..12 and lands on the target month, and is 12 exactly when the target is this month and its day has passed |
| DateResolution.NextMonthDate | cal.py:353-368 | the result is in the requested month on the requested day, not before now, exactly `months_ahead` months on; before year 9999 it succeeds exactly when that month has the day (always for days 1..28) and fails with ValueError otherwise; a list of numbers fails |
| DateResolution.NextMonthLands | cal.py:353-368 | when both steps succeed the date is `months_ahead` months on, on the requested day, with the clock kept and not before now |
| DateResolution.NextDate | cal.py:370-378 | a day not yet past this month gives this month's date, a past one the date one calendar month on, with the clock kept and never before now; a day outside 1..31 is ValueError; a list of numbers gives TypeError |
| DateResolution.ExpandYear | cal.py:491 | a year with two decimal digits becomes 20xx; any other year is kept |
| DateResolution.TwentyPrefix | cal.py:491 | `int('20' + str(n))` is 2000 + n for n in 10..99 |
| DateResolution.ExtractAbsoluteDate | cal.py:470-494 | two NUM_DATE words raise "Found more then 1 date!", none gives nothing; a non-numeral field is ValueError and a field count other than 2 or 3 gives nothing; with 2 or 3 fields it succeeds exactly when `replace` accepts the date, giving now with only the date replaced (first field day, second month, third year with two-digit years becoming 20xx, this year when there are two), and ValueError otherwise |
| DateResolution.ChristmasDate | cal.py:481-492 | "25/12/24" gives 25 December 2024 at the current clock time |
| DateResolution.ChristmasRuns | cal.py:481 | "25/12/24" splits into "25", "12" and "24" |
| DateResolution.MonthYearRuns | cal.py:481 | "12/24" splits into "12" and "24" |
| DateResolution.ChristmasFields | cal.py:483 | the fields "25", "12", "24" read as 25, 12, 24 |
| DateResolution.AbsoluteDateOfNumDate | cal.py:481-492 | one tagged numeric date always gives a date or a ValueError from `replace`, never nothing |
| DateResolution.LeadingZeroYear | cal.py:491 | "05" reads as 5, which has one digit, so the year stays 5 |
| DateResolution.FromNames | cal.py:331-341 | without months a day number gives next_date; without months or day number the first weekday gives next_day; a month with a day number gives next_month_date; anything else gives nothing; what it finds is not before now |
| DateResolution.ParsedDate | cal.py:315-341 | a parsed date is a valid instant; a relative date, when there is one, is the answer; without a relative or numeric date the answer is never before now |
| DateResolution.ParseDate | cal.py:315-341 | parse_date as the program runs it equals the specification |
| DateResolution.SecondAdjectiveRaises | cal.py:325-326 | two adjectives raise even when a numeric date is present, because extract_date runs first |
| DateResolution.NumericDateWins | cal.py:328-329 | a numeric date takes precedence over named months and days |
| DateResolution.NamesNotPast | cal.py:331-338 | a date found from month names, weekday names and a day number is never before now |
| DateResolution.ParsedDateFromNames | cal.py:318-341 | with no relative date and no numeric date, `parse_date` is the month, day and weekday cascade over the extracted names |
| DateResolution.ResolveFromNames | cal.py:331-341 | the month, weekday and day-number cascade as the program runs it equals the specification |
| DateResolution.NextAdjectiveRaises | cal.py:318-326 | a group whose one adjective is "next", with no nouns or numerals, makes parse_date raise ValueError: "next" is handed to `int` as a day of the month |
| DateResolution.NextWeekdayRaises | cal.py:318-326 | "next Tuesday", chunked as an adjective before a proper noun, raises ValueError instead of giving the coming weekday |
| Lexicon.MonthNumbersRange | cal.py:384-408 | month numbers lie in 0..11 |
| Lexicon.WeekdayNumbersRange | cal.py:422-437 | weekday numbers lie in 0..5 |
| TimeResolution.ExrtMeridiem | cal.py:215-239 | am exactly when only a morning noun occurs, pm exactly when only an afternoon noun occurs, neither when none does, and the exception exactly when both do |
| TimeResolution.WorkingHours | cal.py:309-313 | minutes are kept; an hour below 6 gets 12 added and any other hour is kept, so hours 0..11 land in 6..17 |
| TimeResolution.ToTwentyFourHour | cal.py:270-301 | no numbers is IndexError; hour > 12 with am raises; otherwise am keeps the hour, pm adds 12 and an hour above 12 is kept, each giving exactly that clock today with zero seconds when it is a valid clock (so 12pm is ValueError) and ValueError for a bad minute; without meridiem, hours 0..11 with a valid minute always succeed: working hours in the future, otherwise the pm reading exactly when it is still ahead |
| TimeResolution.NoonWithoutMeridiem | cal.py:295 | "12" with no meridiem on a date that is not in the future fails with ValueError, because the pm candidate is hour 24 |
| TimeResolution.CaseTwentyFourHour | cal.py:258-268 | the time is never before now and keeps the clock to_24_hour chose; it is today exactly when that clock is not past, and tomorrow otherwise; an error of to_24_hour passes through, and a success always succeeds before year 9999 |
| TimeResolution.CanonicalUnit | cal.py:200-203 | "mins" and "minute" become "minutes", "hour" becomes "hours", every other noun is kept |
| TimeResolution.CanonicalUnits | cal.py:200-203 | unit normalisation keeps the number of nouns and normalises each in place |
| TimeResolution.ExrtUnits | cal.py:189-213 | exrt_units always returns None, since `units` is still empty when its length is checked |
| TimeResolution.ParseRelativeTime | cal.py:241-252 | two units add hours and minutes (KeyError if one is missing); otherwise hours or minutes are added alone; with neither the exception is raised; seconds become zero |
| TimeResolution.Split | cal.py:152 | `split(':')` gives at least one piece, none containing a colon, and one piece exactly when there is no colon |
| TimeResolution.JoinSplit | cal.py:152 | joining the pieces with the separator gives back the text |
| TimeResolution.ColonSplit | cal.py:151-157 | a colon split exists exactly for a single number containing a colon whose fields all read as ints (ValueError when one does not), and it is those ints |
| TimeResolution.NumeralHasNoColon | cal.py:152-153 | a text `int` accepts holds no colon |
| TimeResolution.SplitAtSeparator | cal.py:152 | `split` cuts at the first separator and splits the rest |
| TimeResolution.SplitWithoutSeparator | cal.py:152 | text without the separator splits into itself alone |
| TimeResolution.Reverse | cal.py:166-167 | reversing the numbers maps each position to its mirror |
| TimeResolution.DispatchTime | cal.py:170-185 | no time exactly when there are neither absolute nor relative numbers; an absolute time is never before now |
| TimeResolution.ParseTime | cal.py:143-187 | no time exactly when the group has no numeral and a consistent meridiem; a found time is valid, not before now, and today or tomorrow |
| TimeResolution.UnitsOf | cal.py:176-177 | the relative units are non-empty exactly when exrt_units returned a non-empty dictionary |
| TimeResolution.ColonTime | cal.py:150-187 | a single "h:m" token is resolved by case_24_hour with hour h and minute m |
| TimeResolution.PlainNumeralTime | cal.py:159-187 | numerals without a colon and without "past" are resolved by case_24_hour with the numbers in order |
| TimeResolution.MinutesPastHour | cal.py:166-167 | with "past", the two numbers are swapped before the hour is resolved ("20 past 5" is 5:20) |
| Assembly.Head | cal.py:606 | `x[0]` of a token is its word, and of a group its first element; an empty group is IndexError |
| Assembly.HeadsOf | cal.py:617-618 | the first fields exist exactly when no element is an empty group, position by position; otherwise IndexError |
| Assembly.TextsOf | cal.py:608 | the pieces are strings exactly when none is a tree, position by position; otherwise TypeError |
| Assembly.JoinPieces | cal.py:608 | `' '.join` succeeds exactly when every piece is a string |
| Assembly.ExcludeAll | cal.py:579-593 | one exclusion pass returns only sub-trees of the elements it was given |
| Assembly.JunkPass | cal.py:595-597 | the fifth pass appends one list per element, in order, each the element's JUNK exclusion |
| Assembly.FirstPieces | cal.py:599-606 | the output loop yields at most one piece per list |
| Assembly.Action | cal.py:576-608 | a successful action means the output loop over the five passes found every first piece |
| Assembly.ExcludeEach | cal.py:579-593 | each accumulator loop computes one exclusion pass |
| Assembly.JunkEach | cal.py:595-597 | the appending loop computes the fifth pass |
| Assembly.FirstPiecesEach | cal.py:599-606 | the output loop computes the first pieces, stopping at the first IndexError |
| Assembly.ParseAction | cal.py:576-608 | parse_action as the program runs it equals the specification |
| Assembly.ExcludeAllPlain | cal.py:579-593 | on tokens and outermost labelled groups, a pass drops exactly the groups with its label, whatever they hold, and keeps every token in order |
| Assembly.FirstPiecesPlain | cal.py:595-606 | after the passes, the JUNK pass and the output loop give exactly the words of the remaining tokens |
| Assembly.ActionOfPlainSentence | cal.py:576-608 | a sentence of tokens and outermost DATE, TIME, PLACE, PERSON or JUNK groups, whatever other groups these hold (an ORGANIZATION in a PLACE, a PERSON in a JUNK), has as action its top-level tokens' words joined by spaces |
| Assembly.ActionDropsPlaceAndInvitee | cal.py:576-608 | "<verb> at <venue> with <guest>", chunked as a token, a PLACE group holding an ORGANIZATION and a JUNK group holding a PERSON, has the verb alone as its action |
| Assembly.StrayGroupBreaksAction | cal.py:603-608 | a top-level group of any other label (a location, say) makes the join fail with TypeError |
| Assembly.PersonName | cal.py:616-619 | the name of a group of tokens is its words joined by spaces |
| Assembly.PeopleOf | cal.py:615-619 | one name per person group, position by position; the list converts exactly when every group's name does, so a list of groups of tokens always converts |
| Assembly.ParsePeople | cal.py:610-621 | one name per PERSON group, each the words of that group joined by spaces, in order; it succeeds exactly when every group's name does, so always when every PERSON group holds only tokens; none when there are no PERSON groups |
| Assembly.Place | cal.py:665-670 | no place without a PLACE group; a PLACE group with no ORGANIZATION anywhere, or an empty element in the first one, is IndexError; otherwise the place is exactly the first fields of the elements of the first ORGANIZATION group |
| Assembly.JoinDateTime | cal.py:623-635 | the result has the time's clock; the date moves only when it is today and the time's day of month differs, and then by the difference of days of the month |
| Assembly.MonthEndRollBack | cal.py:630-633 | on 31 January at 23:00, a time rolled over to 1 February moves the event back to 1 January, before now |
| Assembly.EventOf | cal.py:643-673 | an event has a valid instant in or after 1900, and its action, people and place are those parse_action, parse_people and the place rule give; parse succeeds exactly when the action, the moment, the people and the place all do and the moment's year is 1900 or later |
| Assembly.MomentOf | cal.py:645-661 | the moment parse builds from the first DATE and TIME groups and their defaults is a valid instant |
| Assembly.EventWhenResolved | cal.py:645-661 | whatever the first DATE and TIME groups resolve to, each possibly nothing, unless both fall back to their defaults the event's instant is join_date_time of the date (default now) and the time (default 10:00 today) |
| Assembly.Parse | cal.py:637-675 | parse, filling the record field by field, equals the specification |
| Assembly.ResolveMoment | cal.py:645-661 | the date and time steps of parse, updating the two defaults in turn, equal the specification |
| Assembly.DefaultIsTomorrowAtTen | cal.py:645-659 | with no DATE group, and either no TIME group or one resolving to nothing or to 10:00 today, the event is tomorrow at 10:00 |
| Assembly.DateOnlyEvent | cal.py:645-661 | a DATE group that resolves to a date other than now, with no TIME group, puts the event on that date at 10:00 |
| Assembly.TimeOnlyEvent | cal.py:645-661 | a TIME group that resolves to a time today other than 10:00, with no DATE group, is the event's instant as it is |
| Assembly.PlaceNeedsOrganization | cal.py:665-667 | a PLACE group with no ORGANIZATION group in the sentence makes parse fail |

## Left out

- Tokenising, tagging and chunking (cal.py:34-72, 130-141) and the chunk grammar (cal.py:13-29) are foreign statistical models and their configuration. The chunked tree is the input, and `custom_tag` is modelled on the tagged token array it receives.
- The WSGI `application` (cal.py:677-699) is HTTP input and output.
- `json.dumps`, the `strftime` text of the date and time, and `print nums` (cal.py:485, 672-675) are formatting. The event carries the instant as fields. Only `strftime`'s refusal of years before 1900 is modelled.
- The system clock becomes one instant `now`. The program reads the clock afresh at each site, so its instants differ by microseconds. In the model a resolved date built from `now` itself compares equal to the default `datenow` in `parse`; in the program such a date almost never does.
- Seconds and microseconds are one field (`micros`, microseconds within the minute), because the program only keeps or zeroes them together.
- Python 2 dictionaries iterate in hash order. `relative_date` walks its units dictionary in first-insertion order in the model. The order matters whenever month or year steps clamp the day (`UnitOrderMatters`); day and week steps alone commute.
- `int()` also accepts whitespace around the digits. The model accepts an optional sign followed by ASCII digits, because the tokenizer never produces tokens that contain whitespace.
- `parse_absolute_time` (cal.py:254-256) only forwards to `case_24_hour`, so `DispatchTime` calls `CaseTwentyFourHour` directly.
- The in-place rewriting of `nouns[i]` in `exrt_units` (cal.py:200-203) lies after the early return and never runs. It is modelled as the value function `CanonicalUnits`, together with `TimeUnitsAmong`.
- Trees.Collect: the left-to-right order of its results is stated only through `CollectAllAppend` over siblings, not as a separate pre-order property.
- Assembly.FirstPieces: states only the length bound. What the output loop yields is stated through `FirstPiecesPlain` and `ActionOfPlainSentence` for sentences of tokens and outermost groups.
- DateResolution.ApplyNextNouns, DateResolution.ApplyUnits and DateResolution.ParsedDate: state validity of the result and the kept clock. The effect of each step is stated on `NextStep` and `UnitStep`, tied to the relative date by `RelativeDate`, `NextNounStep` and `SingleUnitStep`, and the cascade's order in `ParsedDateFromNames`, `FromNames`, `NumericDateWins` and the lemmas beside them.
- Where the docstring of `ne_exrt_tree` (cal.py:89) and its code disagree, the model follows the code. On a match the code recurses with `exrt_tree` (cal.py:97), so the group's own tokens are dropped.
