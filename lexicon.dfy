/** The lexical extractors: name tables, number words, Python's `int` and `str` on integers,
    and the helpers that read day numbers and unit phrases off a DATE group (cal.py lines 380-574). */
module Lexicon {
  import opened Outcomes
  import opened Trees

  /** extract_month's table: full and abbreviated month names to 0-based month numbers. */
  const MonthNumbers: map<string, int> := map[
    "January" := 0, "Jan" := 0, "February" := 1, "Feb" := 1, "March" := 2, "Mar" := 2,
    "April" := 3, "Apr" := 3, "May" := 4, "June" := 5, "Jun" := 5, "July" := 6, "Jul" := 6,
    "August" := 7, "Aug" := 7, "September" := 8, "Sep" := 8, "October" := 9, "Oct" := 9,
    "November" := 10, "Nov" := 10, "December" := 11, "Dec" := 11]

  /** extract_day's table, as written: Saturday shares Friday's number and Sunday gets 5. */
  const WeekdayNumbers: map<string, int> := map[
    "Monday" := 0, "Mon" := 0, "Tuesday" := 1, "Tue" := 1, "Wednesday" := 2, "Wed" := 2,
    "Thursday" := 3, "Thu" := 3, "Friday" := 4, "Fri" := 4, "Saturday" := 4, "Sat" := 4,
    "Sunday" := 5, "Sun" := 5]

  /** word_number_to_int's table, as written: "five" reads 4 and "six" reads 5. */
  const WordNumbers: map<string, int> := map[
    "zero" := 0, "one" := 1, "two" := 2, "three" := 3, "four" := 4, "five" := 4,
    "six" := 5, "seven" := 7, "eight" := 8, "nine" := 9]

  predicate IsAsciiDigit(c: char) {
    '0' <= c <= '9'
  }

  predicate AllDigits(s: string) {
    forall i :: 0 <= i < |s| ==> IsAsciiDigit(s[i])
  }

  /** The value of a string of decimal digits. */
  function DigitsValue(s: string): nat
    requires AllDigits(s)
  {
    if s == [] then 0 else DigitsValue(s[..|s| - 1]) * 10 + (s[|s| - 1] as int - '0' as int)
  }

  /** Python's `int(s)` on a token (which carries no surrounding blanks): an optional sign and
      one or more ASCII digits; anything else raises ValueError, here `None`. */
  function ParseInt(s: string): (r: Option<int>)
    ensures r.Some? <==> (|s| >= 1 && AllDigits(s)) || (|s| >= 2 && (s[0] == '-' || s[0] == '+') && AllDigits(s[1..]))
    ensures r.Some? && AllDigits(s) ==> r.value == DigitsValue(s)
    ensures r.Some? && s[0] == '+' ==> AllDigits(s[1..]) && r.value == DigitsValue(s[1..])
    ensures r.Some? && s[0] == '-' ==> AllDigits(s[1..]) && r.value == -(DigitsValue(s[1..]) as int)
  {
    if |s| >= 2 && (s[0] == '-' || s[0] == '+') && AllDigits(s[1..]) then
      var v: int := DigitsValue(s[1..]);
      Some(if s[0] == '-' then -v else v)
    else if |s| >= 1 && AllDigits(s) then Some(DigitsValue(s))
    else None
  }

  /** The decimal digits of `n`. */
  function Digits(n: nat): (s: string)
    ensures 1 <= |s| && AllDigits(s)
    ensures |s| == 1 <==> n < 10
    ensures |s| == 2 <==> 10 <= n < 100
  {
    var last := [(('0' as int) + n % 10) as char];
    if n < 10 then last else Digits(n / 10) + last
  }

  /** Python's `str(n)` on an integer. */
  function DecimalText(n: int): string {
    if n < 0 then "-" + Digits(-n) else Digits(n)
  }

  lemma {:induction false} DigitsValueOfDigits(n: nat)
    ensures DigitsValue(Digits(n)) == n
  {
    var s := Digits(n);
    if n >= 10 {
      assert s[..|s| - 1] == Digits(n / 10);
      DigitsValueOfDigits(n / 10);
    }
  }

  /** `int(str(n)) == n`: Python's `int` reads back what `str` writes. */
  lemma ParseIntOfDecimalText(n: int)
    ensures ParseInt(DecimalText(n)) == Some(n)
  {
    var s := DecimalText(n);
    if n < 0 {
      assert s[1..] == Digits(-n);
      assert s[0] == '-' && !IsAsciiDigit(s[0]);
      DigitsValueOfDigits(-n);
    } else {
      assert s == Digits(n) && IsAsciiDigit(s[0]);
      DigitsValueOfDigits(n);
    }
  }

  /** word_number_to_int: KeyError for a word outside the table. */
  function WordNumberToInt(word: string): (r: Result<int>)
    ensures r.Ok? <==> word in WordNumbers
    ensures r.Ok? ==> 0 <= r.value <= 9 && r.value != 6
  {
    if word in WordNumbers then Ok(WordNumbers[word]) else Err(KeyError)
  }

  /** `try: int(n) except: word_number_to_int(n)`, as extract_date and extract_date_units do. */
  function IntOrWord(s: string): Result<int> {
    match ParseInt(s)
    case Some(n) => Ok(n)
    case None => WordNumberToInt(s)
  }

  /** Converts every token left to right; the first one that is neither a numeral nor a number
      word aborts the conversion. */
  function NumbersOf(texts: seq<string>): (r: Result<seq<int>>)
    ensures r.Ok? <==> forall i :: 0 <= i < |texts| ==> IntOrWord(texts[i]).Ok?
    ensures r.Ok? ==> |r.value| == |texts| && forall i :: 0 <= i < |texts| ==> IntOrWord(texts[i]) == Ok(r.value[i])
  {
    if texts == [] then Ok([])
    else
      var n :- IntOrWord(texts[0]);
      var rest :- NumbersOf(texts[1..]);
      Ok([n] + rest)
  }

  /** `[int(t) for t in texts]`: ValueError at the first token that is not a numeral. */
  function IntsOf(texts: seq<string>): (r: Result<seq<int>>)
    ensures r.Ok? <==> forall i :: 0 <= i < |texts| ==> ParseInt(texts[i]).Some?
    ensures r.Ok? ==> |r.value| == |texts| && forall i :: 0 <= i < |texts| ==> ParseInt(texts[i]) == Some(r.value[i])
    ensures r.Err? ==> r.error == ValueError
  {
    if texts == [] then Ok([])
    else
      match ParseInt(texts[0])
      case None => Err(ValueError)
      case Some(n) =>
        var rest :- IntsOf(texts[1..]);
        Ok([n] + rest)
  }

  /** The table values of the names found in `table`, in the order the names appear. */
  function LookupAll(table: map<string, int>, names: seq<string>): (r: seq<int>)
    ensures |r| <= |names|
    ensures forall i :: 0 <= i < |r| ==> r[i] in table.Values
    ensures |names| == 1 ==> r == (if names[0] in table then [table[names[0]]] else [])
  {
    if names == [] then []
    else
      var last := names[|names| - 1];
      LookupAll(table, names[..|names| - 1]) + (if last in table then [table[last]] else [])
  }

  /** Looking names up piece by piece gives the lookups of the whole list, in order. */
  lemma {:induction false} LookupAllAppend(table: map<string, int>, a: seq<string>, b: seq<string>)
    ensures LookupAll(table, a + b) == LookupAll(table, a) + LookupAll(table, b)
    decreases |b|
  {
    if b == [] {
      assert a + b == a;
    } else {
      var b' := b[..|b| - 1];
      assert (a + b)[..|a + b| - 1] == a + b';
      assert (a + b)[|a + b| - 1] == b[|b| - 1];
      LookupAllAppend(table, a, b');
    }
  }

  /** A name is found exactly when the table holds it, and every table name yields its number. */
  lemma {:induction false} LookupAllMembers(table: map<string, int>, names: seq<string>)
    ensures forall i :: 0 <= i < |names| && names[i] in table ==> table[names[i]] in LookupAll(table, names)
    ensures forall v :: v in LookupAll(table, names) ==> exists i :: 0 <= i < |names| && names[i] in table && table[names[i]] == v
    decreases |names|
  {
    if names != [] {
      var prefix := names[..|names| - 1];
      LookupAllMembers(table, prefix);
      forall v | v in LookupAll(table, names)
        ensures exists i :: 0 <= i < |names| && names[i] in table && table[names[i]] == v
      {
        if v in LookupAll(table, prefix) {
          var i :| 0 <= i < |prefix| && prefix[i] in table && table[prefix[i]] == v;
          assert names[i] == prefix[i];
        } else {
          assert names[|names| - 1] in table && table[names[|names| - 1]] == v;
        }
      }
      forall i | 0 <= i < |names| && names[i] in table
        ensures table[names[i]] in LookupAll(table, names)
      {
        if i < |prefix| {
          assert prefix[i] == names[i];
        }
      }
    }
  }

  /** As written, the weekday table gives Saturday Friday's number 4 and Sunday 5, where Python
      numbers them 5 and 6. */
  lemma WeekendNumbers()
    ensures LookupAll(WeekdayNumbers, ["Friday", "Saturday", "Sunday"]) == [4, 4, 5]
  {
    LookupAllAppend(WeekdayNumbers, ["Friday"], ["Saturday", "Sunday"]);
    LookupAllAppend(WeekdayNumbers, ["Saturday"], ["Sunday"]);
    assert ["Friday"] + ["Saturday", "Sunday"] == ["Friday", "Saturday", "Sunday"];
    assert ["Saturday"] + ["Sunday"] == ["Saturday", "Sunday"];
  }

  /** extract_month: appends the number of every proper noun that names a month. */
  method ExtractMonth(tree: Tree) returns (found: seq<int>)
    ensures found == LookupAll(MonthNumbers, ExtractTag(tree, "NNP"))
    ensures forall i :: 0 <= i < |found| ==> 0 <= found[i] < 12
  {
    var names := ExtractTag(tree, "NNP");
    found := [];
    for i := 0 to |names|
      invariant found == LookupAll(MonthNumbers, names[..i])
    {
      assert names[..i + 1][..i] == names[..i];
      if names[i] in MonthNumbers {
        found := found + [MonthNumbers[names[i]]];
      }
    }
    assert names[..|names|] == names;
    MonthNumbersRange(names);
  }

  /** Every month number the table yields lies in 0..11. */
  lemma MonthNumbersRange(names: seq<string>)
    ensures forall i :: 0 <= i < |LookupAll(MonthNumbers, names)| ==> 0 <= LookupAll(MonthNumbers, names)[i] < 12
  {
    var r := LookupAll(MonthNumbers, names);
    forall i | 0 <= i < |r| ensures 0 <= r[i] < 12 {
      assert r[i] in MonthNumbers.Values;
    }
  }

  /** Every weekday number the table yields lies in 0..5. */
  lemma WeekdayNumbersRange(names: seq<string>)
    ensures forall i :: 0 <= i < |LookupAll(WeekdayNumbers, names)| ==> 0 <= LookupAll(WeekdayNumbers, names)[i] <= 5
  {
    var r := LookupAll(WeekdayNumbers, names);
    forall i | 0 <= i < |r| ensures 0 <= r[i] <= 5 {
      assert r[i] in WeekdayNumbers.Values;
    }
  }

  /** extract_day: appends the number of every proper noun that names a weekday. Because of
      the table, no weekday number above 5 (Python's Sunday is 6) is ever produced. */
  method ExtractDay(tree: Tree) returns (found: seq<int>)
    ensures found == LookupAll(WeekdayNumbers, ExtractTag(tree, "NNP"))
    ensures forall i :: 0 <= i < |found| ==> 0 <= found[i] <= 5
  {
    var names := ExtractTag(tree, "NNP");
    found := [];
    for i := 0 to |names|
      invariant found == LookupAll(WeekdayNumbers, names[..i])
    {
      assert names[..i + 1][..i] == names[..i];
      if names[i] in WeekdayNumbers {
        found := found + [WeekdayNumbers[names[i]]];
      }
    }
    assert names[..|names|] == names;
    WeekdayNumbersRange(names);
  }

  /** Python's `s.replace(pat, '')`: one left-to-right pass removing non-overlapping occurrences. */
  function RemoveAll(s: string, pat: string): (r: string)
    requires |pat| > 0
    ensures |r| <= |s|
    decreases |s|
  {
    if |s| < |pat| then s
    else if s[..|pat|] == pat then RemoveAll(s[|pat|..], pat)
    else [s[0]] + RemoveAll(s[1..], pat)
  }

  /** The chain of replaces extract_date applies to an adjective ("15th" becomes "15"). */
  function StripOrdinalSuffix(s: string): (r: string)
    ensures |r| <= |s|
  {
    RemoveAll(RemoveAll(RemoveAll(RemoveAll(s, "th"), "st"), "nd"), "rd")
  }

  /** A prefix none of whose characters starts `pat` passes through RemoveAll unchanged. */
  lemma {:induction false} RemoveAllAfter(d: string, tail: string, pat: string)
    requires |pat| > 0 && forall i :: 0 <= i < |d| ==> d[i] != pat[0]
    ensures RemoveAll(d + tail, pat) == d + RemoveAll(tail, pat)
    decreases |d|
  {
    if d == [] {
      assert d + tail == tail;
    } else if |d + tail| >= |pat| {
      assert (d + tail)[..|pat|][0] == d[0];
      assert (d + tail)[1..] == d[1..] + tail;
      RemoveAllAfter(d[1..], tail, pat);
    }
  }

  /** A bare numeral passes through the suffix stripping unchanged. */
  lemma StripOrdinalKeepsNumeral(s: string)
    requires AllDigits(s)
    ensures StripOrdinalSuffix(s) == s
  {
    RemoveAllAfter(s, [], "th");
    RemoveAllAfter(s, [], "st");
    RemoveAllAfter(s, [], "nd");
    RemoveAllAfter(s, [], "rd");
    assert s + [] == s;
  }

  /** `int(s.replace(..))` reads an ordinal such as "21st" or "3rd" back as its number. */
  lemma StripOrdinalOfNumber(n: nat, suffix: string)
    requires suffix in ["th", "st", "nd", "rd"]
    ensures ParseInt(StripOrdinalSuffix(Digits(n) + suffix)) == Some(n)
  {
    var d := Digits(n);
    var s1 := RemoveAll(suffix, "th");
    var s2 := RemoveAll(s1, "st");
    var s3 := RemoveAll(s2, "nd");
    RemoveAllAfter(d, suffix, "th");
    RemoveAllAfter(d, s1, "st");
    RemoveAllAfter(d, s2, "nd");
    RemoveAllAfter(d, s3, "rd");
    assert RemoveAll(s3, "rd") == [] by {
      if suffix == "th" {
        assert s1 == [];
      } else if suffix == "st" {
        assert s2 == [];
      } else if suffix == "nd" {
        assert s3 == [];
      }
    }
    assert d + [] == d;
    DigitsValueOfDigits(n);
  }

  /** What extract_date yields: the number of the single adjective ("15th"), or, on the cardinal
      path, the whole list of numbers wrapped in one more list (`return [nums]`). */
  datatype DayNumbers = DayOfMonth(n: int) | NumberList(ns: seq<int>)

  /** extract_date: more than one adjective raises; one adjective is read as an ordinal;
      otherwise every cardinal is converted and the list is returned whole. */
  function ExtractDate(tree: Tree): (r: Result<Option<DayNumbers>>)
    ensures |ExtractTag(tree, "JJ")| > 1 ==> r == Err(Raised("Found more than 1 date!"))
    ensures r == Ok(None) <==> ExtractTag(tree, "JJ") == [] && ExtractTag(tree, "CD") == []
    ensures r.Ok? && r.value.Some? && r.value.value.NumberList? ==>
      ExtractTag(tree, "JJ") == [] && |r.value.value.ns| == |ExtractTag(tree, "CD")| > 0
    ensures |ExtractTag(tree, "JJ")| == 1 ==>
      var day := ParseInt(StripOrdinalSuffix(ExtractTag(tree, "JJ")[0]));
      (r.Ok? <==> day.Some?) && (r.Ok? ==> r.value == Some(DayOfMonth(day.value))) && (r.Err? ==> r.error == ValueError)
    ensures ExtractTag(tree, "JJ") == [] ==>
      (r.Err? <==> NumbersOf(ExtractTag(tree, "CD")).Err?) &&
      (r.Ok? && r.value.Some? ==> r.value.value == NumberList(NumbersOf(ExtractTag(tree, "CD")).value))
  {
    var adjs := ExtractTag(tree, "JJ");
    if |adjs| > 1 then Err(Raised("Found more than 1 date!"))
    else if |adjs| == 1 then
      match ParseInt(StripOrdinalSuffix(adjs[0]))
      case Some(n) => Ok(Some(DayOfMonth(n)))
      case None => Err(ValueError)
    else
      var nums :- NumbersOf(ExtractTag(tree, "CD"));
      if |nums| > 0 then Ok(Some(NumberList(nums))) else Ok(None)
  }

  /** A single ordinal adjective such as "15th" gives its number as the day of the month. */
  lemma OrdinalAdjective(tree: Tree, n: nat, suffix: string)
    requires suffix in ["th", "st", "nd", "rd"]
    requires ExtractTag(tree, "JJ") == [Digits(n) + suffix]
    ensures ExtractDate(tree) == Ok(Some(DayOfMonth(n)))
  {
    StripOrdinalOfNumber(n, suffix);
  }

  /** Python 2's `\w` on a byte string: ASCII letters, digits and the underscore. */
  predicate IsWordChar(c: char) {
    'a' <= c <= 'z' || 'A' <= c <= 'Z' || '0' <= c <= '9' || c == '_'
  }

  /** The length of the run of word characters at the front of `s`. */
  function RunLength(s: string): (n: nat)
    ensures n <= |s|
    ensures forall i :: 0 <= i < n ==> IsWordChar(s[i])
    ensures n < |s| ==> !IsWordChar(s[n])
  {
    if s == [] || !IsWordChar(s[0]) then 0 else 1 + RunLength(s[1..])
  }

  /** `re.findall(r'[\w]+', s)`: the maximal runs of word characters, left to right. */
  function WordRuns(s: string): (r: seq<string>)
    ensures forall i :: 0 <= i < |r| ==> |r[i]| > 0 && forall j :: 0 <= j < |r[i]| ==> IsWordChar(r[i][j])
    decreases |s|
  {
    if s == [] then []
    else if !IsWordChar(s[0]) then WordRuns(s[1..])
    else
      var n := RunLength(s);
      [s[..n]] + WordRuns(s[n..])
  }

  /** `zip(nouns, nums)`: the pairs up to the length of the shorter list. */
  function Zip(nouns: seq<string>, nums: seq<int>): (r: seq<(string, int)>)
    ensures |r| == if |nouns| < |nums| then |nouns| else |nums|
    ensures forall i :: 0 <= i < |r| ==> r[i] == (nouns[i], nums[i])
  {
    if nouns == [] || nums == [] then [] else [(nouns[0], nums[0])] + Zip(nouns[1..], nums[1..])
  }

  /** The keys of an association list, in order. */
  function Keys(entries: seq<(string, int)>): (ks: seq<string>)
    ensures |ks| == |entries| && forall i :: 0 <= i < |entries| ==> ks[i] == entries[i].0
  {
    if entries == [] then [] else [entries[0].0] + Keys(entries[1..])
  }

  /** `d.get(key)` on a dictionary kept as an association list. */
  function Lookup(entries: seq<(string, int)>, key: string): (r: Option<int>)
    ensures r.Some? <==> key in Keys(entries)
  {
    if entries == [] then None
    else if entries[0].0 == key then Some(entries[0].1)
    else Lookup(entries[1..], key)
  }

  /** `d[key] = value` on a dictionary kept in insertion order: an existing key keeps its place
      and takes the new value, a new key goes last. */
  function Store(entries: seq<(string, int)>, key: string, value: int): (r: seq<(string, int)>)
    ensures Lookup(r, key) == Some(value)
    ensures forall k :: k != key ==> Lookup(r, k) == Lookup(entries, k)
  {
    if entries == [] then [(key, value)]
    else if entries[0].0 == key then [(key, value)] + entries[1..]
    else [entries[0]] + Store(entries[1..], key, value)
  }

  /** Storing keeps the keys in first-insertion order: an existing key keeps its place, a new
      key goes last. */
  lemma {:induction false} StoreKeys(entries: seq<(string, int)>, key: string, value: int)
    ensures Keys(Store(entries, key, value)) == if key in Keys(entries) then Keys(entries) else Keys(entries) + [key]
  {
    if entries != [] {
      var r := Store(entries, key, value);
      assert Keys(entries) == [entries[0].0] + Keys(entries[1..]);
      if entries[0].0 == key {
        assert r[1..] == entries[1..];
      } else {
        StoreKeys(entries[1..], key, value);
        assert r == [entries[0]] + Store(entries[1..], key, value);
        assert Keys(r) == [entries[0].0] + Keys(Store(entries[1..], key, value)) by {
          assert r[0] == entries[0] && r[1..] == Store(entries[1..], key, value);
        }
        assert key in Keys(entries) <==> key in Keys(entries[1..]);
      }
    }
  }

  /** The value of the last pair whose key is `k`: the one `dict(pairs)` keeps. */
  function LastValue(pairs: seq<(string, int)>, k: string): (r: Option<int>)
    ensures r.Some? <==> k in Keys(pairs)
  {
    if pairs == [] then None
    else
      assert Keys(pairs) == Keys(pairs[..|pairs| - 1]) + [pairs[|pairs| - 1].0];
      if pairs[|pairs| - 1].0 == k then Some(pairs[|pairs| - 1].1)
      else LastValue(pairs[..|pairs| - 1], k)
  }

  /** A pair whose key does not occur again later is the one `LastValue` finds. */
  lemma {:induction false} LastValueAt(pairs: seq<(string, int)>, i: int)
    requires 0 <= i < |pairs|
    requires forall j :: i < j < |pairs| ==> pairs[j].0 != pairs[i].0
    ensures LastValue(pairs, pairs[i].0) == Some(pairs[i].1)
    decreases |pairs|
  {
    if i < |pairs| - 1 {
      var prefix := pairs[..|pairs| - 1];
      assert prefix[i] == pairs[i];
      LastValueAt(prefix, i);
    }
  }

  /** `dict(pairs)`: the keys are exactly the first components of the pairs, and a later pair
      overwrites the value of an earlier one with the same key. */
  function Dict(pairs: seq<(string, int)>): (r: seq<(string, int)>)
    ensures forall k :: Lookup(r, k) == LastValue(pairs, k)
  {
    if pairs == [] then []
    else
      var last := pairs[|pairs| - 1];
      Store(Dict(pairs[..|pairs| - 1]), last.0, last.1)
  }

  /** `dict(pairs)` has exactly the keys of the pairs. */
  lemma DictKeys(pairs: seq<(string, int)>)
    ensures forall k :: k in Keys(Dict(pairs)) <==> k in Keys(pairs)
  {
    forall k
      ensures k in Keys(Dict(pairs)) <==> k in Keys(pairs)
    {
      assert Lookup(Dict(pairs), k) == LastValue(pairs, k);
    }
  }

  /** extract_date_units: plural and singular nouns, then every cardinal converted, then
      `dict(zip(nouns, numbers))`. A noun is a key only when a number stands at its position,
      so "tomorrow" alone, with no cardinal in the group, is not a key. */
  function ExtractDateUnits(tree: Tree): (r: Result<seq<(string, int)>>)
    ensures r.Ok? <==> NumbersOf(ExtractTag(tree, "CD")).Ok?
    ensures r.Ok? ==> forall k :: k in Keys(r.value) <==>
      exists i :: 0 <= i < |ExtractTag(tree, "CD")| && 0 <= i < |DateNouns(tree)| && DateNouns(tree)[i] == k
    ensures r.Ok? ==> forall i :: 0 <= i < |ExtractTag(tree, "CD")| && LastOccurrence(DateNouns(tree), i, |ExtractTag(tree, "CD")|) ==>
      Lookup(r.value, DateNouns(tree)[i]).Some? &&
      IntOrWord(ExtractTag(tree, "CD")[i]) == Ok(Lookup(r.value, DateNouns(tree)[i]).value)
  {
    var nums :- NumbersOf(ExtractTag(tree, "CD"));
    DictOfZip(DateNouns(tree), nums);
    DictKeys(Zip(DateNouns(tree), nums));
    Ok(Dict(Zip(DateNouns(tree), nums)))
  }

  /** Position `i` holds the last occurrence of its noun among the first `bound` nouns. */
  predicate LastOccurrence(nouns: seq<string>, i: int, bound: int) {
    0 <= i < |nouns| && i < bound && forall j :: i < j < |nouns| && j < bound ==> nouns[j] != nouns[i]
  }

  /** `dict(zip(nouns, nums))` maps each noun to the number beside its last occurrence. */
  lemma DictOfZip(nouns: seq<string>, nums: seq<int>)
    ensures forall i :: LastOccurrence(nouns, i, |nums|) ==> Lookup(Dict(Zip(nouns, nums)), nouns[i]) == Some(nums[i])
  {
    var pairs := Zip(nouns, nums);
    forall i | LastOccurrence(nouns, i, |nums|)
      ensures Lookup(Dict(pairs), nouns[i]) == Some(nums[i])
    {
      forall j | i < j < |pairs|
        ensures pairs[j].0 != pairs[i].0
      {
        assert pairs[j].0 == nouns[j];
      }
      LastValueAt(pairs, i);
    }
  }

  /** The nouns extract_date_units pairs with numbers: the plural ones first, then the singular. */
  function DateNouns(tree: Tree): seq<string> {
    ExtractTag(tree, "NNS") + ExtractTag(tree, "NN")
  }

  /** extract_relative_units: the singular nouns of the group when "next" occurs in it as an
      adjective or preposition; otherwise nothing. */
  function ExtractRelativeUnits(tree: Tree): (r: Option<seq<string>>)
    ensures r.Some? <==> SubtreeOf(Leaf("next", "JJ"), tree) || SubtreeOf(Leaf("next", "IN"), tree)
    ensures r.Some? ==> forall w :: w in r.value <==> SubtreeOf(Leaf(w, "NN"), tree)
    ensures r.Some? ==> r.value == ExtractTag(tree, "NN")
  {
    if "next" in ExtractTag(tree, "JJ") + ExtractTag(tree, "IN") then Some(ExtractTag(tree, "NN")) else None
  }
}
