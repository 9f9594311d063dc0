/** custom_tag (cal.py lines 52-64): the post-pass over the part-of-speech tagger's output that
    relabels numeric dates such as "31/12" or "1.2.15" as NUM_DATE. */
module Tagging {
  import opened Lexicon

  /** The separator class `[.\/-]` of the numeric-date pattern. */
  predicate IsSeparator(c: char) {
    c == '.' || c == '/' || c == '-'
  }

  /** `\d{1,2}` matched by a whole string (Python 2's `\d` on a byte string is ASCII only). */
  predicate IsDigitGroup(s: string) {
    1 <= |s| <= 2 && AllDigits(s)
  }

  /** `\d{1,2}[.\/-]\d{1,2}` matched by a whole string. */
  predicate IsTwoGroups(s: string) {
    exists i | 1 <= i <= 2 && i < |s| :: IsDigitGroup(s[..i]) && IsSeparator(s[i]) && IsDigitGroup(s[i + 1..])
  }

  /** `\d{1,2}[.\/-]\d{1,2}[.\/-]\d{1,2}` matched by a whole string. */
  predicate IsThreeGroups(s: string) {
    exists i | 1 <= i <= 2 && i < |s| :: IsDigitGroup(s[..i]) && IsSeparator(s[i]) && IsTwoGroups(s[i + 1..])
  }

  /** The body the pattern must match in full: `$` also matches just before a final newline. */
  predicate MatchesWhole(s: string) {
    IsTwoGroups(s) || IsThreeGroups(s)
  }

  /** `re.match(r'^\d{1,2}[.\/-]\d{1,2}([.\/-]\d{1,2})?$', w)` succeeds. */
  predicate IsNumDate(w: string) {
    MatchesWhole(w) || (|w| > 0 && w[|w| - 1] == '\n' && MatchesWhole(w[..|w| - 1]))
  }

  /** What custom_tag does to one token: a numeric date is retagged, anything else is kept. */
  function Retag(token: (string, string)): (r: (string, string))
    ensures r.0 == token.0
    ensures IsNumDate(token.0) ==> r.1 == "NUM_DATE"
    ensures !IsNumDate(token.0) ==> r == token
  {
    if IsNumDate(token.0) then (token.0, "NUM_DATE") else token
  }

  /** custom_tag: rewrites every entry of the tagged sentence in place. */
  method CustomTag(tagged: array<(string, string)>)
    modifies tagged
    ensures forall i :: 0 <= i < tagged.Length ==> tagged[i] == Retag(old(tagged[i]))
  {
    for i := 0 to tagged.Length
      invariant forall k :: 0 <= k < i ==> tagged[k] == Retag(old(tagged[k]))
      invariant forall k :: i <= k < tagged.Length ==> tagged[k] == old(tagged[k])
    {
      var (word, tag) := tagged[i];
      if IsNumDate(word) {
        tag := "NUM_DATE";
      }
      tagged[i] := (word, tag);
    }
  }

  /** A run of word characters followed by a non-word character is found by `re.findall(r'[\w]+')`
      as one match, and the search resumes after that character. */
  lemma {:induction false} WordRunsSplit(g: string, c: char, rest: string)
    requires |g| > 0 && forall k :: 0 <= k < |g| ==> IsWordChar(g[k])
    requires !IsWordChar(c)
    ensures WordRuns(g + [c] + rest) == [g] + WordRuns(rest)
  {
    var s := g + [c] + rest;
    RunLengthOf(g, [c] + rest);
    assert s == g + ([c] + rest);
    assert s[..|g|] == g;
    assert s[|g|..] == [c] + rest;
    assert ([c] + rest)[1..] == rest;
  }

  /** The front run of `g + tail` is `g` itself when `g` is all word characters and `tail`
      does not start with one. */
  lemma {:induction false} RunLengthOf(g: string, tail: string)
    requires forall k :: 0 <= k < |g| ==> IsWordChar(g[k])
    requires tail == [] || !IsWordChar(tail[0])
    ensures RunLength(g + tail) == |g|
    decreases |g|
  {
    if g != [] {
      assert (g + tail)[1..] == g[1..] + tail;
      RunLengthOf(g[1..], tail);
    }
  }

  /** A whole string of word characters is one match. */
  lemma WordRunsWhole(g: string)
    requires |g| > 0 && forall k :: 0 <= k < |g| ==> IsWordChar(g[k])
    ensures WordRuns(g) == [g]
  {
    RunLengthOf(g, []);
    assert g + [] == g;
    assert g[|g|..] == [];
  }

  /** The digit groups of a numeric date, as extract_absolute_date reads them back. */
  predicate DigitGroups(r: seq<string>) {
    (|r| == 2 || |r| == 3) && forall k :: 0 <= k < |r| ==> IsDigitGroup(r[k])
  }

  lemma DigitGroupIsWord(g: string)
    requires IsDigitGroup(g)
    ensures |g| > 0 && forall k :: 0 <= k < |g| ==> IsWordChar(g[k])
  {
    assert forall k :: 0 <= k < |g| ==> IsAsciiDigit(g[k]);
  }

  /** The runs of a two-group date split at `i`, with or without a trailing newline. */
  lemma {:induction false} TwoGroupsRuns(s: string, i: int, tail: string)
    requires 1 <= i <= 2 && i < |s| && IsDigitGroup(s[..i]) && IsSeparator(s[i]) && IsDigitGroup(s[i + 1..])
    requires tail == [] || tail == "\n"
    ensures WordRuns(s + tail) == [s[..i], s[i + 1..]]
  {
    var a, b := s[..i], s[i + 1..];
    DigitGroupIsWord(a);
    DigitGroupIsWord(b);
    assert s == a + [s[i]] + b;
    assert s + tail == a + [s[i]] + (b + tail);
    WordRunsSplit(a, s[i], b + tail);
    if tail == [] {
      assert b + tail == b;
      WordRunsWhole(b);
    } else {
      WordRunsSplit(b, '\n', []);
      assert b + ['\n'] + [] == b + tail;
    }
  }

  /** The runs of a three-group date whose first separator is at `i`. */
  lemma {:induction false} ThreeGroupsRuns(s: string, i: int, j: int, tail: string)
    requires 1 <= i <= 2 && i < |s| && IsDigitGroup(s[..i]) && IsSeparator(s[i])
    requires var rest := s[i + 1..];
      1 <= j <= 2 && j < |rest| && IsDigitGroup(rest[..j]) && IsSeparator(rest[j]) && IsDigitGroup(rest[j + 1..])
    requires tail == [] || tail == "\n"
    ensures WordRuns(s + tail) == [s[..i]] + WordRuns(s[i + 1..] + tail)
  {
    var a, rest := s[..i], s[i + 1..];
    DigitGroupIsWord(a);
    assert s == a + [s[i]] + rest;
    assert s + tail == a + [s[i]] + (rest + tail);
    WordRunsSplit(a, s[i], rest + tail);
  }

  lemma {:induction false} BodyGroups(s: string, tail: string)
    requires MatchesWhole(s)
    requires tail == [] || tail == "\n"
    ensures DigitGroups(WordRuns(s + tail))
  {
    if IsTwoGroups(s) {
      TwoGroupsBody(s, tail);
    } else {
      var i :| 1 <= i <= 2 && i < |s| && IsDigitGroup(s[..i]) && IsSeparator(s[i]) && IsTwoGroups(s[i + 1..]);
      ThreeGroupsBody(s, i, tail);
    }
  }

  lemma {:induction false} TwoGroupsBody(s: string, tail: string)
    requires IsTwoGroups(s)
    requires tail == [] || tail == "\n"
    ensures DigitGroups(WordRuns(s + tail))
  {
    var i :| 1 <= i <= 2 && i < |s| && IsDigitGroup(s[..i]) && IsSeparator(s[i]) && IsDigitGroup(s[i + 1..]);
    TwoGroupsRuns(s, i, tail);
  }

  lemma {:induction false} ThreeGroupsBody(s: string, i: int, tail: string)
    requires 1 <= i <= 2 && i < |s| && IsDigitGroup(s[..i]) && IsSeparator(s[i]) && IsTwoGroups(s[i + 1..])
    requires tail == [] || tail == "\n"
    ensures DigitGroups(WordRuns(s + tail))
  {
    var rest := s[i + 1..];
    var j :| 1 <= j <= 2 && j < |rest| && IsDigitGroup(rest[..j]) && IsSeparator(rest[j]) && IsDigitGroup(rest[j + 1..]);
    ThreeGroupsRuns(s, i, j, tail);
    TwoGroupsRuns(rest, j, tail);
    var r := WordRuns(s + tail);
    assert r == [s[..i], rest[..j], rest[j + 1..]];
  }

  lemma DigitGroupParses(g: string)
    requires IsDigitGroup(g)
    ensures ParseInt(g).Some?
  {
  }

  /** Every word custom_tag marks NUM_DATE splits, under extract_absolute_date's `re.findall`,
      into two or three groups of one or two ASCII digits, so `int` accepts each of them. */
  lemma {:induction false} NumDateGroups(w: string)
    requires IsNumDate(w)
    ensures DigitGroups(WordRuns(w))
    ensures forall k :: 0 <= k < |WordRuns(w)| ==> ParseInt(WordRuns(w)[k]).Some?
  {
    if MatchesWhole(w) {
      assert w + [] == w;
      BodyGroups(w, []);
    } else {
      var s := w[..|w| - 1];
      assert w == s + "\n";
      BodyGroups(s, "\n");
    }
    var r := WordRuns(w);
    forall k | 0 <= k < |r|
      ensures ParseInt(r[k]).Some?
    {
      DigitGroupParses(r[k]);
    }
  }

  /** Day-first dates with one or two digit fields are tagged, also before a final newline. */
  lemma NumDateExamples()
    ensures IsNumDate("31/12") && IsNumDate("1.2.15") && IsNumDate("7-4\n")
  {
    assert IsDigitGroup("31/12"[..2]) && IsDigitGroup("31/12"[3..]);
    assert IsTwoGroups("2.15") by {
      assert IsDigitGroup("2.15"[..1]) && IsDigitGroup("2.15"[2..]);
    }
    assert "1.2.15"[2..] == "2.15";
    assert IsDigitGroup("1.2.15"[..1]);
    assert "7-4\n"[..3] == "7-4";
    assert IsDigitGroup("7-4"[..1]) && IsDigitGroup("7-4"[2..]);
  }

  /** An ISO date has a four-digit field, four fields are too many and a clock time has the
      wrong separator: none of them is tagged. */
  lemma NotNumDateExamples()
    ensures !IsNumDate("2015-01-01") && !IsNumDate("1/2/3/4") && !IsNumDate("12:30")
  {
    NotFourGroups();
  }

  lemma NotFourGroups()
    ensures !IsNumDate("1/2/3/4")
  {
    var s := "1/2/3/4";
    TwoGroupsShort(s);
    assert !IsDigitGroup(s[..2]) by {
      assert !IsAsciiDigit(s[..2][1]);
    }
    assert s[2..] == "2/3/4";
    assert !IsTwoGroups("2/3/4") by {
      TwoGroupsShort("2/3/4"[2..]);
      assert !IsDigitGroup("2/3/4"[..2]) by {
        assert !IsAsciiDigit("2/3/4"[..2][1]);
      }
      assert !IsDigitGroup("2/3/4"[2..]);
    }
  }

  /** Two groups of at most two digits and a separator take at most five characters. */
  lemma TwoGroupsShort(s: string)
    ensures IsTwoGroups(s) ==> |s| <= 5
  {
  }
}
