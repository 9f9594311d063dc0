/** Event assembly (cal.py lines 576-675): the action text, the people, the place and the final
    date and time of the event described by one chunked sentence. */
module Assembly {
  import opened Outcomes
  import opened Trees
  import opened Calendar
  import opened DateResolution
  import opened TimeResolution

  /** `x[0]` of a tree element: the word of a token, or the first child of a group. */
  datatype Piece = Text(s: string) | Sub(t: Tree)

  function Head(t: Tree): (r: Result<Piece>)
    ensures t.Leaf? ==> r == Ok(Text(t.word))
    ensures r == Err(IndexError) <==> t.Node? && t.children == []
  {
    match t
    case Leaf(w, _) => Ok(Text(w))
    case Node(_, cs) => if cs == [] then Err(IndexError) else Ok(Sub(cs[0]))
  }

  /** `[x[0] for x in ts]`: IndexError at the first empty group. */
  function HeadsOf(ts: seq<Tree>): (r: Result<seq<Piece>>)
    ensures r.Ok? <==> forall i :: 0 <= i < |ts| ==> Head(ts[i]).Ok?
    ensures r.Ok? ==> |r.value| == |ts| && forall i :: 0 <= i < |ts| ==> Head(ts[i]) == Ok(r.value[i])
    ensures r.Err? ==> r.error == IndexError
  {
    if ts == [] then Ok([])
    else
      var p :- Head(ts[0]);
      var rest :- HeadsOf(ts[1..]);
      Ok([p] + rest)
  }

  /** The strings of the pieces; TypeError when one of them is a tree. */
  function TextsOf(ps: seq<Piece>): (r: Result<seq<string>>)
    ensures r.Ok? <==> forall i :: 0 <= i < |ps| ==> ps[i].Text?
    ensures r.Ok? ==> |r.value| == |ps| && forall i :: 0 <= i < |ps| ==> r.value[i] == ps[i].s
    ensures r.Err? ==> r.error == TypeError
  {
    if ps == [] then Ok([])
    else
      match ps[0]
      case Sub(_) => Err(TypeError)
      case Text(w) =>
        var rest :- TextsOf(ps[1..]);
        Ok([w] + rest)
  }

  /** `' '.join(pieces)`. */
  function JoinPieces(ps: seq<Piece>): (r: Result<string>)
    ensures r.Ok? <==> forall i :: 0 <= i < |ps| ==> ps[i].Text?
  {
    var words :- TextsOf(ps);
    Ok(Join(words, ' '))
  }

  /** One exclusion pass of parse_action: ne_exrt_tree over every element, concatenated. */
  function ExcludeAll(ts: seq<Tree>, category: string): (r: seq<Tree>)
    ensures forall x :: x in r ==> exists c :: c in ts && SubtreeOf(x, c)
  {
    if ts == [] then []
    else
      var init, last := ts[..|ts| - 1], ts[|ts| - 1];
      assert last in ts && forall c :: c in init ==> c in ts;
      ExcludeAll(init, category) + Exclude(last, category)
  }

  /** The fifth pass appends each ne_exrt_tree result as a list of its own. */
  function JunkPass(ts: seq<Tree>): (r: seq<seq<Tree>>)
    ensures |r| == |ts| && forall i :: 0 <= i < |ts| ==> r[i] == Exclude(ts[i], "JUNK")
  {
    if ts == [] then [] else JunkPass(ts[..|ts| - 1]) + [Exclude(ts[|ts| - 1], "JUNK")]
  }

  /** The output loop of parse_action: empty lists are skipped and every other list gives
      `node[0][0]` (a list is never a tuple, so the tuple case never applies). */
  function FirstPieces(groups: seq<seq<Tree>>): (r: Result<seq<Piece>>)
    ensures r.Ok? ==> |r.value| <= |groups|
  {
    if groups == [] then Ok([])
    else
      var init :- FirstPieces(groups[..|groups| - 1]);
      var last := groups[|groups| - 1];
      if last == [] then Ok(init)
      else
        var p :- Head(last[0]);
        Ok(init + [p])
  }

  /** parse_action: the sentence with its DATE, TIME, PLACE and PERSON groups excluded (in that
      order), then JUNK, joined by spaces. */
  function Action(root: Tree): (r: Result<string>)
    requires root.Node?
    ensures r.Ok? ==> FirstPieces(JunkPass(ExcludeAll(ExcludeAll(ExcludeAll(ExcludeAll(root.children, "DATE"), "TIME"), "PLACE"), "PERSON"))).Ok?
  {
    var nodes := ExcludeAll(root.children, "DATE");
    var nodes2 := ExcludeAll(nodes, "TIME");
    var nodes3 := ExcludeAll(nodes2, "PLACE");
    var nodes4 := ExcludeAll(nodes3, "PERSON");
    var out :- FirstPieces(JunkPass(nodes4));
    JoinPieces(out)
  }

  /** One exclusion pass as the source runs it, extending an accumulator list. */
  method ExcludeEach(src: seq<Tree>, category: string) returns (nodes: seq<Tree>)
    ensures nodes == ExcludeAll(src, category)
  {
    nodes := [];
    for i := 0 to |src|
      invariant nodes == ExcludeAll(src[..i], category)
    {
      assert src[..i + 1][..i] == src[..i];
      nodes := nodes + Exclude(src[i], category);
    }
    assert src[..|src|] == src;
  }

  /** The fifth pass as the source runs it: each result is appended as one list. */
  method JunkEach(nodes: seq<Tree>) returns (groups: seq<seq<Tree>>)
    ensures groups == JunkPass(nodes)
  {
    groups := [];
    for i := 0 to |nodes|
      invariant groups == JunkPass(nodes[..i])
    {
      assert nodes[..i + 1][..i] == nodes[..i];
      groups := groups + [Exclude(nodes[i], "JUNK")];
    }
    assert nodes[..|nodes|] == nodes;
  }

  /** The output loop as the source runs it, stopping at the first IndexError. */
  method FirstPiecesEach(groups: seq<seq<Tree>>) returns (r: Result<seq<Piece>>)
    ensures r == FirstPieces(groups)
  {
    var out: seq<Piece> := [];
    for i := 0 to |groups|
      invariant FirstPieces(groups[..i]) == Ok(out)
    {
      assert groups[..i + 1][..i] == groups[..i];
      var node := groups[i];
      if node != [] {
        match Head(node[0])
        case Err(e) =>
          FirstPiecesErrorPersists(groups, i + 1);
          return Err(e);
        case Ok(p) =>
          out := out + [p];
      }
    }
    assert groups[..|groups|] == groups;
    r := Ok(out);
  }

  /** parse_action as the source runs it: five accumulator loops, the output loop, the join. */
  method ParseAction(root: Tree) returns (r: Result<string>)
    requires root.Node?
    ensures r == Action(root)
  {
    var nodes := ExcludeEach(root.children, "DATE");
    var nodes2 := ExcludeEach(nodes, "TIME");
    var nodes3 := ExcludeEach(nodes2, "PLACE");
    var nodes4 := ExcludeEach(nodes3, "PERSON");
    var nodes5 := JunkEach(nodes4);
    var out := FirstPiecesEach(nodes5);
    match out
    case Err(e) => r := Err(e);
    case Ok(pieces) => r := JoinPieces(pieces);
  }

  lemma {:induction false} FirstPiecesErrorPersists(groups: seq<seq<Tree>>, i: nat)
    requires i <= |groups| && FirstPieces(groups[..i]).Err?
    ensures FirstPieces(groups) == FirstPieces(groups[..i])
    decreases |groups| - i
  {
    if i < |groups| {
      assert groups[..i + 1][..i] == groups[..i];
      FirstPiecesErrorPersists(groups, i + 1);
    } else {
      assert groups[..i] == groups;
    }
  }

  /** A group whose children are all tokens. */
  predicate Flat(t: Tree) {
    t.Node? && forall c :: c in t.children ==> c.Leaf?
  }

  /** A group holding no deeper group with its own label (so ne_exrt_tree drops it whole). */
  predicate Outermost(t: Tree) {
    t.Node? && !HasLabelAmong(t.children, t.category)
  }

  /** Every element is a token or an outermost group labelled with one of `cats`; the groups
      may hold groups of other labels, as PLACE holds ORGANIZATION and JUNK holds PERSON. */
  predicate PlainIn(ts: seq<Tree>, cats: set<string>) {
    forall t :: t in ts ==> t.Leaf? || (Outermost(t) && t.category in cats)
  }

  /** The words of the tokens among `ts`, in order. */
  function LeafWords(ts: seq<Tree>): seq<string> {
    if ts == [] then []
    else LeafWords(ts[..|ts| - 1]) + (if ts[|ts| - 1].Leaf? then [ts[|ts| - 1].word] else [])
  }

  /** An exclusion pass drops exactly the flat groups of its category and keeps every token. */
  lemma {:induction false} ExcludeAllPlain(ts: seq<Tree>, category: string, cats: set<string>, rest: set<string>)
    requires PlainIn(ts, cats) && cats <= rest + {category}
    ensures PlainIn(ExcludeAll(ts, category), rest)
    ensures LeafWords(ExcludeAll(ts, category)) == LeafWords(ts)
  {
    if ts != [] {
      var init, last := ts[..|ts| - 1], ts[|ts| - 1];
      assert last in ts && forall c :: c in init ==> c in ts;
      ExcludeAllPlain(init, category, cats, rest);
      var prev := ExcludeAll(init, category);
      assert ExcludeAll(ts, category) == prev + Exclude(last, category);
      if last.Node? && last.category == category {
        assert Exclude(last, category) == [] by {
          CollectAllEmptyIff(last.children, category);
        }
        assert prev + [] == prev;
        assert LeafWords(ts) == LeafWords(init);
      } else {
        assert Exclude(last, category) == [last];
        var x := prev + [last];
        assert PlainIn(x, rest);
        assert LeafWords(x) == LeafWords(prev) + (if last.Leaf? then [last.word] else []) by {
          assert x[..|x| - 1] == prev;
        }
      }
    }
  }

  /** The JUNK pass and output loop on tokens and flat JUNK groups give the tokens' words. */
  lemma {:induction false} FirstPiecesPlain(ts: seq<Tree>)
    requires PlainIn(ts, {"JUNK"})
    ensures FirstPieces(JunkPass(ts)).Ok?
    ensures TextsOf(FirstPieces(JunkPass(ts)).value) == Ok(LeafWords(ts))
  {
    if ts != [] {
      var init, last := ts[..|ts| - 1], ts[|ts| - 1];
      assert last in ts && forall c :: c in init ==> c in ts;
      FirstPiecesPlain(init);
      assert JunkPass(ts) == JunkPass(init) + [Exclude(last, "JUNK")];
      FirstPiecesPlainStep(JunkPass(init), LeafWords(init), last);
    }
  }

  lemma FirstPiecesPlainStep(gs: seq<seq<Tree>>, words: seq<string>, last: Tree)
    requires FirstPieces(gs).Ok? && TextsOf(FirstPieces(gs).value) == Ok(words)
    requires last.Leaf? || (Outermost(last) && last.category == "JUNK")
    ensures FirstPieces(gs + [Exclude(last, "JUNK")]).Ok?
    ensures TextsOf(FirstPieces(gs + [Exclude(last, "JUNK")]).value)
      == Ok(words + if last.Leaf? then [last.word] else [])
  {
    if last.Leaf? {
      FirstPiecesToken(gs, last);
      var single := TextsOf([Text(last.word)]);
      assert single.Ok? && |single.value| == 1 && single.value[0] == last.word;
      assert single.value == [last.word];
      TextsAppend(FirstPieces(gs).value, [Text(last.word)]);
    } else {
      CollectAllEmptyIff(last.children, "JUNK");
      FirstPiecesSkip(gs);
      assert words + [] == words;
    }
  }

  lemma FirstPiecesToken(gs: seq<seq<Tree>>, t: Tree)
    requires FirstPieces(gs).Ok? && t.Leaf?
    ensures FirstPieces(gs + [[t]]) == Ok(FirstPieces(gs).value + [Text(t.word)])
  {
    assert (gs + [[t]])[..|gs|] == gs;
  }

  lemma FirstPiecesSkip(gs: seq<seq<Tree>>)
    requires FirstPieces(gs).Ok?
    ensures FirstPieces(gs + [[]]) == FirstPieces(gs)
  {
    assert (gs + [[]])[..|gs|] == gs;
  }

  lemma TextsAppend(a: seq<Piece>, b: seq<Piece>)
    requires TextsOf(a).Ok? && TextsOf(b).Ok?
    ensures TextsOf(a + b) == Ok(TextsOf(a).value + TextsOf(b).value)
  {
    var ab := a + b;
    assert TextsOf(ab).Ok? by {
      forall i | 0 <= i < |ab|
        ensures ab[i].Text?
      {
        if i < |a| {
          assert ab[i] == a[i];
        } else {
          assert ab[i] == b[i - |a|];
        }
      }
    }
    var x, y := TextsOf(ab).value, TextsOf(a).value + TextsOf(b).value;
    assert |x| == |y|;
    forall i | 0 <= i < |x|
      ensures x[i] == y[i]
    {
      if i < |a| {
        assert ab[i] == a[i];
      } else {
        assert ab[i] == b[i - |a|];
      }
    }
    assert x == y;
  }

  /** The action of a sentence made of tokens and outermost DATE, TIME, PLACE, PERSON and JUNK
      groups is the words of its top-level tokens, in order, joined by spaces: every such group
      is dropped with whatever it holds. */
  lemma ActionOfPlainSentence(root: Tree)
    requires root.Node? && PlainIn(root.children, {"DATE", "TIME", "PLACE", "PERSON", "JUNK"})
    ensures Action(root) == Ok(Join(LeafWords(root.children), ' '))
  {
    var nodes := ExcludeAll(root.children, "DATE");
    ExcludeAllPlain(root.children, "DATE", {"DATE", "TIME", "PLACE", "PERSON", "JUNK"}, {"TIME", "PLACE", "PERSON", "JUNK"});
    var nodes2 := ExcludeAll(nodes, "TIME");
    ExcludeAllPlain(nodes, "TIME", {"TIME", "PLACE", "PERSON", "JUNK"}, {"PLACE", "PERSON", "JUNK"});
    var nodes3 := ExcludeAll(nodes2, "PLACE");
    ExcludeAllPlain(nodes2, "PLACE", {"PLACE", "PERSON", "JUNK"}, {"PERSON", "JUNK"});
    var nodes4 := ExcludeAll(nodes3, "PERSON");
    ExcludeAllPlain(nodes3, "PERSON", {"PERSON", "JUNK"}, {"JUNK"});
    FirstPiecesPlain(nodes4);
    var pieces := FirstPieces(JunkPass(nodes4)).value;
    assert TextsOf(pieces) == Ok(LeafWords(root.children));
  }

  /** "lunch at Cafe with Sara": the place (a PLACE around an ORGANIZATION) and the invitee (a
      JUNK around a PERSON) are dropped, leaving the verb alone ("lunch"). */
  lemma ActionDropsPlaceAndInvitee(verb: string, venue: string, guest: string)
    ensures Action(Node("S", [Leaf(verb, "NN"),
                              Node("PLACE", [Leaf("at", "IN"), Node("ORGANIZATION", [Leaf(venue, "NNP")])]),
                              Node("JUNK", [Leaf("with", "IN"), Node("PERSON", [Leaf(guest, "NNP")])])]))
      == Ok(verb)
  {
    var place := Node("PLACE", [Leaf("at", "IN"), Node("ORGANIZATION", [Leaf(venue, "NNP")])]);
    var junk := Node("JUNK", [Leaf("with", "IN"), Node("PERSON", [Leaf(guest, "NNP")])]);
    WrapperIsOutermost("PLACE", "at", "ORGANIZATION", venue);
    WrapperIsOutermost("JUNK", "with", "PERSON", guest);
    var cs := [Leaf(verb, "NN"), place, junk];
    assert PlainIn(cs, {"DATE", "TIME", "PLACE", "PERSON", "JUNK"});
    ActionOfPlainSentence(Node("S", cs));
    assert LeafWords(cs) == [verb] by {
      var one := [Leaf(verb, "NN")];
      assert one[..0] == [] && LeafWords(one) == [verb];
      assert cs[..2][..1] == one && LeafWords(cs[..2]) == [verb];
      assert cs[..2] == [Leaf(verb, "NN"), place];
    }
  }

  /** A group of a preposition and one single-token group of another label is outermost. */
  lemma WrapperIsOutermost(category: string, word: string, inner: string, name: string)
    requires inner != category
    ensures Outermost(Node(category, [Leaf(word, "IN"), Node(inner, [Leaf(name, "NNP")])]))
  {
    var cs := [Leaf(word, "IN"), Node(inner, [Leaf(name, "NNP")])];
    assert cs[1..][1..] == [] && [Leaf(name, "NNP")][1..] == [];
    assert !HasLabelAmong([Leaf(name, "NNP")], category);
    assert !HasLabel(Node(inner, [Leaf(name, "NNP")]), category);
  }

  /** A group of any other category left at the top of the sentence (a location, say) makes
      the join fail: its `node[0][0]` is a token tuple, not a string. */
  lemma StrayGroupBreaksAction(root: Tree, category: string, word: string, tag: string)
    requires root.Node? && root.children == [Node(category, [Leaf(word, tag)])]
    requires category !in {"DATE", "TIME", "PLACE", "PERSON", "JUNK"}
    ensures Action(root) == Err(TypeError)
  {
    var g := Node(category, [Leaf(word, tag)]);
    assert [g][..0] == [];
    assert ExcludeAll([g], "DATE") == [g];
    assert ExcludeAll([g], "TIME") == [g];
    assert ExcludeAll([g], "PLACE") == [g];
    assert ExcludeAll([g], "PERSON") == [g];
    assert JunkPass([g]) == [[g]];
    assert [[g]][..0] == [];
    assert Head(g) == Ok(Sub(Leaf(word, tag)));
    assert [] + [Sub(Leaf(word, tag))] == [Sub(Leaf(word, tag))];
    assert FirstPieces([[g]]) == Ok([Sub(Leaf(word, tag))]);
  }

  /** One person's name: the first field of each of the group's elements, joined by spaces. */
  function PersonName(person: Tree): (r: Result<string>)
    requires person.Node?
    ensures Flat(person) ==> r == Ok(Join(LeafWords(person.children), ' '))
  {
    if Flat(person) then TokenHeads(person.children); JoinHeads(person.children)
    else JoinHeads(person.children)
  }

  /** `' '.join([x[0] for x in ts])`. */
  function JoinHeads(ts: seq<Tree>): (r: Result<string>)
    ensures HeadsOf(ts).Err? ==> r == Err(IndexError)
  {
    var pieces :- HeadsOf(ts);
    JoinPieces(pieces)
  }

  lemma {:induction false} TokenHeads(cs: seq<Tree>)
    requires forall c :: c in cs ==> c.Leaf?
    ensures HeadsOf(cs).Ok? && TextsOf(HeadsOf(cs).value) == Ok(LeafWords(cs))
  {
    assert forall i :: 0 <= i < |cs| ==> cs[i] in cs;
    var heads := HeadsOf(cs);
    assert heads.Ok?;
    var ps := heads.value;
    assert forall i :: 0 <= i < |cs| ==> ps[i] == Text(cs[i].word);
    TokenWords(cs);
    var words := TextsOf(ps);
    assert words.Ok?;
    assert words.value == LeafWords(cs);
  }

  /** The words of a run of tokens are the tokens' words one for one. */
  lemma {:induction false} TokenWords(cs: seq<Tree>)
    requires forall c :: c in cs ==> c.Leaf?
    ensures |LeafWords(cs)| == |cs| && forall i :: 0 <= i < |cs| ==> LeafWords(cs)[i] == cs[i].word
  {
    if cs != [] {
      var init := cs[..|cs| - 1];
      assert forall c :: c in init ==> c in cs;
      assert cs[|cs| - 1] in cs;
      TokenWords(init);
    }
  }

  function PeopleOf(persons: seq<Tree>): (r: Result<seq<string>>)
    requires forall p :: p in persons ==> p.Node?
    ensures r.Ok? ==> |r.value| == |persons|
    ensures r.Ok? ==> forall i :: 0 <= i < |persons| ==> PersonName(persons[i]) == Ok(r.value[i])
    ensures r.Ok? <==> forall i :: 0 <= i < |persons| ==> PersonName(persons[i]).Ok?
    ensures (forall p :: p in persons ==> Flat(p)) ==> r.Ok?
  {
    if persons == [] then Ok([])
    else
      assert persons[0] in persons && forall p :: p in persons[1..] ==> p in persons;
      var name :- PersonName(persons[0]);
      var rest :- PeopleOf(persons[1..]);
      Ok([name] + rest)
  }

  /** parse_people: one name per PERSON group, in sentence order; none without such groups. */
  function ParsePeople(tree: Tree): (r: Result<seq<string>>)
    ensures r.Ok? ==> |r.value| == |Collect(tree, "PERSON")|
    ensures r.Ok? ==> forall i :: 0 <= i < |r.value| ==> PersonName(Collect(tree, "PERSON")[i]) == Ok(r.value[i])
    ensures !HasLabel(tree, "PERSON") ==> r == Ok([])
    ensures r.Ok? <==> forall i :: 0 <= i < |Collect(tree, "PERSON")| ==> PersonName(Collect(tree, "PERSON")[i]).Ok?
    ensures (forall p :: p in Collect(tree, "PERSON") ==> Flat(p)) ==> r.Ok?
  {
    CollectEmptyIff(tree, "PERSON");
    PeopleOf(Collect(tree, "PERSON"))
  }

  /** The place of parse: when a PLACE group exists, the first fields of the first
      ORGANIZATION group in the whole sentence (IndexError if there is none). */
  function Place(tree: Tree): (r: Result<Option<seq<Piece>>>)
    ensures !HasLabel(tree, "PLACE") ==> r == Ok(None)
    ensures HasLabel(tree, "PLACE") && !HasLabel(tree, "ORGANIZATION") ==> r == Err(IndexError)
    ensures r.Ok? && r.value.Some? ==>
      HasLabel(tree, "PLACE") && Collect(tree, "ORGANIZATION") != [] &&
      HeadsOf(Collect(tree, "ORGANIZATION")[0].children) == Ok(r.value.value)
    ensures (HasLabel(tree, "PLACE") && Collect(tree, "ORGANIZATION") != [] &&
             HeadsOf(Collect(tree, "ORGANIZATION")[0].children).Err?) ==> r == Err(IndexError)
    ensures (HasLabel(tree, "PLACE") && Collect(tree, "ORGANIZATION") != [] &&
             HeadsOf(Collect(tree, "ORGANIZATION")[0].children).Ok?) ==>
      r == Ok(Some(HeadsOf(Collect(tree, "ORGANIZATION")[0].children).value))
  {
    CollectEmptyIff(tree, "PLACE");
    CollectEmptyIff(tree, "ORGANIZATION");
    if Collect(tree, "PLACE") == [] then Ok(None)
    else
      var orgs := Collect(tree, "ORGANIZATION");
      if orgs == [] then Err(IndexError)
      else
        var pieces :- HeadsOf(orgs[0].children);
        Ok(Some(pieces))
  }

  /** join_date_time: the date part of `date` with the clock of `time`; if `date` is today and
      `time` fell on another day of the month, the date moves by the difference of the days of
      the month (not of the dates). */
  function JoinDateTime(now: DateTime, date: DateTime, time: DateTime): (r: Result<DateTime>)
    requires Valid(now) && Valid(date) && Valid(time)
    ensures r.Ok? ==> Valid(r.value) && r.value == time.(date := r.value.date)
    ensures date.date != now.date || time.date.day == now.date.day ==> r == Ok(time.(date := date.date))
    ensures date.date == now.date && r.Ok? ==>
      Ordinal(r.value.date) == Ordinal(now.date) + (time.date.day - now.date.day)
  {
    var dayDiff := time.date.day - now.date.day;
    if dayDiff != 0 && now.date == date.date then
      var moved :- PlusDays(date, dayDiff);
      Ok(time.(date := moved.date))
    else Ok(time.(date := date.date))
  }

  /** At the end of a month a time rolled over to the 1st of the next month moves today's date
      back by 30 days instead of forward by one. */
  lemma MonthEndRollBack()
    ensures var now := DateTime(Date(2024, 1, 31), 23, 0, 0);
      var time := DateTime(Date(2024, 2, 1), 9, 0, 0);
      JoinDateTime(now, now, time) == Ok(DateTime(Date(2024, 1, 1), 9, 0, 0)) &&
      Before(DateTime(Date(2024, 1, 1), 9, 0, 0), now)
  {
    var back := AddDays(Date(2024, 1, 31), -30);
    OrdinalOrder(back, Date(2024, 1, 1));
    assert back == Date(2024, 1, 1);
  }

  /** The event of one sentence; `when` carries the date and time the JSON reply formats. */
  datatype Event = Event(action: string, when: DateTime, people: seq<string>, place: Option<seq<Piece>>)

  /** The default time: today at 10:00:00. */
  function TenToday(now: DateTime): DateTime {
    DateTime(now.date, 10, 0, 0)
  }

  /** The moment parse builds: the first DATE group's date (default now); the first TIME
      group's time, resolved against that date (default 10:00 today); both defaulted (compared
      by value) means tomorrow; then the join of date and time. */
  function MomentOf(root: Tree, now: DateTime): (r: Result<DateTime>)
    requires Valid(now)
    ensures r.Ok? ==> Valid(r.value)
  {
    var dates := Collect(root, "DATE");
    var parsedDate :- if dates != [] then ParsedDate(dates[0], now) else Ok(None);
    var date := parsedDate.GetOr(now);
    var times := Collect(root, "TIME");
    var parsedTime :- if times != [] then ParseTime(times[0], date, now) else Ok(None);
    var time := parsedTime.GetOr(TenToday(now));
    var day :- if date == now && time == TenToday(now) then PlusDays(now, 1) else Ok(date);
    JoinDateTime(now, day, time)
  }

  /** The pure body of parse: the action, the moment, the people, the place, and strftime's
      refusal of years before 1900. */
  function EventOf(root: Tree, now: DateTime): (r: Result<Event>)
    requires root.Node? && Valid(now)
    ensures r.Ok? ==> Valid(r.value.when) && r.value.when.date.year >= 1900
    ensures r.Ok? ==> Action(root) == Ok(r.value.action) && ParsePeople(root) == Ok(r.value.people)
    ensures r.Ok? ==> Place(root) == Ok(r.value.place)
    ensures r.Ok? <==> Action(root).Ok? && MomentOf(root, now).Ok? && MomentOf(root, now).value.date.year >= 1900 &&
                       ParsePeople(root).Ok? && Place(root).Ok?
  {
    var action :- Action(root);
    var when :- MomentOf(root, now);
    var people :- ParsePeople(root);
    var place :- Place(root);
    if when.date.year < 1900 then Err(ValueError) else Ok(Event(action, when, people, place))
  }

  /** parse, filling the event field by field. */
  method Parse(root: Tree, now: DateTime) returns (r: Result<Event>)
    requires root.Node? && Valid(now)
    ensures r == EventOf(root, now)
  {
    var action :- ParseAction(root);
    var when :- ResolveMoment(root, now);
    var people :- ParsePeople(root);
    var place :- Place(root);
    if when.date.year < 1900 {
      return Err(ValueError);
    }
    return Ok(Event(action, when, people, place));
  }

  /** The date and time steps of parse, updating the two defaults in turn. */
  method ResolveMoment(root: Tree, now: DateTime) returns (r: Result<DateTime>)
    requires Valid(now)
    ensures r == MomentOf(root, now)
  {
    var date := now;
    var timenow := TenToday(now);
    var time := timenow;
    var dates := Collect(root, "DATE");
    if dates != [] {
      var parsed :- ParseDate(dates[0], now);
      if parsed.Some? {
        date := parsed.value;
      }
    }
    var times := Collect(root, "TIME");
    if times != [] {
      var parsed :- ParseTime(times[0], date, now);
      if parsed.Some? {
        time := parsed.value;
      }
    }
    if date == now && time == timenow {
      date :- PlusDays(now, 1);
    }
    r := JoinDateTime(now, date, time);
  }

  /** With no DATE group, and either no TIME group or one that resolves to 10:00 today, the
      event is tomorrow at 10:00: an explicit "10:00" today counts as the default. */
  lemma DefaultIsTomorrowAtTen(root: Tree, now: DateTime)
    requires root.Node? && Valid(now)
    requires Collect(root, "DATE") == []
    requires Collect(root, "TIME") == [] || ParseTime(Collect(root, "TIME")[0], now, now) == Ok(None) ||
             ParseTime(Collect(root, "TIME")[0], now, now) == Ok(Some(TenToday(now)))
    ensures EventOf(root, now).Ok? ==>
      EventOf(root, now).value.when == DateTime(AddDays(now.date, 1), 10, 0, 0)
  {
  }

  /** Whatever the first DATE and TIME groups resolve to (`pd`, `pt`, each possibly nothing, and
      `pt` resolved against the date `pd` gives), unless both fall back to their defaults the
      event's moment is the join of the date (default now) and the time (default 10:00 today). */
  lemma EventWhenResolved(root: Tree, now: DateTime, pd: Option<DateTime>, pt: Option<DateTime>)
    requires root.Node? && Valid(now)
    requires (if Collect(root, "DATE") != [] then ParsedDate(Collect(root, "DATE")[0], now) else Ok(None)) == Ok(pd)
    requires (if Collect(root, "TIME") != [] then ParseTime(Collect(root, "TIME")[0], pd.GetOr(now), now) else Ok(None)) == Ok(pt)
    requires pd.GetOr(now) != now || pt.GetOr(TenToday(now)) != TenToday(now)
    ensures EventOf(root, now).Ok? ==>
      JoinDateTime(now, pd.GetOr(now), pt.GetOr(TenToday(now))) == Ok(EventOf(root, now).value.when)
  {
  }

  /** A date without a time ("lunch tomorrow"): the event is on that date at 10:00. */
  lemma DateOnlyEvent(root: Tree, now: DateTime, d: DateTime)
    requires root.Node? && Valid(now)
    requires Collect(root, "DATE") != [] && ParsedDate(Collect(root, "DATE")[0], now) == Ok(Some(d))
    requires Collect(root, "TIME") == [] && d != now
    ensures EventOf(root, now).Ok? ==> EventOf(root, now).value.when == DateTime(d.date, 10, 0, 0)
  {
    EventWhenResolved(root, now, Some(d), None);
  }

  /** A time without a date ("at 3pm"): a time resolved to today is the event's moment as is. */
  lemma TimeOnlyEvent(root: Tree, now: DateTime, t: DateTime)
    requires root.Node? && Valid(now)
    requires Collect(root, "DATE") == []
    requires Collect(root, "TIME") != [] && ParseTime(Collect(root, "TIME")[0], now, now) == Ok(Some(t))
    requires t != TenToday(now) && t.date == now.date
    ensures EventOf(root, now).Ok? ==> EventOf(root, now).value.when == t
  {
    EventWhenResolved(root, now, None, Some(t));
  }

  /** A PLACE group without any ORGANIZATION group in the sentence makes parse fail. */
  lemma PlaceNeedsOrganization(root: Tree, now: DateTime)
    requires root.Node? && Valid(now)
    requires HasLabel(root, "PLACE") && !HasLabel(root, "ORGANIZATION")
    ensures EventOf(root, now).Err?
  {
  }
}
