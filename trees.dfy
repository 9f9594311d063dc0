/** The chunked sentence tree and the generic traversals over it (cal.py lines 75-127). */
module Trees {

  /** A token is a `Leaf(word, tag)` (an NLTK `(word, tag)` tuple); a group is a
      `Node(category, children)` (an `nltk.Tree`). Only groups have a category. */
  datatype Tree = Leaf(word: string, tag: string) | Node(category: string, children: seq<Tree>)

  /** `x` occurs somewhere in `t`, `t` itself included. */
  ghost predicate SubtreeOf(x: Tree, t: Tree)
    decreases t
  {
    x == t || (t.Node? && exists c :: c in t.children && SubtreeOf(x, c))
  }

  /** Some group labelled `category` occurs in `t`, `t` itself included. */
  predicate HasLabel(t: Tree, category: string)
    decreases t, 1
  {
    t.Node? && (t.category == category || HasLabelAmong(t.children, category))
  }

  /** Some group labelled `category` occurs in one of `ts`. */
  predicate HasLabelAmong(ts: seq<Tree>, category: string)
    decreases ts, 0
  {
    ts != [] && (HasLabel(ts[0], category) || HasLabelAmong(ts[1..], category))
  }

  /** exrt_tree: the groups labelled `category`, left to right. A group that matches is taken whole
      and not searched further; a token yields nothing. */
  function Collect(t: Tree, category: string): (r: seq<Tree>)
    ensures forall x :: x in r ==> x.Node? && x.category == category && SubtreeOf(x, t)
    ensures t.Node? && t.category == category ==> r == [t]
    decreases t, 1
  {
    match t
    case Leaf(_, _) => []
    case Node(l, cs) => if l == category then [t] else CollectAll(cs, category)
  }

  /** The concatenation of `Collect` over a sequence of siblings (the loop at cal.py:83-84). */
  function CollectAll(ts: seq<Tree>, category: string): (r: seq<Tree>)
    ensures forall x :: x in r ==> x.Node? && x.category == category && exists c :: c in ts && SubtreeOf(x, c)
    decreases ts, 0
  {
    if ts == [] then []
    else
      var head, tail := Collect(ts[0], category), CollectAll(ts[1..], category);
      assert ts[0] in ts && forall c :: c in ts[1..] ==> c in ts;
      assert forall x :: x in head ==> exists c :: c in ts && SubtreeOf(x, c);
      head + tail
  }

  /** ne_exrt_tree: a token, or a group with another category, is kept as one unit; a group labelled
      `category` is replaced by what `Collect` (not `Exclude`) finds among its children. */
  function Exclude(t: Tree, category: string): (r: seq<Tree>)
    ensures forall x :: x in r ==> SubtreeOf(x, t)
  {
    match t
    case Leaf(_, _) => [t]
    case Node(l, cs) => if l != category then [t] else CollectAll(cs, category)
  }

  /** extract_tag: the words of the tokens tagged `tag`, left to right. */
  function ExtractTag(t: Tree, tag: string): (r: seq<string>)
    ensures forall w :: w in r <==> SubtreeOf(Leaf(w, tag), t)
    ensures t.Leaf? ==> r == if t.tag == tag then [t.word] else []
    decreases t, 1
  {
    match t
    case Leaf(w, g) => if g == tag then [w] else []
    case Node(_, cs) => ExtractTagAll(cs, tag)
  }

  /** The concatenation of `ExtractTag` over a sequence of siblings. */
  function ExtractTagAll(ts: seq<Tree>, tag: string): (r: seq<string>)
    ensures forall w :: w in r <==> exists c :: c in ts && SubtreeOf(Leaf(w, tag), c)
    decreases ts, 0
  {
    if ts == [] then []
    else
      assert forall c :: c in ts <==> c == ts[0] || c in ts[1..];
      ExtractTag(ts[0], tag) + ExtractTagAll(ts[1..], tag)
  }

  /** exrt_tags: written separately in the source, it computes exactly what extract_tag does. */
  function ExrtTags(t: Tree, tag: string): (r: seq<string>)
    ensures r == ExtractTag(t, tag)
  {
    match t
    case Leaf(w, g) => if g == tag then [w] else []
    case Node(_, cs) => ExtractTagAll(cs, tag)
  }

  /** Collecting over siblings keeps their order: the result for `a + b` is that for `a`, then that for `b`. */
  lemma {:induction false} CollectAllAppend(a: seq<Tree>, b: seq<Tree>, category: string)
    ensures CollectAll(a + b, category) == CollectAll(a, category) + CollectAll(b, category)
  {
    if a == [] {
      assert a + b == b;
    } else {
      assert (a + b)[0] == a[0];
      assert (a + b)[1..] == a[1..] + b;
      CollectAllAppend(a[1..], b, category);
    }
  }

  /** extract_tag over siblings keeps their order and every repetition: the words for `a + b` are
      those for `a`, then those for `b`. */
  lemma {:induction false} ExtractTagAllAppend(a: seq<Tree>, b: seq<Tree>, tag: string)
    ensures ExtractTagAll(a + b, tag) == ExtractTagAll(a, tag) + ExtractTagAll(b, tag)
  {
    if a == [] {
      assert a + b == b;
    } else {
      assert (a + b)[0] == a[0];
      assert (a + b)[1..] == a[1..] + b;
      ExtractTagAllAppend(a[1..], b, tag);
    }
  }

  /** A run of tokens that all carry the tag yields their words one for one, in order. */
  lemma {:induction false} ExtractTagOfTokens(ts: seq<Tree>, tag: string)
    requires forall i :: 0 <= i < |ts| ==> ts[i].Leaf? && ts[i].tag == tag
    ensures |ExtractTagAll(ts, tag)| == |ts|
    ensures forall i :: 0 <= i < |ts| ==> ExtractTagAll(ts, tag)[i] == ts[i].word
  {
    if ts != [] {
      ExtractTagOfTokens(ts[1..], tag);
    }
  }

  /** exrt_tree finds nothing exactly when no group in the tree carries the category. */
  lemma {:induction false} CollectEmptyIff(t: Tree, category: string)
    ensures Collect(t, category) == [] <==> !HasLabel(t, category)
    decreases t, 1
  {
    match t
    case Leaf(_, _) =>
    case Node(l, cs) =>
      if l != category {
        CollectAllEmptyIff(cs, category);
      }
  }

  lemma {:induction false} CollectAllEmptyIff(ts: seq<Tree>, category: string)
    ensures CollectAll(ts, category) == [] <==> !HasLabelAmong(ts, category)
    decreases ts, 0
  {
    if ts != [] {
      CollectEmptyIff(ts[0], category);
      CollectAllEmptyIff(ts[1..], category);
    }
  }

  /** A token, or a group with another category, passes through ne_exrt_tree unchanged. */
  lemma ExcludeKeepsOthers(t: Tree, category: string)
    requires t.Leaf? || t.category != category
    ensures Exclude(t, category) == [t]
  {
  }

  /** ne_exrt_tree on a group carrying the category drops the group with all of its own tokens and
      of its differently labelled sub-groups: only nested groups with the same category survive. */
  lemma ExcludeMatchedGroup(t: Tree, category: string)
    requires t.Node? && t.category == category
    ensures forall x :: x in Exclude(t, category) ==> x.Node? && x.category == category
    ensures forall x :: x in Exclude(t, category) ==> exists c :: c in t.children && SubtreeOf(x, c)
    ensures Exclude(t, category) == [] <==> !HasLabelAmong(t.children, category)
  {
    CollectAllEmptyIff(t.children, category);
  }
}
