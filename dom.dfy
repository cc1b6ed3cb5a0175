/** An abstract HTML document: a tree of elements, each with a tag name, an attribute map,
    a class list and children, and text leaves. Queries walk the elements in document
    (pre-)order, as BeautifulSoup's `find_all` does; `find` is the first of them. */
module Dom {
  import opened Basics
  import opened Text

  datatype Node =
    | TextNode(text: string)
    | Element(tag: string, attrs: map<string, string>, classes: seq<string>, children: seq<Node>)

  /** An element of the document together with the tags of all its ancestors, outermost
      first, so that a parent lookup sees the whole document and not just a search scope. */
  datatype Elem = Elem(tag: string, attrs: map<string, string>, classes: seq<string>,
                       children: seq<Node>, ancestors: seq<string>)

  /** The elements of `nodes` and of all their descendants, in pre-order. */
  function Flatten(nodes: seq<Node>, ancestors: seq<string>): seq<Elem>
    decreases nodes
  {
    if nodes == [] then []
    else
      var here := match nodes[0]
        case TextNode(_) => []
        case Element(t, a, c, ch) => [Elem(t, a, c, ch, ancestors)] + Flatten(ch, ancestors + [t]);
      here + Flatten(nodes[1..], ancestors)
  }

  /** Every element of a document, in document order (`soup.find_all(True)`). */
  function Elements(doc: seq<Node>): seq<Elem> {
    Flatten(doc, [])
  }

  /** The elements strictly inside `e`, in document order (`e.find_all(True)`). */
  function Descendants(e: Elem): seq<Elem> {
    Flatten(e.children, e.ancestors + [e.tag])
  }

  /** The text of the leaves under `nodes`, concatenated in order (`get_text()`). */
  function TextOfAll(nodes: seq<Node>): string
    decreases nodes
  {
    if nodes == [] then ""
    else
      var here := match nodes[0]
        case TextNode(s) => s
        case Element(_, _, _, ch) => TextOfAll(ch);
      here + TextOfAll(nodes[1..])
  }

  function TextOf(e: Elem): string {
    TextOfAll(e.children)
  }

  /** `e.get(name, default)`. */
  function AttrOr(e: Elem, name: string, default: string): string {
    if name in e.attrs then e.attrs[name] else default
  }

  /** `e.find_parent(tag)` finds something. */
  predicate HasAncestor(e: Elem, tag: string) {
    tag in e.ancestors
  }

  // ---------------------------------------------------------------------------
  // First match in document order

  /** `xs[i]` is the first element of `xs` that satisfies `p`. */
  predicate FirstMatch(xs: seq<Elem>, p: Elem -> bool, i: int) {
    0 <= i < |xs| && p(xs[i]) && forall k :: 0 <= k < i ==> !p(xs[k])
  }

  /** No element of `xs` satisfies `p`. */
  predicate NoMatch(xs: seq<Elem>, p: Elem -> bool) {
    forall k :: 0 <= k < |xs| ==> !p(xs[k])
  }

  /** Position of the first element satisfying `p`, or `|xs|` when there is none. */
  function FindIndex(xs: seq<Elem>, p: Elem -> bool): (i: nat)
    ensures i <= |xs|
    ensures i < |xs| ==> FirstMatch(xs, p, i)
    ensures i == |xs| ==> NoMatch(xs, p)
    decreases |xs|
  {
    if xs == [] then 0
    else if p(xs[0]) then 0
    else
      var j := FindIndex(xs[1..], p);
      assert forall k :: 1 <= k < |xs| ==> xs[k] == xs[1..][k - 1];
      1 + j
  }

  /** There is at most one first match. */
  lemma FirstMatchUnique(xs: seq<Elem>, p: Elem -> bool, i: int, j: int)
    requires FirstMatch(xs, p, i) && FirstMatch(xs, p, j)
    ensures i == j
  {
  }

  /** `find`: the first element satisfying `p`, if any. */
  function Find(xs: seq<Elem>, p: Elem -> bool): (r: Option<Elem>)
    ensures r.None? <==> NoMatch(xs, p)
    ensures forall i :: FirstMatch(xs, p, i) ==> r == Some(xs[i])
  {
    var i := FindIndex(xs, p);
    if i < |xs| then Some(xs[i]) else None
  }

  /** `find_all`: every element satisfying `p`, in document order. */
  function FindAll(xs: seq<Elem>, p: Elem -> bool): (r: seq<Elem>)
    ensures |r| <= |xs|
    ensures forall i :: 0 <= i < |r| ==> p(r[i]) && r[i] in xs
    ensures forall x :: x in xs && p(x) ==> x in r
    decreases |xs|
  {
    if xs == [] then []
    else
      var rest := FindAll(xs[1..], p);
      assert forall x :: x in xs[1..] ==> x in xs;
      assert forall x :: x in xs ==> x == xs[0] || x in xs[1..];
      if p(xs[0]) then [xs[0]] + rest else rest
  }

  /** Skipping a first element that does not match shifts every first match by one. */
  lemma FirstMatchTail(xs: seq<Elem>, p: Elem -> bool)
    requires xs != [] && !p(xs[0])
    ensures forall i :: FirstMatch(xs, p, i) ==> FirstMatch(xs[1..], p, i - 1)
    ensures NoMatch(xs, p) ==> NoMatch(xs[1..], p)
  {
    forall i | FirstMatch(xs, p, i)
      ensures FirstMatch(xs[1..], p, i - 1)
    {
      assert forall k :: 0 <= k < i - 1 ==> xs[1..][k] == xs[k + 1];
    }
    if NoMatch(xs, p) {
      assert forall k :: 0 <= k < |xs| - 1 ==> xs[1..][k] == xs[k + 1];
    }
  }

  /** `find_all` over a list grown by one element. */
  lemma {:induction false} FindAllSnoc(xs: seq<Elem>, x: Elem, p: Elem -> bool)
    ensures FindAll(xs + [x], p) == FindAll(xs, p) + (if p(x) then [x] else [])
    decreases |xs|
  {
    if xs == [] {
      assert [x][1..] == [];
    } else {
      assert (xs + [x])[1..] == xs[1..] + [x];
      FindAllSnoc(xs[1..], x, p);
    }
  }

  /** `find` is the first result of `find_all`. */
  lemma {:induction false} FindIsFirstOfFindAll(xs: seq<Elem>, p: Elem -> bool)
    ensures Find(xs, p) == if FindAll(xs, p) == [] then None else Some(FindAll(xs, p)[0])
    decreases |xs|
  {
    if xs != [] && !p(xs[0]) {
      FindIsFirstOfFindAll(xs[1..], p);
      var i := FindIndex(xs[1..], p);
      if i < |xs| - 1 {
        assert FirstMatch(xs, p, i + 1);
      } else {
        assert NoMatch(xs, p);
      }
    }
  }

  // ---------------------------------------------------------------------------
  // The element filters the extractors use

  /** A class value satisfies a `class_` matcher (BeautifulSoup tries each value). */
  predicate SomeClass(e: Elem, p: string -> bool) {
    exists k :: 0 <= k < |e.classes| && p(e.classes[k])
  }

  predicate IsH1(e: Elem) { e.tag == "h1" }
  predicate IsTitleTag(e: Elem) { e.tag == "title" }
  predicate IsP(e: Elem) { e.tag == "p" }
  predicate IsPOrEm(e: Elem) { e.tag == "p" || e.tag == "em" }

  /** `find("meta", property=value)` / `find("meta", attrs={name: value})`. */
  predicate IsMeta(e: Elem, name: string, value: string) {
    e.tag == "meta" && name in e.attrs && e.attrs[name] == value
  }

  predicate IsOgTitle(e: Elem) { IsMeta(e, "property", "og:title") }
  predicate IsOgDescription(e: Elem) { IsMeta(e, "property", "og:description") }
  predicate IsNamedDescription(e: Elem) { IsMeta(e, "name", "description") }
  predicate IsPublishedTime(e: Elem) { IsMeta(e, "property", "article:published_time") }

  /** `find_all("img", src=True)`: an `img` that has a `src` attribute, whatever its value. */
  predicate IsImgWithSrc(e: Elem) { e.tag == "img" && "src" in e.attrs }

  predicate IsContentMainClass(c: string) { c == "ContentMain" }
  predicate IsMainContentZoneClass(c: string) { c == "MainContentZone" }
  predicate MentionsContent(c: string) { Contains(Lower(c), "content") }
  predicate MentionsDate(c: string) {
    var l := Lower(c);
    Contains(l, "date") || Contains(l, "published") || Contains(l, "modified")
  }

  predicate IsContentMain(e: Elem) { e.tag == "div" && SomeClass(e, IsContentMainClass) }
  predicate IsMainContentZone(e: Elem) { e.tag == "div" && SomeClass(e, IsMainContentZoneClass) }
  predicate IsContentDiv(e: Elem) { e.tag == "div" && SomeClass(e, MentionsContent) }
  predicate IsDateBox(e: Elem) { (e.tag == "span" || e.tag == "div") && SomeClass(e, MentionsDate) }
}
