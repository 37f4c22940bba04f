/**
 * An already parsed HTML document as a tree of elements, and the two
 * searches the scraper uses: `find` (the first matching descendant in
 * document order) and `find_all` (every matching descendant in document
 * order). Text nodes are left out: every search of the scraper names a tag.
 */
module Html {
  import opened Wrappers

  /** An element: its tag name, its classes, its other attributes and its child elements. */
  datatype Node = Node(tag: string, classes: set<string>, attrs: map<string, string>, children: seq<Node>)

  /** The descendants of a forest in pre-order: each tree's root, then its descendants, then the next tree. */
  function ForestDescendants(trees: seq<Node>): seq<Node>
    decreases trees
  {
    if trees == [] then []
    else [trees[0]] + ForestDescendants(trees[0].children) + ForestDescendants(trees[1..])
  }

  /** Every element strictly below `n`, in document order. */
  function Descendants(n: Node): seq<Node>
  {
    ForestDescendants(n.children)
  }

  /** The element has the tag and, for a class filter, carries that class among its classes. */
  predicate Matches(n: Node, tag: string, cls: Option<string>)
  {
    n.tag == tag && (cls.Some? ==> cls.value in n.classes)
  }

  /** Position `i` holds a match and no earlier position does. */
  predicate IsFirstMatchAt(nodes: seq<Node>, tag: string, cls: Option<string>, i: int)
  {
    0 <= i < |nodes| && Matches(nodes[i], tag, cls) && forall j :: 0 <= j < i ==> !Matches(nodes[j], tag, cls)
  }

  /** The first element of `nodes` that matches, if any. */
  function FirstMatch(nodes: seq<Node>, tag: string, cls: Option<string>): (r: Option<Node>)
    ensures r.Some? <==> exists i :: 0 <= i < |nodes| && Matches(nodes[i], tag, cls)
    ensures r.Some? ==> Matches(r.value, tag, cls)
    ensures r.Some? ==> exists i :: IsFirstMatchAt(nodes, tag, cls, i) && nodes[i] == r.value
  {
    if nodes == [] then None
    else if Matches(nodes[0], tag, cls) then Some(nodes[0])
    else
      var r := FirstMatch(nodes[1..], tag, cls);
      assert forall i :: 1 <= i < |nodes| ==> nodes[i] == nodes[1..][i - 1];
      assert r.Some? ==> exists i :: IsFirstMatchAt(nodes, tag, cls, i) && nodes[i] == r.value by {
        if r.Some? {
          var i :| IsFirstMatchAt(nodes[1..], tag, cls, i) && nodes[1..][i] == r.value;
          assert IsFirstMatchAt(nodes, tag, cls, i + 1);
        }
      }
      r
  }

  /** Every element of `nodes` that matches, in order. */
  function AllMatches(nodes: seq<Node>, tag: string, cls: Option<string>): (r: seq<Node>)
    ensures forall x :: x in r <==> x in nodes && Matches(x, tag, cls)
  {
    if nodes == [] then []
    else if Matches(nodes[0], tag, cls) then [nodes[0]] + AllMatches(nodes[1..], tag, cls)
    else AllMatches(nodes[1..], tag, cls)
  }

  /** BeautifulSoup's `n.find(tag, class_=cls)`. */
  function Find(n: Node, tag: string, cls: Option<string>): Option<Node>
  {
    FirstMatch(Descendants(n), tag, cls)
  }

  /** BeautifulSoup's `n.find_all(tag, class_=cls)`. */
  function FindAll(n: Node, tag: string, cls: Option<string>): seq<Node>
  {
    AllMatches(Descendants(n), tag, cls)
  }

  /** `find` is the head of `find_all`: nothing when nothing matches, the first match otherwise. */
  lemma {:induction false} FirstMatchIsHeadOfAll(nodes: seq<Node>, tag: string, cls: Option<string>)
    ensures FirstMatch(nodes, tag, cls) == if AllMatches(nodes, tag, cls) == [] then None
                                             else Some(AllMatches(nodes, tag, cls)[0])
  {
    if nodes != [] && !Matches(nodes[0], tag, cls) {
      FirstMatchIsHeadOfAll(nodes[1..], tag, cls);
    }
  }

  lemma FindIsHeadOfFindAll(n: Node, tag: string, cls: Option<string>)
    ensures Find(n, tag, cls) == if FindAll(n, tag, cls) == [] then None else Some(FindAll(n, tag, cls)[0])
  {
    FirstMatchIsHeadOfAll(Descendants(n), tag, cls);
  }

  /** The descendants of an element found in a forest are found in that forest too. */
  lemma {:induction false} ForestDescendantsClosed(trees: seq<Node>, d: Node, x: Node)
    requires d in ForestDescendants(trees)
    requires x in ForestDescendants(d.children)
    ensures x in ForestDescendants(trees)
    decreases trees
  {
    if trees[0] != d {
      if d in ForestDescendants(trees[0].children) {
        ForestDescendantsClosed(trees[0].children, d, x);
      } else {
        ForestDescendantsClosed(trees[1..], d, x);
      }
    }
  }

  /** What `find` finds below a found element is found from the start as well. */
  lemma FindBelowFound(n: Node, d: Node, tag: string, cls: Option<string>)
    requires d in Descendants(n)
    requires Find(d, tag, cls).Some?
    ensures Find(d, tag, cls).value in FindAll(n, tag, cls)
  {
    ForestDescendantsClosed(n.children, d, Find(d, tag, cls).value);
  }

  /** The value of an attribute, as `n.get(name, default)`. */
  function Attr(n: Node, name: string, default: string): string
  {
    if name in n.attrs then n.attrs[name] else default
  }
}
