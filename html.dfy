/** A parsed HTML document as BeautifulSoup's `html.parser` tree builder
    presents it: a sequence of top-level nodes, each an element with a tag
    name, an attribute dictionary and children, or a run of text. Tag and
    attribute names come out of that parser in lower case. */
module Html {
  import opened Wrappers

  type Attrs = map<string, string>

  datatype Node =
    | Element(tag: string, attrs: Attrs, children: seq<Node>)
    | Text(text: string)

  // ---------------------------------------------------------------------
  // find_all: every element, in document order

  /** Every element among `nodes` and their descendants, in document order
      (the order `find_all` walks). */
  function Elements(nodes: seq<Node>): seq<Node>
    decreases nodes, 1
  {
    if nodes == [] then [] else ElementsOf(nodes[0]) + Elements(nodes[1..])
  }

  /** `n` itself if it is an element, then its descendants, in document order. */
  function ElementsOf(n: Node): seq<Node>
    decreases n, 0
  {
    match n
    case Text(_) => []
    case Element(_, _, cs) => [n] + Elements(cs)
  }

  lemma {:induction false} ElementsAreElements(nodes: seq<Node>)
    ensures forall i :: 0 <= i < |Elements(nodes)| ==> Elements(nodes)[i].Element?
    decreases nodes, 1
  {
    if nodes != [] {
      ElementsOfAreElements(nodes[0]);
      ElementsAreElements(nodes[1..]);
    }
  }

  lemma {:induction false} ElementsOfAreElements(n: Node)
    ensures forall i :: 0 <= i < |ElementsOf(n)| ==> ElementsOf(n)[i].Element?
    decreases n, 0
  {
    if n.Element? {
      ElementsAreElements(n.children);
    }
  }

  lemma {:induction false} ElementsAppend(a: seq<Node>, b: seq<Node>)
    ensures Elements(a + b) == Elements(a) + Elements(b)
  {
    if a != [] {
      ElementsAppend(a[1..], b);
      assert (a + b)[1..] == a[1..] + b;
    } else {
      assert a + b == b;
    }
  }

  /** Elements of `es` whose tag is one of `tags`, in order. */
  function WithTag(es: seq<Node>, tags: set<string>): (r: seq<Node>)
    ensures |r| <= |es|
  {
    if es == [] then []
    else if es[0].Element? && es[0].tag in tags then [es[0]] + WithTag(es[1..], tags)
    else WithTag(es[1..], tags)
  }

  /** `soup.find_all(tags)` (on a tag: its descendants only). */
  function FindAll(nodes: seq<Node>, tags: set<string>): seq<Node> {
    WithTag(Elements(nodes), tags)
  }

  lemma {:induction false} WithTagTags(es: seq<Node>, tags: set<string>)
    ensures forall i :: 0 <= i < |WithTag(es, tags)| ==>
      WithTag(es, tags)[i].Element? && WithTag(es, tags)[i].tag in tags
  {
    if es != [] {
      WithTagTags(es[1..], tags);
    }
  }

  lemma {:induction false} WithTagNone(es: seq<Node>, tags: set<string>)
    requires forall i :: 0 <= i < |es| ==> !(es[i].Element? && es[i].tag in tags)
    ensures WithTag(es, tags) == []
  {
    if es != [] {
      WithTagNone(es[1..], tags);
    }
  }

  // ---------------------------------------------------------------------
  // rewriting every element in place

  /** The new tag and attributes an element gets; children are kept. */
  type Rule = (string, Attrs) -> (string, Attrs)

  /** Apply `rule` to every element of the tree, keeping its shape. */
  function RewriteNodes(rule: Rule, nodes: seq<Node>): (r: seq<Node>)
    ensures |r| == |nodes|
    decreases nodes, 1
  {
    if nodes == [] then [] else [RewriteNode(rule, nodes[0])] + RewriteNodes(rule, nodes[1..])
  }

  function RewriteNode(rule: Rule, n: Node): (r: Node)
    ensures r.Element? == n.Element?
    decreases n, 0
  {
    match n
    case Text(_) => n
    case Element(t, a, cs) =>
      var (t', a') := rule(t, a);
      Element(t', a', RewriteNodes(rule, cs))
  }

  /** Rewriting commutes with listing the elements: the i-th element of the
      result is the rewrite of the i-th element of the input. */
  lemma {:induction false} ElementsOfRewrite(rule: Rule, nodes: seq<Node>)
    ensures Elements(RewriteNodes(rule, nodes)) == RewriteNodes(rule, Elements(nodes))
    decreases nodes, 1
  {
    if nodes != [] {
      ElementsOfRewriteNode(rule, nodes[0]);
      ElementsOfRewrite(rule, nodes[1..]);
      RewriteNodesAppend(rule, ElementsOf(nodes[0]), Elements(nodes[1..]));
    }
  }

  lemma {:induction false} ElementsOfRewriteNode(rule: Rule, n: Node)
    ensures ElementsOf(RewriteNode(rule, n)) == RewriteNodes(rule, ElementsOf(n))
    decreases n, 0
  {
    if n.Element? {
      ElementsOfRewrite(rule, n.children);
      RewriteNodesAppend(rule, [n], Elements(n.children));
    }
  }

  lemma {:induction false} RewriteNodesAppend(rule: Rule, a: seq<Node>, b: seq<Node>)
    ensures RewriteNodes(rule, a + b) == RewriteNodes(rule, a) + RewriteNodes(rule, b)
  {
    if a != [] {
      RewriteNodesAppend(rule, a[1..], b);
      assert (a + b)[1..] == a[1..] + b;
    } else {
      assert a + b == b;
    }
  }

  lemma {:induction false} RewriteNodesAt(rule: Rule, nodes: seq<Node>, i: nat)
    requires i < |nodes|
    ensures RewriteNodes(rule, nodes)[i] == RewriteNode(rule, nodes[i])
  {
    if i > 0 {
      RewriteNodesAt(rule, nodes[1..], i - 1);
    }
  }

  /** After a rewrite, the tag and attributes of every element are the rule's
      output on the tag and attributes of the element at the same position. */
  lemma RewrittenElement(rule: Rule, nodes: seq<Node>, i: nat)
    requires i < |Elements(nodes)|
    ensures |Elements(RewriteNodes(rule, nodes))| == |Elements(nodes)|
    ensures var e := Elements(nodes)[i];
            var e' := Elements(RewriteNodes(rule, nodes))[i];
            e.Element? && e'.Element? && (e'.tag, e'.attrs) == rule(e.tag, e.attrs)
  {
    ElementsOfRewrite(rule, nodes);
    RewriteNodesAt(rule, Elements(nodes), i);
    ElementsAreElements(nodes);
  }

  /** Rewriting twice with a rule that is idempotent on every element is the
      same as rewriting once. */
  lemma {:induction false} RewriteIdempotent(rule: Rule, nodes: seq<Node>)
    requires forall t, a :: rule(rule(t, a).0, rule(t, a).1) == rule(t, a)
    ensures RewriteNodes(rule, RewriteNodes(rule, nodes)) == RewriteNodes(rule, nodes)
    decreases nodes, 1
  {
    if nodes != [] {
      RewriteNodeIdempotent(rule, nodes[0]);
      RewriteIdempotent(rule, nodes[1..]);
    }
  }

  lemma {:induction false} RewriteNodeIdempotent(rule: Rule, n: Node)
    requires forall t, a :: rule(rule(t, a).0, rule(t, a).1) == rule(t, a)
    ensures RewriteNode(rule, RewriteNode(rule, n)) == RewriteNode(rule, n)
    decreases n, 0
  {
    if n.Element? {
      RewriteIdempotent(rule, n.children);
    }
  }

  // ---------------------------------------------------------------------
  // soup.body / soup.head and appending a child to it

  /** The first element named `tag` in document order (`soup.find(tag)`). */
  function FindFirst(nodes: seq<Node>, tag: string): Option<Node>
    decreases nodes, 1
  {
    if nodes == [] then None
    else
      match FindFirstIn(nodes[0], tag)
      case Some(e) => Some(e)
      case None => FindFirst(nodes[1..], tag)
  }

  function FindFirstIn(n: Node, tag: string): Option<Node>
    decreases n, 0
  {
    match n
    case Text(_) => None
    case Element(t, _, cs) => if t == tag then Some(n) else FindFirst(cs, tag)
  }

  /** `e.append(child)`. */
  function WithChild(e: Node, child: Node): Node
    requires e.Element?
  {
    e.(children := e.children + [child])
  }

  /** `soup.find(tag).append(child)`: the tree with `child` appended to the
      children of the first element named `tag`; unchanged if there is none. */
  function AppendToFirst(nodes: seq<Node>, tag: string, child: Node): seq<Node>
    decreases nodes, 1
  {
    if nodes == [] then []
    else if FindFirstIn(nodes[0], tag).Some? then
      [AppendToFirstIn(nodes[0], tag, child)] + nodes[1..]
    else [nodes[0]] + AppendToFirst(nodes[1..], tag, child)
  }

  function AppendToFirstIn(n: Node, tag: string, child: Node): Node
    decreases n, 0
  {
    match n
    case Text(_) => n
    case Element(t, a, cs) =>
      if t == tag then Element(t, a, cs + [child]) else Element(t, a, AppendToFirst(cs, tag, child))
  }

  /** After the append, the first element named `tag` is the old one with
      `child` as its last child. */
  lemma {:induction false} AppendToFirstFound(nodes: seq<Node>, tag: string, child: Node)
    requires FindFirst(nodes, tag).Some?
    ensures FindFirst(nodes, tag).value.Element?
    ensures FindFirst(AppendToFirst(nodes, tag, child), tag)
         == Some(WithChild(FindFirst(nodes, tag).value, child))
    decreases nodes, 1
  {
    if FindFirstIn(nodes[0], tag).Some? {
      AppendToFirstInFound(nodes[0], tag, child);
    } else {
      AppendToFirstFound(nodes[1..], tag, child);
      var r := AppendToFirst(nodes, tag, child);
      assert r[0] == nodes[0] && r[1..] == AppendToFirst(nodes[1..], tag, child);
    }
  }

  lemma {:induction false} AppendToFirstInFound(n: Node, tag: string, child: Node)
    requires FindFirstIn(n, tag).Some?
    ensures FindFirstIn(n, tag).value.Element?
    ensures FindFirstIn(AppendToFirstIn(n, tag, child), tag)
         == Some(WithChild(FindFirstIn(n, tag).value, child))
    decreases n, 0
  {
    if n.tag != tag {
      AppendToFirstFound(n.children, tag, child);
    }
  }

  /** With no element named `tag`, appending to it changes nothing. */
  lemma {:induction false} AppendToFirstAbsent(nodes: seq<Node>, tag: string, child: Node)
    requires FindFirst(nodes, tag).None?
    ensures AppendToFirst(nodes, tag, child) == nodes
    decreases nodes, 1
  {
    if nodes != [] {
      AppendToFirstAbsent(nodes[1..], tag, child);
    }
  }

  /** The append adds exactly the elements of `child` to the document. */
  lemma {:induction false} AppendToFirstCount(nodes: seq<Node>, tag: string, child: Node)
    requires FindFirst(nodes, tag).Some?
    ensures |Elements(AppendToFirst(nodes, tag, child))| == |Elements(nodes)| + |ElementsOf(child)|
    decreases nodes, 1
  {
    var r := AppendToFirst(nodes, tag, child);
    if FindFirstIn(nodes[0], tag).Some? {
      AppendToFirstInCount(nodes[0], tag, child);
      assert r[1..] == nodes[1..];
    } else {
      AppendToFirstCount(nodes[1..], tag, child);
      assert r[0] == nodes[0] && r[1..] == AppendToFirst(nodes[1..], tag, child);
    }
  }

  lemma {:induction false} AppendToFirstInCount(n: Node, tag: string, child: Node)
    requires FindFirstIn(n, tag).Some?
    ensures |ElementsOf(AppendToFirstIn(n, tag, child))| == |ElementsOf(n)| + |ElementsOf(child)|
    decreases n, 0
  {
    if n.tag == tag {
      ElementsAppend(n.children, [child]);
      assert [child][1..] == [];
    } else {
      AppendToFirstCount(n.children, tag, child);
    }
  }
}
