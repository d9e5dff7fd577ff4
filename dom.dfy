/**
 * The part of the DOM the content script touches: element nodes with a tag name, an id
 * and a text, the selector queries `querySelector` and `querySelectorAll`, and the two
 * document links an `iframe` and a document offer (`contentDocument`, `body`).
 */
module Dom {
  import opened Text

  /** `Node.ELEMENT_NODE`. */
  const ElementNode: int := 1

  /**
   * A node of the page. Only `textContent` is written by the script; the structure is
   * fixed for the duration of one call. `descendants` lists the nodes below this one in
   * document order, which is the order both selector queries report them in.
   */
  class Node {
    const nodeType: int
    const tagName: string
    const id: string
    const descendants: seq<Node>
    /** For an `iframe`: its document once loaded, otherwise `null`. */
    const contentDocument: Node?
    /** For a document: its `body` element, `null` when there is none. */
    const body: Node?
    var textContent: string

    constructor (nodeType: int, tagName: string, id: string, descendants: seq<Node>,
                 contentDocument: Node?, body: Node?, textContent: string)
      ensures this.nodeType == nodeType && this.tagName == tagName && this.id == id
      ensures this.descendants == descendants && this.contentDocument == contentDocument
      ensures this.body == body && this.textContent == textContent
    {
      this.nodeType := nodeType;
      this.tagName := tagName;
      this.id := id;
      this.descendants := descendants;
      this.contentDocument := contentDocument;
      this.body := body;
      this.textContent := textContent;
    }
  }

  /** The selectors the script uses: `name`, `#id` and `name#id`. */
  datatype Selector = Tag(name: string) | Id(id: string) | TagAndId(name: string, id: string)

  /**
   * Whether element `n` matches `sel`. Type selectors compare names without regard to
   * ASCII case, as they do in an HTML document.
   */
  predicate Matches(n: Node, sel: Selector) {
    n.nodeType == ElementNode &&
    match sel
    case Tag(name) => ToUpper(n.tagName) == ToUpper(name)
    case Id(id) => n.id == id
    case TagAndId(name, id) => ToUpper(n.tagName) == ToUpper(name) && n.id == id
  }

  /** The first node of `nodes` that matches `sel`, or `null`. */
  function FirstMatch(nodes: seq<Node>, sel: Selector): Node? {
    if nodes == [] then null
    else if Matches(nodes[0], sel) then nodes[0]
    else FirstMatch(nodes[1..], sel)
  }

  /** `FirstMatch` finds the earliest node that matches, and `null` only when none does. */
  lemma {:induction false} FirstMatchIsFirst(nodes: seq<Node>, sel: Selector)
    ensures var r := FirstMatch(nodes, sel);
            r == null <==> forall x :: 0 <= x < |nodes| ==> !Matches(nodes[x], sel)
    ensures var r := FirstMatch(nodes, sel);
            r != null ==> exists x :: 0 <= x < |nodes| && nodes[x] == r && Matches(r, sel) &&
                                      forall y :: 0 <= y < x ==> !Matches(nodes[y], sel)
  {
    if nodes != [] && !Matches(nodes[0], sel) {
      var r := FirstMatch(nodes[1..], sel);
      FirstMatchIsFirst(nodes[1..], sel);
      assert forall x :: 0 < x < |nodes| ==> nodes[x] == nodes[1..][x - 1];
      if r != null {
        var x :| 0 <= x < |nodes[1..]| && nodes[1..][x] == r && Matches(r, sel) &&
                 forall y :: 0 <= y < x ==> !Matches(nodes[1..][y], sel);
        assert nodes[x + 1] == r;
      }
    }
  }

  /** The nodes of `nodes` that match `sel`, in their order. */
  function AllMatches(nodes: seq<Node>, sel: Selector): seq<Node> {
    if nodes == [] then []
    else if Matches(nodes[0], sel) then [nodes[0]] + AllMatches(nodes[1..], sel)
    else AllMatches(nodes[1..], sel)
  }

  /** `AllMatches` keeps exactly the nodes that match. */
  lemma {:induction false} AllMatchesFilters(nodes: seq<Node>, sel: Selector)
    ensures var r := AllMatches(nodes, sel);
            forall x :: 0 <= x < |r| ==> r[x] in nodes && Matches(r[x], sel)
    ensures var r := AllMatches(nodes, sel);
            forall x :: 0 <= x < |nodes| && Matches(nodes[x], sel) ==> nodes[x] in r
  {
    if nodes != [] {
      AllMatchesFilters(nodes[1..], sel);
      assert forall x :: 0 < x < |nodes| ==> nodes[x] == nodes[1..][x - 1];
      var rest := AllMatches(nodes[1..], sel);
      forall y | 0 <= y < |rest| ensures rest[y] in nodes {
        var k :| 0 <= k < |nodes[1..]| && nodes[1..][k] == rest[y];
        assert nodes[k + 1] == rest[y];
      }
      if Matches(nodes[0], sel) {
        var r := [nodes[0]] + rest;
        assert forall x :: 0 < x < |r| ==> r[x] == rest[x - 1];
      }
    }
  }

  /** `root.querySelector(sel)`. */
  function QuerySelector(root: Node, sel: Selector): Node? {
    FirstMatch(root.descendants, sel)
  }

  /** `root.querySelectorAll(sel)`. */
  function QuerySelectorAll(root: Node, sel: Selector): seq<Node> {
    AllMatches(root.descendants, sel)
  }
}
