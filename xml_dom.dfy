/**
 * The part of the LINQ to XML object model (System.Xml.Linq) that the log reader
 * consumes, as immutable values: qualified names, attributes in document order,
 * and element content made of text, comments and child elements.
 */
module XmlDom {
  import opened Wrappers

  /** An expanded XML name; the empty namespace stands for "no namespace". */
  datatype XName = XName(namespaceName: string, localName: string)

  /** The name a plain string converts to, as in `element.Attribute("Name")`. */
  function Unqualified(localName: string): XName {
    XName("", localName)
  }

  datatype XAttribute = XAttribute(name: XName, value: string)

  /** A content node of an element. CDATA sections are text nodes. */
  datatype XNode =
    | XText(text: string)
    | XComment(comment: string)
    | XElementNode(element: XElement)

  datatype XElement = XElement(name: XName, attributes: seq<XAttribute>, nodes: seq<XNode>)

  /** A loaded document; a document read from a file always has a root element. */
  datatype XDocument = XDocument(root: XElement)

  /** `XElement.Attribute(name)`: the first attribute with that name, or null. */
  function FirstAttribute(attributes: seq<XAttribute>, name: XName): (r: Option<XAttribute>)
    ensures r.None? <==> forall i :: 0 <= i < |attributes| ==> attributes[i].name != name
    ensures r.Some? ==> exists i :: 0 <= i < |attributes| && attributes[i] == r.value
                                    && r.value.name == name
                                    && forall j :: 0 <= j < i ==> attributes[j].name != name
  {
    if attributes == [] then None
    else if attributes[0].name == name then Some(attributes[0])
    else
      FirstAttribute(attributes[1..], name)
  }

  function Attribute(e: XElement, name: XName): Option<XAttribute> {
    FirstAttribute(e.attributes, name)
  }

  /** The child elements among `nodes`, in document order (`XElement.Elements()`). */
  function ElementsOf(nodes: seq<XNode>): (r: seq<XElement>)
    ensures |r| <= |nodes|
    ensures forall c :: c in r ==> XElementNode(c) in nodes
  {
    if nodes == [] then []
    else (if nodes[0].XElementNode? then [nodes[0].element] else []) + ElementsOf(nodes[1..])
  }

  /** The child elements of `e`, each one smaller than `e`. */
  function Elements(e: XElement): (r: seq<XElement>)
    ensures forall i :: 0 <= i < |r| ==> r[i] < e
  {
    var r := ElementsOf(e.nodes);
    assert forall i :: 0 <= i < |r| ==> XElementNode(r[i]) in e.nodes;
    r
  }

  lemma {:induction false} ElementsOfAppend(a: seq<XNode>, b: seq<XNode>)
    ensures ElementsOf(a + b) == ElementsOf(a) + ElementsOf(b)
  {
    if a == [] {
      assert a + b == b;
    } else {
      assert (a + b)[0] == a[0];
      assert (a + b)[1..] == a[1..] + b;
      ElementsOfAppend(a[1..], b);
    }
  }

  /** Text and comment nodes contribute no child element. */
  lemma NonElementHasNoElements(n: XNode)
    requires !n.XElementNode?
    ensures ElementsOf([n]) == []
  {
    assert [n][1..] == [];
  }

  /** Inserting a text or comment node anywhere leaves the child elements as they were. */
  lemma InsertNonElement(nodes: seq<XNode>, k: nat, n: XNode)
    requires k <= |nodes| && !n.XElementNode?
    ensures ElementsOf(nodes[..k] + [n] + nodes[k..]) == ElementsOf(nodes)
  {
    var before, after := nodes[..k], nodes[k..];
    ElementsOfAppend(before + [n], after);
    ElementsOfAppend(before, [n]);
    NonElementHasNoElements(n);
    assert ElementsOf(before + [n]) == ElementsOf(before);
    ElementsOfAppend(before, after);
    assert before + after == nodes;
  }

  function Concat(parts: seq<string>): string {
    if parts == [] then "" else parts[0] + Concat(parts[1..])
  }

  /**
   * `XElement.Value`: the text of every descendant text node, in document order.
   * Comments contribute nothing; whitespace is kept as the document has it.
   */
  function Value(e: XElement): string
    decreases e, 1
  {
    Concat(seq(|e.nodes|, i requires 0 <= i < |e.nodes| => NodeText(e.nodes[i])))
  }

  function NodeText(n: XNode): string
    decreases n, 0
  {
    match n
    case XText(t) => t
    case XComment(_) => ""
    case XElementNode(c) => Value(c)
  }
}
