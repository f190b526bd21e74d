/**
 * What the log reader promises about the tree it builds, stated independently of the
 * order in which `ReadNode` does its work and proved about `NodeFor`, the function
 * `ReadNode` is proved to compute.
 */
module XmlLogReaderProperties {
  import opened Wrappers
  import opened XmlDom
  import opened ObjectModel
  import opened XmlLogReader

  // ---------------------------------------------------------------------------
  // The per-type attribute table, written down directly

  /** The fields a node of the element's type ends up with, one row per type. */
  function TablePayload(p: Parsers, e: XElement): Payload {
    var name := GetString(e, "Name");
    var start := GetDateTime(p, e, "StartTime");
    var end := GetDateTime(p, e, "EndTime");
    match ResolveType(e.name.localName)
    case BuildType => Build(None, GetBoolean(p, e, "Succeeded"), start, end)
    case ProjectType => Project(name, GetString(e, "ProjectFile"), start, end)
    case TargetType => Target(name, start, end)
    case TaskType => Task(name, GetString(e, "FromAssembly"), GetString(e, "CommandLineArguments"), start, end)
    case ItemType => Item(name, GetString(e, "ItemSpec"))
    case PropertyType => Property(name, Some(Value(e)))
    case MetadataType => Metadata(name, Some(Value(e)))
    case ParameterType => Parameter(name)
    case MessageType => Message(GetDateTime(p, e, "Timestamp"), Some(Value(e)))
    case FolderType => Folder(Some(e.name.localName))
  }

  /**
   * `n` is a faithful image of `e`: its IsLowRelevance comes from the attribute, its
   * fields follow the table, and its children are, one for one and in order, faithful
   * images of the child elements.
   */
  ghost predicate Conforms(p: Parsers, e: XElement, n: LogNode)
    decreases e
  {
    && n.isLowRelevance == GetBoolean(p, e, "IsLowRelevance")
    && n.payload == TablePayload(p, e)
    && |n.children| == |Elements(e)|
    && forall i :: 0 <= i < |n.children| ==> Conforms(p, Elements(e)[i], n.children[i])
  }

  /** The reader's step-by-step construction yields exactly the table's fields. */
  lemma PayloadFollowsTable(p: Parsers, e: XElement)
    ensures NodeFor(p, e).payload == TablePayload(p, e)
  {
    var t := ResolveType(e.name.localName);
    assert Created(e.name.localName).payload ==
           if t == FolderType then Folder(Some(e.name.localName)) else NewPayload(t);
  }

  /** Every node of the tree read from `e` is a faithful image of its element. */
  lemma {:induction false} ReadNodeConforms(p: Parsers, e: XElement)
    ensures Conforms(p, e, NodeFor(p, e))
    decreases e
  {
    var r := NodeFor(p, e);
    PayloadFollowsTable(p, e);
    ChildrenInDocumentOrder(p, e);
    forall i | 0 <= i < |r.children|
      ensures Conforms(p, Elements(e)[i], r.children[i])
    {
      ReadNodeConforms(p, Elements(e)[i]);
    }
  }

  /** A faithful image of `e` is the tree the reader builds: the table fixes it. */
  lemma {:induction false} ConformingNodeIsRead(p: Parsers, e: XElement, n: LogNode)
    requires Conforms(p, e, n)
    ensures n == NodeFor(p, e)
    decreases e
  {
    var r := NodeFor(p, e);
    PayloadFollowsTable(p, e);
    ChildrenInDocumentOrder(p, e);
    forall i | 0 <= i < |n.children|
      ensures n.children[i] == r.children[i]
    {
      ConformingNodeIsRead(p, Elements(e)[i], n.children[i]);
    }
    assert n.children == r.children;
  }

  /** Both directions: a node is the one read from `e` exactly when it conforms to `e`. */
  lemma ReadNodeIsTheConformingNode(p: Parsers, e: XElement, n: LogNode)
    ensures Conforms(p, e, n) <==> n == NodeFor(p, e)
  {
    if Conforms(p, e, n) {
      ConformingNodeIsRead(p, e, n);
    } else {
      ReadNodeConforms(p, e);
    }
  }

  // ---------------------------------------------------------------------------
  // Individual promises

  /** IsLowRelevance is bound on every node, unknown-element folders included; absent means false. */
  lemma LowRelevanceFromAttribute(p: Parsers, e: XElement)
    ensures NodeFor(p, e).isLowRelevance == GetBoolean(p, e, "IsLowRelevance")
    ensures (forall i :: 0 <= i < |e.attributes| ==> e.attributes[i].name != Unqualified("IsLowRelevance"))
            ==> !NodeFor(p, e).isLowRelevance
  {
  }

  /**
   * An element the registry resolves to Folder (an unknown name, or "Folder" itself)
   * becomes a folder named after the element; a Name attribute does not override it.
   */
  lemma FolderNamedAfterElement(p: Parsers, e: XElement)
    requires ResolveType(e.name.localName) == FolderType
    ensures NodeFor(p, e).payload == Folder(Some(e.name.localName))
  {
    PayloadFollowsTable(p, e);
  }

  /** Unknown names in particular. */
  lemma UnknownElementBecomesFolder(p: Parsers, e: XElement)
    requires e.name.localName !in ObjectModelTypes
    ensures NodeFor(p, e).payload == Folder(Some(e.name.localName))
  {
    FolderNamedAfterElement(p, e);
  }

  /** One child per child element, in document order, each read from its element. */
  lemma ChildrenInDocumentOrder(p: Parsers, e: XElement)
    ensures |NodeFor(p, e).children| == |Elements(e)|
    ensures forall i :: 0 <= i < |Elements(e)| ==> NodeFor(p, e).children[i] == NodeFor(p, Elements(e)[i])
  {
    var bound := BindAttributes(p, Created(e.name.localName), e);
    var kids := ReadAll(p, Elements(e), e);
    var attached := bound.(children := bound.children + kids);
    assert NodeFor(p, e) == WithInlineText(p, attached, e);
    assert bound.children == [];
    assert NodeFor(p, e).children == kids;
  }

  /** Two elements with the same child elements get the same children. */
  lemma SameElementsSameChildren(p: Parsers, e1: XElement, e2: XElement)
    requires Elements(e1) == Elements(e2)
    ensures NodeFor(p, e1).children == NodeFor(p, e2).children
  {
    ChildrenInDocumentOrder(p, e1);
    ChildrenInDocumentOrder(p, e2);
  }

  /** Text and comment nodes anywhere in the content add no child. */
  lemma NonElementContentAddsNoChild(p: Parsers, e: XElement, k: nat, n: XNode)
    requires k <= |e.nodes| && !n.XElementNode?
    ensures NodeFor(p, e.(nodes := e.nodes[..k] + [n] + e.nodes[k..])).children == NodeFor(p, e).children
  {
    InsertNonElement(e.nodes, k, n);
    SameElementsSameChildren(p, e.(nodes := e.nodes[..k] + [n] + e.nodes[k..]), e);
  }

  /** Build reads Succeeded and both times but never a Name, whatever the element carries. */
  lemma BuildNameNeverBound(p: Parsers, e: XElement)
    requires e.name.localName == "Build"
    ensures NodeFor(p, e).payload ==
            Build(None, GetBoolean(p, e, "Succeeded"),
                  GetDateTime(p, e, "StartTime"), GetDateTime(p, e, "EndTime"))
  {
    RegistryRoundTrip(BuildType, e.name.localName);
    PayloadFollowsTable(p, e);
  }

  /** Property, Metadata and Message carry the element's whole text, child-element text included. */
  lemma InlineTextIsWholeText(p: Parsers, e: XElement)
    ensures NodeFor(p, e).payload.Property? || NodeFor(p, e).payload.Metadata? ==>
              NodeFor(p, e).payload.value == Some(Value(e))
    ensures NodeFor(p, e).payload.Message? ==>
              NodeFor(p, e).payload.text == Some(Value(e))
              && NodeFor(p, e).payload.timestamp == GetDateTime(p, e, "Timestamp")
  {
    PayloadFollowsTable(p, e);
  }

  /** An element without attributes yields an instance with every field at its default. */
  lemma NoAttributesGiveDefaults(p: Parsers, e: XElement)
    requires e.attributes == []
    ensures !NodeFor(p, e).isLowRelevance
    ensures NodeFor(p, e).payload ==
            match ResolveType(e.name.localName)
            case FolderType => Folder(Some(e.name.localName))
            case PropertyType => Property(None, Some(Value(e)))
            case MetadataType => Metadata(None, Some(Value(e)))
            case MessageType => Message(DefaultDateTime, Some(Value(e)))
            case t => NewPayload(t)
  {
    PayloadFollowsTable(p, e);
  }

  /** The attributes each type's rule reads; every node also reads IsLowRelevance. */
  function AttributesRead(t: NodeType): set<string> {
    match t
    case BuildType => {"Succeeded", "StartTime", "EndTime"}
    case ProjectType => {"Name", "ProjectFile", "StartTime", "EndTime"}
    case TargetType => {"Name", "StartTime", "EndTime"}
    case TaskType => {"Name", "FromAssembly", "StartTime", "EndTime", "CommandLineArguments"}
    case ItemType => {"Name", "ItemSpec"}
    case PropertyType => {"Name"}
    case MetadataType => {"Name"}
    case ParameterType => {"Name"}
    case MessageType => {"Timestamp"}
    case FolderType => {}
  }

  /** The table's fields depend on the name, the text and the listed attributes only. */
  lemma TableReadsListedAttributes(p: Parsers, e1: XElement, e2: XElement)
    requires e1.name == e2.name && e1.nodes == e2.nodes
    requires forall a :: a in AttributesRead(ResolveType(e1.name.localName)) ==> GetString(e1, a) == GetString(e2, a)
    ensures TablePayload(p, e1) == TablePayload(p, e2)
  {
    var t := ResolveType(e1.name.localName);
    forall a | a in AttributesRead(t)
      ensures GetBoolean(p, e1, a) == GetBoolean(p, e2, a) && GetDateTime(p, e1, a) == GetDateTime(p, e2, a)
    {
    }
    assert Value(e1) == Value(e2);
  }

  /**
   * Only the listed attributes matter: two elements with the same name that agree on
   * IsLowRelevance and on the attributes their type reads become the same node.
   */
  lemma OnlyListedAttributesMatter(p: Parsers, e1: XElement, e2: XElement)
    requires e1.name == e2.name && e1.nodes == e2.nodes
    requires GetString(e1, "IsLowRelevance") == GetString(e2, "IsLowRelevance")
    requires forall a :: a in AttributesRead(ResolveType(e1.name.localName)) ==> GetString(e1, a) == GetString(e2, a)
    ensures NodeFor(p, e1) == NodeFor(p, e2)
  {
    TableReadsListedAttributes(p, e1, e2);
    PayloadFollowsTable(p, e1);
    PayloadFollowsTable(p, e2);
    SameElementsSameChildren(p, e1, e2);
    assert GetBoolean(p, e1, "IsLowRelevance") == GetBoolean(p, e2, "IsLowRelevance");
  }

  // ---------------------------------------------------------------------------
  // Shape fidelity: one node per element

  function Sum(s: seq<nat>): nat {
    if s == [] then 0 else s[0] + Sum(s[1..])
  }

  lemma {:induction false} SumAppend(a: seq<nat>, b: seq<nat>)
    ensures Sum(a + b) == Sum(a) + Sum(b)
  {
    if a == [] {
      assert a + b == b;
    } else {
      assert (a + b)[1..] == a[1..] + b;
      SumAppend(a[1..], b);
    }
  }

  /** The number of elements in the tree rooted at `e`, `e` included. */
  function ElementCount(e: XElement): nat
    decreases e, 1
  {
    1 + Sum(seq(|e.nodes|, i requires 0 <= i < |e.nodes| => NodeElementCount(e.nodes[i])))
  }

  function NodeElementCount(n: XNode): nat
    decreases n, 0
  {
    match n
    case XElementNode(c) => ElementCount(c)
    case _ => 0
  }

  /** The number of nodes in the log tree rooted at `n`, `n` included. */
  function NodeCount(n: LogNode): nat {
    1 + Sum(seq(|n.children|, i requires 0 <= i < |n.children| => NodeCount(n.children[i])))
  }

  function ContentCounts(nodes: seq<XNode>): seq<nat> {
    seq(|nodes|, i requires 0 <= i < |nodes| => NodeElementCount(nodes[i]))
  }

  function ElementCounts(elements: seq<XElement>): seq<nat> {
    seq(|elements|, i requires 0 <= i < |elements| => ElementCount(elements[i]))
  }

  /** Text and comments hold no elements: counting the content is counting its child elements. */
  lemma {:induction false} ContentCountIsChildElementCount(nodes: seq<XNode>)
    ensures Sum(ContentCounts(nodes)) == Sum(ElementCounts(ElementsOf(nodes)))
  {
    if nodes != [] {
      var head := if nodes[0].XElementNode? then [nodes[0].element] else [];
      assert ElementsOf(nodes) == head + ElementsOf(nodes[1..]);
      assert ContentCounts(nodes) == [NodeElementCount(nodes[0])] + ContentCounts(nodes[1..]);
      assert ElementCounts(ElementsOf(nodes)) == ElementCounts(head) + ElementCounts(ElementsOf(nodes[1..]));
      SumAppend([NodeElementCount(nodes[0])], ContentCounts(nodes[1..]));
      SumAppend(ElementCounts(head), ElementCounts(ElementsOf(nodes[1..])));
      ContentCountIsChildElementCount(nodes[1..]);
    }
  }

  /** The log tree has exactly as many nodes as the element tree has elements. */
  lemma {:induction false} OneNodePerElement(p: Parsers, e: XElement)
    ensures NodeCount(NodeFor(p, e)) == ElementCount(e)
    decreases e
  {
    var r := NodeFor(p, e);
    var cs := Elements(e);
    ChildrenInDocumentOrder(p, e);
    forall i | 0 <= i < |cs|
      ensures NodeCount(r.children[i]) == ElementCount(cs[i])
    {
      OneNodePerElement(p, cs[i]);
    }
    assert seq(|r.children|, i requires 0 <= i < |r.children| => NodeCount(r.children[i])) == ElementCounts(cs);
    assert seq(|e.nodes|, i requires 0 <= i < |e.nodes| => NodeElementCount(e.nodes[i])) == ContentCounts(e.nodes);
    ContentCountIsChildElementCount(e.nodes);
  }

  // ---------------------------------------------------------------------------
  // Worked examples

  function Attr(name: string, value: string): XAttribute {
    XAttribute(Unqualified(name), value)
  }

  function Elem(name: string, attributes: seq<XAttribute>, nodes: seq<XNode>): XElement {
    XElement(Unqualified(name), attributes, nodes)
  }

  const EmptyBuild := Build(None, false, DefaultDateTime, DefaultDateTime)

  /** The attribute at index `i` is the first one named `name`. */
  lemma AttributeAt(e: XElement, name: string, i: nat)
    requires i < |e.attributes| && e.attributes[i].name == Unqualified(name)
    requires forall j :: 0 <= j < i ==> e.attributes[j].name != Unqualified(name)
    ensures GetString(e, name) == Some(e.attributes[i].value)
  {
  }

  lemma NodeShape(p: Parsers, e: XElement)
    ensures NodeFor(p, e) == LogNode(GetBoolean(p, e, "IsLowRelevance"), ReadAll(p, Elements(e), e), TablePayload(p, e))
  {
    PayloadFollowsTable(p, e);
    ChildrenInDocumentOrder(p, e);
  }

  lemma SingleText(e: XElement, s: string)
    requires e.nodes == [XText(s)]
    ensures Value(e) == s
  {
    assert Concat(seq(|e.nodes|, i requires 0 <= i < |e.nodes| => NodeText(e.nodes[i]))) == s + Concat([]);
  }

  lemma SingleChild(e: XElement, c: XElement)
    requires e.nodes == [XElementNode(c)]
    ensures Elements(e) == [c]
  {
    assert e.nodes[1..] == [];
  }

  /** `<Build Succeeded="true" StartTime="s" EndTime="f"/>` */
  lemma BuildWithTimes(p: Parsers, s: string, f: string, start: DateTime, end: DateTime)
    requires p.tryParseBoolean("true") == Some(true)
    requires p.tryParseDateTime(s) == Some(start) && p.tryParseDateTime(f) == Some(end)
    ensures NodeFor(p, Elem("Build", [Attr("Succeeded", "true"), Attr("StartTime", s), Attr("EndTime", f)], []))
            == LogNode(false, [], Build(None, true, start, end))
  {
    var e := Elem("Build", [Attr("Succeeded", "true"), Attr("StartTime", s), Attr("EndTime", f)], []);
    AttributeAt(e, "Succeeded", 0);
    AttributeAt(e, "StartTime", 1);
    AttributeAt(e, "EndTime", 2);
    assert GetString(e, "IsLowRelevance").None?;
    BuildNameNeverBound(p, e);
    NodeShape(p, e);
  }

  /** A `<Build>` element with no attributes around one child element `c`. */
  lemma BuildAround(p: Parsers, c: XElement)
    ensures NodeFor(p, Elem("Build", [], [XElementNode(c)])) == LogNode(false, [NodeFor(p, c)], EmptyBuild)
  {
    var e := Elem("Build", [], [XElementNode(c)]);
    SingleChild(e, c);
    BuildNameNeverBound(p, e);
    NodeShape(p, e);
    assert ReadAll(p, [c], e) == [NodeFor(p, c)];
  }

  const ProjectElement := Elem("Project", [Attr("Name", "A"), Attr("ProjectFile", "a.proj")], [])

  lemma ProjectAttributesPresent()
    ensures GetString(ProjectElement, "Name") == Some("A")
    ensures GetString(ProjectElement, "ProjectFile") == Some("a.proj")
  {
    AttributeAt(ProjectElement, "Name", 0);
    AttributeAt(ProjectElement, "ProjectFile", 1);
  }

  lemma ProjectAttributesAbsent()
    ensures GetString(ProjectElement, "IsLowRelevance").None?
    ensures GetString(ProjectElement, "StartTime").None? && GetString(ProjectElement, "EndTime").None?
  {
  }

  /** `<Project Name="A" ProjectFile="a.proj"/>` */
  lemma ProjectRead(p: Parsers)
    ensures NodeFor(p, ProjectElement)
            == LogNode(false, [], Project(Some("A"), Some("a.proj"), DefaultDateTime, DefaultDateTime))
  {
    ProjectAttributesPresent();
    ProjectAttributesAbsent();
    RegistryRoundTrip(ProjectType, "Project");
    assert Elements(ProjectElement) == [];
    NodeShape(p, ProjectElement);
  }

  /** `<Build><Project Name="A" ProjectFile="a.proj"/></Build>` */
  lemma BuildWithProject(p: Parsers)
    ensures NodeFor(p, Elem("Build", [], [XElementNode(Elem("Project", [Attr("Name", "A"), Attr("ProjectFile", "a.proj")], []))]))
            == LogNode(false, [LogNode(false, [], Project(Some("A"), Some("a.proj"), DefaultDateTime, DefaultDateTime))],
                       EmptyBuild)
  {
    ProjectRead(p);
    BuildAround(p, ProjectElement);
  }

  /** `<Property Name="K">v1</Property>` */
  lemma PropertyRead(p: Parsers)
    ensures NodeFor(p, Elem("Property", [Attr("Name", "K")], [XText("v1")]))
            == LogNode(false, [], Property(Some("K"), Some("v1")))
  {
    var property := Elem("Property", [Attr("Name", "K")], [XText("v1")]);
    AttributeAt(property, "Name", 0);
    assert GetString(property, "IsLowRelevance").None?;
    SingleText(property, "v1");
    assert Elements(property) == [];
    RegistryRoundTrip(PropertyType, "Property");
    NodeShape(p, property);
  }

  /** `<Build><Property Name="K">v1</Property></Build>` */
  lemma BuildWithProperty(p: Parsers)
    ensures NodeFor(p, Elem("Build", [], [XElementNode(Elem("Property", [Attr("Name", "K")], [XText("v1")]))]))
            == LogNode(false, [LogNode(false, [], Property(Some("K"), Some("v1")))], EmptyBuild)
  {
    PropertyRead(p);
    BuildAround(p, Elem("Property", [Attr("Name", "K")], [XText("v1")]));
  }

  /** `<Message Timestamp="ts">hi</Message>` */
  lemma MessageRead(p: Parsers, ts: string, t: DateTime)
    requires p.tryParseDateTime(ts) == Some(t)
    ensures NodeFor(p, Elem("Message", [Attr("Timestamp", ts)], [XText("hi")]))
            == LogNode(false, [], Message(t, Some("hi")))
  {
    var message := Elem("Message", [Attr("Timestamp", ts)], [XText("hi")]);
    AttributeAt(message, "Timestamp", 0);
    assert GetString(message, "IsLowRelevance").None?;
    SingleText(message, "hi");
    assert Elements(message) == [];
    RegistryRoundTrip(MessageType, "Message");
    NodeShape(p, message);
  }

  /** `<Unknown IsLowRelevance="true">c</Unknown>`, an element name no node type has. */
  lemma UnknownRead(p: Parsers, c: XElement)
    requires p.tryParseBoolean("true") == Some(true)
    ensures NodeFor(p, Elem("Unknown", [Attr("IsLowRelevance", "true")], [XElementNode(c)]))
            == LogNode(true, [NodeFor(p, c)], Folder(Some("Unknown")))
  {
    var unknown := Elem("Unknown", [Attr("IsLowRelevance", "true")], [XElementNode(c)]);
    AttributeAt(unknown, "IsLowRelevance", 0);
    SingleChild(unknown, c);
    assert "Unknown" !in ObjectModelTypes;
    NodeShape(p, unknown);
    assert ReadAll(p, [c], unknown) == [NodeFor(p, c)];
  }

  /** `<Build><Unknown IsLowRelevance="true"><Message Timestamp="ts">hi</Message></Unknown></Build>` */
  lemma UnknownFolderWithMessage(p: Parsers, ts: string, t: DateTime)
    requires p.tryParseBoolean("true") == Some(true) && p.tryParseDateTime(ts) == Some(t)
    ensures NodeFor(p, Elem("Build", [], [XElementNode(
              Elem("Unknown", [Attr("IsLowRelevance", "true")], [XElementNode(
                Elem("Message", [Attr("Timestamp", ts)], [XText("hi")]))]))]))
            == LogNode(false, [LogNode(true, [LogNode(false, [], Message(t, Some("hi")))], Folder(Some("Unknown")))],
                       EmptyBuild)
  {
    var message := Elem("Message", [Attr("Timestamp", ts)], [XText("hi")]);
    MessageRead(p, ts, t);
    UnknownRead(p, message);
    BuildAround(p, Elem("Unknown", [Attr("IsLowRelevance", "true")], [XElementNode(message)]));
  }

  const TaskElement := Elem("Task", [Attr("Name", "Csc"), Attr("FromAssembly", "tasks.dll"), Attr("CommandLineArguments", "-x")], [])

  /** The attributes `TaskElement` carries, each found where it stands. */
  lemma TaskAttributesPresent()
    ensures GetString(TaskElement, "Name") == Some("Csc")
    ensures GetString(TaskElement, "FromAssembly") == Some("tasks.dll")
    ensures GetString(TaskElement, "CommandLineArguments") == Some("-x")
  {
    AttributeAt(TaskElement, "Name", 0);
    AttributeAt(TaskElement, "FromAssembly", 1);
    AttributeAt(TaskElement, "CommandLineArguments", 2);
  }

  /** The other attributes the reader asks a `<Task>` for are missing. */
  lemma TaskAttributesAbsent()
    ensures GetString(TaskElement, "IsLowRelevance").None?
    ensures GetString(TaskElement, "StartTime").None? && GetString(TaskElement, "EndTime").None?
  {
  }

  /** `<Task Name="Csc" FromAssembly="tasks.dll" CommandLineArguments="-x"/>` */
  lemma TaskRead(p: Parsers)
    ensures NodeFor(p, TaskElement)
            == LogNode(false, [], Task(Some("Csc"), Some("tasks.dll"), Some("-x"), DefaultDateTime, DefaultDateTime))
  {
    TaskAttributesPresent();
    TaskAttributesAbsent();
    RegistryRoundTrip(TaskType, "Task");
    assert Elements(TaskElement) == [];
    NodeShape(p, TaskElement);
  }

  /** `<Build><Task Name="Csc" FromAssembly="tasks.dll" CommandLineArguments="-x"/></Build>` */
  lemma BuildWithTask(p: Parsers)
    ensures NodeFor(p, Elem("Build", [], [XElementNode(
              Elem("Task", [Attr("Name", "Csc"), Attr("FromAssembly", "tasks.dll"), Attr("CommandLineArguments", "-x")], []))]))
            == LogNode(false, [LogNode(false, [], Task(Some("Csc"), Some("tasks.dll"), Some("-x"),
                                                        DefaultDateTime, DefaultDateTime))],
                       EmptyBuild)
  {
    TaskRead(p);
    BuildAround(p, TaskElement);
  }

  const ItemElement := Elem("Item", [Attr("Name", "Compile"), Attr("ItemSpec", "a.cs")], [])

  lemma ItemAttributesPresent()
    ensures GetString(ItemElement, "Name") == Some("Compile")
    ensures GetString(ItemElement, "ItemSpec") == Some("a.cs")
  {
    AttributeAt(ItemElement, "Name", 0);
    AttributeAt(ItemElement, "ItemSpec", 1);
  }

  /** `<Item Name="Compile" ItemSpec="a.cs"/>` */
  lemma ItemRead(p: Parsers)
    ensures NodeFor(p, ItemElement) == LogNode(false, [], Item(Some("Compile"), Some("a.cs")))
  {
    ItemAttributesPresent();
    assert GetString(ItemElement, "IsLowRelevance").None?;
    RegistryRoundTrip(ItemType, "Item");
    assert Elements(ItemElement) == [];
    NodeShape(p, ItemElement);
  }

  /** `<Build><Item Name="Compile" ItemSpec="a.cs"/></Build>` */
  lemma BuildWithItem(p: Parsers)
    ensures NodeFor(p, Elem("Build", [], [XElementNode(Elem("Item", [Attr("Name", "Compile"), Attr("ItemSpec", "a.cs")], []))]))
            == LogNode(false, [LogNode(false, [], Item(Some("Compile"), Some("a.cs")))], EmptyBuild)
  {
    ItemRead(p);
    BuildAround(p, ItemElement);
  }
}
