/**
 * XmlLogReader: rebuilds the typed log tree from the XML element tree of a build log.
 * Element names select a node type through a name registry (unknown names become
 * folders), a fixed per-type rule reads the node's attributes, children are read
 * recursively in document order, and text-bearing nodes take the element's text.
 */
module XmlLogReader {
  import opened Wrappers
  import opened XmlDom
  import opened ObjectModel

  // ---------------------------------------------------------------------------
  // Node registry

  /** Element local name to node type: each known type, registered under its name. */
  const ObjectModelTypes: map<string, NodeType> :=
    map["Build" := BuildType, "Project" := ProjectType, "Target" := TargetType,
        "Task" := TaskType, "Item" := ItemType, "Property" := PropertyType,
        "Metadata" := MetadataType, "Parameter" := ParameterType,
        "Message" := MessageType, "Folder" := FolderType]

  /** The registry holds exactly one entry per type, under the type's name. */
  lemma RegistryEntries(t: NodeType)
    ensures TypeName(t) in ObjectModelTypes && ObjectModelTypes[TypeName(t)] == t
  {
  }

  /** Every key of the registry is the name of the type it maps to. */
  lemma RegistryKeys(localName: string)
    requires localName in ObjectModelTypes
    ensures TypeName(ObjectModelTypes[localName]) == localName
  {
  }

  /** The registry lookup with its fallback: a name it does not know resolves to Folder. */
  function ResolveType(localName: string): (t: NodeType)
    ensures localName in ObjectModelTypes <==> TypeName(t) == localName
    ensures localName !in ObjectModelTypes ==> t == FolderType
  {
    if localName in ObjectModelTypes then
      RegistryKeys(localName);
      ObjectModelTypes[localName]
    else
      RegistryEntries(FolderType);
      FolderType
  }

  /** Every type is found again under its own name, and under no other name. */
  lemma {:induction false} RegistryRoundTrip(t: NodeType, localName: string)
    ensures ResolveType(TypeName(t)) == t
    ensures ResolveType(localName) == t && t != FolderType ==> localName == TypeName(t)
  {
    RegistryEntries(t);
  }

  // ---------------------------------------------------------------------------
  // Attribute coercion helpers

  /**
   * The two library parsers the helpers use, `bool.TryParse` and `DateTime.TryParse`;
   * `None` means parsing failed.
   */
  datatype Parsers = Parsers(tryParseBoolean: string -> Option<bool>,
                             tryParseDateTime: string -> Option<DateTime>)

  /** The raw value of the unqualified attribute, or null when there is none. */
  function GetString(element: XElement, attributeName: string): (r: Option<string>)
    ensures r.None? <==> forall i :: 0 <= i < |element.attributes| ==>
                           element.attributes[i].name != Unqualified(attributeName)
    ensures r.Some? ==> XAttribute(Unqualified(attributeName), r.value) in element.attributes
  {
    match Attribute(element, Unqualified(attributeName))
    case None => None
    case Some(a) => Some(a.value)
  }

  /** False when the attribute is missing or does not parse; never fails. */
  function GetBoolean(p: Parsers, element: XElement, attributeName: string): (r: bool)
    ensures GetString(element, attributeName).None? ==> !r
    ensures GetString(element, attributeName).Some? ==>
              r == (p.tryParseBoolean(GetString(element, attributeName).value) == Some(true))
  {
    var text := GetString(element, attributeName);
    if text.None? then false
    else
      match p.tryParseBoolean(text.value)
      case Some(result) => result
      case None => false
  }

  /** The default instant when the attribute is missing or does not parse; never fails. */
  function GetDateTime(p: Parsers, element: XElement, attributeName: string): (r: DateTime)
    ensures GetString(element, attributeName).None? ==> r == DefaultDateTime
    ensures GetString(element, attributeName).Some? ==>
              r == match p.tryParseDateTime(GetString(element, attributeName).value)
                   case Some(d) => d
                   case None => DefaultDateTime
  {
    var text := GetString(element, attributeName);
    if text.None? then DefaultDateTime
    else
      match p.tryParseDateTime(text.value)
      case Some(result) => result
      case None => DefaultDateTime
  }

  // ---------------------------------------------------------------------------
  // Attribute binder

  /** A timed node's fields after its start and end time are bound. */
  function StartAndEndTime(p: Parsers, element: XElement, payload: Payload): (r: Payload)
    requires payload.IsTimed()
    ensures r.Kind() == payload.Kind() && r.IsTimed()
    ensures r.startTime == GetDateTime(p, element, "StartTime")
    ensures r.endTime == GetDateTime(p, element, "EndTime")
    ensures r.WithStartTime(payload.startTime).WithEndTime(payload.endTime) == payload
  {
    payload.WithStartTime(GetDateTime(p, element, "StartTime"))
           .WithEndTime(GetDateTime(p, element, "EndTime"))
  }

  /**
   * The node after the binder has run: IsLowRelevance always, then the first rule
   * that matches the node's type. Children and the node's type are kept.
   */
  function BindAttributes(p: Parsers, node: LogNode, element: XElement): (r: LogNode)
    ensures r.isLowRelevance == GetBoolean(p, element, "IsLowRelevance")
    ensures r.children == node.children
    ensures r.payload.Kind() == node.payload.Kind()
    ensures node.payload.Message? || node.payload.Folder? ==> r.payload == node.payload
  {
    var name := GetString(element, "Name");
    var payload := node.payload;
    var bound :=
      match payload
      case Parameter(_) => payload.WithName(name)
      case Property(_, _) => payload.WithName(name)
      case Metadata(_, _) => payload.WithName(name)
      case Build(n, _, st, et) =>
        StartAndEndTime(p, element, Build(n, GetBoolean(p, element, "Succeeded"), st, et))
      case Project(_, _, st, et) =>
        StartAndEndTime(p, element, Project(name, GetString(element, "ProjectFile"), st, et))
      case Target(_, st, et) =>
        StartAndEndTime(p, element, Target(name, st, et))
      case Task(_, _, c, st, et) =>
        StartAndEndTime(p, element, Task(name, GetString(element, "FromAssembly"), c, st, et))
          .(commandLineArguments := GetString(element, "CommandLineArguments"))
      case Item(_, _) => Item(name, GetString(element, "ItemSpec"))
      case Message(_, _) => payload
      case Folder(_) => payload;
    LogNode(GetBoolean(p, element, "IsLowRelevance"), node.children, bound)
  }

  method AddStartAndEndTime(p: Parsers, element: XElement, node: TreeNode)
    requires node.payload.IsTimed()
    modifies node
    ensures node.payload == StartAndEndTime(p, element, old(node.payload))
    ensures node.isLowRelevance == old(node.isLowRelevance) && node.children == old(node.children)
  {
    node.payload := node.payload.WithStartTime(GetDateTime(p, element, "StartTime"));
    node.payload := node.payload.WithEndTime(GetDateTime(p, element, "EndTime"));
  }

  method ReadAttributes(p: Parsers, node: TreeNode, element: XElement)
    modifies node
    ensures node.Snapshot() == BindAttributes(p, old(node.Snapshot()), element)
  {
    node.isLowRelevance := GetBoolean(p, element, "IsLowRelevance");

    var name := GetString(element, "Name");
    if node.payload.Parameter? || node.payload.Property? || node.payload.Metadata? {
      node.payload := node.payload.WithName(name);
      return;
    }

    if node.payload.Build? {
      node.payload := node.payload.(succeeded := GetBoolean(p, element, "Succeeded"));
      AddStartAndEndTime(p, element, node);
      return;
    }

    if node.payload.Project? {
      node.payload := node.payload.WithName(name);
      node.payload := node.payload.(projectFile := GetString(element, "ProjectFile"));
      AddStartAndEndTime(p, element, node);
      return;
    }

    if node.payload.Target? {
      node.payload := node.payload.WithName(name);
      AddStartAndEndTime(p, element, node);
      return;
    }

    if node.payload.Task? {
      node.payload := node.payload.WithName(name);
      node.payload := node.payload.(fromAssembly := GetString(element, "FromAssembly"));
      AddStartAndEndTime(p, element, node);
      node.payload := node.payload.(commandLineArguments := GetString(element, "CommandLineArguments"));
      return;
    }

    if node.payload.Item? {
      node.payload := node.payload.WithName(name);
      node.payload := node.payload.WithText(GetString(element, "ItemSpec"));
      return;
    }
  }

  // ---------------------------------------------------------------------------
  // Recursive tree builder

  /** The text-bearing variants take the element's whole text once children are attached. */
  function WithInlineText(p: Parsers, node: LogNode, element: XElement): (r: LogNode)
    ensures r.isLowRelevance == node.isLowRelevance && r.children == node.children
    ensures r.payload.Kind() == node.payload.Kind()
    ensures !(node.payload.Property? || node.payload.Metadata? || node.payload.Message?) ==> r == node
  {
    match node.payload
    case Property(n, _) => node.(payload := Property(n, Some(Value(element))))
    case Metadata(n, _) => node.(payload := Metadata(n, Some(Value(element))))
    case Message(_, _) => node.(payload := Message(GetDateTime(p, element, "Timestamp"), Some(Value(element))))
    case _ => node
  }

  /** The nodes read from `elements`, one per element, in order. */
  function ReadAll(p: Parsers, elements: seq<XElement>, ghost parent: XElement): (r: seq<LogNode>)
    requires forall i :: 0 <= i < |elements| ==> elements[i] < parent
    ensures |r| == |elements|
    decreases parent, 0
  {
    seq(|elements|, i requires 0 <= i < |elements| => NodeFor(p, elements[i]))
  }

  /** A fresh instance of the resolved type; a folder is named after the element. */
  function Created(localName: string): (r: LogNode)
    ensures r.payload.Kind() == ResolveType(localName)
  {
    var created := LogNode(false, [], NewPayload(ResolveType(localName)));
    if created.payload.Folder? then created.(payload := Folder(Some(localName))) else created
  }

  /**
   * The node `ReadNode` builds for `element`, step by step as the reader does it:
   * create an instance of the resolved type, name an (unknown-element) folder after
   * the element, bind attributes, append the children, then set the inline text.
   */
  function NodeFor(p: Parsers, element: XElement): (r: LogNode)
    ensures r.payload.Kind() == ResolveType(element.name.localName)
    ensures |r.children| == |Elements(element)|
    decreases element, 1
  {
    var bound := BindAttributes(p, Created(element.name.localName), element);
    var attached := bound.(children := bound.children + ReadAll(p, Elements(element), element));
    WithInlineText(p, attached, element)
  }

  method ReadNode(p: Parsers, element: XElement) returns (r: LogNode)
    ensures r == NodeFor(p, element)
    decreases element
  {
    var name := element.name.localName;
    var node := new TreeNode(ResolveType(name));

    if node.payload.Folder? {
      node.payload := node.payload.WithName(Some(name));
    }

    assert node.Snapshot() == Created(name);
    ReadAttributes(p, node, element);
    ghost var bound := node.Snapshot();

    var childElements := Elements(element);
    for i := 0 to |childElements|
      invariant node.isLowRelevance == bound.isLowRelevance && node.payload == bound.payload
      invariant |node.children| == i
      invariant forall j :: 0 <= j < i ==> node.children[j] == NodeFor(p, childElements[j])
    {
      var childNode := ReadNode(p, childElements[i]);
      node.AddChild(childNode);
    }
    assert node.children == bound.children + ReadAll(p, childElements, element);
    ghost var attached := node.Snapshot();
    assert attached == bound.(children := bound.children + ReadAll(p, Elements(element), element));

    if node.payload.Property? {
      node.payload := node.payload.WithValue(Some(Value(element)));
    }

    if node.payload.Metadata? {
      node.payload := node.payload.WithValue(Some(Value(element)));
    }

    if node.payload.Message? {
      node.payload := Message(GetDateTime(p, element, "Timestamp"), node.payload.text);
      node.payload := node.payload.WithText(Some(Value(element)));
    }

    r := node.Snapshot();
    assert r == WithInlineText(p, attached, element);
  }

  // ---------------------------------------------------------------------------
  // Entry point

  /** The cast of the root's node to Build fails (InvalidCastException). */
  datatype ReadError = InvalidCast(actualType: NodeType)

  /** Reads the document's root and returns it as a Build node. */
  method ReadFromXml(p: Parsers, doc: XDocument) returns (r: Result<LogNode, ReadError>)
    ensures r.Success? <==> doc.root.name.localName == "Build"
    ensures r.Success? ==> r.value == NodeFor(p, doc.root) && r.value.payload.Build?
    ensures r.Failure? ==> r.error == InvalidCast(ResolveType(doc.root.name.localName))
  {
    var node := ReadNode(p, doc.root);
    RegistryRoundTrip(BuildType, doc.root.name.localName);
    if node.payload.Build? {
      r := Success(node);
    } else {
      r := Failure(InvalidCast(node.payload.Kind()));
    }
  }
}
