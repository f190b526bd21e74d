/**
 * The log tree's node variants. Each variant of the repository's TreeNode hierarchy
 * is a constructor of `Payload`; the fields every node shares (IsLowRelevance and
 * the ordered children) sit in `LogNode`. A node being built is a `TreeNode` object
 * whose fields the reader assigns; once built, it is handed to its parent as a value.
 */
module ObjectModel {
  import opened Wrappers

  /** System.DateTime reduced to its tick count. */
  datatype DateTime = DateTime(ticks: nat)

  /** `default(DateTime)`: what a failed DateTime.TryParse leaves in its out-parameter. */
  const DefaultDateTime := DateTime(0)

  /** The concrete node types the registry knows, one per variant. */
  datatype NodeType =
    | BuildType | ProjectType | TargetType | TaskType | ItemType
    | PropertyType | MetadataType | ParameterType | MessageType | FolderType

  /** The type's unqualified class name (`Type.Name`), the element name it is read from. */
  function TypeName(t: NodeType): string {
    match t
    case BuildType => "Build"
    case ProjectType => "Project"
    case TargetType => "Target"
    case TaskType => "Task"
    case ItemType => "Item"
    case PropertyType => "Property"
    case MetadataType => "Metadata"
    case ParameterType => "Parameter"
    case MessageType => "Message"
    case FolderType => "Folder"
  }

  /** Distinct types have distinct names, so a name-keyed registry is well formed. */
  lemma TypeNamesDistinct(t: NodeType, u: NodeType)
    ensures TypeName(t) == TypeName(u) ==> t == u
  {
    if t != u {
      var a, b := TypeName(t), TypeName(u);
      assert a[0] != b[0] || a[1] != b[1] || |a| != |b|;
    }
  }

  /**
   * The variant-specific fields. A reference-typed field that may be null is an
   * `Option<string>`. Build, Project, Target and Task are the timed nodes.
   */
  datatype Payload =
    | Build(name: Option<string>, succeeded: bool, startTime: DateTime, endTime: DateTime)
    | Project(name: Option<string>, projectFile: Option<string>, startTime: DateTime, endTime: DateTime)
    | Target(name: Option<string>, startTime: DateTime, endTime: DateTime)
    | Task(name: Option<string>, fromAssembly: Option<string>, commandLineArguments: Option<string>,
           startTime: DateTime, endTime: DateTime)
    | Item(name: Option<string>, text: Option<string>)
    | Property(name: Option<string>, value: Option<string>)
    | Metadata(name: Option<string>, value: Option<string>)
    | Parameter(name: Option<string>)
    | Message(timestamp: DateTime, text: Option<string>)
    | Folder(name: Option<string>)
  {
    function Kind(): NodeType {
      match this
      case Build(_, _, _, _) => BuildType
      case Project(_, _, _, _) => ProjectType
      case Target(_, _, _) => TargetType
      case Task(_, _, _, _, _) => TaskType
      case Item(_, _) => ItemType
      case Property(_, _) => PropertyType
      case Metadata(_, _) => MetadataType
      case Parameter(_) => ParameterType
      case Message(_, _) => MessageType
      case Folder(_) => FolderType
    }

    /** A TimedNode: it has StartTime and EndTime. */
    predicate IsTimed() {
      Build? || Project? || Target? || Task?
    }

    /** A NamedNode: it has a Name. */
    predicate IsNamed() {
      !Message?
    }

    /** The `Name` setter. */
    function WithName(n: Option<string>): (r: Payload)
      requires IsNamed()
      ensures r.Kind() == Kind() && r.IsNamed() && r.name == n
    {
      match this
      case Build(_, s, st, et) => Build(n, s, st, et)
      case Project(_, f, st, et) => Project(n, f, st, et)
      case Target(_, st, et) => Target(n, st, et)
      case Task(_, a, c, st, et) => Task(n, a, c, st, et)
      case Item(_, t) => Item(n, t)
      case Property(_, v) => Property(n, v)
      case Metadata(_, v) => Metadata(n, v)
      case Parameter(_) => Parameter(n)
      case Folder(_) => Folder(n)
    }

    /** The `StartTime` setter of a TimedNode. */
    function WithStartTime(t: DateTime): (r: Payload)
      requires IsTimed()
      ensures r.Kind() == Kind() && r.IsTimed() && r.startTime == t && r.endTime == endTime
    {
      match this
      case Build(n, s, _, et) => Build(n, s, t, et)
      case Project(n, f, _, et) => Project(n, f, t, et)
      case Target(n, _, et) => Target(n, t, et)
      case Task(n, a, c, _, et) => Task(n, a, c, t, et)
    }

    /** The `EndTime` setter of a TimedNode. */
    function WithEndTime(t: DateTime): (r: Payload)
      requires IsTimed()
      ensures r.Kind() == Kind() && r.IsTimed() && r.startTime == startTime && r.endTime == t
    {
      match this
      case Build(n, s, st, _) => Build(n, s, st, t)
      case Project(n, f, st, _) => Project(n, f, st, t)
      case Target(n, st, _) => Target(n, st, t)
      case Task(n, a, c, st, _) => Task(n, a, c, st, t)
    }

    /** The `Value` setter of a Property or Metadata. */
    function WithValue(v: Option<string>): (r: Payload)
      requires Property? || Metadata?
      ensures r.Kind() == Kind() && r.name == name && r.value == v
    {
      match this
      case Property(n, _) => Property(n, v)
      case Metadata(n, _) => Metadata(n, v)
    }

    /** The `Text` setter of an Item or a Message. */
    function WithText(t: Option<string>): (r: Payload)
      requires Item? || Message?
      ensures r.Kind() == Kind() && r.text == t
    {
      match this
      case Item(n, _) => Item(n, t)
      case Message(ts, _) => Message(ts, t)
    }

    /** Every field holds its type's default: null, false or default(DateTime). */
    predicate IsDefault() {
      match this
      case Build(n, s, st, et) => n.None? && !s && st == DefaultDateTime && et == DefaultDateTime
      case Project(n, f, st, et) => n.None? && f.None? && st == DefaultDateTime && et == DefaultDateTime
      case Target(n, st, et) => n.None? && st == DefaultDateTime && et == DefaultDateTime
      case Task(n, a, c, st, et) =>
        n.None? && a.None? && c.None? && st == DefaultDateTime && et == DefaultDateTime
      case Item(n, t) => n.None? && t.None?
      case Property(n, v) => n.None? && v.None?
      case Metadata(n, v) => n.None? && v.None?
      case Parameter(n) => n.None?
      case Message(ts, t) => ts == DefaultDateTime && t.None?
      case Folder(n) => n.None?
    }
  }

  datatype LogNode = LogNode(isLowRelevance: bool, children: seq<LogNode>, payload: Payload)

  /** The fields of a freshly created instance of `t` (`Activator.CreateInstance`). */
  function NewPayload(t: NodeType): (p: Payload)
    ensures p.Kind() == t && p.IsDefault()
  {
    match t
    case BuildType => Build(None, false, DefaultDateTime, DefaultDateTime)
    case ProjectType => Project(None, None, DefaultDateTime, DefaultDateTime)
    case TargetType => Target(None, DefaultDateTime, DefaultDateTime)
    case TaskType => Task(None, None, None, DefaultDateTime, DefaultDateTime)
    case ItemType => Item(None, None)
    case PropertyType => Property(None, None)
    case MetadataType => Metadata(None, None)
    case ParameterType => Parameter(None)
    case MessageType => Message(DefaultDateTime, None)
    case FolderType => Folder(None)
  }

  /** A default payload is determined by its kind alone. */
  lemma DefaultPayloadIsNew(p: Payload)
    requires p.IsDefault()
    ensures p == NewPayload(p.Kind())
  {
  }

  /** A node under construction. */
  class TreeNode {
    var isLowRelevance: bool
    var children: seq<LogNode>
    var payload: Payload

    /** The node's current state as a value. */
    function Snapshot(): LogNode
      reads this
    {
      LogNode(isLowRelevance, children, payload)
    }

    /** A fresh instance of `t`: no children, not low-relevance, every field default. */
    constructor (t: NodeType)
      ensures Snapshot() == LogNode(false, [], NewPayload(t))
    {
      isLowRelevance := false;
      children := [];
      payload := NewPayload(t);
    }

    /** Appends `child` after the children added so far; nothing else changes. */
    method AddChild(child: LogNode)
      modifies this
      ensures children == old(children) + [child]
      ensures isLowRelevance == old(isLowRelevance) && payload == old(payload)
    {
      children := children + [child];
    }
  }
}
