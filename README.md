# XmlLogReader: reading a structured build log back from XML

MSBuildStructuredLog saves a build log as XML: one element per log node, with the
node's type as the element name, its scalar fields as attributes, and its children as
child elements. `XmlLogReader` rebuilds the typed tree from that XML. For each element
it does the following:

- It looks up the element's local name in a registry of node types. A name the registry
  does not know becomes a `Folder`.
- It creates a fresh instance of that type. A folder gets the element name as its `Name`.
- It sets `IsLowRelevance`, then applies the first per-type attribute rule that matches.
  The rules cover Parameter/Property/Metadata, Build, Project, Target, Task and Item.
- It reads every child element recursively, in document order, and appends each result
  as a child.
- Property and Metadata then take the element's whole text as `Value`. A Message takes it
  as `Text`, and its `Timestamp` comes from an attribute.

Attribute coercion never fails:
- A missing string attribute is null.
- A missing or unparseable boolean is `false`.
- A missing or unparseable time is `default(DateTime)`.

The entry point casts the root's node to `Build`.

Files:
- `wrappers.dfy`: `Option` and `Result`.
- `xml_dom.dfy`: the parts of the LINQ-to-XML tree the reader uses, as values:
  - names with a local part;
  - attribute lookup, where the first attribute with the name wins;
  - `Elements()`;
  - `Value`, the concatenated descendant text.
- `object_model.dfy`: the node variants.
  - `Payload` is a tagged union of the ten concrete types.
  - `LogNode` is a finished node.
  - `TreeNode` is a class for a node under construction, whose fields the reader assigns.
- `xml_log_reader.dfy`: the reader, with the following parts:
  - The registry and its Folder fallback.
  - `GetString`, `GetBoolean` and `GetDateTime`.
  - The binder: the method `ReadAttributes` and the function `BindAttributes` that
    specifies it.
  - The builder: the method `ReadNode` with its child loop, and the function `NodeFor`
    that specifies it.
  - `ReadFromXml`.
- `xml_log_reader_properties.dfy`: the promises about the reader.
  - A per-type table of the fields a node gets (`TablePayload`, `Conforms`). A tree is
    what the reader builds if and only if it conforms to that table.
  - One node per element.
  - Which attributes matter.
  - Worked examples on small documents.

`bool.TryParse` and `DateTime.TryParse` are parameters of the model (`Parsers`). Each
returns `None` when parsing fails.

The code names a folder in every case, including an element literally called
`<Folder>`: that folder gets `Name` "Folder". A reading of the reader in which only
elements with unknown names are named would leave such a folder's `Name` null. The model
follows the code (`FolderNamedAfterElement`).

## Model

| member | source | states |
|---|---|---|
| ObjectModel.TypeNamesDistinct | src/StructuredLogger/Serialization/XmlLogReader.cs:21-26 | Distinct node types have distinct class names, so a dictionary keyed by `Type.Name` has one entry per type |
| ObjectModel.NewPayload | src/StructuredLogger/Serialization/XmlLogReader.cs:37 | A freshly created instance of a type has that type and every field at its default (null, false, default time) |
| ObjectModel.DefaultPayloadIsNew | src/StructuredLogger/Serialization/XmlLogReader.cs:37 | A node with every field at its default is exactly the fresh instance of its type |
| ObjectModel.TreeNode.constructor | src/StructuredLogger/Serialization/XmlLogReader.cs:37 | The created object holds a fresh instance: no children, not low-relevance, default fields |
| ObjectModel.TreeNode.AddChild | src/StructuredLogger/Serialization/XmlLogReader.cs:52 | Appends the child after those added so far; relevance and fields are unchanged |
| XmlLogReader.RegistryEntries | src/StructuredLogger/Serialization/XmlLogReader.cs:21-26 | Every node type is registered under its own name |
| XmlLogReader.RegistryKeys | src/StructuredLogger/Serialization/XmlLogReader.cs:21-26 | Every registry key is the name of the type it maps to |
| XmlLogReader.ResolveType | src/StructuredLogger/Serialization/XmlLogReader.cs:30-35 | A name is registered if and only if the resolved type carries that name; an unregistered name resolves to Folder |
| XmlLogReader.RegistryRoundTrip | src/StructuredLogger/Serialization/XmlLogReader.cs:21-35 | Resolving a type's name gives the type back; a non-Folder type is resolved from its own name only |
| XmlLogReader.GetString | src/StructuredLogger/Serialization/XmlLogReader.cs:162-165 | Null exactly when the element has no unqualified attribute of that name; otherwise the value of such an attribute |
| XmlLogReader.GetBoolean | src/StructuredLogger/Serialization/XmlLogReader.cs:141-152 | False when the attribute is missing; otherwise true exactly when the text parses as true (unparseable gives false) |
| XmlLogReader.GetDateTime | src/StructuredLogger/Serialization/XmlLogReader.cs:154-160 | The default time when the attribute is missing or does not parse; otherwise the parsed time |
| XmlLogReader.StartAndEndTime | src/StructuredLogger/Serialization/XmlLogReader.cs:135-139 | A timed node keeps its type; its start and end times come from the attributes; putting the old times back gives the old node (nothing else changes) |
| XmlLogReader.AddStartAndEndTime | src/StructuredLogger/Serialization/XmlLogReader.cs:135-139 | The object's fields become `StartAndEndTime` of the old fields; relevance and children are unchanged |
| XmlLogReader.BindAttributes | src/StructuredLogger/Serialization/XmlLogReader.cs:78-133 | IsLowRelevance comes from the attribute; type and children are kept; Message and Folder fields are left as they were |
| XmlLogReader.ReadAttributes | src/StructuredLogger/Serialization/XmlLogReader.cs:78-133 | The object's new state is `BindAttributes` of its old state: the first matching rule, through the early returns |
| XmlLogReader.WithInlineText | src/StructuredLogger/Serialization/XmlLogReader.cs:56-73 | Only Property, Metadata and Message change, and only in their value, text and timestamp; relevance, children and type are kept |
| XmlLogReader.ReadAll | src/StructuredLogger/Serialization/XmlLogReader.cs:49-53 | One node per child element |
| XmlLogReader.Created | src/StructuredLogger/Serialization/XmlLogReader.cs:30-43 | The created node has the type resolved from the element's name |
| XmlLogReader.NodeFor | src/StructuredLogger/Serialization/XmlLogReader.cs:28-76 | The node has the resolved type and exactly as many children as the element has child elements |
| XmlLogReader.ReadNode | src/StructuredLogger/Serialization/XmlLogReader.cs:28-76 | The method builds `NodeFor(element)`. The loop invariant: after `i` rounds the children are the nodes read from the first `i` child elements |
| XmlLogReader.ReadFromXml | src/StructuredLogger/Serialization/XmlLogReader.cs:10-19 | Succeeds exactly when the root is named Build, giving the Build node read from it; otherwise the cast fails, naming the type actually built |
| XmlDom.FirstAttribute | src/StructuredLogger/Serialization/XmlLogReader.cs:164 | None exactly when no attribute has the name; otherwise the first attribute that has it |
| XmlDom.ElementsOf | src/StructuredLogger/Serialization/XmlLogReader.cs:49 | Only element nodes of the content, no more of them than content nodes |
| XmlDom.Elements | src/StructuredLogger/Serialization/XmlLogReader.cs:49 | Each child element is structurally smaller than its parent |
| XmlDom.ElementsOfAppend | src/StructuredLogger/Serialization/XmlLogReader.cs:49 | The child elements of concatenated content are the concatenation of their child elements (document order) |
| XmlDom.NonElementHasNoElements | src/StructuredLogger/Serialization/XmlLogReader.cs:49 | A text or comment node contributes no child element |
| XmlDom.InsertNonElement | src/StructuredLogger/Serialization/XmlLogReader.cs:49 | Inserting a text or comment node anywhere leaves the child elements unchanged |
| XmlLogReaderProperties.PayloadFollowsTable | src/StructuredLogger/Serialization/XmlLogReader.cs:28-139 | The fields the reader builds step by step are exactly those of the per-type table |
| XmlLogReaderProperties.ReadNodeConforms | src/StructuredLogger/Serialization/XmlLogReader.cs:28-76 | Every node of the tree read from an element, at every depth, conforms to the table for its element |
| XmlLogReaderProperties.ConformingNodeIsRead | src/StructuredLogger/Serialization/XmlLogReader.cs:28-76 | A tree that conforms to an element is the tree the reader builds from it (the table determines the result) |
| XmlLogReaderProperties.ReadNodeIsTheConformingNode | src/StructuredLogger/Serialization/XmlLogReader.cs:28-76 | A tree is the one read from an element if and only if it conforms to the element |
| XmlLogReaderProperties.LowRelevanceFromAttribute | src/StructuredLogger/Serialization/XmlLogReader.cs:80 | Every node's IsLowRelevance is GetBoolean of the attribute, so it is false when the attribute is absent |
| XmlLogReaderProperties.FolderNamedAfterElement | src/StructuredLogger/Serialization/XmlLogReader.cs:30-43 | An element resolved to Folder becomes a folder named after the element, whatever Name attribute it carries |
| XmlLogReaderProperties.UnknownElementBecomesFolder | src/StructuredLogger/Serialization/XmlLogReader.cs:32-35 | An element with an unregistered name becomes a folder named after the element |
| XmlLogReaderProperties.ChildrenInDocumentOrder | src/StructuredLogger/Serialization/XmlLogReader.cs:47-54 | One child per child element, and child `i` is the node read from child element `i` |
| XmlLogReaderProperties.SameElementsSameChildren | src/StructuredLogger/Serialization/XmlLogReader.cs:47-54 | Elements with the same child elements get the same children |
| XmlLogReaderProperties.NonElementContentAddsNoChild | src/StructuredLogger/Serialization/XmlLogReader.cs:47-54 | Inserting a text or comment node anywhere in an element's content leaves its children unchanged |
| XmlLogReaderProperties.BuildNameNeverBound | src/StructuredLogger/Serialization/XmlLogReader.cs:90-96 | A Build gets Succeeded and both times from the attributes, and no Name whatever the element carries |
| XmlLogReaderProperties.InlineTextIsWholeText | src/StructuredLogger/Serialization/XmlLogReader.cs:56-73 | Property and Metadata values and Message text are the element's whole text; a Message's timestamp is the Timestamp attribute |
| XmlLogReaderProperties.NoAttributesGiveDefaults | src/StructuredLogger/Serialization/XmlLogReader.cs:37-73 | An element without attributes yields a node that is not low-relevance and has default fields, apart from a folder's name and the inline text |
| XmlLogReaderProperties.TableReadsListedAttributes | src/StructuredLogger/Serialization/XmlLogReader.cs:78-139 | A node's fields depend only on the element's name, its content and the attributes its type's rule reads |
| XmlLogReaderProperties.OnlyListedAttributesMatter | src/StructuredLogger/Serialization/XmlLogReader.cs:78-139 | Two elements agreeing on name, content, IsLowRelevance and the attributes their type reads become the same tree |
| XmlLogReaderProperties.ContentCountIsChildElementCount | src/StructuredLogger/Serialization/XmlLogReader.cs:49 | Counting elements under the content equals counting them under the child elements alone |
| XmlLogReaderProperties.OneNodePerElement | src/StructuredLogger/Serialization/XmlLogReader.cs:28-76 | The log tree has exactly as many nodes as the element tree has elements |
| XmlLogReaderProperties.BuildWithTimes | src/StructuredLogger/Serialization/XmlLogReader.cs:90-96 | `<Build Succeeded="true" StartTime=.. EndTime=..>` gives a succeeded, unnamed Build with the parsed times |
| XmlLogReaderProperties.ProjectRead | src/StructuredLogger/Serialization/XmlLogReader.cs:98-105 | A Project gets Name and ProjectFile; missing times are the default |
| XmlLogReaderProperties.BuildWithProject | src/StructuredLogger/Serialization/XmlLogReader.cs:47-54 | A Build element around a Project element gives a Build with that one Project child |
| XmlLogReaderProperties.PropertyRead | src/StructuredLogger/Serialization/XmlLogReader.cs:56-60 | A Property gets Name from the attribute and Value from the element's text |
| XmlLogReaderProperties.BuildWithProperty | src/StructuredLogger/Serialization/XmlLogReader.cs:47-60 | A Build element around a Property element gives a Build with that Property child |
| XmlLogReaderProperties.MessageRead | src/StructuredLogger/Serialization/XmlLogReader.cs:68-73 | A Message gets the parsed Timestamp and the element's text |
| XmlLogReaderProperties.UnknownRead | src/StructuredLogger/Serialization/XmlLogReader.cs:32-43 | An element with an unknown name and IsLowRelevance="true" becomes a low-relevance folder named after it, with its child |
| XmlLogReaderProperties.UnknownFolderWithMessage | src/StructuredLogger/Serialization/XmlLogReader.cs:28-76 | Build, then an unknown folder, then a Message, read three levels deep |
| XmlLogReaderProperties.TaskRead | src/StructuredLogger/Serialization/XmlLogReader.cs:115-124 | A Task gets Name, FromAssembly and CommandLineArguments; missing times are the default |
| XmlLogReaderProperties.BuildWithTask | src/StructuredLogger/Serialization/XmlLogReader.cs:47-54 | A Build element around a Task element gives a Build with that Task child |
| XmlLogReaderProperties.ItemRead | src/StructuredLogger/Serialization/XmlLogReader.cs:126-132 | An Item gets Name, and its Text comes from the ItemSpec attribute |
| XmlLogReaderProperties.BuildWithItem | src/StructuredLogger/Serialization/XmlLogReader.cs:47-54 | A Build element around an Item element gives a Build with that Item child |

## Left out

- Loading the file (`XDocument.Load` with whitespace preservation) is I/O and XML lexing. The model starts from the parsed document. Whitespace text nodes are ordinary text nodes, so they count in `Value`.
- The registry is built by reflection over every `TreeNode` subclass in the assembly (`Type.Name`), and instances are made with `Activator.CreateInstance`. The model uses a fixed table of the ten concrete types the reader handles. Other subclasses, and abstract classes such as `TreeNode` or `NamedNode` whose creation would throw, are not part of this model.
- The grammars of `bool.TryParse` and `DateTime.TryParse` (culture-dependent) are parameters. `DateTime` is reduced to a tick count, and `DateTimeKind` is not modelled.
- The TreeNode class hierarchy is not part of this model. `AddChild` is modelled as appending to the children; parent back-pointers are not modelled. Children are stored as finished values, so aliasing between nodes is not modelled.
- The `HasElements` guard is not modelled separately. The loop over an empty list of child elements does the same.
- XML namespaces are handled by local name. Element names are matched on their local part, as the reader does. Attributes are looked up unqualified (empty namespace), as `XElement.Attribute(string)` does.
- A document without a root element, where `ReadNode` would get null, is not modelled. `XDocument` here always has a root.
- XmlDom.Value and XmlDom.Concat carry no contract. They define `XElement.Value`, the concatenated descendant text, and `InlineTextIsWholeText` states what the reader does with it.
