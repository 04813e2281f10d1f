/** The zod schemas of the shared layer as validity predicates over JSON values.
    `schema.parse(v)` either throws (modelled as `None`) or returns the typed value
    with every key the schema does not name stripped away (zod's default for
    `z.object`); the encoders give the JSON a typed value is written as. */
module Schemas {
  import opened Wrappers
  import opened Json

  datatype Note = Note(id: string, title: string, content: string, tags: seq<string>,
                       createdAt: string, updatedAt: string)

  /** The shared graph node `{id, label, x, y}` (coordinates are JS numbers; integers here). */
  datatype SchemaNode = SchemaNode(id: string, nodeLabel: string, x: int, y: int)

  /** The shared graph edge: only its endpoints are part of the schema. */
  datatype SchemaEdge = SchemaEdge(source: string, target: string)

  datatype GraphData = GraphData(nodes: seq<SchemaNode>, edges: seq<SchemaEdge>)

  datatype ProjectMetadata = ProjectMetadata(name: string, created: string, lastModified: string)

  // ---- field-level checks: z.string(), z.number(), z.array(z.string()) on key k

  predicate StringAt(j: Json, k: string) {
    Field(j, k).Some? && Field(j, k).value.JStr?
  }

  predicate NumberAt(j: Json, k: string) {
    Field(j, k).Some? && Field(j, k).value.JNum?
  }

  predicate AllStrings(items: seq<Json>) {
    forall i :: 0 <= i < |items| ==> items[i].JStr?
  }

  predicate StringArrayAt(j: Json, k: string) {
    Field(j, k).Some? && Field(j, k).value.JArr? && AllStrings(Field(j, k).value.items)
  }

  /** The keys that the object `j` keeps after zod strips unknown keys. */
  function Restrict(j: Json, keys: set<string>): (r: Json)
    requires j.JObj?
    ensures r.JObj? && r.fields.Keys == j.fields.Keys * keys
    ensures forall k :: k in r.fields ==> r.fields[k] == j.fields[k]
  {
    JObj(map k | k in j.fields && k in keys :: j.fields[k])
  }

  // ---- string arrays

  /** The strings of an array all of whose items are strings, in order. */
  function Strings(items: seq<Json>): (r: seq<string>)
    requires AllStrings(items)
    ensures |r| == |items|
    ensures forall i :: 0 <= i < |r| ==> items[i] == JStr(r[i])
  {
    if items == [] then [] else [items[0].s] + Strings(items[1..])
  }

  function StringsJson(ss: seq<string>): (r: seq<Json>)
    ensures AllStrings(r) && |r| == |ss|
    ensures forall i :: 0 <= i < |r| ==> r[i] == JStr(ss[i])
  {
    seq(|ss|, i requires 0 <= i < |ss| => JStr(ss[i]))
  }

  /** Reading back a written string array gives the same strings. */
  lemma StringsRoundTrip(ss: seq<string>)
    ensures Strings(StringsJson(ss)) == ss
  {
  }

  /** Parsing a string array and writing it again gives the same items. */
  lemma StringsJsonOfStrings(items: seq<Json>)
    requires AllStrings(items)
    ensures StringsJson(Strings(items)) == items
  {
  }

  // ---- NoteSchema

  const NoteKeys: set<string> := {"id", "title", "content", "tags", "createdAt", "updatedAt"}

  predicate IsNote(j: Json) {
    && j.JObj?
    && StringAt(j, "id") && StringAt(j, "title") && StringAt(j, "content")
    && StringArrayAt(j, "tags")
    && StringAt(j, "createdAt") && StringAt(j, "updatedAt")
  }

  function NoteJson(n: Note): Json {
    JObj(map["id" := JStr(n.id), "title" := JStr(n.title), "content" := JStr(n.content),
             "tags" := JArr(StringsJson(n.tags)),
             "createdAt" := JStr(n.createdAt), "updatedAt" := JStr(n.updatedAt)])
  }

  /** `NoteSchema.parse`: succeeds exactly on valid notes, and what it returns is the
      input with every key outside the schema dropped. */
  function ParseNote(j: Json): (r: Option<Note>)
    ensures r.Some? <==> IsNote(j)
    ensures r.Some? ==> NoteJson(r.value) == Restrict(j, NoteKeys)
  {
    if !IsNote(j) then None
    else
      var f := j.fields;
      var n := Note(f["id"].s, f["title"].s, f["content"].s, Strings(f["tags"].items),
                    f["createdAt"].s, f["updatedAt"].s);
      StringsJsonOfStrings(f["tags"].items);
      assert NoteJson(n).fields.Keys == Restrict(j, NoteKeys).fields.Keys;
      Some(n)
  }

  /** A note written as JSON parses back to itself. */
  lemma NoteRoundTrip(n: Note)
    ensures IsNote(NoteJson(n))
    ensures ParseNote(NoteJson(n)) == Some(n)
  {
    var j := NoteJson(n);
    StringsRoundTrip(n.tags);
    assert Strings(j.fields["tags"].items) == n.tags;
  }

  /** The example of an invalid note: `{id: 'bad', title: 123}` does not parse. */
  lemma BadNoteRejected()
    ensures ParseNote(JObj(map["id" := JStr("bad"), "title" := JNum(123)])) == None
  {
  }

  // ---- NodeSchema, EdgeSchema, GraphDataSchema

  predicate IsSchemaNode(j: Json) {
    j.JObj? && StringAt(j, "id") && StringAt(j, "label") && NumberAt(j, "x") && NumberAt(j, "y")
  }

  /** Referential integrity (endpoints naming existing nodes) is not part of the schema. */
  predicate IsSchemaEdge(j: Json) {
    j.JObj? && StringAt(j, "source") && StringAt(j, "target")
  }

  predicate IsGraphData(j: Json) {
    && j.JObj?
    && Field(j, "nodes").Some? && Field(j, "nodes").value.JArr?
    && (forall i :: 0 <= i < |j.fields["nodes"].items| ==> IsSchemaNode(j.fields["nodes"].items[i]))
    && Field(j, "edges").Some? && Field(j, "edges").value.JArr?
    && (forall i :: 0 <= i < |j.fields["edges"].items| ==> IsSchemaEdge(j.fields["edges"].items[i]))
  }

  function SchemaNodeJson(n: SchemaNode): Json {
    JObj(map["id" := JStr(n.id), "label" := JStr(n.nodeLabel), "x" := JNum(n.x), "y" := JNum(n.y)])
  }

  function SchemaEdgeJson(e: SchemaEdge): Json {
    JObj(map["source" := JStr(e.source), "target" := JStr(e.target)])
  }

  function GraphJson(g: GraphData): Json {
    JObj(map["nodes" := JArr(seq(|g.nodes|, i requires 0 <= i < |g.nodes| => SchemaNodeJson(g.nodes[i]))),
             "edges" := JArr(seq(|g.edges|, i requires 0 <= i < |g.edges| => SchemaEdgeJson(g.edges[i])))])
  }

  function ParseSchemaNode(j: Json): (r: SchemaNode)
    requires IsSchemaNode(j)
    ensures SchemaNodeJson(r) == Restrict(j, {"id", "label", "x", "y"})
  {
    var r := SchemaNode(j.fields["id"].s, j.fields["label"].s, j.fields["x"].n, j.fields["y"].n);
    assert SchemaNodeJson(r).fields.Keys == Restrict(j, {"id", "label", "x", "y"}).fields.Keys;
    r
  }

  function ParseSchemaEdge(j: Json): (r: SchemaEdge)
    requires IsSchemaEdge(j)
    ensures SchemaEdgeJson(r) == Restrict(j, {"source", "target"})
  {
    var r := SchemaEdge(j.fields["source"].s, j.fields["target"].s);
    assert SchemaEdgeJson(r).fields.Keys == Restrict(j, {"source", "target"}).fields.Keys;
    r
  }

  /** `GraphDataSchema.parse`: succeeds exactly when every node and every edge is
      valid; the nodes and edges come back in order, each stripped to its schema keys. */
  function ParseGraph(j: Json): (r: Option<GraphData>)
    ensures r.Some? <==> IsGraphData(j)
    ensures r.Some? ==> (|r.value.nodes| == |j.fields["nodes"].items| &&
                         |r.value.edges| == |j.fields["edges"].items|)
    ensures r.Some? ==> forall i :: 0 <= i < |r.value.nodes| ==>
              SchemaNodeJson(r.value.nodes[i]) == Restrict(j.fields["nodes"].items[i], {"id", "label", "x", "y"})
    ensures r.Some? ==> forall i :: 0 <= i < |r.value.edges| ==>
              SchemaEdgeJson(r.value.edges[i]) == Restrict(j.fields["edges"].items[i], {"source", "target"})
  {
    if !IsGraphData(j) then None
    else
      var ns := j.fields["nodes"].items;
      var es := j.fields["edges"].items;
      Some(GraphData(seq(|ns|, i requires 0 <= i < |ns| => ParseSchemaNode(ns[i])),
                     seq(|es|, i requires 0 <= i < |es| => ParseSchemaEdge(es[i]))))
  }

  /** A graph written as JSON parses back to itself. */
  lemma GraphRoundTrip(g: GraphData)
    ensures IsGraphData(GraphJson(g))
    ensures ParseGraph(GraphJson(g)) == Some(g)
  {
    var r := ParseGraph(GraphJson(g)).value;
    assert r.nodes == g.nodes;
    assert r.edges == g.edges;
  }

  /** The empty graph `{nodes: [], edges: []}` is valid. */
  lemma EmptyGraphValid()
    ensures IsGraphData(GraphJson(GraphData([], [])))
  {
  }

  // ---- ProjectMetadataSchema

  const ProjectKeys: set<string> := {"name", "created", "lastModified"}

  predicate IsProjectMetadata(j: Json) {
    j.JObj? && StringAt(j, "name") && StringAt(j, "created") && StringAt(j, "lastModified")
  }

  function ProjectJson(p: ProjectMetadata): Json {
    JObj(map["name" := JStr(p.name), "created" := JStr(p.created), "lastModified" := JStr(p.lastModified)])
  }

  /** `ProjectMetadataSchema.parse`: succeeds exactly on valid metadata, stripping other keys. */
  function ParseProject(j: Json): (r: Option<ProjectMetadata>)
    ensures r.Some? <==> IsProjectMetadata(j)
    ensures r.Some? ==> ProjectJson(r.value) == Restrict(j, ProjectKeys)
  {
    if !IsProjectMetadata(j) then None
    else
      var r := ProjectMetadata(j.fields["name"].s, j.fields["created"].s, j.fields["lastModified"].s);
      assert ProjectJson(r).fields.Keys == Restrict(j, ProjectKeys).fields.Keys;
      Some(r)
  }

  lemma ProjectRoundTrip(p: ProjectMetadata)
    ensures ParseProject(ProjectJson(p)) == Some(p)
  {
  }
}
