/** The planner: it turns a stored graph template into the wire document of
    one job ("langgraph.v1"), merging metadata, normalising edges and checking
    the result against the graph schema. The planner never changes its
    template, so it is a value with functions over it. */
module Planner {
  import opened Wrappers
  import opened Json
  import opened GraphSchema

  /** Why getJobGraph throws: a template whose nodes or edges cannot be
      iterated or read (TypeError), the graph library's own validation, or
      the schema check of the assembled document. */
  datatype PlannerFault = TemplateTypeError | LibraryRejected | InvalidGraph

  function TemplateNode(id: string, name: string, task: string, plane: string): Json
  {
    JObj(map["id" := JStr(id), "name" := JStr(name), "task" := JStr(task), "plane" := JStr(plane),
             "status" := JStr("pending")])
  }

  function DefaultNodes(): seq<Json>
  {
    [TemplateNode("scripting", "Generate bot script", "script.generateScript", "node"),
     TemplateNode("training", "Execute GPU tasks", "train_lora", "python")]
  }

  function DefaultEdges(): seq<Json>
  {
    [JObj(map["from" := JStr("scripting"), "to" := JStr("training"), "kind" := JStr("normal")])]
  }

  /** `defaultGraphTemplate`: scripting on the control plane, then training
      on the worker plane. */
  function DefaultTemplate(): Json
  {
    JObj(map["nodes" := JArr(DefaultNodes()), "edges" := JArr(DefaultEdges())])
  }

  function DefaultInput(): Json
  {
    JObj(map["prompt" := JStr("Default prompt")])
  }

  /** A property that `JSON.stringify` keeps only when it is defined. */
  function Defined(m: map<string, Json>, k: string, o: Option<Json>): (r: map<string, Json>)
    ensures o.Some? ==> r == m[k := o.value]
    ensures o.None? ==> r == m
  {
    if o.Some? then m[k := o.value] else m
  }

  /** The edge the planner emits: from and to copied (dropped when
      undefined), kind defaulting to "normal". */
  function NormalizeEdge(e: Json): (r: Json)
    ensures r.JObj? && "kind" in r.fields && r.fields.Keys <= {"from", "to", "kind"}
    ensures r.fields["kind"] == Nullish(Get(e, "kind"), JStr("normal"))
    ensures ("from" in r.fields <==> Get(e, "from").Some?) && ("to" in r.fields <==> Get(e, "to").Some?)
    ensures "from" in r.fields ==> r.fields["from"] == e.fields["from"]
    ensures "to" in r.fields ==> r.fields["to"] == e.fields["to"]
  {
    JObj(Defined(Defined(map["kind" := Nullish(Get(e, "kind"), JStr("normal"))], "from", Get(e, "from")),
                 "to", Get(e, "to")))
  }

  function NormalizeEdges(edges: seq<Json>): (r: seq<Json>)
    ensures |r| == |edges| && forall i :: 0 <= i < |r| ==> r[i] == NormalizeEdge(edges[i])
  {
    seq(|edges|, i requires 0 <= i < |edges| => NormalizeEdge(edges[i]))
  }

  /** The metadata of the document: planner and version, overlaid by the
      caller's metadata. It holds planner and version, each replaced by the
      caller's value for the same key, and every key of the caller's
      metadata. */
  function Metadata(configuration: Json, metadata: Json): (r: map<string, Json>)
    ensures r.Keys == {"planner", "version"} + Spread(Some(metadata)).Keys
    ensures forall k :: k in Spread(Some(metadata)) ==> r[k] == Spread(Some(metadata))[k]
    ensures "planner" !in Spread(Some(metadata)) ==> r["planner"] == JStr("control-plane")
    ensures "version" !in Spread(Some(metadata)) ==>
      r["version"] == if Get(configuration, "version").Some? && Get(configuration, "version").value != JNull
                      then Get(configuration, "version").value else JStr("unknown")
  {
    Overlay(map["planner" := JStr("control-plane"), "version" := Nullish(Get(configuration, "version"), JStr("unknown"))],
            Spread(Some(metadata)))
  }

  datatype Planner = Planner(configuration: Json, graphTemplate: Json, graphInput: Json)
  {
    /** `#buildGraph`: a copy of the template's properties with the
        constructor input attached as params. */
    function BuildGraph(): (r: map<string, Json>)
      ensures "params" in r && r["params"] == graphInput
      ensures forall k :: k != "params" ==> (k in r <==> k in Spread(Some(graphTemplate)))
    {
      Spread(Some(graphTemplate))["params" := graphInput]
    }

    /** The node and edge lists `#validateWithLangGraph` iterates: both must
        be arrays, and reading `node.id` or `edge.from` of a null element
        throws. */
    function LibraryInputs(): (r: Result<(seq<Json>, seq<Json>), PlannerFault>)
      ensures r.Ok? ==> (Get(JObj(BuildGraph()), "nodes") == Some(JArr(r.value.0))
                         && Get(JObj(BuildGraph()), "edges") == Some(JArr(r.value.1)))
    {
      var g := BuildGraph();
      if "nodes" !in g || !g["nodes"].JArr? || "edges" !in g || !g["edges"].JArr? then Err(TemplateTypeError)
      else if JNull in g["nodes"].items || JNull in g["edges"].items then Err(TemplateTypeError)
      else Ok((g["nodes"].items, g["edges"].items))
    }

    /** The document getJobGraph assembles before the schema check: the
        schema tag, the given workflow id when defined, the template's nodes
        and normalised edges, and never the constructor input. */
    function JobDocument(nodes: seq<Json>, edges: seq<Json>, workflowId: Option<Json>, context: Option<Json>,
                         metadata: Option<Json>): (r: Json)
      ensures r.JObj?
      ensures r.fields.Keys == {"schema", "context", "metadata", "nodes", "edges"} + (if workflowId.Some? then {"workflowId"} else {})
      ensures r.fields["schema"] == JStr("langgraph.v1")
      ensures workflowId.Some? ==> r.fields["workflowId"] == workflowId.value
      ensures "params" !in r.fields
      ensures r.fields["nodes"] == JArr(nodes)
      ensures r.fields["edges"] == JArr(NormalizeEdges(edges))
      ensures r.fields["metadata"].JObj?
      ensures context.None? ==> r.fields["context"] == JObj(map[])
    {
      JObj(Defined(map[
        "schema" := JStr(SchemaVersion),
        "context" := if context.Some? then context.value else JObj(map[]),
        "metadata" := JObj(Metadata(configuration, if metadata.Some? then metadata.value else JObj(map[]))),
        "nodes" := JArr(nodes),
        "edges" := JArr(NormalizeEdges(edges))
      ], "workflowId", workflowId))
    }

    /** `getJobGraph`: the serialised document, or the reason it throws.
        `accepts` is the graph library's validation of the template, and
        the arguments are None where the caller leaves them undefined. */
    function GetJobGraph(codec: Codec, accepts: (seq<Json>, seq<Json>) -> bool,
                         workflowId: Option<Json>, context: Option<Json>, metadata: Option<Json>)
      : (r: Result<string, PlannerFault>)
      ensures LibraryInputs().Err? ==> r == Err(LibraryInputs().error)
      ensures LibraryInputs().Ok? && !accepts(LibraryInputs().value.0, LibraryInputs().value.1) ==> r == Err(LibraryRejected)
      ensures LibraryInputs().Ok? && accepts(LibraryInputs().value.0, LibraryInputs().value.1) ==>
        var doc := JobDocument(LibraryInputs().value.0, LibraryInputs().value.1, workflowId, context, metadata);
        && (r == Err(InvalidGraph) <==> !ValidGraph(doc))
        && (r.Ok? ==> r.value == codec.stringify(doc))
      ensures r.Ok? ==> LibraryInputs().Ok? && accepts(LibraryInputs().value.0, LibraryInputs().value.1)
    {
      match LibraryInputs()
      case Err(e) => Err(e)
      case Ok((nodes, edges)) =>
        if !accepts(nodes, edges) then Err(LibraryRejected)
        else
          var doc := JobDocument(nodes, edges, workflowId, context, metadata);
          if !ValidGraph(doc) then Err(InvalidGraph) else Ok(codec.stringify(doc))
    }
  }

  /** What getJobGraph returns parses back to a document tagged
      "langgraph.v1" whose workflowId is the string the caller passed. */
  lemma JobGraphParses(p: Planner, codec: Codec, accepts: (seq<Json>, seq<Json>) -> bool,
                       workflowId: Option<Json>, context: Option<Json>, metadata: Option<Json>)
    requires codec.Lawful()
    requires p.GetJobGraph(codec, accepts, workflowId, context, metadata).Ok?
    ensures var parsed := codec.parse(p.GetJobGraph(codec, accepts, workflowId, context, metadata).value);
      && parsed.Some? && parsed.value.JObj?
      && parsed.value.fields["schema"] == JStr("langgraph.v1")
      && workflowId.Some? && workflowId.value.JStr?
      && parsed.value.fields["workflowId"] == workflowId.value
      && "params" !in parsed.value.fields
  {
    var (nodes, edges) := p.LibraryInputs().value;
    var doc := p.JobDocument(nodes, edges, workflowId, context, metadata);
    assert codec.parse(codec.stringify(doc)) == Some(doc);
  }

  /** Every edge of an accepted document has exactly from, to and kind, its
      kind being the template's or "normal". */
  lemma EmittedEdges(p: Planner, codec: Codec, accepts: (seq<Json>, seq<Json>) -> bool,
                     workflowId: Option<Json>, context: Option<Json>, metadata: Option<Json>)
    requires p.GetJobGraph(codec, accepts, workflowId, context, metadata).Ok?
    ensures var (nodes, edges) := p.LibraryInputs().value;
      var out := p.JobDocument(nodes, edges, workflowId, context, metadata).fields["edges"].items;
      |out| == |edges|
      && forall i :: 0 <= i < |out| ==>
           out[i].fields.Keys == {"from", "to", "kind"}
           && out[i].fields["kind"] == Nullish(Get(edges[i], "kind"), JStr("normal"))
  {
    var (nodes, edges) := p.LibraryInputs().value;
    var doc := p.JobDocument(nodes, edges, workflowId, context, metadata);
    var out := doc.fields["edges"].items;
    forall i | 0 <= i < |out| ensures out[i].fields.Keys == {"from", "to", "kind"} {
      assert ValidEdge(out[i]);
    }
  }

  /** A template with a node that carries progressWeight, as every node the
      pipeline builders emit does, never yields a document. */
  lemma ProgressWeightRejected(p: Planner, codec: Codec, accepts: (seq<Json>, seq<Json>) -> bool,
                               workflowId: Option<Json>, context: Option<Json>, metadata: Option<Json>, i: nat)
    requires p.LibraryInputs().Ok?
    requires i < |p.LibraryInputs().value.0|
    requires var n := p.LibraryInputs().value.0[i]; n.JObj? && "progressWeight" in n.fields
    ensures p.GetJobGraph(codec, accepts, workflowId, context, metadata).Err?
  {
    var (nodes, edges) := p.LibraryInputs().value;
    UnlistedNodeKeyRejected(nodes[i], "progressWeight");
    var doc := p.JobDocument(nodes, edges, workflowId, context, metadata);
    assert doc.fields["nodes"].items[i] == nodes[i];
  }

  /** The default planner yields a document for any string workflow id when
      the caller leaves context and metadata out. */
  lemma DefaultPlannerAccepted(configuration: Json, codec: Codec, accepts: (seq<Json>, seq<Json>) -> bool, w: string)
    requires accepts(DefaultNodes(), DefaultEdges())
    ensures Planner(configuration, DefaultTemplate(), DefaultInput()).GetJobGraph(codec, accepts, Some(JStr(w)), None, None).Ok?
  {
    var p := Planner(configuration, DefaultTemplate(), DefaultInput());
    DefaultLibraryInputs(p);
    DefaultNodesValid();
    DefaultEdgesValid();
    var doc := p.JobDocument(DefaultNodes(), DefaultEdges(), Some(JStr(w)), None, None);
    assert ValidGraph(doc);
  }

  lemma DefaultLibraryInputs(p: Planner)
    requires p.graphTemplate == DefaultTemplate()
    ensures p.LibraryInputs() == Ok((DefaultNodes(), DefaultEdges()))
  {
    var g := p.BuildGraph();
    assert g["nodes"] == JArr(DefaultNodes()) && g["edges"] == JArr(DefaultEdges());
    assert DefaultNodes()[0] != JNull && DefaultNodes()[1] != JNull;
  }

  lemma DefaultNodesValid()
    ensures AllNodes(DefaultNodes())
  {
    var n := DefaultNodes();
    assert ValidNode(n[0]);
    assert ValidNode(n[1]);
  }

  lemma DefaultEdgesValid()
    ensures AllEdges(NormalizeEdges(DefaultEdges()))
  {
    var out := NormalizeEdges(DefaultEdges());
    assert out[0].fields == map["from" := JStr("scripting"), "to" := JStr("training"), "kind" := JStr("normal")];
    assert ValidEdge(out[0]);
  }
}
