/** The control plane's pipeline builder (backend/src/core/pipelines.js):
    request normalisation, the registry of pipeline variants, node cloning
    with parameter overrides, and the chain graphs of the two build modes.
    The configured pipeline modes and the LLM defaults are parameters (they
    come from the application configuration); the JSON parser used on a
    submitted graph is the codec parameter. */
module Pipelines {
  import opened Wrappers
  import opened Json
  import opened Strings
  import opened Workflow
  import opened Dag

  /** Why a request is refused: the three PipelineError messages and the
      two exceptions the builders raise. */
  datatype PipelineFault =
    | EmptyInput
    | MissingMode
    | UnknownMode(mode: Json)
    | MissingGraph
    | MissingPromptOrVariant
    | UnknownVariant(variant: Json)
    | SyntaxError
    | TypeError

  /** A registered pipeline variant; the train or generate list is absent
      (`undefined`) in variants that have none. */
  datatype VariantConfig = VariantConfig(
    id: string, title: string,
    trainNodes: Option<seq<Node>>, generateNodes: Option<seq<Node>>,
    renderNode: Node)

  /** A built graph: its nodes and its edges, every edge of kind "normal". */
  datatype Template = Template(nodes: seq<Node>, edges: seq<Edge>)

  // ---------------------------------------------------------------------
  // The variant registry
  // ---------------------------------------------------------------------

  const SvdWav2Lip: string := "svd_wav2lip"
  const SadTalker: string := "sadtalker"
  const F5TtsInfiniteTalk: string := "f5tts_infinitetalk"

  /** A worker-plane template node. */
  function WorkerNode(id: string, name: string, weight: real, preset: string): (r: Node)
    ensures Id(r) == id && OnPlane(r, WorkerPlane)
  {
    map["id" := JStr(id), "name" := JStr(name), "task" := JStr(id), "plane" := JStr(WorkerPlane),
        "progressWeight" := JNum(weight), "params" := JObj(map["preset" := JStr(preset)])]
  }

  function SvdWav2LipConfig(): VariantConfig
  {
    VariantConfig(SvdWav2Lip, "SVD + Wav2Lip",
      Some([WorkerNode("train_lora", "Train LoRA", 0.3, SvdWav2Lip),
            WorkerNode("train_voice", "Train voice (TTS)", 0.1, SvdWav2Lip)]),
      None,
      WorkerNode("render_video", "Render video (SVD + Wav2Lip)", 0.4, SvdWav2Lip))
  }

  function SadTalkerConfig(): VariantConfig
  {
    VariantConfig(SadTalker, "SadTalker",
      Some([WorkerNode("train_voice", "Train voice (SadTalker)", 0.3, SadTalker)]),
      None,
      WorkerNode("render_video", "Render video (SadTalker)", 0.6, SadTalker))
  }

  function F5TtsInfiniteTalkConfig(): VariantConfig
  {
    VariantConfig(F5TtsInfiniteTalk, "InfiniteTalk",
      None,
      Some([WorkerNode("f5_to_tts", "Generate voice (F5-TTS)", 0.15, F5TtsInfiniteTalk),
            WorkerNode("infinite_talk", "Generate speech video", 0.55, F5TtsInfiniteTalk)]),
      WorkerNode("render_video_infinitetalk", "Render video (WAN+InfiniteTalk)", 0.2, F5TtsInfiniteTalk))
  }

  /** `VariantsRegistry`. */
  function Registry(): map<string, VariantConfig>
  {
    map[SvdWav2Lip := SvdWav2LipConfig(), SadTalker := SadTalkerConfig(), F5TtsInfiniteTalk := F5TtsInfiniteTalkConfig()]
  }

  /** `VariantsRegistry[v]`: a registered variant, or no configuration. */
  function Lookup(v: Option<Json>): (r: Option<VariantConfig>)
    ensures r.Some? <==> v.Some? && v.value.JStr? && v.value.s in Registry()
  {
    if v.Some? && v.value.JStr? && v.value.s in Registry() then Some(Registry()[v.value.s]) else None
  }

  /** Every node a variant lists runs on the worker plane. */
  lemma RegistryOnWorkerPlane(v: string)
    requires v in Registry()
    ensures var c := Registry()[v];
      && OnPlane(c.renderNode, WorkerPlane)
      && (c.trainNodes.Some? ==> forall k :: 0 <= k < |c.trainNodes.value| ==> OnPlane(c.trainNodes.value[k], WorkerPlane))
      && (c.generateNodes.Some? ==> forall k :: 0 <= k < |c.generateNodes.value| ==> OnPlane(c.generateNodes.value[k], WorkerPlane))
  {
  }

  /** Every registered variant lacks its train list or its generate list. */
  lemma RegistryLacksOneList(v: string)
    requires v in Registry()
    ensures Registry()[v].trainNodes.None? || Registry()[v].generateNodes.None?
  {
  }

  // ---------------------------------------------------------------------
  // Request normalisation
  // ---------------------------------------------------------------------

  /** `x || d` on an optional JSON value. */
  function OrElse(o: Option<Json>, d: Json): (r: Json)
    ensures Present(o) ==> r == o.value
    ensures !Present(o) ==> r == d
  {
    if Present(o) then o.value else d
  }

  /** `input.mode === PipelineModes[name]`. */
  predicate ModeIs(modes: map<string, string>, name: string, mode: Json)
  {
    name in modes && mode == JStr(modes[name])
  }

  /** `input?.scriptInput?.prompt && input.variant`. */
  predicate HasPromptAndVariant(input: Json)
  {
    Present(GetOpt(Get(input, "scriptInput"), "prompt")) && Present(Get(input, "variant"))
  }

  /** `normalizeInput`: the request (a JSON clone) after its checks; in
      PROCESS mode the graph text is dropped from it. */
  function NormalizeInput(modes: map<string, string>, input: Json): (r: Result<map<string, Json>, PipelineFault>)
    ensures r == Err(EmptyInput) <==> !Truthy(input)
    ensures r.Ok? ==>
      input.JObj? && "mode" in input.fields && input.fields["mode"].JStr? && input.fields["mode"].s in modes.Values
    ensures r.Ok? ==> r.value == if ModeIs(modes, "PROCESS", input.fields["mode"]) then input.fields - {"graph"} else input.fields
    ensures r.Ok? && ModeIs(modes, "PROCESS", input.fields["mode"]) ==> Present(Get(input, "graph"))
    ensures r.Ok? && !ModeIs(modes, "PROCESS", input.fields["mode"]) && ModeIs(modes, "TRAIN_GENERATE", input.fields["mode"]) ==>
      HasPromptAndVariant(input) && Lookup(Get(input, "variant")).Some?
    ensures r.Ok? && !ModeIs(modes, "PROCESS", input.fields["mode"]) && ModeIs(modes, "GENERATE", input.fields["mode"]) ==>
      HasPromptAndVariant(input)
  {
    if !Truthy(input) then Err(EmptyInput)
    else if !Present(Get(input, "mode")) then Err(MissingMode)
    else
      var mode := input.fields["mode"];
      if !(mode.JStr? && mode.s in modes.Values) then Err(UnknownMode(mode))
      else if ModeIs(modes, "PROCESS", mode) then
        if !Present(Get(input, "graph")) then Err(MissingGraph) else Ok(input.fields - {"graph"})
      else if ModeIs(modes, "TRAIN_GENERATE", mode) then
        if !HasPromptAndVariant(input) then Err(MissingPromptOrVariant)
        else if Lookup(Get(input, "variant")).None? then Err(UnknownVariant(input.fields["variant"]))
        else Ok(input.fields)
      else if ModeIs(modes, "GENERATE", mode) then
        if !HasPromptAndVariant(input) then Err(MissingPromptOrVariant) else Ok(input.fields)
      else Ok(input.fields)
  }

  /** The rejections, each tied to the check that raises it. */
  lemma NormalizeRejections(modes: map<string, string>, input: Json)
    ensures Truthy(input) && !Present(Get(input, "mode")) ==> NormalizeInput(modes, input) == Err(MissingMode)
    ensures Present(Get(input, "mode")) && !(input.fields["mode"].JStr? && input.fields["mode"].s in modes.Values) ==>
      NormalizeInput(modes, input) == Err(UnknownMode(input.fields["mode"]))
    ensures Present(Get(input, "mode")) && ModeIs(modes, "PROCESS", input.fields["mode"]) && !Present(Get(input, "graph")) ==>
      NormalizeInput(modes, input) == Err(MissingGraph)
    ensures Present(Get(input, "mode")) && ModeIs(modes, "GENERATE", input.fields["mode"]) && HasPromptAndVariant(input) &&
              !ModeIs(modes, "PROCESS", input.fields["mode"]) && !ModeIs(modes, "TRAIN_GENERATE", input.fields["mode"]) ==>
              NormalizeInput(modes, input) == Ok(input.fields)
  {
  }

  // ---------------------------------------------------------------------
  // Nodes
  // ---------------------------------------------------------------------

  /** The params of a cloned node: the template's own, overlaid by the
      overrides when these are truthy and have keys. */
  function CommonParams(node: Node, extra: Option<Json>): map<string, Json>
  {
    var params := Spread(Get(JObj(node), "params"));
    if Truthy(OrElse(extra, JNull)) && |Spread(extra)| > 0 then Overlay(params, Spread(extra)) else params
  }

  /** `addCommonParams`: a clone of the template with its params overlaid
      by the overrides, the status defaulting to "pending" and the progress
      weight to 0 (see AddCommonParamsMeaning). */
  function AddCommonParams(node: Node, extra: Option<Json>): (r: Node)
    ensures Id(r) == Id(node)
    ensures "plane" in r <==> "plane" in node
    ensures "plane" in node ==> r["plane"] == node["plane"]
  {
    node["params" := JObj(CommonParams(node, extra))]
        ["status" := OrElse(Get(JObj(node), "status"), JStr("pending"))]
        ["progressWeight" := if "progressWeight" in node && node["progressWeight"].JNum? then node["progressWeight"] else JNum(0.0)]
  }

  /** The params of a cloned node: every override wins, the template's
      params are kept otherwise, and no other key appears. */
  lemma CommonParamsMeaning(node: Node, extra: Option<Json>)
    ensures var m, base, over := CommonParams(node, extra), Spread(Get(JObj(node), "params")), Spread(extra);
      && m.Keys == base.Keys + over.Keys
      && (forall k :: k in over ==> m[k] == over[k])
      && (forall k :: k in base && k !in over ==> m[k] == base[k])
  {
    var base, over := Spread(Get(JObj(node), "params")), Spread(extra);
    if !(Truthy(OrElse(extra, JNull)) && |over| > 0) {
      assert |over| == 0;
    }
  }

  /** A cloned node has the template's keys plus the three it sets, and
      every other key unchanged. */
  lemma AddCommonParamsKeys(node: Node, extra: Option<Json>)
    ensures var r := AddCommonParams(node, extra);
      && r.Keys == node.Keys + {"params", "status", "progressWeight"}
      && (forall k :: k in node && k !in {"params", "status", "progressWeight"} ==> r[k] == node[k])
  {
  }

  /** What a cloned node holds: params as CommonParamsMeaning says, a
      truthy status kept (else "pending"), a numeric progress weight kept
      (else 0). */
  lemma AddCommonParamsMeaning(node: Node, extra: Option<Json>)
    ensures var r := AddCommonParams(node, extra);
      && r["params"] == JObj(CommonParams(node, extra))
      && r["status"] == (if Present(Get(JObj(node), "status")) then node["status"] else JStr("pending"))
      && r["progressWeight"] == (if "progressWeight" in node && node["progressWeight"].JNum? then node["progressWeight"] else JNum(0.0))
  {
  }

  /** Applying the same overrides twice changes nothing more. */
  lemma AddCommonParamsIdempotent(node: Node, extra: Option<Json>)
    ensures AddCommonParams(AddCommonParams(node, extra), extra) == AddCommonParams(node, extra)
  {
    var once := AddCommonParams(node, extra);
    var twice := AddCommonParams(once, extra);
    AddCommonParamsKeys(node, extra);
    AddCommonParamsMeaning(node, extra);
    AddCommonParamsKeys(once, extra);
    AddCommonParamsMeaning(once, extra);
    CommonParamsStable(node, extra);
    SameNode(twice, once);
  }

  /** The cloned node's params, overridden again, stay as they are. */
  lemma CommonParamsStable(node: Node, extra: Option<Json>)
    ensures CommonParams(AddCommonParams(node, extra), extra) == CommonParams(node, extra)
  {
    var once := AddCommonParams(node, extra);
    AddCommonParamsMeaning(node, extra);
    CommonParamsMeaning(node, extra);
    CommonParamsMeaning(once, extra);
  }

  /** Two nodes with the same properties and values are the same node. */
  lemma SameNode(a: Node, b: Node)
    requires a.Keys == b.Keys && {"params", "status", "progressWeight"} <= a.Keys
    requires a["params"] == b["params"] && a["status"] == b["status"] && a["progressWeight"] == b["progressWeight"]
    requires forall k :: k in a && k !in {"params", "status", "progressWeight"} ==> a[k] == b[k]
    ensures a == b
  {
  }

  /** `x[i]` on a JSON value: an array element, an object's property named by
      the index, or a character of a string. */
  function ElementAt(j: Json, i: nat): (r: Option<Json>)
    ensures j.JArr? ==> (r.Some? <==> i < |j.items|)
  {
    match j
    case JArr(items) => if i < |items| then Some(items[i]) else None
    case JObj(m) => if NatToString(i) in m then Some(m[NatToString(i)]) else None
    case JStr(s) => if i < |s| then Some(JStr([s[i]])) else None
    case _ => None
  }

  /** The template nodes cloned with the overrides at the same index. */
  function CloneNodes(templates: seq<Node>, overrides: Json): (r: seq<Node>)
    ensures |r| == |templates|
    ensures forall k :: 0 <= k < |r| ==> r[k] == AddCommonParams(templates[k], ElementAt(overrides, k))
  {
    seq(|templates|, k requires 0 <= k < |templates| => AddCommonParams(templates[k], ElementAt(overrides, k)))
  }

  function Ids(nodes: seq<Node>): (r: seq<string>)
    ensures |r| == |nodes| && forall k :: 0 <= k < |nodes| ==> r[k] == Id(nodes[k])
  {
    seq(|nodes|, k requires 0 <= k < |nodes| => Id(nodes[k]))
  }

  /** The script node before `addCommonParams`; the endpoint and timeout keys
      are dropped by the JSON clone when the configuration lacks them. */
  function ScriptLiteral(llm: Option<Json>, prompt: Option<Json>): (r: Node)
    ensures Id(r) == "script" && OnPlane(r, ControlPlane)
  {
    var defaults := OrElse(llm, JObj(map[]));
    var temperature := Get(defaults, "temperature");
    var params := map[
      "tone" := OrElse(Get(defaults, "tone"), JStr("casual")),
      "length" := OrElse(Get(defaults, "lengthSeconds"), JNum(20.0)),
      "persona" := OrElse(Get(defaults, "persona"), JStr("default")),
      "model" := OrElse(Get(defaults, "model"), JStr("llama3")),
      "temperature" := if temperature.Some? && temperature.value.JNum? then temperature.value else JNum(0.4)];
    var withEndpoint := if Get(defaults, "endpoint").Some? then params["endpoint" := Get(defaults, "endpoint").value] else params;
    var full := if Get(defaults, "timeoutMs").Some? then withEndpoint["timeoutMs" := Get(defaults, "timeoutMs").value] else withEndpoint;
    map["id" := JStr("script"), "name" := JStr("Generate script"), "task" := JStr("script.generateScript"),
        "plane" := JStr(ControlPlane), "status" := JStr("pending"), "progressWeight" := JNum(0.1),
        "params" := JObj(full),
        "input" := JObj(if prompt.Some? then map["prompt" := prompt.value] else map[])]
  }

  /** `buildScriptNode`. */
  function BuildScriptNode(llm: Option<Json>, prompt: Option<Json>): (r: Node)
    ensures Id(r) == "script"
  {
    AddCommonParams(ScriptLiteral(llm, prompt), None)
  }

  /** `addCommonParams` leaves the script literal as it is: a pending
      control-plane node whose input holds the prompt. */
  lemma ScriptNodeIsLiteral(llm: Option<Json>, prompt: Option<Json>)
    ensures BuildScriptNode(llm, prompt) == ScriptLiteral(llm, prompt)
    ensures var r := BuildScriptNode(llm, prompt);
      OnPlane(r, ControlPlane) && HasStatus(r, "pending")
      && r["input"] == JObj(if prompt.Some? then map["prompt" := prompt.value] else map[])
  {
    var lit := ScriptLiteral(llm, prompt);
    assert CommonParams(lit, None) == lit["params"].fields;
    assert AddCommonParams(lit, None) == lit["params" := lit["params"]]["status" := lit["status"]]["progressWeight" := lit["progressWeight"]];
  }

  // ---------------------------------------------------------------------
  // Edges
  // ---------------------------------------------------------------------

  /** The last id of a segment continued from `prev`. */
  function SegmentLast(prev: string, ids: seq<string>): string
  {
    if ids == [] then prev else ids[|ids| - 1]
  }

  /** A segment linked as `buildTrainAndGenerateGraph` writes it: `prev` to
      the first node, then every later node to the one before it. */
  function ReversedSegment(prev: string, ids: seq<string>): (r: seq<Edge>)
    ensures |r| == |ids|
    ensures ids != [] ==> r[0] == Edge(prev, ids[0])
    ensures forall k :: 1 <= k < |ids| ==> r[k] == Edge(ids[k], ids[k - 1])
    decreases |ids|
  {
    if ids == [] then []
    else if |ids| == 1 then [Edge(prev, ids[0])]
    else ReversedSegment(prev, ids[..|ids| - 1]) + [Edge(ids[|ids| - 1], ids[|ids| - 2])]
  }

  /** The edges of the train-and-generate graph as written. */
  function TrainEdgesAsWritten(script: string, train: seq<string>, gen: seq<string>, render: string): seq<Edge>
  {
    var afterTrain := SegmentLast(script, train);
    ReversedSegment(script, train) + ReversedSegment(afterTrain, gen) + [Edge(SegmentLast(afterTrain, gen), render)]
  }

  /** Loop of `buildGenerateOnlyGraph`: links `prev` and then each id to the
      next, returning the last id linked. */
  method LinkForward(edges: seq<Edge>, prev: string, ids: seq<string>) returns (out: seq<Edge>, last: string)
    ensures out == edges + ChainEdges([prev] + ids) && last == SegmentLast(prev, ids)
  {
    out, last := edges, prev;
    if |ids| > 0 {
      ChainStart(edges, prev, ids);
      out := out + [Edge(last, ids[0])];
      last := ids[0];
      for i := 1 to |ids|
        invariant out == edges + ChainEdges([prev] + ids[..i]) && last == ids[i - 1]
      {
        ChainStep(edges, prev, ids, i);
        out := out + [Edge(last, ids[i])];
        last := ids[i];
      }
      assert ids[..|ids|] == ids;
    } else {
      assert ChainEdges([prev] + ids) == [];
    }
  }

  /** The first edge of the loop is the chain from `prev` to the first id. */
  lemma ChainStart(edges: seq<Edge>, prev: string, ids: seq<string>)
    requires |ids| > 0
    ensures edges + [Edge(prev, ids[0])] == edges + ChainEdges([prev] + ids[..1])
  {
    var c := ChainEdges([prev] + ids[..1]);
    assert |c| == 1 && c[0] == Edge(prev, ids[0]);
    assert c == [Edge(prev, ids[0])];
  }

  /** One loop round extends the chain by one edge. */
  lemma ChainStep(edges: seq<Edge>, prev: string, ids: seq<string>, i: nat)
    requires 1 <= i < |ids|
    ensures edges + ChainEdges([prev] + ids[..i]) + [Edge(ids[i - 1], ids[i])] == edges + ChainEdges([prev] + ids[..i + 1])
  {
    var a := [prev] + ids[..i];
    assert a[|a| - 1] == ids[i - 1];
    ChainSnoc(a, ids[i]);
    assert a + [ids[i]] == [prev] + ids[..i + 1];
    assert edges + ChainEdges(a) + [Edge(ids[i - 1], ids[i])] == edges + (ChainEdges(a) + [Edge(ids[i - 1], ids[i])]);
  }

  /** Loop of `buildTrainAndGenerateGraph`: the first id after `prev`, then
      each later id linked back to the one before it. */
  method LinkAsWritten(edges: seq<Edge>, prev: string, ids: seq<string>) returns (out: seq<Edge>, last: string)
    ensures out == edges + ReversedSegment(prev, ids) && last == SegmentLast(prev, ids)
  {
    out, last := edges, prev;
    if |ids| > 0 {
      out := out + [Edge(last, ids[0])];
      last := ids[0];
      for i := 1 to |ids|
        invariant out == edges + ReversedSegment(prev, ids[..i]) && last == ids[i - 1]
      {
        assert ids[..i + 1][..i] == ids[..i];
        out := out + [Edge(ids[i], last)];
        last := ids[i];
      }
      assert ids[..|ids|] == ids;
    }
  }

  /** Clones each template with its override, one push per iteration. */
  method CloneAll(templates: seq<Node>, overrides: Json) returns (nodes: seq<Node>)
    ensures nodes == CloneNodes(templates, overrides)
  {
    nodes := [];
    for i := 0 to |templates|
      invariant nodes == CloneNodes(templates[..i], overrides)
    {
      nodes := nodes + [AddCommonParams(templates[i], ElementAt(overrides, i))];
    }
    assert templates[..|templates|] == templates;
  }

  // ---------------------------------------------------------------------
  // The two builders
  // ---------------------------------------------------------------------

  /** `buildGenerateOnlyGraph`: script, the generate nodes, render, linked in
      one chain; a missing configuration or generate list is a TypeError. */
  function GenerateOnlyGraph(llm: Option<Json>, variant: Option<VariantConfig>, prompt: Option<Json>,
                             genParams: Json, renderParams: Json): (r: Result<Template, PipelineFault>)
    ensures r.Err? <==> variant.None? || variant.value.generateNodes.None?
    ensures r.Err? ==> r.error == TypeError
    ensures r.Ok? ==>
      && |r.value.nodes| == |variant.value.generateNodes.value| + 2
      && |r.value.edges| == |r.value.nodes| - 1
  {
    if variant.None? || variant.value.generateNodes.None? then Err(TypeError)
    else
      var nodes := [BuildScriptNode(llm, prompt)] + CloneNodes(variant.value.generateNodes.value, genParams)
        + [AddCommonParams(variant.value.renderNode, Some(renderParams))];
      Ok(Template(nodes, ChainEdges(Ids(nodes))))
  }

  method BuildGenerateOnlyGraph(llm: Option<Json>, variant: Option<VariantConfig>, prompt: Option<Json>,
                                genParams: Json, renderParams: Json) returns (r: Result<Template, PipelineFault>)
    ensures r == GenerateOnlyGraph(llm, variant, prompt, genParams, renderParams)
  {
    var script := BuildScriptNode(llm, prompt);
    if variant.None? || variant.value.generateNodes.None? {
      return Err(TypeError);
    }
    var gens := CloneAll(variant.value.generateNodes.value, genParams);
    var render := AddCommonParams(variant.value.renderNode, Some(renderParams));
    var nodes := [script] + gens + [render];
    var edges, prev := LinkForward([], Id(script), Ids(gens));
    assert edges == ChainEdges([Id(script)] + Ids(gens));
    LinkedChain(script, gens, render);
    edges := edges + [Edge(prev, Id(render))];
    GenerateOnlyGraphIs(llm, variant, prompt, genParams, renderParams, nodes, edges);
    return Ok(Template(nodes, edges));
  }

  /** The links the loop makes, then the render link: the chain of the
      node ids. */
  lemma LinkedChain(script: Node, mid: seq<Node>, render: Node)
    ensures ChainEdges([Id(script)] + Ids(mid)) + [Edge(SegmentLast(Id(script), Ids(mid)), Id(render))]
      == ChainEdges(Ids([script] + mid + [render]))
  {
    var ids := [Id(script)] + Ids(mid);
    assert SegmentLast(Id(script), Ids(mid)) == ids[|ids| - 1];
    ChainSnoc(ids, Id(render));
    IdsOfThree(script, mid, render);
  }

  lemma GenerateOnlyGraphIs(llm: Option<Json>, variant: Option<VariantConfig>, prompt: Option<Json>,
                            genParams: Json, renderParams: Json, nodes: seq<Node>, edges: seq<Edge>)
    requires variant.Some? && variant.value.generateNodes.Some?
    requires nodes == [BuildScriptNode(llm, prompt)] + CloneNodes(variant.value.generateNodes.value, genParams)
      + [AddCommonParams(variant.value.renderNode, Some(renderParams))]
    requires edges == ChainEdges(Ids(nodes))
    ensures GenerateOnlyGraph(llm, variant, prompt, genParams, renderParams) == Ok(Template(nodes, edges))
  {
  }

  lemma IdsConcat(a: seq<Node>, b: seq<Node>)
    ensures Ids(a + b) == Ids(a) + Ids(b)
  {
  }

  /** One more link after a chain continued from `x`. */
  lemma ChainSnoc(a: seq<string>, y: string)
    requires a != []
    ensures ChainEdges(a) + [Edge(a[|a| - 1], y)] == ChainEdges(a + [y])
  {
    ChainAppend(a, [y]);
  }

  /** The parts of the train-and-generate graph: script node, train nodes,
      generate nodes, render node; a missing configuration or list is a
      TypeError. */
  datatype Parts = Parts(script: Node, trains: seq<Node>, gens: seq<Node>, render: Node)
  {
    function Nodes(): seq<Node> { [script] + trains + gens + [render] }
  }

  function TrainAndGenerateParts(llm: Option<Json>, variant: Option<VariantConfig>, prompt: Option<Json>,
                                 trainParams: Json, genParams: Json, renderParams: Json): Result<Parts, PipelineFault>
  {
    if variant.None? || variant.value.trainNodes.None? || variant.value.generateNodes.None? then Err(TypeError)
    else Ok(Parts(BuildScriptNode(llm, prompt), CloneNodes(variant.value.trainNodes.value, trainParams),
                  CloneNodes(variant.value.generateNodes.value, genParams),
                  AddCommonParams(variant.value.renderNode, Some(renderParams))))
  }

  /** `buildTrainAndGenerateGraph` as written: the segments link backwards. */
  function TrainAndGenerateAsWritten(llm: Option<Json>, variant: Option<VariantConfig>, prompt: Option<Json>,
                                     trainParams: Json, genParams: Json, renderParams: Json): Result<Template, PipelineFault>
  {
    match TrainAndGenerateParts(llm, variant, prompt, trainParams, genParams, renderParams)
    case Err(e) => Err(e)
    case Ok(p) => Ok(Template(p.Nodes(), TrainEdgesAsWritten(Id(p.script), Ids(p.trains), Ids(p.gens), Id(p.render))))
  }

  /** The train-and-generate graph with every segment linked forwards: one
      chain from the script node to the render node. */
  function TrainAndGenerateGraph(llm: Option<Json>, variant: Option<VariantConfig>, prompt: Option<Json>,
                                 trainParams: Json, genParams: Json, renderParams: Json): (r: Result<Template, PipelineFault>)
    ensures r.Err? <==> variant.None? || variant.value.trainNodes.None? || variant.value.generateNodes.None?
    ensures r.Err? ==> r.error == TypeError
    ensures r.Ok? ==>
      && |r.value.nodes| == |variant.value.trainNodes.value| + |variant.value.generateNodes.value| + 2
      && |r.value.edges| == |r.value.nodes| - 1
  {
    match TrainAndGenerateParts(llm, variant, prompt, trainParams, genParams, renderParams)
    case Err(e) => Err(e)
    case Ok(p) => Ok(Template(p.Nodes(), ChainEdges(Ids(p.Nodes()))))
  }

  /** The node-building half of `buildTrainAndGenerateGraph`: a variant
      without both node lists fails on the first clone loop. */
  method BuildParts(llm: Option<Json>, variant: Option<VariantConfig>, prompt: Option<Json>,
                    trainParams: Json, genParams: Json, renderParams: Json) returns (r: Result<Parts, PipelineFault>)
    ensures r == TrainAndGenerateParts(llm, variant, prompt, trainParams, genParams, renderParams)
  {
    if variant.None? || variant.value.trainNodes.None? || variant.value.generateNodes.None? {
      return Err(TypeError);
    }
    r := BuildPartsOf(llm, variant, prompt, trainParams, genParams, renderParams);
  }

  /** The script node, the two clone loops and the render node. */
  method BuildPartsOf(llm: Option<Json>, variant: Option<VariantConfig>, prompt: Option<Json>,
                      trainParams: Json, genParams: Json, renderParams: Json) returns (r: Result<Parts, PipelineFault>)
    requires variant.Some? && variant.value.trainNodes.Some? && variant.value.generateNodes.Some?
    ensures r == TrainAndGenerateParts(llm, variant, prompt, trainParams, genParams, renderParams)
  {
    var script := BuildScriptNode(llm, prompt);
    var v := variant.value;
    var trains := CloneAll(v.trainNodes.value, trainParams);
    var gens := CloneAll(v.generateNodes.value, genParams);
    var render := AddCommonParams(v.renderNode, Some(renderParams));
    return Ok(Parts(script, trains, gens, render));
  }

  /** The edge-building half as written: both loops link backwards. */
  method LinkPartsAsWritten(p: Parts) returns (edges: seq<Edge>)
    ensures edges == TrainEdgesAsWritten(Id(p.script), Ids(p.trains), Ids(p.gens), Id(p.render))
  {
    var prev;
    edges, prev := LinkAsWritten([], Id(p.script), Ids(p.trains));
    assert edges == ReversedSegment(Id(p.script), Ids(p.trains));
    edges, prev := LinkAsWritten(edges, prev, Ids(p.gens));
    edges := edges + [Edge(prev, Id(p.render))];
  }

  /** The edge-building half linked forwards. */
  method LinkPartsForward(p: Parts) returns (edges: seq<Edge>)
    ensures edges == ChainEdges(Ids(p.Nodes()))
  {
    var prev;
    edges, prev := LinkForward([], Id(p.script), Ids(p.trains));
    assert edges == ChainEdges([Id(p.script)] + Ids(p.trains));
    edges, prev := LinkForward(edges, prev, Ids(p.gens));
    edges := edges + [Edge(prev, Id(p.render))];
    ForwardIds(Id(p.script), Ids(p.trains), Ids(p.gens), Id(p.render));
    IdsOfFour(p.script, p.trains, p.gens, p.render);
    assert Ids(p.Nodes()) == [Id(p.script)] + Ids(p.trains) + Ids(p.gens) + [Id(p.render)];
  }

  method BuildTrainAndGenerateGraphAsWritten(llm: Option<Json>, variant: Option<VariantConfig>, prompt: Option<Json>,
                                             trainParams: Json, genParams: Json, renderParams: Json)
    returns (r: Result<Template, PipelineFault>)
    ensures r == TrainAndGenerateAsWritten(llm, variant, prompt, trainParams, genParams, renderParams)
  {
    var parts := BuildParts(llm, variant, prompt, trainParams, genParams, renderParams);
    if parts.Err? {
      return Err(parts.error);
    }
    var edges := LinkPartsAsWritten(parts.value);
    return Ok(Template(parts.value.Nodes(), edges));
  }

  method BuildTrainAndGenerateGraph(llm: Option<Json>, variant: Option<VariantConfig>, prompt: Option<Json>,
                                    trainParams: Json, genParams: Json, renderParams: Json)
    returns (r: Result<Template, PipelineFault>)
    ensures r == TrainAndGenerateGraph(llm, variant, prompt, trainParams, genParams, renderParams)
  {
    var parts := BuildParts(llm, variant, prompt, trainParams, genParams, renderParams);
    if parts.Err? {
      return Err(parts.error);
    }
    var edges := LinkPartsForward(parts.value);
    return Ok(Template(parts.value.Nodes(), edges));
  }

  /** The two forward segments and the render link make one chain. */
  lemma ForwardIds(s: string, t: seq<string>, g: seq<string>, r: string)
    ensures ChainEdges([s] + t) + ChainEdges([SegmentLast(s, t)] + g) + [Edge(SegmentLast(SegmentLast(s, t), g), r)]
         == ChainEdges([s] + t + g + [r])
  {
    var head := [s] + t;
    assert SegmentLast(s, t) == head[|head| - 1];
    ChainAppend(head, g);
    var ids := head + g;
    assert SegmentLast(SegmentLast(s, t), g) == ids[|ids| - 1];
    ChainSnoc(ids, r);
  }

  /** The ids of script, train, generate and render nodes. */
  lemma IdsOfFour(script: Node, trains: seq<Node>, gens: seq<Node>, render: Node)
    ensures Ids([script] + trains + gens + [render]) == [Id(script)] + Ids(trains) + Ids(gens) + [Id(render)]
  {
    IdsConcat([script] + trains + gens, [render]);
    IdsConcat([script] + trains, gens);
    IdsConcat([script], trains);
  }

  // ---------------------------------------------------------------------
  // What the builders promise
  // ---------------------------------------------------------------------

  /** A graph linked as the chain of its node ids: with distinct ids it is
      acyclic and every node is reachable from the first. */
  lemma ChainFromFirst(t: Template)
    requires t.nodes != [] && t.edges == ChainEdges(Ids(t.nodes))
    ensures Distinct(Ids(t.nodes)) ==>
      Acyclic(t.edges) && forall k :: 0 <= k < |t.nodes| ==> Reachable(t.edges, Id(t.nodes[0]), Id(t.nodes[k]))
  {
    if Distinct(Ids(t.nodes)) {
      ChainAcyclic(Ids(t.nodes));
      forall k | 0 <= k < |t.nodes| ensures Reachable(t.edges, Id(t.nodes[0]), Id(t.nodes[k])) {
        ChainReachable(Ids(t.nodes), 0, k);
      }
    }
  }

  /** A generate-only graph is one chain from the script node: one edge
      fewer than nodes, and with distinct ids acyclic with every node
      reachable from the script node, which is the only control-plane node
      when the templates are all worker-plane nodes. */
  lemma GenerateOnlyShape(llm: Option<Json>, variant: Option<VariantConfig>, prompt: Option<Json>,
                          genParams: Json, renderParams: Json)
    requires GenerateOnlyGraph(llm, variant, prompt, genParams, renderParams).Ok?
    ensures var t := GenerateOnlyGraph(llm, variant, prompt, genParams, renderParams).value;
      && |t.nodes| == |variant.value.generateNodes.value| + 2
      && |t.edges| == |t.nodes| - 1
      && Id(t.nodes[0]) == "script" && OnPlane(t.nodes[0], ControlPlane)
      && (Distinct(Ids(t.nodes)) ==> Acyclic(t.edges) && forall k :: 0 <= k < |t.nodes| ==> Reachable(t.edges, "script", Id(t.nodes[k])))
  {
    var t := GenerateOnlyGraph(llm, variant, prompt, genParams, renderParams).value;
    ChainFromFirst(t);
  }

  /** The one variant with a generate list builds script, F5-TTS, the
      speech video and its render node, in that order, all other nodes on
      the worker plane; the other variants raise a TypeError. */
  lemma GenerateOnlyRegistered(llm: Option<Json>, v: string, prompt: Option<Json>, genParams: Json, renderParams: Json)
    requires v in Registry()
    ensures var r := GenerateOnlyGraph(llm, Some(Registry()[v]), prompt, genParams, renderParams);
      && (r.Ok? <==> v == F5TtsInfiniteTalk)
      && (r.Ok? ==> Ids(r.value.nodes) == ["script", "f5_to_tts", "infinite_talk", "render_video_infinitetalk"]
                    && forall k :: 1 <= k < |r.value.nodes| ==> OnPlane(r.value.nodes[k], WorkerPlane))
  {
    if v == F5TtsInfiniteTalk {
      GenerateOnlyF5(llm, prompt, genParams, renderParams);
    } else {
      assert Registry()[v].generateNodes.None?;
    }
  }

  lemma GenerateOnlyF5(llm: Option<Json>, prompt: Option<Json>, genParams: Json, renderParams: Json)
    ensures var r := GenerateOnlyGraph(llm, Some(F5TtsInfiniteTalkConfig()), prompt, genParams, renderParams);
      && r.Ok?
      && Ids(r.value.nodes) == ["script", "f5_to_tts", "infinite_talk", "render_video_infinitetalk"]
      && forall k :: 1 <= k < |r.value.nodes| ==> OnPlane(r.value.nodes[k], WorkerPlane)
  {
    var c := F5TtsInfiniteTalkConfig();
    F5Templates();
    GenerateOnlyNodes(llm, Some(c), prompt, genParams, renderParams);
    GenerateOnlyPlanes(llm, Some(c), prompt, genParams, renderParams);
  }

  /** The F5-TTS variant's templates: two generate nodes and a render node,
      all on the worker plane. */
  lemma F5Templates()
    ensures var c := F5TtsInfiniteTalkConfig();
      && c.generateNodes.Some?
      && ["script"] + Ids(c.generateNodes.value) + [Id(c.renderNode)] == ["script", "f5_to_tts", "infinite_talk", "render_video_infinitetalk"]
      && OnPlane(c.renderNode, WorkerPlane)
      && forall k :: 0 <= k < |c.generateNodes.value| ==> OnPlane(c.generateNodes.value[k], WorkerPlane)
  {
    var c := F5TtsInfiniteTalkConfig();
    assert Ids(c.generateNodes.value) == ["f5_to_tts", "infinite_talk"];
  }

  /** With worker-plane templates, every node after the script node of a
      generate-only graph is on the worker plane. */
  lemma GenerateOnlyPlanes(llm: Option<Json>, variant: Option<VariantConfig>, prompt: Option<Json>,
                           genParams: Json, renderParams: Json)
    requires variant.Some? && variant.value.generateNodes.Some?
    requires OnPlane(variant.value.renderNode, WorkerPlane)
    requires forall k :: 0 <= k < |variant.value.generateNodes.value| ==> OnPlane(variant.value.generateNodes.value[k], WorkerPlane)
    ensures var r := GenerateOnlyGraph(llm, variant, prompt, genParams, renderParams);
      r.Ok? && forall k :: 1 <= k < |r.value.nodes| ==> OnPlane(r.value.nodes[k], WorkerPlane)
  {
    var gen := variant.value.generateNodes.value;
    GenerateOnlyNodes(llm, variant, prompt, genParams, renderParams);
    var nodes := GenerateOnlyGraph(llm, variant, prompt, genParams, renderParams).value.nodes;
    forall k | 1 <= k < |nodes| ensures OnPlane(nodes[k], WorkerPlane) {
      if k <= |gen| {
        assert nodes[k] == AddCommonParams(gen[k - 1], ElementAt(genParams, k - 1));
      }
    }
  }

  /** A generate-only graph holds the script node, each generate template
      cloned with its overrides, and the render template cloned. */
  lemma GenerateOnlyNodes(llm: Option<Json>, variant: Option<VariantConfig>, prompt: Option<Json>,
                          genParams: Json, renderParams: Json)
    requires variant.Some? && variant.value.generateNodes.Some?
    ensures var r, gen := GenerateOnlyGraph(llm, variant, prompt, genParams, renderParams), variant.value.generateNodes.value;
      && r.Ok?
      && Ids(r.value.nodes) == ["script"] + Ids(gen) + [Id(variant.value.renderNode)]
      && |r.value.nodes| == |gen| + 2
      && r.value.nodes[0] == BuildScriptNode(llm, prompt)
      && (forall k :: 0 <= k < |gen| ==> r.value.nodes[k + 1] == AddCommonParams(gen[k], ElementAt(genParams, k)))
      && r.value.nodes[|gen| + 1] == AddCommonParams(variant.value.renderNode, Some(renderParams))
  {
    var c := variant.value;
    var script := BuildScriptNode(llm, prompt);
    var gens := CloneNodes(c.generateNodes.value, genParams);
    var render := AddCommonParams(c.renderNode, Some(renderParams));
    var nodes := [script] + gens + [render];
    GenerateOnlyGraphIs(llm, variant, prompt, genParams, renderParams, nodes, ChainEdges(Ids(nodes)));
    IdsOfThree(script, gens, render);
    assert Ids(gens) == Ids(c.generateNodes.value);
  }

  lemma IdsOfThree(a: Node, mid: seq<Node>, b: Node)
    ensures Ids([a] + mid + [b]) == [Id(a)] + Ids(mid) + [Id(b)]
  {
    IdsConcat([a] + mid, [b]);
    IdsConcat([a], mid);
  }

  /** Every registered variant makes the train-and-generate builder raise a
      TypeError, as written or corrected. */
  lemma TrainAndGenerateRegisteredFails(llm: Option<Json>, v: string, prompt: Option<Json>,
                                        trainParams: Json, genParams: Json, renderParams: Json)
    requires v in Registry()
    ensures TrainAndGenerateAsWritten(llm, Some(Registry()[v]), prompt, trainParams, genParams, renderParams) == Err(TypeError)
    ensures TrainAndGenerateGraph(llm, Some(Registry()[v]), prompt, trainParams, genParams, renderParams) == Err(TypeError)
  {
    RegistryLacksOneList(v);
    assert TrainAndGenerateParts(llm, Some(Registry()[v]), prompt, trainParams, genParams, renderParams) == Err(TypeError);
  }

  /** As written, with two train nodes or more and distinct ids, the first
      train node is a sink: nothing after it waits for it, and the render
      node is not reachable from it. */
  lemma TrainEdgesReversed(script: string, train: seq<string>, gen: seq<string>, render: string)
    requires |train| >= 2 && Distinct([script] + train + gen + [render])
    ensures Sink(TrainEdgesAsWritten(script, train, gen, render), train[0])
    ensures !Reachable(TrainEdgesAsWritten(script, train, gen, render), train[0], render)
  {
    var ids := [script] + train + gen + [render];
    var n, m := |train|, |gen|;
    assert ids[1] == train[0] && ids[n + m + 1] == render;
    var edges := TrainEdgesAsWritten(script, train, gen, render);
    var afterTrain := SegmentLast(script, train);
    var a, b := ReversedSegment(script, train), ReversedSegment(afterTrain, gen);
    assert edges == a + b + [Edge(SegmentLast(afterTrain, gen), render)];
    assert afterTrain == ids[n];
    forall k | 0 <= k < |edges| ensures edges[k].from != train[0] {
      if k < n {
        assert edges[k] == a[k];
        if k == 0 {
          assert a[k].from == ids[0];
        } else {
          assert ids[k + 1] == train[k];
          assert a[k] == Edge(train[k], train[k - 1]);
        }
      } else if k < n + m {
        var j := k - n;
        assert edges[k] == b[j];
        if j == 0 {
          assert b[j].from == ids[n];
        } else {
          assert ids[n + 1 + j] == gen[j];
          assert b[j] == Edge(gen[j], gen[j - 1]);
        }
      } else {
        assert edges[k].from == SegmentLast(afterTrain, gen);
        assert SegmentLast(afterTrain, gen) == ids[n + m];
      }
    }
    SinkReachesNothing(edges, train[0], render);
  }

  /** Corrected, the train-and-generate graph is one chain: acyclic with
      distinct ids, every node reachable from the script node. */
  lemma TrainAndGenerateChain(llm: Option<Json>, variant: Option<VariantConfig>, prompt: Option<Json>,
                              trainParams: Json, genParams: Json, renderParams: Json)
    requires TrainAndGenerateGraph(llm, variant, prompt, trainParams, genParams, renderParams).Ok?
    ensures var t := TrainAndGenerateGraph(llm, variant, prompt, trainParams, genParams, renderParams).value;
      && |t.edges| == |t.nodes| - 1
      && Id(t.nodes[0]) == "script"
      && (Distinct(Ids(t.nodes)) ==> Acyclic(t.edges) && forall k :: 0 <= k < |t.nodes| ==> Reachable(t.edges, "script", Id(t.nodes[k])))
  {
    var t := TrainAndGenerateGraph(llm, variant, prompt, trainParams, genParams, renderParams).value;
    ChainFromFirst(t);
  }

  // ---------------------------------------------------------------------
  // buildPipelineGraph
  // ---------------------------------------------------------------------

  function EdgeJson(e: Edge): Json
  {
    JObj(map["from" := JStr(e.from), "to" := JStr(e.to), "kind" := JStr("normal")])
  }

  /** `{ nodes, edges }` as a JSON object. */
  function TemplateJson(t: Template): (r: Json)
    ensures r.JObj? && r.fields.Keys == {"nodes", "edges"}
  {
    JObj(map["nodes" := JArr(NodeJson(t.nodes)),
             "edges" := JArr(seq(|t.edges|, k requires 0 <= k < |t.edges| => EdgeJson(t.edges[k])))])
  }

  /** `String(x)` of an array element as `Array.prototype.join` renders it:
      null is empty, a number is its own text (JSON.stringify and String
      agree on finite numbers), an array is its elements joined by commas,
      an object is "[object Object]". */
  function ItemText(codec: Codec, j: Json): string
    decreases j
  {
    match j
    case JNull => ""
    case JBool(b) => if b then "true" else "false"
    case JNum(_) => codec.stringify(j)
    case JStr(s) => s
    case JArr(xs) => Strings.Join(seq(|xs|, i requires 0 <= i < |xs| => ItemText(codec, xs[i])), ',')
    case JObj(_) => "[object Object]"
  }

  /** `JSON.parse(input.graph)`: the argument is turned into text first. A
      string is its own text; an array is its elements joined by commas; a
      number, boolean or null is read back as itself; an object's text
      "[object Object]" and an absent value's "undefined" are not JSON. */
  function ParseGraph(codec: Codec, graph: Option<Json>): (r: Result<Json, PipelineFault>)
    ensures graph.None? ==> r == Err(SyntaxError)
    ensures graph.Some? && graph.value.JObj? ==> r == Err(SyntaxError)
    ensures graph.Some? && (graph.value.JNull? || graph.value.JBool? || graph.value.JNum?) ==> r == Ok(graph.value)
    ensures graph.Some? && (graph.value.JStr? || graph.value.JArr?) ==>
      var text := if graph.value.JStr? then graph.value.s else ItemText(codec, graph.value);
      && (r.Ok? <==> codec.parse(text).Some?)
      && (r.Ok? ==> codec.parse(text) == Some(r.value))
  {
    match graph
    case None => Err(SyntaxError)
    case Some(JObj(_)) => Err(SyntaxError)
    case Some(JStr(s)) => if codec.parse(s).Some? then Ok(codec.parse(s).value) else Err(SyntaxError)
    case Some(JArr(_)) =>
      var text := ItemText(codec, graph.value);
      if codec.parse(text).Some? then Ok(codec.parse(text).value) else Err(SyntaxError)
    case Some(_) => Ok(graph.value)
  }

  /** An array holding one string parses as that string does: `["{}"]`
      yields the empty object. */
  lemma ParseGraphSingleton(codec: Codec, s: string)
    ensures ParseGraph(codec, Some(JArr([JStr(s)]))) == ParseGraph(codec, Some(JStr(s)))
  {
    assert ItemText(codec, JArr([JStr(s)])) == s;
  }

  /** The property key `VariantsRegistry[v]` reads, `String(v)`: an absent
      value is "undefined", null is "null", anything else its ItemText. */
  function KeyText(codec: Codec, v: Option<Json>): string
  {
    if v.None? then "undefined" else if v.value.JNull? then "null" else ItemText(codec, v.value)
  }

  /** `VariantsRegistry[normalized.variant]` where the variant is only known
      to be truthy (GENERATE mode): the registry is indexed by the key text,
      so an array holding one registered name finds that variant. A key that
      names an `Object.prototype` member finds an object without
      `generateNodes`, which the builder rejects exactly as it rejects a miss. */
  function LookupKey(codec: Codec, v: Option<Json>): (r: Option<VariantConfig>)
    ensures r.Some? <==> KeyText(codec, v) in Registry()
    ensures r.Some? ==> r.value == Registry()[KeyText(codec, v)]
    ensures v.Some? && v.value.JStr? ==> r == Lookup(v)
  {
    var key := KeyText(codec, v);
    if key in Registry() then Some(Registry()[key]) else None
  }

  /** A one-element array holding a name finds what the name itself finds. */
  lemma LookupKeySingleton(codec: Codec, s: string)
    ensures LookupKey(codec, Some(JArr([JStr(s)]))) == Lookup(Some(JStr(s)))
  {
    assert ItemText(codec, JArr([JStr(s)])) == s;
  }

  /** The request keys kept as the pipeline's metadata. */
  function PipelineMeta(normalized: map<string, Json>): (r: map<string, Json>)
    ensures r.Keys == normalized.Keys - {"scriptInput", "trainInput", "genInput", "renderInput"}
    ensures forall k :: k in r ==> r[k] == normalized[k]
  {
    normalized - {"scriptInput", "trainInput", "genInput", "renderInput"}
  }

  /** The template the request's mode selects (none for a configured mode
      the switch does not list). */
  function SelectTemplate(modes: map<string, string>, llm: Option<Json>, codec: Codec,
                          input: map<string, Json>, normalized: map<string, Json>): (r: Result<Option<Json>, PipelineFault>)
    requires "mode" in input
    ensures ModeIs(modes, "PROCESS", input["mode"]) ==>
      && (r.Ok? <==> ParseGraph(codec, Get(JObj(input), "graph")).Ok?)
      && (r.Ok? ==> r.value == Some(ParseGraph(codec, Get(JObj(input), "graph")).value))
    ensures !ModeIs(modes, "PROCESS", input["mode"]) && r.Ok? && r.value.Some? ==>
      r.value.value.JObj? && r.value.value.fields.Keys == {"nodes", "edges"}
    ensures !ModeIs(modes, "PROCESS", input["mode"]) && r.Err? ==> r.error == TypeError
    ensures (!ModeIs(modes, "PROCESS", input["mode"]) && !ModeIs(modes, "TRAIN_GENERATE", input["mode"])
      && !ModeIs(modes, "GENERATE", input["mode"])) ==> r == Ok(None)
  {
    var mode := input["mode"];
    var norm := JObj(normalized);
    var prompt := GetOpt(Get(norm, "scriptInput"), "prompt");
    var genParams := OrElse(Get(norm, "genInput"), JArr([]));
    var renderParams := OrElse(Get(norm, "renderInput"), JObj(map[]));
    if ModeIs(modes, "PROCESS", mode) then
      match ParseGraph(codec, Get(JObj(input), "graph")) {
        case Err(e) => Err(e)
        case Ok(g) => Ok(Some(g))
      }
    else if ModeIs(modes, "TRAIN_GENERATE", mode) then
      match TrainAndGenerateGraph(llm, Lookup(Get(norm, "variant")), prompt,
                                  OrElse(Get(norm, "trainInput"), JArr([])), genParams, renderParams) {
        case Err(e) => Err(e)
        case Ok(t) => Ok(Some(TemplateJson(t)))
      }
    else if ModeIs(modes, "GENERATE", mode) then
      match GenerateOnlyGraph(llm, LookupKey(codec, Get(norm, "variant")), prompt, genParams, renderParams) {
        case Err(e) => Err(e)
        case Ok(t) => Ok(Some(TemplateJson(t)))
      }
    else Ok(None)
  }

  /** `buildPipelineGraph`: the template's own keys plus `pipelineMeta`. */
  function PipelineGraph(modes: map<string, string>, llm: Option<Json>, codec: Codec, input: Json)
    : (r: Result<map<string, Json>, PipelineFault>)
    ensures NormalizeInput(modes, input).Err? ==> r == Err(NormalizeInput(modes, input).error)
    ensures r.Ok? ==> "pipelineMeta" in r.value
    ensures (NormalizeInput(modes, input).Ok? &&
      !ModeIs(modes, "PROCESS", input.fields["mode"]) && !ModeIs(modes, "TRAIN_GENERATE", input.fields["mode"])
      && !ModeIs(modes, "GENERATE", input.fields["mode"])) ==>
      r == Ok(map["pipelineMeta" := JObj(PipelineMeta(NormalizeInput(modes, input).value))])
  {
    match NormalizeInput(modes, input)
    case Err(e) => Err(e)
    case Ok(normalized) =>
      match SelectTemplate(modes, llm, codec, input.fields, normalized)
      case Err(e) => Err(e)
      case Ok(t) =>
        var meta := map["pipelineMeta" := JObj(PipelineMeta(normalized))];
        assert t.None? ==> Overlay(Spread(t), meta) == meta;
        Ok(Overlay(Spread(t), meta))
  }

  method BuildPipelineGraph(modes: map<string, string>, llm: Option<Json>, codec: Codec, input: Json)
    returns (r: Result<map<string, Json>, PipelineFault>)
    ensures r == PipelineGraph(modes, llm, codec, input)
  {
    var n := NormalizeInput(modes, input);
    if n.Err? {
      return Err(n.error);
    }
    var normalized := n.value;
    var mode := input.fields["mode"];
    var norm := JObj(normalized);
    var prompt := GetOpt(Get(norm, "scriptInput"), "prompt");
    var genParams := OrElse(Get(norm, "genInput"), JArr([]));
    var renderParams := OrElse(Get(norm, "renderInput"), JObj(map[]));
    var template: Option<Json> := None;
    if ModeIs(modes, "PROCESS", mode) {
      var g := ParseGraph(codec, Get(input, "graph"));
      if g.Err? {
        return Err(g.error);
      }
      template := Some(g.value);
    } else if ModeIs(modes, "TRAIN_GENERATE", mode) {
      var t := BuildTrainAndGenerateGraph(llm, Lookup(Get(norm, "variant")), prompt,
                                          OrElse(Get(norm, "trainInput"), JArr([])), genParams, renderParams);
      if t.Err? {
        return Err(t.error);
      }
      template := Some(TemplateJson(t.value));
    } else if ModeIs(modes, "GENERATE", mode) {
      var t := BuildGenerateOnlyGraph(llm, LookupKey(codec, Get(norm, "variant")), prompt, genParams, renderParams);
      if t.Err? {
        return Err(t.error);
      }
      template := Some(TemplateJson(t.value));
    }
    return Ok(Overlay(Spread(template), map["pipelineMeta" := JObj(PipelineMeta(normalized))]));
  }

  /** The GENERATE document as the builder defines it: the generate-only
      graph of the variant the request's key text names, with the request
      minus its input sections as `pipelineMeta`, or the builder's error. */
  function GenerateDocument(llm: Option<Json>, codec: Codec, request: map<string, Json>): Result<map<string, Json>, PipelineFault>
  {
    var req := JObj(request);
    match GenerateOnlyGraph(llm, LookupKey(codec, Get(req, "variant")), GetOpt(Get(req, "scriptInput"), "prompt"),
                            OrElse(Get(req, "genInput"), JArr([])), OrElse(Get(req, "renderInput"), JObj(map[])))
    case Err(e) => Err(e)
    case Ok(t) => Ok(TemplateJson(t).fields + map["pipelineMeta" := JObj(PipelineMeta(request))])
  }

  /** In GENERATE mode `buildPipelineGraph` gives exactly GenerateDocument:
      the builder's nodes and edges for the variant, or its TypeError. */
  lemma PipelineGraphGenerate(modes: map<string, string>, llm: Option<Json>, codec: Codec, input: Json)
    requires NormalizeInput(modes, input).Ok?
    requires ModeIs(modes, "GENERATE", input.fields["mode"])
    requires !ModeIs(modes, "PROCESS", input.fields["mode"]) && !ModeIs(modes, "TRAIN_GENERATE", input.fields["mode"])
    ensures PipelineGraph(modes, llm, codec, input) == GenerateDocument(llm, codec, input.fields)
  {
    var normalized := NormalizeInput(modes, input).value;
    assert normalized == input.fields;
    SelectGenerate(modes, llm, codec, input.fields);
    var t := SelectTemplate(modes, llm, codec, input.fields, normalized);
    if t.Ok? {
      var meta := map["pipelineMeta" := JObj(PipelineMeta(normalized))];
      OverlayUnion(Spread(t.value), meta);
    }
  }

  /** SelectTemplate in GENERATE mode is the generate-only builder. */
  lemma SelectGenerate(modes: map<string, string>, llm: Option<Json>, codec: Codec, request: map<string, Json>)
    requires "mode" in request && ModeIs(modes, "GENERATE", request["mode"])
    requires !ModeIs(modes, "PROCESS", request["mode"]) && !ModeIs(modes, "TRAIN_GENERATE", request["mode"])
    ensures var t := SelectTemplate(modes, llm, codec, request, request);
      var d := GenerateDocument(llm, codec, request);
      && (t.Ok? <==> d.Ok?)
      && (t.Err? ==> t.error == d.error)
      && (t.Ok? ==> t.value.Some? && t.value.value.JObj?
                    && d.value == t.value.value.fields + map["pipelineMeta" := JObj(PipelineMeta(request))])
  {
  }

  /** A GENERATE document fails only with the builder's TypeError, and a
      built one has exactly `nodes`, `edges` and `pipelineMeta`. */
  lemma GenerateDocumentShape(llm: Option<Json>, codec: Codec, request: map<string, Json>)
    ensures GenerateDocument(llm, codec, request).Err? ==> GenerateDocument(llm, codec, request).error == TypeError
    ensures GenerateDocument(llm, codec, request).Ok? ==>
      GenerateDocument(llm, codec, request).value.Keys == {"nodes", "edges", "pipelineMeta"}
  {
  }

  /** The request of a GENERATE call may name its variant inside an array:
      `["f5tts_infinitetalk"]` builds the F5-TTS graph. */
  lemma PipelineGraphArrayVariant(modes: map<string, string>, llm: Option<Json>, codec: Codec, input: Json)
    requires NormalizeInput(modes, input).Ok?
    requires ModeIs(modes, "GENERATE", input.fields["mode"])
    requires !ModeIs(modes, "PROCESS", input.fields["mode"]) && !ModeIs(modes, "TRAIN_GENERATE", input.fields["mode"])
    requires Get(input, "variant") == Some(JArr([JStr(F5TtsInfiniteTalk)]))
    ensures PipelineGraph(modes, llm, codec, input).Ok?
    ensures PipelineGraph(modes, llm, codec, input).value.Keys == {"nodes", "edges", "pipelineMeta"}
  {
    LookupKeySingleton(codec, F5TtsInfiniteTalk);
    GenerateOnlyF5(llm, GetOpt(Get(input, "scriptInput"), "prompt"),
                   OrElse(Get(input, "genInput"), JArr([])), OrElse(Get(input, "renderInput"), JObj(map[])));
    PipelineGraphGenerate(modes, llm, codec, input);
    GenerateDocumentShape(llm, codec, input.fields);
  }

  /** A built pipeline document carries the request minus its four input
      sections as `pipelineMeta`; in TRAIN_GENERATE mode no document is
      built at all. */
  lemma PipelineGraphMeta(modes: map<string, string>, llm: Option<Json>, codec: Codec, input: Json)
    ensures var r := PipelineGraph(modes, llm, codec, input);
      r.Ok? ==> r.value["pipelineMeta"] == JObj(PipelineMeta(NormalizeInput(modes, input).value))
    ensures var r := PipelineGraph(modes, llm, codec, input);
      r.Ok? && ModeIs(modes, "TRAIN_GENERATE", input.fields["mode"]) ==> ModeIs(modes, "PROCESS", input.fields["mode"])
  {
    var r := PipelineGraph(modes, llm, codec, input);
    if r.Ok? {
      var normalized := NormalizeInput(modes, input).value;
      var mode := input.fields["mode"];
      if ModeIs(modes, "TRAIN_GENERATE", mode) && !ModeIs(modes, "PROCESS", mode) {
        var v := Get(JObj(input.fields), "variant");
        assert Get(JObj(normalized), "variant") == v;
        TrainAndGenerateRegisteredFails(llm, v.value.s,
          GetOpt(Get(JObj(normalized), "scriptInput"), "prompt"),
          OrElse(Get(JObj(normalized), "trainInput"), JArr([])),
          OrElse(Get(JObj(normalized), "genInput"), JArr([])),
          OrElse(Get(JObj(normalized), "renderInput"), JObj(map[])));
      }
    }
  }
}
