/** The worker-plane graph executor (worker/src/worker/core/executor.py): it
    polls the data stream, validates the graph, runs the ready "python"-plane
    nodes one after another, wave by wave, and acknowledges, publishes or hands
    the graph back to the control plane according to how the pass ended. */
module WorkerExecutor {
  import opened Wrappers
  import opened Json
  import opened Workflow
  import GraphSchema
  import opened Transport
  import opened Waves

  /** What awaiting a task does: it returns a value (Python's None is JSON
      null) or raises an exception whose `str` is `message`. */
  datatype Outcome = Returned(value: Json) | Raised(message: string)

  /** A task, called with its parameters and its input. The progress and
      data callbacks it also receives are not modelled. */
  type Handler = (map<string, Json>, map<string, Json>) -> Outcome

  /** Why `_process_job` raised ExecutorJobError. */
  datatype ErrorKind = MissingJobIdOrPayload | InvalidJson | SchemaRejected | WorkflowIdMismatch
  datatype JobError = JobError(kind: ErrorKind, entryId: string, jobId: Option<string>)

  /** ExecutorResult. */
  datatype PassResult = PassResult(jobId: string, entryId: string, graph: Json, status: PassStatus)

  /** How a job ends: a result, an ExecutorJobError, or an exception nothing
      catches (a TypeError from the input merge, or the store's own error
      when a connected store rejects a write), which ends the loop. */
  datatype JobOutcome = Finished(result: PassResult) | Rejected(error: JobError) | Crashed

  /** Why execute_graph stopped early: set_job_payload raised the store's
      error, or the merge raised TypeError. */
  datatype Fault = StoreFailed | MergeTypeError

  // ---------------------------------------------------------------------
  // Python's dictionary unpacking
  // ---------------------------------------------------------------------

  /** `{**(x or {})}`: a falsy or absent value unpacks to nothing, a dict to
      its items; any other truthy value raises TypeError (None here). Where it
      succeeds it agrees with the JavaScript spread. */
  function PySpread(o: Option<Json>): (r: Option<map<string, Json>>)
    ensures r.None? <==> o.Some? && PyTruthy(o.value) && !o.value.JObj?
    ensures r.Some? ==> r.value == Spread(o)
  {
    if o.None? || !PyTruthy(o.value) then Some(map[])
    else if o.value.JObj? then Some(o.value.fields)
    else None
  }

  /** The name of the value's Python type. */
  function PyTypeName(j: Json): string
  {
    match j
    case JNull => "NoneType"
    case JBool(_) => "bool"
    case JNum(n) => if IsInteger(j) then "int" else "float"
    case JStr(_) => "str"
    case JArr(_) => "list"
    case JObj(_) => "dict"
  }

  /** The TypeError message for unpacking a non-mapping. */
  function NotAMapping(j: Json): string
  {
    "'" + PyTypeName(j) + "' object is not a mapping"
  }

  // ---------------------------------------------------------------------
  // _get_ready_nodes
  // ---------------------------------------------------------------------

  /** `nodes_by_id[dep].get("output") or {}`, unpacked: None when no node has
      that id (KeyError) or its output is a truthy non-mapping (TypeError). */
  function DepOutput(nodes: seq<Node>, dep: string): (r: Option<map<string, Json>>)
    ensures r.Some? ==> r.value == OutputOf(nodes, dep)
    ensures LastIndexOf(nodes, dep).None? ==> r.None?
  {
    match LastIndexOf(nodes, dep)
    case None => None
    case Some(k) => PySpread(if "output" in nodes[k] then Some(nodes[k]["output"]) else None)
  }

  /** The merge loop over the predecessors: each step overlays one output;
      it raises as soon as one cannot be unpacked, and otherwise computes what
      the control plane's fold computes. */
  function PyFold(nodes: seq<Node>, acc: map<string, Json>, deps: seq<string>): Option<map<string, Json>>
    decreases |deps|
  {
    if deps == [] then Some(acc)
    else match DepOutput(nodes, deps[0])
      case None => None
      case Some(o) => PyFold(nodes, Overlay(acc, o), deps[1..])
  }

  /** The fold raises exactly when some predecessor's output cannot be
      unpacked, and otherwise computes what the control plane's fold
      computes. */
  lemma {:induction false} PyFoldMeaning(nodes: seq<Node>, acc: map<string, Json>, deps: seq<string>)
    ensures PyFold(nodes, acc, deps).Some? <==> forall d :: d in deps ==> DepOutput(nodes, d).Some?
    ensures PyFold(nodes, acc, deps).Some? ==> PyFold(nodes, acc, deps).value == FoldOutputs(nodes, acc, deps)
    decreases |deps|
  {
    if deps != [] {
      var o := DepOutput(nodes, deps[0]);
      if o.Some? {
        PyFoldMeaning(nodes, Overlay(acc, o.value), deps[1..]);
        assert forall d :: d in deps <==> d == deps[0] || d in deps[1..];
      }
    }
  }

  /** Node i after the merge step, None when the merge raises. Only the
      input changes, and a node without predecessors is untouched. */
  function PyMerged(nodes: seq<Node>, edges: seq<Edge>, i: nat): (r: Option<Node>)
    requires i < |nodes|
    ensures Preds(edges, Id(nodes[i])) == [] ==> r == Some(nodes[i])
    ensures r.Some? ==> r.value - {"input"} == nodes[i] - {"input"}
    ensures r.Some? && Preds(edges, Id(nodes[i])) != [] ==> "input" in r.value && r.value["input"].JObj?
  {
    var deps := Preds(edges, Id(nodes[i]));
    if deps == [] then Some(nodes[i])
    else match PySpread(InputOf(nodes[i]))
      case None => None
      case Some(a) =>
        match PyFold(nodes, a, deps)
        case None => None
        case Some(m) => Some(nodes[i]["input" := JObj(m)])
  }

  /** The merge of node i raises exactly when the node has predecessors and
      its own input, or some predecessor's output, cannot be unpacked (or a
      predecessor is missing); otherwise the node is the one the control
      plane's merge produces. */
  lemma PyMergedMeaning(nodes: seq<Node>, edges: seq<Edge>, i: nat)
    requires i < |nodes|
    ensures PyMerged(nodes, edges, i).None? <==>
      (Preds(edges, Id(nodes[i])) != [] &&
       (PySpread(InputOf(nodes[i])).None? || exists d :: d in Preds(edges, Id(nodes[i])) && DepOutput(nodes, d).None?))
    ensures PyMerged(nodes, edges, i).Some? ==> PyMerged(nodes, edges, i).value == MergedNode(nodes, edges, i)
  {
    var deps := Preds(edges, Id(nodes[i]));
    if deps != [] && PySpread(InputOf(nodes[i])).Some? {
      PyFoldMeaning(nodes, PySpread(InputOf(nodes[i])).value, deps);
    }
  }

  /** The readiness rule of the worker: edges lacking a source or a target
      are skipped, and the plane is "python". */
  function WorkerReady(nodes: seq<Node>, edges: seq<Edge>): (r: seq<nat>)
    ensures forall k: nat :: k in r <==> k < |nodes| && Ready(nodes, UsableEdges(edges), WorkerPlane, k)
  {
    ReadyIndices(nodes, UsableEdges(edges), WorkerPlane)
  }

  /** Readiness guarantees that every predecessor of a ready node exists
      (and completed), so the merge never raises KeyError: it raises only
      for an input or an output that is a truthy non-mapping. */
  lemma ReadyDepsExist(nodes: seq<Node>, edges: seq<Edge>, i: nat)
    requires i < |nodes| && Ready(nodes, edges, WorkerPlane, i)
    ensures forall d :: d in Preds(edges, Id(nodes[i])) ==>
      && LastIndexOf(nodes, d).Some?
      && HasStatus(nodes[LastIndexOf(nodes, d).value], "completed")
      && (DepOutput(nodes, d).None? <==>
           var n := nodes[LastIndexOf(nodes, d).value];
           "output" in n && PyTruthy(n["output"]) && !n["output"].JObj?)
  {
    forall d | d in Preds(edges, Id(nodes[i]))
      ensures LastIndexOf(nodes, d).Some? && HasStatus(nodes[LastIndexOf(nodes, d).value], "completed")
    {
      assert DepCompleted(nodes, d);
    }
  }

  /** Changing inputs changes no predecessor output as the worker reads it. */
  lemma DepOutputsIgnoreInputs(a: seq<Node>, b: seq<Node>)
    requires SameButInputs(a, b)
    ensures forall d :: DepOutput(a, d) == DepOutput(b, d)
  {
    forall k | 0 <= k < |a| ensures Id(a[k]) == Id(b[k])
      && ("output" in a[k] <==> "output" in b[k]) && ("output" in a[k] ==> a[k]["output"] == b[k]["output"])
    {
      SameOutside(a[k], b[k], "id");
      SameOutside(a[k], b[k], "output");
    }
    forall d ensures DepOutput(a, d) == DepOutput(b, d) {
      LastIndexSame(a, b, d);
    }
  }

  /** Merging at a node not merged yet gives the same result (and raises
      alike) whether other nodes' inputs were merged before or not. */
  lemma PyMergedSame(a: seq<Node>, b: seq<Node>, edges: seq<Edge>, i: nat)
    requires SameButInputs(a, b) && i < |a| && a[i] == b[i]
    ensures PyMerged(a, edges, i) == PyMerged(b, edges, i)
  {
    DepOutputsIgnoreInputs(a, b);
    assert Id(a[i]) == Id(b[i]);
    PyFoldSame(a, b, PySpread(InputOf(a[i])).GetOr(map[]), Preds(edges, Id(a[i])));
  }

  lemma {:induction false} PyFoldSame(a: seq<Node>, b: seq<Node>, acc: map<string, Json>, deps: seq<string>)
    requires forall d :: DepOutput(a, d) == DepOutput(b, d)
    ensures PyFold(a, acc, deps) == PyFold(b, acc, deps)
    decreases |deps|
  {
    if deps != [] && DepOutput(a, deps[0]).Some? {
      PyFoldSame(a, b, Overlay(acc, DepOutput(a, deps[0]).value), deps[1..]);
    }
  }

  /** Node i's input replaced by `acc` (or left alone), as the merge loop
      reads it back. */
  lemma InputsOnly(n0: seq<Node>, i: nat, acc: map<string, Json>, untouched: bool)
    requires i < |n0|
    ensures var cur := if untouched then n0 else n0[i := n0[i]["input" := JObj(acc)]];
      && |cur| == |n0| && Id(cur[i]) == Id(n0[i])
      && PySpread(InputOf(cur[i])) == (if untouched then PySpread(InputOf(n0[i])) else Some(acc))
      && (forall d :: DepOutput(cur, d) == DepOutput(n0, d))
  {
    if !untouched {
      var cur := n0[i := n0[i]["input" := JObj(acc)]];
      InputUpdate(n0[i], JObj(acc));
      SameButOne(n0, i, n0[i]["input" := JObj(acc)]);
      SameOutside(cur[i], n0[i], "id");
      DepOutputsIgnoreInputs(cur, n0);
    }
  }

  /** The inner loop of _get_ready_nodes for node i: for each predecessor,
      `node["input"] = {**(input or {}), **(output or {})}`; false when a
      step raises TypeError or KeyError. */
  method MergeInto(g: Graph, edges: seq<Edge>, i: nat) returns (ok: bool)
    requires i < |g.nodes|
    modifies g
    ensures |g.nodes| == |old(g.nodes)|
    ensures ok == PyMerged(old(g.nodes), edges, i).Some?
    ensures ok ==> g.nodes == old(g.nodes)[i := PyMerged(old(g.nodes), edges, i).value]
  {
    ghost var n0 := g.nodes;
    var deps := Preds(edges, Id(g.nodes[i]));
    if deps == [] {
      assert n0[i := n0[i]] == n0;
      return true;
    }
    // the first predecessor: the node's own input is unpacked here
    ghost var start := PySpread(InputOf(n0[i])).GetOr(map[]);
    ok := MergeStep(g, i, deps[0]);
    if !ok {
      return;
    }
    ghost var acc := Overlay(start, DepOutput(n0, deps[0]).value);
    var d := 1;
    while d < |deps|
      invariant 1 <= d <= |deps|
      invariant PySpread(InputOf(n0[i])) == Some(start)
      invariant PyFold(n0, acc, deps[d..]) == PyFold(n0, start, deps)
      invariant g.nodes == n0[i := n0[i]["input" := JObj(acc)]]
    {
      InputsOnly(n0, i, acc, false);
      ghost var cur := g.nodes;
      ok := MergeStep(g, i, deps[d]);
      if !ok {
        assert PyFold(n0, acc, deps[d..]).None?;
        return;
      }
      assert deps[d..][1..] == deps[d + 1..];
      MergeAdvance(n0, cur, g.nodes, i, acc, deps[d]);
      acc := Overlay(acc, DepOutput(n0, deps[d]).value);
      d := d + 1;
    }
    assert deps[d..] == [];
    return true;
  }

  /** A successful step of that loop, seen from the node list it started
      from: node i's input becomes the accumulated input overlaid with one
      more output. */
  lemma MergeAdvance(n0: seq<Node>, cur: seq<Node>, next: seq<Node>, i: nat, acc: map<string, Json>, dep: string)
    requires i < |n0| && cur == n0[i := n0[i]["input" := JObj(acc)]]
    requires PySpread(InputOf(cur[i])).Some? && DepOutput(cur, dep).Some?
    requires next == cur[i := cur[i]["input" := JObj(Overlay(PySpread(InputOf(cur[i])).value, DepOutput(cur, dep).value))]]
    ensures DepOutput(n0, dep).Some?
    ensures next == n0[i := n0[i]["input" := JObj(Overlay(acc, DepOutput(n0, dep).value))]]
  {
    InputsOnly(n0, i, acc, false);
    var merged := Overlay(acc, DepOutput(n0, dep).value);
    assert cur[i]["input" := JObj(merged)] == n0[i]["input" := JObj(merged)];
  }

  /** One step of that loop:
      `node["input"] = {**(node.get("input") or {}), **(nodes_by_id[dep].get("output") or {})}`;
      false, with nothing changed, when it raises. */
  method MergeStep(g: Graph, i: nat, dep: string) returns (ok: bool)
    requires i < |g.nodes|
    modifies g
    ensures ok <==> PySpread(InputOf(old(g.nodes)[i])).Some? && DepOutput(old(g.nodes), dep).Some?
    ensures !ok ==> g.nodes == old(g.nodes)
    ensures ok ==> g.nodes == old(g.nodes)[i := old(g.nodes)[i]["input" :=
      JObj(Overlay(PySpread(InputOf(old(g.nodes)[i])).value, DepOutput(old(g.nodes), dep).value))]]
  {
    var a := PySpread(InputOf(g.nodes[i]));
    if a.None? {
      return false;
    }
    var o := DepOutput(g.nodes, dep);
    if o.None? {
      return false;
    }
    g.nodes := g.nodes[i := g.nodes[i]["input" := JObj(Overlay(a.value, o.value))]];
    return true;
  }

  // ---------------------------------------------------------------------
  // _execute_node
  // ---------------------------------------------------------------------

  /** `node.get("task", "")` (tasks are strings in every schema-valid graph). */
  function TaskName(n: Node): string
  {
    if "task" in n && n["task"].JStr? then n["task"].s else ""
  }

  /** `node.get("params")` and `node.get("input")`. */
  function ParamsOf(n: Node): Option<Json>
  {
    if "params" in n then Some(n["params"]) else None
  }

  /** `node.get("progressWeight") or 0`. */
  function ProgressWeight(n: Node): Json
  {
    if "progressWeight" in n && PyTruthy(n["progressWeight"]) then n["progressWeight"] else JNum(0.0)
  }

  /** Evaluates the call inside the try block, in its order: a missing
      handler raises RuntimeError; unpacking params, then input, may raise
      TypeError; otherwise the handler runs with
      `{**params, "progress_weight": ...}` and `{**input}`. */
  function RunNode(registry: map<string, Handler>, n: Node): (o: Outcome)
    ensures TaskName(n) !in registry ==> o == Raised("No handler registered for task '" + TaskName(n) + "'")
    ensures TaskName(n) in registry && PySpread(ParamsOf(n)).None? ==> o == Raised(NotAMapping(ParamsOf(n).value))
    ensures TaskName(n) in registry && PySpread(ParamsOf(n)).Some? && PySpread(InputOf(n)).None? ==>
      o == Raised(NotAMapping(InputOf(n).value))
    ensures TaskName(n) in registry && PySpread(ParamsOf(n)).Some? && PySpread(InputOf(n)).Some? ==>
      o == registry[TaskName(n)](Overlay(Spread(ParamsOf(n)), map["progress_weight" := ProgressWeight(n)]), Spread(InputOf(n)))
  {
    var task := TaskName(n);
    if task !in registry then Raised("No handler registered for task '" + task + "'")
    else match PySpread(ParamsOf(n))
      case None => Raised(NotAMapping(ParamsOf(n).value))
      case Some(p) =>
        match PySpread(InputOf(n))
        case None => Raised(NotAMapping(InputOf(n).value))
        case Some(input) => registry[task](Overlay(p, map["progress_weight" := ProgressWeight(n)]), input)
  }

  /** The node after _execute_node: "running" first, then "completed" with
      the returned value as output, or "failed" with error.message. */
  function Executed(n: Node, o: Outcome): Node
  {
    var running := n["status" := JStr("running")];
    match o
    case Returned(v) => running["output" := v]["status" := JStr("completed")]
    case Raised(msg) => running["status" := JStr("failed")]["error" := JObj(map["message" := JStr(msg)])]
  }

  /** After _execute_node the node is "completed" with output set to the
      returned value (null for None), or "failed" with error.message set;
      every other property is kept. */
  lemma ExecutedOutcome(n: Node, o: Outcome)
    ensures o.Returned? ==> HasStatus(Executed(n, o), "completed") && "output" in Executed(n, o) && Executed(n, o)["output"] == o.value
    ensures o.Raised? ==>
      (HasStatus(Executed(n, o), "failed") && "error" in Executed(n, o)
       && Executed(n, o)["error"] == JObj(map["message" := JStr(o.message)]))
    ensures forall k :: k != "status" && k != "output" && k != "error" ==>
      ((k in Executed(n, o) <==> k in n) && (k in n ==> Executed(n, o)[k] == n[k]))
    ensures o.Raised? ==> ("output" in Executed(n, o) <==> "output" in n) && ("output" in n ==> Executed(n, o)["output"] == n["output"])
    ensures o.Returned? ==> ("error" in Executed(n, o) <==> "error" in n) && ("error" in n ==> Executed(n, o)["error"] == n["error"])
  {
  }

  /** The node after _execute_node with this registry. */
  function AfterExecute(registry: map<string, Handler>, n: Node): Node
  {
    Executed(n, RunNode(registry, n))
  }

  /** Executing a node, as a step of a wave. */
  function Step(registry: map<string, Handler>): Node -> Node
  {
    n => AfterExecute(registry, n)
  }

  /** After a whole wave every ready node is executed, every other node is
      unchanged, the pending count drops by the wave's size and the nodes
      still pass the schema. */
  lemma {:induction false} WaveOutcome(registry: map<string, Handler>, before: seq<Node>, edges: seq<Edge>, ready: seq<nat>)
    requires ready == WorkerReady(before, edges)
    ensures var after := WaveState(Step(registry), before, ready, |ready|);
      && Pending(after, WorkerPlane) + |ready| == Pending(before, WorkerPlane)
      && (forall k :: 0 <= k < |before| && k !in ready ==> after[k] == before[k])
      && (forall k :: k in ready ==> after[k] == AfterExecute(registry, before[k]))
      && (ValidNodes(before) ==> ValidNodes(after))
  {
    StepFacts(registry);
    WaveFacts(Step(registry), WorkerPlane, before, UsableEdges(edges), ready);
    var after := WaveState(Step(registry), before, ready, |ready|);
    forall k | k in ready ensures after[k] == AfterExecute(registry, before[k]) {
      assert after[k] == Step(registry)(before[k]);
    }
  }

  /** Every executed node is done and still passes the node schema. */
  lemma StepFacts(registry: map<string, Handler>)
    ensures StepSettles(Step(registry)) && StepKeepsValid(Step(registry))
  {
    forall n | GraphSchema.ValidNode(JObj(n)) ensures GraphSchema.ValidNode(JObj(Step(registry)(n))) {
      var o := RunNode(registry, n);
      var r := Executed(n, o);
      assert "status" in GraphSchema.NodeKeys && "output" in GraphSchema.NodeKeys && "error" in GraphSchema.NodeKeys;
      assert r.Keys <= n.Keys + {"status", "output", "error"};
      if o.Raised? {
        assert GraphSchema.ValidErrorInfo(r["error"]);
      }
    }
  }

  // ---------------------------------------------------------------------
  // _process_job admission and the loop's reactions
  // ---------------------------------------------------------------------

  /** `fields.get(key)`. */
  function FieldOf(e: DataEntry, key: string): Option<string>
  {
    if key in e.fields then Some(e.fields[key]) else None
  }

  /** The checks _process_job makes before it executes anything: the error
      it raises, or the job id and the graph document. */
  function Admit(codec: Codec, e: DataEntry): (r: Result<(string, Json), JobError>)
    ensures r.Ok? ==> GraphSchema.ValidGraph(r.value.1) && FieldOf(e, "jobId") == Some(r.value.0) && r.value.0 != ""
    ensures r.Ok? ==> JStr(r.value.0) == r.value.1.fields["workflowId"]
    ensures r.Err? ==> r.error.entryId == e.xid && r.error.jobId == FieldOf(e, "jobId")
    ensures r.Err? && r.error.kind != MissingJobIdOrPayload ==> r.error.jobId.Some? && r.error.jobId.value != ""
  {
    var jobId := FieldOf(e, "jobId");
    var payload := FieldOf(e, "graph");
    if jobId.None? || jobId.value == "" || payload.None? || payload.value == "" then
      Err(JobError(MissingJobIdOrPayload, e.xid, jobId))
    else match codec.parse(payload.value)
      case None => Err(JobError(InvalidJson, e.xid, jobId))
      case Some(j) =>
        if !GraphSchema.ValidGraph(j) then Err(JobError(SchemaRejected, e.xid, jobId))
        else if j.fields["workflowId"] != JStr(jobId.value) then Err(JobError(WorkflowIdMismatch, e.xid, jobId))
        else Ok((jobId.value, j))
  }

  /** What the loop body does with an outcome: the transport effects, and
      whether an exception escapes and ends the loop. */
  datatype Reaction = Reaction(events: seq<Event>, crashed: bool)

  /** The dispatch on a result's status: every status is acknowledged;
      completed and failed publish that status, handoff enqueues the graph on
      the control stream. */
  function ResultEvents(p: PassResult): (r: seq<Event>)
    ensures |r| == 2 && r[0] == Acked(p.entryId)
    ensures p.status == PassCompleted <==> StatusPublished(p.jobId, "completed") in r
    ensures p.status == PassFailed <==> StatusPublished(p.jobId, "failed") in r
    ensures p.status == PassHandoff <==> ControlJobEnqueued(p.jobId, p.graph) in r
  {
    match p.status
    case PassCompleted => [Acked(p.entryId), StatusPublished(p.jobId, "completed")]
    case PassHandoff => [Acked(p.entryId), ControlJobEnqueued(p.jobId, p.graph)]
    case PassFailed => [Acked(p.entryId), StatusPublished(p.jobId, "failed")]
  }

  /** The except branch AS WRITTEN: it acknowledges the entry and, when the
      error carries a job id, publishes "failed" under `result.job_id`, the
      loop variable of the last job that finished; before any job finished
      that name is unbound and the branch raises. */
  function ErrorReactionAsWritten(e: JobError, last: Option<PassResult>): (r: Reaction)
    ensures r.events != [] && r.events[0] == Acked(e.entryId)
    ensures r.crashed <==> e.jobId.Some? && e.jobId.value != "" && last.None?
    ensures forall j :: StatusPublished(j, "failed") in r.events <==>
      e.jobId.Some? && e.jobId.value != "" && last.Some? && j == last.value.jobId
  {
    if e.jobId.Some? && e.jobId.value != "" then
      if last.None? then Reaction([Acked(e.entryId)], true)
      else Reaction([Acked(e.entryId), StatusPublished(last.value.jobId, "failed")], false)
    else Reaction([Acked(e.entryId)], false)
  }

  /** The except branch as evidently intended: the failure is published
      under the error's own job id, and the branch never raises. */
  function ErrorReaction(e: JobError): (r: Reaction)
    ensures !r.crashed && r.events != [] && r.events[0] == Acked(e.entryId)
    ensures forall j :: StatusPublished(j, "failed") in r.events <==> e.jobId == Some(j) && j != ""
  {
    if e.jobId.Some? && e.jobId.value != "" then Reaction([Acked(e.entryId), StatusPublished(e.jobId.value, "failed")], false)
    else Reaction([Acked(e.entryId)], false)
  }

  /** A first job rejected for bad JSON crashes the loop as written. */
  lemma FirstErrorCrashes()
    ensures ErrorReactionAsWritten(JobError(InvalidJson, "1-0", Some("job-b")), None).crashed
    ensures !ErrorReaction(JobError(InvalidJson, "1-0", Some("job-b"))).crashed
  {
  }

  /** After job "job-a" finished, rejecting job "job-b" publishes "failed"
      for "job-a" and nothing for "job-b" as written. */
  lemma LaterErrorBlamesPreviousJob()
    ensures var last := Some(PassResult("job-a", "1-0", JNull, PassCompleted));
      var e := JobError(SchemaRejected, "2-0", Some("job-b"));
      && StatusPublished("job-a", "failed") in ErrorReactionAsWritten(e, last).events
      && StatusPublished("job-b", "failed") !in ErrorReactionAsWritten(e, last).events
      && StatusPublished("job-b", "failed") in ErrorReaction(e).events
  {
    var e := JobError(SchemaRejected, "2-0", Some("job-b"));
    assert ErrorReaction(e).events[1] == StatusPublished("job-b", "failed");
  }

  /** The two agree when the error has no job id, or when it names the job
      that finished last. */
  lemma ErrorReactionsAgree(e: JobError, last: Option<PassResult>)
    requires e.jobId.None? || e.jobId.value == "" || (last.Some? && last.value.jobId == e.jobId.value)
    ensures ErrorReactionAsWritten(e, last) == ErrorReaction(e)
  {
  }

  /** The loop body's reaction to one outcome (with the corrected except
      branch). */
  function React(o: JobOutcome): (r: Reaction)
    ensures r.crashed <==> o.Crashed?
    ensures !o.Crashed? ==> r.events != [] && r.events[0] == Acked(if o.Finished? then o.result.entryId else o.error.entryId)
  {
    match o
    case Finished(p) => Reaction(ResultEvents(p), false)
    case Rejected(e) => ErrorReaction(e)
    case Crashed => Reaction([], true)
  }

  // ---------------------------------------------------------------------
  // The executor
  // ---------------------------------------------------------------------

  class Executor {
    const registry: map<string, Handler>
    const bridge: WorkerTransport
    const codec: Codec
    /** `runner is not None`, and `stop_event.is_set()`. */
    var running: bool
    var stopRequested: bool

    constructor (queue: WorkerTransport, taskRegistry: map<string, Handler>, json: Codec)
      ensures registry == taskRegistry && bridge == queue && codec == json
      ensures !running && !stopRequested
    {
      registry := taskRegistry;
      bridge := queue;
      codec := json;
      running := false;
      stopRequested := false;
    }

    /** start: does nothing while a runner exists; otherwise clears the
        stop event and creates the runner. */
    method Start()
      modifies this
      ensures running
      ensures old(running) ==> stopRequested == old(stopRequested)
      ensures !old(running) ==> !stopRequested
    {
      if running {
        return;
      }
      stopRequested := false;
      running := true;
    }

    /** stop: does nothing without a runner; otherwise sets the stop event
        and drops the runner. */
    method Stop()
      modifies this
      ensures !running
      ensures !old(running) ==> stopRequested == old(stopRequested)
      ensures old(running) ==> stopRequested
    {
      if !running {
        return;
      }
      stopRequested := true;
      running := false;
    }

    /** _get_ready_nodes: the ready python-plane nodes in graph order, each
        with its predecessors' outputs merged into its input; false when a
        merge raised (the nodes are then of no further interest). */
    method GetReadyNodes(g: Graph) returns (ready: seq<nat>, ok: bool)
      modifies g
      ensures |g.nodes| == |old(g.nodes)|
      ensures ready == WorkerReady(old(g.nodes), g.edges)
      ensures ok <==> forall k :: k in ready ==> PyMerged(old(g.nodes), UsableEdges(g.edges), k).Some?
      ensures ok ==> g.nodes == MergeInputs(old(g.nodes), UsableEdges(g.edges), ready)
    {
      ghost var nodes0 := g.nodes;
      var edges := UsableEdges(g.edges);
      ready := ReadyIndices(g.nodes, edges, WorkerPlane);
      ok := MergeReady(g, edges, ready);
    }

    /** The merge loop of _get_ready_nodes over the ready nodes. */
    method MergeReady(g: Graph, edges: seq<Edge>, ready: seq<nat>) returns (ok: bool)
      requires forall a :: 0 <= a < |ready| ==> ready[a] < |g.nodes|
      requires forall a, b :: 0 <= a < b < |ready| ==> ready[a] < ready[b]
      modifies g
      ensures |g.nodes| == |old(g.nodes)|
      ensures ok <==> forall k :: k in ready ==> PyMerged(old(g.nodes), edges, k).Some?
      ensures ok ==> g.nodes == MergeInputs(old(g.nodes), edges, ready)
    {
      ghost var nodes0 := g.nodes;
      var r := 0;
      while r < |ready|
        invariant 0 <= r <= |ready|
        invariant MergedUpTo(nodes0, g.nodes, edges, ready, r)
        invariant forall a :: 0 <= a < r ==> PyMerged(nodes0, edges, ready[a]).Some?
      {
        var i := ready[r];
        ghost var cur := g.nodes;
        MergedUpToAt(nodes0, cur, edges, ready, r);
        PyMergedSame(cur, nodes0, edges, i);
        PyMergedMeaning(nodes0, edges, i);
        ok := MergeInto(g, edges, i);
        if !ok {
          return;
        }
        MergedUpToStep(nodes0, cur, g.nodes, edges, ready, r);
        r := r + 1;
      }
      MergedUpToAll(nodes0, g.nodes, edges, ready);
      ok := true;
    }

    /** _execute_node: marks the node running, awaits its task, records the
        outcome on the node, then stores the whole graph in the finally
        block (which raises RuntimeError when the store is unreachable). */
    method ExecuteNode(g: Graph, i: nat) returns (stored: bool)
      requires i < |g.nodes|
      modifies g, bridge
      ensures g.nodes == old(g.nodes)[i := AfterExecute(registry, old(g.nodes)[i])]
      ensures stored == bridge.storeUp && bridge.inbox == old(bridge.inbox)
      ensures bridge.log == old(bridge.log) + (if stored then [PayloadStored(g.WorkflowId(), g.ToJson())] else [])
    {
      var n := g.nodes[i];
      g.nodes := g.nodes[i := n["status" := JStr("running")]];
      var outcome := RunNode(registry, n);
      g.nodes := g.nodes[i := Executed(n, outcome)];
      stored := bridge.SetJobPayload(g.WorkflowId(), g.ToJson());
    }

    /** The for loop of execute_graph: the ready nodes run one after
        another; a failed store raises out of the loop at once. */
    method RunWave(g: Graph, ready: seq<nat>) returns (failed: bool)
      requires ready == WorkerReady(g.nodes, g.edges)
      modifies g, bridge
      ensures |g.nodes| == |old(g.nodes)| && bridge.inbox == old(bridge.inbox)
      ensures old(bridge.log) <= bridge.log
      ensures failed <==> ready != [] && !bridge.storeUp
      ensures !failed ==> Pending(g.nodes, WorkerPlane) + |ready| == Pending(old(g.nodes), WorkerPlane)
      ensures !failed ==> forall k :: 0 <= k < |g.nodes| && k !in ready ==> g.nodes[k] == old(g.nodes)[k]
      ensures !failed ==> forall k :: k in ready ==> g.nodes[k] == AfterExecute(registry, old(g.nodes)[k])
      ensures !failed && ValidNodes(old(g.nodes)) ==> ValidNodes(g.nodes)
    {
      ghost var before := g.nodes;
      failed := RunNodes(g, ready);
      if !failed {
        WaveOutcome(registry, before, g.edges, ready);
      }
    }

    /** The loop of a wave: the ready nodes executed in order, each stored
        after it ran; the first failed store ends the wave. */
    method RunNodes(g: Graph, ready: seq<nat>) returns (failed: bool)
      requires Increasing(ready, |g.nodes|)
      modifies g, bridge
      ensures |g.nodes| == |old(g.nodes)|
      ensures !failed ==> g.nodes == WaveState(Step(registry), old(g.nodes), ready, |ready|)
      ensures bridge.inbox == old(bridge.inbox) && old(bridge.log) <= bridge.log
      ensures failed <==> ready != [] && !bridge.storeUp
    {
      ghost var before := g.nodes;
      var w := 0;
      while w < |ready|
        invariant 0 <= w <= |ready| && bridge.inbox == old(bridge.inbox)
        invariant old(bridge.log) <= bridge.log
        invariant w > 0 ==> bridge.storeUp
        invariant g.nodes == WaveState(Step(registry), before, ready, w)
      {
        var i := ready[w];
        WaveNext(Step(registry), before, ready, w);
        var stored := ExecuteNode(g, i);
        if !stored {
          return true;
        }
        w := w + 1;
      }
      return false;
    }

    /** execute_graph: waves of ready nodes until none is ready, then the
        classification. A store failure or a merge TypeError ends it early.
        When it finishes, every node is unchanged or is an unsettled
        python-plane node that is now completed or failed. */
    method ExecuteGraph(g: Graph) returns (r: Result<PassStatus, Fault>)
      modifies g, bridge
      ensures |g.nodes| == |old(g.nodes)| && bridge.inbox == old(bridge.inbox)
      ensures old(bridge.log) <= bridge.log
      ensures r.Ok? ==> r.value == Classify(g.nodes) && WorkerReady(g.nodes, g.edges) == []
      ensures r == Err(StoreFailed) ==> !bridge.storeUp
      ensures bridge.storeUp && r.Err? ==> r.error == MergeTypeError
      ensures WorkerReady(old(g.nodes), g.edges) != [] && !bridge.storeUp ==> r.Err?
      ensures r.Ok? ==> Framed(WorkerPlane, old(g.nodes), g.nodes, [])
      ensures r.Ok? && ValidNodes(old(g.nodes)) ==> ValidNodes(g.nodes)
    {
      ghost var nodes0 := g.nodes;
      ghost var valid0 := ValidNodes(g.nodes);
      var ready, ok := GetReadyNodes(g);
      if !ok {
        return Err(MergeTypeError);
      }
      ghost var firstReady := ready;
      MergeKeeps(nodes0, UsableEdges(g.edges), ready);
      ReadyIgnoresInputs(g.nodes, nodes0, UsableEdges(g.edges), WorkerPlane);
      MergeFramed(WorkerPlane, nodes0, nodes0, g.nodes, UsableEdges(g.edges), ready);
      while ready != []
        invariant |g.nodes| == |nodes0| && bridge.inbox == old(bridge.inbox)
        invariant old(bridge.log) <= bridge.log
        invariant ready == WorkerReady(g.nodes, g.edges)
        invariant firstReady == WorkerReady(nodes0, g.edges)
        invariant ready != firstReady ==> bridge.storeUp
        invariant Framed(WorkerPlane, nodes0, g.nodes, ready)
        invariant valid0 ==> ValidNodes(g.nodes)
        decreases Pending(g.nodes, WorkerPlane)
      {
        ghost var before := g.nodes;
        var failed := RunWave(g, ready);
        if failed {
          return Err(StoreFailed);
        }
        StepFacts(registry);
        forall k | k in ready ensures Done(g.nodes[k]) {
          assert Done(Step(registry)(before[k]));
        }
        WaveSettles(WorkerPlane, before, g.nodes, UsableEdges(g.edges), ready, nodes0);
        ghost var executed := g.nodes;
        ready, ok := GetReadyNodes(g);
        if !ok {
          return Err(MergeTypeError);
        }
        MergeKeeps(executed, UsableEdges(g.edges), ready);
        ReadyIgnoresInputs(g.nodes, executed, UsableEdges(g.edges), WorkerPlane);
        PendingIgnoresInputs(g.nodes, executed, WorkerPlane);
        MergeFramed(WorkerPlane, nodes0, executed, g.nodes, UsableEdges(g.edges), ready);
      }
      r := Ok(Classify(g.nodes));
    }

    /** _process_job: rejects a missing job id or graph, undecodable JSON, a
        schema failure and a workflow id that differs from the job id;
        otherwise publishes "running", executes the graph and stores it.
        A store failure and a merge TypeError both escape: neither is the
        RuntimeError the except clause catches. */
    method ProcessJob(entry: DataEntry) returns (r: JobOutcome)
      modifies bridge
      ensures bridge.inbox == old(bridge.inbox) && old(bridge.log) <= bridge.log
      ensures Admit(codec, entry).Err? ==>
        r == Rejected(Admit(codec, entry).error) && bridge.log == old(bridge.log)
      ensures Admit(codec, entry).Ok? ==>
        var (jobId, j) := Admit(codec, entry).value;
        && |bridge.log| > |old(bridge.log)| && bridge.log[|old(bridge.log)|] == StatusPublished(jobId, "running")
        && !r.Rejected?
        && (!bridge.storeUp ==> r.Crashed?)
        && (r.Finished? ==>
             && r.result.jobId == jobId && r.result.entryId == entry.xid
             && GraphSchema.ValidGraph(r.result.graph)
             && r.result.graph.fields - {"nodes"} == j.fields - {"nodes"}
             && |NodesOf(r.result.graph)| == |NodesOf(j)|
             && r.result.status == Classify(NodesOf(r.result.graph))
             && WorkerReady(NodesOf(r.result.graph), EdgesOf(j)) == []
             && bridge.log[|bridge.log| - 1] == PayloadStored(jobId, r.result.graph))
    {
      var jobId := FieldOf(entry, "jobId");
      var payload := FieldOf(entry, "graph");
      if jobId.None? || jobId.value == "" || payload.None? || payload.value == "" {
        return Rejected(JobError(MissingJobIdOrPayload, entry.xid, jobId));
      }
      var parsed := codec.parse(payload.value);
      if parsed.None? {
        return Rejected(JobError(InvalidJson, entry.xid, jobId));
      }
      var valid := GraphSchema.Validate(parsed.value);
      if !valid {
        return Rejected(JobError(SchemaRejected, entry.xid, jobId));
      }
      var g := new Graph.FromJson(parsed.value);
      if g.WorkflowId() != jobId.value {
        return Rejected(JobError(WorkflowIdMismatch, entry.xid, jobId));
      }
      r := RunAdmitted(entry.xid, jobId.value, parsed.value, g);
    }

    /** The rest of _process_job once the job is admitted: announce it as
        running, execute the graph, store the final graph. */
    method RunAdmitted(xid: string, jobId: string, j: Json, g: Graph) returns (r: JobOutcome)
      requires GraphSchema.ValidGraph(j) && g.doc == j.fields && g.nodes == NodesOf(j) && g.edges == EdgesOf(j)
      modifies g, bridge
      ensures bridge.inbox == old(bridge.inbox) && old(bridge.log) <= bridge.log
      ensures |bridge.log| > |old(bridge.log)| && bridge.log[|old(bridge.log)|] == StatusPublished(jobId, "running")
      ensures !r.Rejected?
      ensures !bridge.storeUp ==> r.Crashed?
      ensures r.Finished? ==>
        && r.result.jobId == jobId && r.result.entryId == xid
        && GraphSchema.ValidGraph(r.result.graph)
        && r.result.graph.fields - {"nodes"} == j.fields - {"nodes"}
        && |NodesOf(r.result.graph)| == |NodesOf(j)|
        && r.result.status == Classify(NodesOf(r.result.graph))
        && WorkerReady(NodesOf(r.result.graph), EdgesOf(j)) == []
        && bridge.log[|bridge.log| - 1] == PayloadStored(jobId, r.result.graph)
    {
      bridge.PublishStatus(jobId, "running");
      ghost var mid := bridge.log;
      NodesOfValid(j);
      var res := ExecuteGraph(g);
      assert bridge.log[|old(bridge.log)|] == mid[|old(bridge.log)|];
      if res.Err? {
        return Crashed;
      }
      var out := g.ToJson();
      FinishedGraph(j, g.nodes);
      var stored := bridge.SetJobPayload(jobId, out);
      if !stored {
        return Crashed;
      }
      r := Finished(PassResult(jobId, xid, out, res.value));
    }

    /** One iteration of _run_loop that found an entry: process it and
        react to the outcome. */
    method Iterate() returns (o: Option<JobOutcome>)
      modifies bridge
      ensures old(bridge.inbox) == [] ==> o.None? && bridge.inbox == [] && bridge.log == old(bridge.log)
      ensures old(bridge.inbox) != [] ==>
        && o.Some? && bridge.inbox == old(bridge.inbox)[1..]
        && old(bridge.log) <= bridge.log
        && EndsWith(bridge.log, React(o.value).events)
        && (!o.value.Crashed? ==> (if o.value.Finished? then o.value.result.entryId else o.value.error.entryId) == old(bridge.inbox)[0].xid)
    {
      var job := bridge.PollJob();
      if job.None? {
        return None;
      }
      var res := ProcessJob(job.value);
      o := Some(res);
      Report(res);
    }

    /** The dispatch after _process_job: the status branches, and the
        except branch (with the job's own id; see ErrorReactionAsWritten). */
    method Report(res: JobOutcome)
      modifies bridge
      ensures bridge.inbox == old(bridge.inbox)
      ensures bridge.log == old(bridge.log) + React(res).events
    {
      match res {
        case Finished(p) =>
          bridge.AckJob(p.entryId);
          match p.status {
            case PassCompleted => bridge.PublishStatus(p.jobId, "completed");
            case PassHandoff => bridge.EnqueueControlJob(p.jobId, p.graph);
            case PassFailed => bridge.PublishStatus(p.jobId, "failed");
          }
        case Rejected(e) =>
          bridge.AckJob(e.entryId);
          if e.jobId.Some? && e.jobId.value != "" {
            bridge.PublishStatus(e.jobId.value, "failed");
          }
        case Crashed =>
      }
    }

    /** _run_loop while entries are waiting and no stop was requested: every
        entry it takes is acknowledged, unless an exception ended the loop. */
    method RunLoop() returns (crashed: bool)
      modifies bridge
      ensures old(bridge.log) <= bridge.log
      ensures !crashed && !stopRequested ==> bridge.inbox == []
      ensures !crashed && !stopRequested ==> forall k :: 0 <= k < |old(bridge.inbox)| ==> Acked(old(bridge.inbox)[k].xid) in bridge.log
    {
      ghost var entries := bridge.inbox;
      ghost var taken := 0;
      crashed := false;
      while !stopRequested && bridge.inbox != []
        invariant 0 <= taken <= |entries| && bridge.inbox == entries[taken..]
        invariant old(bridge.log) <= bridge.log
        invariant forall k :: 0 <= k < taken ==> Acked(entries[k].xid) in bridge.log
        decreases |bridge.inbox|
      {
        ghost var log0 := bridge.log;
        var o := Iterate();
        taken := taken + 1;
        assert entries[taken..] == entries[taken - 1..][1..];
        if o.value.Crashed? {
          return true;
        }
        var acked := React(o.value).events[0];
        assert acked in bridge.log;
        forall k | 0 <= k < taken ensures Acked(entries[k].xid) in bridge.log {
          if k < taken - 1 {
            assert Acked(entries[k].xid) in log0;
          }
        }
      }
    }
  }

  // ---------------------------------------------------------------------
  // _convert_value
  // ---------------------------------------------------------------------

  /** The Python values a graph holds after model_dump: JSON-like values and
      Enum members (carrying their value). */
  datatype PyVal =
    | PNone
    | PBool(b: bool)
    | PNum(n: real)
    | PStr(s: string)
    | PEnum(member: PyVal)
    | PList(items: seq<PyVal>)
    | PDict(entries: map<string, PyVal>)

  /** _convert_value: an Enum member becomes its value (not converted
      further), dicts and lists are converted element-wise. */
  function ConvertValue(v: PyVal): (r: PyVal)
    ensures v.PDict? ==> r.PDict? && r.entries.Keys == v.entries.Keys
    ensures v.PList? ==> r.PList? && |r.items| == |v.items|
    ensures v.PEnum? ==> r == v.member
    decreases v
  {
    match v
    case PEnum(m) => m
    case PDict(m) => PDict(map k | k in m :: ConvertValue(m[k]))
    case PList(xs) => PList(seq(|xs|, i requires 0 <= i < |xs| => ConvertValue(xs[i])))
    case _ => v
  }

  /** No Enum member anywhere in the value. */
  predicate EnumFree(v: PyVal)
    decreases v
  {
    match v
    case PEnum(_) => false
    case PDict(m) => forall k :: k in m ==> EnumFree(m[k])
    case PList(xs) => forall i :: 0 <= i < |xs| ==> EnumFree(xs[i])
    case _ => true
  }

  /** Every Enum member's value is itself free of Enum members (as for the
      string-valued enums of the graph model). */
  predicate PlainEnums(v: PyVal)
    decreases v
  {
    match v
    case PEnum(m) => EnumFree(m)
    case PDict(m) => forall k :: k in m ==> PlainEnums(m[k])
    case PList(xs) => forall i :: 0 <= i < |xs| ==> PlainEnums(xs[i])
    case _ => true
  }

  /** Converting leaves no Enum member when every member's value is plain. */
  lemma {:induction false} ConvertClears(v: PyVal)
    requires PlainEnums(v)
    ensures EnumFree(ConvertValue(v))
    decreases v
  {
    match v
    case PDict(m) =>
      forall k | k in m ensures EnumFree(ConvertValue(v).entries[k]) {
        ConvertClears(m[k]);
      }
    case PList(xs) =>
      forall i | 0 <= i < |xs| ensures EnumFree(ConvertValue(v).items[i]) {
        ConvertClears(xs[i]);
      }
    case _ =>
  }

  /** A value without Enum members is returned unchanged. */
  lemma {:induction false} ConvertFixes(v: PyVal)
    requires EnumFree(v)
    ensures ConvertValue(v) == v
    decreases v
  {
    match v
    case PDict(m) =>
      forall k | k in m ensures ConvertValue(m[k]) == m[k] {
        ConvertFixes(m[k]);
      }
      assert ConvertValue(v).entries == m;
    case PList(xs) =>
      forall i | 0 <= i < |xs| ensures ConvertValue(xs[i]) == xs[i] {
        ConvertFixes(xs[i]);
      }
      assert ConvertValue(v).items == xs;
    case _ =>
  }

  /** _convert_value is idempotent when Enum values are plain. */
  lemma ConvertIdempotent(v: PyVal)
    requires PlainEnums(v)
    ensures ConvertValue(ConvertValue(v)) == ConvertValue(v)
  {
    ConvertClears(v);
    ConvertFixes(ConvertValue(v));
  }

  /** A JSON value as a Python value. */
  function FromJson(j: Json): (r: PyVal)
    ensures EnumFree(r)
  {
    match j
    case JNull => PNone
    case JBool(b) => PBool(b)
    case JNum(n) => PNum(n)
    case JStr(s) => PStr(s)
    case JArr(xs) => PList(seq(|xs|, i requires 0 <= i < |xs| => FromJson(xs[i])))
    case JObj(m) => PDict(map k | k in m :: FromJson(m[k]))
  }

  /** Serialising a graph that is already plain JSON changes nothing, which
      is why the model stores and sends the graph document itself. */
  lemma SerializePlainGraph(j: Json)
    ensures ConvertValue(FromJson(j)) == FromJson(j)
  {
    ConvertFixes(FromJson(j));
  }
}
