/** The control-plane graph executor (backend/src/core/executor.js): it polls
    the control stream, validates the graph, runs the ready "node"-plane nodes
    wave by wave, and acknowledges, publishes or hands the graph to the worker
    plane according to how the pass ended. */
module ControlExecutor {
  import opened Wrappers
  import opened Json
  import opened Workflow
  import GraphSchema
  import opened Transport
  import opened Waves

  const DefaultGroup: string := "control-executor"

  /** What a task handler does when called: it returns a value (None stands
      for `undefined`) or throws; `message` is `err.message || String(err)`. */
  datatype Outcome = Returned(value: Option<Json>) | Threw(message: string)

  /** A task handler, called with the node's parameters and its input. The
      progress and data callbacks it also receives are not modelled. */
  type Handler = (map<string, Json>, Json) -> Outcome

  /** Why a job could not be processed. */
  datatype ErrorKind = MissingJobIdOrPayload | InvalidJson | SchemaRejected | WaveFailed

  /** A rejection of #processJob: a tagged error carrying the entry id and
      the (possibly absent) job id, or the TypeError #getReadyControlNodes
      throws (see ReadyThrows), which carries neither. */
  datatype JobError = JobError(kind: ErrorKind, entryId: string, jobId: Option<string>) | Uncaught

  /** The result of a pass: `{status, jobId, entryId, graph}`. */
  datatype PassResult = PassResult(status: PassStatus, jobId: string, entryId: string, graph: Json)

  // ---------------------------------------------------------------------
  // #fieldsToObject
  // ---------------------------------------------------------------------

  /** The object a flat field list [k1, v1, k2, v2, ...] describes; a key
      without a value maps to `undefined` (None); a later key wins. */
  function FieldsObject(fields: seq<string>): map<string, Option<string>>
    decreases |fields|
  {
    if |fields| == 0 then map[]
    else if |fields| == 1 then map[fields[0] := None]
    else map[fields[0] := Some(fields[1])] + FieldsObject(fields[2..])
  }

  /** `normalized[key]`, None when absent or `undefined`. */
  function Field(fields: seq<string>, key: string): Option<string>
  {
    var obj := FieldsObject(fields);
    if key in obj then obj[key] else None
  }

  /** `!x` for a field value. */
  predicate Missing(o: Option<string>) { o.None? || o.value == "" }

  /** #fieldsToObject: the pairing loop. */
  method FieldsToObject(fields: seq<string>) returns (obj: map<string, Option<string>>)
    ensures obj == FieldsObject(fields)
  {
    obj := map[];
    var i := 0;
    while i < |fields|
      invariant i % 2 == 0 && i <= |fields| + 1
      invariant i <= |fields| ==> obj + FieldsObject(fields[i..]) == FieldsObject(fields)
      invariant i > |fields| ==> obj == FieldsObject(fields)
      decreases |fields| - i
    {
      var value := if i + 1 < |fields| then Some(fields[i + 1]) else None;
      ghost var rest := fields[i..];
      assert FieldsObject(rest) == map[fields[i] := value] + (if i + 2 <= |fields| then FieldsObject(fields[i + 2..]) else map[]) by {
        if i + 2 <= |fields| {
          assert rest[2..] == fields[i + 2..];
        }
      }
      UpdateThenMerge(obj, fields[i], value, if i + 2 <= |fields| then FieldsObject(fields[i + 2..]) else map[]);
      obj := obj[fields[i] := value];
      i := i + 2;
    }
    if i == |fields| {
      assert fields[i..] == [];
    }
  }

  /** Setting a key and then merging the rest is merging the key and the
      rest. */
  lemma UpdateThenMerge(obj: map<string, Option<string>>, k: string, v: Option<string>, rest: map<string, Option<string>>)
    ensures obj[k := v] + rest == obj + (map[k := v] + rest)
  {
  }

  /** Every even position holds a key of the object, and nothing else is
      a key. */
  lemma {:induction false} FieldsObjectKeys(fields: seq<string>)
    ensures forall k :: k in FieldsObject(fields) <==> exists j :: 0 <= j && 2 * j < |fields| && fields[2 * j] == k
    decreases |fields|
  {
    if |fields| >= 2 {
      FieldsObjectKeys(fields[2..]);
      forall k | k in FieldsObject(fields) ensures exists j :: 0 <= j && 2 * j < |fields| && fields[2 * j] == k {
        if k != fields[0] {
          assert k in FieldsObject(fields[2..]);
          var j :| 0 <= j && 2 * j < |fields| - 2 && fields[2..][2 * j] == k;
          assert fields[2 * (j + 1)] == k;
        } else {
          assert fields[2 * 0] == k;
        }
      }
      forall k | exists j :: 0 <= j && 2 * j < |fields| && fields[2 * j] == k ensures k in FieldsObject(fields) {
        var j :| 0 <= j && 2 * j < |fields| && fields[2 * j] == k;
        if j > 0 {
          assert fields[2..][2 * (j - 1)] == k;
        }
      }
    } else if |fields| == 1 {
      assert fields[2 * 0] == fields[0];
    }
  }

  /** A key's value is the element after its last even-position occurrence
      (`undefined` when the list ends there). */
  lemma {:induction false} FieldsObjectLastWins(fields: seq<string>, j: nat)
    requires 2 * j < |fields|
    requires forall j' :: j < j' && 2 * j' < |fields| ==> fields[2 * j'] != fields[2 * j]
    ensures fields[2 * j] in FieldsObject(fields)
    ensures FieldsObject(fields)[fields[2 * j]] == if 2 * j + 1 < |fields| then Some(fields[2 * j + 1]) else None
    decreases |fields|
  {
    if j > 0 {
      var rest := fields[2..];
      forall j' | j - 1 < j' && 2 * j' < |rest| ensures rest[2 * j'] != rest[2 * (j - 1)] {
        assert rest[2 * j'] == fields[2 * (j' + 1)];
      }
      FieldsObjectLastWins(rest, j - 1);
      assert rest[2 * (j - 1)] == fields[2 * j];
    } else if |fields| >= 2 {
      FieldsObjectKeys(fields[2..]);
      forall j' | 0 <= j' && 2 * j' < |fields| - 2 ensures fields[2..][2 * j'] != fields[0] {
        assert fields[2..][2 * j'] == fields[2 * (j' + 1)];
      }
    }
  }

  // ---------------------------------------------------------------------
  // #executeNode
  // ---------------------------------------------------------------------

  /** `node.task` as the handler key (ids and tasks are strings in every
      schema-valid graph). */
  function TaskName(n: Node): string
  {
    if "task" in n && n["task"].JStr? then n["task"].s else ""
  }

  /** The handler's first argument: the node's params with
      `progressWeight: node.progressWeight || 0`. */
  function HandlerParams(n: Node): (r: map<string, Json>)
    ensures "progressWeight" in r && (Truthy(r["progressWeight"]) || r["progressWeight"] == JNum(0.0))
    ensures "progressWeight" in n && Truthy(n["progressWeight"]) ==> r["progressWeight"] == n["progressWeight"]
    ensures forall k :: k != "progressWeight" ==>
      (k in r <==> k in Spread(if "params" in n then Some(n["params"]) else None))
    ensures forall k :: k != "progressWeight" && k in r ==>
      r[k] == Spread(if "params" in n then Some(n["params"]) else None)[k]
  {
    var weight := if "progressWeight" in n && Truthy(n["progressWeight"]) then n["progressWeight"] else JNum(0.0);
    Overlay(Spread(if "params" in n then Some(n["params"]) else None), map["progressWeight" := weight])
  }

  /** The handler's second argument: `node.input || {}`. */
  function HandlerInput(n: Node): Json
  {
    if "input" in n && Truthy(n["input"]) then n["input"] else JObj(map[])
  }

  /** Looks the handler up by task id and calls it; a missing handler
      is reported as a failure with "No handler for task <task>". */
  function RunNode(registry: map<string, Handler>, n: Node): (o: Outcome)
    ensures TaskName(n) !in registry ==> o == Threw("No handler for task " + TaskName(n))
    ensures o.Returned? ==> TaskName(n) in registry
  {
    var task := TaskName(n);
    if task in registry then registry[task](HandlerParams(n), HandlerInput(n))
    else Threw("No handler for task " + task)
  }

  /** The node after #executeNode, given what the handler did. */
  function Executed(n: Node, o: Outcome): Node
  {
    match o
    case Returned(Some(v)) => n["output" := v]["status" := JStr("completed")]
    case Returned(None) => (n - {"output"})["status" := JStr("completed")]
    case Threw(msg) => n["status" := JStr("failed")]["error" := JObj(map["message" := JStr(msg)])]
  }

  /** After #executeNode the node is "completed" with the handler's result as
      its output, or "failed" with error.message set; every other property is
      kept (a failure keeps the old output, a success the old error). */
  lemma ExecutedOutcome(n: Node, o: Outcome)
    ensures o.Returned? ==> HasStatus(Executed(n, o), "completed")
    ensures o.Returned? && o.value.Some? ==> "output" in Executed(n, o) && Executed(n, o)["output"] == o.value.value
    ensures o.Returned? && o.value.None? ==> "output" !in Executed(n, o)
    ensures o.Threw? ==>
      (HasStatus(Executed(n, o), "failed") && "error" in Executed(n, o)
       && Executed(n, o)["error"] == JObj(map["message" := JStr(o.message)]))
    ensures forall k :: k != "status" && k != "output" && k != "error" ==>
      ((k in Executed(n, o) <==> k in n) && (k in n ==> Executed(n, o)[k] == n[k]))
    ensures o.Threw? ==> ("output" in Executed(n, o) <==> "output" in n) && ("output" in n ==> Executed(n, o)["output"] == n["output"])
    ensures o.Returned? ==> ("error" in Executed(n, o) <==> "error" in n) && ("error" in n ==> Executed(n, o)["error"] == n["error"])
  {
  }

  /** The node after #executeNode with this registry. */
  function AfterExecute(registry: map<string, Handler>, n: Node): Node
  {
    Executed(n, RunNode(registry, n))
  }

  /** Executing a node, as a step of a wave. */
  function Step(registry: map<string, Handler>): Node -> Node
  {
    n => AfterExecute(registry, n)
  }

  /** After a whole wave every ready node is executed, every other node is
      unchanged, the pending count drops by the wave's size and the nodes
      still pass the schema. */
  lemma {:induction false} WaveOutcome(registry: map<string, Handler>, before: seq<Node>, edges: seq<Edge>, ready: seq<nat>)
    requires ready == ReadyIndices(before, edges, ControlPlane)
    ensures var after := WaveState(Step(registry), before, ready, |ready|);
      && Pending(after, ControlPlane) + |ready| == Pending(before, ControlPlane)
      && (forall k :: 0 <= k < |before| && k !in ready ==> after[k] == before[k])
      && (forall k :: k in ready ==> after[k] == AfterExecute(registry, before[k]))
      && (ValidNodes(before) ==> ValidNodes(after))
  {
    StepFacts(registry);
    WaveFacts(Step(registry), ControlPlane, before, edges, ready);
    var after := WaveState(Step(registry), before, ready, |ready|);
    forall k | k in ready ensures after[k] == AfterExecute(registry, before[k]) {
      assert after[k] == Step(registry)(before[k]);
    }
  }

  /** Every executed node is done and still passes the node schema. */
  lemma StepFacts(registry: map<string, Handler>)
    ensures StepSettles(Step(registry)) && StepKeepsValid(Step(registry))
  {
    forall n ensures Done(Step(registry)(n)) {
      ExecutedSettled(n, RunNode(registry, n));
    }
    forall n | GraphSchema.ValidNode(JObj(n)) ensures GraphSchema.ValidNode(JObj(Step(registry)(n))) {
      ExecutedValid(n, RunNode(registry, n));
    }
  }

  /** An executed node still passes the node schema. */
  lemma ExecutedValid(n: Node, o: Outcome)
    requires GraphSchema.ValidNode(JObj(n))
    ensures GraphSchema.ValidNode(JObj(Executed(n, o)))
  {
    var r := Executed(n, o);
    assert "status" in GraphSchema.NodeKeys && "output" in GraphSchema.NodeKeys && "error" in GraphSchema.NodeKeys;
    assert r.Keys <= n.Keys + {"status", "output", "error"};
    if o.Threw? {
      assert GraphSchema.ValidErrorInfo(r["error"]);
    }
  }

  /** An executed node is settled, so it never becomes ready again. */
  lemma ExecutedSettled(n: Node, o: Outcome)
    ensures Settled(Executed(n, o))
    ensures HasStatus(Executed(n, o), "completed") || HasStatus(Executed(n, o), "failed")
  {
  }

  /** The checks #processJob makes before it executes anything: the error
      it throws, or the job id and the graph document. */
  function Admit(codec: Codec, entryId: string, fields: seq<string>): (r: Result<(string, Json), JobError>)
    ensures Missing(Field(fields, "jobId")) || Missing(Field(fields, "graph")) ==>
      r == Err(JobError(MissingJobIdOrPayload, entryId, Field(fields, "jobId")))
    ensures r.Err? ==> r.error.JobError? && r.error.entryId == entryId && r.error.jobId == Field(fields, "jobId")
    ensures r.Ok? ==>
      && !Missing(Field(fields, "jobId")) && r.value.0 == Field(fields, "jobId").value
      && !Missing(Field(fields, "graph")) && codec.parse(Field(fields, "graph").value) == Some(r.value.1)
      && GraphSchema.ValidGraph(r.value.1)
    ensures !Missing(Field(fields, "jobId")) && !Missing(Field(fields, "graph")) ==>
      (r.Err? && r.error.kind == InvalidJson <==> codec.parse(Field(fields, "graph").value).None?)
  {
    var jobId := Field(fields, "jobId");
    var payload := Field(fields, "graph");
    if Missing(jobId) || Missing(payload) then Err(JobError(MissingJobIdOrPayload, entryId, jobId))
    else match codec.parse(payload.value)
      case None => Err(JobError(InvalidJson, entryId, jobId))
      case Some(j) =>
        if GraphSchema.ValidGraph(j) then Ok((jobId.value, j))
        else Err(JobError(SchemaRejected, entryId, jobId))
  }

  // ---------------------------------------------------------------------
  // Poll outcome
  // ---------------------------------------------------------------------

  /** The catch branch reports an error only when it carries a truthy entry
      id and a truthy job id. */
  predicate Reportable(e: JobError)
  {
    e.JobError? && e.entryId != "" && e.jobId.Some? && e.jobId.value != ""
  }

  /** The transport effects of one poll outcome (start's loop body after
      #processJob). */
  function Dispatch(codec: Codec, o: Result<PassResult, JobError>): (r: seq<Event>)
    ensures o.Ok? && o.value.status == PassFailed ==> r == []
    ensures o.Err? && !Reportable(o.error) ==> r == []
    ensures o.Err? && o.error.Uncaught? ==> r == []
    ensures r != [] ==> o.Ok? || o.error.JobError?
    ensures r != [] ==> r[0] == Acked(if o.Ok? then o.value.entryId else o.error.entryId)
    ensures o.Ok? || o.error.JobError? ==>
      (Acked(if o.Ok? then o.value.entryId else o.error.entryId) in r <==>
       (o.Ok? && o.value.status != PassFailed) || (o.Err? && Reportable(o.error)))
    ensures o.Ok? && o.value.status == PassCompleted ==>
      ProgressPublished(o.value.jobId, 1.0) in r && StatusPublished(o.value.jobId, "completed") in r
    ensures o.Ok? && o.value.status == PassHandoff ==> DataJobEnqueued(o.value.jobId, codec.stringify(o.value.graph)) in r
    ensures o.Err? && Reportable(o.error) ==>
      ProgressPublished(o.error.jobId.value, 0.0) in r && StatusPublished(o.error.jobId.value, "failed") in r
  {
    match o
    case Ok(p) =>
      (match p.status
       case PassCompleted => [Acked(p.entryId), ProgressPublished(p.jobId, 1.0), StatusPublished(p.jobId, "completed")]
       case PassHandoff => [Acked(p.entryId), DataJobEnqueued(p.jobId, codec.stringify(p.graph))]
       case PassFailed => [])
    case Err(e) =>
      if Reportable(e) then [Acked(e.entryId), ProgressPublished(e.jobId.value, 0.0), StatusPublished(e.jobId.value, "failed")]
      else []
  }

  // ---------------------------------------------------------------------
  // Lookups in the plain object `incoming` of #getReadyControlNodes
  // ---------------------------------------------------------------------

  /** The names a plain object inherits from Object.prototype: looking one
      up in `incoming` yields a function, or the prototype itself for
      `__proto__`, even when no edge stored anything under it. */
  predicate ProtoName(name: string)
  {
    name in {"constructor", "__defineGetter__", "__defineSetter__", "hasOwnProperty",
             "__lookupGetter__", "__lookupSetter__", "isPrototypeOf", "propertyIsEnumerable",
             "toString", "valueOf", "__proto__", "toLocaleString"}
  }

  /** #getReadyControlNodes throws a TypeError before it changes anything:
      an edge into an inherited name makes `incoming[edge.to].push` a call of
      a missing method, and so does `deps.every` for an unsettled
      control-plane node whose id is such a name. */
  predicate ReadyThrows(nodes: seq<Node>, edges: seq<Edge>)
  {
    || (exists e :: e in edges && ProtoName(e.to))
    || (exists k :: 0 <= k < |nodes| && OnPlane(nodes[k], ControlPlane) && !Settled(nodes[k]) && ProtoName(Id(nodes[k])))
  }

  /** Waves only settle nodes or change their inputs, so a pass whose first
      lookup did not throw never throws later. */
  lemma FramedNoThrow(nodes0: seq<Node>, cur: seq<Node>, edges: seq<Edge>, ready: seq<nat>)
    requires Framed(ControlPlane, nodes0, cur, ready) && !ReadyThrows(nodes0, edges)
    ensures !ReadyThrows(cur, edges)
  {
    forall k | 0 <= k < |cur| && OnPlane(cur[k], ControlPlane) && !Settled(cur[k])
      ensures !ProtoName(Id(cur[k]))
    {
      assert cur[k] - {"input"} == nodes0[k] - {"input"};
      SameOutside(cur[k], nodes0[k], "id");
      SameOutside(cur[k], nodes0[k], "plane");
      SameOutside(cur[k], nodes0[k], "status");
    }
  }

  // ---------------------------------------------------------------------
  // The executor
  // ---------------------------------------------------------------------

  class Executor {
    const registry: map<string, Handler>
    const transport: ControlTransport
    const codec: Codec
    const group: string
    var timer: bool

    constructor (taskRegistry: map<string, Handler>, queue: ControlTransport, json: Codec)
      ensures registry == taskRegistry && transport == queue && codec == json
      ensures group == DefaultGroup && !timer
    {
      registry := taskRegistry;
      transport := queue;
      codec := json;
      group := DefaultGroup;
      timer := false;
    }

    /** start: does nothing while a timer is set; otherwise ensures the
        consumer group and sets the timer. */
    method Start()
      modifies this, transport
      ensures timer && transport.inbox == old(transport.inbox)
      ensures old(timer) ==> transport.log == old(transport.log)
      ensures !old(timer) ==> transport.log == old(transport.log) + [GroupEnsured(group)]
    {
      if timer {
        return;
      }
      transport.EnsureControlGroup(group);
      timer := true;
    }

    /** stop: clears the timer; without one it does nothing. */
    method Stop()
      modifies this
      ensures !timer
    {
      if timer {
        timer := false;
      }
    }

    /** #processJob: pairs the fields, rejects a missing job id or payload,
        parses and validates the graph, publishes "running" and executes the
        graph. Every rejection carries the entry id and the job id as found. */
    method ProcessJob(entryId: string, fields: seq<string>) returns (r: Result<PassResult, JobError>)
      modifies transport
      ensures transport.inbox == old(transport.inbox) && old(transport.log) <= transport.log
      ensures Admit(codec, entryId, fields).Err? ==>
        r == Err(Admit(codec, entryId, fields).error) && transport.log == old(transport.log)
      ensures Admit(codec, entryId, fields).Ok? ==>
        var (jobId, j) := Admit(codec, entryId, fields).value;
        && |transport.log| > |old(transport.log)| && transport.log[|old(transport.log)|] == StatusPublished(jobId, "running")
        && (r.Err? ==> r.error == if ReadyThrows(NodesOf(j), EdgesOf(j)) then Uncaught else JobError(WaveFailed, entryId, Some(jobId)))
        && (ReadyThrows(NodesOf(j), EdgesOf(j)) ==> r.Err? && transport.log == old(transport.log) + [StatusPublished(jobId, "running")])
        && (r.Err? && !ReadyThrows(NodesOf(j), EdgesOf(j)) ==> !transport.storeUp)
        && (transport.storeUp && !ReadyThrows(NodesOf(j), EdgesOf(j)) ==> r.Ok?)
        && (r.Ok? ==>
             && r.value.jobId == jobId && r.value.entryId == entryId
             && GraphSchema.ValidGraph(r.value.graph)
             && r.value.graph.fields - {"nodes"} == j.fields - {"nodes"}
             && |NodesOf(r.value.graph)| == |NodesOf(j)|
             && r.value.status == Classify(NodesOf(r.value.graph))
             && ReadyIndices(NodesOf(r.value.graph), EdgesOf(j), ControlPlane) == [])
    {
      var obj := FieldsToObject(fields);
      var jobId := if "jobId" in obj then obj["jobId"] else None;
      var payload := if "graph" in obj then obj["graph"] else None;
      if jobId.None? || jobId.value == "" || payload.None? || payload.value == "" {
        return Err(JobError(MissingJobIdOrPayload, entryId, jobId));
      }
      var parsed := codec.parse(payload.value);
      if parsed.None? {
        return Err(JobError(InvalidJson, entryId, jobId));
      }
      var ok := GraphSchema.Validate(parsed.value);
      if !ok {
        return Err(JobError(SchemaRejected, entryId, jobId));
      }
      transport.PublishStatus(jobId.value, "running");
      ghost var mid := transport.log;
      var g := new Graph.FromJson(parsed.value);
      NodesOfValid(parsed.value);
      var res := ExecuteGraph(entryId, jobId.value, g);
      assert transport.log[|old(transport.log)|] == mid[|old(transport.log)|];
      if res.Err? {
        return Err(res.error);
      }
      var out := g.ToJson();
      FinishedGraph(parsed.value, g.nodes);
      r := Ok(PassResult(res.value, jobId.value, entryId, out));
    }

    /** One run of the poll timer: takes the next control entry, processes
        it and performs the effects of its outcome; without a timer it does
        nothing. */
    method Poll() returns (o: Option<Result<PassResult, JobError>>)
      modifies transport
      ensures !timer ==> o.None? && transport.inbox == old(transport.inbox) && transport.log == old(transport.log)
      ensures timer && old(transport.inbox) == [] ==> o.None? && transport.inbox == [] && transport.log == old(transport.log)
      ensures timer && old(transport.inbox) != [] ==>
        && o.Some? && transport.inbox == old(transport.inbox)[1..]
        && old(transport.log) <= transport.log
        && EndsWith(transport.log, Dispatch(codec, o.value))
        && (o.value.Ok? || o.value.error.JobError? ==>
             (if o.value.Ok? then o.value.value.entryId else o.value.error.entryId) == old(transport.inbox)[0].id)
    {
      if !timer {
        return None;
      }
      var job := transport.PollControlJob();
      if job.None? {
        return None;
      }
      var res := ProcessJob(job.value.id, job.value.fields);
      o := Some(res);
      Report(res);
    }

    /** The outcome handling of the poll loop: completed ⇒ acknowledge,
        progress 1, status completed; handoff ⇒ acknowledge and enqueue the
        graph on the data stream; a failed pass ⇒ nothing; an error with
        entry and job ids ⇒ acknowledge, progress 0, status failed. */
    method Report(res: Result<PassResult, JobError>)
      modifies transport
      ensures transport.inbox == old(transport.inbox)
      ensures transport.log == old(transport.log) + Dispatch(codec, res)
    {
      match res {
        case Ok(p) =>
          if p.status == PassCompleted {
            transport.AcknowledgeControlJob(p.entryId);
            transport.PublishProgress(p.jobId, 1.0);
            transport.PublishStatus(p.jobId, "completed");
          } else if p.status == PassHandoff {
            transport.AcknowledgeControlJob(p.entryId);
            transport.EnqueueDataJob(p.jobId, codec.stringify(p.graph));
          }
        case Err(e) =>
          if Reportable(e) {
            transport.AcknowledgeControlJob(e.entryId);
            transport.PublishProgress(e.jobId.value, 0.0);
            transport.PublishStatus(e.jobId.value, "failed");
          }
      }
    }

    /** #getReadyControlNodes: the ready control-plane nodes in graph order,
        each with its predecessors' outputs merged into its input; None when
        the lookups in `incoming` throw, the nodes left as they were. */
    method GetReadyControlNodes(g: Graph) returns (ready: Option<seq<nat>>)
      modifies g
      ensures ready.None? <==> ReadyThrows(old(g.nodes), g.edges)
      ensures ready.None? ==> g.nodes == old(g.nodes)
      ensures ready.Some? ==> ready.value == ReadyIndices(old(g.nodes), g.edges, ControlPlane)
      ensures ready.Some? ==> g.nodes == MergeInputs(old(g.nodes), g.edges, ready.value)
    {
      if ReadyThrows(g.nodes, g.edges) {
        return None;
      }
      var r := ReadyIndices(g.nodes, g.edges, ControlPlane);
      MergeReady(g, r);
      ready := Some(r);
    }

    /** The merge loop of #getReadyControlNodes over the ready nodes. */
    method MergeReady(g: Graph, ready: seq<nat>)
      requires forall a :: 0 <= a < |ready| ==> ready[a] < |g.nodes|
      requires forall a, b :: 0 <= a < b < |ready| ==> ready[a] < ready[b]
      modifies g
      ensures g.nodes == MergeInputs(old(g.nodes), g.edges, ready)
    {
      ghost var nodes0 := g.nodes;
      var r := 0;
      while r < |ready|
        invariant 0 <= r <= |ready|
        invariant MergedUpTo(nodes0, g.nodes, g.edges, ready, r)
      {
        var i := ready[r];
        ghost var cur := g.nodes;
        MergedUpToAt(nodes0, cur, g.edges, ready, r);
        MergeInto(g, i);
        MergedUpToStep(nodes0, cur, g.nodes, g.edges, ready, r);
        r := r + 1;
      }
      MergedUpToAll(nodes0, g.nodes, g.edges, ready);
    }

    /** #executeNode: runs the node's handler, records the outcome on the
        node, then stores the whole graph. */
    method ExecuteNode(jobId: string, g: Graph, i: nat) returns (stored: bool)
      requires i < |g.nodes|
      modifies g, transport
      ensures g.nodes == old(g.nodes)[i := AfterExecute(registry, old(g.nodes)[i])]
      ensures stored == transport.storeUp && transport.inbox == old(transport.inbox)
      ensures transport.log == old(transport.log) + (if stored then [PayloadStored(jobId, g.ToJson())] else [])
    {
      var n := g.nodes[i];
      g.nodes := g.nodes[i := AfterExecute(registry, n)];
      stored := transport.SetJobPayload(jobId, g.ToJson());
    }

    /** One wave (`Promise.all` over the ready nodes, run here one after
        another): every ready node is executed; the wave is rejected when a
        store failed, after all of its nodes ran. */
    method RunWave(jobId: string, g: Graph, ready: seq<nat>) returns (failed: bool)
      requires ready == ReadyIndices(g.nodes, g.edges, ControlPlane)
      modifies g, transport
      ensures |g.nodes| == |old(g.nodes)| && transport.inbox == old(transport.inbox)
      ensures old(transport.log) <= transport.log
      ensures failed <==> ready != [] && !transport.storeUp
      ensures Pending(g.nodes, ControlPlane) + |ready| == Pending(old(g.nodes), ControlPlane)
      ensures forall k :: 0 <= k < |g.nodes| && k !in ready ==> g.nodes[k] == old(g.nodes)[k]
      ensures forall k :: k in ready ==> g.nodes[k] == AfterExecute(registry, old(g.nodes)[k])
      ensures ValidNodes(old(g.nodes)) ==> ValidNodes(g.nodes)
    {
      ghost var before := g.nodes;
      failed := RunNodes(jobId, g, ready);
      WaveOutcome(registry, before, g.edges, ready);
    }

    /** The loop of a wave: the ready nodes executed in order, each stored
        after it ran. */
    method RunNodes(jobId: string, g: Graph, ready: seq<nat>) returns (failed: bool)
      requires Increasing(ready, |g.nodes|)
      modifies g, transport
      ensures g.nodes == WaveState(Step(registry), old(g.nodes), ready, |ready|)
      ensures transport.inbox == old(transport.inbox) && old(transport.log) <= transport.log
      ensures failed <==> ready != [] && !transport.storeUp
    {
      ghost var before := g.nodes;
      failed := false;
      var w := 0;
      while w < |ready|
        invariant 0 <= w <= |ready| && transport.inbox == old(transport.inbox)
        invariant old(transport.log) <= transport.log
        invariant failed <==> w > 0 && !transport.storeUp
        invariant g.nodes == WaveState(Step(registry), before, ready, w)
      {
        var i := ready[w];
        WaveNext(Step(registry), before, ready, w);
        var stored := ExecuteNode(jobId, g, i);
        if !stored {
          failed := true;
        }
        w := w + 1;
      }
    }

    /** #executeGraph: waves of ready nodes until none is ready, then the
        pass classification. Every node ends unchanged, or is an unsettled
        control-plane node that is now completed or failed; nodes of the
        other plane and settled nodes are untouched. When the first lookup
        of ready nodes throws, the TypeError escapes before any wave. */
    method ExecuteGraph(entryId: string, jobId: string, g: Graph) returns (r: Result<PassStatus, JobError>)
      modifies g, transport
      ensures |g.nodes| == |old(g.nodes)| && transport.inbox == old(transport.inbox)
      ensures old(transport.log) <= transport.log
      ensures r.Ok? ==> r.value == Classify(g.nodes) && ReadyIndices(g.nodes, g.edges, ControlPlane) == []
      ensures r.Err? ==> r.error == if ReadyThrows(old(g.nodes), g.edges) then Uncaught else JobError(WaveFailed, entryId, Some(jobId))
      ensures ReadyThrows(old(g.nodes), g.edges) ==> r.Err? && g.nodes == old(g.nodes) && transport.log == old(transport.log)
      ensures r.Err? && !ReadyThrows(old(g.nodes), g.edges) ==> !transport.storeUp
      ensures transport.storeUp && !ReadyThrows(old(g.nodes), g.edges) ==> r.Ok?
      ensures ReadyIndices(old(g.nodes), g.edges, ControlPlane) != [] && !transport.storeUp ==> r.Err?
      ensures r.Ok? ==> Framed(ControlPlane, old(g.nodes), g.nodes, [])
      ensures ValidNodes(old(g.nodes)) ==> ValidNodes(g.nodes)
    {
      ghost var nodes0 := g.nodes;
      ghost var valid0 := ValidNodes(g.nodes);
      var first := GetReadyControlNodes(g);
      if first.None? {
        return Err(Uncaught);
      }
      var ready := first.value;
      ghost var firstReady := ready;
      MergeKeeps(nodes0, g.edges, ready);
      ReadyIgnoresInputs(g.nodes, nodes0, g.edges, ControlPlane);
      MergeFramed(ControlPlane, nodes0, nodes0, g.nodes, g.edges, ready);
      while ready != []
        invariant |g.nodes| == |nodes0| && transport.inbox == old(transport.inbox)
        invariant old(transport.log) <= transport.log
        invariant ready == ReadyIndices(g.nodes, g.edges, ControlPlane)
        invariant firstReady == ReadyIndices(nodes0, g.edges, ControlPlane)
        invariant ready != firstReady ==> transport.storeUp
        invariant Framed(ControlPlane, nodes0, g.nodes, ready)
        invariant valid0 ==> ValidNodes(g.nodes)
        invariant !ReadyThrows(nodes0, g.edges)
        decreases Pending(g.nodes, ControlPlane)
      {
        ghost var before := g.nodes;
        var failed := RunWave(jobId, g, ready);
        if failed {
          return Err(JobError(WaveFailed, entryId, Some(jobId)));
        }
        forall k | k in ready ensures Done(g.nodes[k]) {
          ExecutedSettled(before[k], RunNode(registry, before[k]));
        }
        WaveSettles(ControlPlane, before, g.nodes, g.edges, ready, nodes0);
        ghost var executed := g.nodes;
        FramedNoThrow(nodes0, executed, g.edges, []);
        var next := GetReadyControlNodes(g);
        ready := next.value;
        MergeKeeps(executed, g.edges, ready);
        ReadyIgnoresInputs(g.nodes, executed, g.edges, ControlPlane);
        PendingIgnoresInputs(g.nodes, executed, ControlPlane);
        MergeFramed(ControlPlane, nodes0, executed, g.nodes, g.edges, ready);
      }
      r := Ok(Classify(g.nodes));
    }
  }

  /** The inner loop of #getReadyControlNodes: overlays each predecessor's
      output on node i's input, in edge order. */
  method MergeInto(g: Graph, i: nat)
    requires i < |g.nodes|
    modifies g
    ensures g.nodes == old(g.nodes)[i := MergedNode(old(g.nodes), g.edges, i)]
  {
    ghost var n0 := g.nodes;
    var deps := Preds(g.edges, Id(g.nodes[i]));
    if deps == [] {
      assert n0[i := n0[i]] == n0;
      return;
    }
    MergeStep(g, i, deps[0]);
    ghost var acc := Overlay(Spread(InputOf(n0[i])), OutputOf(n0, deps[0]));
    var d := 1;
    while d < |deps|
      invariant 1 <= d <= |deps|
      invariant FoldOutputs(n0, acc, deps[d..]) == FoldOutputs(n0, Spread(InputOf(n0[i])), deps)
      invariant g.nodes == n0[i := n0[i]["input" := JObj(acc)]]
    {
      ghost var cur := g.nodes;
      MergeStep(g, i, deps[d]);
      MergeAdvance(n0, cur, g.nodes, i, acc, deps[d]);
      assert deps[d..][1..] == deps[d + 1..];
      acc := Overlay(acc, OutputOf(n0, deps[d]));
      d := d + 1;
    }
    assert deps[d..] == [];
  }

  /** One step of that loop: `node.input = {...node.input, ...output}`. */
  method MergeStep(g: Graph, i: nat, dep: string)
    requires i < |g.nodes|
    modifies g
    ensures g.nodes == old(g.nodes)[i := old(g.nodes)[i]["input" :=
      JObj(Overlay(Spread(InputOf(old(g.nodes)[i])), OutputOf(old(g.nodes), dep)))]]
  {
    var merged := Overlay(Spread(InputOf(g.nodes[i])), OutputOf(g.nodes, dep));
    g.nodes := g.nodes[i := g.nodes[i]["input" := JObj(merged)]];
  }

  /** A step of that loop, seen from the node list it started from. */
  lemma MergeAdvance(n0: seq<Node>, cur: seq<Node>, next: seq<Node>, i: nat, acc: map<string, Json>, dep: string)
    requires i < |n0| && cur == n0[i := n0[i]["input" := JObj(acc)]]
    requires next == cur[i := cur[i]["input" := JObj(Overlay(Spread(InputOf(cur[i])), OutputOf(cur, dep)))]]
    ensures next == n0[i := n0[i]["input" := JObj(Overlay(acc, OutputOf(n0, dep)))]]
  {
    InputsOnly(n0, i, acc, false);
    var merged := Overlay(acc, OutputOf(n0, dep));
    assert cur[i]["input" := JObj(merged)] == n0[i]["input" := JObj(merged)];
  }

  /** Node i's input replaced (or left alone): the outputs and node i's own
      input as the merge loop reads them. */
  lemma InputsOnly(n0: seq<Node>, i: nat, acc: map<string, Json>, untouched: bool)
    requires i < |n0| && (untouched ==> acc == Spread(InputOf(n0[i])))
    ensures var cur := if untouched then n0 else n0[i := n0[i]["input" := JObj(acc)]];
      && Spread(InputOf(cur[i])) == acc
      && (forall d :: OutputOf(cur, d) == OutputOf(n0, d))
  {
    if !untouched {
      var cur := n0[i := n0[i]["input" := JObj(acc)]];
      InputUpdate(n0[i], JObj(acc));
      SameButOne(n0, i, n0[i]["input" := JObj(acc)]);
      OutputsIgnoreInputs(cur, n0);
    }
  }
}
