/** What both graph executors agree on: node records, the readiness rule,
    the merge of predecessor outputs into a ready node's input, the
    classification of a finished pass, and the mutable graph they execute. */
module Workflow {
  import opened Wrappers
  import opened Json
  import GraphSchema

  /** A node record: the node object of the graph document. */
  type Node = map<string, Json>

  /** A dependency edge; the edge kind plays no part in execution. */
  datatype Edge = Edge(from: string, to: string)

  /** How a pass over a graph ends. */
  datatype PassStatus = PassCompleted | PassFailed | PassHandoff

  const ControlPlane: string := "node"
  const WorkerPlane: string := "python"

  /** The node's id (ids are strings in every schema-valid graph). */
  function Id(n: Node): string
  {
    if "id" in n && n["id"].JStr? then n["id"].s else ""
  }

  predicate HasStatus(n: Node, s: string) { "status" in n && n["status"] == JStr(s) }

  /** Statuses that keep a node out of the ready set. */
  predicate Settled(n: Node)
  {
    HasStatus(n, "completed") || HasStatus(n, "running") || HasStatus(n, "failed") || HasStatus(n, "skipped")
  }

  predicate OnPlane(n: Node, plane: string) { "plane" in n && n["plane"] == JStr(plane) }

  /** `incoming[id]`: the sources of the edges into `id`, in edge order. */
  function Preds(edges: seq<Edge>, id: string): (ps: seq<string>)
    ensures forall d :: d in ps ==> exists e :: e in edges && e.to == id && e.from == d
    decreases |edges|
  {
    if edges == [] then []
    else
      var last := edges[|edges| - 1];
      Preds(edges[..|edges| - 1], id) + (if last.to == id then [last.from] else [])
  }

  /** The edges the worker plane uses: it skips an edge whose source or
      target is missing or empty. */
  function UsableEdges(edges: seq<Edge>): (r: seq<Edge>)
    ensures forall e :: e in r <==> e in edges && e.from != "" && e.to != ""
  {
    if edges == [] then []
    else (if edges[0].from != "" && edges[0].to != "" then [edges[0]] else []) + UsableEdges(edges[1..])
  }

  /** `nodesById[id]`: the index of the LAST node with that id. */
  function LastIndexOf(nodes: seq<Node>, id: string): (r: Option<nat>)
    ensures r.Some? ==> r.value < |nodes| && Id(nodes[r.value]) == id
    ensures r.Some? ==> forall k :: r.value < k < |nodes| ==> Id(nodes[k]) != id
    ensures r.None? ==> forall k :: 0 <= k < |nodes| ==> Id(nodes[k]) != id
    decreases |nodes|
  {
    if nodes == [] then None
    else if Id(nodes[|nodes| - 1]) == id then Some(|nodes| - 1)
    else LastIndexOf(nodes[..|nodes| - 1], id)
  }

  /** The predecessor exists and its status is "completed". */
  predicate DepCompleted(nodes: seq<Node>, dep: string)
  {
    var k := LastIndexOf(nodes, dep);
    k.Some? && HasStatus(nodes[k.value], "completed")
  }

  /** The readiness rule of both executors, for the executor's own plane. */
  predicate Ready(nodes: seq<Node>, edges: seq<Edge>, plane: string, i: nat)
    requires i < |nodes|
  {
    && OnPlane(nodes[i], plane)
    && !Settled(nodes[i])
    && forall d :: d in Preds(edges, Id(nodes[i])) ==> DepCompleted(nodes, d)
  }

  function ReadyFrom(nodes: seq<Node>, edges: seq<Edge>, plane: string, i: nat): (r: seq<nat>)
    ensures forall k: nat :: k in r <==> i <= k < |nodes| && Ready(nodes, edges, plane, k)
    ensures forall a :: 0 <= a < |r| ==> i <= r[a] < |nodes|
    ensures forall a, b :: 0 <= a < b < |r| ==> r[a] < r[b]
    decreases |nodes| - i
  {
    if i >= |nodes| then []
    else (if Ready(nodes, edges, plane, i) then [i] else []) + ReadyFrom(nodes, edges, plane, i + 1)
  }

  /** The ready nodes, in graph order (`graph.nodes.filter(...)`). */
  function ReadyIndices(nodes: seq<Node>, edges: seq<Edge>, plane: string): (r: seq<nat>)
    ensures forall k: nat :: k in r <==> k < |nodes| && Ready(nodes, edges, plane, k)
    ensures forall a :: 0 <= a < |r| ==> r[a] < |nodes|
    ensures forall a, b :: 0 <= a < b < |r| ==> r[a] < r[b]
  {
    ReadyFrom(nodes, edges, plane, 0)
  }

  /** The output a predecessor contributes to a spread (`nodesById[dep]?.output`). */
  function OutputOf(nodes: seq<Node>, dep: string): map<string, Json>
  {
    match LastIndexOf(nodes, dep)
    case None => map[]
    case Some(k) => Spread(if "output" in nodes[k] then Some(nodes[k]["output"]) else None)
  }

  /** `acc` overlaid with each predecessor's output, left to right. */
  function FoldOutputs(nodes: seq<Node>, acc: map<string, Json>, deps: seq<string>): map<string, Json>
    decreases |deps|
  {
    if deps == [] then acc else FoldOutputs(nodes, Overlay(acc, OutputOf(nodes, deps[0])), deps[1..])
  }

  /** `node.input` (None = absent). */
  function InputOf(n: Node): Option<Json>
  {
    if "input" in n then Some(n["input"]) else None
  }

  /** The node after the merge step: its input becomes its old input overlaid
      with each predecessor's output; with no predecessors it is untouched. */
  function MergedNode(nodes: seq<Node>, edges: seq<Edge>, i: nat): Node
    requires i < |nodes|
  {
    var deps := Preds(edges, Id(nodes[i]));
    if deps == [] then nodes[i]
    else nodes[i]["input" := JObj(FoldOutputs(nodes, Spread(InputOf(nodes[i])), deps))]
  }

  /** Every ready node merged, every other node as it was. */
  function MergeInputs(nodes: seq<Node>, edges: seq<Edge>, ready: seq<nat>): (r: seq<Node>)
    ensures |r| == |nodes|
    ensures forall k :: 0 <= k < |nodes| && k !in ready ==> r[k] == nodes[k]
    ensures forall k :: 0 <= k < |nodes| ==> r[k] - {"input"} == nodes[k] - {"input"}
  {
    seq(|nodes|, k requires 0 <= k < |nodes| => if k in ready then MergedNode(nodes, edges, k) else nodes[k])
  }

  /** The end-of-pass classification; a failure takes precedence. A pass is
      "completed" only when every node completed, and "handoff" only when no
      node failed and some node has not completed. */
  function Classify(nodes: seq<Node>): (r: PassStatus)
    ensures r == PassFailed <==> exists k :: 0 <= k < |nodes| && HasStatus(nodes[k], "failed")
    ensures r == PassCompleted ==> forall k :: 0 <= k < |nodes| ==> HasStatus(nodes[k], "completed")
    ensures r == PassHandoff ==>
      (forall k :: 0 <= k < |nodes| ==> !HasStatus(nodes[k], "failed"))
      && exists k :: 0 <= k < |nodes| && !HasStatus(nodes[k], "completed")
  {
    if exists k :: 0 <= k < |nodes| && HasStatus(nodes[k], "failed") then PassFailed
    else if forall k :: 0 <= k < |nodes| ==> HasStatus(nodes[k], "completed") then PassCompleted
    else PassHandoff
  }

  /** The number of nodes of `plane` that are not settled: the measure that
      every wave decreases. */
  function Pending(nodes: seq<Node>, plane: string): nat
  {
    if nodes == [] then 0
    else Pending(nodes[..|nodes| - 1], plane) + (if OnPlane(nodes[|nodes| - 1], plane) && !Settled(nodes[|nodes| - 1]) then 1 else 0)
  }

  /** Every node record passes the node schema. */
  predicate ValidNodes(nodes: seq<Node>)
  {
    forall k :: 0 <= k < |nodes| ==> GraphSchema.ValidNode(JObj(nodes[k]))
  }

  /** Two node lists that agree except on inputs. */
  predicate SameButInputs(a: seq<Node>, b: seq<Node>)
  {
    |a| == |b| && forall k :: 0 <= k < |a| ==> a[k] - {"input"} == b[k] - {"input"}
  }

  // ---------------------------------------------------------------------
  // Facts about the rules
  // ---------------------------------------------------------------------

  /** Readiness looks only at plane, status, ids and edges, never at inputs,
      so the merge step does not change the ready set. */
  lemma {:induction false} ReadyIgnoresInputs(a: seq<Node>, b: seq<Node>, edges: seq<Edge>, plane: string)
    requires SameButInputs(a, b)
    ensures ReadyIndices(a, edges, plane) == ReadyIndices(b, edges, plane)
  {
    forall k | 0 <= k < |a| ensures Id(a[k]) == Id(b[k]) && (Settled(a[k]) <==> Settled(b[k]))
      && (OnPlane(a[k], plane) <==> OnPlane(b[k], plane)) && (HasStatus(a[k], "completed") <==> HasStatus(b[k], "completed"))
    {
      SameOutside(a[k], b[k], "id");
      SameOutside(a[k], b[k], "status");
      SameOutside(a[k], b[k], "plane");
    }
    forall d ensures LastIndexOf(a, d) == LastIndexOf(b, d) {
      LastIndexSame(a, b, d);
    }
    ReadySame(a, b, edges, plane, 0);
  }

  /** Outputs are not inputs: changing inputs leaves every predecessor
      output as it was. */
  lemma OutputsIgnoreInputs(a: seq<Node>, b: seq<Node>)
    requires SameButInputs(a, b)
    ensures forall d :: OutputOf(a, d) == OutputOf(b, d)
  {
    forall k | 0 <= k < |a| ensures Id(a[k]) == Id(b[k])
      && ("output" in a[k] <==> "output" in b[k]) && ("output" in a[k] ==> a[k]["output"] == b[k]["output"])
    {
      SameOutside(a[k], b[k], "id");
      SameOutside(a[k], b[k], "output");
    }
    forall d ensures OutputOf(a, d) == OutputOf(b, d) {
      LastIndexSame(a, b, d);
    }
  }

  lemma SameOutside(x: Node, y: Node, key: string)
    requires x - {"input"} == y - {"input"} && key != "input"
    ensures key in x <==> key in y
    ensures key in x ==> x[key] == y[key]
  {
    assert key in x <==> key in x - {"input"};
    assert key in y <==> key in y - {"input"};
    if key in x {
      assert (x - {"input"})[key] == x[key];
      assert (y - {"input"})[key] == y[key];
    }
  }

  lemma {:induction false} LastIndexSame(a: seq<Node>, b: seq<Node>, d: string)
    requires |a| == |b| && forall k :: 0 <= k < |a| ==> Id(a[k]) == Id(b[k])
    ensures LastIndexOf(a, d) == LastIndexOf(b, d)
    decreases |a|
  {
    if a != [] {
      LastIndexSame(a[..|a| - 1], b[..|b| - 1], d);
    }
  }

  lemma {:induction false} ReadySame(a: seq<Node>, b: seq<Node>, edges: seq<Edge>, plane: string, i: nat)
    requires |a| == |b|
    requires forall k :: 0 <= k < |a| ==> (Id(a[k]) == Id(b[k]) && (Settled(a[k]) <==> Settled(b[k]))
      && (OnPlane(a[k], plane) <==> OnPlane(b[k], plane)) && (HasStatus(a[k], "completed") <==> HasStatus(b[k], "completed")))
    requires forall d :: LastIndexOf(a, d) == LastIndexOf(b, d)
    ensures ReadyFrom(a, edges, plane, i) == ReadyFrom(b, edges, plane, i)
    decreases |a| - i
  {
    if i < |a| {
      ReadySame(a, b, edges, plane, i + 1);
      assert Ready(a, edges, plane, i) == Ready(b, edges, plane, i);
    }
  }

  /** Replacing a node's input keeps everything else. */
  lemma InputUpdate(n: Node, x: Json)
    ensures n["input" := x] - {"input"} == n - {"input"}
  {
  }

  /** The input accepts any JSON value, so setting it keeps a node valid. */
  lemma InputUpdateValid(n: Node, x: Json)
    requires GraphSchema.ValidNode(JObj(n))
    ensures GraphSchema.ValidNode(JObj(n["input" := x]))
  {
    assert "input" in GraphSchema.NodeKeys;
  }

  /** Settling one unsettled node of `plane` lowers the pending count by one. */
  lemma {:induction false} PendingSettle(nodes: seq<Node>, i: nat, n: Node, plane: string)
    requires i < |nodes| && OnPlane(nodes[i], plane) && !Settled(nodes[i])
    requires Settled(n)
    ensures Pending(nodes[i := n], plane) + 1 == Pending(nodes, plane)
    decreases |nodes|
  {
    var last := |nodes| - 1;
    if i < last {
      PendingSettle(nodes[..last], i, n, plane);
      assert nodes[i := n][..last] == nodes[..last][i := n];
    } else {
      assert nodes[i := n][..last] == nodes[..last];
    }
  }

  // ---------------------------------------------------------------------
  // The graph being executed
  // ---------------------------------------------------------------------

  function NodeJson(nodes: seq<Node>): (r: seq<Json>)
    ensures |r| == |nodes| && forall k :: 0 <= k < |nodes| ==> r[k] == JObj(nodes[k])
  {
    seq(|nodes|, k requires 0 <= k < |nodes| => JObj(nodes[k]))
  }

  /** The node records of a schema-valid document. */
  function NodesOf(j: Json): (r: seq<Node>)
    requires GraphSchema.ValidGraph(j)
    ensures NodeJson(r) == j.fields["nodes"].items
  {
    var items := j.fields["nodes"].items;
    assert forall k :: 0 <= k < |items| ==> GraphSchema.ValidNode(items[k]);
    seq(|items|, k requires 0 <= k < |items| => items[k].fields)
  }

  /** The edges of a schema-valid document. */
  function EdgesOf(j: Json): (r: seq<Edge>)
    requires GraphSchema.ValidGraph(j)
    ensures |r| == |j.fields["edges"].items|
    ensures forall k :: 0 <= k < |r| ==>
      JStr(r[k].from) == j.fields["edges"].items[k].fields["from"] && JStr(r[k].to) == j.fields["edges"].items[k].fields["to"]
  {
    var items := j.fields["edges"].items;
    assert forall k :: 0 <= k < |items| ==> GraphSchema.ValidEdge(items[k]);
    seq(|items|, k requires 0 <= k < |items| => Edge(items[k].fields["from"].s, items[k].fields["to"].s))
  }

  /** A graph document whose node list the executors update in place. */
  class Graph {
    var nodes: seq<Node>
    const edges: seq<Edge>
    const doc: map<string, Json>

    constructor FromJson(j: Json)
      requires GraphSchema.ValidGraph(j)
      ensures doc == j.fields && nodes == NodesOf(j) && edges == EdgesOf(j)
      ensures ToJson() == j
    {
      doc := j.fields;
      nodes := NodesOf(j);
      edges := EdgesOf(j);
      new;
      assert doc["nodes" := JArr(NodeJson(nodes))] == j.fields;
    }

    /** The document with the current node records. */
    function ToJson(): Json
      reads this
    {
      JObj(doc["nodes" := JArr(NodeJson(nodes))])
    }

    function WorkflowId(): string
      reads this
    {
      if "workflowId" in doc && doc["workflowId"].JStr? then doc["workflowId"].s else ""
    }
  }

  /** A valid document whose node list is replaced by valid nodes (at least
      one) is still valid, and its node records are the new ones. */
  lemma {:induction false} ReplaceNodes(doc: map<string, Json>, nodes: seq<Node>)
    requires GraphSchema.ValidGraph(JObj(doc)) && |nodes| >= 1 && ValidNodes(nodes)
    ensures GraphSchema.ValidGraph(JObj(doc["nodes" := JArr(NodeJson(nodes))]))
    ensures NodesOf(JObj(doc["nodes" := JArr(NodeJson(nodes))])) == nodes
  {
    var j := JObj(doc["nodes" := JArr(NodeJson(nodes))]);
    var items := NodeJson(nodes);
    assert GraphSchema.AllNodes(items);
    assert GraphSchema.ValidGraph(j);
    var r := NodesOf(j);
    assert |r| == |nodes|;
    forall k | 0 <= k < |r| ensures r[k] == nodes[k] {
      assert NodeJson(r)[k] == JObj(r[k]);
    }
  }

  /** The node records of a valid document pass the node schema. */
  lemma NodesOfValid(j: Json)
    requires GraphSchema.ValidGraph(j)
    ensures ValidNodes(NodesOf(j)) && |NodesOf(j)| >= 1
  {
    var r := NodesOf(j);
    forall k | 0 <= k < |r| ensures GraphSchema.ValidNode(JObj(r[k])) {
      assert NodeJson(r)[k] == JObj(r[k]);
    }
  }

  /** The document after a pass: the input document with the new
      node records (as many as before, all valid) in place of the old ones
      is valid, and nothing but its node list changed. */
  lemma FinishedGraph(j: Json, nodes: seq<Node>)
    requires GraphSchema.ValidGraph(j) && |nodes| == |NodesOf(j)| && ValidNodes(nodes)
    ensures var out := JObj(j.fields["nodes" := JArr(NodeJson(nodes))]);
      && GraphSchema.ValidGraph(out) && NodesOf(out) == nodes
      && out.fields - {"nodes"} == j.fields - {"nodes"}
  {
    NodesOfValid(j);
    ReplaceNodes(j.fields, nodes);
    assert j.fields["nodes" := JArr(NodeJson(nodes))] - {"nodes"} == j.fields - {"nodes"};
  }
}
