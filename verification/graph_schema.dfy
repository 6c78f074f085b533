/** The workflow-graph wire schema ("langgraph.v1"): the generated checker for a
    graph document (validate30) and for one node (validate31). The predicates
    state the schema; the methods follow the checker's early-return loops and
    are proved to return exactly the predicates. */
module GraphSchema {
  import opened Json
  import opened SchemaChecks

  const SchemaVersion: string := "langgraph.v1"

  const GraphKeys: set<string> := {"schema", "workflowId", "context", "metadata", "nodes", "edges"}
  const NodeKeys: set<string> :=
    {"id", "name", "task", "plane", "status", "params", "input", "output", "error", "retries", "tags", "telemetry"}
  const EdgeKeys: set<string> := {"from", "to", "kind", "metadata"}
  const RetryKeys: set<string> := {"attempt", "maxAttempts"}

  const Planes: set<string> := {"node", "python"}
  const Statuses: set<string> := {"pending", "ready", "running", "completed", "failed", "skipped"}
  const EdgeKinds: set<string> := {"normal", "on_success", "on_failure"}

  /** errorInfo: an object whose message and code are strings when present;
      details may be any JSON value and further keys are allowed. */
  predicate ValidErrorInfo(j: Json)
  {
    j.JObj? && OptString(j.fields, "message") && OptString(j.fields, "code")
  }

  /** retries: only attempt (integer >= 0) and maxAttempts (integer >= 1). */
  predicate ValidRetries(j: Json)
  {
    j.JObj? && j.fields.Keys <= RetryKeys
    && ("attempt" in j.fields ==> IsInteger(j.fields["attempt"]) && j.fields["attempt"].n >= 0.0)
    && ("maxAttempts" in j.fields ==> IsInteger(j.fields["maxAttempts"]) && j.fields["maxAttempts"].n >= 1.0)
  }

  /** The node schema (validate31). input and output accept any JSON value. */
  predicate ValidNode(j: Json)
  {
    j.JObj? &&
    var m := j.fields;
    && {"id", "task", "plane", "status"} <= m.Keys
    && m.Keys <= NodeKeys
    && m["id"].JStr?
    && OptString(m, "name")
    && m["task"].JStr?
    && OptEnum(m, "plane", Planes)
    && OptEnum(m, "status", Statuses)
    && OptObject(m, "params")
    && ("error" in m ==> ValidErrorInfo(m["error"]))
    && ("retries" in m ==> ValidRetries(m["retries"]))
    && OptStringArray(m, "tags")
    && OptObject(m, "telemetry")
  }

  /** The edge schema: string from and to, optional kind and metadata, nothing else. */
  predicate ValidEdge(j: Json)
  {
    j.JObj? &&
    var m := j.fields;
    && {"from", "to"} <= m.Keys
    && m.Keys <= EdgeKeys
    && m["from"].JStr?
    && m["to"].JStr?
    && OptEnum(m, "kind", EdgeKinds)
    && OptObject(m, "metadata")
  }

  predicate AllNodes(items: seq<Json>) { forall i :: 0 <= i < |items| ==> ValidNode(items[i]) }
  predicate AllEdges(items: seq<Json>) { forall i :: 0 <= i < |items| ==> ValidEdge(items[i]) }

  /** The graph document schema (validate30). */
  predicate ValidGraph(j: Json)
  {
    j.JObj? &&
    var m := j.fields;
    && {"schema", "workflowId", "nodes", "edges"} <= m.Keys
    && m.Keys <= GraphKeys
    && m["schema"] == JStr(SchemaVersion)
    && m["workflowId"].JStr?
    && OptObject(m, "context")
    && OptObject(m, "metadata")
    && m["nodes"].JArr? && |m["nodes"].items| >= 1 && AllNodes(m["nodes"].items)
    && m["edges"].JArr? && AllEdges(m["edges"].items)
  }

  /** validate31: the checks in the generated order, returning at the first
      violation. */
  method ValidateNode(data: Json) returns (ok: bool)
    ensures ok <==> ValidNode(data)
  {
    if !data.JObj? {
      return false;
    }
    var m := data.fields;
    if !("id" in m && "task" in m && "plane" in m && "status" in m) {
      return false;
    }
    ok := CheckKeys(m, NodeKeys);
    if !ok {
      return false;
    }
    if !m["id"].JStr? || !OptString(m, "name") || !m["task"].JStr?
       || !OptEnum(m, "plane", Planes) || !OptEnum(m, "status", Statuses)
       || !OptObject(m, "params")
    {
      return false;
    }
    if "error" in m && !ValidErrorInfo(m["error"]) {
      return false;
    }
    if "retries" in m {
      var r := m["retries"];
      if !r.JObj? {
        return false;
      }
      ok := CheckKeys(r.fields, RetryKeys);
      if !ok || !ValidRetries(r) {
        return false;
      }
    }
    if "tags" in m {
      if !m["tags"].JArr? {
        return false;
      }
      ok := CheckStrings(m["tags"].items);
      if !ok {
        return false;
      }
    }
    return OptObject(m, "telemetry");
  }

  /** One iteration of the edges loop of validate30. */
  method ValidateEdge(data: Json) returns (ok: bool)
    ensures ok <==> ValidEdge(data)
  {
    if !data.JObj? {
      return false;
    }
    var m := data.fields;
    if !("from" in m && "to" in m) {
      return false;
    }
    ok := CheckKeys(m, EdgeKeys);
    if !ok {
      return false;
    }
    return m["from"].JStr? && m["to"].JStr? && OptEnum(m, "kind", EdgeKinds) && OptObject(m, "metadata");
  }

  /** validate30: the graph document checker, with its loops over the keys,
      the nodes and the edges. */
  method Validate(data: Json) returns (ok: bool)
    ensures ok <==> ValidGraph(data)
  {
    if !data.JObj? {
      return false;
    }
    var m := data.fields;
    if !("schema" in m && "workflowId" in m && "nodes" in m && "edges" in m) {
      return false;
    }
    ok := CheckKeys(m, GraphKeys);
    if !ok {
      return false;
    }
    if m["schema"] != JStr(SchemaVersion) || !m["workflowId"].JStr?
       || !OptObject(m, "context") || !OptObject(m, "metadata")
    {
      return false;
    }
    if !m["nodes"].JArr? || |m["nodes"].items| < 1 {
      return false;
    }
    var nodes := m["nodes"].items;
    var i := 0;
    while i < |nodes|
      invariant 0 <= i <= |nodes|
      invariant AllNodes(nodes[..i])
    {
      ok := ValidateNode(nodes[i]);
      if !ok {
        return false;
      }
      i := i + 1;
    }
    assert nodes[..i] == nodes;
    if !m["edges"].JArr? {
      return false;
    }
    var edges := m["edges"].items;
    var j := 0;
    while j < |edges|
      invariant 0 <= j <= |edges|
      invariant AllEdges(edges[..j])
    {
      ok := ValidateEdge(edges[j]);
      if !ok {
        return false;
      }
      j := j + 1;
    }
    assert edges[..j] == edges;
    return true;
  }

  /** A node carrying any key outside the schema's property list (for
      instance progressWeight) is rejected. */
  lemma UnlistedNodeKeyRejected(j: Json, k: string)
    requires j.JObj? && k in j.fields && k !in NodeKeys
    ensures !ValidNode(j)
  {
  }

  /** The schema checks neither that node ids are unique nor that edges name
      existing nodes: two nodes with the same id and an edge between ids that
      no node has are accepted. */
  lemma NoUniquenessOrEndpointCheck()
    ensures ValidGraph(DuplicateIdsDanglingEdge())
  {
    var g := DuplicateIdsDanglingEdge();
    var n := g.fields["nodes"].items;
    assert ValidNode(n[0]) && ValidNode(n[1]);
    assert AllNodes(n);
    assert ValidEdge(g.fields["edges"].items[0]);
  }

  function SampleNode(id: string): Json
  {
    JObj(map["id" := JStr(id), "task" := JStr("t"), "plane" := JStr("node"), "status" := JStr("pending")])
  }

  /** A document with two nodes "a" and an edge "x" -> "y". */
  function DuplicateIdsDanglingEdge(): Json
  {
    JObj(map[
      "schema" := JStr(SchemaVersion),
      "workflowId" := JStr("w"),
      "nodes" := JArr([SampleNode("a"), SampleNode("a")]),
      "edges" := JArr([JObj(map["from" := JStr("x"), "to" := JStr("y")])])
    ])
  }
}
