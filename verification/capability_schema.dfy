/** The capability-manifest schema: the generated checker (validate30) for one
    capability, as a predicate and as the checker's loops. */
module CapabilitySchema {
  import opened Json
  import opened SchemaChecks

  const CapabilityKeys: set<string> :=
    {"id", "label", "description", "version", "plane", "runtime", "handler", "io",
     "parameters", "examples", "telemetry", "security", "contracts"}
  const RequiredKeys: set<string> :=
    {"id", "label", "description", "version", "plane", "runtime", "handler", "io"}

  const Planes: set<string> := {"node", "python"}
  const RuntimeKinds: set<string> := {"cpu", "gpu"}

  /** runtime: kind in {cpu, gpu} and a numeric concurrency are required,
      timeoutSeconds is numeric when present, other keys are allowed. */
  predicate ValidRuntime(j: Json)
  {
    j.JObj? && "kind" in j.fields && "concurrency" in j.fields
    && OptEnum(j.fields, "kind", RuntimeKinds)
    && OptNumber(j.fields, "timeoutSeconds")
    && OptNumber(j.fields, "concurrency")
  }

  /** handler: string module and method, nothing else. */
  predicate ValidHandler(j: Json)
  {
    j.JObj? && "module" in j.fields && "method" in j.fields
    && j.fields.Keys <= {"module", "method"}
    && j.fields["module"].JStr? && j.fields["method"].JStr?
  }

  /** io: object input and output (JSON Schema fragments), nothing else. */
  predicate ValidIo(j: Json)
  {
    j.JObj? && "input" in j.fields && "output" in j.fields
    && j.fields.Keys <= {"input", "output"}
    && j.fields["input"].JObj? && j.fields["output"].JObj?
  }

  /** parameter: string name and type required; description a string and
      required a boolean when present; other keys allowed. */
  predicate ValidParameter(j: Json)
  {
    j.JObj? && "name" in j.fields && "type" in j.fields
    && j.fields["name"].JStr? && j.fields["type"].JStr?
    && OptString(j.fields, "description") && OptBool(j.fields, "required")
  }

  predicate AllParameters(items: seq<Json>) { forall i :: 0 <= i < |items| ==> ValidParameter(items[i]) }

  predicate ValidTelemetry(j: Json)
  {
    j.JObj? && OptBool(j.fields, "emitsProgressEvents") && OptStringArray(j.fields, "metrics")
  }

  predicate ValidSecurity(j: Json) { j.JObj? && OptBool(j.fields, "requiresSecrets") }

  predicate ValidContracts(j: Json)
  {
    j.JObj? && OptBool(j.fields, "idempotent") && OptString(j.fields, "sideEffects")
  }

  /** The capability schema. */
  predicate ValidCapability(j: Json)
  {
    j.JObj? &&
    var m := j.fields;
    && RequiredKeys <= m.Keys
    && m.Keys <= CapabilityKeys
    && m["id"].JStr? && m["label"].JStr? && m["description"].JStr? && m["version"].JStr?
    && m["plane"].JStr? && m["plane"].s in Planes
    && ValidRuntime(m["runtime"])
    && ValidHandler(m["handler"])
    && ValidIo(m["io"])
    && ("parameters" in m ==> m["parameters"].JArr? && AllParameters(m["parameters"].items))
    && ("examples" in m ==> m["examples"].JArr?)
    && ("telemetry" in m ==> ValidTelemetry(m["telemetry"]))
    && ("security" in m ==> ValidSecurity(m["security"]))
    && ("contracts" in m ==> ValidContracts(m["contracts"]))
  }

  /** validate30 of the capability checker: early returns, key loops and the
      parameters and metrics loops. */
  method Validate(data: Json) returns (ok: bool)
    ensures ok <==> ValidCapability(data)
  {
    if !data.JObj? {
      return false;
    }
    var m := data.fields;
    if !(RequiredKeys <= m.Keys) {
      return false;
    }
    ok := CheckKeys(m, CapabilityKeys);
    if !ok {
      return false;
    }
    if !(m["id"].JStr? && m["label"].JStr? && m["description"].JStr? && m["version"].JStr?)
       || !(m["plane"].JStr? && m["plane"].s in Planes)
       || !ValidRuntime(m["runtime"])
    {
      return false;
    }
    var h := m["handler"];
    if !h.JObj? || !("module" in h.fields && "method" in h.fields) {
      return false;
    }
    ok := CheckKeys(h.fields, {"module", "method"});
    if !ok || !h.fields["module"].JStr? || !h.fields["method"].JStr? {
      return false;
    }
    var io := m["io"];
    if !io.JObj? || !("input" in io.fields && "output" in io.fields) {
      return false;
    }
    ok := CheckKeys(io.fields, {"input", "output"});
    if !ok || !io.fields["input"].JObj? || !io.fields["output"].JObj? {
      return false;
    }
    if "parameters" in m {
      if !m["parameters"].JArr? {
        return false;
      }
      var ps := m["parameters"].items;
      var i := 0;
      while i < |ps|
        invariant 0 <= i <= |ps|
        invariant AllParameters(ps[..i])
      {
        if !ValidParameter(ps[i]) {
          return false;
        }
        i := i + 1;
      }
      assert ps[..i] == ps;
    }
    if "examples" in m && !m["examples"].JArr? {
      return false;
    }
    if "telemetry" in m {
      var t := m["telemetry"];
      if !t.JObj? || !OptBool(t.fields, "emitsProgressEvents") {
        return false;
      }
      if "metrics" in t.fields {
        if !t.fields["metrics"].JArr? {
          return false;
        }
        ok := CheckStrings(t.fields["metrics"].items);
        if !ok {
          return false;
        }
      }
    }
    if "security" in m && !ValidSecurity(m["security"]) {
      return false;
    }
    return !("contracts" in m) || ValidContracts(m["contracts"]);
  }

  /** Any top-level key outside the schema's property list is rejected. */
  lemma UnlistedKeyRejected(j: Json, k: string)
    requires j.JObj? && k in j.fields && k !in CapabilityKeys
    ensures !ValidCapability(j)
  {
  }

  /** Extra runtime keys are allowed, unlike extra handler or io keys. */
  lemma RuntimeIsOpenHandlerIsClosed(rt: map<string, Json>, h: map<string, Json>, k: string)
    requires ValidRuntime(JObj(rt)) && k !in {"kind", "concurrency", "timeoutSeconds"}
    requires ValidHandler(JObj(h)) && k !in {"module", "method"}
    ensures ValidRuntime(JObj(rt[k := JNull]))
    ensures !ValidHandler(JObj(h[k := JNull]))
  {
    assert k in h[k := JNull].Keys;
  }
}
