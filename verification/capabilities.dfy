/** The control plane's node capabilities: the parameter and capability
    builders, the three built-in definitions, lookup by id and the manifest
    the plane publishes. A builder's destructured argument object is a
    record of optional values (None is `undefined`), and a property whose
    value would be `undefined` is left out of the object built. */
module Capabilities {
  import opened Wrappers
  import opened Json
  import CapabilitySchema

  const CapabilityVersion := "2025.02.0"

  /** The errors the builders throw: a parameter without name or type, a
      capability without id, label or handler module and method, and the
      TypeError of reading a property of a `null` telemetry argument. */
  datatype CapabilityFault = MissingNameOrType | MissingIdentity | NullTelemetry

  /** A destructuring default: `d` when the property is `undefined` (a
      `null` is kept). */
  function OrDefault(o: Option<Json>, d: Json): (r: Json)
    ensures o.Some? ==> r == o.value
    ensures o.None? ==> r == d
  {
    if o.Some? then o.value else d
  }

  /** The object `createParameter` destructures. */
  datatype ParameterArgs = ParameterArgs(name: Option<Json>, ty: Option<Json>, description: Option<Json>,
                                         required: Option<Json>, enumValues: Option<Json>, defaultValue: Option<Json>)

  /** A parameter as `createParameter` freezes it; `enum` and `default`
      are None when not given. */
  datatype Parameter = Parameter(name: Json, ty: Json, description: Json, required: Json,
                                 enumValues: Option<Json>, defaultValue: Option<Json>)
  {
    /** The frozen object as JSON. */
    function ToJson(): (j: Json)
      ensures j.JObj? && j.fields.Keys == {"name", "type", "description", "required"}
                                        + (if enumValues.Some? then {"enum"} else {})
                                        + (if defaultValue.Some? then {"default"} else {})
    {
      var base := map["name" := name, "type" := ty, "description" := description, "required" := required];
      var withEnum := if enumValues.Some? then base["enum" := enumValues.value] else base;
      JObj(if defaultValue.Some? then withEnum["default" := defaultValue.value] else withEnum)
    }
  }

  /** `createParameter`: name and type must be truthy; description defaults
      to `""` (also for `null`) and required to `false` (only for
      `undefined`). */
  function CreateParameter(args: ParameterArgs): (r: Result<Parameter, CapabilityFault>)
    ensures r.Err? <==> !Present(args.name) || !Present(args.ty)
    ensures r.Err? ==> r.error == MissingNameOrType
    ensures r.Ok? ==> Some(r.value.name) == args.name && Some(r.value.ty) == args.ty
    ensures r.Ok? ==> r.value.description == (if args.description.Some? && args.description.value != JNull
                                              then args.description.value else JStr(""))
    ensures r.Ok? ==> r.value.required == (if args.required.Some? then args.required.value else JBool(false))
    ensures r.Ok? ==> r.value.enumValues == args.enumValues && r.value.defaultValue == args.defaultValue
  {
    if !Present(args.name) || !Present(args.ty) then Err(MissingNameOrType)
    else
      Ok(Parameter(args.name.value, args.ty.value, Nullish(args.description, JStr("")),
                   OrDefault(args.required, JBool(false)), args.enumValues, args.defaultValue))
  }

  /** Arguments whose name and type are non-empty strings, whose description
      is a string or nullish and whose required flag is a boolean or left
      out. */
  predicate ParameterArgsTyped(args: ParameterArgs)
  {
    && args.name.Some? && args.name.value.JStr? && args.name.value.s != ""
    && args.ty.Some? && args.ty.value.JStr? && args.ty.value.s != ""
    && (args.description.Some? ==> args.description.value.JStr? || args.description.value == JNull)
    && (args.required.Some? ==> args.required.value.JBool?)
  }

  /** Such arguments give a parameter the capability schema accepts. */
  lemma ParameterMeetsSchema(args: ParameterArgs)
    requires ParameterArgsTyped(args)
    ensures CreateParameter(args).Ok?
    ensures CapabilitySchema.ValidParameter(CreateParameter(args).value.ToJson())
  {
    var p := CreateParameter(args).value;
    var m := p.ToJson().fields;
    assert m["name"] == p.name && m["type"] == p.ty;
    assert m["description"] == p.description && m["required"] == p.required;
  }

  /** The object `defineNodeCapability` destructures. */
  datatype CapabilityArgs = CapabilityArgs(
    id: Option<Json>, caption: Option<Json>, description: Option<Json>, version: Option<Json>,
    handler: Option<Json>, inputSchema: Option<Json>, outputSchema: Option<Json>,
    parameters: Option<Json>, examples: Option<Json>,
    timeoutSeconds: Option<Json>, concurrency: Option<Json>, telemetry: Option<Json>)

  /** id, label, handler.module and handler.method are all truthy. */
  predicate Identified(args: CapabilityArgs)
  {
    Present(args.id) && Present(args.caption)
    && Present(GetOpt(args.handler, "module")) && Present(GetOpt(args.handler, "method"))
  }

  function EmptyObjectSchema(): Json
  {
    JObj(map["type" := JStr("object"), "properties" := JObj(map[])])
  }

  /** A capability as `defineNodeCapability` freezes it. The plane is always
      "node" and the runtime kind always "cpu", so they are not stored. */
  datatype NodeCapability = NodeCapability(
    id: Json, caption: Json, description: Json, version: Json,
    timeoutSeconds: Json, concurrency: Json,
    handler: Json, input: Json, output: Json,
    parameters: Json, examples: Json,
    emitsProgressEvents: bool, metrics: Json,
    requiresSecrets: Json,
    idempotent: bool, sideEffects: Json)
  {
    /** The frozen object as JSON. */
    function ToJson(): (j: Json)
      ensures j.JObj? && j.fields.Keys == CapabilitySchema.CapabilityKeys
      ensures j.fields["plane"] == JStr("node")
    {
      JObj(map[
        "id" := id, "label" := caption, "description" := description, "version" := version,
        "plane" := JStr("node"),
        "runtime" := JObj(map["kind" := JStr("cpu"), "timeoutSeconds" := timeoutSeconds, "concurrency" := concurrency]),
        "handler" := handler,
        "io" := JObj(map["input" := input, "output" := output]),
        "parameters" := parameters, "examples" := examples,
        "telemetry" := JObj(map["emitsProgressEvents" := JBool(emitsProgressEvents), "metrics" := metrics]),
        "security" := JObj(map["requiresSecrets" := requiresSecrets]),
        "contracts" := JObj(map["idempotent" := JBool(idempotent), "sideEffects" := sideEffects])])
    }
  }

  /** `defineNodeCapability`: id, label and the handler's module and method
      must be truthy, and reading the telemetry argument's properties throws
      when it is `null`. */
  function DefineNodeCapability(args: CapabilityArgs): (r: Result<NodeCapability, CapabilityFault>)
    ensures !Identified(args) ==> r == Err(MissingIdentity)
    ensures r.Ok? <==> Identified(args) && OrDefault(args.telemetry, JObj(map[])) != JNull
    ensures r.Err? && Identified(args) ==> r == Err(NullTelemetry)
    ensures r.Ok? ==> r.value.id == args.id.value && r.value.caption == args.caption.value
  {
    if !Identified(args) then Err(MissingIdentity)
    else
      var telemetry := OrDefault(args.telemetry, JObj(map[]));
      if telemetry == JNull then Err(NullTelemetry)
      else
        Ok(NodeCapability(
          args.id.value, args.caption.value,
          Nullish(args.description, JStr("")),
          OrDefault(args.version, JStr(CapabilityVersion)),
          OrDefault(args.timeoutSeconds, JNum(120.0)),
          OrDefault(args.concurrency, JNum(1.0)),
          args.handler.value,
          Nullish(args.inputSchema, EmptyObjectSchema()),
          Nullish(args.outputSchema, EmptyObjectSchema()),
          OrDefault(args.parameters, JArr([])),
          OrDefault(args.examples, JArr([])),
          Present(Get(telemetry, "emitsProgressEvents")),
          Nullish(Get(telemetry, "metrics"), JArr([])),
          Nullish(Get(telemetry, "requiresSecrets"), JBool(false)),
          Truthy(Nullish(Get(telemetry, "idempotent"), JBool(false))),
          Nullish(Get(telemetry, "sideEffects"), JStr("bounded"))))
  }

  /** The defaults every built capability gets: a 120-second timeout, a
      concurrency of 1, the current version, empty object schemas for
      missing io, no secrets, not idempotent and "bounded" side effects,
      unless the arguments say otherwise; the progress and idempotence
      flags are the truthiness of what is given. */
  lemma CapabilityDefaults(args: CapabilityArgs)
    requires DefineNodeCapability(args).Ok?
    ensures var c := DefineNodeCapability(args).value;
      var telemetry := OrDefault(args.telemetry, JObj(map[]));
      && (args.timeoutSeconds.None? ==> c.timeoutSeconds == JNum(120.0))
      && (args.concurrency.None? ==> c.concurrency == JNum(1.0))
      && (args.version.None? ==> c.version == JStr(CapabilityVersion))
      && (args.inputSchema.None? ==> c.input == EmptyObjectSchema())
      && (args.outputSchema.None? ==> c.output == EmptyObjectSchema())
      && (c.emitsProgressEvents <==> Present(Get(telemetry, "emitsProgressEvents")))
      && (c.idempotent <==> Present(Get(telemetry, "idempotent")))
      && (Get(telemetry, "sideEffects").None? ==> c.sideEffects == JStr("bounded"))
      && (Get(telemetry, "requiresSecrets").None? ==> c.requiresSecrets == JBool(false))
  {
  }

  /** Every built capability is on the node plane with a CPU runtime. */
  lemma NodePlaneCpu(c: NodeCapability)
    ensures c.ToJson().fields["plane"] == JStr("node")
    ensures c.ToJson().fields["runtime"].JObj? && c.ToJson().fields["runtime"].fields["kind"] == JStr("cpu")
  {
  }

  predicate StringArray(j: Json)
  {
    j.JArr? && forall i :: 0 <= i < |j.items| ==> j.items[i].JStr?
  }

  /** A telemetry argument whose metrics, requiresSecrets and sideEffects
      have the schema's types or are nullish. */
  predicate WellTypedTelemetry(t: Json)
  {
    && t.JObj?
    && ("metrics" in t.fields ==> t.fields["metrics"] == JNull || StringArray(t.fields["metrics"]))
    && ("requiresSecrets" in t.fields ==> t.fields["requiresSecrets"].JBool? || t.fields["requiresSecrets"] == JNull)
    && ("sideEffects" in t.fields ==> t.fields["sideEffects"].JStr? || t.fields["sideEffects"] == JNull)
  }

  /** Arguments of the types the builder's callers pass: string id, label,
      description and version, a handler of exactly a string module and
      method, object schemas, an array of parameters each meeting the
      schema, numeric timeout and concurrency, and a well-typed telemetry
      object. */
  predicate WellTyped(args: CapabilityArgs)
  {
    && Identified(args)
    && args.id.value.JStr? && args.caption.value.JStr?
    && (args.description.Some? ==> args.description.value.JStr? || args.description.value == JNull)
    && (args.version.Some? ==> args.version.value.JStr?)
    && CapabilitySchema.ValidHandler(args.handler.value)
    && (args.inputSchema.Some? ==> args.inputSchema.value.JObj? || args.inputSchema.value == JNull)
    && (args.outputSchema.Some? ==> args.outputSchema.value.JObj? || args.outputSchema.value == JNull)
    && (args.parameters.Some? ==> args.parameters.value.JArr? && CapabilitySchema.AllParameters(args.parameters.value.items))
    && (args.examples.Some? ==> args.examples.value.JArr?)
    && (args.timeoutSeconds.Some? ==> args.timeoutSeconds.value.JNum?)
    && (args.concurrency.Some? ==> args.concurrency.value.JNum?)
    && WellTypedTelemetry(OrDefault(args.telemetry, JObj(map[])))
  }

  /** The field types the capability schema asks of a built capability. */
  predicate Typed(c: NodeCapability)
  {
    && c.id.JStr? && c.caption.JStr? && c.description.JStr? && c.version.JStr?
    && c.timeoutSeconds.JNum? && c.concurrency.JNum?
    && CapabilitySchema.ValidHandler(c.handler)
    && c.input.JObj? && c.output.JObj?
    && c.parameters.JArr? && CapabilitySchema.AllParameters(c.parameters.items)
    && c.examples.JArr?
    && StringArray(c.metrics) && c.requiresSecrets.JBool? && c.sideEffects.JStr?
  }

  /** Well-typed arguments build a capability of the schema's field types. */
  lemma BuiltIsTyped(args: CapabilityArgs)
    requires WellTyped(args)
    ensures DefineNodeCapability(args).Ok? && Typed(DefineNodeCapability(args).value)
  {
  }

  /** A capability of the schema's field types serialises to an object the
      capability manifest schema accepts. */
  lemma TypedIsValid(c: NodeCapability)
    requires Typed(c)
    ensures CapabilitySchema.ValidCapability(c.ToJson())
  {
    var m := c.ToJson().fields;
    assert m["runtime"].fields["kind"] == JStr("cpu");
    assert CapabilitySchema.ValidRuntime(m["runtime"]);
    assert CapabilitySchema.ValidIo(m["io"]);
    assert CapabilitySchema.ValidTelemetry(m["telemetry"]);
  }

  /** A capability built from well-typed arguments passes the capability
      manifest schema the planners validate against. */
  lemma BuiltCapabilityValid(args: CapabilityArgs)
    requires WellTyped(args)
    ensures DefineNodeCapability(args).Ok?
    ensures CapabilitySchema.ValidCapability(DefineNodeCapability(args).value.ToJson())
  {
    BuiltIsTyped(args);
    TypedIsValid(DefineNodeCapability(args).value);
  }

  /** `createParameter` over a list of argument objects, the first failure
      thrown. */
  function Parameters(argsList: seq<ParameterArgs>): (r: Result<seq<Parameter>, CapabilityFault>)
    ensures r.Ok? ==> |r.value| == |argsList|
    ensures r.Ok? ==> forall i :: 0 <= i < |argsList| ==> CreateParameter(argsList[i]) == Ok(r.value[i])
    ensures r.Err? ==> exists i :: 0 <= i < |argsList| && CreateParameter(argsList[i]).Err?
  {
    if argsList == [] then Ok([])
    else
      match CreateParameter(argsList[0])
      case Err(e) => Err(e)
      case Ok(p) =>
        match Parameters(argsList[1..])
        case Err(e) => Err(e)
        case Ok(ps) => Ok([p] + ps)
  }

  /** Parameters as the JSON the capability carries. */
  function ParamsJson(ps: seq<Parameter>): (r: seq<Json>)
    ensures |r| == |ps| && forall i :: 0 <= i < |ps| ==> r[i] == ps[i].ToJson()
  {
    seq(|ps|, i requires 0 <= i < |ps| => ps[i].ToJson())
  }

  /** Well-typed parameter arguments all build parameters the schema
      accepts. */
  lemma {:induction false} ParameterListMeetsSchema(argsList: seq<ParameterArgs>)
    requires forall i :: 0 <= i < |argsList| ==> ParameterArgsTyped(argsList[i])
    ensures Parameters(argsList).Ok?
    ensures CapabilitySchema.AllParameters(ParamsJson(Parameters(argsList).value))
    decreases |argsList|
  {
    if argsList != [] {
      ParameterMeetsSchema(argsList[0]);
      ParameterListMeetsSchema(argsList[1..]);
      var ps := Parameters(argsList).value;
      forall i | 0 <= i < |argsList| ensures CapabilitySchema.ValidParameter(ps[i].ToJson()) {
        ParameterMeetsSchema(argsList[i]);
      }
    }
  }

  function Str(s: string): Json { JStr(s) }

  function TypeOnly(t: string): Json { JObj(map["type" := JStr(t)]) }

  /** A parameter argument object with a name, a type and a description. */
  function ParamArgs(name: string, ty: string, description: string, required: Option<Json>, defaultValue: Option<Json>): ParameterArgs
  {
    ParameterArgs(Some(JStr(name)), Some(JStr(ty)), Some(JStr(description)), required, None, defaultValue)
  }

  function UploadParameterArgs(): seq<ParameterArgs>
  {
    [ParamArgs("bucket", "string", "MinIO bucket destination", Some(JBool(true)), None),
     ParamArgs("prefix", "string", "Object key prefix for grouped assets", None, None)]
  }

  function ScriptParameterArgs(): seq<ParameterArgs>
  {
    [ParamArgs("model", "string", "Local LLM model identifier served by Ollama/OpenWebUI", Some(JBool(true)), None),
     ParamArgs("temperature", "number", "LLM sampling temperature", None, Some(JNum(0.4)))]
  }

  function Handler(modulePath: string, methodName: string): Json
  {
    JObj(map["module" := Str(modulePath), "method" := Str(methodName)])
  }

  /** upload_artifact's input schema. */
  function UploadInputSchema(): (j: Json)
    ensures j.JObj?
  {
    JObj(map[
      "type" := Str("object"),
      "required" := JArr([Str("images")]),
      "properties" := JObj(map[
        "artifactId" := JObj(map["type" := JArr([Str("string"), Str("null")]), "description" := Str("Optional id override")]),
        "images" := JObj(map["type" := Str("array"), "minItems" := JNum(1.0),
                             "items" := JObj(map["type" := Str("string"), "description" := Str("Base64 or presigned URL")])]),
        "audio" := JObj(map["type" := JArr([Str("string"), Str("null")]),
                            "description" := Str("Optional audio sample (Base64 / presigned URL)")]),
        "metadata" := JObj(map["type" := Str("object"), "additionalProperties" := JBool(true)])])])
  }

  /** upload_artifact's output schema. */
  function UploadOutputSchema(): (j: Json)
    ensures j.JObj?
  {
    JObj(map[
      "type" := Str("object"),
      "properties" := JObj(map[
        "artifactId" := TypeOnly("string"),
        "bucket" := TypeOnly("string"),
        "objects" := JObj(map[
          "type" := Str("object"),
          "properties" := JObj(map[
            "images" := JObj(map["type" := Str("array"), "items" := TypeOnly("string")]),
            "audio" := JObj(map["type" := JArr([Str("string"), Str("null")])])])])])])
  }

  /** prepare_assets' input schema. */
  function PrepareInputSchema(): (j: Json)
    ensures j.JObj?
  {
    JObj(map[
      "type" := Str("object"),
      "required" := JArr([Str("artifactId")]),
      "properties" := JObj(map[
        "artifactId" := TypeOnly("string"),
        "requestedKinds" := JObj(map["type" := Str("array"),
                                     "items" := JObj(map["type" := Str("string"), "enum" := JArr([Str("images"), Str("audio")])])]),
        "enrichments" := JObj(map["type" := Str("object"),
                                  "properties" := JObj(map["imageHashes" := TypeOnly("boolean"),
                                                           "audioDuration" := TypeOnly("boolean")])])])])
  }

  /** prepare_assets' output schema. */
  function PrepareOutputSchema(): (j: Json)
    ensures j.JObj?
  {
    JObj(map[
      "type" := Str("object"),
      "properties" := JObj(map[
        "artifactId" := TypeOnly("string"),
        "manifest" := JObj(map[
          "type" := Str("object"),
          "properties" := JObj(map[
            "images" := JObj(map["type" := Str("array"),
                                 "items" := JObj(map["type" := Str("object"),
                                                     "properties" := JObj(map["key" := TypeOnly("string"),
                                                                              "checksum" := TypeOnly("string"),
                                                                              "width" := TypeOnly("number"),
                                                                              "height" := TypeOnly("number")])])]),
            "audio" := JObj(map["type" := JArr([Str("object"), Str("null")]),
                                "properties" := JObj(map["key" := TypeOnly("string"),
                                                         "durationSeconds" := TypeOnly("number")])])])])])])
  }

  /** generate_script's input schema. */
  function ScriptInputSchema(): (j: Json)
    ensures j.JObj?
  {
    JObj(map[
      "type" := Str("object"),
      "required" := JArr([Str("prompt")]),
      "properties" := JObj(map[
        "prompt" := TypeOnly("string"),
        "tone" := JObj(map["type" := Str("string"),
                           "enum" := JArr([Str("casual"), Str("formal"), Str("playful"), Str("dramatic")])]),
        "length" := JObj(map["type" := Str("number"), "description" := Str("Desired narration length in seconds")]),
        "persona" := TypeOnly("string")])])
  }

  /** generate_script's output schema. */
  function ScriptOutputSchema(): (j: Json)
    ensures j.JObj?
  {
    JObj(map[
      "type" := Str("object"),
      "properties" := JObj(map["stagePrompt" := TypeOnly("string"), "narration" := TypeOnly("string"),
                               "tokensUsed" := TypeOnly("number")])])
  }

  /** What a definition documents rather than does: its description and its
      input and output JSON schemas. */
  datatype Docs = Docs(description: Json, input: Json, output: Json)

  /** The documentation of the three built-in definitions. */
  datatype Documentation = Documentation(upload: Docs, prepare: Docs, script: Docs)

  predicate DocsTyped(d: Docs)
  {
    d.description.JStr? && d.input.JObj? && d.output.JObj?
  }

  predicate DocumentationTyped(d: Documentation)
  {
    DocsTyped(d.upload) && DocsTyped(d.prepare) && DocsTyped(d.script)
  }

  /** upload_artifact's description and schemas. */
  function UploadDocs(): (d: Docs)
    ensures DocsTyped(d)
  {
    Docs(Str("Persists user-provided images (and optional audio) into MinIO as a versioned artifact."),
         UploadInputSchema(), UploadOutputSchema())
  }

  /** prepare_assets' description and schemas. */
  function PrepareDocs(): (d: Docs)
    ensures DocsTyped(d)
  {
    Docs(Str("Builds an asset manifest describing stored artifact contents (locations, checksums, media metadata)."),
         PrepareInputSchema(), PrepareOutputSchema())
  }

  /** generate_script's description and schemas. */
  function ScriptDocs(): (d: Docs)
    ensures DocsTyped(d)
  {
    Docs(Str("Transforms a user prompt into a stage description + narration using a local LLM and prompt template."),
         ScriptInputSchema(), ScriptOutputSchema())
  }

  /** The descriptions and schemas the module's definitions are written
      with. */
  function BuiltInDocumentation(): Documentation
  {
    Documentation(UploadDocs(), PrepareDocs(), ScriptDocs())
  }

  function UploadArgs(params: seq<Json>, docs: Docs): CapabilityArgs
  {
    CapabilityArgs(
      Some(Str("artifacts.upload_artifact")), Some(Str("Upload Artifact")), Some(docs.description),
      None, Some(Handler("services/artifacts.js", "uploadArtifact")),
      Some(docs.input), Some(docs.output),
      Some(JArr(params)), None, None, None,
      Some(JObj(map["emitsProgressEvents" := JBool(true), "metrics" := JArr([Str("minio_upload_bytes")]),
                    "sideEffects" := Str("persistent-storage-write")])))
  }

  function PrepareArgs(docs: Docs): CapabilityArgs
  {
    CapabilityArgs(
      Some(Str("artifacts.prepare_assets")), Some(Str("Prepare Assets")), Some(docs.description),
      None, Some(Handler("services/artifacts.js", "prepareAssets")),
      Some(docs.input), Some(docs.output),
      None, None, None, None,
      Some(JObj(map["emitsProgressEvents" := JBool(false), "idempotent" := JBool(true),
                    "metrics" := JArr([Str("asset_manifest_latency_ms")])])))
  }

  function ScriptArgs(params: seq<Json>, docs: Docs): CapabilityArgs
  {
    CapabilityArgs(
      Some(Str("llm.generate_script")), Some(Str("Generate Script")), Some(docs.description),
      None, Some(Handler("services/scriptGenerator.js", "generateScript")),
      Some(docs.input), Some(docs.output),
      Some(JArr(params)), None, None, None,
      Some(JObj(map["emitsProgressEvents" := JBool(false), "metrics" := JArr([Str("llm_tokens_total")]),
                    "idempotent" := JBool(false)])))
  }

  /** upload_artifact: its parameters, then the definition. */
  function UploadDefinition(docs: Docs): (r: Result<NodeCapability, CapabilityFault>)
    ensures r.Ok? ==> r.value.id == Str("artifacts.upload_artifact")
  {
    match Parameters(UploadParameterArgs())
    case Err(e) => Err(e)
    case Ok(ps) => DefineNodeCapability(UploadArgs(ParamsJson(ps), docs))
  }

  /** prepare_assets, which has no parameters. */
  function PrepareDefinition(docs: Docs): (r: Result<NodeCapability, CapabilityFault>)
    ensures r.Ok? ==> r.value.id == Str("artifacts.prepare_assets")
  {
    DefineNodeCapability(PrepareArgs(docs))
  }

  /** generate_script: its parameters, then the definition. */
  function ScriptDefinition(docs: Docs): (r: Result<NodeCapability, CapabilityFault>)
    ensures r.Ok? ==> r.value.id == Str("llm.generate_script")
  {
    match Parameters(ScriptParameterArgs())
    case Err(e) => Err(e)
    case Ok(ps) => DefineNodeCapability(ScriptArgs(ParamsJson(ps), docs))
  }

  /** The module's `capabilityDefinitions`: the array literal's elements
      built in order, the first builder that throws aborting the module's
      load. */
  function Definitions(docs: Documentation): (r: Result<seq<NodeCapability>, CapabilityFault>)
    ensures r.Ok? ==> |r.value| == 3
    ensures r.Err? ==> UploadDefinition(docs.upload).Err? || PrepareDefinition(docs.prepare).Err? || ScriptDefinition(docs.script).Err?
  {
    match UploadDefinition(docs.upload)
    case Err(e) => Err(e)
    case Ok(c1) =>
      match PrepareDefinition(docs.prepare)
      case Err(e) => Err(e)
      case Ok(c2) =>
        match ScriptDefinition(docs.script)
        case Err(e) => Err(e)
        case Ok(c3) => Ok([c1, c2, c3])
  }

  /** upload_artifact's parameters are built and meet the schema. */
  lemma UploadParametersBuilt()
    ensures Parameters(UploadParameterArgs()).Ok?
    ensures CapabilitySchema.AllParameters(ParamsJson(Parameters(UploadParameterArgs()).value))
  {
    ParameterListMeetsSchema(UploadParameterArgs());
  }

  /** generate_script's parameters are built and meet the schema. */
  lemma ScriptParametersBuilt()
    ensures Parameters(ScriptParameterArgs()).Ok?
    ensures CapabilitySchema.AllParameters(ParamsJson(Parameters(ScriptParameterArgs()).value))
  {
    ParameterListMeetsSchema(ScriptParameterArgs());
  }

  lemma UploadArgsBuilt(ps: seq<Json>, docs: Docs)
    requires CapabilitySchema.AllParameters(ps) && DocsTyped(docs)
    ensures DefineNodeCapability(UploadArgs(ps, docs)).Ok?
    ensures Typed(DefineNodeCapability(UploadArgs(ps, docs)).value)
    ensures DefineNodeCapability(UploadArgs(ps, docs)).value.id == Str("artifacts.upload_artifact")
  {
    BuiltIsTyped(UploadArgs(ps, docs));
  }

  lemma ScriptArgsBuilt(ps: seq<Json>, docs: Docs)
    requires CapabilitySchema.AllParameters(ps) && DocsTyped(docs)
    ensures DefineNodeCapability(ScriptArgs(ps, docs)).Ok?
    ensures Typed(DefineNodeCapability(ScriptArgs(ps, docs)).value)
    ensures DefineNodeCapability(ScriptArgs(ps, docs)).value.id == Str("llm.generate_script")
  {
    BuiltIsTyped(ScriptArgs(ps, docs));
  }

  /** upload_artifact is built, of the schema's field types, under its id. */
  lemma UploadBuilt(docs: Docs)
    requires DocsTyped(docs)
    ensures UploadDefinition(docs).Ok? && Typed(UploadDefinition(docs).value)
    ensures UploadDefinition(docs).value.id == Str("artifacts.upload_artifact")
  {
    UploadParametersBuilt();
    UploadArgsBuilt(ParamsJson(Parameters(UploadParameterArgs()).value), docs);
  }

  /** prepare_assets is built, of the schema's field types, under its id. */
  lemma PrepareBuilt(docs: Docs)
    requires DocsTyped(docs)
    ensures PrepareDefinition(docs).Ok? && Typed(PrepareDefinition(docs).value)
    ensures PrepareDefinition(docs).value.id == Str("artifacts.prepare_assets")
  {
    BuiltIsTyped(PrepareArgs(docs));
  }

  /** generate_script is built, of the schema's field types, under its id. */
  lemma ScriptBuilt(docs: Docs)
    requires DocsTyped(docs)
    ensures ScriptDefinition(docs).Ok? && Typed(ScriptDefinition(docs).value)
    ensures ScriptDefinition(docs).value.id == Str("llm.generate_script")
  {
    ScriptParametersBuilt();
    ScriptArgsBuilt(ParamsJson(Parameters(ScriptParameterArgs()).value), docs);
  }

  /** The module loads whatever its descriptions and schemas say, as long as
      they are a string and objects: three definitions, upload_artifact,
      prepare_assets and generate_script in that order, each of the schema's
      field types. */
  lemma DefinitionsLoad(docs: Documentation)
    requires DocumentationTyped(docs)
    ensures Definitions(docs).Ok? && |Definitions(docs).value| == 3
    ensures var ds := Definitions(docs).value;
      && ds[0].id == Str("artifacts.upload_artifact") && Typed(ds[0])
      && ds[1].id == Str("artifacts.prepare_assets") && Typed(ds[1])
      && ds[2].id == Str("llm.generate_script") && Typed(ds[2])
  {
    UploadBuilt(docs.upload);
    PrepareBuilt(docs.prepare);
    ScriptBuilt(docs.script);
  }

  /** No two definitions share an id. */
  predicate DistinctIds(ds: seq<NodeCapability>)
  {
    forall i, j :: 0 <= i < j < |ds| ==> ds[i].id != ds[j].id
  }

  /** `r` maps exactly the ids of `defs`, each to the last definition in
      `defs` with that id. */
  ghost predicate IndexesLast(defs: seq<NodeCapability>, r: map<Json, NodeCapability>)
  {
    && (forall k :: k in r <==> exists i :: 0 <= i < |defs| && defs[i].id == k)
    && (forall k :: k in r ==> exists i :: 0 <= i < |defs| && defs[i] == r[k] && defs[i].id == k
                                && forall j :: i < j < |defs| ==> defs[j].id != k)
  }

  /** `new Map(defs.map(c => [c.id, c]))`: every id maps to the last
      definition that has it, a later one replacing an earlier one. */
  function IdIndex(defs: seq<NodeCapability>): (r: map<Json, NodeCapability>)
    ensures IndexesLast(defs, r)
    decreases |defs|
  {
    if defs == [] then map[]
    else
      var init := IdIndex(defs[..|defs| - 1]);
      IndexSnoc(defs, init);
      init[defs[|defs| - 1].id := defs[|defs| - 1]]
  }

  /** Setting the last definition over the index of the others indexes
      the whole list. */
  lemma IndexSnoc(defs: seq<NodeCapability>, init: map<Json, NodeCapability>)
    requires defs != [] && IndexesLast(defs[..|defs| - 1], init)
    ensures IndexesLast(defs, init[defs[|defs| - 1].id := defs[|defs| - 1]])
  {
    var n := |defs|;
    var d := defs[n - 1];
    var r := init[d.id := d];
    forall k ensures k in r <==> exists i :: 0 <= i < n && defs[i].id == k {
      SnocHas(defs, init, k);
    }
    forall k | k in r ensures exists i :: 0 <= i < n && defs[i] == r[k] && defs[i].id == k
                                && forall j :: i < j < n ==> defs[j].id != k {
      SnocLast(defs, init, k);
    }
  }

  lemma SnocHas(defs: seq<NodeCapability>, init: map<Json, NodeCapability>, k: Json)
    requires defs != [] && IndexesLast(defs[..|defs| - 1], init)
    ensures k in init[defs[|defs| - 1].id := defs[|defs| - 1]] <==> exists i :: 0 <= i < |defs| && defs[i].id == k
  {
    var n := |defs|;
    var p := defs[..n - 1];
    if k == defs[n - 1].id {
      assert defs[n - 1].id == k;
    } else if k in init {
      var i :| 0 <= i < |p| && p[i].id == k;
      assert defs[i].id == k;
    } else {
      forall i | 0 <= i < n ensures defs[i].id != k {
        if i < n - 1 {
          assert p[i] == defs[i];
        }
      }
    }
  }

  lemma SnocLast(defs: seq<NodeCapability>, init: map<Json, NodeCapability>, k: Json)
    requires defs != [] && IndexesLast(defs[..|defs| - 1], init)
    requires k in init[defs[|defs| - 1].id := defs[|defs| - 1]]
    ensures var r := init[defs[|defs| - 1].id := defs[|defs| - 1]];
      exists i :: 0 <= i < |defs| && defs[i] == r[k] && defs[i].id == k && forall j :: i < j < |defs| ==> defs[j].id != k
  {
    var n := |defs|;
    var p := defs[..n - 1];
    var r := init[defs[n - 1].id := defs[n - 1]];
    if k == defs[n - 1].id {
      assert defs[n - 1] == r[k];
    } else {
      var i :| 0 <= i < |p| && p[i] == init[k] && p[i].id == k && forall j :: i < j < |p| ==> p[j].id != k;
      assert defs[i] == r[k];
      forall j | i < j < n ensures defs[j].id != k {
        if j < n - 1 {
          assert p[j] == defs[j];
        }
      }
    }
  }

  /** Definitions as the JSON the manifest lists. */
  function CapabilitiesJson(ds: seq<NodeCapability>): (r: seq<Json>)
    ensures |r| == |ds| && forall i :: 0 <= i < |ds| ==> r[i] == ds[i].ToJson()
  {
    seq(|ds|, i requires 0 <= i < |ds| => ds[i].ToJson())
  }

  /** The module's state once loaded: `capabilityDefinitions`, from which
      `registry` is built. */
  datatype Catalogue = Catalogue(definitions: seq<NodeCapability>)
  {
    /** `getCapability`: the definition registered under that id, None
        (`null`) when there is none. */
    function GetCapability(capabilityId: string): (r: Option<NodeCapability>)
      ensures r.None? <==> forall i :: 0 <= i < |definitions| ==> definitions[i].id != JStr(capabilityId)
      ensures r.Some? ==> exists i :: 0 <= i < |definitions| && definitions[i] == r.value && r.value.id == JStr(capabilityId)
                                      && forall j :: i < j < |definitions| ==> definitions[j].id != JStr(capabilityId)
    {
      var registry := IdIndex(definitions);
      if JStr(capabilityId) in registry then Some(registry[JStr(capabilityId)]) else None
    }

    /** `listNodeCapabilities`: a copy of the definitions, in order (a
        sequence is a value, so no caller can change the module's list
        through it). */
    function ListNodeCapabilities(): (r: seq<NodeCapability>)
      ensures |r| == |definitions| && forall i :: 0 <= i < |r| ==> r[i] == definitions[i]
    {
      definitions[..]
    }

    /** `getCapabilitiesManifest`, the clock reading passed in: the node
        plane and every definition as JSON. */
    function Manifest(generatedAt: string): (r: Json)
      ensures r.JObj? && r.fields.Keys == {"generatedAt", "plane", "capabilities"}
      ensures r.fields["plane"] == JStr("node") && r.fields["generatedAt"] == JStr(generatedAt)
      ensures r.fields["capabilities"] == JArr(CapabilitiesJson(definitions))
    {
      JObj(map["generatedAt" := JStr(generatedAt), "plane" := JStr("node"),
               "capabilities" := JArr(CapabilitiesJson(ListNodeCapabilities()))])
    }
  }

  /** With distinct ids, getCapability gives back each definition by its
      own id. */
  lemma GetCapabilityFinds(c: Catalogue, i: nat)
    requires DistinctIds(c.definitions) && i < |c.definitions| && c.definitions[i].id.JStr?
    ensures c.GetCapability(c.definitions[i].id.s) == Some(c.definitions[i])
  {
    var ds := c.definitions;
    var r := c.GetCapability(ds[i].id.s);
    var k :| 0 <= k < |ds| && ds[k] == r.value && r.value.id == ds[i].id
             && forall j :: k < j < |ds| ==> ds[j].id != ds[i].id;
    assert k == i;
  }

  /** A manifest of well-typed definitions passes the capability manifest
      schema entry by entry, each on the node plane. */
  lemma ManifestValid(c: Catalogue, generatedAt: string)
    requires AllTyped(c.definitions)
    ensures var caps := c.Manifest(generatedAt).fields["capabilities"].items;
      forall i :: 0 <= i < |caps| ==> CapabilitySchema.ValidCapability(caps[i]) && caps[i].fields["plane"] == JStr("node")
  {
    var caps := CapabilitiesJson(c.definitions);
    forall i | 0 <= i < |caps| ensures CapabilitySchema.ValidCapability(caps[i]) {
      TypedIsValid(c.definitions[i]);
    }
  }

  /** The module's load: the catalogue, or the builder error that aborted
      it. */
  function LoadCatalogue(docs: Documentation): Result<Catalogue, CapabilityFault>
  {
    match Definitions(docs)
    case Err(e) => Err(e)
    case Ok(ds) => Ok(Catalogue(ds))
  }

  /** The module as written. */
  function ModuleCatalogue(): Result<Catalogue, CapabilityFault>
  {
    LoadCatalogue(BuiltInDocumentation())
  }

  /** upload_artifact, prepare_assets and generate_script, in that order. */
  predicate BuiltInIds(ds: seq<NodeCapability>)
  {
    && |ds| == 3
    && ds[0].id == Str("artifacts.upload_artifact")
    && ds[1].id == Str("artifacts.prepare_assets")
    && ds[2].id == Str("llm.generate_script")
  }

  /** The three built-in ids are different strings. */
  lemma BuiltInIdsDistinct(ds: seq<NodeCapability>)
    requires BuiltInIds(ds)
    ensures DistinctIds(ds)
  {
    assert "artifacts.upload_artifact"[10] == 'u' && "artifacts.prepare_assets"[10] == 'p';
    assert "llm.generate_script"[0] == 'l';
  }

  /** Every definition is of the schema's field types. */
  predicate AllTyped(ds: seq<NodeCapability>)
  {
    forall i :: 0 <= i < |ds| ==> Typed(ds[i])
  }

  lemma ThreeTyped(ds: seq<NodeCapability>)
    requires |ds| == 3 && Typed(ds[0]) && Typed(ds[1]) && Typed(ds[2])
    ensures AllTyped(ds)
  {
  }

  /** With string descriptions and object schemas the module loads the
      three built-in definitions, with distinct ids, each of the schema's
      field types. */
  lemma CatalogueLoads(docs: Documentation)
    requires DocumentationTyped(docs)
    ensures LoadCatalogue(docs).Ok?
    ensures var ds := LoadCatalogue(docs).value.definitions;
      BuiltInIds(ds) && DistinctIds(ds) && AllTyped(ds)
  {
    DefinitionsLoad(docs);
    var ds := Definitions(docs).value;
    BuiltInIdsDistinct(ds);
    ThreeTyped(ds);
  }

  /** A catalogue of the built-in ids finds each of them, and nothing for
      any other id. */
  lemma BuiltInLookups(c: Catalogue, capabilityId: string)
    requires BuiltInIds(c.definitions)
    ensures c.GetCapability("artifacts.upload_artifact") == Some(c.definitions[0])
    ensures c.GetCapability("artifacts.prepare_assets") == Some(c.definitions[1])
    ensures c.GetCapability("llm.generate_script") == Some(c.definitions[2])
    ensures capabilityId !in {"artifacts.upload_artifact", "artifacts.prepare_assets", "llm.generate_script"}
            ==> c.GetCapability(capabilityId).None?
  {
    BuiltInIdsDistinct(c.definitions);
    GetCapabilityFinds(c, 0);
    GetCapabilityFinds(c, 1);
    GetCapabilityFinds(c, 2);
  }
}
