/** The worker plane's capability registry (worker/src/worker/registry.py):
    an insertion-ordered dictionary of manifests keyed by id, and the four
    manifests the module registers when it is imported. */
module Registry {
  import opened Wrappers
  import opened Json

  const CapabilityVersion := "2025.02.0"

  datatype RuntimeKind = Cpu | Gpu

  datatype Plane = NodePlane | PythonPlane

  function PlaneName(p: Plane): string
  {
    match p
    case NodePlane => "node"
    case PythonPlane => "python"
  }

  /** The fields of a manifest the registry and its population set: id,
      label, plane, runtime and handler, with the model's defaults for plane
      and version. */
  datatype CapabilityManifest = CapabilityManifest(
    id: string, caption: string, version: string, plane: Plane,
    kind: RuntimeKind, timeoutSeconds: int, concurrency: int,
    handlerModule: string, handlerMethod: string)

  /** `register`'s ValueError. */
  datatype RegistryError = MissingId

  /** A Python dict of manifests: its keys in insertion order and its
      entries. Assigning to an existing key keeps the key's position. */
  datatype Items = Items(keys: seq<string>, entries: map<string, CapabilityManifest>)
  {
    ghost predicate Valid()
    {
      && (forall k :: k in entries <==> k in keys)
      && (forall i, j :: 0 <= i < j < |keys| ==> keys[i] != keys[j])
    }

    /** `d[k] = v` */
    function Put(k: string, v: CapabilityManifest): (r: Items)
      requires Valid()
      ensures r.Valid()
      ensures r.entries == entries[k := v]
      ensures k in entries ==> r.keys == keys
      ensures k !in entries ==> r.keys == keys + [k]
    {
      if k in entries then Items(keys, entries[k := v]) else Items(keys + [k], entries[k := v])
    }

    /** `list(d.values())`: the entries in key order. */
    function Values(): (r: seq<CapabilityManifest>)
      requires Valid()
      ensures |r| == |keys| && forall i :: 0 <= i < |keys| ==> r[i] == entries[keys[i]]
    {
      seq(|keys|, i requires 0 <= i < |keys| => entries[keys[i]])
    }
  }

  function NoItems(): (r: Items)
    ensures r.Valid() && r.keys == []
  {
    Items([], map[])
  }

  /** `register` on a dictionary state: the new state, or MissingId for a
      manifest whose id is empty (falsy). */
  function RegisterOne(d: Items, m: CapabilityManifest): (r: Result<Items, RegistryError>)
    requires d.Valid()
    ensures r.Err? <==> m.id == ""
    ensures r.Ok? ==> r.value.Valid() && r.value == d.Put(m.id, m)
  {
    if m.id == "" then Err(MissingId) else Ok(d.Put(m.id, m))
  }

  /** `bulk_register` on a dictionary state: the manifests registered in
      order, stopping at the first one without an id; those before it stay
      registered. */
  function RegisterAll(d: Items, ms: seq<CapabilityManifest>): (r: (Items, Option<RegistryError>))
    requires d.Valid()
    ensures r.0.Valid()
    ensures r.1.None? <==> forall i :: 0 <= i < |ms| ==> ms[i].id != ""
    decreases |ms|
  {
    if ms == [] then (d, None)
    else if ms[0].id == "" then (d, Some(MissingId))
    else RegisterAll(d.Put(ms[0].id, ms[0]), ms[1..])
  }

  /** Index `i` holds the last manifest in `ms` with its id. */
  predicate LastWithId(ms: seq<CapabilityManifest>, i: int)
  {
    0 <= i < |ms| && forall j :: i < j < |ms| ==> ms[j].id != ms[i].id
  }

  /** Registering manifests with ids one after another keeps, under each id,
      the last manifest that has it. */
  lemma {:induction false} RegisterAllLastWins(d: Items, ms: seq<CapabilityManifest>)
    requires d.Valid()
    requires forall i :: 0 <= i < |ms| ==> ms[i].id != ""
    ensures var r := RegisterAll(d, ms).0;
      forall i :: LastWithId(ms, i) ==> ms[i].id in r.entries && r.entries[ms[i].id] == ms[i]
    decreases |ms|
  {
    if ms != [] {
      var d1 := d.Put(ms[0].id, ms[0]);
      RegisterAllLastWins(d1, ms[1..]);
      var r := RegisterAll(d1, ms[1..]).0;
      forall i | LastWithId(ms, i) ensures ms[i].id in r.entries && r.entries[ms[i].id] == ms[i] {
        if i > 0 {
          assert LastWithId(ms[1..], i - 1);
        } else {
          RegisterAllKeeps(d1, ms[1..], ms[0].id);
        }
      }
    }
  }

  /** An id none of the manifests has keeps its old entry, or its absence. */
  lemma {:induction false} RegisterAllKeeps(d: Items, ms: seq<CapabilityManifest>, k: string)
    requires d.Valid()
    requires forall i :: 0 <= i < |ms| ==> ms[i].id != k
    ensures var r := RegisterAll(d, ms).0;
      (k in r.entries <==> k in d.entries) && (k in d.entries ==> r.entries[k] == d.entries[k])
    decreases |ms|
  {
    if ms != [] && ms[0].id != "" {
      assert ms[0].id != k;
      forall i | 0 <= i < |ms[1..]| ensures ms[1..][i].id != k {
        assert ms[1..][i] == ms[i + 1];
      }
      RegisterAllKeeps(d.Put(ms[0].id, ms[0]), ms[1..], k);
    }
  }

  /** The ids of a list of manifests. */
  function IdsOf(ms: seq<CapabilityManifest>): (r: seq<string>)
    ensures |r| == |ms|
    decreases |ms|
  {
    if ms == [] then [] else [ms[0].id] + IdsOf(ms[1..])
  }

  /** Every manifest has a non-empty id that the dictionary does not hold. */
  predicate AllNew(d: Items, ms: seq<CapabilityManifest>)
  {
    forall i :: 0 <= i < |ms| ==> ms[i].id != "" && ms[i].id !in d.entries
  }

  /** No manifest has id `k`. */
  predicate NoneWithId(ms: seq<CapabilityManifest>, k: string)
  {
    forall i :: 0 <= i < |ms| ==> ms[i].id != k
  }

  /** No two manifests share an id. */
  predicate DistinctIds(ms: seq<CapabilityManifest>)
    decreases |ms|
  {
    ms == [] || (NoneWithId(ms[1..], ms[0].id) && DistinctIds(ms[1..]))
  }

  /** Manifests with new, distinct, non-empty ids are all registered, and
      their ids follow the old keys in list order. */
  lemma {:induction false} RegisterAllFresh(d: Items, ms: seq<CapabilityManifest>)
    requires d.Valid() && AllNew(d, ms) && DistinctIds(ms)
    ensures RegisterAll(d, ms).0.keys == d.keys + IdsOf(ms)
    decreases |ms|
  {
    if ms != [] {
      var d1 := d.Put(ms[0].id, ms[0]);
      FreshTail(d, ms);
      RegisterAllFresh(d1, ms[1..]);
      FreshStep(d, ms);
    }
  }

  /** One step of RegisterAllFresh: the first manifest is put, and its id
      moves from the list of ids to the end of the keys. */
  lemma FreshStep(d: Items, ms: seq<CapabilityManifest>)
    requires d.Valid() && ms != [] && ms[0].id != "" && ms[0].id !in d.entries
    ensures RegisterAll(d, ms) == RegisterAll(d.Put(ms[0].id, ms[0]), ms[1..])
    ensures d.Put(ms[0].id, ms[0]).keys + IdsOf(ms[1..]) == d.keys + IdsOf(ms)
  {
    assert IdsOf(ms) == [ms[0].id] + IdsOf(ms[1..]);
    assert (d.keys + [ms[0].id]) + IdsOf(ms[1..]) == d.keys + ([ms[0].id] + IdsOf(ms[1..]));
  }

  /** The step of RegisterAllFresh: after the first manifest is put, the
      rest are still new and distinct. */
  lemma FreshTail(d: Items, ms: seq<CapabilityManifest>)
    requires d.Valid() && AllNew(d, ms) && DistinctIds(ms) && ms != []
    ensures AllNew(d.Put(ms[0].id, ms[0]), ms[1..]) && DistinctIds(ms[1..])
  {
    var d1 := d.Put(ms[0].id, ms[0]);
    forall i | 0 <= i < |ms[1..]| ensures ms[1..][i].id != "" && ms[1..][i].id !in d1.entries {
      assert ms[1..][i] == ms[i + 1];
    }
  }

  /** The registry object; `_items` is the dictionary. */
  class CapabilityRegistry {
    var items: Items

    constructor ()
      ensures items == NoItems()
    {
      items := NoItems();
    }

    /** `register`: stores the manifest under its id, replacing any earlier
        one, and returns it; ValueError when the id is empty. */
    method Register(manifest: CapabilityManifest) returns (r: Result<CapabilityManifest, RegistryError>)
      requires items.Valid()
      modifies this
      ensures items.Valid()
      ensures manifest.id == "" ==> r == Err(MissingId) && items == old(items)
      ensures manifest.id != "" ==> r == Ok(manifest) && items == old(items).Put(manifest.id, manifest)
    {
      if manifest.id == "" {
        return Err(MissingId);
      }
      items := items.Put(manifest.id, manifest);
      return Ok(manifest);
    }

    /** `bulk_register`: `register` for each manifest in order; the
        ValueError of the first manifest without an id propagates. */
    method BulkRegister(manifests: seq<CapabilityManifest>) returns (error: Option<RegistryError>)
      requires items.Valid()
      modifies this
      ensures items.Valid()
      ensures (items, error) == RegisterAll(old(items), manifests)
    {
      var i := 0;
      while i < |manifests|
        invariant 0 <= i <= |manifests| && items.Valid()
        invariant RegisterAll(old(items), manifests) == RegisterAll(items, manifests[i..])
      {
        assert manifests[i..][0] == manifests[i] && manifests[i..][1..] == manifests[i + 1..];
        var r := Register(manifests[i]);
        if r.Err? {
          return Some(r.error);
        }
        i := i + 1;
      }
      return None;
    }

    /** `list`: the manifests in registration order, as a new list. */
    function List(): (r: seq<CapabilityManifest>)
      requires items.Valid()
      reads this
      ensures |r| == |items.keys|
      ensures forall m :: m in r <==> exists k :: k in items.entries && items.entries[k] == m
    {
      items.Values()
    }

    /** `get`: the manifest registered under the id, None when there is
        none. */
    function Get(capabilityId: string): (r: Option<CapabilityManifest>)
      reads this
      ensures r.Some? <==> capabilityId in items.entries
      ensures r.Some? ==> r.value == items.entries[capabilityId]
    {
      if capabilityId in items.entries then Some(items.entries[capabilityId]) else None
    }

    /** `clear` */
    method Clear()
      modifies this
      ensures items == NoItems()
    {
      items := NoItems();
    }

    /** `manifest_payload`, with the clock reading and pydantic's dump of a
        manifest passed in: the python plane and one entry per registered
        manifest, in order. */
    function ManifestPayload(generatedAt: string, dump: CapabilityManifest -> Json): (r: Json)
      requires items.Valid()
      reads this
      ensures r.JObj? && r.fields.Keys == {"generatedAt", "plane", "capabilities"}
      ensures r.fields["plane"] == JStr("python") && r.fields["generatedAt"] == JStr(generatedAt)
      ensures r.fields["capabilities"].JArr? && |r.fields["capabilities"].items| == |items.keys|
      ensures forall i :: 0 <= i < |items.keys| ==> r.fields["capabilities"].items[i] == dump(items.entries[items.keys[i]])
    {
      var caps := List();
      JObj(map["generatedAt" := JStr(generatedAt), "plane" := JStr(PlaneName(PythonPlane)),
               "capabilities" := JArr(seq(|caps|, i requires 0 <= i < |caps| => dump(caps[i])))])
    }
  }

  /** A manifest on the python plane at the current version. */
  function Manifest(id: string, caption: string, kind: RuntimeKind, timeoutSeconds: int, concurrency: int,
                    handlerMethod: string): CapabilityManifest
  {
    CapabilityManifest(id, caption, CapabilityVersion, PythonPlane, kind, timeoutSeconds, concurrency,
                       "worker.tasks", handlerMethod)
  }

  /** `PYTHON_CAPABILITIES` */
  function PythonCapabilities(): seq<CapabilityManifest>
  {
    [Manifest("python.train_lora", "Train LoRA", Gpu, 1800, 1, "train_lora"),
     Manifest("python.train_voice", "Train Voice", Gpu, 2400, 1, "train_voice"),
     Manifest("python.render_video", "Render Video", Gpu, 900, 1, "render_video"),
     Manifest("python.get_capabilities", "Get Worker Capabilities", Gpu, 60, 2, "get_capabilities")]
  }

  /** The module's import: the global registry, populated with
      PYTHON_CAPABILITIES. */
  method LoadModule() returns (registry: CapabilityRegistry)
    ensures fresh(registry) && registry.items.Valid()
    ensures registry.items == RegisterAll(NoItems(), PythonCapabilities()).0
  {
    registry := new CapabilityRegistry();
    var error := registry.BulkRegister(PythonCapabilities());
  }

  /** After the import exactly the four python capabilities are registered,
      in list order, each under its own id. */
  lemma PythonCapabilitiesRegistered()
    ensures var d := RegisterAll(NoItems(), PythonCapabilities());
      && d.1.None?
      && d.0.keys == ["python.train_lora", "python.train_voice", "python.render_video", "python.get_capabilities"]
      && forall i :: 0 <= i < |PythonCapabilities()| ==> PythonCapabilities()[i].id in d.0.entries && d.0.entries[PythonCapabilities()[i].id] == PythonCapabilities()[i]
  {
    PythonIds();
    DistinctRegistered(PythonCapabilities());
  }

  /** The ids of PYTHON_CAPABILITIES are non-empty and pairwise different. */
  lemma PythonIds()
    ensures IdsOf(PythonCapabilities()) == ["python.train_lora", "python.train_voice", "python.render_video", "python.get_capabilities"]
    ensures AllNew(NoItems(), PythonCapabilities()) && DistinctIds(PythonCapabilities())
  {
    var ms := PythonCapabilities();
    assert |ms[0].id| == 17 && |ms[1].id| == 18 && |ms[2].id| == 19 && |ms[3].id| == 23;
    assert DistinctIds(ms[3..]);
    assert DistinctIds(ms[2..]) by { assert ms[2..][1..] == ms[3..]; }
    assert DistinctIds(ms[1..]) by { assert ms[1..][1..] == ms[2..]; }
    assert ms[1..] == ms[1..][..];
  }

  /** Into an empty dictionary, manifests with distinct non-empty ids are
      all registered, keyed in list order, each under its own id. */
  lemma DistinctRegistered(ms: seq<CapabilityManifest>)
    requires AllNew(NoItems(), ms) && DistinctIds(ms)
    ensures var d := RegisterAll(NoItems(), ms);
      && d.1.None?
      && d.0.keys == IdsOf(ms)
      && forall i :: 0 <= i < |ms| ==> ms[i].id in d.0.entries && d.0.entries[ms[i].id] == ms[i]
  {
    RegisterAllFresh(NoItems(), ms);
    RegisterAllLastWins(NoItems(), ms);
    forall i | 0 <= i < |ms| ensures LastWithId(ms, i) {
      DistinctLast(ms, i);
    }
  }

  /** With distinct ids, every index is the last with its id. */
  lemma {:induction false} DistinctLast(ms: seq<CapabilityManifest>, i: int)
    requires DistinctIds(ms) && 0 <= i < |ms|
    ensures LastWithId(ms, i)
    decreases |ms|
  {
    if i > 0 {
      DistinctLast(ms[1..], i - 1);
      assert LastWithId(ms[1..], i - 1);
      forall j | i < j < |ms| ensures ms[j].id != ms[i].id {
        assert ms[1..][j - 1] == ms[j] && ms[1..][i - 1] == ms[i];
      }
    } else {
      forall j | 0 < j < |ms| ensures ms[j].id != ms[0].id {
        assert ms[1..][j - 1] == ms[j];
      }
    }
  }
}
