/** The worker's configuration (worker/src/worker/config.py): `_deep_merge`
    of two JSON dictionaries, and the order in which `get_config` merges the
    application file, the storage section built from the environment and the
    bridge file. File contents and the environment are parameters. */
module WorkerConfig {
  import opened Wrappers
  import opened Json
  import Strings

  /** The value `_deep_merge` leaves under a key of `b`: both sides dicts
      merge recursively, otherwise `b`'s value replaces `a`'s. */
  function MergedValue(a: map<string, Json>, b: map<string, Json>, k: string): Json
    requires k in b
    decreases JObj(b), 0
  {
    if k in a && a[k].JObj? && b[k].JObj? then JObj(DeepMerge(a[k].fields, b[k].fields)) else b[k]
  }

  /** `_deep_merge(cfga, cfgb)` as a value: a copy of `a` in which each key
      of `b` has been written with its merged value. The keys of `b` are
      written independently of each other, so the order of `cfgb.items()`
      does not matter. */
  function DeepMerge(a: map<string, Json>, b: map<string, Json>): (r: map<string, Json>)
    ensures r.Keys == a.Keys + b.Keys
    decreases JObj(b), 1
  {
    map k | k in a.Keys + b.Keys :: if k in b then MergedValue(a, b, k) else a[k]
  }

  /** `a` with the keys in `done` (all of them keys of `b`) already written,
      as the loop leaves it after visiting them. */
  function MergedOn(a: map<string, Json>, b: map<string, Json>, done: set<string>): (r: map<string, Json>)
    requires done <= b.Keys
    ensures r.Keys == a.Keys + done
  {
    map k | k in a.Keys + done :: if k in done then MergedValue(a, b, k) else a[k]
  }

  /** The loop of `_deep_merge`: starts from a copy of `a` (a map value, so
      `a` itself is never modified) and writes each key of `b`, recursing
      where both sides are dicts. */
  method DeepMergeLoop(a: map<string, Json>, b: map<string, Json>) returns (result: map<string, Json>)
    ensures result == DeepMerge(a, b)
    decreases JObj(b)
  {
    result := a;
    var todo := b.Keys;
    while todo != {}
      invariant todo <= b.Keys
      invariant result == MergedOn(a, b, b.Keys - todo)
      decreases |todo|
    {
      var key :| key in todo;
      var value := b[key];
      if key in result && result[key].JObj? && value.JObj? {
        assert result[key] == a[key];
        var inner := DeepMergeLoop(result[key].fields, value.fields);
        result := result[key := JObj(inner)];
      } else {
        result := result[key := value];
      }
      todo := todo - {key};
    }
    assert b.Keys - todo == b.Keys;
  }

  /** A key only in `a` keeps `a`'s value; a key of `b` takes `b`'s value
      unless both values are dicts, which are merged. */
  lemma MergeCases(a: map<string, Json>, b: map<string, Json>, k: string)
    ensures k in a && k !in b ==> DeepMerge(a, b)[k] == a[k]
    ensures k in b && !(k in a && a[k].JObj? && b[k].JObj?) ==> DeepMerge(a, b)[k] == b[k]
    ensures k in a && k in b && a[k].JObj? && b[k].JObj? ==>
      DeepMerge(a, b)[k] == JObj(DeepMerge(a[k].fields, b[k].fields))
  {
  }

  /** Merging nothing into `a` gives `a`; merging `b` into nothing gives
      `b`. */
  lemma MergeEmpty(a: map<string, Json>, b: map<string, Json>)
    ensures DeepMerge(a, map[]) == a
    ensures DeepMerge(map[], b) == b
  {
  }

  /** Merging a dictionary into itself changes nothing. */
  lemma {:induction false} MergeSelf(a: map<string, Json>)
    ensures DeepMerge(a, a) == a
    decreases JObj(a)
  {
    forall k | k in a ensures DeepMerge(a, a)[k] == a[k] {
      if a[k].JObj? {
        MergeSelf(a[k].fields);
      }
    }
  }

  /** Merging the same `b` a second time changes nothing. */
  lemma {:induction false} MergeIdempotent(a: map<string, Json>, b: map<string, Json>)
    ensures DeepMerge(DeepMerge(a, b), b) == DeepMerge(a, b)
    decreases JObj(b)
  {
    var m := DeepMerge(a, b);
    forall k | k in m ensures DeepMerge(m, b)[k] == m[k] {
      if k in b {
        if k in a && a[k].JObj? && b[k].JObj? {
          assert m[k] == JObj(DeepMerge(a[k].fields, b[k].fields));
          MergeIdempotent(a[k].fields, b[k].fields);
          assert DeepMerge(m, b)[k] == JObj(DeepMerge(m[k].fields, b[k].fields));
        } else {
          assert m[k] == b[k];
          if b[k].JObj? {
            MergeSelf(b[k].fields);
            assert DeepMerge(m, b)[k] == JObj(DeepMerge(b[k].fields, b[k].fields));
          }
        }
      }
    }
  }

  /** The value at a path of keys, None when a step is missing or not a
      dict. */
  function PathGet(m: map<string, Json>, path: seq<string>): (r: Option<Json>)
    requires path != []
    ensures r.Some? ==> path[0] in m
    decreases |path|
  {
    if path[0] !in m then None
    else if |path| == 1 then Some(m[path[0]])
    else if m[path[0]].JObj? then PathGet(m[path[0]].fields, path[1..])
    else None
  }

  /** Every leaf of `b` (a value that is not a dict) ends up in the merge at
      the same path: the later dictionary overrides the earlier one. */
  lemma {:induction false} LeafWins(a: map<string, Json>, b: map<string, Json>, path: seq<string>)
    requires path != [] && PathGet(b, path).Some? && !PathGet(b, path).value.JObj?
    ensures PathGet(DeepMerge(a, b), path) == PathGet(b, path)
    decreases |path|
  {
    var k := path[0];
    if |path| > 1 {
      if k in a && a[k].JObj? {
        LeafWins(a[k].fields, b[k].fields, path[1..]);
      }
    }
  }

  /** A path whose first key `b` does not have reads the same in the merge
      as in `a`. */
  lemma OutsideKept(a: map<string, Json>, b: map<string, Json>, path: seq<string>)
    requires path != [] && path[0] !in b
    ensures PathGet(DeepMerge(a, b), path) == PathGet(a, path)
  {
    var k := path[0];
    assert k in DeepMerge(a, b) <==> k in a;
    if k in a {
      assert DeepMerge(a, b)[k] == a[k];
    }
  }

  /** `os.getenv(name, default)` */
  function Getenv(env: map<string, string>, name: string, default: string): (r: string)
    ensures name in env ==> r == env[name]
    ensures name !in env ==> r == default
  {
    if name in env then env[name] else default
  }

  /** The bucket list: the comma-separated entries of MINIO_BUCKETS,
      stripped, the empty ones dropped. */
  function Buckets(entries: seq<string>): (r: seq<Json>)
    ensures forall i :: 0 <= i < |r| ==> r[i].JStr? && r[i].s != []
    ensures |r| <= |entries|
  {
    if entries == [] then []
    else
      var e := Strings.Strip(entries[0]);
      (if e != [] then [JStr(e)] else []) + Buckets(entries[1..])
  }

  /** The `storage` section built from the environment: the endpoint, the
      TLS flag (true for any casing of "true"), the non-empty bucket names and
      the credentials, each falling back to its default when unset. */
  function StorageSection(env: map<string, string>): (r: map<string, Json>)
    ensures r.Keys == {"url", "use_ssl", "buckets", "access_key", "secret_key"}
  {
    map["url" := JStr(Getenv(env, "MINIO_ENDPOINT", "http://minio:9000")),
        "use_ssl" := JBool(Strings.LowerAscii(Getenv(env, "MINIO_USE_SLL", "false")) == "true"),
        "buckets" := JArr(Buckets(Strings.Split(Getenv(env, "MINIO_BUCKETS", ""), ','))),
        "access_key" := JStr(Getenv(env, "MINIO_ACCESS_KEY", "admin")),
        "secret_key" := JStr(Getenv(env, "MINIO_SECRET_KEY", "password"))]
  }

  /** With no variable set the section holds the defaults: the MinIO
      endpoint, TLS off, no buckets, and the admin credentials. */
  lemma StorageDefaults()
    ensures StorageSection(map[]) ==
      map["url" := JStr("http://minio:9000"), "use_ssl" := JBool(false), "buckets" := JArr([]),
          "access_key" := JStr("admin"), "secret_key" := JStr("password")]
  {
    assert Strings.Split("", ',') == [""];
    assert Strings.Strip("") == "";
    assert Buckets([""]) == [];
    assert Strings.LowerAscii("false") == "false";
  }

  /** The TLS flag ignores case: "True" turns it on. */
  lemma StorageTlsAnyCase(env: map<string, string>)
    requires "MINIO_USE_SLL" in env && env["MINIO_USE_SLL"] == "True"
    ensures StorageSection(env)["use_ssl"] == JBool(true)
  {
    assert Getenv(env, "MINIO_USE_SLL", "false") == "True";
    assert Strings.LowerAscii("True") == "true";
    assert StorageSection(env)["use_ssl"] == JBool(Strings.LowerAscii(Getenv(env, "MINIO_USE_SLL", "false")) == "true");
  }

  /** The comfy section `update` writes: only the root directory,
      "/opt/comfyui" unless COMFYUI_ROOT_DIR is set. */
  function ComfySection(env: map<string, string>): (r: Json)
    ensures r.JObj? && r.fields.Keys == {"root_dir"}
    ensures "COMFYUI_ROOT_DIR" in env ==> r.fields["root_dir"] == JStr(env["COMFYUI_ROOT_DIR"])
    ensures "COMFYUI_ROOT_DIR" !in env ==> r.fields["root_dir"] == JStr("/opt/comfyui")
  {
    JObj(map["root_dir" := JStr(Getenv(env, "COMFYUI_ROOT_DIR", "/opt/comfyui"))])
  }

  /** The application dictionary merged with the storage section, then with
      the bridge section. */
  function MergeSections(app: map<string, Json>, storage: Json, bridge: Json): (r: map<string, Json>)
    ensures r.Keys == app.Keys + {"storage", "bridge"}
  {
    DeepMerge(DeepMerge(app, map["storage" := storage]), map["bridge" := bridge])
  }

  /** The dictionary `get_config` validates: the application file, its comfy
      key replaced by a shallow `update`, merged with the storage section and
      then with the bridge file; an application file that is not a dict fails
      on `update`. */
  function MergedConfig(appFile: Json, bridgeFile: Json, env: map<string, string>): (r: Option<map<string, Json>>)
    ensures r.Some? <==> appFile.JObj?
    ensures r.Some? ==> r.value.Keys == appFile.fields.Keys + {"comfy", "storage", "bridge"}
  {
    if !appFile.JObj? then None
    else Some(MergeSections(appFile.fields["comfy" := ComfySection(env)], JObj(StorageSection(env)), bridgeFile))
  }

  /** Keys other than storage and bridge keep the application's value: in
      particular the comfy section is the one from the environment. */
  lemma AppKept(app: map<string, Json>, storage: Json, bridge: Json, path: seq<string>)
    requires path != [] && path[0] != "storage" && path[0] != "bridge"
    ensures PathGet(MergeSections(app, storage, bridge), path) == PathGet(app, path)
  {
    OutsideKept(DeepMerge(app, map["storage" := storage]), map["bridge" := bridge], path);
    OutsideKept(app, map["storage" := storage], path);
  }

  /** Every leaf of the bridge file is in the configuration under bridge. */
  lemma BridgeWins(app: map<string, Json>, storage: Json, bridge: Json, path: seq<string>)
    requires path != [] && PathGet(map["bridge" := bridge], path).Some?
    requires !PathGet(map["bridge" := bridge], path).value.JObj?
    ensures PathGet(MergeSections(app, storage, bridge), path) == PathGet(map["bridge" := bridge], path)
  {
    LeafWins(DeepMerge(app, map["storage" := storage]), map["bridge" := bridge], path);
  }

  /** Every leaf of the storage section is in the configuration under
      storage: the bridge section, merged later, does not touch it. */
  lemma StorageWins(app: map<string, Json>, storage: Json, bridge: Json, path: seq<string>)
    requires path != [] && PathGet(map["storage" := storage], path).Some?
    requires !PathGet(map["storage" := storage], path).value.JObj?
    ensures PathGet(MergeSections(app, storage, bridge), path) == PathGet(map["storage" := storage], path)
  {
    LeafWins(app, map["storage" := storage], path);
    OutsideKept(DeepMerge(app, map["storage" := storage]), map["bridge" := bridge], path);
  }
}
