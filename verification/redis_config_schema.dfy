/** The Redis bridge configuration schema: the generated checker (validate30),
    as a predicate and as the checker's loops. */
module RedisConfigSchema {
  import opened Json
  import opened SchemaChecks

  const TopKeys: set<string> := {"url", "streams", "channels", "jobs", "planning"}
  const UrlPrefix: string := "redis://"

  /** A line terminator, which `.` in a JavaScript regular expression does not
      match. */
  predicate LineTerminator(c: char)
  {
    c == '\n' || c == '\r' || c == ' ' || c == ' '
  }

  /** `/^redis:\/\/.+/u.test(s)`: the prefix, then at least one character that
      is not a line terminator. */
  predicate MatchesUrlPattern(s: string)
  {
    |s| > |UrlPrefix| && s[..|UrlPrefix|] == UrlPrefix && !LineTerminator(s[|UrlPrefix|])
  }

  /** An object with exactly the string properties `keys`. */
  predicate ExactStringObject(j: Json, keys: set<string>)
  {
    j.JObj? && keys <= j.fields.Keys && j.fields.Keys <= keys
    && forall k :: k in keys ==> j.fields[k].JStr?
  }

  predicate ValidJobs(j: Json)
  {
    j.JObj? && "ttl" in j.fields && j.fields.Keys <= {"ttl"}
    && IsInteger(j.fields["ttl"]) && j.fields["ttl"].n >= 1.0
  }

  /** planning: only pipelines, an object with string PROCESS and FIXED and
      any further keys. */
  predicate ValidPlanning(j: Json)
  {
    j.JObj? && "pipelines" in j.fields && j.fields.Keys <= {"pipelines"}
    && var p := j.fields["pipelines"];
    p.JObj? && "PROCESS" in p.fields && "FIXED" in p.fields
    && p.fields["PROCESS"].JStr? && p.fields["FIXED"].JStr?
  }

  /** The bridge configuration schema. */
  predicate ValidConfig(j: Json)
  {
    j.JObj? &&
    var m := j.fields;
    && {"url", "streams", "channels", "jobs"} <= m.Keys
    && m.Keys <= TopKeys
    && m["url"].JStr? && MatchesUrlPattern(m["url"].s)
    && ExactStringObject(m["streams"], {"control", "data"})
    && ExactStringObject(m["channels"], {"progress", "status", "data"})
    && ValidJobs(m["jobs"])
    && ("planning" in m ==> ValidPlanning(m["planning"]))
  }

  /** The required-keys, key-loop and string checks of a closed sub-object. */
  method CheckExactStrings(j: Json, keys: seq<string>) returns (ok: bool)
    ensures ok <==> ExactStringObject(j, set k | k in keys)
  {
    if !j.JObj? {
      return false;
    }
    var i := 0;
    while i < |keys|
      invariant 0 <= i <= |keys|
      invariant forall n :: 0 <= n < i ==> keys[n] in j.fields
    {
      if keys[i] !in j.fields {
        return false;
      }
      i := i + 1;
    }
    ok := CheckKeys(j.fields, set k | k in keys);
    if !ok {
      return false;
    }
    i := 0;
    while i < |keys|
      invariant 0 <= i <= |keys|
      invariant forall n :: 0 <= n < i ==> j.fields[keys[n]].JStr?
    {
      if !j.fields[keys[i]].JStr? {
        return false;
      }
      i := i + 1;
    }
    return true;
  }

  /** validate30 of the Redis configuration checker. */
  method Validate(data: Json) returns (ok: bool)
    ensures ok <==> ValidConfig(data)
  {
    if !data.JObj? {
      return false;
    }
    var m := data.fields;
    if !("url" in m && "streams" in m && "channels" in m && "jobs" in m) {
      return false;
    }
    ok := CheckKeys(m, TopKeys);
    if !ok {
      return false;
    }
    if !m["url"].JStr? || !MatchesUrlPattern(m["url"].s) {
      return false;
    }
    ok := CheckExactStrings(m["streams"], ["control", "data"]);
    assert (set k | k in ["control", "data"]) == {"control", "data"};
    if !ok {
      return false;
    }
    ok := CheckExactStrings(m["channels"], ["progress", "status", "data"]);
    assert (set k | k in ["progress", "status", "data"]) == {"progress", "status", "data"};
    if !ok {
      return false;
    }
    var jobs := m["jobs"];
    if !jobs.JObj? || "ttl" !in jobs.fields {
      return false;
    }
    ok := CheckKeys(jobs.fields, {"ttl"});
    if !ok || !ValidJobs(jobs) {
      return false;
    }
    if "planning" in m {
      var p := m["planning"];
      if !p.JObj? || "pipelines" !in p.fields {
        return false;
      }
      ok := CheckKeys(p.fields, {"pipelines"});
      if !ok {
        return false;
      }
      return ValidPlanning(p);
    }
    return true;
  }

  /** A configuration naming a stream other than control and data (the job
      queue reads streams.info and streams.process) is rejected. */
  lemma ExtraStreamRejected(j: Json, k: string)
    requires j.JObj? && "streams" in j.fields && j.fields["streams"].JObj?
    requires k in j.fields["streams"].fields && k != "control" && k != "data"
    ensures !ValidConfig(j)
  {
  }

  /** A jobs section with any key besides ttl (the job queue reads
      jobs.available) is rejected. */
  lemma ExtraJobsKeyRejected(j: Json, k: string)
    requires j.JObj? && "jobs" in j.fields && j.fields["jobs"].JObj?
    requires k in j.fields["jobs"].fields && k != "ttl"
    ensures !ValidConfig(j)
  {
  }

  /** The url test accepts "redis://" followed by any non-terminator and
      rejects the bare prefix. */
  lemma UrlPatternExamples()
    ensures MatchesUrlPattern("redis://redis:6379")
    ensures !MatchesUrlPattern("redis://")
    ensures !MatchesUrlPattern("redis://\nhost")
    ensures !MatchesUrlPattern("rediss://host")
  {
    assert "redis://redis:6379"[..8] == UrlPrefix;
    assert "rediss://host"[..8] != UrlPrefix by { assert "rediss://host"[6] != UrlPrefix[6]; }
  }
}
