/** The control plane's job queue: jobs enqueued on Redis streams, job state
    kept in `job:<id>` keys, worker updates received on pattern subscriptions
    and persisted into those keys. The two Redis connections are flags that
    the operations set and clear; the server they talk to is a
    RedisStore.Server. */
module JobQueue {
  import opened Wrappers
  import opened Json
  import opened Strings
  import RedisStore

  const StatusProperty: string := "status"
  const ProgressProperty: string := "progress"
  const DataProperty: string := "data"

  /** What the queue throws: no database connection, a job name with no
      stream, and JOB_NOT_FOUND. */
  datatype QueueFault = ConnectionUnavailable | UnknownJob(name: string) | JobNotFound(jobId: string)

  /** `jobDbKey`: `job:<id>`, or `job:<id>:<sub>` for a non-empty sub-key. */
  function JobDbKey(jobId: string, sub: Option<string>): (r: string)
    ensures sub.Some? && sub.value != "" ==> r == "job:" + jobId + ":" + sub.value
    ensures sub.None? || sub.value == "" ==> r == "job:" + jobId
  {
    if sub.Some? && sub.value != "" then "job:" + jobId + ":" + sub.value else "job:" + jobId
  }

  /** The property and job id a pmessage channel names:
      `message.split(":")` gives `[_, property, jobId]`, a missing piece
      being undefined (a job id then reads as "undefined"). */
  function MessageAddress(message: string): (r: (Option<string>, string))
    ensures r.0.Some? ==> !HasChar(r.0.value, ':')
    ensures !HasChar(r.1, ':')
    ensures !HasChar(message, ':') ==> r == (None, "undefined")
  {
    var parts := Split(message, ':');
    assert !HasChar(message, ':') ==> parts == [message] by {
      if !HasChar(message, ':') { SplitNoSep(message, ':'); }
    }
    (if |parts| >= 2 then Some(parts[1]) else None, if |parts| >= 3 then parts[2] else "undefined")
  }

  /** The patterns the subscriber listens on: each channel base followed by
      ":*". */
  function Subscriptions(channels: seq<string>): set<string>
  {
    set p | p in channels :: p + ":*"
  }

  /** What getJobState reads. */
  datatype JobState = JobState(jobId: string, status: Option<string>, progress: JsNumber)

  /** `getJobState` against a server state: JOB_NOT_FOUND for an empty id,
      no connection when the database client was never created, the status
      and the progress as a number otherwise. */
  function StateOf(jobId: string, dbOpen: bool, s: RedisStore.State): Result<JobState, QueueFault>
  {
    if jobId == "" then Err(JobNotFound(jobId))
    else if !dbOpen then Err(ConnectionUnavailable)
    else
      var status := JobDbKey(jobId, Some(StatusProperty));
      var progress := JobDbKey(jobId, Some(ProgressProperty));
      Ok(JobState(jobId, if status in s.strings then Some(s.strings[status]) else None,
                  NumberOf(if progress in s.strings then Some(s.strings[progress]) else None)))
  }

  predicate Completed(jobId: string, dbOpen: bool, s: RedisStore.State)
  {
    var st := StateOf(jobId, dbOpen, s);
    st.Ok? && st.value.status == Some("completed")
  }

  /** What getJobResult resolves to when the server goes through the states
      `ticks`, one per poll: the data key at the first poll that reads
      "completed", or None while it is still waiting. */
  function ResultAfter(jobId: string, dbOpen: bool, ticks: seq<RedisStore.State>): Option<Option<string>>
  {
    if ticks == [] then None
    else if Completed(jobId, dbOpen, ticks[0]) then
      var k := JobDbKey(jobId, Some(DataProperty));
      Some(if k in ticks[0].strings then Some(ticks[0].strings[k]) else None)
    else ResultAfter(jobId, dbOpen, ticks[1..])
  }

  /** The writes of enqueueJob: the stream entry, then the job hash, status
      and progress keys, each given the expiry. */
  function Enqueued(s: RedisStore.State, stream: string, entryId: string, jobId: string, name: string,
                    created: string, payload: string, ttl: int): RedisStore.State
  {
    var hash := JobDbKey(jobId, None);
    var status := JobDbKey(jobId, Some(StatusProperty));
    var progress := JobDbKey(jobId, Some(ProgressProperty));
    var entry := RedisStore.Entry(entryId, [("jobId", jobId), ("name", name), ("created", created), ("input", payload)]);
    s.(streams := s.streams[stream := RedisStore.StreamOf(s, stream) + [entry]],
       hashes := s.hashes[hash := (if hash in s.hashes then s.hashes[hash] else map[])
                                  + map["name" := name, "input" := payload, "created" := created]],
       strings := s.strings[status := "advertised"][progress := "0"],
       ttl := s.ttl[hash := ttl][status := ttl][progress := ttl])
  }

  class JobQueue {
    const ttl: int
    const job2Stream: map<string, string>
    const channels: seq<string>
    const server: RedisStore.Server
    var dbOpen: bool
    var subscriberOpen: bool
    var subscriptions: set<string>

    /** The job names map to "<info>:data" and "<process>:data"; no
        connection exists yet. */
    constructor (jobTtl: int, infoRoot: string, processRoot: string, getCapabilitiesJob: string,
                 processGraphJob: string, channelBases: seq<string>, redis: RedisStore.Server)
      ensures ttl == jobTtl && channels == channelBases && server == redis
      ensures job2Stream == map[getCapabilitiesJob := infoRoot + ":data"][processGraphJob := processRoot + ":data"]
      ensures !dbOpen && !subscriberOpen && subscriptions == {}
    {
      ttl := jobTtl;
      job2Stream := map[getCapabilitiesJob := infoRoot + ":data"][processGraphJob := processRoot + ":data"];
      channels := channelBases;
      server := redis;
      dbOpen := false;
      subscriberOpen := false;
      subscriptions := {};
    }

    /** `ensurePubSubLine`: opens the subscriber once, listening on every
        channel base followed by ":*". */
    method EnsurePubSubLine()
      modifies this
      ensures subscriberOpen && dbOpen == old(dbOpen)
      ensures subscriptions == if old(subscriberOpen) then old(subscriptions) else Subscriptions(channels)
    {
      if !subscriberOpen {
        subscriberOpen := true;
        subscriptions := Subscriptions(channels);
      }
    }

    /** `persistMessage`: the value under `job:<id>:<property>`, with the
        expiry refreshed. `text` is the client's conversion of a value to a
        command argument. */
    method PersistMessage(jobId: string, property: Option<string>, value: Option<Json>, text: Option<Json> -> string)
      modifies this, server
      ensures dbOpen && subscriberOpen == old(subscriberOpen) && subscriptions == old(subscriptions)
      ensures var k := JobDbKey(jobId, property);
        server.state == old(server.state).(strings := old(server.state).strings[k := text(value)],
                                           ttl := old(server.state).ttl[k := ttl])
    {
      dbOpen := true;
      var k := JobDbKey(jobId, property);
      server.Set(k, text(value));
      server.Expire(k, ttl);
    }

    /** The pmessage handler: the payload's entry for the property the
        channel names, persisted for the job it names. A payload that does
        not parse, or parses to null, is logged and nothing is written. */
    method OnMessage(codec: Codec, text: Option<Json> -> string, message: string, payload: string)
      modifies this, server
      ensures var (property, jobId) := MessageAddress(message);
        var parsed := codec.parse(payload);
        if parsed.None? || parsed.value == JNull then server.state == old(server.state) && dbOpen == old(dbOpen)
        else
          var k := JobDbKey(jobId, property);
          var v := Get(parsed.value, if property.Some? then property.value else "undefined");
          server.state == old(server.state).(strings := old(server.state).strings[k := text(v)],
                                             ttl := old(server.state).ttl[k := ttl])
      ensures subscriberOpen == old(subscriberOpen) && subscriptions == old(subscriptions)
    {
      var (property, jobId) := MessageAddress(message);
      var parsed := codec.parse(payload);
      if parsed.None? || parsed.value == JNull {
        return;
      }
      PersistMessage(jobId, property, Get(parsed.value, if property.Some? then property.value else "undefined"), text);
    }

    /** `enqueueJob`: opens both connections, rejects a job name with no
        stream before writing anything, and otherwise writes the stream
        entry and the job keys. The job id, the timestamp and the stream
        entry id are the caller's. */
    method EnqueueJob(codec: Codec, name: string, input: Option<Json>, jobId: string, created: string, entryId: string)
      returns (r: Result<string, QueueFault>)
      modifies this, server
      ensures dbOpen && subscriberOpen
      ensures subscriptions == if old(subscriberOpen) then old(subscriptions) else Subscriptions(channels)
      ensures name !in job2Stream ==> r == Err(UnknownJob(name)) && server.state == old(server.state)
      ensures name in job2Stream ==>
        && r == Ok(jobId)
        && server.state == Enqueued(old(server.state), job2Stream[name], entryId, jobId, name, created,
                                    codec.stringify(Nullish(input, JObj(map[]))), ttl)
    {
      dbOpen := true;
      EnsurePubSubLine();
      if name !in job2Stream {
        return Err(UnknownJob(name));
      }
      var stream := job2Stream[name];
      var payload := codec.stringify(Nullish(input, JObj(map[])));
      server.XAdd(stream, entryId, [("jobId", jobId), ("name", name), ("created", created), ("input", payload)]);
      var hash := JobDbKey(jobId, None);
      var status := JobDbKey(jobId, Some(StatusProperty));
      var progress := JobDbKey(jobId, Some(ProgressProperty));
      server.HSet(hash, map["name" := name, "input" := payload, "created" := created]);
      server.Set(status, "advertised");
      server.Set(progress, "0");
      server.Expire(hash, ttl);
      server.Expire(status, ttl);
      server.Expire(progress, ttl);
      return Ok(jobId);
    }

    /** `getJobState`: reads only. */
    method GetJobState(jobId: string) returns (r: Result<JobState, QueueFault>)
      ensures r == StateOf(jobId, dbOpen, server.state)
    {
      if jobId == "" {
        return Err(JobNotFound(jobId));
      }
      if !dbOpen {
        return Err(ConnectionUnavailable);
      }
      var status := server.Get(JobDbKey(jobId, Some(StatusProperty)));
      var progress := server.Get(JobDbKey(jobId, Some(ProgressProperty)));
      return Ok(JobState(jobId, status, NumberOf(progress)));
    }

    /** `getJobResult` over the server states `ticks` its interval timer
        sees: it polls getJobState until the status reads "completed" and
        then reads the data key. A poll that throws (an empty id, no
        connection) is an unhandled rejection inside the timer, and the
        not-found comparison is between two distinct objects, so in those
        cases it keeps waiting; None means it has not resolved. */
    method GetJobResult(jobId: string, ticks: seq<RedisStore.State>) returns (r: Option<Option<string>>)
      ensures r == ResultAfter(jobId, dbOpen, ticks)
    {
      var i := 0;
      while i < |ticks|
        invariant 0 <= i <= |ticks|
        invariant ResultAfter(jobId, dbOpen, ticks) == ResultAfter(jobId, dbOpen, ticks[i..])
      {
        var st := StateOf(jobId, dbOpen, ticks[i]);
        if st.Ok? && st.value.status == Some("completed") {
          var k := JobDbKey(jobId, Some(DataProperty));
          return Some(if k in ticks[i].strings then Some(ticks[i].strings[k]) else None);
        }
        assert ticks[i..][1..] == ticks[i + 1..];
        i := i + 1;
      }
      return None;
    }

    /** `freeResources`: unsubscribes the bare channel bases, closes the
        subscriber and then the database connection. */
    method FreeResources()
      modifies this
      ensures !dbOpen && !subscriberOpen
      ensures subscriptions == if old(subscriberOpen) then {} else old(subscriptions)
      ensures server.state == old(server.state)
    {
      if subscriberOpen {
        // the bare bases are unsubscribed, then quitting drops the rest
        subscriberOpen := false;
        subscriptions := {};
      }
      if dbOpen {
        dbOpen := false;
      }
    }
  }

  /** The key layout: the job hash and its three property keys, all
      distinct. */
  lemma KeyLayout(jobId: string)
    ensures JobDbKey(jobId, None) == "job:" + jobId
    ensures JobDbKey(jobId, Some(StatusProperty)) == "job:" + jobId + ":status"
    ensures JobDbKey(jobId, Some(ProgressProperty)) == "job:" + jobId + ":progress"
    ensures JobDbKey(jobId, Some(DataProperty)) == "job:" + jobId + ":data"
    ensures var h, s, p, d := "job:" + jobId, "job:" + jobId + ":status", "job:" + jobId + ":progress", "job:" + jobId + ":data";
      h != s && h != p && h != d && s != p && s != d && p != d
  {
    var pre := "job:" + jobId + ":";
    assert "job:" + jobId + ":status" == pre + "status";
    assert "job:" + jobId + ":progress" == pre + "progress";
    assert "job:" + jobId + ":data" == pre + "data";
    assert (pre + "status")[|pre|] == 's';
    assert (pre + "progress")[|pre|] == 'p';
    assert (pre + "data")[|pre|] == 'd';
    assert (pre + "progress")[|pre| + 1] == 'r';
  }

  /** Unsubscribing the bare channel bases removes none of the subscribed
      patterns, as long as no base itself ends in ":*". */
  lemma UnsubscribeMissesPatterns(channels: seq<string>)
    requires forall p :: p in channels ==> !(|p| >= 2 && p[|p| - 2..] == ":*")
    ensures Subscriptions(channels) - (set p | p in channels) == Subscriptions(channels)
  {
    forall q | q in Subscriptions(channels) ensures q !in (set p | p in channels) {
      var p :| p in channels && q == p + ":*";
      assert q[|q| - 2..] == ":*";
    }
  }

  /** A message on `<prefix>:<property>:<jobId>` names that property and
      job id when none of the three contains ':'. */
  lemma AddressOfChannel(prefix: string, property: string, jobId: string)
    requires !HasChar(prefix, ':') && !HasChar(property, ':') && !HasChar(jobId, ':')
    ensures MessageAddress(prefix + ":" + property + ":" + jobId) == (Some(property), jobId)
  {
    SplitJoin([prefix, property, jobId], ':');
    assert Join([prefix, property, jobId], ':') == prefix + ":" + property + ":" + jobId by {
      assert Join([jobId], ':') == jobId;
      assert Join([property, jobId], ':') == property + ":" + jobId;
    }
  }

  /** A job id that itself contains ':' is cut at its first ':'. */
  lemma AddressTruncatesJobId(prefix: string, property: string, a: string, b: string)
    requires !HasChar(prefix, ':') && !HasChar(property, ':') && !HasChar(a, ':') && !HasChar(b, ':')
    ensures MessageAddress(prefix + ":" + property + ":" + a + ":" + b) == (Some(property), a)
  {
    SplitJoin([prefix, property, a, b], ':');
    assert Join([prefix, property, a, b], ':') == prefix + ":" + property + ":" + a + ":" + b by {
      assert Join([b], ':') == b;
      assert Join([a, b], ':') == a + ":" + b;
      assert Join([property, a, b], ':') == property + ":" + a + ":" + b;
    }
  }

  /** What enqueueJob leaves behind: one more entry on the stream carrying
      jobId, name, created and the input, the job hash holding name, input
      and created, status "advertised", progress "0", and the expiry on all
      three keys. */
  lemma EnqueuedMeaning(s: RedisStore.State, stream: string, entryId: string, jobId: string, name: string,
                        created: string, payload: string, ttl: int)
    ensures var t := Enqueued(s, stream, entryId, jobId, name, created, payload, ttl);
      var hash, status, progress := JobDbKey(jobId, None), JobDbKey(jobId, Some(StatusProperty)), JobDbKey(jobId, Some(ProgressProperty));
      && RedisStore.StreamOf(t, stream) == RedisStore.StreamOf(s, stream)
           + [RedisStore.Entry(entryId, [("jobId", jobId), ("name", name), ("created", created), ("input", payload)])]
      && (forall other :: other != stream ==> RedisStore.StreamOf(t, other) == RedisStore.StreamOf(s, other))
      && t.hashes[hash]["name"] == name && t.hashes[hash]["input"] == payload && t.hashes[hash]["created"] == created
      && t.strings[status] == "advertised" && t.strings[progress] == "0"
      && t.ttl[hash] == ttl && t.ttl[status] == ttl && t.ttl[progress] == ttl
      && t.published == s.published && t.cursor == s.cursor && t.pending == s.pending
  {
    KeyLayout(jobId);
  }

  /** After enqueueJob, getJobState reads the job as advertised with
      progress 0. */
  lemma EnqueuedState(s: RedisStore.State, stream: string, entryId: string, jobId: string, name: string,
                      created: string, payload: string, ttl: int)
    requires jobId != ""
    ensures StateOf(jobId, true, Enqueued(s, stream, entryId, jobId, name, created, payload, ttl))
      == Ok(JobState(jobId, Some("advertised"), Finite(0.0)))
  {
    KeyLayout(jobId);
    assert ParseNumber("0") == Finite(0.0) by {
      assert AllDigits("0");
      assert DigitsValue("0") == 0;
    }
  }

  /** getJobResult resolves only at a poll that reads "completed", with the
      data key as that poll finds it; with an empty job id or no database
      connection it never resolves. */
  lemma {:induction false} ResultOnlyWhenCompleted(jobId: string, dbOpen: bool, ticks: seq<RedisStore.State>)
    ensures ResultAfter(jobId, dbOpen, ticks).Some? <==> exists i :: 0 <= i < |ticks| && Completed(jobId, dbOpen, ticks[i])
    ensures jobId == "" || !dbOpen ==> ResultAfter(jobId, dbOpen, ticks).None?
    decreases |ticks|
  {
    if ticks != [] {
      ResultOnlyWhenCompleted(jobId, dbOpen, ticks[1..]);
      if exists i :: 0 <= i < |ticks| && Completed(jobId, dbOpen, ticks[i]) {
        var i :| 0 <= i < |ticks| && Completed(jobId, dbOpen, ticks[i]);
        if i > 0 {
          assert Completed(jobId, dbOpen, ticks[1..][i - 1]);
        }
      }
      if exists i :: 0 <= i < |ticks[1..]| && Completed(jobId, dbOpen, ticks[1..][i]) {
        var i :| 0 <= i < |ticks[1..]| && Completed(jobId, dbOpen, ticks[1..][i]);
        assert Completed(jobId, dbOpen, ticks[i + 1]);
      }
    }
  }

  /** A missing progress key reads as 0. */
  lemma MissingProgressReadsZero(jobId: string, s: RedisStore.State)
    requires jobId != "" && "job:" + jobId + ":progress" !in s.strings
    ensures StateOf(jobId, true, s).Ok? && StateOf(jobId, true, s).value.progress == Finite(0.0)
  {
    KeyLayout(jobId);
  }
}
