/** The worker's Redis bridge: the stream names it derives from the
    configuration, the consumer groups it creates, reading and acknowledging
    stream entries, and publishing updates on channels the control plane's
    job queue subscribes to. */
module Bridge {
  import opened Wrappers
  import opened Json
  import opened Strings
  import RedisStore
  import JobQueue

  /** The stream roots of the configuration; a missing or empty plan root
      is None. */
  datatype StreamRoots = StreamRoots(process: string, info: string, plan: Option<string>)

  /** The channel bases for each kind of update. */
  datatype Channels = Channels(progress: string, status: string, data: string)

  datatype StreamNames = StreamNames(processData: string, processControl: string, infoData: string,
                                     planData: Option<string>)

  /** The names `__init__` derives. */
  function DeriveStreams(roots: StreamRoots): (r: StreamNames)
    ensures r.processData == roots.process + ":data" && r.processControl == roots.process + ":control"
    ensures r.infoData == roots.info + ":data"
    ensures r.planData.Some? <==> roots.plan.Some? && roots.plan.value != ""
    ensures r.planData.Some? ==> r.planData.value == roots.plan.value + ":data"
  {
    StreamNames(roots.process + ":data", roots.process + ":control", roots.info + ":data",
                if roots.plan.Some? && roots.plan.value != "" then Some(roots.plan.value + ":data") else None)
  }

  /** `_managed_streams`: info data, process data and plan data, keeping
      only the names that are set and non-empty. */
  function ManagedStreams(n: StreamNames): seq<string>
  {
    SetNames([Some(n.infoData), Some(n.processData), n.planData])
  }

  /** The names of a list of candidates that are set and non-empty, in
      order. */
  function SetNames(cs: seq<Option<string>>): (r: seq<string>)
    ensures forall i :: 0 <= i < |r| ==> r[i] != ""
    ensures forall x :: x in r <==> Some(x) in cs && x != ""
  {
    if cs == [] then []
    else (if cs[0].Some? && cs[0].value != "" then [cs[0].value] else []) + SetNames(cs[1..])
  }

  /** A typed update and the job it is for. */
  datatype Update =
    | ProgressUpdate(jobId: string, progress: real)
    | StatusUpdate(jobId: string, status: string)
    | DataUpdate(jobId: string, data: Json)

  /** `publish_update`'s channel: the base for the update's type, then ":"
      and the job id. */
  function ChannelFor(ch: Channels, u: Update): (r: string)
  {
    (match u
     case ProgressUpdate(_, _) => ch.progress
     case StatusUpdate(_, _) => ch.status
     case DataUpdate(_, _) => ch.data) + ":" + u.jobId
  }

  /** A decoded entry as `_read_streams` returns it. */
  datatype Message = Message(stream: string, xid: string, fields: map<string, string>)

  /** Raised when a connection is needed and there is none. */
  datatype BridgeFault = NotConnected

  /** One group created on one stream, unless it exists. */
  function AddGroup(s: RedisStore.State, stream: string, group: string): RedisStore.State
  {
    if (stream, group) in s.cursor then s
    else s.(cursor := s.cursor[(stream, group) := 0], streams := s.streams[stream := RedisStore.StreamOf(s, stream)])
  }

  /** `_create_group`'s loop: the group on each stream in turn. */
  function WithGroups(s: RedisStore.State, streams: seq<string>, group: string): RedisStore.State
    decreases |streams|
  {
    if streams == [] then s else WithGroups(AddGroup(s, streams[0], group), streams[1..], group)
  }

  function Decode(stream: string, entries: seq<RedisStore.Entry>): (r: seq<Message>)
    ensures |r| == |entries|
  {
    seq(|entries|, i requires 0 <= i < |entries| => Message(stream, entries[i].id, RedisStore.FieldMap(entries[i].fields)))
  }

  predicate HasGroups(s: RedisStore.State, streams: seq<string>, group: string)
  {
    forall i :: 0 <= i < |streams| ==> (streams[i], group) in s.cursor
  }

  /** XREADGROUP over several streams: each stream's new entries, decoded,
      in stream order, and the state after. */
  function ReadAll(s: RedisStore.State, streams: seq<string>, group: string, count: nat): (seq<Message>, RedisStore.State)
    requires HasGroups(s, streams, group)
    decreases |streams|
  {
    if streams == [] then ([], s)
    else
      var (s1, entries) := RedisStore.GroupRead(s, streams[0], group, count);
      assert HasGroups(s1, streams[1..], group) by {
        forall i | 0 <= i < |streams[1..]| ensures (streams[1..][i], group) in s1.cursor {
          assert streams[1..][i] == streams[i + 1];
        }
      }
      var (rest, s2) := ReadAll(s1, streams[1..], group, count);
      (Decode(streams[0], entries) + rest, s2)
  }

  class RedisBridge {
    const group: string
    const consumer: string
    const ttl: int
    const names: StreamNames
    const managed: seq<string>
    const channels: Channels
    const server: RedisStore.Server
    var connected: bool

    /** `__init__`: the stream names, the managed streams and the consumer
        name, without a connection. */
    constructor (roots: StreamRoots, chans: Channels, jobTtl: int, groupName: string, taskName: Option<string>,
                 redis: RedisStore.Server)
      ensures names == DeriveStreams(roots) && managed == ManagedStreams(names)
      ensures group == groupName && channels == chans && ttl == jobTtl && server == redis
      ensures consumer == "consumer-" + (if taskName.Some? then taskName.value else "default")
      ensures !connected
    {
      group := groupName;
      consumer := "consumer-" + (if taskName.Some? then taskName.value else "default");
      ttl := jobTtl;
      names := DeriveStreams(roots);
      managed := ManagedStreams(DeriveStreams(roots));
      channels := chans;
      server := redis;
      connected := false;
    }

    /** `_create_group`: the group on every managed stream, an existing one
        (BUSYGROUP) skipped. */
    method CreateGroup() returns (r: Result<(), BridgeFault>)
      modifies server
      ensures !connected ==> r == Err(NotConnected) && server.state == old(server.state)
      ensures connected ==> r == Ok(()) && server.state == WithGroups(old(server.state), managed, group)
    {
      if !connected {
        return Err(NotConnected);
      }
      for i := 0 to |managed|
        invariant WithGroups(old(server.state), managed, group) == WithGroups(server.state, managed[i..], group)
      {
        assert managed[i..][1..] == managed[i + 1..];
        var _ := server.XGroupCreate(managed[i], group);
      }
      return Ok(());
    }

    /** `connect` */
    method Connect()
      modifies this, server
      ensures connected && server.state == WithGroups(old(server.state), managed, group)
    {
      connected := true;
      var _ := CreateGroup();
    }

    /** `_read_streams`: nothing when not connected, when given no streams or
        when the read fails (a stream without the group); otherwise every
        delivered entry, decoded. The streams are the keys of a dictionary,
        so they are distinct. */
    method ReadStreams(streams: seq<string>, count: nat) returns (results: seq<Message>)
      modifies server
      ensures !connected || streams == [] || !HasGroups(old(server.state), streams, group) ==>
        results == [] && server.state == old(server.state)
      ensures connected && streams != [] && HasGroups(old(server.state), streams, group) ==>
        results == ReadAll(old(server.state), streams, group, count).0 && server.state == ReadAll(old(server.state), streams, group, count).1
    {
      if !connected || streams == [] || !HasGroups(server.state, streams, group) {
        return [];
      }
      results := ReadGrouped(streams, count);
    }

    /** The read itself, once every stream has the group. */
    method ReadGrouped(streams: seq<string>, count: nat) returns (results: seq<Message>)
      requires HasGroups(server.state, streams, group)
      modifies server
      ensures results == ReadAll(old(server.state), streams, group, count).0
      ensures server.state == ReadAll(old(server.state), streams, group, count).1
    {
      results := [];
      for i := 0 to |streams|
        invariant HasGroups(server.state, streams[i..], group)
        invariant ReadAll(old(server.state), streams, group, count).0 == results + ReadAll(server.state, streams[i..], group, count).0
        invariant ReadAll(old(server.state), streams, group, count).1 == ReadAll(server.state, streams[i..], group, count).1
      {
        assert streams[i..][1..] == streams[i + 1..];
        results := ReadFirst(streams[i..], count, results);
      }
      assert streams[|streams|..] == [];
    }

    /** One pass of `_read_streams`'s loop over streams: the first stream's
        new entries read and appended, leaving the rest to read. */
    method ReadFirst(rest: seq<string>, count: nat, acc: seq<Message>) returns (results: seq<Message>)
      requires rest != [] && HasGroups(server.state, rest, group)
      modifies server
      ensures HasGroups(server.state, rest[1..], group)
      ensures results + ReadAll(server.state, rest[1..], group, count).0 == acc + ReadAll(old(server.state), rest, group, count).0
      ensures ReadAll(server.state, rest[1..], group, count).1 == ReadAll(old(server.state), rest, group, count).1
    {
      ghost var s0 := server.state;
      assert (rest[0], group) in s0.cursor;
      var entries := server.XReadGroup(rest[0], group, count);
      results := AppendDecoded(acc, rest[0], entries.value);
      ReadAllStep(s0, rest, group, count, acc);
    }

    /** The inner loop of `_read_streams`: each entry of one stream,
        decoded, appended to the results. */
    static method AppendDecoded(acc: seq<Message>, stream: string, batch: seq<RedisStore.Entry>) returns (results: seq<Message>)
      ensures results == acc + Decode(stream, batch)
    {
      results := acc;
      for j := 0 to |batch|
        invariant results == acc + Decode(stream, batch[..j])
      {
        results := results + [Message(stream, batch[j].id, RedisStore.FieldMap(batch[j].fields))];
      }
      assert batch[..|batch|] == batch;
    }

    /** `poll_job`: at most one entry from the process data stream. */
    method PollJob() returns (e: Option<Message>)
      modifies server
      ensures var read := if connected && HasGroups(old(server.state), [names.processData], group)
                          then ReadAll(old(server.state), [names.processData], group, 1).0 else [];
        e == if read == [] then None else Some(read[0])
    {
      var entries := ReadStreams([names.processData], 1);
      if |entries| > 0 {
        return Some(entries[0]);
      }
      return None;
    }

    /** `ack_job`: whether the entry was pending on the process data stream
        for this group, which it no longer is. */
    method AckJob(xid: string) returns (r: Result<bool, BridgeFault>)
      modifies server
      ensures !connected ==> r == Err(NotConnected) && server.state == old(server.state)
      ensures connected ==>
        && r == Ok((names.processData, group, xid) in old(server.state).pending)
        && server.state == old(server.state).(pending := old(server.state).pending - {(names.processData, group, xid)})
    {
      if !connected {
        return Err(NotConnected);
      }
      var acked := server.XAck(names.processData, group, xid);
      return Ok(acked > 0);
    }

    /** `set_job_payload`: the graph (a string as it is, anything else
        serialised) and a timestamp in the `job:<id>` hash, with the expiry
        set. */
    method SetJobPayload(codec: Codec, jobId: string, payload: Json, created: string) returns (r: Result<(), BridgeFault>)
      modifies server
      ensures !connected ==> r == Err(NotConnected) && server.state == old(server.state)
      ensures connected ==> (r == Ok(()) &&
        var k := "job:" + jobId;
        var before := if k in old(server.state).hashes then old(server.state).hashes[k] else map[];
        server.state == old(server.state).(hashes := old(server.state).hashes[k := before + map["graph" := Serialize(codec, payload), "created" := created]],
                                           ttl := old(server.state).ttl[k := ttl]))
    {
      if !connected {
        return Err(NotConnected);
      }
      var k := "job:" + jobId;
      server.HSet(k, map["graph" := Serialize(codec, payload), "created" := created]);
      server.Expire(k, ttl);
      return Ok(());
    }

    /** `enqueue_control_job`: one entry {jobId, created, graph} on the
        process control stream. */
    method EnqueueControlJob(codec: Codec, jobId: string, graph: Json, created: string, entryId: string)
      returns (r: Result<(), BridgeFault>)
      modifies server
      ensures !connected ==> r == Err(NotConnected) && server.state == old(server.state)
      ensures connected ==> (r == Ok(()) &&
        server.state == old(server.state).(streams := old(server.state).streams[names.processControl :=
          RedisStore.StreamOf(old(server.state), names.processControl)
          + [RedisStore.Entry(entryId, [("jobId", jobId), ("created", created), ("graph", Serialize(codec, graph))])]]))
    {
      if !connected {
        return Err(NotConnected);
      }
      server.XAdd(names.processControl, entryId, [("jobId", jobId), ("created", created), ("graph", Serialize(codec, graph))]);
      return Ok(());
    }

    /** `publish` */
    method Publish(channel: string, payload: string) returns (r: Result<(), BridgeFault>)
      modifies server
      ensures !connected ==> r == Err(NotConnected) && server.state == old(server.state)
      ensures connected ==> r == Ok(()) && server.state == old(server.state).(published := old(server.state).published + [(channel, payload)])
    {
      if !connected {
        return Err(NotConnected);
      }
      server.Publish(channel, payload);
      return Ok(());
    }

    /** `publish_update`: the update, serialised by `dump`, on its channel. */
    method PublishUpdate(u: Update, dump: Update -> string) returns (r: Result<(), BridgeFault>)
      modifies server
      ensures !connected ==> r == Err(NotConnected) && server.state == old(server.state)
      ensures connected ==> (r == Ok(()) &&
        server.state == old(server.state).(published := old(server.state).published + [(ChannelFor(channels, u), dump(u))]))
    {
      r := Publish(ChannelFor(channels, u), dump(u));
    }
  }

  /** A payload as the bridge stores it: a string as it is, any other value
      serialised. */
  function Serialize(codec: Codec, payload: Json): string
  {
    if payload.JStr? then payload.s else codec.stringify(payload)
  }

  /** The managed streams are info data, process data and, when a plan root
      is set, plan data, in that order; the control stream is never one of
      them. */
  lemma ManagedStreamsOrder(roots: StreamRoots)
    ensures var n := DeriveStreams(roots);
      && ManagedStreams(n) == [n.infoData, n.processData] + (if n.planData.Some? then [n.planData.value] else [])
      && n.processControl !in ManagedStreams(n)
  {
    var n := DeriveStreams(roots);
    var cs := [Some(n.infoData), Some(n.processData), n.planData];
    assert n.infoData[|n.infoData| - 1] == 'a' && n.processData[|n.processData| - 1] == 'a';
    assert cs[1..][1..][1..] == [];
    assert SetNames(cs[1..][1..]) == (if n.planData.Some? then [n.planData.value] else []);
    assert SetNames(cs[1..]) == [n.processData] + SetNames(cs[1..][1..]);
    assert n.processControl != n.infoData && n.processControl != n.processData by {
      ControlIsNotData(roots.process, roots.info);
      ControlIsNotData(roots.process, roots.process);
    }
    if n.planData.Some? {
      ControlIsNotData(roots.process, roots.plan.value);
    }
  }

  /** A name ending in ":control" is no name ending in ":data". */
  lemma ControlIsNotData(a: string, b: string)
    ensures a + ":control" != b + ":data"
  {
    var x, y := a + ":control", b + ":data";
    assert x[|x| - 1] == 'l';
    assert y[|y| - 1] == 'a';
  }

  /** After `_create_group`, every managed stream has the group; groups on
      other streams, and other groups, are as they were. */
  lemma {:induction false} GroupsCreated(s: RedisStore.State, streams: seq<string>, group: string)
    ensures var t := WithGroups(s, streams, group);
      && (forall i :: 0 <= i < |streams| ==> (streams[i], group) in t.cursor)
      && (forall k :: k in s.cursor ==> k in t.cursor && t.cursor[k] == s.cursor[k])
      && (forall k :: k in t.cursor && k !in s.cursor ==> k.1 == group && k.0 in streams && t.cursor[k] == 0)
      && t.pending == s.pending && t.published == s.published
    decreases |streams|
  {
    if streams != [] {
      var s1 := AddGroup(s, streams[0], group);
      GroupsCreated(s1, streams[1..], group);
      forall i | 0 <= i < |streams| ensures (streams[i], group) in WithGroups(s, streams, group).cursor {
        if i > 0 {
          assert streams[1..][i - 1] == streams[i];
        }
      }
    }
  }

  /** One step of ReadAll: the first stream's entries, then the rest read
      from the state after it. */
  lemma ReadAllFirst(s: RedisStore.State, streams: seq<string>, group: string, count: nat)
    requires HasGroups(s, streams, group) && streams != []
    ensures HasGroups(RedisStore.GroupRead(s, streams[0], group, count).0, streams[1..], group)
    ensures ReadAll(s, streams, group, count).0
      == Decode(streams[0], RedisStore.GroupRead(s, streams[0], group, count).1) + ReadAll(RedisStore.GroupRead(s, streams[0], group, count).0, streams[1..], group, count).0
    ensures ReadAll(s, streams, group, count).1 == ReadAll(RedisStore.GroupRead(s, streams[0], group, count).0, streams[1..], group, count).1
  {
  }

  /** ReadFirst's step: reading the first stream and appending what it
      held leaves the rest of the read to do. */
  lemma ReadAllStep(s: RedisStore.State, streams: seq<string>, group: string, count: nat, acc: seq<Message>)
    requires HasGroups(s, streams, group) && streams != []
    ensures var next := RedisStore.GroupRead(s, streams[0], group, count);
      && HasGroups(next.0, streams[1..], group)
      && acc + Decode(streams[0], next.1) + ReadAll(next.0, streams[1..], group, count).0 == acc + ReadAll(s, streams, group, count).0
      && ReadAll(next.0, streams[1..], group, count).1 == ReadAll(s, streams, group, count).1
  {
    ReadAllFirst(s, streams, group, count);
    var next := RedisStore.GroupRead(s, streams[0], group, count);
    AppendAssoc(acc, Decode(streams[0], next.1), ReadAll(next.0, streams[1..], group, count).0);
  }

  lemma AppendAssoc(a: seq<Message>, b: seq<Message>, c: seq<Message>)
    ensures a + b + c == a + (b + c)
  {
  }

  /** poll_job asks for one entry and so returns at most one. */
  lemma PollReadsOne(s: RedisStore.State, stream: string, group: string)
    requires (stream, group) in s.cursor
    ensures |ReadAll(s, [stream], group, 1).0| <= 1
  {
    var (s1, entries) := RedisStore.GroupRead(s, stream, group, 1);
    assert ReadAll(s1, [stream][1..], group, 1).0 == [];
  }

  /** An update published on a base "<prefix>:<kind>" reaches the job queue
      as that kind and job id, when neither the pieces nor the job id
      contain ':'. */
  lemma UpdateAddressRoundTrip(prefix: string, kind: string, ch: Channels, u: Update)
    requires !HasChar(prefix, ':') && !HasChar(kind, ':') && !HasChar(u.jobId, ':')
    requires match u
      case ProgressUpdate(_, _) => ch.progress == prefix + ":" + kind
      case StatusUpdate(_, _) => ch.status == prefix + ":" + kind
      case DataUpdate(_, _) => ch.data == prefix + ":" + kind
    ensures JobQueue.MessageAddress(ChannelFor(ch, u)) == (Some(kind), u.jobId)
  {
    JobQueue.AddressOfChannel(prefix, kind, u.jobId);
  }
}
