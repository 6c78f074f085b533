/** Redis as both planes use it, reduced to its effects: string keys, hashes,
    key expiries, streams with consumer groups, and the messages published.
    Entry ids and timestamps Redis or the clock would generate are passed in
    by the caller. */
module RedisStore {
  import opened Wrappers

  /** A stream entry: its id and its fields in the order written. */
  datatype Entry = Entry(id: string, fields: seq<(string, string)>)

  /** The server's state. `cursor` holds, for each consumer group of a
      stream, how many entries it has been delivered; `pending` the entries
      delivered and not yet acknowledged, as (stream, group, id). */
  datatype State = State(
    strings: map<string, string>,
    hashes: map<string, map<string, string>>,
    ttl: map<string, int>,
    streams: map<string, seq<Entry>>,
    cursor: map<(string, string), nat>,
    pending: set<(string, string, string)>,
    published: seq<(string, string)>)

  function EmptyState(): State
  {
    State(map[], map[], map[], map[], map[], {}, [])
  }

  /** The entries of a stream, none when it does not exist. */
  function StreamOf(s: State, stream: string): seq<Entry>
  {
    if stream in s.streams then s.streams[stream] else []
  }

  function Clamp(i: nat, n: nat): (r: nat)
    ensures r <= n && r <= i && (i <= n ==> r == i)
  {
    if i <= n then i else n
  }

  /** A field list as a dictionary, a later field winning over an earlier
      one with the same name. */
  function FieldMap(fields: seq<(string, string)>): (r: map<string, string>)
    ensures forall i :: 0 <= i < |fields| ==> fields[i].0 in r
    ensures forall k :: k in r ==> exists i :: 0 <= i < |fields| && fields[i].0 == k
    decreases |fields|
  {
    if fields == [] then map[]
    else
      var init := FieldMap(fields[..|fields| - 1]);
      assert forall i :: 0 <= i < |fields| - 1 ==> fields[..|fields| - 1][i] == fields[i];
      init[fields[|fields| - 1].0 := fields[|fields| - 1].1]
  }

  class Server {
    var state: State

    constructor (initial: State)
      ensures state == initial
    {
      state := initial;
    }

    /** GET: the string at a key. */
    function Get(k: string): (v: Option<string>)
      reads this
      ensures v.Some? <==> k in state.strings
      ensures v.Some? ==> v.value == state.strings[k]
    {
      if k in state.strings then Some(state.strings[k]) else None
    }

    /** SET */
    method Set(k: string, v: string)
      modifies this
      ensures state == old(state).(strings := old(state).strings[k := v])
    {
      state := state.(strings := state.strings[k := v]);
    }

    /** HSET: the given fields written into the hash, others kept. */
    method HSet(k: string, fields: map<string, string>)
      modifies this
      ensures state == old(state).(hashes := old(state).hashes[k := (if k in old(state).hashes then old(state).hashes[k] else map[]) + fields])
    {
      var before := if k in state.hashes then state.hashes[k] else map[];
      state := state.(hashes := state.hashes[k := before + fields]);
    }

    /** EXPIRE: sets the expiry of an existing key; a missing key is left
        alone. */
    method Expire(k: string, seconds: int)
      modifies this
      ensures (k in old(state).strings || k in old(state).hashes) ==> state == old(state).(ttl := old(state).ttl[k := seconds])
      ensures !(k in old(state).strings || k in old(state).hashes) ==> state == old(state)
    {
      if k in state.strings || k in state.hashes {
        state := state.(ttl := state.ttl[k := seconds]);
      }
    }

    /** XADD: appends one entry, creating the stream if needed. */
    method XAdd(stream: string, id: string, fields: seq<(string, string)>)
      modifies this
      ensures state == old(state).(streams := old(state).streams[stream := StreamOf(old(state), stream) + [Entry(id, fields)]])
    {
      state := state.(streams := state.streams[stream := StreamOf(state, stream) + [Entry(id, fields)]]);
    }

    /** XGROUP CREATE ... 0-0 MKSTREAM: a new group that will be delivered
        the stream from its start; false (BUSYGROUP) when the group exists. */
    method XGroupCreate(stream: string, group: string) returns (created: bool)
      modifies this
      ensures created <==> (stream, group) !in old(state).cursor
      ensures created ==> state == old(state).(cursor := old(state).cursor[(stream, group) := 0],
                                               streams := old(state).streams[stream := StreamOf(old(state), stream)])
      ensures !created ==> state == old(state)
    {
      if (stream, group) in state.cursor {
        return false;
      }
      state := state.(cursor := state.cursor[(stream, group) := 0],
                      streams := state.streams[stream := StreamOf(state, stream)]);
      return true;
    }

    /** XREADGROUP ... COUNT n STREAMS stream >: the next entries not yet
        delivered to the group, at most `count`, which become pending; an
        error (NOGROUP) when the group does not exist. */
    method XReadGroup(stream: string, group: string, count: nat) returns (r: Option<seq<Entry>>)
      modifies this
      ensures (stream, group) !in old(state).cursor <==> r.None?
      ensures r.None? ==> state == old(state)
      ensures r.Some? ==> r.value == GroupRead(old(state), stream, group, count).1
      ensures r.Some? ==> state == GroupRead(old(state), stream, group, count).0
    {
      if (stream, group) !in state.cursor {
        return None;
      }
      var (next, entries) := GroupRead(state, stream, group, count);
      state := next;
      return Some(entries);
    }

    /** XACK: removes a pending entry; the count of entries removed. */
    method XAck(stream: string, group: string, id: string) returns (acked: nat)
      modifies this
      ensures acked == (if (stream, group, id) in old(state).pending then 1 else 0)
      ensures state == old(state).(pending := old(state).pending - {(stream, group, id)})
    {
      acked := if (stream, group, id) in state.pending then 1 else 0;
      state := state.(pending := state.pending - {(stream, group, id)});
    }

    /** PUBLISH */
    method Publish(channel: string, message: string)
      modifies this
      ensures state == old(state).(published := old(state).published + [(channel, message)])
    {
      state := state.(published := state.published + [(channel, message)]);
    }
  }

  /** The ids of delivered entries as pending triples. */
  function Pending(stream: string, group: string, entries: seq<Entry>): (r: set<(string, string, string)>)
    ensures forall i :: 0 <= i < |entries| ==> (stream, group, entries[i].id) in r
    ensures forall p :: p in r ==> p.0 == stream && p.1 == group && exists i :: 0 <= i < |entries| && entries[i].id == p.2
  {
    set e | e in entries :: (stream, group, e.id)
  }

  /** One group's read of one stream: the entries after the group's cursor,
      at most `count` of them, and the state with the cursor moved past them
      and their ids pending. */
  function GroupRead(s: State, stream: string, group: string, count: nat): (r: (State, seq<Entry>))
    requires (stream, group) in s.cursor
    ensures var all := StreamOf(s, stream);
      var from := Clamp(s.cursor[(stream, group)], |all|);
      && |r.1| <= count && from + |r.1| <= |all|
      && r.1 == all[from..from + |r.1|]
      && (|r.1| < count ==> from + |r.1| == |all|)
      && r.0 == s.(cursor := s.cursor[(stream, group) := from + |r.1|], pending := s.pending + Pending(stream, group, r.1))
  {
    var all := StreamOf(s, stream);
    var from := Clamp(s.cursor[(stream, group)], |all|);
    var to := Clamp(from + count, |all|);
    (s.(cursor := s.cursor[(stream, group) := to], pending := s.pending + Pending(stream, group, all[from..to])),
     all[from..to])
  }
}
