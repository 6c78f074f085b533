/** The transport operations the two executors call. The executors use
    operations that the shown job queue and bridge do not define, so they are
    modelled here as an abstract interface: a queue of entries waiting to be
    polled, whether the job-payload store accepts writes, and a ghost log of
    every effect in order. */
module Transport {
  import opened Wrappers
  import opened Json

  /** A control-stream entry as the control executor receives it: the entry id
      and the flat field list [k1, v1, k2, v2, ...]. */
  datatype ControlEntry = ControlEntry(id: string, fields: seq<string>)

  /** A data-stream entry as the worker bridge decodes it. */
  datatype DataEntry = DataEntry(xid: string, fields: map<string, string>)

  /** One effect of a transport call. */
  datatype Event =
    | GroupEnsured(group: string)
    | Acked(entryId: string)
    | ProgressPublished(jobId: string, progress: real)
    | StatusPublished(jobId: string, status: string)
    | DataJobEnqueued(jobId: string, payload: string)
    | ControlJobEnqueued(jobId: string, graph: Json)
    | PayloadStored(jobId: string, graph: Json)

  /** `log` ends with `tail`. */
  predicate EndsWith(log: seq<Event>, tail: seq<Event>)
  {
    |tail| <= |log| && log[|log| - |tail|..] == tail
  }

  /** The control plane's side of the transport (the job queue as the
      control executor uses it). */
  class ControlTransport {
    var inbox: seq<ControlEntry>
    const storeUp: bool
    ghost var log: seq<Event>

    constructor (entries: seq<ControlEntry>, storeAccepts: bool)
      ensures inbox == entries && storeUp == storeAccepts && log == []
    {
      inbox := entries;
      storeUp := storeAccepts;
      log := [];
    }

    method EnsureControlGroup(group: string)
      modifies this
      ensures inbox == old(inbox) && log == old(log) + [GroupEnsured(group)]
    {
      log := log + [GroupEnsured(group)];
    }

    /** The next entry for this consumer, or none. */
    method PollControlJob() returns (e: Option<ControlEntry>)
      modifies this
      ensures old(inbox) == [] ==> e.None? && inbox == []
      ensures old(inbox) != [] ==> e == Some(old(inbox)[0]) && inbox == old(inbox)[1..]
      ensures log == old(log)
    {
      if inbox == [] {
        return None;
      }
      e := Some(inbox[0]);
      inbox := inbox[1..];
    }

    method AcknowledgeControlJob(entryId: string)
      modifies this
      ensures inbox == old(inbox) && log == old(log) + [Acked(entryId)]
    {
      log := log + [Acked(entryId)];
    }

    method PublishProgress(jobId: string, progress: real)
      modifies this
      ensures inbox == old(inbox) && log == old(log) + [ProgressPublished(jobId, progress)]
    {
      log := log + [ProgressPublished(jobId, progress)];
    }

    method PublishStatus(jobId: string, status: string)
      modifies this
      ensures inbox == old(inbox) && log == old(log) + [StatusPublished(jobId, status)]
    {
      log := log + [StatusPublished(jobId, status)];
    }

    method EnqueueDataJob(jobId: string, payload: string)
      modifies this
      ensures inbox == old(inbox) && log == old(log) + [DataJobEnqueued(jobId, payload)]
    {
      log := log + [DataJobEnqueued(jobId, payload)];
    }

    /** Stores the job's current graph; fails when the store is down. */
    method SetJobPayload(jobId: string, graph: Json) returns (ok: bool)
      modifies this
      ensures ok == storeUp && inbox == old(inbox)
      ensures log == old(log) + (if ok then [PayloadStored(jobId, graph)] else [])
    {
      ok := storeUp;
      if ok {
        log := log + [PayloadStored(jobId, graph)];
      }
    }
  }

  /** The worker plane's side of the transport (the bridge as the worker
      executor uses it). */
  class WorkerTransport {
    var inbox: seq<DataEntry>
    const storeUp: bool
    ghost var log: seq<Event>

    constructor (entries: seq<DataEntry>, storeAccepts: bool)
      ensures inbox == entries && storeUp == storeAccepts && log == []
    {
      inbox := entries;
      storeUp := storeAccepts;
      log := [];
    }

    method PollJob() returns (e: Option<DataEntry>)
      modifies this
      ensures old(inbox) == [] ==> e.None? && inbox == []
      ensures old(inbox) != [] ==> e == Some(old(inbox)[0]) && inbox == old(inbox)[1..]
      ensures log == old(log)
    {
      if inbox == [] {
        return None;
      }
      e := Some(inbox[0]);
      inbox := inbox[1..];
    }

    method AckJob(entryId: string)
      modifies this
      ensures inbox == old(inbox) && log == old(log) + [Acked(entryId)]
    {
      log := log + [Acked(entryId)];
    }

    method PublishStatus(jobId: string, status: string)
      modifies this
      ensures inbox == old(inbox) && log == old(log) + [StatusPublished(jobId, status)]
    {
      log := log + [StatusPublished(jobId, status)];
    }

    method EnqueueControlJob(jobId: string, graph: Json)
      modifies this
      ensures inbox == old(inbox) && log == old(log) + [ControlJobEnqueued(jobId, graph)]
    {
      log := log + [ControlJobEnqueued(jobId, graph)];
    }

    /** Stores the job's current graph; raises (ok == false) when the store is
      down. */
    method SetJobPayload(jobId: string, graph: Json) returns (ok: bool)
      modifies this
      ensures ok == storeUp && inbox == old(inbox)
      ensures log == old(log) + (if ok then [PayloadStored(jobId, graph)] else [])
    {
      ok := storeUp;
      if ok {
        log := log + [PayloadStored(jobId, graph)];
      }
    }
  }
}
