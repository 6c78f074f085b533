# myspinbot workflow engine — a Dafny model

myspinbot runs each user job as a *workflow graph*: a JSON document with
a list of nodes and a list of edges. Every node names a `task`, a
`plane` (`node` for the Node.js control plane, `python` for the worker
plane) and a `status`. Two executors run the same graph in turn.

- **Control plane.** `backend/src/core/executor.js` reads control jobs
  from a Redis stream. It runs, wave by wave, every ready node on its
  plane, then hands the graph to the other side through a data stream.
- **Worker plane.** `worker/src/worker/core/executor.py` does the same
  for the Python nodes and hands the graph back through the control
  stream.

A node is *ready* when three things hold:

- it is on the executor's plane;
- its status is none of `completed`, `running`, `failed` or `skipped`;
- every predecessor along an edge has completed.

Before a node runs, its input gains the outputs of its predecessors.
After a wave, the graph is stored back in Redis. When no node is ready,
the pass is classified `completed`, `failed` or `handoff`.

Around that engine the model covers:

- the backend's job queue (`backend/src/core/job-queue.js`);
- the worker's Redis bridge (`worker/src/worker/core/bridge.py`);
- the planner that turns a request into a job document
  (`backend/src/core/planner.js`);
- the pipeline graph builders (`backend/src/core/pipelines.js`);
- the capability catalogues of both planes
  (`backend/src/lib/capabilities.js`, `worker/src/worker/registry.py`);
- the three generated JSON Schema validators (graph, capability
  manifest, Redis configuration);
- the worker's task registry and progress simulation
  (`worker/src/worker/services/tasks.py`);
- the worker's configuration merge (`worker/src/worker/config.py`);
- `enumFromSchema` (`backend/src/lib/utils.js`);
- the job-history handlers
  (`backend/src/api/http/history-controller.js`);
- the artifact stubs (`backend/src/services/artifacts.js`);
- the placeholder PNG writer (`worker/src/worker/services/media.py`).

Layout (one module per file):

| module | file | models |
|---|---|---|
| `Wrappers`, `Json`, `Strings` | wrappers.dfy, json.dfy, strings.dfy | Option/Result, JSON values with JavaScript and Python truthiness, string helpers |
| `SchemaChecks`, `GraphSchema`, `CapabilitySchema`, `RedisConfigSchema` | schema_checks.dfy … | the generated Ajv validators: a predicate for the schema, and the checking code as a method proved equal to it |
| `Workflow`, `Waves`, `Dag` | workflow.dfy, waves.dfy, dag.dfy | readiness, input merging, classification, the mutable `Graph` object, wave bookkeeping, chains of edges |
| `Transport`, `RedisStore` | transport.dfy, redis_store.dfy | the queue operations the executors call (an in-memory stream inbox and an event log); a Redis server as a class |
| `ControlExecutor`, `WorkerExecutor` | control_executor.dfy, worker_executor.dfy | the two executors as classes |
| `JobQueue`, `Bridge` | job_queue.dfy, bridge.dfy | the backend job queue and the worker bridge, over `RedisStore.Server` |
| `Pipelines`, `Planner`, `Capabilities`, `Registry`, `Tasks`, `WorkerConfig`, `Utils`, `History`, `Artifacts`, `Png` | one file each | the remaining core files |

Conventions:

- **External code as parameters.** Code outside the model is passed in
  as a function parameter: the JSON codec (`Codec`), the handlers of a
  task registry, `crc32` and zlib, and the random draws.
- **Asynchronous code runs sequentially.** A JavaScript `Promise.all`
  and the Python asyncio loop are modelled as sequential loops.
- **Redis as a state change.** A Redis command is modelled as a change
  to a `RedisStore.Server` object or as an appended `Transport` event.

## Model

| member | source | states |
|---|---|---|
| Workflow.Preds | backend/src/core/executor.js:163-167 | every dependency listed for a node is the source of an edge into that node |
| Workflow.UsableEdges | worker/src/worker/core/executor.py:265-271 | an edge is kept exactly when both its `from` and its `to` are non-empty |
| Workflow.LastIndexOf | backend/src/core/executor.js:162 | the id lookup built from the node list finds the last node with that id, and nothing when no node has it |
| Workflow.MergeInputs | backend/src/core/executor.js:177-181 | the merge keeps the node count, leaves every node outside the ready list as it was, and changes nothing of any node but its `input` |
| Workflow.ReadyFrom | backend/src/core/executor.js:169-175 | an index from `i` on is listed exactly when that node is on the plane, its status is none of completed/running/failed/skipped and all its dependencies are completed; the list is strictly increasing (on the control plane this filter is reached only when ControlExecutor.ReadyThrows is false) |
| Workflow.ReadyIndices | backend/src/core/executor.js:169-175 | a node is listed exactly when it is ready (on the plane, not completed/running/failed/skipped, every dependency completed); the list is in node order without repeats (on the control plane only when ControlExecutor.ReadyThrows is false) |
| Workflow.ReadyIgnoresInputs | backend/src/core/executor.js:169-175 | two graphs that differ only in node inputs have the same ready nodes |
| Workflow.OutputsIgnoreInputs | backend/src/core/executor.js:177-181 | what a dependency contributes to a merge does not depend on any node's input |
| Workflow.PendingSettle | backend/src/core/executor.js:139-148 | settling one pending node on the plane lowers the count of pending nodes by exactly one (the wave loop's termination measure) |
| Workflow.Classify | backend/src/core/executor.js:150-156 | a pass is `failed` exactly when some node failed; `completed` only when every node completed; `handoff` when none failed and some node did not complete |
| Workflow.ReplaceNodes | backend/src/core/executor.js:212 | writing executed nodes back into a valid job document keeps it a valid graph whose nodes read back as written |
| Workflow.FinishedGraph | worker/src/worker/core/executor.py:193 | the document stored after a pass is valid, holds the executed nodes and keeps every other field of the input |
| Workflow.Graph.FromJson | backend/src/core/executor.js:94-111 | the mutable graph built from a document that passed the graph schema serialises back to that same document |
| Waves.MergeFramed | backend/src/core/executor.js:177-181 | merging inputs into the ready nodes keeps the executor's frame (plane, settledness, ids and outputs of every node) |
| Waves.PendingIgnoresInputs | backend/src/core/executor.js:139-148 | the number of pending nodes does not depend on node inputs |
| Waves.WaveSettles | backend/src/core/executor.js:139-148 | a wave that settles every ready node and touches no other node keeps the frame and leaves nothing half-run |
| Waves.WaveStateAt | backend/src/core/executor.js:141-143 | after `w` nodes of a wave ran, exactly the first `w` ready nodes carry their step and the rest are as before |
| Waves.WaveFacts | backend/src/core/executor.js:139-148 | one wave lowers the pending count by the number of ready nodes, changes only the ready nodes, applies the node step to each, and keeps every node schema-valid |
| Waves.WaveFrame | backend/src/core/executor.js:141-143 | after a whole wave, nodes outside the ready list are unchanged and each ready node holds its step |
| Waves.ReadyUnsettled | backend/src/core/executor.js:169-175 | the ready list is strictly increasing and names only unsettled nodes on the plane |
| Waves.WaveStatePending | backend/src/core/executor.js:139-148 | each node of the wave lowers the pending count by one |
| Waves.WaveStateValid | backend/src/core/executor.js:186-211 | running nodes whose step keeps a node schema-valid keeps the whole node list valid |
| Waves.MergedKeeps | backend/src/core/executor.js:179 | merging inputs into a node changes nothing of it but its `input` |
| Waves.MergeKeeps | backend/src/core/executor.js:177-181 | the merge changes only the inputs of ready nodes, leaves every other node as it was, and keeps every node schema-valid |
| Waves.MergedUpToAll | backend/src/core/executor.js:177-181 | merging the ready nodes one after another, each from the pre-merge outputs, gives the all-at-once merge |
| Waves.MergedUpToStep | backend/src/core/executor.js:177-179 | one more merged ready node extends the merged prefix |
| Dag.ChainAcyclic | backend/src/core/pipelines.js:261-278 | the edges that link a list of distinct node ids in order form an acyclic graph |
| Dag.ChainReachable | backend/src/core/pipelines.js:261-278 | in such a chain every later node is reachable from every earlier one |
| Dag.ChainPathRises | backend/src/core/pipelines.js:261-278 | every path along a chain moves to strictly later positions |
| Dag.SinkReachesNothing | backend/src/core/pipelines.js:261-278 | a node with no outgoing edge reaches no other node |
| ControlExecutor.FieldsToObject | backend/src/core/executor.js:117-123 | the pairing loop over a stream entry's flat field list builds exactly the field object |
| ControlExecutor.FieldsObjectKeys | backend/src/core/executor.js:117-123 | the object's keys are exactly the entries at even positions |
| ControlExecutor.FieldsObjectLastWins | backend/src/core/executor.js:117-123 | a key gets the value after its last occurrence, or `undefined` when the list ends on that key |
| ControlExecutor.RunNode | backend/src/core/executor.js:186-205 | a task without a handler fails with "No handler for task …"; a handler result is used only for a registered task |
| ControlExecutor.HandlerParams | backend/src/core/executor.js:193-196 | the handler gets every key of the spread params except `progressWeight`, which is the node's own when truthy and 0 otherwise |
| ControlExecutor.ExecutedOutcome | backend/src/core/executor.js:186-211 | a returned value completes the node and becomes its output (an `undefined` result leaves none); a throw fails it with `{message}`; nothing else of the node changes |
| ControlExecutor.ExecutedValid | backend/src/core/executor.js:186-211 | an executed node still satisfies the graph schema |
| ControlExecutor.ExecutedSettled | backend/src/core/executor.js:186-211 | an executed node is settled, with status completed or failed |
| ControlExecutor.StepFacts | backend/src/core/executor.js:186-211 | the per-node step settles the node and keeps it valid, whatever the handlers do |
| ControlExecutor.Dispatch | backend/src/core/executor.js:36-62 | completed: ack, progress 1, status completed; handoff: ack and enqueue on the data stream; failed: nothing; an error carrying both entry and job id: ack, progress 0, status failed; any other error, and the TypeError of ReadyThrows, which carries neither: nothing |
| ControlExecutor.Admit | backend/src/core/executor.js:78-111 | a missing or empty job id or payload is rejected first; an unparsable payload is rejected exactly when the codec fails on it; an admitted job has the entry's job id and a schema-valid graph parsed from the payload; every rejection carries the entry id and the entry's job id |
| ControlExecutor.FramedNoThrow | backend/src/core/executor.js:161-175 | a wave never makes the ready-node lookup start throwing: executed and merged nodes keep their ids, planes and settledness |
| ControlExecutor.Executor.constructor | backend/src/core/executor.js:14-23 | the executor starts idle with the `control-executor` group and the given registry |
| ControlExecutor.Executor.Start | backend/src/core/executor.js:25-27 | a second start does nothing; a first start ensures the consumer group once and arms the poller |
| ControlExecutor.Executor.Stop | backend/src/core/executor.js:71-76 | the poller is disarmed |
| ControlExecutor.Executor.ProcessJob | backend/src/core/executor.js:78-115 | rejected entries write nothing; an admitted job is first marked running; when ControlExecutor.ReadyThrows holds the job then ends with the uncaught TypeError, nodes and log untouched after `running`, so the entry stays unacknowledged; otherwise it runs to a state where no control node is ready, with the pass classified from the final nodes, the document unchanged except for its nodes, and an error only when a store write fails |
| ControlExecutor.Executor.Poll | backend/src/core/executor.js:29-66 | when stopped or idle nothing happens; otherwise the first control entry is consumed, processed, and the events of its dispatch end the log |
| ControlExecutor.Executor.Report | backend/src/core/executor.js:36-62 | the events written are exactly those of the dispatch |
| ControlExecutor.Executor.GetReadyControlNodes | backend/src/core/executor.js:161-184 | throws (None, nothing changed) exactly when ControlExecutor.ReadyThrows holds: an edge into a prototype property name, or an unsettled control node named like one; otherwise returns the ready control nodes and merges the outputs of their dependencies into their inputs |
| ControlExecutor.Executor.MergeReady | backend/src/core/executor.js:177-181 | the loop over the ready nodes gives the all-at-once merge of dependency outputs into their inputs, each output spread with JavaScript semantics (Json.Spread: index keys for arrays and strings) |
| ControlExecutor.Executor.ExecuteNode | backend/src/core/executor.js:186-213 | node `i` takes its executed state, and the whole graph is stored under the job id |
| ControlExecutor.Executor.RunWave | backend/src/core/executor.js:139-148 | runs every ready node once: the pending count falls by their number, other nodes are untouched, validity is kept; it fails only when the store is down |
| ControlExecutor.Executor.RunNodes | backend/src/core/executor.js:140-143 | executing the ready nodes one after another leaves each of them executed in turn; it fails exactly when there is a node to store and the store is down |
| ControlExecutor.WaveOutcome | backend/src/core/executor.js:139-148 | after a wave of the ready control nodes, the pending count falls by their number, every other node is unchanged, each ready node is its executed self, and schema validity is kept |
| ControlExecutor.Executor.ExecuteGraph | backend/src/core/executor.js:135-159 | with ControlExecutor.ReadyThrows the first ready-node lookup throws the uncaught TypeError and nothing changes; otherwise the loop ends with no ready control node and the classification of the final nodes, or with the job's wave error exactly when a store write fails |
| ControlExecutor.MergeInto | backend/src/core/executor.js:177-181 | the dependency loop for one ready node gives exactly the merged node, each output spread as Json.Spread says |
| ControlExecutor.MergeStep | backend/src/core/executor.js:179 | one spread: the node's input becomes its old input overlaid with the dependency's output, both spread as Json.Spread says (own properties of an object, index properties of an array or string, nothing otherwise) |
| ControlExecutor.MergeAdvance | backend/src/core/executor.js:177-181 | one more dependency extends the folded input by that dependency's output |
| ControlExecutor.InputsOnly | backend/src/core/executor.js:177-181 | while merging into one node, the outputs the other dependencies contribute stay the same |
| WorkerExecutor.PySpread | worker/src/worker/core/executor.py:293-296 | `{**(x or {})}` fails exactly for a truthy value that is not a mapping; otherwise it gives the object's fields, or nothing for a falsy value |
| WorkerExecutor.DepOutput | worker/src/worker/core/executor.py:295 | a dependency's contribution is its output's fields; an id missing from the lookup contributes nothing (it raises) |
| WorkerExecutor.PyFoldMeaning | worker/src/worker/core/executor.py:291-296 | the Python fold over the dependencies succeeds exactly when every dependency's output spreads, and then equals the JavaScript fold |
| WorkerExecutor.PyMergedMeaning | worker/src/worker/core/executor.py:291-296 | merging into a node fails exactly when it has dependencies and its input or one dependency's output is truthy but not a mapping; otherwise it equals the JavaScript merge |
| WorkerExecutor.PyMerged | worker/src/worker/core/executor.py:291-296 | a node without dependencies is kept as it is; a successful merge changes nothing but the node's `input`, which becomes an object when there are dependencies |
| WorkerExecutor.WorkerReady | worker/src/worker/core/executor.py:262-289 | a node is listed exactly when it is ready on the `python` plane over the usable edges |
| WorkerExecutor.ReadyDepsExist | worker/src/worker/core/executor.py:284-296 | every dependency of a ready node exists and has completed, so `nodes_by_id[depId]` never misses; the merge fails there only on a truthy non-mapping output |
| WorkerExecutor.DepOutputsIgnoreInputs | worker/src/worker/core/executor.py:291-296 | dependency contributions do not depend on node inputs |
| WorkerExecutor.InputsOnly | worker/src/worker/core/executor.py:291-296 | while merging into one node, the ids and the other nodes' contributions stay the same |
| WorkerExecutor.MergeInto | worker/src/worker/core/executor.py:292-296 | the dependency loop for one node succeeds exactly when the merge is defined, and then leaves exactly the merged node |
| WorkerExecutor.MergeStep | worker/src/worker/core/executor.py:293-296 | one assignment succeeds exactly when both sides spread, and then overlays the dependency's output on the input; a failed one changes nothing |
| WorkerExecutor.MergeAdvance | worker/src/worker/core/executor.py:292-296 | one more dependency extends the folded input by that dependency's output |
| WorkerExecutor.RunNode | worker/src/worker/core/executor.py:224-246 | a missing handler raises "No handler registered for task '…'"; non-mapping params or input raise a TypeError; otherwise the handler gets the params with `progress_weight` set, and the spread input |
| WorkerExecutor.ExecutedOutcome | worker/src/worker/core/executor.py:223-251 | a returned value completes the node and becomes its output; an exception fails it with `{message}`; nothing else of the node changes |
| WorkerExecutor.StepFacts | worker/src/worker/core/executor.py:223-256 | the per-node step settles the node and keeps it schema-valid |
| WorkerExecutor.Admit | worker/src/worker/core/executor.py:156-187 | an admitted entry has a non-empty job id equal to the graph's `workflowId`, with a schema-valid graph; a rejection carries the entry id and the entry's job id, which is non-empty unless the job id or payload was missing |
| WorkerExecutor.ResultEvents | worker/src/worker/core/executor.py:128-143 | every finished pass is acknowledged, then `completed` publishes status completed, `failed` publishes status failed, and `handoff` enqueues the graph on the control stream |
| WorkerExecutor.ErrorReactionAsWritten | worker/src/worker/core/executor.py:144-148 | as written: the entry is acknowledged; a rejection with a job id crashes the loop when no earlier pass exists, and otherwise publishes `failed` for the previous pass's job |
| WorkerExecutor.ErrorReaction | worker/src/worker/core/executor.py:144-148 | as intended: the entry is acknowledged and `failed` is published exactly for the rejected job's own id, when it has one |
| WorkerExecutor.FirstErrorCrashes | worker/src/worker/core/executor.py:144-148 | a first job rejected with a job id crashes the loop as written, and not as intended |
| WorkerExecutor.LaterErrorBlamesPreviousJob | worker/src/worker/core/executor.py:144-148 | after job-a completed, a rejection of job-b marks job-a failed and leaves job-b unmarked as written; as intended job-b is marked |
| WorkerExecutor.ErrorReactionsAgree | worker/src/worker/core/executor.py:144-148 | the two reactions agree when there is no job id or the previous pass was the same job |
| WorkerExecutor.React | worker/src/worker/core/executor.py:124-148 | the loop crashes only on an uncaught error; every other outcome starts by acknowledging its own entry. A rejected job takes the corrected except branch (WorkerExecutor.ErrorReaction: `failed` for the job that raised), not line 147 as written (see Findings) |
| WorkerExecutor.Executor.constructor | worker/src/worker/core/executor.py:83-85 | a new executor has no runner and no stop request |
| WorkerExecutor.Executor.Start | worker/src/worker/core/executor.py:91-95 | a running executor is left as it is; otherwise the stop request is cleared and the loop starts |
| WorkerExecutor.Executor.Stop | worker/src/worker/core/executor.py:97-104 | a stopped executor is left as it is; otherwise the stop is requested and the runner dropped |
| WorkerExecutor.Executor.GetReadyNodes | worker/src/worker/core/executor.py:262-298 | returns the ready Python nodes; the merge succeeds exactly when every one of them merges, and then every ready node holds its merged input |
| WorkerExecutor.Executor.MergeReady | worker/src/worker/core/executor.py:291-296 | the loop over the ready nodes succeeds exactly when each merge is defined, and then gives the all-at-once merge |
| WorkerExecutor.Executor.ExecuteNode | worker/src/worker/core/executor.py:223-256 | node `i` takes its executed state, and the graph is stored under its `workflowId` |
| WorkerExecutor.Executor.RunWave | worker/src/worker/core/executor.py:202-205 | runs every ready node once, in order: the pending count falls by their number, other nodes are untouched, validity is kept; it fails only when the store is down |
| WorkerExecutor.Executor.RunNodes | worker/src/worker/core/executor.py:203-204 | executing the ready nodes in order leaves each of them executed in turn; it stops with a failure only when the store is down |
| WorkerExecutor.WaveOutcome | worker/src/worker/core/executor.py:202-205 | after a wave of the ready Python nodes, the pending count falls by their number, every other node is unchanged, each ready node is its executed self, and schema validity is kept |
| WorkerExecutor.Executor.ExecuteGraph | worker/src/worker/core/executor.py:199-221 | ends with no ready Python node and the classification of the final nodes; a store failure or a merge TypeError ends it early |
| WorkerExecutor.Executor.ProcessJob | worker/src/worker/core/executor.py:156-197 | rejected entries write nothing; an admitted job is first marked running; a finished pass has no ready Python node, is classified from its final nodes, and was stored last; an admitted job is never reported as a rejection, and a store failure crashes the loop (the store's error is not the RuntimeError caught at 194) |
| WorkerExecutor.Executor.RunAdmitted | worker/src/worker/core/executor.py:189-197 | an admitted job is marked running; a finished pass is stored last, has no ready Python node, is classified from its final nodes and differs from the input only in its nodes; the outcome is never a rejection, and a store failure crashes the loop |
| WorkerExecutor.Executor.Iterate | worker/src/worker/core/executor.py:119-148 | nothing happens on an empty stream; otherwise the first entry is consumed and its reaction's events (WorkerExecutor.React, so the corrected except branch) end the log |
| WorkerExecutor.Executor.Report | worker/src/worker/core/executor.py:124-148 | the events written are exactly those of WorkerExecutor.React; for a rejected job that is the corrected reaction, which publishes `failed` for `e.jobId` where line 147 as written uses `result.job_id` |
| WorkerExecutor.Executor.RunLoop | worker/src/worker/core/executor.py:110-150 | unless the loop crashed or was stopped, it drains the stream and every consumed entry is acknowledged; it runs the corrected except branch, so a first rejected job does not crash it as line 147 as written would (WorkerExecutor.FirstErrorCrashes) |
| WorkerExecutor.ConvertValue | worker/src/worker/core/executor.py:336-343 | dictionaries keep their keys, lists their length, and an enum member becomes its value |
| WorkerExecutor.ConvertClears | worker/src/worker/core/executor.py:336-343 | after conversion no enum member is left |
| WorkerExecutor.ConvertFixes | worker/src/worker/core/executor.py:336-343 | a value without enum members is unchanged |
| WorkerExecutor.ConvertIdempotent | worker/src/worker/core/executor.py:336-343 | converting twice is converting once |
| WorkerExecutor.SerializePlainGraph | worker/src/worker/core/executor.py:331-334 | a graph read from JSON serialises unchanged |
| Transport.ControlTransport.constructor | backend/src/core/executor.js:32-35 | the control side's queue starts with the given control-stream entries, the given store availability and an empty event log |
| Transport.ControlTransport.EnsureControlGroup | backend/src/core/executor.js:27 | ensuring the group logs exactly that event and consumes nothing |
| Transport.ControlTransport.PollControlJob | backend/src/core/executor.js:32-35 | polling takes the oldest control entry, or nothing from an empty stream, and logs nothing |
| Transport.ControlTransport.AcknowledgeControlJob | backend/src/core/executor.js:39-42 | acknowledging appends exactly that event |
| Transport.ControlTransport.PublishProgress | backend/src/core/executor.js:43 | publishing progress appends exactly that event |
| Transport.ControlTransport.PublishStatus | backend/src/core/executor.js:44 | publishing a status appends exactly that event |
| Transport.ControlTransport.EnqueueDataJob | backend/src/core/executor.js:50-53 | enqueueing on the data stream appends exactly that event |
| Transport.ControlTransport.SetJobPayload | backend/src/core/executor.js:212 | storing the graph logs it when the store is up, and reports whether it was |
| Transport.WorkerTransport.constructor | worker/src/worker/core/executor.py:119 | the worker side's bridge starts with the given data-stream entries, the given store availability and an empty log |
| Transport.WorkerTransport.PollJob | worker/src/worker/core/executor.py:119 | polling takes the oldest data entry, or nothing from an empty stream, and logs nothing |
| Transport.WorkerTransport.AckJob | worker/src/worker/core/executor.py:129 | acknowledging appends exactly that event |
| Transport.WorkerTransport.PublishStatus | worker/src/worker/core/executor.py:130 | publishing a status appends exactly that event |
| Transport.WorkerTransport.EnqueueControlJob | worker/src/worker/core/executor.py:133-135 | handing the graph back appends exactly that event |
| Transport.WorkerTransport.SetJobPayload | worker/src/worker/core/executor.py:256 | storing the graph logs it when the store is up, and reports whether it was |
| RedisStore.Clamp | worker/src/worker/core/bridge.py:112-118 | a stream cursor is clamped to the stream's length |
| RedisStore.FieldMap | worker/src/worker/core/bridge.py:128-133 | an entry's field pairs become a dictionary holding exactly their names |
| RedisStore.Server.constructor | backend/src/core/job-queue.js:125-132 | a server holds the given state |
| RedisStore.Server.Get | backend/src/core/job-queue.js:231-234 | GET yields a string key's value, and nothing for a missing key |
| RedisStore.Server.Set | backend/src/core/job-queue.js:179 | SET replaces exactly one string key |
| RedisStore.Server.HSet | worker/src/worker/core/bridge.py:177-183 | HSET adds the given fields to the hash, over its earlier fields |
| RedisStore.Server.Expire | backend/src/core/job-queue.js:180 | EXPIRE sets the time-to-live of an existing key and leaves a missing key alone |
| RedisStore.Server.XAdd | worker/src/worker/core/bridge.py:194-197 | XADD appends one entry to one stream |
| RedisStore.Server.XGroupCreate | worker/src/worker/core/bridge.py:71-79 | creating a group succeeds exactly when it does not exist (otherwise BUSYGROUP); it reads from the start and creates the stream |
| RedisStore.Server.XReadGroup | worker/src/worker/core/bridge.py:112-118 | reading for an unknown group fails and changes nothing; otherwise it delivers at most `count` entries after the group's cursor, advances it and marks them pending |
| RedisStore.Server.XAck | worker/src/worker/core/bridge.py:158 | XACK removes the entry from the pending set and counts 1 exactly when it was pending |
| RedisStore.Server.Publish | worker/src/worker/core/bridge.py:209 | PUBLISH appends one message |
| RedisStore.GroupRead | worker/src/worker/core/bridge.py:112-118 | the entries read are the next ones after the cursor, at most `count` and fewer only at the stream's end; the cursor moves past them and they become pending |
| JobQueue.JobDbKey | backend/src/core/job-queue.js:96-97 | `job:<id>:<sub>` for a non-empty sub-key, `job:<id>` otherwise |
| JobQueue.MessageAddress | backend/src/core/job-queue.js:144 | the property and the job id are single colon-free pieces; a message without a colon names no property and the job id `undefined` |
| JobQueue.JobQueue.constructor | backend/src/core/job-queue.js:110-123 | the two known jobs map to the info and process data streams; no connection is open |
| JobQueue.JobQueue.EnsurePubSubLine | backend/src/core/job-queue.js:134-173 | the subscriber is opened once, with a `<channel>:*` pattern per channel; later calls change nothing |
| JobQueue.JobQueue.PersistMessage | backend/src/core/job-queue.js:175-183 | the value is written under the job's property key with the queue's time-to-live, and nothing else changes |
| JobQueue.JobQueue.OnMessage | backend/src/core/job-queue.js:141-156 | a message on `<prefix>:<property>:<jobId>` stores the payload's property under that key; an unparsable or null payload writes nothing |
| JobQueue.JobQueue.EnqueueJob | backend/src/core/job-queue.js:185-224 | an unknown job name fails without writing; a known one appends the entry to its stream and writes the job hash, status `advertised` and progress 0, each with the time-to-live |
| JobQueue.JobQueue.GetJobState | backend/src/core/job-queue.js:226-241 | the state is read from the store, with a missing progress read as 0 |
| JobQueue.JobQueue.GetJobResult | backend/src/core/job-queue.js:243-260 | the data key is read after the first poll that sees the job completed |
| JobQueue.JobQueue.FreeResources | backend/src/core/job-queue.js:262-276 | both connections are closed and the store is untouched; the subscriptions are dropped with the connection |
| JobQueue.KeyLayout | backend/src/core/job-queue.js:96-97 | a job's hash, status, progress and data keys are the documented names and are all different |
| JobQueue.UnsubscribeMissesPatterns | backend/src/core/job-queue.js:264-268 | unsubscribing the bare channel names removes none of the `:*` patterns subscribed at 158-162 |
| JobQueue.AddressOfChannel | backend/src/core/job-queue.js:144 | splitting `<prefix>:<property>:<jobId>` on colons recovers the property and the job id |
| JobQueue.AddressTruncatesJobId | backend/src/core/job-queue.js:144 | a job id containing a colon is cut at its first colon |
| JobQueue.EnqueuedMeaning | backend/src/core/job-queue.js:196-221 | the enqueue writes exactly the stream entry, the hash fields, the status, the progress and three time-to-lives |
| JobQueue.EnqueuedState | backend/src/core/job-queue.js:216-241 | a freshly enqueued job reads back as `advertised` with progress 0 |
| JobQueue.ResultOnlyWhenCompleted | backend/src/core/job-queue.js:243-256 | the result is returned exactly when some poll saw the job completed; never for an empty id or a closed connection |
| JobQueue.MissingProgressReadsZero | backend/src/core/job-queue.js:239 | `Number(null)` makes a missing progress read as 0 |
| Bridge.DeriveStreams | worker/src/worker/core/bridge.py:39-44 | the process data and control streams, the info data stream, and a plan data stream only for a non-empty plan root |
| Bridge.SetNames | worker/src/worker/core/bridge.py:45-53 | the managed list keeps exactly the non-empty names |
| Bridge.Decode | worker/src/worker/core/bridge.py:120-136 | one decoded message per stream entry |
| Bridge.RedisBridge.constructor | worker/src/worker/core/bridge.py:33-58 | stream names derived from the roots, the managed streams, `consumer-<task name>` or `consumer-default`, and no connection |
| Bridge.RedisBridge.CreateGroup | worker/src/worker/core/bridge.py:64-80 | fails when not connected; otherwise every managed stream has the group and existing groups are kept |
| Bridge.RedisBridge.Connect | worker/src/worker/core/bridge.py:82-91 | connects and creates the groups |
| Bridge.RedisBridge.ReadStreams | worker/src/worker/core/bridge.py:104-141 | without a connection, streams or groups the result is empty and nothing changes; otherwise every stream is read in order and the entries decoded |
| Bridge.RedisBridge.ReadGrouped | worker/src/worker/core/bridge.py:120-136 | the loop over the streams gives exactly the batch read of all of them |
| Bridge.RedisBridge.ReadFirst | worker/src/worker/core/bridge.py:120-136 | reading one stream extends the results by that stream's messages |
| Bridge.RedisBridge.AppendDecoded | worker/src/worker/core/bridge.py:126-136 | the message loop appends exactly the decoded batch |
| Bridge.RedisBridge.PollJob | worker/src/worker/core/bridge.py:143-148 | returns the first message read from the process data stream, or nothing |
| Bridge.RedisBridge.AckJob | worker/src/worker/core/bridge.py:150-164 | fails when not connected; otherwise removes the entry from pending and reports whether it was pending |
| Bridge.RedisBridge.SetJobPayload | worker/src/worker/core/bridge.py:170-185 | fails when not connected; otherwise sets `graph` and `created` on `job:<id>` and its time-to-live |
| Bridge.RedisBridge.EnqueueControlJob | worker/src/worker/core/bridge.py:187-197 | fails when not connected; otherwise appends `jobId`, `created` and `graph` to the process control stream |
| Bridge.RedisBridge.Publish | worker/src/worker/core/bridge.py:203-211 | fails when not connected; otherwise publishes one message |
| Bridge.RedisBridge.PublishUpdate | worker/src/worker/core/bridge.py:213-224 | publishes the dumped update on `<channel of its kind>:<job id>` |
| Bridge.ManagedStreamsOrder | worker/src/worker/core/bridge.py:45-53 | the managed streams are info, process, then plan if configured, and never the control stream |
| Bridge.ControlIsNotData | worker/src/worker/core/bridge.py:39-40 | the control stream's name never equals a data stream's name |
| Bridge.GroupsCreated | worker/src/worker/core/bridge.py:69-80 | after group creation every managed stream has the group, old cursors are kept, new ones start at 0 |
| Bridge.ReadAllFirst | worker/src/worker/core/bridge.py:120-136 | reading several streams is reading the first, then the rest from the new state |
| Bridge.PollReadsOne | worker/src/worker/core/bridge.py:145 | a poll delivers at most one entry |
| Bridge.UpdateAddressRoundTrip | worker/src/worker/core/bridge.py:222-224 | the backend's colon split of a worker update's channel recovers the update's kind and job id |
| Pipelines.WorkerNode | backend/src/core/pipelines.js:22-105 | each registry node template has its id and sits on the `python` plane |
| Pipelines.Lookup | backend/src/core/pipelines.js:131-134 | a variant is found exactly when it is the string of one of the three registered names; this is the strict `includes` check of TRAIN_GENERATE mode |
| Pipelines.LookupKey | backend/src/core/pipelines.js:305 | `VariantsRegistry[v]` indexes by `String(v)`: a variant is found exactly when its key text is a registered name, and for a string it agrees with Pipelines.Lookup |
| Pipelines.LookupKeySingleton | backend/src/core/pipelines.js:305 | a one-element array holding a name finds what the name finds |
| Pipelines.RegistryOnWorkerPlane | backend/src/core/pipelines.js:22-105 | every node of every registered variant is a Python-plane node |
| Pipelines.RegistryLacksOneList | backend/src/core/pipelines.js:22-105 | each registered variant lacks either its training or its generation node list |
| Pipelines.OrElse | backend/src/core/pipelines.js:298-300 | `x \|\| d` keeps a truthy value and falls back to the default otherwise |
| Pipelines.NormalizeInput | backend/src/core/pipelines.js:107-144 | an empty request is rejected; an accepted one has a known mode; PROCESS requires a graph and drops it from the copy; TRAIN_GENERATE requires a prompt and a registered variant; GENERATE requires a prompt and a variant |
| Pipelines.NormalizeRejections | backend/src/core/pipelines.js:109-141 | the missing-mode, unknown-mode and missing-graph rejections, and GENERATE accepting the request unchanged |
| Pipelines.AddCommonParams | backend/src/core/pipelines.js:146-160 | the clone keeps the node's id and plane |
| Pipelines.CommonParamsMeaning | backend/src/core/pipelines.js:148-151 | the params are the node's params overlaid with the extra params, which win; since Json.Spread gives an array or a string its index keys, a non-empty array or string override passes `Object.keys(extra).length > 0` and contributes them |
| Pipelines.AddCommonParamsKeys | backend/src/core/pipelines.js:153-159 | the result has the node's keys plus `params`, `status` and `progressWeight`; every other key is kept |
| Pipelines.AddCommonParamsMeaning | backend/src/core/pipelines.js:153-159 | `status` defaults to `pending`, `progressWeight` to 0 unless it is a number, `params` as CommonParamsMeaning says (index keys included) |
| Pipelines.AddCommonParamsIdempotent | backend/src/core/pipelines.js:146-160 | applying it twice with the same extra params is applying it once |
| Pipelines.ElementAt | backend/src/core/pipelines.js:197 | `params[i]` on an array exists exactly for an index in range |
| Pipelines.CloneNodes | backend/src/core/pipelines.js:193-209 | one clone per template, each with its own element of the per-node params |
| Pipelines.BuildScriptNode | backend/src/core/pipelines.js:162-186 | the script node has id `script` |
| Pipelines.ScriptNodeIsLiteral | backend/src/core/pipelines.js:162-186 | the script node is a pending control-plane node whose input is the prompt (dropped when undefined) |
| Pipelines.ReversedSegment | backend/src/core/pipelines.js:213-235 | as written a segment's first edge enters its first node and every further edge runs from a later node back to the one before |
| Pipelines.LinkForward | backend/src/core/pipelines.js:261-273 | the linking loop appends exactly the chain edges through the segment |
| Pipelines.ChainStep | backend/src/core/pipelines.js:265-271 | one loop round extends the chain by one edge |
| Pipelines.LinkAsWritten | backend/src/core/pipelines.js:213-235 | the as-written linking loop appends exactly the reversed segment |
| Pipelines.CloneAll | backend/src/core/pipelines.js:193-209 | the cloning loop gives exactly the clones |
| Pipelines.BuildGenerateOnlyGraph | backend/src/core/pipelines.js:245-280 | the builder's loops give exactly the generate-only template |
| Pipelines.GenerateOnlyGraph | backend/src/core/pipelines.js:245-280 | a TypeError exactly when the variant or its generate list is missing; otherwise the generate nodes plus two, and one edge fewer than nodes |
| Pipelines.LinkedChain | backend/src/core/pipelines.js:261-278 | linking the script, the generation nodes and the render node gives the chain through all of them |
| Pipelines.GenerateOnlyGraphIs | backend/src/core/pipelines.js:245-280 | the generate-only template is the script node, the cloned generation nodes and the render node, chained in that order |
| Pipelines.BuildParts | backend/src/core/pipelines.js:192-210 | the builder's loops give exactly the node parts, or the TypeError of a missing node list |
| Pipelines.BuildPartsOf | backend/src/core/pipelines.js:192-210 | with both lists present, the parts are the script node, the clones and the render node |
| Pipelines.LinkPartsAsWritten | backend/src/core/pipelines.js:211-241 | the edges are exactly the as-written train-and-generate edges |
| Pipelines.LinkPartsForward | backend/src/core/pipelines.js:211-241 | with every segment linked forward, the edges are the chain through all nodes |
| Pipelines.BuildTrainAndGenerateGraphAsWritten | backend/src/core/pipelines.js:188-243 | the builder as written |
| Pipelines.BuildTrainAndGenerateGraph | backend/src/core/pipelines.js:188-243 | the builder with forward edges inside each segment |
| Pipelines.TrainAndGenerateGraph | backend/src/core/pipelines.js:188-243 | corrected builder: a TypeError exactly when the variant or one of its lists is missing; otherwise the train and generate nodes plus two, and one edge fewer than nodes |
| Pipelines.ForwardIds | backend/src/core/pipelines.js:211-241 | linking the train segment, the generate segment and the render node forward gives the chain through all nodes |
| Pipelines.ChainFromFirst | backend/src/core/pipelines.js:261-278 | a template chained in node order with distinct ids is acyclic and reaches every node from the first |
| Pipelines.GenerateOnlyShape | backend/src/core/pipelines.js:245-280 | generate-only: generation nodes plus two, one edge fewer than nodes, the script node first on the control plane, and with distinct ids acyclic with every node reachable from `script` |
| Pipelines.GenerateOnlyRegistered | backend/src/core/pipelines.js:251 | among the registered variants only `f5tts_infinitetalk` builds a generate-only graph (the others fail on the missing list), with nodes script, f5_to_tts, infinite_talk, render_video_infinitetalk, all after the first on the Python plane |
| Pipelines.GenerateOnlyF5 | backend/src/core/pipelines.js:245-280 | the `f5tts_infinitetalk` generate-only graph has exactly those four nodes |
| Pipelines.GenerateOnlyNodes | backend/src/core/pipelines.js:249-259 | each node of a generate-only graph is the clone of its template with its own params |
| Pipelines.GenerateOnlyPlanes | backend/src/core/pipelines.js:249-259 | with worker-plane templates, every node of a generate-only graph after the script node is on the worker plane |
| Pipelines.TrainAndGenerateRegisteredFails | backend/src/core/pipelines.js:194-202 | `variantConfig?.trainNodes.length` throws for every registered variant, in both versions of the builder |
| Pipelines.TrainEdgesReversed | backend/src/core/pipelines.js:216-223 | as written, with two or more training nodes the first of them has no outgoing edge and the render node is unreachable from it |
| Pipelines.TrainAndGenerateChain | backend/src/core/pipelines.js:188-243 | corrected: one edge fewer than nodes, `script` first, and with distinct ids acyclic with every node reachable from `script` |
| Pipelines.TemplateJson | backend/src/core/pipelines.js:316-319 | a template is an object with exactly `nodes` and `edges` |
| Pipelines.ParseGraph | backend/src/core/pipelines.js:291 | `JSON.parse` converts its argument to text first: a string is parsed as is; an array is parsed as its elements joined by commas; null, booleans and numbers parse to themselves; an object (`[object Object]`) and a missing graph are a SyntaxError |
| Pipelines.ParseGraphSingleton | backend/src/core/pipelines.js:291 | a one-element array holding a string parses exactly like that string |
| Pipelines.SelectTemplate | backend/src/core/pipelines.js:289-311 | PROCESS parses the request's graph and fails exactly when that parse fails; the builders give an object with `nodes` and `edges` or their TypeError; a mode the switch does not list gives no template |
| Pipelines.SelectGenerate | backend/src/core/pipelines.js:304-309 | in GENERATE mode the template is the generate-only builder's graph for the variant found by its key text (Pipelines.LookupKey), and fails exactly when that builder fails |
| Pipelines.PipelineGraph | backend/src/core/pipelines.js:284-320 | a rejected request is the rejection; the result always has `pipelineMeta`; a mode the switch does not list gives exactly `{pipelineMeta}` |
| Pipelines.PipelineGraphGenerate | backend/src/core/pipelines.js:284-320 | in GENERATE mode the document is exactly the generate-only builder's `nodes` and `edges` for the variant its key text names, plus `pipelineMeta`, or that builder's error |
| Pipelines.GenerateDocumentShape | backend/src/core/pipelines.js:304-320 | a GENERATE document fails only with a TypeError and otherwise has exactly `nodes`, `edges` and `pipelineMeta` |
| Pipelines.PipelineGraphArrayVariant | backend/src/core/pipelines.js:304-309 | a GENERATE request whose variant is `["f5tts_infinitetalk"]` passes normalisation and builds the F5-TTS graph |
| Pipelines.PipelineMeta | backend/src/core/pipelines.js:313-314 | the metadata is the normalised request without the four per-stage inputs |
| Pipelines.BuildPipelineGraph | backend/src/core/pipelines.js:284-320 | the builder gives exactly the specified pipeline graph (in GENERATE mode, Pipelines.PipelineGraphGenerate's document) |
| Pipelines.PipelineGraphMeta | backend/src/core/pipelines.js:284-320 | a built graph carries the metadata; a TRAIN_GENERATE request builds nothing unless its mode string is also PROCESS's |
| Planner.Defined | backend/src/core/planner.js:69-72 | a key whose value is `undefined` is left out of the document, as `JSON.stringify` does |
| Planner.NormalizeEdge | backend/src/core/planner.js:79-83 | an edge keeps `from` and `to` when defined and gets `kind`, defaulting to `normal` only when missing or null |
| Planner.NormalizeEdges | backend/src/core/planner.js:79-83 | the edge map applies the normalisation to every edge, in order |
| Planner.Planner.BuildGraph | backend/src/core/planner.js:40-45 | the template's copy with the constructor input attached as `params`, every other key from the template |
| Planner.Planner.LibraryInputs | backend/src/core/planner.js:66-67 | when they are arrays, the nodes and edges handed to the library check are the built graph's own |
| Planner.Planner.JobDocument | backend/src/core/planner.js:69-84 | the job document is an object with exactly `schema` (`langgraph.v1`), `context` (`{}` when omitted), `metadata` (an object), `nodes` (the template's), `edges` (the normalised template edges) and a defined `workflowId`, and never the template's `params` |
| Planner.JobGraphParses | backend/src/core/planner.js:65-95 | the returned text parses back to the document, with the schema name and the given string `workflowId` |
| Planner.Metadata | backend/src/core/planner.js:72-76 | the metadata holds `planner`, `version` and every key of the caller's metadata spread (index keys for an array or string); the caller's values win, `planner` defaults to `control-plane`, and `version` to the configuration's when defined and not null, else `unknown` |
| Planner.EmittedEdges | backend/src/core/planner.js:79-83 | every emitted edge has exactly `from`, `to` and `kind` once the document passed the schema |
| Planner.Planner.GetJobGraph | backend/src/core/planner.js:65-95 | a template the library cannot read is its TypeError; a graph the library rejects is rejected; past the library check the planner fails with an invalid graph exactly when the schema rejects the document, and otherwise returns the serialised document |
| Planner.ProgressWeightRejected | backend/src/core/planner.js:86-92 | a template node carrying `progressWeight`, as every pipeline node does, is never accepted by the graph schema |
| Planner.DefaultPlannerAccepted | backend/src/core/planner.js:9-38 | the default planner yields a job graph for any string workflow id when the library accepts the default graph |
| Planner.DefaultLibraryInputs | backend/src/core/planner.js:9-27 | the default template's nodes and edges are what the library sees |
| Planner.DefaultNodesValid | backend/src/core/planner.js:10-25 | the default nodes satisfy the node schema |
| Planner.DefaultEdgesValid | backend/src/core/planner.js:26 | the default edge, normalised, satisfies the edge schema |
| Capabilities.OrDefault | backend/src/lib/capabilities.js:48-77 | a default parameter takes effect exactly for an omitted argument |
| Capabilities.Parameter.ToJson | backend/src/lib/capabilities.js:7-26 | a parameter serialises to `name`, `type`, `description`, `required`, plus `enum` and `default` only when given |
| Capabilities.CreateParameter | backend/src/lib/capabilities.js:7-26 | fails exactly when the name or type is missing or falsy; otherwise keeps them, defaults the description to "" and `required` to false, and keeps `enum` and `default` |
| Capabilities.ParameterMeetsSchema | backend/src/lib/capabilities.js:7-26 | a parameter built from well-typed arguments satisfies the manifest schema's parameter definition |
| Capabilities.NodeCapability.ToJson | backend/src/lib/capabilities.js:48-77 | a capability serialises to exactly the manifest schema's keys, on the `node` plane |
| Capabilities.DefineNodeCapability | backend/src/lib/capabilities.js:28-78 | fails exactly without id, label, handler.module or handler.method (line 42), or with a null telemetry object; a built capability keeps the given id and label |
| Capabilities.CapabilityDefaults | backend/src/lib/capabilities.js:28-78 | timeout 120, concurrency 1, version CAPABILITY_VERSION (`2025.02.0`), empty object schemas, flags from telemetry truthiness, side effects `bounded`, secrets false |
| Capabilities.NodePlaneCpu | backend/src/lib/capabilities.js:48-56 | every control-plane capability runs on the `node` plane with a `cpu` runtime |
| Capabilities.BuiltIsTyped | backend/src/lib/capabilities.js:28-78 | well-typed arguments build a well-typed capability |
| Capabilities.TypedIsValid | backend/src/lib/capabilities.js:48-77 | a well-typed capability serialises to a manifest-valid object |
| Capabilities.BuiltCapabilityValid | backend/src/lib/capabilities.js:28-78 | well-typed arguments build a capability the manifest schema accepts |
| Capabilities.Parameters | backend/src/lib/capabilities.js:7-26 | a parameter list builds exactly when every element builds, each into its own parameter |
| Capabilities.ParameterListMeetsSchema | backend/src/lib/capabilities.js:7-26 | a list of well-typed parameter arguments builds parameters the schema accepts |
| Capabilities.UploadParametersBuilt | backend/src/lib/capabilities.js:81-145 | the upload capability's parameters build and are schema-valid |
| Capabilities.ScriptParametersBuilt | backend/src/lib/capabilities.js:209-261 | the script capability's parameters build and are schema-valid |
| Capabilities.UploadBuilt | backend/src/lib/capabilities.js:81-145 | `artifacts.upload_artifact` builds into a well-typed capability |
| Capabilities.PrepareBuilt | backend/src/lib/capabilities.js:146-208 | `artifacts.prepare_assets` builds into a well-typed capability |
| Capabilities.ScriptBuilt | backend/src/lib/capabilities.js:209-261 | `llm.generate_script` builds into a well-typed capability |
| Capabilities.DefinitionsLoad | backend/src/lib/capabilities.js:80-262 | the module's three definitions build, in this order, all well-typed |
| Capabilities.Definitions | backend/src/lib/capabilities.js:80-262 | when the module loads it holds three definitions; it fails only when one of the three builders fails |
| Capabilities.UploadDefinition | backend/src/lib/capabilities.js:81-145 | a built upload capability has id `artifacts.upload_artifact` |
| Capabilities.PrepareDefinition | backend/src/lib/capabilities.js:146-208 | a built prepare capability has id `artifacts.prepare_assets` |
| Capabilities.ScriptDefinition | backend/src/lib/capabilities.js:209-261 | a built script capability has id `llm.generate_script` |
| Capabilities.IdIndex | backend/src/lib/capabilities.js:264 | the `Map` keyed by id holds every id and, for each, the last definition with it |
| Capabilities.Catalogue.GetCapability | backend/src/lib/capabilities.js:270-272 | finds nothing exactly when no definition has the id, otherwise the last one with it |
| Capabilities.Catalogue.ListNodeCapabilities | backend/src/lib/capabilities.js:266-268 | every definition, in order |
| Capabilities.Catalogue.Manifest | backend/src/lib/capabilities.js:274-280 | the manifest has exactly `generatedAt`, `plane: node` and the serialised capabilities |
| Capabilities.GetCapabilityFinds | backend/src/lib/capabilities.js:264-272 | with distinct ids every definition is found by its id |
| Capabilities.ManifestValid | backend/src/lib/capabilities.js:274-280 | every capability of the manifest satisfies the manifest schema and is on the `node` plane |
| Capabilities.BuiltInIdsDistinct | backend/src/lib/capabilities.js:80-262 | the three built-in ids are different |
| Capabilities.CatalogueLoads | backend/src/lib/capabilities.js:80-264 | loading the module succeeds with three distinct, well-typed built-in capabilities |
| Capabilities.BuiltInLookups | backend/src/lib/capabilities.js:270-272 | each built-in id finds its definition and any other id finds nothing |
| SchemaChecks.CheckKeys | backend/src/validators/langgraph/graph.schemaValidator.cjs:46-52 | the additional-properties loop accepts exactly an object whose keys are all listed |
| SchemaChecks.CheckStrings | backend/src/validators/capabilities/capability.schema-validator.cjs:452-470 | the array loop accepts exactly an array of strings |
| GraphSchema.ValidateNode | backend/src/validators/langgraph/graph.schemaValidator.cjs:12-358 | the node validator accepts exactly the nodes the node schema describes (required keys, plane and status enums, retries, error info, no other keys) |
| GraphSchema.ValidateEdge | backend/src/validators/langgraph/graph.schemaValidator.cjs:516-566 | the edge validator accepts exactly the edges with string `from` and `to`, an optional kind from its enum, and no other keys |
| GraphSchema.Validate | backend/src/validators/langgraph/graph.schemaValidator.cjs:363-630 | the graph validator accepts exactly the documents the graph schema describes |
| GraphSchema.UnlistedNodeKeyRejected | backend/src/validators/langgraph/graph.schemaValidator.cjs:46-52 | a node with a key the schema does not list is rejected |
| GraphSchema.NoUniquenessOrEndpointCheck | backend/src/validators/langgraph/graph.schemaValidator.cjs:363-630 | the schema accepts duplicate node ids and an edge to a node that does not exist |
| CapabilitySchema.Validate | backend/src/validators/capabilities/capability.schema-validator.cjs:14-568 | the validator accepts exactly the capabilities the manifest schema describes |
| CapabilitySchema.UnlistedKeyRejected | backend/src/validators/capabilities/capability.schema-validator.cjs:14-568 | a capability with a key the schema does not list is rejected |
| CapabilitySchema.RuntimeIsOpenHandlerIsClosed | backend/src/validators/capabilities/capability.schema-validator.cjs:121-245 | an extra runtime key is accepted while an extra handler key is rejected |
| RedisConfigSchema.CheckExactStrings | backend/src/validators/redis/redis.config.schema-validator.cjs:70-197 | accepts exactly an object whose keys are all required and listed, each a string |
| RedisConfigSchema.Validate | backend/src/validators/redis/redis.config.schema-validator.cjs:7-338 | the validator accepts exactly the configurations the Redis configuration schema describes |
| RedisConfigSchema.ExtraStreamRejected | backend/src/validators/redis/redis.config.schema-validator.cjs:70-126 | a stream root other than `control` and `data` (such as the `process` and `info` roots the bridge reads) is rejected |
| RedisConfigSchema.ExtraJobsKeyRejected | backend/src/validators/redis/redis.config.schema-validator.cjs:199-247 | a `jobs` key other than `ttl` is rejected |
| RedisConfigSchema.UrlPatternExamples | backend/src/validators/redis/redis.config.schema-validator.cjs:5 | `^redis://.+` accepts `redis://redis:6379` and rejects `redis://`, a line break right after the scheme, and `rediss://` |
| Registry.Items.Put | worker/src/worker/registry.py:26-31 | storing under a key replaces its value in place or appends the key at the end, as a dict keeps insertion order |
| Registry.Items.Values | worker/src/worker/registry.py:38-40 | the values in key insertion order |
| Registry.NoItems | worker/src/worker/registry.py:23-24 | a new registry is empty |
| Registry.RegisterOne | worker/src/worker/registry.py:26-31 | a manifest without an id is refused; otherwise it is stored under its id |
| Registry.RegisterAll | worker/src/worker/registry.py:33-36 | the loop stops at the first manifest without an id, and only then reports an error |
| Registry.RegisterAllLastWins | worker/src/worker/registry.py:33-36 | after a bulk registration each id holds the last manifest with that id |
| Registry.RegisterAllKeeps | worker/src/worker/registry.py:33-36 | ids not among the registered manifests keep their old entries |
| Registry.RegisterAllFresh | worker/src/worker/registry.py:33-36 | registering new, distinct ids appends them in order |
| Registry.CapabilityRegistry.constructor | worker/src/worker/registry.py:23-24 | starts empty |
| Registry.CapabilityRegistry.Register | worker/src/worker/registry.py:26-31 | refuses a manifest without an id and changes nothing; otherwise stores it and returns it |
| Registry.CapabilityRegistry.BulkRegister | worker/src/worker/registry.py:33-36 | the registration loop gives exactly the bulk registration |
| Registry.CapabilityRegistry.List | worker/src/worker/registry.py:38-40 | one entry per id, listing exactly the stored manifests |
| Registry.CapabilityRegistry.Get | worker/src/worker/registry.py:42-44 | a stored id finds its manifest, any other id finds nothing |
| Registry.CapabilityRegistry.Clear | worker/src/worker/registry.py:46-48 | the registry is emptied |
| Registry.CapabilityRegistry.ManifestPayload | worker/src/worker/registry.py:50-59 | exactly `generatedAt`, `plane: python` and the dumped manifests in registration order |
| Registry.LoadModule | worker/src/worker/registry.py:63-300 | importing the module registers the built-in capabilities into a fresh registry |
| Registry.PythonCapabilitiesRegistered | worker/src/worker/registry.py:66-300 | the four built-ins register without error, in order train_lora, train_voice, render_video, get_capabilities, each under its id |
| Registry.PythonIds | worker/src/worker/registry.py:66-299 | the built-in ids, all new and distinct |
| Registry.DistinctRegistered | worker/src/worker/registry.py:33-36 | distinct, new ids register without error, in order, each under its id |
| Registry.DistinctLast | worker/src/worker/registry.py:33-36 | with distinct ids every manifest is the last with its id |
| Tasks.Lookup | worker/src/worker/services/tasks.py:176-181 | a registered job type finds its task; any other fails with "No registered task for job type '…'" |
| Tasks.TaskMap.constructor | worker/src/worker/services/tasks.py:19 | the task map starts empty |
| Tasks.TaskMap.Register | worker/src/worker/services/tasks.py:22-29 | the decorator stores the function under its name and returns it unchanged |
| Tasks.TaskMap.TaskFor | worker/src/worker/services/tasks.py:176-181 | `get_task_for_job` is the lookup |
| Tasks.TaskMap.Registry | worker/src/worker/services/tasks.py:184-186 | `get_task_registry` returns the map itself, not a copy |
| Tasks.Round4 | worker/src/worker/services/tasks.py:53 | `round(x, 4)` is within half a ten-thousandth of `x` and has four decimals at most |
| Tasks.ProgressSteps | worker/src/worker/services/tasks.py:46-56 | zero steps divide by zero; otherwise one step per round (none for a negative count), each the rounded weight share |
| Tasks.ProgressLog.constructor | worker/src/worker/services/tasks.py:46-56 | no progress published yet |
| Tasks.ProgressLog.Publish | worker/src/worker/services/tasks.py:54 | a callback call appends one step |
| Tasks.SimulateProgress | worker/src/worker/services/tasks.py:46-56 | the loop publishes exactly the steps, or fails with ZeroDivision before publishing |
| Tasks.ProgressAddsUp | worker/src/worker/services/tasks.py:46-56 | the published steps add up to the weight, up to half a ten-thousandth per step |
| Tasks.StepsOf | worker/src/worker/services/tasks.py:92-164 | exactly the three simulated tasks have a step count |
| Tasks.SimulatedTaskProgress | worker/src/worker/services/tasks.py:92-164 | train_lora reports 6 steps, train_voice 5, render_video 8, and none of them divides by zero |
| Tasks.SimulatedTask | worker/src/worker/services/tasks.py:92-164 | a simulated task returns `None` when given `progress_weight` and raises a KeyError otherwise |
| Tasks.GetCapabilities | worker/src/worker/services/tasks.py:166-172 | returns exactly `{workerCaps: <manifest JSON text>}` |
| Tasks.LoadModule | worker/src/worker/services/tasks.py:19-172 | importing the module registers exactly the four tasks |
| Tasks.ImportedLookups | worker/src/worker/services/tasks.py:176-181 | exactly the four task names are found, and `get_capabilities` finds the manifest task |
| WorkerConfig.DeepMerge | worker/src/worker/config.py:15-22 | the merge has the keys of both sides |
| WorkerConfig.MergedOn | worker/src/worker/config.py:17-21 | after the loop has visited some keys of the override, the result has the base's keys and those |
| WorkerConfig.DeepMergeLoop | worker/src/worker/config.py:15-22 | the loop over the override gives exactly the deep merge |
| WorkerConfig.MergeCases | worker/src/worker/config.py:17-21 | a base-only key keeps its value; an override value wins unless both are dicts, which merge recursively |
| WorkerConfig.MergeEmpty | worker/src/worker/config.py:15-22 | merging with an empty dict on either side gives the other side |
| WorkerConfig.MergeSelf | worker/src/worker/config.py:15-22 | merging a dict with itself gives it back |
| WorkerConfig.MergeIdempotent | worker/src/worker/config.py:15-22 | merging the same override twice is merging it once |
| WorkerConfig.LeafWins | worker/src/worker/config.py:15-22 | a non-dict value anywhere in the override is what the merge holds at that path |
| WorkerConfig.OutsideKept | worker/src/worker/config.py:15-22 | every path outside the override's top-level keys reads as in the base |
| WorkerConfig.Getenv | worker/src/worker/config.py:34-53 | `os.getenv(name, default)`: the variable when set, else the default |
| WorkerConfig.Buckets | worker/src/worker/config.py:38-42 | the bucket list keeps only non-empty names |
| WorkerConfig.StorageSection | worker/src/worker/config.py:34-46 | the storage section has exactly `url`, `use_ssl`, `buckets`, `access_key` and `secret_key` |
| WorkerConfig.StorageDefaults | worker/src/worker/config.py:34-46 | with no variable set: `http://minio:9000`, TLS off, no buckets, `admin` / `password` |
| WorkerConfig.StorageTlsAnyCase | worker/src/worker/config.py:37 | `MINIO_USE_SLL=True` turns TLS on, as `.lower() == "true"` ignores case |
| WorkerConfig.ComfySection | worker/src/worker/config.py:31-33 | the comfy section holds only `root_dir`: COMFYUI_ROOT_DIR when set, `/opt/comfyui` otherwise |
| WorkerConfig.MergeSections | worker/src/worker/config.py:54-56 | the merged configuration has the file's keys plus `storage` and `bridge` |
| WorkerConfig.MergedConfig | worker/src/worker/config.py:25-57 | a configuration results exactly when the file holds a mapping, with its keys plus `comfy`, `storage` and `bridge` |
| WorkerConfig.AppKept | worker/src/worker/config.py:54-56 | settings outside `storage` and `bridge` are the file's |
| WorkerConfig.BridgeWins | worker/src/worker/config.py:47-56 | every environment-derived bridge leaf overrides the file |
| WorkerConfig.StorageWins | worker/src/worker/config.py:34-46 | every environment-derived storage leaf overrides the file |
| Utils.IndexKey | backend/src/lib/utils.js:4 | a key names an array index only when it is that index's canonical decimal text |
| Utils.Member | backend/src/lib/utils.js:4-7 | `current[key]` throws exactly on null; on an object it is the own property or `undefined` |
| Utils.Walk | backend/src/lib/utils.js:2-8 | a walk over a non-empty path ends on a truthy value, or fails |
| Utils.WalkConcat | backend/src/lib/utils.js:2-8 | walking `p + q` is walking `p`, then `q` from where it ended; a failed walk stays failed |
| Utils.StringOf | backend/src/lib/utils.js:14 | `String(v)` of a string is the string |
| Utils.EnumMap | backend/src/lib/utils.js:12-17 | every enum value's key is in the object, and every key comes from some value |
| Utils.EnumMapLastWins | backend/src/lib/utils.js:13-16 | a key holds the last value that upper-cases to it |
| Utils.EnumMapSize | backend/src/lib/utils.js:12-17 | the object has at most as many keys as the enum has values |
| Utils.EnumFromSchema | backend/src/lib/utils.js:1-18 | a result exists only when the path walk succeeds and ends on an `enum` array, and is that array's map |
| Utils.EnumFromSchemaOutcome | backend/src/lib/utils.js:1-18 | a failed walk is the error; a missing or non-array `enum` gives "does not contain an enum"; every enum value's key is present |
| Utils.EnumFromSchemaLoop | backend/src/lib/utils.js:1-18 | the loop with its early throws gives exactly `EnumFromSchema` |
| History.QueryNumber | backend/src/api/http/history-controller.js:5-6 | a missing query or parameter converts to NaN |
| History.OrDefault | backend/src/api/http/history-controller.js:5-6 | `n \|\| d` is `d` exactly for NaN and zero |
| History.Limit | backend/src/api/http/history-controller.js:5 | the page size always lies in [1, 100] |
| History.Offset | backend/src/api/http/history-controller.js:6 | the offset is never negative |
| History.LimitDefault | backend/src/api/http/history-controller.js:5 | a missing, empty, non-numeric or zero limit gives 20; a limit in [1, 100] is kept |
| History.OffsetDefault | backend/src/api/http/history-controller.js:6 | a missing or non-numeric offset gives 0; a non-negative offset is kept |
| History.LimitOfDecimal | backend/src/api/http/history-controller.js:5 | a decimal page size from 1 to 100 reaches the repository unchanged |
| History.GetJobs | backend/src/api/http/history-controller.js:3-9 | the repository's page for the clamped values, echoed as `pagination` |
| History.GetJobById | backend/src/api/http/history-controller.js:11-18 | a falsy repository result becomes `{error: "Job <id> not found."}`; anything else is returned as is |
| History.GetJobByIdNotFound | backend/src/api/http/history-controller.js:11-18 | the error object comes back exactly when no job was found |
| Artifacts.UploadArtifact | backend/src/services/artifacts.js:1-27 | fails exactly when there are no images; keeps a given id; one path `artifacts/<id>/image_<i>.png` per image; an audio path exactly when audio is given |
| Artifacts.UploadPathsDistinct | backend/src/services/artifacts.js:11-23 | the image paths are distinct, inside the artifact's folder, and differ from the audio path |
| Artifacts.ImagePathsDiffer | backend/src/services/artifacts.js:20-22 | different image indices give different paths |
| Artifacts.PrepareAssets | backend/src/services/artifacts.js:29-60 | a missing or empty artifact id is refused; a `requestedKinds` that is neither an array nor a string (null included) is a TypeError from `.includes` |
| Artifacts.Includes | backend/src/services/artifacts.js:42 | `.includes` is defined exactly on arrays (element membership) and strings (substring search) |
| Artifacts.KindsAsText | backend/src/services/artifacts.js:42-52 | a string such as `"myimages audio"` requests both kinds by substring, while an array holding it requests neither |
| Artifacts.PrepareMatchesUpload | backend/src/services/artifacts.js:29-60 | for an array or string of kinds: an image entry exactly when images are included, an audio entry exactly when audio is; their keys are the upload's paths; a duration exactly when the enrichments ask for it |
| Png.U32 | worker/src/worker/services/media.py:25 | `struct.pack(">I", n)` is four bytes |
| Png.ReadU32 | worker/src/worker/services/media.py:25 | four big-endian bytes read back as a 32-bit number |
| Png.ReadPacked | worker/src/worker/services/media.py:25 | reading a packed number gives it back |
| Png.Crc | worker/src/worker/services/media.py:21-25 | four bytes holding CRC-32 of type and data masked to 32 bits |
| Png.ChunkBytes | worker/src/worker/services/media.py:45-58 | a chunk is its length, type, data and CRC |
| Png.ParseChunks | worker/src/worker/services/media.py:45-58 | a reader of the chunk sequence |
| Png.ParseSerialized | worker/src/worker/services/media.py:45-58 | reading the serialised chunks gives them back |
| Png.Component | worker/src/worker/services/media.py:36 | each colour component lies in [40, 215] |
| Png.Repeat | worker/src/worker/services/media.py:37-38 | `s * n` has `n` times the length, none when `n` is not positive |
| Png.Raw | worker/src/worker/services/media.py:37-38 | the image data as written is four bytes per pixel |
| Png.HeaderData | worker/src/worker/services/media.py:45 | IHDR data carries width, height, bit depth 8 and colour type 2 |
| Png.PngChunks | worker/src/worker/services/media.py:44-58 | exactly IHDR, IDAT and IEND, in order, with header, compressed and empty data |
| Png.PlaceholderLayout | worker/src/worker/services/media.py:28-59 | the output is the signature followed by exactly the three chunks |
| Png.PlaceholderPng | worker/src/worker/services/media.py:28-59 | a struct error exactly when the width, the height or the compressed length does not fit an unsigned 32-bit field; otherwise the bytes start with the PNG signature |
| Png.BuildPlaceholderPng | worker/src/worker/services/media.py:28-59 | appending the parts and joining them gives exactly the placeholder PNG, or a struct error |
| Png.RawSizeMismatch | worker/src/worker/services/media.py:37-38 | as written, any image two or more pixels wide carries `height * (width - 1)` bytes more than the header calls for |
| Png.DefaultSizeMismatch | worker/src/worker/services/media.py:28 | the default 256 by 256 image has 262144 bytes of data where 196864 are expected |
| Png.CorrectedRawSize | worker/src/worker/services/media.py:37-38 | the corrected data has the expected size |
| Png.CorrectedPixel | worker/src/worker/services/media.py:37-38 | in the corrected data every scanline starts with filter type 0 and every pixel is the colour triplet |
| Json.Overlay | backend/src/core/executor.js:177-181 | an object spread `{...a, ...b}` has the keys of both, `b`'s values winning |
| Json.OverlayUnion | backend/src/core/pipelines.js:316-319 | `{...a, ...b}` is the union of the two maps with `b` winning |
| Json.Spread | backend/src/core/executor.js:179 | `...x` gives an object's own properties, an array's or a string's index properties `"0"`, `"1"`, … with its elements or one-character strings, and nothing for undefined, null, booleans and numbers; it is empty exactly for those and for an empty object, array or string |
| Json.IndexProperties | backend/src/core/executor.js:179 | the index properties of a list are empty exactly for the empty list |
| Json.IndexPropertyAt | backend/src/core/executor.js:179 | position `i` appears under its decimal name with the element at `i` |
| Json.IndexPropertyNamesPosition | backend/src/core/executor.js:179 | every index property names a position of the list |
| Strings.Split | backend/src/lib/utils.js:3 | `path.split(".")` gives at least one part and no part contains the separator |
| Strings.SplitJoin | backend/src/lib/utils.js:3 | splitting parts joined by the separator gives the parts back |
| Strings.UpperAscii | backend/src/lib/utils.js:14 | `toUpperCase` keeps the length and maps exactly the ASCII lower-case letters to upper case |
| Strings.LowerAscii | worker/src/worker/config.py:37 | `.lower()` keeps the length and maps exactly the ASCII upper-case letters to lower case |
| Strings.Strip | worker/src/worker/config.py:39-41 | `.strip()` leaves no whitespace at either end |
| Strings.ParseNumber | backend/src/core/job-queue.js:239 | `Number("")` is 0; text starting with `-` never reads as positive, other text never as negative; digit text reads as its decimal value |
| Strings.NatToStringNumber | backend/src/core/job-queue.js:239 | the decimal text of a natural number reads back as that number |

## Left out

- Redis, Postgres and MinIO clients: I/O. Redis is the `RedisStore.Server` class (keys, hashes, expiry set, streams with consumer groups, publish log). The job repository behind the history handlers is a function parameter. MinIO uploads in the artifact and task code are not modelled.
- Transport operations the executors call but the queue and bridge files do not define (`ensureControlGroup`, `pollControlJob`, `acknowledgeControlJob`, `publishProgress`, `publishStatus`, `enqueueDataJob`, `setJobPayload`; `publish_status`, `publish_progress`, `publish_data`): `Transport.ControlTransport` and `Transport.WorkerTransport` state their effects as an inbox and an event log.
- Concurrency: the poll timer, the asyncio runner and stop event, and `Promise.all` inside a wave. A wave runs its ready nodes one after another in ready order. Nodes write only their own fields, and their inputs come from earlier waves, so the order does not change the result.
- `@langchain/langgraph` `Graph.validate` (backend/src/core/planner.js:47-63) is a foreign call. The planner receives it as the `accepts` predicate. Acyclicity and reachability are proved for the chains the pipeline builders emit (module `Dag`).
- The pydantic `LanggraphWorkflow` model the worker validates with is not part of this model. The worker uses the graph schema predicate in its place.
- backend/src/core/executor.js imports `graph.schema-validator.cjs`, while the validator file is `graph.schemaValidator.cjs`. The two are treated as one module.
- JSON encoding and decoding, clocks, UUIDs and random text are parameters. This covers `JSON.stringify`/`parse`, `json.dumps`/`loads`, `Date.now`, `datetime.now`, `randomUUID`, `uuid4` and the artifact id suffix.
- WorkerExecutor.Executor.RunAdmitted: the `RuntimeError` path of a bridge that never connected (worker/src/worker/core/executor.py:194-195) is not modelled, because such a bridge delivers no entry to process in the first place.
- Json.Spread: a string's index properties are taken per character, not per UTF-16 code unit.
- Transport.WorkerTransport and Bridge.RedisBridge are two views of the same queue. Transport.WorkerTransport is the executor's abstract view of the calls it makes; Bridge.RedisBridge models bridge.py itself over `RedisStore.Server`.
- WorkerExecutor.React: a rejected job takes the corrected except branch (WorkerExecutor.ErrorReaction), not executor.py:144-148 as written; the code as written is WorkerExecutor.ErrorReactionAsWritten, listed under Findings.
- WorkerExecutor.Executor.Report: writes the corrected reaction, so `failed` goes to the job that raised rather than to `result.job_id` (executor.py:147).
- WorkerExecutor.Executor.Iterate: its events are WorkerExecutor.React's, so it carries the same correction.
- WorkerExecutor.Executor.RunLoop: runs the corrected except branch; the crash of a first rejected job and the blame of the previous job that line 147 causes are proved only about WorkerExecutor.ErrorReactionAsWritten (WorkerExecutor.FirstErrorCrashes, WorkerExecutor.LaterErrorBlamesPreviousJob), not about the loop.
- Pipelines.LookupKey: a variant whose key text names an `Object.prototype` member is treated as a miss; in the source the inherited value has no `generateNodes`, so the builder throws the same TypeError.
- Logging, metrics and `print`: not modelled.
- The validators' `errors` arrays: a validator is modelled by its verdict, not by the error objects it records.
- Capabilities.Catalogue: the capability descriptions and I/O schemas are a `Documentation` parameter, checked to be well typed. `Capabilities.BuiltInDocumentation` supplies the module's own literal descriptions and schemas for it.
- Registry.CapabilityRegistry.ManifestPayload: `model_dump(mode="json")` of a pydantic manifest is a parameter. A manifest is a JSON object with an `id`.
- Tasks.Round4 and Tasks.ProgressAddsUp: progress values are exact reals, not binary floating point. `round(x, 4)` is specified by its distance from `x`, not by Python's round-half-even on doubles.
- Tasks.SimulatedTask: the dummy uploads, the `uuid4` artifact names and `asyncio.sleep` are not modelled. The `publish_progress_cb` and `publish_data_cb` callbacks are the `ProgressLog` object.
- WorkerConfig.MergedConfig: the `get_config` cache, reading `config.json` and `redis.bridge.json` (`json.loads` of the file text) and pydantic validation of the result are not modelled. The environment is a map from variable name to value.
- Utils.StringOf: number-to-text conversion is the `numText` parameter.
- Utils.Member: inherited and prototype properties (`toString`, `constructor`, …) are not modelled. The one place where they change the outcome, the `incoming` table of the control executor, is modelled separately by ControlExecutor.ReadyThrows. Property reads on booleans and numbers give `undefined`.
- Utils.EnumFromSchema: the result is a map, so the insertion order of the frozen object's keys is not modelled. Upper-casing covers ASCII letters only.
- Strings.ParseNumber: `Number(text)` is modelled for optionally signed decimal text with an optional fraction. Whitespace, exponents, `Infinity` and hexadecimal give NaN here.
- Strings.Strip, Strings.LowerAscii and Strings.UpperAscii: ASCII whitespace and ASCII case only.
- Artifacts.UploadArtifact: `images` is taken to be an array, and `artifactId` a string or absent. A non-string id or a non-array `images` (TypeError paths) is not modelled.
- Png.PlaceholderPng: zlib, `binascii.crc32` and the three `random.randint` draws are parameters. The draws stand for the generator seeded with the prompt's hash. Python's string hash is randomised per process, so the colours are fixed only within one process.
- The ComfyUI client in media.py, the ML workflows, the LLM client, the HTTP, WebSocket and UI code, configuration loading and module discovery are outside the modelled core.
- Floating-point progress weights: `progressWeight` values are reals, with no arithmetic about their sums beyond Tasks.ProgressAddsUp.

## Findings

| source | as written | input that shows it | evidently intended | confidence | as-written member | corrected member |
|---|---|---|---|---|---|---|
| worker/src/worker/core/executor.py:144-148 | the error handler of the run loop publishes the failure status for `result.job_id`, the result of the previous iteration | a first job whose processing raises: `result` is unbound and the handler itself raises; a later failing job: the failure is published for the previous job | publish the failure for the job that raised (`exc.job_id`) | not executed | WorkerExecutor.ErrorReactionAsWritten | WorkerExecutor.ErrorReaction |
| backend/src/core/pipelines.js:216-235 | for `i >= 1` the train and generate loops add the edge `nodes[i] -> nodes[i-1]` | two train nodes: the edges run script -> t0 and t1 -> t0, so t0 has no outgoing edge and the render node cannot be reached from it | one forward chain script -> t0 -> t1 -> … -> render | not executed | Pipelines.TrainEdgesReversed | Pipelines.TrainAndGenerateChain |
| worker/src/worker/services/media.py:37-38 | each scanline is `[0, r, g, b] * width`, four bytes per pixel | width 2, height 1: 8 bytes of image data where 8-bit truecolour needs 7 | one filter-type byte per scanline, then `[r, g, b] * width` | not executed | Png.RawSizeMismatch | Png.CorrectedPixel |
