/** The worker's task table (worker/src/worker/services/tasks.py): the `task`
    decorator filling `_TASK_MAP`, the lookup by job type, the four simulated
    tasks registered on import, and `simulate_progress`'s publish loop.
    Uploads to object storage, uuids and sleeps are left out; the manifest
    JSON that `get_capabilities` returns is a parameter. */
module Tasks {
  import opened Wrappers
  import opened Json
  import opened WorkerExecutor

  /** The ValueError `get_task_for_job` raises. */
  function NoTaskMessage(jobType: string): string
  {
    "No registered task for job type '" + jobType + "'"
  }

  /** `_TASK_MAP[job_type]`, with the KeyError turned into ValueError. */
  function Lookup(tasks: map<string, Handler>, jobType: string): (r: Result<Handler, string>)
    ensures r.Ok? <==> jobType in tasks
    ensures r.Ok? ==> r.value == tasks[jobType]
    ensures r.Err? ==> r.error == NoTaskMessage(jobType)
  {
    if jobType in tasks then Ok(tasks[jobType]) else Err(NoTaskMessage(jobType))
  }

  /** The module-level `_TASK_MAP`; there is one, and every reference to it
      is this object. */
  class TaskMap {
    var tasks: map<string, Handler>

    constructor ()
      ensures tasks == map[]
    {
      tasks := map[];
    }

    /** `task(name)(func)`: stores `func` under `name`, replacing an earlier
        registration, and returns it unchanged. */
    method Register(name: string, func: Handler) returns (r: Handler)
      modifies this
      ensures tasks == old(tasks)[name := func]
      ensures r == func
    {
      tasks := tasks[name := func];
      r := func;
    }

    /** `get_task_for_job` */
    method TaskFor(jobType: string) returns (r: Result<Handler, string>)
      ensures r == Lookup(tasks, jobType)
    {
      if jobType in tasks {
        r := Ok(tasks[jobType]);
      } else {
        r := Err(NoTaskMessage(jobType));
      }
    }

    /** `get_task_registry`: the live table itself, not a copy, so a later
        registration is visible through the returned reference. */
    method Registry() returns (r: TaskMap)
      ensures r == this
    {
      r := this;
    }
  }

  /** Python's `round(x, 4)` on exact reals: to the nearest multiple of
      1/10000, a tie going to the even multiple. */
  function Round4(x: real): (r: real)
    ensures -1.0 / 20000.0 <= r - x <= 1.0 / 20000.0
    ensures (r * 10000.0).Floor as real == r * 10000.0
  {
    var y := x * 10000.0;
    var f := y.Floor;
    var frac := y - f as real;
    var n := if frac < 0.5 then f else if frac > 0.5 then f + 1 else if f % 2 == 0 then f else f + 1;
    ScaledBack(n, x, y);
    n as real / 10000.0
  }

  /** Dividing the rounded multiple by 10000 undoes the scaling, and moves
      it at most half a ten-thousandth from `x`. */
  lemma ScaledBack(n: int, x: real, y: real)
    requires y == x * 10000.0 && -0.5 <= n as real - y <= 0.5
    ensures (n as real / 10000.0) * 10000.0 == n as real
    ensures -1.0 / 20000.0 <= n as real / 10000.0 - x <= 1.0 / 20000.0
  {
    var r := n as real / 10000.0;
    assert r * 10000.0 == n as real;
    assert r - x == (n as real - y) / 10000.0;
  }

  /** `simulate_progress`'s failure: `weight / total_steps` with zero steps. */
  datatype ProgressError = ZeroDivision

  /** The values `simulate_progress` publishes: the rounded step, once per
      iteration of `range(total_steps)`, none for a negative count. */
  function ProgressSteps(weight: real, totalSteps: int): (r: Result<seq<real>, ProgressError>)
    ensures r.Err? <==> totalSteps == 0
    ensures r.Ok? ==> |r.value| == (if totalSteps < 0 then 0 else totalSteps)
    ensures r.Ok? ==> forall i :: 0 <= i < |r.value| ==> r.value[i] == Round4(weight / totalSteps as real)
  {
    if totalSteps == 0 then Err(ZeroDivision)
    else
      var step := Round4(weight / totalSteps as real);
      Ok(seq(if totalSteps < 0 then 0 else totalSteps, _ => step))
  }

  /** The publish callback a task receives: the values it was called with. */
  class ProgressLog {
    var published: seq<real>

    constructor ()
      ensures published == []
    {
      published := [];
    }

    method Publish(step: real)
      modifies this
      ensures published == old(published) + [step]
    {
      published := published + [step];
    }
  }

  /** `simulate_progress(publish, weight, total_steps)`: the division comes
      first, so zero steps raise before anything is published. */
  method SimulateProgress(publish: ProgressLog, weight: real, totalSteps: int) returns (r: Result<(), ProgressError>)
    modifies publish
    ensures ProgressSteps(weight, totalSteps).Err? ==> r == Err(ZeroDivision) && publish.published == old(publish.published)
    ensures ProgressSteps(weight, totalSteps).Ok? ==>
      r == Ok(()) && publish.published == old(publish.published) + ProgressSteps(weight, totalSteps).value
  {
    if totalSteps == 0 {
      return Err(ZeroDivision);
    }
    var step := Round4(weight / totalSteps as real);
    ghost var steps := ProgressSteps(weight, totalSteps).value;
    var i := 0;
    while i < totalSteps
      invariant 0 <= i <= |steps|
      invariant publish.published == old(publish.published) + steps[..i]
    {
      publish.Publish(step);
      i := i + 1;
    }
    assert steps[..i] == steps;
    return Ok(());
  }

  /** Over all published steps the progress adds up to the task's weight, up
      to the rounding of each step. */
  lemma {:induction false} ProgressAddsUp(weight: real, totalSteps: nat)
    requires totalSteps > 0
    ensures var s := Sum(ProgressSteps(weight, totalSteps).value);
      -(totalSteps as real) / 20000.0 <= s - weight <= totalSteps as real / 20000.0
  {
    var step := Round4(weight / totalSteps as real);
    var steps := ProgressSteps(weight, totalSteps).value;
    var n := totalSteps as real;
    SumConstant(steps, step);
    RoundingError(weight, n, step);
  }

  /** `n` copies of the rounded share of `weight` differ from `weight` by
      at most `n` times the rounding error. */
  lemma RoundingError(weight: real, n: real, step: real)
    requires n > 0.0 && -1.0 / 20000.0 <= step - weight / n <= 1.0 / 20000.0
    ensures -n / 20000.0 <= n * step - weight <= n / 20000.0
  {
    var q := weight / n;
    assert n * q == weight;
    var d := step - q;
    assert n * step - weight == n * d;
    assert n * d <= n / 20000.0 by {
      assert n / 20000.0 - n * d == n * (1.0 / 20000.0 - d);
    }
    assert -n / 20000.0 <= n * d by {
      assert n * d + n / 20000.0 == n * (d + 1.0 / 20000.0);
    }
  }

  function Sum(s: seq<real>): real
    decreases |s|
  {
    if s == [] then 0.0 else s[0] + Sum(s[1..])
  }

  /** A list of `n` copies of `c` sums to `n * c`. */
  lemma {:induction false} SumConstant(s: seq<real>, c: real)
    requires forall i :: 0 <= i < |s| ==> s[i] == c
    ensures Sum(s) == |s| as real * c
    decreases |s|
  {
    if s != [] {
      SumConstant(s[1..], c);
    }
  }

  /** The `total_steps` each simulated task passes to `simulate_progress`;
      get_capabilities publishes no progress. */
  function StepsOf(task: string): (r: Option<nat>)
    ensures r.Some? <==> task in {"train_lora", "train_voice", "render_video"}
  {
    if task == "train_lora" then Some(6)
    else if task == "train_voice" then Some(5)
    else if task == "render_video" then Some(8)
    else None
  }

  /** Each simulated task publishes its step count of equal, rounded steps
      and never divides by zero. */
  lemma SimulatedTaskProgress(task: string, weight: real)
    requires StepsOf(task).Some?
    ensures var n := StepsOf(task).value;
      && n > 0
      && ProgressSteps(weight, n).Ok?
      && |ProgressSteps(weight, n).value| == n
      && (task == "train_lora" ==> n == 6)
      && (task == "train_voice" ==> n == 5)
      && (task == "render_video" ==> n == 8)
  {
  }

  /** A simulated task's outcome: it reads `params["progress_weight"]`
      (a KeyError when absent) and returns None. */
  function SimulatedTask(params: map<string, Json>, input: map<string, Json>): (o: Outcome)
    ensures o.Returned? <==> "progress_weight" in params
    ensures o.Returned? ==> o.value == JNull
  {
    if "progress_weight" in params then Returned(JNull) else Raised("'progress_weight'")
  }

  /** `get_capabilities`: a dict whose only key is workerCaps, holding the
      worker's manifest as a JSON string. */
  function GetCapabilities(manifestJson: string, params: map<string, Json>, input: map<string, Json>): (o: Outcome)
    ensures o.Returned? && o.value.JObj? && o.value.fields.Keys == {"workerCaps"}
    ensures o.value.fields["workerCaps"] == JStr(manifestJson)
  {
    Returned(JObj(map["workerCaps" := JStr(manifestJson)]))
  }

  /** The table after the module is imported, in declaration order. */
  function ImportedTasks(manifestJson: string): map<string, Handler>
  {
    map[]["train_lora" := SimulatedTask]["train_voice" := SimulatedTask]["render_video" := SimulatedTask]
      ["get_capabilities" := (p, i) => GetCapabilities(manifestJson, p, i)]
  }

  /** Importing the module: the four decorated functions are registered. */
  method LoadModule(manifestJson: string) returns (m: TaskMap)
    ensures fresh(m) && m.tasks == ImportedTasks(manifestJson)
  {
    m := new TaskMap();
    var f := m.Register("train_lora", SimulatedTask);
    f := m.Register("train_voice", SimulatedTask);
    f := m.Register("render_video", SimulatedTask);
    f := m.Register("get_capabilities", (p, i) => GetCapabilities(manifestJson, p, i));
  }

  /** After the import exactly the four task names are registered: each is
      found and any other job type raises ValueError. */
  lemma ImportedLookups(manifestJson: string, jobType: string)
    ensures ImportedTasks(manifestJson).Keys == {"train_lora", "train_voice", "render_video", "get_capabilities"}
    ensures Lookup(ImportedTasks(manifestJson), jobType).Ok? <==>
      jobType in {"train_lora", "train_voice", "render_video", "get_capabilities"}
    ensures jobType == "get_capabilities" ==>
      Lookup(ImportedTasks(manifestJson), jobType).value(map[], map[]) == GetCapabilities(manifestJson, map[], map[])
  {
  }
}
