/** The task executor (automation-engine/src/core/task_executor.py): it
    checks a task, drives one execution record from `pending` through
    `running` to `success` or `failed`, dispatches on the script type to one
    of five runners, and finalises the record even when a runner raises.

    `ExecuteSpec` is the whole of `execute_task` as a function of the store's
    tables and of the environment (what the interpreter process did, what
    the Lua runtime did, which store calls raised); the class
    `TaskExecutor` does the same step by step on a `DatabaseManager` and a
    `Machine`, and its contract is that it agrees with `ExecuteSpec`. */
module Executor {
  import opened Common
  import opened Store
  import opened Host

  /** The supported values of `script_type`. */
  datatype Runtime = Python | Bash | PowerShell | Lua | Ruby

  function RuntimeName(rt: Runtime): string
  {
    match rt
    case Python => "python"
    case Bash => "bash"
    case PowerShell => "powershell"
    case Lua => "lua"
    case Ruby => "ruby"
  }

  /** The `if`/`elif` chain of `execute_task` over `task['script_type']`. */
  function ParseRuntime(s: string): (r: Option<Runtime>)
    ensures r.Some? ==> RuntimeName(r.value) == s
    ensures r.None? <==> forall rt: Runtime :: RuntimeName(rt) != s
  {
    if s == "python" then Some(Python)
    else if s == "bash" then Some(Bash)
    else if s == "powershell" then Some(PowerShell)
    else if s == "lua" then Some(Lua)
    else if s == "ruby" then Some(Ruby)
    else None
  }

  /** Every runtime's name is recognised as that runtime. */
  lemma ParseRuntimeName(rt: Runtime)
    ensures ParseRuntime(RuntimeName(rt)) == Some(rt)
  {
  }

  /** What a runner hands back to `execute_task`: its `(exit_code, stdout,
      stderr)` tuple, or an exception it lets through. */
  datatype RunResult = Returned(exitCode: int, stdout: string, stderr: string) | Threw(message: string)

  /** What the embedded Lua runtime did with a script: the values the
      script printed, in order, or the text of the error it raised. */
  datatype LuaOutcome = LuaPrinted(printed: seq<string>) | LuaError(message: string)

  /** Everything outside the engine that decides one execution: what the
      interpreter process ends in and the files it leaves (`filesLeft`),
      the Lua runtime, the duration measured on the
      normal path (`durationMs`) and again in the `except` branch
      (`failureDurationMs`), and whether `complete_task_execution` raises
      on the normal path (`completeFault`) or on the exception path
      (`recoveryFault`). */
  datatype ExecEnv = ExecEnv(
    process: ProcessOutcome,
    filesLeft: map<string, string>,
    lua: LuaOutcome,
    durationMs: nat,
    failureDurationMs: nat,
    completeFault: Option<string>,
    recoveryFault: Option<string>)

  // ---------------------------------------------------------------------
  // Temporary script files and interpreter commands

  /** The kind tag in a temporary script's name. */
  function TempTag(rt: Runtime): (tag: string)
    requires rt != Lua
    ensures |tag| >= 2
  {
    match rt
    case Python => "python"
    case Bash => "bash"
    case PowerShell => "ps"
    case Ruby => "ruby"
  }

  function TempExtension(rt: Runtime): string
    requires rt != Lua
  {
    match rt
    case Python => ".py"
    case Bash => ".sh"
    case PowerShell => ".ps1"
    case Ruby => ".rb"
  }

  const TempPrefix: string := "/tmp/omnitasker_"

  /** `/tmp/omnitasker_<kind>_<task id>.<ext>`. */
  function ScriptPath(rt: Runtime, taskId: TaskId): (p: string)
    requires rt != Lua
    ensures |p| > |TempPrefix| && p[..|TempPrefix|] == TempPrefix
    ensures EndsWith(p, TempExtension(rt))
  {
    TempPrefix + TempTag(rt) + "_" + taskId + TempExtension(rt)
  }

  /** Two runs stage the same file only when they are runs of the same
      runtime for the same task id: the names never collide across tasks. */
  lemma {:induction false} ScriptPathInjective(rt1: Runtime, a: TaskId, rt2: Runtime, b: TaskId)
    requires rt1 != Lua && rt2 != Lua
    requires ScriptPath(rt1, a) == ScriptPath(rt2, b)
    ensures rt1 == rt2 && a == b
  {
    var p := ScriptPath(rt1, a);
    var n := |TempPrefix|;
    assert p[n] == TempTag(rt1)[0] && p[n + 1] == TempTag(rt1)[1];
    assert ScriptPath(rt2, b)[n] == TempTag(rt2)[0] && ScriptPath(rt2, b)[n + 1] == TempTag(rt2)[1];
    assert rt1 == rt2;
    var head := TempPrefix + TempTag(rt1) + "_";
    var ext := TempExtension(rt1);
    assert p == head + a + ext && p == head + b + ext;
    assert a == p[|head|..|p| - |ext|];
    assert b == p[|head|..|p| - |ext|];
  }

  /** `powershell.exe` on Windows, `pwsh` elsewhere. */
  function PowerShellExecutable(osType: string): (exe: string)
    ensures exe == "powershell.exe" <==> osType == "Windows"
    ensures exe == "pwsh" <==> osType != "Windows"
  {
    if osType == "Windows" then "powershell.exe" else "pwsh"
  }

  /** The argument vector each file-based runner passes to `subprocess.run`. */
  function Command(rt: Runtime, osType: string, pythonExecutable: string, path: string): (cmd: seq<string>)
    requires rt != Lua
    ensures |cmd| >= 2 && cmd[|cmd| - 1] == path
  {
    match rt
    case Python => [pythonExecutable, path]
    case Bash => ["/bin/bash", path]
    case PowerShell => [PowerShellExecutable(osType), "-ExecutionPolicy", "Bypass", "-File", path]
    case Ruby => ["ruby", path]
  }

  /** The temporary file a runner stages: none for Lua, which runs in
      process, and none for Bash on Windows, which is refused up front. */
  function StagedPath(rt: Runtime, osType: string, taskId: TaskId): (p: Option<string>)
    ensures p.None? <==> rt == Lua || (rt == Bash && osType == "Windows")
    ensures p.Some? ==> rt != Lua && p.value == ScriptPath(rt, taskId)
  {
    if rt == Lua || (rt == Bash && osType == "Windows") then None
    else Some(ScriptPath(rt, taskId))
  }

  // ---------------------------------------------------------------------
  // What each runner returns

  /** The tuple or exception of a file-based runner, given what the
      interpreter process ended in. */
  function FileRunnerResult(rt: Runtime, osType: string, o: ProcessOutcome): (r: RunResult)
    requires rt != Lua
    ensures o.Completed? ==> r == Returned(o.returnCode, o.stdout, o.stderr)
    ensures o.NotFound? && rt == PowerShell ==>
              r == Returned(-1, "", PowerShellExecutable(osType) + " not found on system")
    ensures o.NotFound? && rt == Ruby ==> r == Returned(-1, "", "Ruby not found on system")
    ensures (o.TimedOut? || o.Crashed? || (o.NotFound? && (rt == Python || rt == Bash))) ==>
              r == Threw(o.message)
  {
    match o
    case Completed(code, out, err) => Returned(code, out, err)
    case NotFound(m) =>
      if rt == PowerShell then Returned(-1, "", PowerShellExecutable(osType) + " not found on system")
      else if rt == Ruby then Returned(-1, "", "Ruby not found on system")
      else Threw(m)
    case TimedOut(m) => Threw(m)
    case Crashed(m) => Threw(m)
  }

  /** `_execute_lua` with the captured prints joined by newlines: a Lua
      error becomes `(-1, '', str(e))`; a clean run `(0, prints, '')`. */
  function LuaResult(o: LuaOutcome): (r: RunResult)
    ensures r.Returned?
    ensures r.exitCode == 0 <==> o.LuaPrinted?
    ensures r.exitCode != 0 ==> r.exitCode == -1 && r.stdout == "" && r.stderr == o.message
    ensures o.LuaPrinted? ==> r.stderr == ""
  {
    match o
    case LuaPrinted(printed) => Returned(0, JoinLines(printed), "")
    case LuaError(m) => Returned(-1, "", m)
  }

  /** The captured prints can be read back from the stdout `LuaResult`
      builds, line by line, whenever they hold no newline. */
  lemma LuaStdoutKeepsPrints(printed: seq<string>)
    requires |printed| >= 1
    requires forall i :: 0 <= i < |printed| ==> '\n' !in printed[i]
    ensures LuaResult(LuaPrinted(printed)).exitCode == 0
    ensures SplitLines(LuaResult(LuaPrinted(printed)).stdout) == printed
  {
    SplitJoinLines(printed);
  }

  /** The keys of a Lua sequence table holding `n` values: 1, ..., n. */
  function TableKeys(n: nat): (keys: seq<string>)
    ensures |keys| == n
    ensures forall i :: 0 <= i < n ==> keys[i] == Decimal(i + 1)
  {
    seq(n, i requires 0 <= i < n => Decimal(i + 1))
  }

  /** `_execute_lua` as written: iterating the Lua table `output_buffer`
      from Python visits its keys, so stdout joins 1..n, not the prints. */
  function LuaResultAsWritten(o: LuaOutcome): (r: RunResult)
    ensures o.LuaError? ==> r == LuaResult(o)
    ensures o.LuaPrinted? ==> r.Returned? && r.exitCode == 0 && r.stdout == JoinLines(TableKeys(|o.printed|))
  {
    match o
    case LuaPrinted(printed) => Returned(0, JoinLines(TableKeys(|printed|)), "")
    case LuaError(m) => Returned(-1, "", m)
  }

  /** A script that prints "hello" reports stdout "1" as written. */
  lemma LuaAsWrittenLosesPrints()
    ensures LuaResultAsWritten(LuaPrinted(["hello"])).stdout == "1"
    ensures LuaResult(LuaPrinted(["hello"])).stdout == "hello"
  {
    assert TableKeys(1) == [Decimal(1)];
    assert Decimal(1) == "1";
  }

  /** `_execute_bash`: refused on Windows, otherwise a file-based runner. */
  function BashResult(osType: string, o: ProcessOutcome): (r: RunResult)
    ensures osType == "Windows" ==> r == Returned(-1, "", "Bash not supported on Windows")
    ensures osType != "Windows" ==> r == FileRunnerResult(Bash, osType, o)
  {
    if osType == "Windows" then Returned(-1, "", "Bash not supported on Windows")
    else FileRunnerResult(Bash, osType, o)
  }

  /** The tuple or exception of the runner for `rt`. */
  function RunnerResult(rt: Runtime, osType: string, env: ExecEnv): (r: RunResult)
    ensures rt == Lua ==> r == LuaResult(env.lua)
    ensures rt == Bash ==> r == BashResult(osType, env.process)
    ensures rt != Lua && rt != Bash ==> r == FileRunnerResult(rt, osType, env.process)
  {
    if rt == Lua then LuaResult(env.lua)
    else if rt == Bash then BashResult(osType, env.process)
    else FileRunnerResult(rt, osType, env.process)
  }

  /** The body of the `try` in `execute_task` up to the runner's return:
      an unknown script type raises `ValueError`. */
  function RunTask(task: Task, osType: string, env: ExecEnv): (r: RunResult)
    ensures ParseRuntime(task.scriptType).None? ==> r == Threw("Unsupported script type: " + task.scriptType)
    ensures ParseRuntime(task.scriptType).Some? ==> r == RunnerResult(ParseRuntime(task.scriptType).value, osType, env)
  {
    match ParseRuntime(task.scriptType)
    case None => Threw("Unsupported script type: " + task.scriptType)
    case Some(rt) => RunnerResult(rt, osType, env)
  }

  // ---------------------------------------------------------------------
  // Classification and the whole of execute_task

  datatype Verdict = Verdict(status: Status, errorMessage: Option<string>)

  /** Lines 76-77: success exactly when the exit code is 0; on failure the
      error message is stderr, on success there is none. */
  function Classify(exitCode: int, stderr: string): (v: Verdict)
    ensures v.status == Success <==> exitCode == 0
    ensures v.status == Failed <==> exitCode != 0
    ensures v.errorMessage.Some? <==> v.status == Failed
    ensures v.errorMessage.Some? ==> v.errorMessage.value == stderr
  {
    if exitCode == 0 then Verdict(Success, None) else Verdict(Failed, Some(stderr))
  }

  datatype ExecResult = Finished(execution: Option<ExecutionId>) | Propagated(message: string)

  datatype Outcome = Outcome(tables: Tables, result: ExecResult)

  /** The task `execute_task` goes on to run: present and enabled. */
  function TaskToRun(t: Tables, taskId: TaskId): (r: Option<Task>)
    ensures r.Some? <==> taskId in t.tasks && t.tasks[taskId].isEnabled
    ensures r.Some? ==> r.value == t.tasks[taskId]
  {
    if taskId in t.tasks && t.tasks[taskId].isEnabled then Some(t.tasks[taskId]) else None
  }

  /** The metadata of the system log written on the exception path. */
  function FailureMetadata(taskId: TaskId, id: ExecutionId): map<string, MetaValue>
  {
    map["task_id" := Text(taskId), "execution_id" := ExecutionRef(id)]
  }

  /** The `except` branch is taken: the runner raised, or the normal
      completion did. */
  predicate TakesExceptPath(run: RunResult, env: ExecEnv)
  {
    !(run.Returned? && env.completeFault.None?)
  }

  /** The text of the exception the `except` branch catches. */
  function ExceptionText(run: RunResult, env: ExecEnv): string
    requires TakesExceptPath(run, env)
  {
    if run.Threw? then run.message else env.completeFault.value
  }

  /** The normal completion of record `id` with what the runner returned. */
  function CompleteRun(running: Tables, id: ExecutionId, run: RunResult, durationMs: nat): (t: Tables)
    requires run.Returned?
    ensures t.executions.Keys == running.executions.Keys
    ensures t.(executions := running.executions) == running
  {
    var v := Classify(run.exitCode, run.stderr);
    running.Complete(id, v.status, run.exitCode, run.stdout, run.stderr, durationMs, v.errorMessage)
  }

  /** The `except` branch's completion of record `id` as failed, and its system log. */
  function RecordFailure(running: Tables, id: ExecutionId, task: Task, e: string, durationMs: nat): (t: Tables)
    ensures t.executions.Keys == running.executions.Keys
    ensures t.(executions := running.executions, logs := running.logs) == running
  {
    running.Complete(id, Failed, -1, "", e, durationMs, Some(e))
           .Log("error", "task_executor", "Task execution failed: " + task.name, Some(e),
                Some(FailureMetadata(task.id, id)))
  }

  /** The `try`/`except` of `execute_task` once the record `id` is
      `running`: classify and complete on a normal return; otherwise (the
      runner raised, or the completion itself raised) complete the record
      as failed with exit code -1 and write one system log.  Only when that
      second completion raises too does the exception leave `execute_task`. */
  function FinaliseSpec(running: Tables, id: ExecutionId, task: Task, run: RunResult, env: ExecEnv): (o: Outcome)
    requires running.Valid()
    ensures o.tables.Valid()
  {
    if !TakesExceptPath(run, env) then
      Outcome(CompleteRun(running, id, run, env.durationMs), Finished(Some(id)))
    else if env.recoveryFault.Some? then
      Outcome(running, Propagated(env.recoveryFault.value))
    else
      Outcome(RecordFailure(running, id, task, ExceptionText(run, env), env.failureDurationMs),
              Finished(Some(id)))
  }

  /** `execute_task(task_id, triggered_by)` on tables `t`. */
  function ExecuteSpec(t: Tables, taskId: TaskId, triggeredBy: string, osType: string, env: ExecEnv): (o: Outcome)
    requires t.Valid()
    ensures o.tables.Valid()
  {
    match TaskToRun(t, taskId)
    case None => Outcome(t, Finished(None))
    case Some(task) =>
      var created := t.CreateExecution(taskId, triggeredBy);
      var id := created.1;
      FinaliseSpec(created.0.SetStatus(id, Running), id, task, RunTask(task, osType, env), env)
  }

  /** The files the runner for `task` leaves on disk: those the process
      left, with its temporary script gone whether the script was still
      there or not; the files as they were when nothing is staged. */
  function TaskFilesAfter(task: Task, osType: string, files: map<string, string>, env: ExecEnv): map<string, string>
  {
    match ParseRuntime(task.scriptType)
    case None => files
    case Some(rt) =>
      match StagedPath(rt, osType, task.id)
      case None => files
      case Some(p) => FilesAfterRun(env.process, files[p := task.scriptContent], env.filesLeft) - {p}
  }

  /** The interpreter launches the runner for `task` makes: at most one,
      with the script staged under its temporary path. */
  function TaskLaunches(task: Task, osType: string, pythonExecutable: string, files: map<string, string>): seq<Invocation>
  {
    match ParseRuntime(task.scriptType)
    case None => []
    case Some(rt) =>
      match StagedPath(rt, osType, task.id)
      case None => []
      case Some(p) => [Invocation(Command(rt, osType, pythonExecutable, p), TimeoutSeconds,
                                  files[p := task.scriptContent])]
  }

  /** The files left on disk by `execute_task`. */
  function FilesAfter(t: Tables, taskId: TaskId, osType: string, files: map<string, string>, env: ExecEnv)
    : map<string, string>
  {
    match TaskToRun(t, taskId)
    case None => files
    case Some(task) => TaskFilesAfter(task, osType, files, env)
  }

  /** The interpreter launches `execute_task` makes. */
  function LaunchesOf(t: Tables, taskId: TaskId, osType: string, pythonExecutable: string,
                      files: map<string, string>): seq<Invocation>
  {
    match TaskToRun(t, taskId)
    case None => []
    case Some(task) => TaskLaunches(task, osType, pythonExecutable, files)
  }

  class TaskExecutor {
    const db: DatabaseManager
    const machine: Machine
    /** `platform.system()`. */
    const osType: string
    /** `sys.executable`. */
    const pythonExecutable: string

    constructor (db: DatabaseManager, machine: Machine, osType: string, pythonExecutable: string)
      ensures this.db == db && this.machine == machine
      ensures this.osType == osType && this.pythonExecutable == pythonExecutable
    {
      this.db := db;
      this.machine := machine;
      this.osType := osType;
      this.pythonExecutable := pythonExecutable;
    }

    /** `execute_task`. */
    method ExecuteTask(taskId: TaskId, env: ExecEnv, triggeredBy: string := "manual") returns (r: ExecResult)
      requires db.Valid()
      modifies db, machine
      ensures db.Valid()
      ensures Outcome(db.State(), r) == ExecuteSpec(old(db.State()), taskId, triggeredBy, osType, env)
      ensures machine.files == FilesAfter(old(db.State()), taskId, osType, old(machine.files), env)
      ensures machine.invocations ==
                old(machine.invocations) + LaunchesOf(old(db.State()), taskId, osType, pythonExecutable, old(machine.files))
    {
      var found := db.GetTaskById(taskId);
      if found.None? {
        return Finished(None);
      }
      var task := found.value;
      if !task.isEnabled {
        return Finished(None);
      }

      var id := db.CreateTaskExecution(taskId, triggeredBy);
      db.UpdateTaskExecutionStatus(id, Running);
      // try:
      var run := Dispatch(task, env);
      r := Finalise(task, id, run, env);
    }

    /** The dispatch on `script_type` inside the `try`. */
    method Dispatch(task: Task, env: ExecEnv) returns (run: RunResult)
      modifies machine
      ensures run == RunTask(task, osType, env)
      ensures machine.files == TaskFilesAfter(task, osType, old(machine.files), env)
      ensures machine.invocations == old(machine.invocations) + TaskLaunches(task, osType, pythonExecutable, old(machine.files))
    {
      match ParseRuntime(task.scriptType) {
        case Some(Python) => run := ExecutePython(task, env.process, env.filesLeft);
        case Some(Bash) => run := ExecuteBash(task, env.process, env.filesLeft);
        case Some(PowerShell) => run := ExecutePowerShell(task, env.process, env.filesLeft);
        case Some(Lua) => run := ExecuteLua(task, env.lua);
        case Some(Ruby) => run := ExecuteRuby(task, env.process, env.filesLeft);
        case None => run := Threw("Unsupported script type: " + task.scriptType);
      }
    }

    /** The completion of record `id` after the runner: the rest of the
        `try` and the `except` of `execute_task`. */
    method Finalise(task: Task, id: ExecutionId, run: RunResult, env: ExecEnv) returns (r: ExecResult)
      requires db.Valid()
      modifies db
      ensures db.Valid()
      ensures Outcome(db.State(), r) == FinaliseSpec(old(db.State()), id, task, run, env)
    {
      var raised: Option<string> := None;
      if run.Threw? {
        raised := Some(run.message);
      } else {
        var v := Classify(run.exitCode, run.stderr);
        if env.completeFault.Some? {
          // complete_task_execution raised before committing
          raised := env.completeFault;
        } else {
          db.CompleteTaskExecution(id, v.status, run.exitCode, run.stdout, run.stderr, env.durationMs, v.errorMessage);
        }
      }
      if raised.None? {
        return Finished(Some(id));
      }

      // except Exception as e:
      var e := raised.value;
      if env.recoveryFault.Some? {
        return Propagated(env.recoveryFault.value);
      }
      db.CompleteTaskExecution(id, Failed, -1, "", e, env.failureDurationMs, Some(e));
      db.LogSystemEvent("error", "task_executor", "Task execution failed: " + task.name, Some(e),
                        Some(FailureMetadata(task.id, id)));
      r := Finished(Some(id));
    }

    /** Writes the script to `path`, runs `command` on it, and removes the
        file, if the process left it, whatever the run ended in (the
        `try`/`finally` of each file-based runner). */
    method StageAndRun(path: string, content: string, command: seq<string>, outcome: ProcessOutcome,
                       filesLeft: map<string, string>)
      returns (o: ProcessOutcome)
      modifies machine
      ensures o == outcome
      ensures path !in machine.files
      ensures machine.files == FilesAfterRun(outcome, old(machine.files)[path := content], filesLeft) - {path}
      ensures machine.invocations ==
                old(machine.invocations) + [Invocation(command, TimeoutSeconds, old(machine.files)[path := content])]
    {
      machine.WriteFile(path, content);
      o := machine.Run(command, TimeoutSeconds, outcome, filesLeft);
      // finally:
      var present := machine.Exists(path);
      if present {
        machine.Remove(path);
      }
    }

    /** `_execute_python`. */
    method ExecutePython(task: Task, outcome: ProcessOutcome, filesLeft: map<string, string>) returns (r: RunResult)
      modifies machine
      ensures r == FileRunnerResult(Python, osType, outcome)
      ensures machine.files == FilesAfterRun(outcome, old(machine.files)[ScriptPath(Python, task.id) := task.scriptContent], filesLeft)
                               - {ScriptPath(Python, task.id)}
      ensures machine.invocations ==
                old(machine.invocations)
                + [Invocation(Command(Python, osType, pythonExecutable, ScriptPath(Python, task.id)),
                              TimeoutSeconds, old(machine.files)[ScriptPath(Python, task.id) := task.scriptContent])]
    {
      var path := ScriptPath(Python, task.id);
      var o := StageAndRun(path, task.scriptContent, [pythonExecutable, path], outcome, filesLeft);
      match o {
        case Completed(code, out, err) => r := Returned(code, out, err);
        case NotFound(m) => r := Threw(m);
        case TimedOut(m) => r := Threw(m);
        case Crashed(m) => r := Threw(m);
      }
    }

    /** `_execute_bash`: refused on Windows before anything is written. */
    method ExecuteBash(task: Task, outcome: ProcessOutcome, filesLeft: map<string, string>) returns (r: RunResult)
      modifies machine
      ensures r == BashResult(osType, outcome)
      ensures osType == "Windows" ==> machine.files == old(machine.files) && machine.invocations == old(machine.invocations)
      ensures osType != "Windows" ==>
                machine.files == FilesAfterRun(outcome, old(machine.files)[ScriptPath(Bash, task.id) := task.scriptContent],
                                               filesLeft) - {ScriptPath(Bash, task.id)}
      ensures osType != "Windows" ==>
                machine.invocations ==
                old(machine.invocations)
                + [Invocation(Command(Bash, osType, pythonExecutable, ScriptPath(Bash, task.id)),
                              TimeoutSeconds, old(machine.files)[ScriptPath(Bash, task.id) := task.scriptContent])]
    {
      if osType == "Windows" {
        return Returned(-1, "", "Bash not supported on Windows");
      }
      var path := ScriptPath(Bash, task.id);
      // the file is made executable (os.chmod) before the try
      var o := StageAndRun(path, task.scriptContent, ["/bin/bash", path], outcome, filesLeft);
      match o {
        case Completed(code, out, err) => r := Returned(code, out, err);
        case NotFound(m) => r := Threw(m);
        case TimedOut(m) => r := Threw(m);
        case Crashed(m) => r := Threw(m);
      }
    }

    /** `_execute_powershell`: a missing executable is reported, not raised. */
    method ExecutePowerShell(task: Task, outcome: ProcessOutcome, filesLeft: map<string, string>) returns (r: RunResult)
      modifies machine
      ensures r == FileRunnerResult(PowerShell, osType, outcome)
      ensures machine.files == FilesAfterRun(outcome, old(machine.files)[ScriptPath(PowerShell, task.id) := task.scriptContent], filesLeft)
                               - {ScriptPath(PowerShell, task.id)}
      ensures machine.invocations ==
                old(machine.invocations)
                + [Invocation(Command(PowerShell, osType, pythonExecutable, ScriptPath(PowerShell, task.id)),
                              TimeoutSeconds, old(machine.files)[ScriptPath(PowerShell, task.id) := task.scriptContent])]
    {
      var exe := PowerShellExecutable(osType);
      var path := ScriptPath(PowerShell, task.id);
      var o := StageAndRun(path, task.scriptContent, [exe, "-ExecutionPolicy", "Bypass", "-File", path], outcome,
                           filesLeft);
      match o {
        case Completed(code, out, err) => r := Returned(code, out, err);
        case NotFound(_) => r := Returned(-1, "", exe + " not found on system");
        case TimedOut(m) => r := Threw(m);
        case Crashed(m) => r := Threw(m);
      }
    }

    /** `_execute_lua`: in process, so no file and no launch. */
    method ExecuteLua(task: Task, lua: LuaOutcome) returns (r: RunResult)
      ensures r.Returned?
      ensures r == LuaResult(lua)
    {
      r := LuaResult(lua);
    }

    /** `_execute_ruby`: a missing interpreter is reported, not raised. */
    method ExecuteRuby(task: Task, outcome: ProcessOutcome, filesLeft: map<string, string>) returns (r: RunResult)
      modifies machine
      ensures r == FileRunnerResult(Ruby, osType, outcome)
      ensures machine.files == FilesAfterRun(outcome, old(machine.files)[ScriptPath(Ruby, task.id) := task.scriptContent], filesLeft)
                               - {ScriptPath(Ruby, task.id)}
      ensures machine.invocations ==
                old(machine.invocations)
                + [Invocation(Command(Ruby, osType, pythonExecutable, ScriptPath(Ruby, task.id)),
                              TimeoutSeconds, old(machine.files)[ScriptPath(Ruby, task.id) := task.scriptContent])]
    {
      var path := ScriptPath(Ruby, task.id);
      var o := StageAndRun(path, task.scriptContent, ["ruby", path], outcome, filesLeft);
      match o {
        case Completed(code, out, err) => r := Returned(code, out, err);
        case NotFound(_) => r := Returned(-1, "", "Ruby not found on system");
        case TimedOut(m) => r := Threw(m);
        case Crashed(m) => r := Threw(m);
      }
    }
  }
}
