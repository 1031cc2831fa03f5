/** What `execute_task` promises, proved about `ExecuteSpec` (and so about
    every run of `TaskExecutor.ExecuteTask`, whose contract is `ExecuteSpec`). */
module ExecutorProperties {
  import opened Common
  import opened Store
  import opened Host
  import opened Executor

  /** The completion step touches only the record it completes and the
      system log, keeps the record's task and trigger, and returns the id
      unless the exception path's own completion raises. */
  lemma FinaliseKeepsOthers(running: Tables, id: ExecutionId, task: Task, run: RunResult, env: ExecEnv)
    requires running.Valid()
    ensures var o := FinaliseSpec(running, id, task, run, env);
            && o.tables.(executions := running.executions, logs := running.logs) == running
            && o.tables.executions.Keys == running.executions.Keys
            && (forall k :: k in running.executions && k != id ==> o.tables.executions[k] == running.executions[k])
            && (id in running.executions ==>
                  && o.tables.executions[id].taskId == running.executions[id].taskId
                  && o.tables.executions[id].triggeredBy == running.executions[id].triggeredBy)
            && (o.result == Finished(Some(id)) <==> env.recoveryFault.None? || !TakesExceptPath(run, env))
            && (o.result.Propagated? <==> o.result != Finished(Some(id)))
  {
  }

  /** An unknown or disabled task: nothing is recorded, nothing staged or launched. */
  lemma UnknownOrDisabledTaskRecordsNothing(t: Tables, taskId: TaskId, triggeredBy: string, osType: string,
                                            pythonExecutable: string, env: ExecEnv, files: map<string, string>)
    requires t.Valid()
    requires taskId !in t.tasks || !t.tasks[taskId].isEnabled
    ensures ExecuteSpec(t, taskId, triggeredBy, osType, env) == Outcome(t, Finished(None))
    ensures FilesAfter(t, taskId, osType, files, env) == files
    ensures LaunchesOf(t, taskId, osType, pythonExecutable, files) == []
  {
  }

  /** An enabled task: exactly one new record, for this task and trigger,
      and no other record, task or schedule changes.  The id is returned
      unless the exception path's own completion raised. */
  lemma EnabledTaskGetsOneRecord(t: Tables, taskId: TaskId, triggeredBy: string, osType: string, env: ExecEnv)
    requires t.Valid()
    requires taskId in t.tasks && t.tasks[taskId].isEnabled
    ensures var o := ExecuteSpec(t, taskId, triggeredBy, osType, env);
            var id := t.nextExecutionId;
            && id !in t.executions
            && o.tables.executions.Keys == t.executions.Keys + {id}
            && o.tables.nextExecutionId == id + 1
            && o.tables.executions[id].taskId == taskId
            && o.tables.executions[id].triggeredBy == triggeredBy
            && (forall k :: k in t.executions ==> o.tables.executions[k] == t.executions[k])
            && o.tables.tasks == t.tasks && o.tables.schedules == t.schedules && o.tables.plugins == t.plugins
            && (o.result == Finished(Some(id)) <==> env.recoveryFault.None? || !TakesExceptPath(RunTask(t.tasks[taskId], osType, env), env))
            && (o.result.Propagated? <==> o.result != Finished(Some(id)))
  {
    var created := t.CreateExecution(taskId, triggeredBy);
    var id := created.1;
    var running := created.0.SetStatus(id, Running);
    assert running.executions[id].taskId == taskId && running.executions[id].triggeredBy == triggeredBy;
    FinaliseKeepsOthers(running, id, t.tasks[taskId], RunTask(t.tasks[taskId], osType, env), env);
  }

  /** A normal runner return that the store completes: `success` exactly
      when the exit code is 0, the error message is stderr exactly when it
      is not, and the exit code and both streams are stored as returned;
      no system log is written. */
  lemma NormalReturnIsClassified(t: Tables, taskId: TaskId, triggeredBy: string, osType: string, env: ExecEnv)
    requires t.Valid()
    requires taskId in t.tasks && t.tasks[taskId].isEnabled
    requires RunTask(t.tasks[taskId], osType, env).Returned?
    requires env.completeFault.None?
    ensures var o := ExecuteSpec(t, taskId, triggeredBy, osType, env);
            var run := RunTask(t.tasks[taskId], osType, env);
            var e := o.tables.executions[t.nextExecutionId];
            && t.nextExecutionId in o.tables.executions
            && o.result == Finished(Some(t.nextExecutionId))
            && (e.status == Success <==> run.exitCode == 0)
            && (e.status == Failed <==> run.exitCode != 0)
            && e.errorMessage == (if run.exitCode != 0 then Some(run.stderr) else None)
            && e.exitCode == Some(run.exitCode) && e.stdout == Some(run.stdout) && e.stderr == Some(run.stderr)
            && e.durationMs == Some(env.durationMs) && e.completedAt == Some(t.clock)
            && o.tables.logs == t.logs
  {
    var created := t.CreateExecution(taskId, triggeredBy);
    var id := created.1;
    var running := created.0.SetStatus(id, Running);
    assert id in running.executions;
  }

  /** The exception path (the runner raised, or the normal completion did)
      when the store accepts the second completion: the record is `failed`
      with exit code -1, empty stdout, and the exception text as both
      stderr and error message, and exactly one system log is appended,
      carrying the task and execution ids. */
  lemma ExceptPathFinalisesFailed(t: Tables, taskId: TaskId, triggeredBy: string, osType: string, env: ExecEnv)
    requires t.Valid()
    requires taskId in t.tasks && t.tasks[taskId].isEnabled
    requires TakesExceptPath(RunTask(t.tasks[taskId], osType, env), env)
    requires env.recoveryFault.None?
    ensures var o := ExecuteSpec(t, taskId, triggeredBy, osType, env);
            var task := t.tasks[taskId];
            var run := RunTask(task, osType, env);
            var msg := if run.Threw? then run.message else env.completeFault.value;
            var id := t.nextExecutionId;
            var e := o.tables.executions[id];
            && id in o.tables.executions
            && o.result == Finished(Some(id))
            && e.status == Failed && e.exitCode == Some(-1) && e.stdout == Some("")
            && e.stderr == Some(msg) && e.errorMessage == Some(msg)
            && e.durationMs == Some(env.failureDurationMs) && e.completedAt == Some(t.clock)
            && o.tables.logs == t.logs + [LogEntry("error", "task_executor", "Task execution failed: " + task.name,
                                                   Some(msg), map["task_id" := Text(taskId), "execution_id" := ExecutionRef(id)])]
  {
    var created := t.CreateExecution(taskId, triggeredBy);
    var id := created.1;
    var running := created.0.SetStatus(id, Running);
    assert id in running.executions;
  }

  /** When the runner raises: exactly for an unknown script type, for a
      timeout or other failure of the interpreter call, and for a missing
      interpreter of Python or Bash (PowerShell and Ruby report it instead). */
  lemma WhenRunnerRaises(task: Task, osType: string, env: ExecEnv)
    ensures var rt := ParseRuntime(task.scriptType);
            RunTask(task, osType, env).Threw? <==>
              || rt.None?
              || (rt.Some? && rt.value != Lua && !(rt.value == Bash && osType == "Windows") &&
                  (env.process.TimedOut? || env.process.Crashed? ||
                   (env.process.NotFound? && (rt.value == Python || rt.value == Bash))))
  {
  }

  /** An unrecognised script type ends as a `failed` record whose error is
      the `ValueError` text, with nothing staged and nothing launched. */
  lemma UnsupportedScriptTypeFails(t: Tables, taskId: TaskId, triggeredBy: string, osType: string,
                                   pythonExecutable: string, env: ExecEnv, files: map<string, string>)
    requires t.Valid()
    requires taskId in t.tasks && t.tasks[taskId].isEnabled
    requires ParseRuntime(t.tasks[taskId].scriptType).None?
    requires env.recoveryFault.None?
    ensures var o := ExecuteSpec(t, taskId, triggeredBy, osType, env);
            var e := o.tables.executions[t.nextExecutionId];
            && t.nextExecutionId in o.tables.executions
            && e.status == Failed && e.exitCode == Some(-1)
            && e.errorMessage == Some("Unsupported script type: " + t.tasks[taskId].scriptType)
            && |o.tables.logs| == |t.logs| + 1
    ensures FilesAfter(t, taskId, osType, files, env) == files
    ensures LaunchesOf(t, taskId, osType, pythonExecutable, files) == []
  {
    ExceptPathFinalisesFailed(t, taskId, triggeredBy, osType, env);
  }

  /** A script that runs past the timeout ends as a `failed` record with
      exit code -1 and the timeout's text as its error. */
  lemma TimeoutFails(t: Tables, taskId: TaskId, triggeredBy: string, osType: string, env: ExecEnv)
    requires t.Valid()
    requires taskId in t.tasks && t.tasks[taskId].isEnabled
    requires var rt := ParseRuntime(t.tasks[taskId].scriptType);
             rt.Some? && rt.value != Lua && !(rt.value == Bash && osType == "Windows")
    requires env.process.TimedOut? && env.recoveryFault.None?
    ensures var e := ExecuteSpec(t, taskId, triggeredBy, osType, env).tables.executions[t.nextExecutionId];
            && t.nextExecutionId in ExecuteSpec(t, taskId, triggeredBy, osType, env).tables.executions
            && e.status == Failed && e.exitCode == Some(-1) && e.errorMessage == Some(env.process.message)
  {
    ExceptPathFinalisesFailed(t, taskId, triggeredBy, osType, env);
  }

  /** No path leaves the new record `running`, except the one on which the
      exception path's completion raises as well; then the exception leaves
      `execute_task`. */
  lemma NeverLeftRunning(t: Tables, taskId: TaskId, triggeredBy: string, osType: string, env: ExecEnv)
    requires t.Valid()
    requires taskId in t.tasks && t.tasks[taskId].isEnabled
    ensures var o := ExecuteSpec(t, taskId, triggeredBy, osType, env);
            var e := o.tables.executions[t.nextExecutionId];
            && t.nextExecutionId in o.tables.executions
            && (e.status == Running <==>
                  env.recoveryFault.Some? && TakesExceptPath(RunTask(t.tasks[taskId], osType, env), env))
            && (e.status != Running ==> e.completedAt == Some(t.clock) && (e.status == Success || e.status == Failed))
            && (e.status == Running <==> o.result.Propagated?)
  {
    var run := RunTask(t.tasks[taskId], osType, env);
    if !TakesExceptPath(run, env) {
      NormalReturnIsClassified(t, taskId, triggeredBy, osType, env);
    } else if env.recoveryFault.None? {
      ExceptPathFinalisesFailed(t, taskId, triggeredBy, osType, env);
    } else {
      var created := t.CreateExecution(taskId, triggeredBy);
      assert created.0.SetStatus(t.nextExecutionId, Running).executions[t.nextExecutionId].status == Running;
    }
  }

  /** Bash on Windows: `(-1, '', 'Bash not supported on Windows')`, recorded
      as a failure, with no file written and no process launched. */
  lemma BashOnWindowsIsRefused(t: Tables, taskId: TaskId, triggeredBy: string, pythonExecutable: string,
                               env: ExecEnv, files: map<string, string>)
    requires t.Valid()
    requires taskId in t.tasks && t.tasks[taskId].isEnabled && t.tasks[taskId].scriptType == "bash"
    requires env.completeFault.None?
    ensures var e := ExecuteSpec(t, taskId, triggeredBy, "Windows", env).tables.executions[t.nextExecutionId];
            && t.nextExecutionId in ExecuteSpec(t, taskId, triggeredBy, "Windows", env).tables.executions
            && e.status == Failed && e.exitCode == Some(-1)
            && e.errorMessage == Some("Bash not supported on Windows")
    ensures FilesAfter(t, taskId, "Windows", files, env) == files
    ensures LaunchesOf(t, taskId, "Windows", pythonExecutable, files) == []
  {
    assert ParseRuntime("bash") == Some(Bash);
    NormalReturnIsClassified(t, taskId, triggeredBy, "Windows", env);
  }

  /** The temporary script: at most one interpreter is launched, on the
      script staged under its temporary path with the task's content and
      with the 300-second timeout; afterwards that path is gone and the
      other files are those the process left (or, when the interpreter was
      not found, those at launch).  When nothing is staged the files are as
      they were. */
  lemma TempScriptIsStagedThenRemoved(t: Tables, taskId: TaskId, osType: string, pythonExecutable: string,
                                      env: ExecEnv, files: map<string, string>)
    requires t.Valid()
    ensures var rt := if taskId in t.tasks && t.tasks[taskId].isEnabled then ParseRuntime(t.tasks[taskId].scriptType) else None;
            !(rt.Some? && StagedPath(rt.value, osType, taskId).Some?) ==>
              FilesAfter(t, taskId, osType, files, env) == files
    ensures |LaunchesOf(t, taskId, osType, pythonExecutable, files)| <= 1
    ensures taskId in t.tasks && t.tasks[taskId].isEnabled ==>
              var task := t.tasks[taskId];
              var rt := ParseRuntime(task.scriptType);
              rt.Some? && StagedPath(rt.value, osType, taskId).Some? ==>
                var p := ScriptPath(rt.value, taskId);
                var after := FilesAfter(t, taskId, osType, files, env);
                var launches := LaunchesOf(t, taskId, osType, pythonExecutable, files);
                && p !in after
                && (env.process.NotFound? ==> after == files - {p})
                && (!env.process.NotFound? ==> after == env.filesLeft - {p})
                && |launches| == 1
                && launches[0].command == Command(rt.value, osType, pythonExecutable, p)
                && launches[0].timeoutSeconds == 300
                && p in launches[0].filesAtLaunch && launches[0].filesAtLaunch[p] == task.scriptContent
  {
  }

  /** PowerShell and Ruby report a missing interpreter as a failed run
      naming it; the PowerShell executable depends on the platform. */
  lemma MissingInterpreterReported(osType: string, env: ExecEnv)
    requires env.process.NotFound?
    ensures RunnerResult(PowerShell, osType, env)
            == Returned(-1, "", (if osType == "Windows" then "powershell.exe" else "pwsh") + " not found on system")
    ensures RunnerResult(Ruby, osType, env) == Returned(-1, "", "Ruby not found on system")
    ensures RunnerResult(Python, osType, env) == Threw(env.process.message)
  {
  }
}
