# PolyAutomate engine core in Dafny

This project models the execution and scheduling engine of the PolyAutomate automation service, and proves properties of the model.
- The **task executor** checks a task. It drives one execution record from `pending` to `running` to `success` or `failed`. It dispatches on the script type to one of five runners (Python, Bash, PowerShell, Lua, Ruby), and it finalises the record even when a runner raises.
- The **scheduler** is a start/stop controller around a loop. Each pass reads the active schedules at a single `now`. It seeds a missing next run, runs the task of every due schedule and moves its next run forward from `now`. A failure is isolated to its own schedule.
- The **store** holds the tasks, execution records, schedules, plugins and system log as in-memory tables, one map per table. It offers the listing and update operations the engine uses.
- The **plugin manager** discovers `.lua` and `.rb` plugin files. It looks up an enabled plugin by id and runs it as a Lua function or a Ruby process, with argument coercion and result shaping.

## Structure

| file | module | contents |
|---|---|---|
| `common.dfy` | `Common` | `Option`, instants (UTC microseconds), `endswith`, `'\n'.join` / `split`, decimal rendering, code-point string order |
| `store.dfy` | `Store` | the rows, the pure table transitions of `Tables` with their frames, and the `DatabaseManager` class |
| `host.dfy` | `Host` | the `Machine` class: files on disk and the record of interpreter launches |
| `executor.dfy` | `Executor` | the runners and `ExecuteSpec` as functions, and the `TaskExecutor` class proved against them |
| `executor_properties.dfy` | `ExecutorProperties` | what `execute_task` promises, proved about `ExecuteSpec` |
| `scheduler.dfy` | `Scheduling` | `_calculate_next_run`, the per-row step, a pass as a fold over the rows, and the `TaskScheduler` class |
| `scheduler_properties.dfy` | `SchedulingProperties` | seeding, firing, skipping and isolation, for one row and for a whole pass |
| `plugins.dfy` | `Plugins` | discovery (a nested loop proved against a recursive definition), lookup, dispatch, Lua and Ruby result shaping, and the `PluginManager` class |

Every stateful operation is a method of a class whose fields the source updates. Its `ensures` ties the new state to a pure function of the old state (`Tables`, `ExecuteSpec`, `ProcessRowSpec`, `BatchSpec`, `DiscoverSpec`, `ExecutePluginSpec`). The lemmas then prove the source's promises about those functions.

Everything outside the engine enters as a parameter:
- what each `subprocess.run` ends in (`Host.ProcessOutcome`), and the files its process leaves (`ExecEnv.filesLeft`, `PluginEnv.rubyFilesLeft`), since a script may create, change or delete any file, its own included;
- what the Lua runtime does (`Executor.LuaOutcome`, `Plugins.LuaPluginRun`);
- the durations measured on the normal path and again in the `except` branch;
- which store calls raise (`Executor.ExecEnv`, `Scheduling.SchedulerEnv`);
- the cron and time-zone evaluation, as a partial function `Scheduling.CronOracle`;
- the zone names `pytz` knows;
- the clock;
- the directory walk (`Plugins.WalkEntry`).

Where the specification of the service and the code disagree, the model follows the code:
- The specification says an execution record is never left `running`. The code leaves it `running` in one case: the except path's own `complete_task_execution` raises too, and the exception then leaves `execute_task`. `ExecutorProperties.NeverLeftRunning` states exactly that case.
- The specification lists `triggered_by` as `manual` or `schedule`. The code stores any string it is given, and so does the model.

## Model

| member | source | states |
|---|---|---|
| Common.SplitJoinLines | automation-engine/src/core/task_executor.py:228 | joining newline-free lines with '\n' and splitting the text again gives the same lines back |
| Common.StrLeTotal | automation-engine/src/database/db_manager.py:172 | the code-point order used for `ORDER BY name` is total |
| Common.StrLeTrans | automation-engine/src/database/db_manager.py:172 | the code-point order used for `ORDER BY name` is transitive |
| Store.Tables.CreateExecution | automation-engine/src/database/db_manager.py:79-91 | one record is added under an id not used before, `pending`, with the given task and trigger; only the executions and the serial change |
| Store.Tables.SetStatus | automation-engine/src/database/db_manager.py:95-107 | only status and updated_at of the named record change; other records and tables stay the same; an unknown id changes nothing |
| Store.Tables.Complete | automation-engine/src/database/db_manager.py:109-129 | status, exit code, both streams, duration and error message are overwritten and completed_at is stamped on the named record only; task, trigger and updated_at are kept |
| Store.Tables.UpdateNextRun | automation-engine/src/database/db_manager.py:148-160 | next_run becomes the given instant (zone-aware) and last_run the store clock, on that schedule only |
| Store.Tables.Log | automation-engine/src/database/db_manager.py:236-249 | exactly one entry is appended with the given fields; absent metadata is stored as an empty map |
| Store.TaskById | automation-engine/src/database/db_manager.py:66-75 | None exactly when no task has the id, otherwise that task |
| Store.DatabaseManager.GetEnabledTasks | automation-engine/src/database/db_manager.py:52-64 | exactly the enabled tasks, each once, newest created_at first |
| Store.DatabaseManager.GetTaskById | automation-engine/src/database/db_manager.py:66-75 | the result is `TaskById` of the current tables |
| Store.DatabaseManager.CreateTaskExecution | automation-engine/src/database/db_manager.py:79-93 | the new state and the returned id are those of `Tables.CreateExecution`, with trigger `manual` by default |
| Store.DatabaseManager.UpdateTaskExecutionStatus | automation-engine/src/database/db_manager.py:95-107 | the new state is `Tables.SetStatus` of the old one |
| Store.DatabaseManager.CompleteTaskExecution | automation-engine/src/database/db_manager.py:109-129 | the new state is `Tables.Complete` of the old one |
| Store.DatabaseManager.GetActiveSchedules | automation-engine/src/database/db_manager.py:133-146 | exactly the active schedules whose task exists and is enabled, each once, with the task's name and script type joined in |
| Store.DatabaseManager.UpdateScheduleNextRun | automation-engine/src/database/db_manager.py:148-160 | the new state is `Tables.UpdateNextRun` of the old one |
| Store.DatabaseManager.GetEnabledPlugins | automation-engine/src/database/db_manager.py:164-176 | exactly the enabled plugins, each once, ordered by name |
| Store.DatabaseManager.LogSystemEvent | automation-engine/src/database/db_manager.py:236-249 | the new state is `Tables.Log` of the old one |
| Store.InsertNewestFirst | automation-engine/src/database/db_manager.py:60 | inserting a task keeps a sequence newest-first |
| Store.InsertByName | automation-engine/src/database/db_manager.py:172 | inserting a plugin keeps a sequence ordered by name |
| Host.Machine.WriteFile | automation-engine/src/core/task_executor.py:127-128 | the file is created or overwritten with the content; nothing is launched |
| Host.Machine.Exists | automation-engine/src/core/task_executor.py:140 | true exactly when the path is on disk |
| Host.Machine.Remove | automation-engine/src/core/task_executor.py:141 | only that path disappears |
| Host.Machine.Run | automation-engine/src/core/task_executor.py:131-136 | the launch is recorded with its command, its timeout and the files present; afterwards the files are those the process left, or unchanged when the executable was not found |
| Executor.ParseRuntime | automation-engine/src/core/task_executor.py:60-71 | a recognised script type is the runtime of that name; None exactly when no runtime has that name |
| Executor.ParseRuntimeName | automation-engine/src/core/task_executor.py:60-69 | each of the five runtime names is recognised as its runtime |
| Executor.ScriptPath | automation-engine/src/core/task_executor.py:126 | every temporary script is `/tmp/omnitasker_<kind>_<task id>.<ext>`; the same holds at lines 152, 182 and 240 |
| Executor.ScriptPathInjective | automation-engine/src/core/task_executor.py:240 | two runs stage the same path only for the same runtime and task id, across all four file-based runners |
| Executor.PowerShellExecutable | automation-engine/src/core/task_executor.py:176-179 | `powershell.exe` exactly on Windows, `pwsh` otherwise |
| Executor.Command | automation-engine/src/core/task_executor.py:245-246 | each argument vector ends with the script path; the same holds at lines 132, 161 and 188 |
| Executor.StagedPath | automation-engine/src/core/task_executor.py:143-147 | a file is staged except for Lua and for Bash on Windows, and then under `ScriptPath` |
| Executor.FileRunnerResult | automation-engine/src/core/task_executor.py:186-195 | a completed process gives its own tuple; PowerShell and Ruby report a missing interpreter as a -1 tuple; a timeout or other failure, or a missing Python or Bash interpreter, raises |
| Executor.LuaResult | automation-engine/src/core/task_executor.py:200-233 | exit code 0 exactly when the script ran, with empty stderr; a Lua error gives -1, empty stdout and the error text |
| Executor.LuaStdoutKeepsPrints | automation-engine/src/core/task_executor.py:227-230 | the captured prints can be read back from stdout line by line |
| Executor.LuaResultAsWritten | automation-engine/src/core/task_executor.py:227-228 | as written, stdout joins the keys 1..n of the output table, not the printed values |
| Executor.LuaAsWrittenLosesPrints | automation-engine/src/core/task_executor.py:227-228 | a script printing "hello" reports stdout "1" as written, and "hello" in the corrected model |
| Executor.BashResult | automation-engine/src/core/task_executor.py:143-169 | on Windows the fixed refusal tuple; otherwise a file-based runner |
| Executor.RunnerResult | automation-engine/src/core/task_executor.py:60-69 | the runner chosen for each runtime |
| Executor.RunTask | automation-engine/src/core/task_executor.py:59-71 | an unknown script type raises `Unsupported script type: <type>`; otherwise the runner of that runtime |
| Executor.Classify | automation-engine/src/core/task_executor.py:76-77 | success exactly when the exit code is 0; an error message exactly on failure, and then it is stderr |
| Executor.TaskToRun | automation-engine/src/core/task_executor.py:40-47 | a task is run exactly when it exists and is enabled |
| Executor.CompleteRun | automation-engine/src/core/task_executor.py:80-88 | the normal completion touches the executions only, and keeps their ids |
| Executor.RecordFailure | automation-engine/src/core/task_executor.py:94-117 | the except-path completion touches the executions and the log only, and keeps the execution ids |
| Executor.FinaliseSpec | automation-engine/src/core/task_executor.py:59-119 | the completion keeps the store's invariant |
| Executor.ExecuteSpec | automation-engine/src/core/task_executor.py:28-119 | `execute_task` as a function of the tables and the environment keeps the store's invariant |
| Executor.TaskExecutor.constructor | automation-engine/src/core/task_executor.py:22-26 | the executor keeps the store, the host, the platform name and the Python executable |
| Executor.TaskExecutor.ExecuteTask | automation-engine/src/core/task_executor.py:28-119 | the result and the new tables are `ExecuteSpec`; the files left and the launches made are `FilesAfter` and `LaunchesOf` |
| Executor.TaskExecutor.Dispatch | automation-engine/src/core/task_executor.py:59-71 | the run is `RunTask`; the files and launches are those of that runner |
| Executor.TaskExecutor.Finalise | automation-engine/src/core/task_executor.py:73-119 | the result and the new tables are `FinaliseSpec` |
| Executor.TaskExecutor.StageAndRun | automation-engine/src/core/task_executor.py:125-141 | the script is on disk when the interpreter starts; afterwards its path is gone on every outcome, also when the process deleted it itself (the exists-guard), and the other files are those the process left |
| Executor.TaskExecutor.ExecutePython | automation-engine/src/core/task_executor.py:121-141 | `FileRunnerResult` for Python, one launch of `[sys.executable, path]`, and the files the process left minus the script |
| Executor.TaskExecutor.ExecuteBash | automation-engine/src/core/task_executor.py:143-169 | `BashResult`; on Windows nothing is written or launched, otherwise one `/bin/bash` launch and the files the process left minus the script |
| Executor.TaskExecutor.ExecutePowerShell | automation-engine/src/core/task_executor.py:171-198 | `FileRunnerResult` for PowerShell, one launch of the platform's executable, and the files the process left minus the script |
| Executor.TaskExecutor.ExecuteLua | automation-engine/src/core/task_executor.py:200-233 | `LuaResult`; no file and no launch |
| Executor.TaskExecutor.ExecuteRuby | automation-engine/src/core/task_executor.py:235-256 | `FileRunnerResult` for Ruby, one `ruby` launch, and the files the process left minus the script |
| ExecutorProperties.FinaliseKeepsOthers | automation-engine/src/core/task_executor.py:73-119 | only the record being completed and the log change; the record keeps its task and trigger; the id is returned unless the except-path completion raises |
| ExecutorProperties.UnknownOrDisabledTaskRecordsNothing | automation-engine/src/core/task_executor.py:40-47 | an unknown or disabled task returns None and records, stages and launches nothing |
| ExecutorProperties.EnabledTaskGetsOneRecord | automation-engine/src/core/task_executor.py:50-54 | an enabled task gets exactly one new record with its task id and trigger; no other record, task, schedule or plugin changes |
| ExecutorProperties.NormalReturnIsClassified | automation-engine/src/core/task_executor.py:73-92 | on a normal return, success iff exit code 0, error message = stderr iff nonzero, exit code, streams and duration stored as returned, no log, the id returned |
| ExecutorProperties.ExceptPathFinalisesFailed | automation-engine/src/core/task_executor.py:94-119 | on the except path the record is failed with -1, empty stdout, the exception text as stderr and error message, the duration measured again in the `except` branch, and exactly one log entry with task and execution ids |
| ExecutorProperties.WhenRunnerRaises | automation-engine/src/core/task_executor.py:59-71 | the runner raises exactly for an unknown type, a timeout or other failure, or a missing Python or Bash interpreter |
| ExecutorProperties.UnsupportedScriptTypeFails | automation-engine/src/core/task_executor.py:70-71 | an unknown script type ends failed with the ValueError text, one log entry, and nothing staged or launched |
| ExecutorProperties.TimeoutFails | automation-engine/src/core/task_executor.py:131-141 | a timeout ends as a failed record with -1 and the timeout's text |
| ExecutorProperties.NeverLeftRunning | automation-engine/src/core/task_executor.py:80-119 | the record stays `running` exactly when the except-path completion raises too, and then the exception propagates; otherwise it is completed as success or failed |
| ExecutorProperties.BashOnWindowsIsRefused | automation-engine/src/core/task_executor.py:145-147 | Bash on Windows is a failed record with the refusal text, and nothing is written or launched |
| ExecutorProperties.TempScriptIsStagedThenRemoved | automation-engine/src/core/task_executor.py:126-141 | at most one launch, on the staged script with the task's content and the 300-second timeout; afterwards the staged path is gone and the files are exactly those the process left minus it (those before minus it when the interpreter was not found); when nothing is staged the files are exactly those before |
| ExecutorProperties.MissingInterpreterReported | automation-engine/src/core/task_executor.py:194-195 | PowerShell reports `<exe> not found on system` and Ruby `Ruby not found on system`; Python raises |
| Scheduling.CalculateNextRun | automation-engine/src/core/scheduler.py:122-143 | a forward-moving cron gives an instant after the base; when the cron evaluation raises, exactly base + 1 hour |
| Scheduling.AsUtc | automation-engine/src/core/scheduler.py:85-88 | a stored next_run without a zone is read as UTC |
| Scheduling.ScheduleError | automation-engine/src/core/scheduler.py:112-120 | only the log changes: exactly one `error` entry from `scheduler` is appended, naming the task, with the message as details and `schedule_id` metadata |
| Scheduling.StoreNextRun | automation-engine/src/core/scheduler.py:107-120 | touches the schedules and the log only: when `update_schedule_next_run` raises, the schedules are kept and exactly the `schedule_id` error entry is appended; otherwise the next run is stored and the log is kept |
| Scheduling.ProcessRowSpec | automation-engine/src/core/scheduler.py:71-120 | processing one row keeps the store's invariant |
| Scheduling.AfterRun | automation-engine/src/core/scheduler.py:94-120 | after the task ran, the executions, serial, tasks and clock are those the executor left |
| Scheduling.BatchSpec | automation-engine/src/core/scheduler.py:70-120 | a pass keeps the store's invariant |
| Scheduling.BatchSnoc | automation-engine/src/core/scheduler.py:70-71 | a pass over one more row is one more row step |
| Scheduling.TaskScheduler.constructor | automation-engine/src/core/scheduler.py:22-28 | not running, no thread, a 30-second interval |
| Scheduling.TaskScheduler.Start | automation-engine/src/core/scheduler.py:30-39 | running afterwards; a start while running changes nothing, otherwise exactly one new thread |
| Scheduling.TaskScheduler.Stop | automation-engine/src/core/scheduler.py:41-46 | not running afterwards; the thread record is kept |
| Scheduling.TaskScheduler.CheckAndExecuteScheduledTasks | automation-engine/src/core/scheduler.py:65-120 | a failed fetch changes nothing and raises; otherwise the rows are the active listing and store and host end as `BatchSpec` of the rows at one `now` |
| Scheduling.TaskScheduler.ProcessSchedule | automation-engine/src/core/scheduler.py:71-120 | store and host end as `ProcessRowSpec` |
| Scheduling.TaskScheduler.LogScheduleError | automation-engine/src/core/scheduler.py:112-120 | the store ends as `ScheduleError` |
| Scheduling.TaskScheduler.StoreNextRunOrLog | automation-engine/src/core/scheduler.py:107-108 | the store ends as `StoreNextRun` |
| Scheduling.TaskScheduler.RunIteration | automation-engine/src/core/scheduler.py:48-63 | a stopped scheduler leaves the loop and changes nothing; otherwise one pass, with a failed fetch logged as `Scheduler loop error` and the loop going on |
| SchedulingProperties.ExecuteKeepsSchedules | automation-engine/src/core/scheduler.py:95-98 | running a task leaves tasks, schedules, plugins and the clock alone; it raises exactly when `ExecPropagates` |
| SchedulingProperties.SeedingDoesNotExecute | automation-engine/src/core/scheduler.py:76-83 | a schedule without next_run is seeded from now and nothing runs on that pass |
| SchedulingProperties.DueScheduleFiresOnce | automation-engine/src/core/scheduler.py:91-108 | a due schedule gets exactly one new record triggered by `schedule`, and next_run is recomputed from now, so it is no longer due |
| SchedulingProperties.NotDueChangesNothing | automation-engine/src/core/scheduler.py:86-91 | a schedule not yet due changes nothing at all |
| SchedulingProperties.ExecutorFailureIsLogged | automation-engine/src/core/scheduler.py:94-120 | when `execute_task` raises for a due row, exactly the `schedule_id` error entry with its message follows the executor's log, and the schedule is not advanced |
| SchedulingProperties.UpdateFailureIsLogged | automation-engine/src/core/scheduler.py:76-120 | when `update_schedule_next_run` raises, while seeding (line 82) or after a run that returned (line 108), exactly the `schedule_id` error entry with its message is appended and the schedule is not written |
| SchedulingProperties.UnknownZoneOnlyLogs | automation-engine/src/core/scheduler.py:112-120 | an unknown zone (line 73) runs nothing, changes no schedule, and appends exactly the error entry |
| SchedulingProperties.ScheduleAfter | automation-engine/src/core/scheduler.py:76-108 | the schedule a row leaves behind, from the row alone |
| SchedulingProperties.RowTouchesOnlyItsSchedule | automation-engine/src/core/scheduler.py:71-120 | one row writes only its own schedule, as `ScheduleAfter` says |
| SchedulingProperties.DueRowSchedules | automation-engine/src/core/scheduler.py:91-108 | a due row writes only its own schedule |
| SchedulingProperties.AfterRunSchedules | automation-engine/src/core/scheduler.py:100-120 | after the task ran, the row writes its own schedule only when the run did not raise |
| SchedulingProperties.StoreNextRunSchedules | automation-engine/src/core/scheduler.py:107-108 | storing a next run writes that schedule only, and only when the store accepts it |
| SchedulingProperties.PassIsolatesSchedules | automation-engine/src/core/scheduler.py:70-120 | after a pass every listed schedule is as its own row alone leaves it, and unlisted schedules are untouched |
| SchedulingProperties.RowKeepsTasks | automation-engine/src/core/scheduler.py:71-120 | a row keeps the tasks, the clock and the schedule ids |
| SchedulingProperties.BatchKeepsTasks | automation-engine/src/core/scheduler.py:70-120 | a pass keeps the tasks, the clock and the schedule ids |
| SchedulingProperties.BatchLeavesOthers | automation-engine/src/core/scheduler.py:70-120 | a schedule no row names keeps its state through a pass |
| SchedulingProperties.BatchSetsRow | automation-engine/src/core/scheduler.py:70-120 | each row's schedule ends the pass as `ScheduleAfter` says, whatever the later rows do |
| SchedulingProperties.BatchSetsLastRow | automation-engine/src/core/scheduler.py:70-120 | the last row's schedule ends the pass as `ScheduleAfter` says |
| SchedulingProperties.RowExecutions | automation-engine/src/core/scheduler.py:91-98 | a listed row adds an execution exactly when it is due, for the schedule's task and triggered by `schedule`, and keeps earlier records |
| SchedulingProperties.QuietRowKeepsRecords | automation-engine/src/core/scheduler.py:76-91 | a row that is not due leaves the records alone |
| SchedulingProperties.PassRunsEachDueScheduleOnce | automation-engine/src/core/scheduler.py:70-98 | a pass runs each due schedule's task exactly once, in row order: the serial advances by the number of due rows, the j-th new record is for the task of the j-th due row (`DueTasks`), new records are triggered by `schedule`, and earlier records are kept |
| Plugins.PluginTypeOf | automation-engine/src/plugins/plugin_manager.py:35 | `lua` exactly for a `.lua` name, otherwise `ruby` |
| Plugins.PathJoin | automation-engine/src/plugins/plugin_manager.py:34 | the path ends with the name and, for a relative name, starts with the root and adds at most one separator |
| Plugins.FilesFoundClassified | automation-engine/src/plugins/plugin_manager.py:32-41 | each entry found in one directory is a plugin file of it, classified by extension, at `join(root, name)` |
| Plugins.DiscoveredAreClassified | automation-engine/src/plugins/plugin_manager.py:31-41 | every discovered entry ends in `.lua` or `.rb`, has type lua iff `.lua`, and is a file of a walked directory at `join(root, name)` |
| Plugins.FilesFoundComplete | automation-engine/src/plugins/plugin_manager.py:32-41 | every plugin file of a directory is found |
| Plugins.DiscoveryIsComplete | automation-engine/src/plugins/plugin_manager.py:31-41 | every `.lua` or `.rb` file of every walked directory is discovered |
| Plugins.FilesFoundCount | automation-engine/src/plugins/plugin_manager.py:32-41 | one entry per plugin file and no others |
| Plugins.RubyCommand | automation-engine/src/plugins/plugin_manager.py:133-135 | `['ruby', path]` followed by the arguments in order |
| Plugins.RubyResult | automation-engine/src/plugins/plugin_manager.py:144-167 | success iff the process exits 0, with exit code, streams and path; a timeout, a missing interpreter and other errors give their fixed texts |
| Plugins.LuaCallMade | automation-engine/src/plugins/plugin_manager.py:92-106 | the function is called exactly when the plugin loaded and the name is bound, and with no arguments exactly when they are empty |
| Plugins.LuaPluginResult | automation-engine/src/plugins/plugin_manager.py:67-119 | a load error gives its text; an unbound name gives `Function <name> not found in plugin`; success exactly when the call returns |
| Plugins.PluginById | automation-engine/src/plugins/plugin_manager.py:181-182 | the plugin found is the enabled plugin with that id |
| Plugins.FindPlugin | automation-engine/src/plugins/plugin_manager.py:182 | the first plugin with the id; None exactly when there is none |
| Plugins.FindInEnabledListing | automation-engine/src/plugins/plugin_manager.py:181-182 | searching the enabled listing finds exactly the enabled plugin with that id |
| Plugins.UnknownPluginRunsNothing | automation-engine/src/plugins/plugin_manager.py:184-188 | an id not among the enabled plugins fails with `Plugin <id> not found or disabled` and launches nothing |
| Plugins.UnsupportedPluginType | automation-engine/src/plugins/plugin_manager.py:197-201 | another plugin type fails with `Unsupported plugin type: <type>` and launches nothing |
| Plugins.ArgumentsByPluginType | automation-engine/src/plugins/plugin_manager.py:193-196 | Lua gets the arguments only as a non-empty dict, else no arguments; Ruby gets them only as a list, else `ruby <path>` alone |
| Plugins.RubyPluginOutcome | automation-engine/src/plugins/plugin_manager.py:195-196 | a Ruby plugin succeeds iff exit code 0 and reports code, streams and path; timeout and missing interpreter give their texts |
| Plugins.PluginManager.constructor | automation-engine/src/plugins/plugin_manager.py:16-20 | the manager keeps the store, the host and the directory, `/app/plugins` by default |
| Plugins.PluginManager.DiscoverPlugins | automation-engine/src/plugins/plugin_manager.py:23-44 | nothing when the directory is missing, otherwise `DiscoverSpec` of the walk |
| Plugins.PluginManager.ExecuteLuaPlugin | automation-engine/src/plugins/plugin_manager.py:67-119 | the result is `LuaPluginResult`, with function `main` by default |
| Plugins.PluginManager.ExecuteRubyPlugin | automation-engine/src/plugins/plugin_manager.py:121-167 | the result is `RubyResult`, after exactly one `RubyCommand` launch with the 300-second timeout; the files are those the process left |
| Plugins.PluginManager.ExecutePlugin | automation-engine/src/plugins/plugin_manager.py:169-201 | the result is `ExecutePluginSpec` of the enabled plugin with that id; the only launch, and the only change to the files, is the Ruby one |

## Left out

- Cron parsing and evaluation (croniter) and time-zone conversion (pytz) are an abstract partial function. Daylight-saving behaviour is not modelled. The text of `UnknownTimeZoneError` is the zone name in quotes, which is its `repr` only for a name without quotes or backslashes. `CronForward` is an assumption stated where it is used, not a fact about croniter.
- Threads, `time.sleep` and the bounded `join` are reduced to the `running`, `schedulerThread` and `threadsStarted` fields and to one loop pass (`RunIteration`) at a time. Concurrent manual and scheduled runs are not modelled.
- `subprocess.run`, its real 300-second timeout, `os.chmod` and the lupa runtime are not modelled. Their results are inputs, and the timeout is recorded on each launch.
- Durations are float wall-clock time in the source; here they are an opaque natural number.
- The store's clock is one constant `CURRENT_TIMESTAMP` per state. The server's clock does not advance between statements here.
- Execution ids are UUIDs generated by the store; here they are a serial number. `created_at` of execution records is not modelled.
- The connection pool, the SQL text, the environment configuration, and the AI-result and notification operations of the store are not modelled.
- `ORDER BY name` is modelled as code-point order. A database collation may order names differently.
- Store failures are modelled as inputs in these places: `complete_task_execution` (both calls), `update_schedule_next_run` and `get_active_schedules`. `create_task_execution`, `update_task_execution_status`, `get_task_by_id`, `log_system_event`, `get_enabled_tasks` and `get_enabled_plugins` are modelled as never raising. `execute_plugin` calls `get_enabled_plugins` outside any `try` (plugin_manager.py:181), so a failure there would leave `execute_plugin` as an exception.
- Writing or chmod-ing a temporary script is modelled as never failing. The write and the chmod come before each runner's `try` (task_executor.py:127-128, 153-157, 183-184, 241-242), so a failure there would take the except path of `execute_task` with no `finally`, and a script written before a failed chmod would stay on disk. That is the one path on which the source does not remove the temporary script.
- `Executor.TaskExecutor.ExecuteLua`: it returns the corrected `LuaResult`, so the model of `execute_task` stores the captured prints joined by newlines, where the program as written stores the keys `1` to `n` of the output table (see Findings and `Executor.LuaResultAsWritten`).
- `Executor.RunnerResult`: for Lua it is the corrected `LuaResult`, as for `Executor.TaskExecutor.ExecuteLua` above.
- `Executor.TaskExecutor.ExecuteTask`: log messages written through Python's `logging` are not modelled. Only `system_logs` rows are.
- `Scheduling.CalculateNextRun`: `astimezone` and `croniter` are folded into the oracle. The contract states the fallback and forward motion, not the cron semantics.
- `Scheduling.TaskScheduler.Stop`: the bounded `join(timeout=5)` is not modelled. Only the flag the loop tests is cleared.
- `load_lua_plugin`, `register_plugin` (a placeholder that always returns true) and the unused `loaded_plugins` dictionary are not modelled.
- `Plugins.LuaPluginResult`: the value a Lua function returns is modelled as text. A function name that is not a valid Lua expression (so `lua.eval` itself raises) is folded into the call outcome.
- `Plugins.ArgValue`: plugin arguments are dicts of strings or lists of strings. Other Python values are only distinguished as "neither".
- The main program, the HTTP API, the CLI, notifications and the image and text processors are not part of this model.

## Findings

| source | as written | input that shows it | evidently intended | confidence | as-written member | corrected member |
|---|---|---|---|---|---|---|
| automation-engine/src/core/task_executor.py:227-228 | stdout joins what Python's iteration of the Lua output table yields: its keys 1..n, not the printed values | a Lua task whose script is `print("hello")` is stored with stdout `1` | stdout is the captured prints joined by newlines, as the print override collects them | medium, not executed | Executor.LuaResultAsWritten | Executor.LuaResult |

`Executor.LuaAsWrittenLosesPrints` exhibits the discrepancy on that input for both definitions. `Executor.LuaStdoutKeepsPrints` proves that the corrected stdout gives back the prints, line by line. The rest of the model uses `Executor.LuaResult`.
