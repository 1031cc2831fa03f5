/** The store behind the engine (automation-engine/src/database/db_manager.py),
    reduced to the semantics of its table operations.  Each table is a map
    keyed by id; `Tables` is the whole database as a value and its member
    functions are the UPDATE/INSERT statements the engine issues, each with
    the frame it keeps.  `DatabaseManager` holds the same tables as fields
    and updates them in place. */
module Store {
  import opened Common

  type TaskId = string
  type ScheduleId = string
  type PluginId = string
  /** Execution ids are issued by the store; a serial number stands for the
      generated UUID. */
  type ExecutionId = nat

  /** A row of `tasks`. */
  datatype Task = Task(
    id: TaskId,
    name: string,
    scriptType: string,
    scriptContent: string,
    isEnabled: bool,
    createdAt: Instant)

  /** The values of `task_executions.status` the engine writes. */
  datatype Status = Pending | Running | Success | Failed

  /** A row of `task_executions`; columns the engine never writes are absent. */
  datatype Execution = Execution(
    taskId: TaskId,
    triggeredBy: string,
    status: Status,
    exitCode: Option<int>,
    stdout: Option<string>,
    stderr: Option<string>,
    durationMs: Option<nat>,
    errorMessage: Option<string>,
    updatedAt: Option<Instant>,
    completedAt: Option<Instant>)

  /** A stored timestamp, which may come back without a zone. */
  datatype StoredTime = Naive(wall: Instant) | Aware(instant: Instant)

  /** A row of `schedules`. */
  datatype Schedule = Schedule(
    id: ScheduleId,
    taskId: TaskId,
    cronExpression: string,
    timezone: string,
    isActive: bool,
    nextRun: Option<StoredTime>,
    lastRun: Option<Instant>)

  /** A row of `get_active_schedules`: the schedule with its task's name and
      script type joined in. */
  datatype ActiveSchedule = ActiveSchedule(schedule: Schedule, taskName: string, scriptType: string)

  /** A row of `plugins`. */
  datatype Plugin = Plugin(
    id: PluginId,
    name: string,
    pluginType: string,
    filePath: string,
    isEnabled: bool)

  /** A value in a system log's JSON metadata. */
  datatype MetaValue = Text(text: string) | ExecutionRef(execution: ExecutionId)

  /** A row of `system_logs`. */
  datatype LogEntry = LogEntry(
    level: string,
    component: string,
    message: string,
    stackTrace: Option<string>,
    metadata: map<string, MetaValue>)

  /** The schedules `get_active_schedules` returns: active, with an enabled task. */
  predicate IsListed(tasks: map<TaskId, Task>, s: Schedule)
  {
    s.isActive && s.taskId in tasks && tasks[s.taskId].isEnabled
  }

  function Joined(tasks: map<TaskId, Task>, s: Schedule): ActiveSchedule
    requires s.taskId in tasks
  {
    ActiveSchedule(s, tasks[s.taskId].name, tasks[s.taskId].scriptType)
  }

  /** `rows` is a listing of the active schedules: every row is a listed
      schedule with its task's fields, every listed schedule has a row, and
      no schedule appears twice. */
  ghost predicate IsActiveListing(tasks: map<TaskId, Task>, schedules: map<ScheduleId, Schedule>,
                                  rows: seq<ActiveSchedule>)
  {
    && (forall i :: 0 <= i < |rows| ==>
          && rows[i].schedule.id in schedules
          && schedules[rows[i].schedule.id] == rows[i].schedule
          && IsListed(tasks, rows[i].schedule)
          && rows[i] == Joined(tasks, rows[i].schedule))
    && (forall id :: id in schedules && IsListed(tasks, schedules[id]) ==>
          exists i :: 0 <= i < |rows| && rows[i].schedule.id == id)
    && (forall i, j :: 0 <= i < j < |rows| ==> rows[i].schedule.id != rows[j].schedule.id)
  }

  /** `r` lists exactly the enabled tasks among the ids in `done`, each once. */
  ghost predicate ListsEnabledTasks(tasks: map<TaskId, Task>, done: set<TaskId>, r: seq<Task>)
  {
    && (forall i :: 0 <= i < |r| ==>
          r[i].id in done && r[i].id in tasks && tasks[r[i].id] == r[i] && r[i].isEnabled)
    && (forall id :: id in done && id in tasks && tasks[id].isEnabled ==>
          exists i :: 0 <= i < |r| && r[i].id == id)
    && (forall i, j :: 0 <= i < j < |r| ==> r[i].id != r[j].id)
  }

  /** `r` lists exactly the enabled plugins among the ids in `done`, each once. */
  ghost predicate ListsEnabledPlugins(plugins: map<PluginId, Plugin>, done: set<PluginId>, r: seq<Plugin>)
  {
    && (forall i :: 0 <= i < |r| ==>
          r[i].id in done && r[i].id in plugins && plugins[r[i].id] == r[i] && r[i].isEnabled)
    && (forall id :: id in done && id in plugins && plugins[id].isEnabled ==>
          exists i :: 0 <= i < |r| && r[i].id == id)
    && (forall i, j :: 0 <= i < j < |r| ==> r[i].id != r[j].id)
  }

  ghost predicate NewestFirst(r: seq<Task>)
  {
    forall i, j :: 0 <= i < j < |r| ==> r[i].createdAt >= r[j].createdAt
  }

  ghost predicate ByName(r: seq<Plugin>)
  {
    forall i, j :: 0 <= i < j < |r| ==> StrLe(r[i].name, r[j].name)
  }

  /** The whole database as a value. `clock` is the server's CURRENT_TIMESTAMP. */
  datatype Tables = Tables(
    tasks: map<TaskId, Task>,
    executions: map<ExecutionId, Execution>,
    schedules: map<ScheduleId, Schedule>,
    plugins: map<PluginId, Plugin>,
    logs: seq<LogEntry>,
    nextExecutionId: nat,
    clock: Instant)
  {
    /** Rows are stored under their own id, and execution ids below the serial. */
    ghost predicate Valid()
    {
      && (forall k :: k in tasks ==> tasks[k].id == k)
      && (forall k :: k in schedules ==> schedules[k].id == k)
      && (forall k :: k in plugins ==> plugins[k].id == k)
      && (forall k :: k in executions ==> k < nextExecutionId)
    }

    /** INSERT INTO task_executions (task_id, status, triggered_by) VALUES (.., 'pending', ..). */
    function CreateExecution(taskId: TaskId, triggeredBy: string): (r: (Tables, ExecutionId))
      requires Valid()
      ensures r.0.Valid()
      ensures r.1 !in executions
      ensures r.0.executions == executions[r.1 := Execution(taskId, triggeredBy, Pending,
                                                             None, None, None, None, None, None, None)]
      ensures r.0.(executions := executions, nextExecutionId := nextExecutionId) == this
    {
      (this.(executions := executions[nextExecutionId := Execution(taskId, triggeredBy, Pending,
                                                                   None, None, None, None, None, None, None)],
             nextExecutionId := nextExecutionId + 1),
       nextExecutionId)
    }

    /** UPDATE task_executions SET status, updated_at WHERE id. */
    function SetStatus(id: ExecutionId, status: Status): (t: Tables)
      ensures t.executions.Keys == executions.Keys
      ensures forall k :: k in executions && k != id ==> t.executions[k] == executions[k]
      ensures id in executions ==>
                t.executions[id] == executions[id].(status := status, updatedAt := Some(clock))
      ensures t.(executions := executions) == this
    {
      if id in executions
      then this.(executions := executions[id := executions[id].(status := status, updatedAt := Some(clock))])
      else this
    }

    /** UPDATE task_executions SET status, exit_code, stdout, stderr, duration_ms,
        error_message, completed_at WHERE id. */
    function Complete(id: ExecutionId, status: Status, exitCode: int, stdout: string, stderr: string,
                      durationMs: nat, errorMessage: Option<string>): (t: Tables)
      ensures t.executions.Keys == executions.Keys
      ensures forall k :: k in executions && k != id ==> t.executions[k] == executions[k]
      ensures id in executions ==>
                var e := t.executions[id];
                && e.status == status && e.exitCode == Some(exitCode)
                && e.stdout == Some(stdout) && e.stderr == Some(stderr)
                && e.durationMs == Some(durationMs) && e.errorMessage == errorMessage
                && e.completedAt == Some(clock)
                && e.taskId == executions[id].taskId && e.triggeredBy == executions[id].triggeredBy
                && e.updatedAt == executions[id].updatedAt
      ensures t.(executions := executions) == this
    {
      if id in executions
      then this.(executions := executions[id := executions[id].(
                   status := status, exitCode := Some(exitCode), stdout := Some(stdout),
                   stderr := Some(stderr), durationMs := Some(durationMs),
                   errorMessage := errorMessage, completedAt := Some(clock))])
      else this
    }

    /** UPDATE schedules SET next_run, last_run = CURRENT_TIMESTAMP WHERE id. */
    function UpdateNextRun(id: ScheduleId, nextRun: Instant): (t: Tables)
      ensures t.schedules.Keys == schedules.Keys
      ensures forall k :: k in schedules && k != id ==> t.schedules[k] == schedules[k]
      ensures id in schedules ==>
                t.schedules[id] == schedules[id].(nextRun := Some(Aware(nextRun)), lastRun := Some(clock))
      ensures t.(schedules := schedules) == this
    {
      if id in schedules
      then this.(schedules := schedules[id := schedules[id].(nextRun := Some(Aware(nextRun)),
                                                              lastRun := Some(clock))])
      else this
    }

    /** INSERT INTO system_logs; absent metadata is stored as {}. */
    function Log(level: string, component: string, message: string, stackTrace: Option<string>,
                 metadata: Option<map<string, MetaValue>>): (t: Tables)
      ensures |t.logs| == |logs| + 1 && t.logs[..|logs|] == logs
      ensures t.logs[|logs|].metadata == (if metadata.Some? then metadata.value else map[])
      ensures t.logs[|logs|].level == level && t.logs[|logs|].component == component
      ensures t.logs[|logs|].message == message && t.logs[|logs|].stackTrace == stackTrace
      ensures t.(logs := logs) == this
    {
      this.(logs := logs + [LogEntry(level, component, message, stackTrace,
                                     if metadata.Some? then metadata.value else map[])])
    }
  }

  /** SELECT * FROM tasks WHERE id = %s. */
  function TaskById(t: Tables, id: TaskId): (r: Option<Task>)
    requires t.Valid()
    ensures r.None? <==> id !in t.tasks
    ensures r.Some? ==> r.value == t.tasks[id] && r.value.id == id
  {
    if id in t.tasks then Some(t.tasks[id]) else None
  }

  /** The in-memory database the engine talks to. */
  class DatabaseManager {
    var tasks: map<TaskId, Task>
    var executions: map<ExecutionId, Execution>
    var schedules: map<ScheduleId, Schedule>
    var plugins: map<PluginId, Plugin>
    var logs: seq<LogEntry>
    var nextExecutionId: nat
    var clock: Instant

    function State(): Tables
      reads this
    {
      Tables(tasks, executions, schedules, plugins, logs, nextExecutionId, clock)
    }

    ghost predicate Valid()
      reads this
    {
      State().Valid()
    }

    constructor (tasks: map<TaskId, Task>, schedules: map<ScheduleId, Schedule>,
                 plugins: map<PluginId, Plugin>, clock: Instant)
      requires Tables(tasks, map[], schedules, plugins, [], 0, clock).Valid()
      ensures Valid()
      ensures State() == Tables(tasks, map[], schedules, plugins, [], 0, clock)
    {
      this.tasks := tasks;
      this.executions := map[];
      this.schedules := schedules;
      this.plugins := plugins;
      this.logs := [];
      this.nextExecutionId := 0;
      this.clock := clock;
    }

    /** `get_enabled_tasks`: exactly the enabled tasks, newest `created_at` first. */
    method GetEnabledTasks() returns (r: seq<Task>)
      requires Valid()
      ensures ListsEnabledTasks(tasks, tasks.Keys, r)
      ensures NewestFirst(r)
    {
      r := [];
      var todo := tasks.Keys;
      ghost var done: set<TaskId> := {};
      while todo != {}
        invariant todo <= tasks.Keys && done == tasks.Keys - todo
        invariant ListsEnabledTasks(tasks, done, r)
        invariant NewestFirst(r)
        decreases todo
      {
        var id :| id in todo;
        todo := todo - {id};
        if tasks[id].isEnabled {
          var r0 := r;
          var k;
          r, k := InsertNewestFirst(r, tasks[id]);
          InsertKeepsTaskListing(tasks, done, r0, k, r, id);
        }
        done := done + {id};
      }
    }

    /** `get_task_by_id`: the task with that id, or None when there is none. */
    method GetTaskById(id: TaskId) returns (r: Option<Task>)
      requires Valid()
      ensures r == TaskById(State(), id)
    {
      r := if id in tasks then Some(tasks[id]) else None;
    }

    /** `create_task_execution`: one fresh `pending` record; returns its id. */
    method CreateTaskExecution(taskId: TaskId, triggeredBy: string := "manual") returns (id: ExecutionId)
      requires Valid()
      modifies this
      ensures Valid()
      ensures (State(), id) == old(State()).CreateExecution(taskId, triggeredBy)
    {
      id := nextExecutionId;
      executions := executions[id := Execution(taskId, triggeredBy, Pending,
                                               None, None, None, None, None, None, None)];
      nextExecutionId := nextExecutionId + 1;
    }

    /** `update_task_execution_status`: only the status and updated_at of that record. */
    method UpdateTaskExecutionStatus(id: ExecutionId, status: Status)
      requires Valid()
      modifies this
      ensures Valid()
      ensures State() == old(State()).SetStatus(id, status)
    {
      if id in executions {
        executions := executions[id := executions[id].(status := status, updatedAt := Some(clock))];
      }
    }

    /** `complete_task_execution`: the result columns and completed_at of that record. */
    method CompleteTaskExecution(id: ExecutionId, status: Status, exitCode: int, stdout: string,
                                 stderr: string, durationMs: nat, errorMessage: Option<string>)
      requires Valid()
      modifies this
      ensures Valid()
      ensures State() == old(State()).Complete(id, status, exitCode, stdout, stderr, durationMs, errorMessage)
    {
      if id in executions {
        executions := executions[id := executions[id].(
          status := status, exitCode := Some(exitCode), stdout := Some(stdout),
          stderr := Some(stderr), durationMs := Some(durationMs),
          errorMessage := errorMessage, completedAt := Some(clock))];
      }
    }

    /** `get_active_schedules`: the active schedules whose task exists and is
        enabled, each with the task's name and script type (in no particular order). */
    method GetActiveSchedules() returns (rows: seq<ActiveSchedule>)
      requires Valid()
      ensures IsActiveListing(tasks, schedules, rows)
    {
      rows := [];
      var todo := schedules.Keys;
      while todo != {}
        invariant todo <= schedules.Keys
        invariant forall i :: 0 <= i < |rows| ==>
                    && rows[i].schedule.id in schedules
                    && schedules[rows[i].schedule.id] == rows[i].schedule
                    && IsListed(tasks, rows[i].schedule)
                    && rows[i] == Joined(tasks, rows[i].schedule)
                    && rows[i].schedule.id !in todo
        invariant forall id :: id in schedules && IsListed(tasks, schedules[id]) && id !in todo ==>
                    exists i :: 0 <= i < |rows| && rows[i].schedule.id == id
        invariant forall i, j :: 0 <= i < j < |rows| ==> rows[i].schedule.id != rows[j].schedule.id
        decreases todo
      {
        var id :| id in todo;
        todo := todo - {id};
        var s := schedules[id];
        if IsListed(tasks, s) {
          var rows0 := rows;
          rows := rows + [Joined(tasks, s)];
          assert rows[|rows0|].schedule.id == id;
          assert forall i :: 0 <= i < |rows0| ==> rows0[i] == rows[i];
        }
      }
    }

    /** `update_schedule_next_run`: next_run and last_run of that schedule only. */
    method UpdateScheduleNextRun(id: ScheduleId, nextRun: Instant)
      requires Valid()
      modifies this
      ensures Valid()
      ensures State() == old(State()).UpdateNextRun(id, nextRun)
    {
      if id in schedules {
        schedules := schedules[id := schedules[id].(nextRun := Some(Aware(nextRun)), lastRun := Some(clock))];
      }
    }

    /** `get_enabled_plugins`: exactly the enabled plugins, ordered by name. */
    method GetEnabledPlugins() returns (r: seq<Plugin>)
      requires Valid()
      ensures ListsEnabledPlugins(plugins, plugins.Keys, r)
      ensures ByName(r)
    {
      r := [];
      var todo := plugins.Keys;
      ghost var done: set<PluginId> := {};
      while todo != {}
        invariant todo <= plugins.Keys && done == plugins.Keys - todo
        invariant ListsEnabledPlugins(plugins, done, r)
        invariant ByName(r)
        decreases todo
      {
        var id :| id in todo;
        todo := todo - {id};
        if plugins[id].isEnabled {
          var r0 := r;
          var k;
          r, k := InsertByName(r, plugins[id]);
          InsertKeepsPluginListing(plugins, done, r0, k, r, id);
        }
        done := done + {id};
      }
    }

    /** `log_system_event`: appends one entry; metadata defaults to {}. */
    method LogSystemEvent(level: string, component: string, message: string,
                          stackTrace: Option<string> := None,
                          metadata: Option<map<string, MetaValue>> := None)
      requires Valid()
      modifies this
      ensures Valid()
      ensures State() == old(State()).Log(level, component, message, stackTrace, metadata)
    {
      logs := logs + [LogEntry(level, component, message, stackTrace,
                               if metadata.Some? then metadata.value else map[])];
    }
  }

  /** Where the elements of `r0` are after inserting `x` at position `k`. */
  lemma InsertedAt<T>(r0: seq<T>, x: T, k: nat, r: seq<T>)
    requires k <= |r0| && r == r0[..k] + [x] + r0[k..]
    ensures |r| == |r0| + 1 && r[k] == x
    ensures forall i :: 0 <= i < k ==> r[i] == r0[i]
    ensures forall i :: k < i < |r| ==> r[i] == r0[i - 1]
    ensures forall i :: 0 <= i < |r0| ==> r0[i] == r[if i < k then i else i + 1]
  {
  }

  lemma InsertKeepsTaskListing(tasks: map<TaskId, Task>, done: set<TaskId>, r0: seq<Task>, k: nat,
                                r: seq<Task>, id: TaskId)
    requires ListsEnabledTasks(tasks, done, r0)
    requires id in tasks && tasks[id].isEnabled && id !in done && tasks[id].id == id
    requires k <= |r0| && r == r0[..k] + [tasks[id]] + r0[k..]
    ensures ListsEnabledTasks(tasks, done + {id}, r)
  {
    InsertedAt(r0, tasks[id], k, r);
    forall i | 0 <= i < |r|
      ensures r[i].id in done + {id} && r[i].id in tasks && tasks[r[i].id] == r[i] && r[i].isEnabled
    {
      if i != k { var j := if i < k then i else i - 1; assert r[i] == r0[j]; }
    }
    forall x | x in done + {id} && x in tasks && tasks[x].isEnabled
      ensures exists i :: 0 <= i < |r| && r[i].id == x
    {
      if x == id {
        assert r[k].id == x;
      } else {
        var j :| 0 <= j < |r0| && r0[j].id == x;
        assert r[if j < k then j else j + 1].id == x;
      }
    }
    forall i, j | 0 <= i < j < |r| ensures r[i].id != r[j].id {
      if i != k && j != k {
        assert r[i] == r0[if i < k then i else i - 1];
        assert r[j] == r0[if j < k then j else j - 1];
      }
    }
  }

  lemma InsertKeepsPluginListing(plugins: map<PluginId, Plugin>, done: set<PluginId>, r0: seq<Plugin>,
                                 k: nat, r: seq<Plugin>, id: PluginId)
    requires ListsEnabledPlugins(plugins, done, r0)
    requires id in plugins && plugins[id].isEnabled && id !in done && plugins[id].id == id
    requires k <= |r0| && r == r0[..k] + [plugins[id]] + r0[k..]
    ensures ListsEnabledPlugins(plugins, done + {id}, r)
  {
    InsertedAt(r0, plugins[id], k, r);
    forall i | 0 <= i < |r|
      ensures r[i].id in done + {id} && r[i].id in plugins && plugins[r[i].id] == r[i] && r[i].isEnabled
    {
      if i != k { var j := if i < k then i else i - 1; assert r[i] == r0[j]; }
    }
    forall x | x in done + {id} && x in plugins && plugins[x].isEnabled
      ensures exists i :: 0 <= i < |r| && r[i].id == x
    {
      if x == id {
        assert r[k].id == x;
      } else {
        var j :| 0 <= j < |r0| && r0[j].id == x;
        assert r[if j < k then j else j + 1].id == x;
      }
    }
    forall i, j | 0 <= i < j < |r| ensures r[i].id != r[j].id {
      if i != k && j != k {
        assert r[i] == r0[if i < k then i else i - 1];
        assert r[j] == r0[if j < k then j else j - 1];
      }
    }
  }

  /** Inserts `t` into a newest-first sequence at the first position whose
      task is not newer. */
  method InsertNewestFirst(r: seq<Task>, t: Task) returns (s: seq<Task>, k: nat)
    requires NewestFirst(r)
    ensures k <= |r| && s == r[..k] + [t] + r[k..]
    ensures NewestFirst(s)
  {
    k := 0;
    while k < |r| && r[k].createdAt > t.createdAt
      invariant k <= |r|
      invariant forall i :: 0 <= i < k ==> r[i].createdAt > t.createdAt
    {
      k := k + 1;
    }
    s := r[..k] + [t] + r[k..];
    forall i, j | 0 <= i < j < |s| ensures s[i].createdAt >= s[j].createdAt {
      if j < k || i > k {
      } else if i == k {
        assert r[k].createdAt <= t.createdAt;
      }
    }
  }

  /** Inserts `p` into a by-name sequence at the first position whose name is
      not smaller. */
  method InsertByName(r: seq<Plugin>, p: Plugin) returns (s: seq<Plugin>, k: nat)
    requires ByName(r)
    ensures k <= |r| && s == r[..k] + [p] + r[k..]
    ensures ByName(s)
  {
    k := 0;
    while k < |r| && !StrLe(p.name, r[k].name)
      invariant k <= |r|
      invariant forall i :: 0 <= i < k ==> StrLe(r[i].name, p.name)
    {
      StrLeTotal(p.name, r[k].name);
      k := k + 1;
    }
    forall m | k <= m < |r| ensures StrLe(p.name, r[m].name) {
      if m > k {
        StrLeTrans(p.name, r[k].name, r[m].name);
      }
    }
    s := r[..k] + [p] + r[k..];
    forall i, j | 0 <= i < j < |s| ensures StrLe(s[i].name, s[j].name) {
      if i < k && k < j {
        StrLeTrans(r[i].name, p.name, r[j - 1].name);
      }
    }
  }
}
