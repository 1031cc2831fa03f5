/** What the scheduler promises about one schedule and about a whole pass,
    proved about `ProcessRowSpec` and `BatchSpec` (the contracts of
    `TaskScheduler.ProcessSchedule` and `TaskScheduler.CheckAndExecuteScheduledTasks`). */
module SchedulingProperties {
  import opened Common
  import opened Store
  import opened Executor
  import opened ExecutorProperties
  import opened Scheduling

  /** Running the task of a schedule raises out of `execute_task`: the task
      is enabled, the executor takes its exception path, and the completion
      there raises too. */
  predicate ExecPropagates(tasks: map<TaskId, Task>, taskId: TaskId, osType: string, env: ExecEnv)
  {
    && taskId in tasks && tasks[taskId].isEnabled
    && env.recoveryFault.Some?
    && TakesExceptPath(RunTask(tasks[taskId], osType, env), env)
  }

  /** Running a task leaves tasks, schedules, plugins and the clock alone,
      and raises exactly when `ExecPropagates` says so. */
  lemma ExecuteKeepsSchedules(t: Tables, taskId: TaskId, triggeredBy: string, osType: string, env: ExecEnv)
    requires t.Valid()
    ensures var o := ExecuteSpec(t, taskId, triggeredBy, osType, env);
            && o.tables.tasks == t.tasks && o.tables.schedules == t.schedules
            && o.tables.plugins == t.plugins && o.tables.clock == t.clock
            && (o.result.Propagated? <==> ExecPropagates(t.tasks, taskId, osType, env))
  {
    if taskId in t.tasks && t.tasks[taskId].isEnabled {
      EnabledTaskGetsOneRecord(t, taskId, triggeredBy, osType, env);
    }
  }

  /** A schedule without a next run is only seeded: no task runs, nothing
      is launched, and the next run becomes the next cron occurrence after
      now (an hour from now when the expression is bad). */
  lemma SeedingDoesNotExecute(w: World, row: ActiveSchedule, now: Instant, osType: string, pythonExecutable: string,
                              env: SchedulerEnv)
    requires w.tables.Valid()
    requires row.schedule.timezone in env.zones && row.schedule.nextRun.None?
    requires row.schedule.id in w.tables.schedules
    ensures var r := ProcessRowSpec(w, row, now, osType, pythonExecutable, env);
            var s := row.schedule;
            && r.files == w.files && r.launches == w.launches
            && r.tables.executions == w.tables.executions
            && r.tables.nextExecutionId == w.tables.nextExecutionId
            && s.id in r.tables.schedules
            && (s.id !in env.updateFaults ==>
                  r.tables.schedules[s.id].nextRun == Some(Aware(CalculateNextRun(env.cron, s.cronExpression, now, s.timezone))))
            && (s.id !in env.updateFaults && CronForward(env.cron) ==>
                  now < AsUtc(r.tables.schedules[s.id].nextRun.value))
  {
  }

  /** A due schedule whose task runs to completion fires exactly once: one
      new execution record, triggered by "schedule", and the next run is
      computed from now, not from the missed time, so it is no longer due. */
  lemma DueScheduleFiresOnce(w: World, row: ActiveSchedule, now: Instant, osType: string, pythonExecutable: string,
                             env: SchedulerEnv)
    requires w.tables.Valid()
    requires row.schedule.timezone in env.zones && IsDue(row, now)
    requires row.schedule.id in w.tables.schedules && row.schedule.id !in env.updateFaults
    requires IsListed(w.tables.tasks, row.schedule)
    requires !ExecPropagates(w.tables.tasks, row.schedule.taskId, osType, env.exec(row.schedule.id))
    ensures var r := ProcessRowSpec(w, row, now, osType, pythonExecutable, env);
            var s := row.schedule;
            var id := w.tables.nextExecutionId;
            && s.id in r.tables.schedules
            && r.tables.executions.Keys == w.tables.executions.Keys + {id}
            && id !in w.tables.executions
            && r.tables.executions[id].taskId == s.taskId
            && r.tables.executions[id].triggeredBy == "schedule"
            && r.tables.schedules[s.id].nextRun == Some(Aware(CalculateNextRun(env.cron, s.cronExpression, now, s.timezone)))
            && r.tables.schedules[s.id].lastRun == Some(w.tables.clock)
            && (CronForward(env.cron) ==> !IsDue(ActiveSchedule(r.tables.schedules[s.id], row.taskName, row.scriptType), now))
  {
    var s := row.schedule;
    EnabledTaskGetsOneRecord(w.tables, s.taskId, "schedule", osType, env.exec(s.id));
    ExecuteKeepsSchedules(w.tables, s.taskId, "schedule", osType, env.exec(s.id));
  }

  /** A schedule that is not yet due changes nothing at all. */
  lemma NotDueChangesNothing(w: World, row: ActiveSchedule, now: Instant, osType: string, pythonExecutable: string,
                             env: SchedulerEnv)
    requires w.tables.Valid()
    requires row.schedule.timezone in env.zones && row.schedule.nextRun.Some?
    requires now < AsUtc(row.schedule.nextRun.value)
    ensures ProcessRowSpec(w, row, now, osType, pythonExecutable, env) == w
  {
  }

  /** A schedule with an unknown zone runs nothing and changes no schedule;
      the only trace is one error log naming the task and the schedule. */
  lemma UnknownZoneOnlyLogs(w: World, row: ActiveSchedule, now: Instant, osType: string, pythonExecutable: string,
                            env: SchedulerEnv)
    requires w.tables.Valid()
    requires row.schedule.timezone !in env.zones
    ensures var r := ProcessRowSpec(w, row, now, osType, pythonExecutable, env);
            && r.files == w.files && r.launches == w.launches
            && r.tables.executions == w.tables.executions && r.tables.schedules == w.tables.schedules
            && r.tables.logs == w.tables.logs + [ScheduleErrorEntry(row, "'" + row.schedule.timezone + "'")]
  {
  }

  /** A due row whose `execute_task` raises: the error is logged with the
      schedule's id after whatever the executor logged, and the schedule is
      left as the executor left it. */
  lemma ExecutorFailureIsLogged(w: World, row: ActiveSchedule, now: Instant, osType: string, pythonExecutable: string,
                                env: SchedulerEnv)
    requires w.tables.Valid()
    requires row.schedule.timezone in env.zones && IsDue(row, now)
    requires ExecuteSpec(w.tables, row.schedule.taskId, "schedule", osType, env.exec(row.schedule.id)).result.Propagated?
    ensures var o := ExecuteSpec(w.tables, row.schedule.taskId, "schedule", osType, env.exec(row.schedule.id));
            var r := ProcessRowSpec(w, row, now, osType, pythonExecutable, env).tables;
            && r.logs == o.tables.logs + [ScheduleErrorEntry(row, o.result.message)]
            && r.schedules == o.tables.schedules
  {
  }

  /** A row whose `update_schedule_next_run` raises, when seeding a missing
      next run or after a run that returned: the error is logged with the
      schedule's id and the schedule is not written. */
  lemma UpdateFailureIsLogged(w: World, row: ActiveSchedule, now: Instant, osType: string, pythonExecutable: string,
                              env: SchedulerEnv)
    requires w.tables.Valid()
    requires row.schedule.timezone in env.zones && row.schedule.id in env.updateFaults
    ensures row.schedule.nextRun.None? ==>
              var r := ProcessRowSpec(w, row, now, osType, pythonExecutable, env).tables;
              && r.logs == w.tables.logs + [ScheduleErrorEntry(row, env.updateFaults[row.schedule.id])]
              && r.schedules == w.tables.schedules && r.executions == w.tables.executions
    ensures var o := ExecuteSpec(w.tables, row.schedule.taskId, "schedule", osType, env.exec(row.schedule.id));
            IsDue(row, now) && !o.result.Propagated? ==>
              var r := ProcessRowSpec(w, row, now, osType, pythonExecutable, env).tables;
              && r.logs == o.tables.logs + [ScheduleErrorEntry(row, env.updateFaults[row.schedule.id])]
              && r.schedules == o.tables.schedules
  {
  }

  /** What a pass leaves in the row's schedule, from the row alone. */
  function ScheduleAfter(t: Tables, row: ActiveSchedule, now: Instant, osType: string, env: SchedulerEnv): Schedule
  {
    var s := row.schedule;
    if s.timezone in env.zones && s.id !in env.updateFaults &&
       (s.nextRun.None? || (IsDue(row, now) && !ExecPropagates(t.tasks, s.taskId, osType, env.exec(s.id))))
    then s.(nextRun := Some(Aware(CalculateNextRun(env.cron, s.cronExpression, now, s.timezone))), lastRun := Some(t.clock))
    else s
  }

  /** One row writes only its own schedule. */
  lemma RowTouchesOnlyItsSchedule(w: World, row: ActiveSchedule, now: Instant, osType: string, pythonExecutable: string,
                                  env: SchedulerEnv)
    requires w.tables.Valid()
    requires row.schedule.id in w.tables.schedules && w.tables.schedules[row.schedule.id] == row.schedule
    ensures var r := ProcessRowSpec(w, row, now, osType, pythonExecutable, env).tables;
            && r.tasks == w.tables.tasks && r.clock == w.tables.clock
            && r.schedules == w.tables.schedules[row.schedule.id := ScheduleAfter(w.tables, row, now, osType, env)]
  {
    var s := row.schedule;
    var next := CalculateNextRun(env.cron, s.cronExpression, now, s.timezone);
    if s.timezone in env.zones && IsDue(row, now) {
      DueRowSchedules(w, row, now, osType, pythonExecutable, env);
    } else if s.timezone in env.zones {
      StoreNextRunSchedules(w.tables, row, next, env);
    }
  }

  lemma DueRowSchedules(w: World, row: ActiveSchedule, now: Instant, osType: string, pythonExecutable: string,
                        env: SchedulerEnv)
    requires w.tables.Valid()
    requires row.schedule.id in w.tables.schedules && w.tables.schedules[row.schedule.id] == row.schedule
    requires row.schedule.timezone in env.zones && IsDue(row, now)
    ensures var r := ProcessRowSpec(w, row, now, osType, pythonExecutable, env).tables;
            && r.tasks == w.tables.tasks && r.clock == w.tables.clock
            && r.schedules == w.tables.schedules[row.schedule.id := ScheduleAfter(w.tables, row, now, osType, env)]
  {
    var s := row.schedule;
    var o := ExecuteSpec(w.tables, s.taskId, "schedule", osType, env.exec(s.id));
    ExecuteKeepsSchedules(w.tables, s.taskId, "schedule", osType, env.exec(s.id));
    AfterRunSchedules(w, row, o, now, osType, pythonExecutable, env);
  }

  /** The rest of a due row after its task ran writes the row's schedule
      only, and only when the run did not raise. */
  lemma AfterRunSchedules(w: World, row: ActiveSchedule, o: Outcome, now: Instant, osType: string,
                          pythonExecutable: string, env: SchedulerEnv)
    requires w.tables.Valid() && o.tables.Valid()
    requires row.schedule.id in w.tables.schedules && w.tables.schedules[row.schedule.id] == row.schedule
    requires row.schedule.timezone in env.zones && IsDue(row, now)
    requires o.tables.tasks == w.tables.tasks && o.tables.schedules == w.tables.schedules
    requires o.tables.clock == w.tables.clock
    requires o.result.Propagated? <==>
             ExecPropagates(w.tables.tasks, row.schedule.taskId, osType, env.exec(row.schedule.id))
    ensures var r := AfterRun(w, row, o, now, osType, pythonExecutable, env).tables;
            && r.tasks == w.tables.tasks && r.clock == w.tables.clock
            && r.schedules == w.tables.schedules[row.schedule.id := ScheduleAfter(w.tables, row, now, osType, env)]
  {
    var s := row.schedule;
    if !o.result.Propagated? {
      StoreNextRunSchedules(o.tables, row, CalculateNextRun(env.cron, s.cronExpression, now, s.timezone), env);
    }
  }

  /** Storing a next run writes the row's schedule only, and only when the
      store accepts it. */
  lemma StoreNextRunSchedules(t: Tables, row: ActiveSchedule, next: Instant, env: SchedulerEnv)
    requires t.Valid() && row.schedule.id in t.schedules
    ensures var s := t.schedules[row.schedule.id];
            StoreNextRun(t, row, next, env).schedules ==
              if row.schedule.id in env.updateFaults then t.schedules
              else t.schedules[row.schedule.id := s.(nextRun := Some(Aware(next)), lastRun := Some(t.clock))]
  {
  }

  function RowIds(rows: seq<ActiveSchedule>): set<ScheduleId>
  {
    set i | 0 <= i < |rows| :: rows[i].schedule.id
  }

  lemma RowIdsSnoc(p: seq<ActiveSchedule>, last: ActiveSchedule)
    ensures RowIds(p + [last]) == RowIds(p) + {last.schedule.id}
  {
    var rows := p + [last];
    forall id | id in RowIds(rows) ensures id in RowIds(p) + {last.schedule.id} {
      var i :| 0 <= i < |rows| && rows[i].schedule.id == id;
      if i < |p| {
        assert rows[i] == p[i];
      }
    }
    forall id | id in RowIds(p) ensures id in RowIds(rows) {
      var i :| 0 <= i < |p| && p[i].schedule.id == id;
      assert rows[i] == p[i];
    }
    assert rows[|p|] == last;
  }

  /** Every row names a stored schedule as it is stored, and no schedule twice. */
  ghost predicate RowsOfSchedules(schedules: map<ScheduleId, Schedule>, rows: seq<ActiveSchedule>)
  {
    && (forall i :: 0 <= i < |rows| ==>
          rows[i].schedule.id in schedules && schedules[rows[i].schedule.id] == rows[i].schedule)
    && (forall i, j :: 0 <= i < j < |rows| ==> rows[i].schedule.id != rows[j].schedule.id)
  }

  /** Isolation: after a pass over the active schedules, each schedule's
      state depends on its own row only (a failing schedule does not stop
      or alter the others), and schedules not listed are untouched. */
  lemma PassIsolatesSchedules(w: World, rows: seq<ActiveSchedule>, now: Instant, osType: string,
                              pythonExecutable: string, env: SchedulerEnv)
    requires w.tables.Valid()
    requires IsActiveListing(w.tables.tasks, w.tables.schedules, rows)
    ensures var f := BatchSpec(w, rows, now, osType, pythonExecutable, env).tables;
            && f.schedules.Keys == w.tables.schedules.Keys
            && (forall i :: 0 <= i < |rows| ==>
                  f.schedules[rows[i].schedule.id] == ScheduleAfter(w.tables, rows[i], now, osType, env))
            && (forall id :: id in w.tables.schedules && !IsListed(w.tables.tasks, w.tables.schedules[id]) ==>
                  f.schedules[id] == w.tables.schedules[id])
  {
    var f := BatchSpec(w, rows, now, osType, pythonExecutable, env);
    BatchKeepsTasks(w, rows, now, osType, pythonExecutable, env, f);
    forall i | 0 <= i < |rows|
      ensures f.tables.schedules[rows[i].schedule.id] == ScheduleAfter(w.tables, rows[i], now, osType, env)
    {
      BatchSetsRow(w, rows, now, osType, pythonExecutable, env, f, i);
    }
    forall id | id in w.tables.schedules && !IsListed(w.tables.tasks, w.tables.schedules[id])
      ensures f.tables.schedules[id] == w.tables.schedules[id]
    {
      forall i | 0 <= i < |rows| ensures rows[i].schedule.id != id {
      }
      BatchLeavesOthers(w, rows, now, osType, pythonExecutable, env, f, id);
    }
  }

  /** One row keeps the tasks, the clock and the set of schedules. */
  lemma RowKeepsTasks(w: World, row: ActiveSchedule, now: Instant, osType: string, pythonExecutable: string,
                      env: SchedulerEnv)
    requires w.tables.Valid()
    ensures var r := ProcessRowSpec(w, row, now, osType, pythonExecutable, env).tables;
            r.tasks == w.tables.tasks && r.clock == w.tables.clock && r.schedules.Keys == w.tables.schedules.Keys
  {
    var s := row.schedule;
    if s.timezone in env.zones && s.nextRun.Some? && IsDue(row, now) {
      ExecuteKeepsSchedules(w.tables, s.taskId, "schedule", osType, env.exec(s.id));
    }
  }

  lemma {:induction false} BatchKeepsTasks(w: World, rows: seq<ActiveSchedule>, now: Instant, osType: string,
                                           pythonExecutable: string, env: SchedulerEnv, f: World)
    requires w.tables.Valid()
    requires f == BatchSpec(w, rows, now, osType, pythonExecutable, env)
    ensures f.tables.tasks == w.tables.tasks && f.tables.clock == w.tables.clock
    ensures f.tables.schedules.Keys == w.tables.schedules.Keys
  {
    if rows != [] {
      var n := |rows| - 1;
      var mid := BatchSpec(w, rows[..n], now, osType, pythonExecutable, env);
      BatchKeepsTasks(w, rows[..n], now, osType, pythonExecutable, env, mid);
      RowKeepsTasks(mid, rows[n], now, osType, pythonExecutable, env);
    }
  }

  /** The prefix of distinct stored rows is again such a list, and the last
      row's schedule is not among the prefix's. */
  lemma PrefixRows(schedules: map<ScheduleId, Schedule>, rows: seq<ActiveSchedule>)
    requires RowsOfSchedules(schedules, rows) && rows != []
    ensures RowsOfSchedules(schedules, rows[..|rows| - 1])
    ensures rows[|rows| - 1].schedule.id !in RowIds(rows[..|rows| - 1])
  {
    var n := |rows| - 1;
    var p := rows[..n];
    forall i | 0 <= i < |p| ensures p[i] == rows[i] && p[i].schedule.id != rows[n].schedule.id {
    }
  }

  /** A schedule no row names keeps its stored state through a pass. */
  lemma {:induction false} BatchLeavesOthers(w: World, rows: seq<ActiveSchedule>, now: Instant, osType: string,
                                             pythonExecutable: string, env: SchedulerEnv, f: World, id: ScheduleId)
    requires w.tables.Valid()
    requires RowsOfSchedules(w.tables.schedules, rows)
    requires f == BatchSpec(w, rows, now, osType, pythonExecutable, env)
    requires id in w.tables.schedules && id !in RowIds(rows)
    ensures id in f.tables.schedules && f.tables.schedules[id] == w.tables.schedules[id]
  {
    if rows != [] {
      var n := |rows| - 1;
      var p := rows[..n];
      var last := rows[n];
      PrefixRows(w.tables.schedules, rows);
      var mid := BatchSpec(w, p, now, osType, pythonExecutable, env);
      assert id !in RowIds(p) && id != last.schedule.id by {
        RowIdsSnoc(p, last);
        assert p + [last] == rows;
      }
      BatchLeavesOthers(w, p, now, osType, pythonExecutable, env, mid, id);
      BatchLeavesOthers(w, p, now, osType, pythonExecutable, env, mid, last.schedule.id);
      RowTouchesOnlyItsSchedule(mid, last, now, osType, pythonExecutable, env);
    }
  }

  /** A row's schedule ends a pass as `ScheduleAfter` says. */
  lemma {:induction false} BatchSetsRow(w: World, rows: seq<ActiveSchedule>, now: Instant, osType: string,
                                        pythonExecutable: string, env: SchedulerEnv, f: World, i: nat)
    requires w.tables.Valid()
    requires RowsOfSchedules(w.tables.schedules, rows)
    requires f == BatchSpec(w, rows, now, osType, pythonExecutable, env)
    requires i < |rows|
    ensures rows[i].schedule.id in f.tables.schedules
    ensures f.tables.schedules[rows[i].schedule.id] == ScheduleAfter(w.tables, rows[i], now, osType, env)
  {
    var n := |rows| - 1;
    if i == n {
      BatchSetsLastRow(w, rows, now, osType, pythonExecutable, env, f);
    } else {
      var p := rows[..n];
      var last := rows[n];
      PrefixRows(w.tables.schedules, rows);
      var mid := BatchSpec(w, p, now, osType, pythonExecutable, env);
      BatchSetsRow(w, p, now, osType, pythonExecutable, env, mid, i);
      BatchLeavesOthers(w, p, now, osType, pythonExecutable, env, mid, last.schedule.id);
      RowTouchesOnlyItsSchedule(mid, last, now, osType, pythonExecutable, env);
      assert p[i] == rows[i] && rows[i].schedule.id != last.schedule.id;
    }
  }

  lemma BatchSetsLastRow(w: World, rows: seq<ActiveSchedule>, now: Instant, osType: string,
                         pythonExecutable: string, env: SchedulerEnv, f: World)
    requires w.tables.Valid()
    requires RowsOfSchedules(w.tables.schedules, rows) && rows != []
    requires f == BatchSpec(w, rows, now, osType, pythonExecutable, env)
    ensures rows[|rows| - 1].schedule.id in f.tables.schedules
    ensures f.tables.schedules[rows[|rows| - 1].schedule.id] == ScheduleAfter(w.tables, rows[|rows| - 1], now, osType, env)
  {
    var n := |rows| - 1;
    var p := rows[..n];
    var last := rows[n];
    PrefixRows(w.tables.schedules, rows);
    var mid := BatchSpec(w, p, now, osType, pythonExecutable, env);
    BatchLeavesOthers(w, p, now, osType, pythonExecutable, env, mid, last.schedule.id);
    BatchKeepsTasks(w, p, now, osType, pythonExecutable, env, mid);
    RowTouchesOnlyItsSchedule(mid, last, now, osType, pythonExecutable, env);
    assert ScheduleAfter(mid.tables, last, now, osType, env) == ScheduleAfter(w.tables, last, now, osType, env);
  }

  /** The tasks of the rows whose zone is known and which are due at
      `now`, in row order. */
  function DueTasks(rows: seq<ActiveSchedule>, now: Instant, zones: set<string>): seq<TaskId>
  {
    if rows == [] then []
    else DueTasks(rows[..|rows| - 1], now, zones) +
         (if rows[|rows| - 1].schedule.timezone in zones && IsDue(rows[|rows| - 1], now)
          then [rows[|rows| - 1].schedule.taskId] else [])
  }

  /** One row adds an execution record exactly when it is due, for its
      task and triggered by "schedule", and leaves earlier records alone. */
  lemma RowExecutions(w: World, row: ActiveSchedule, now: Instant, osType: string, pythonExecutable: string,
                      env: SchedulerEnv)
    requires w.tables.Valid()
    requires IsListed(w.tables.tasks, row.schedule)
    ensures var r := ProcessRowSpec(w, row, now, osType, pythonExecutable, env).tables;
            && r.tasks == w.tables.tasks
            && r.nextExecutionId ==
                 w.tables.nextExecutionId + (if row.schedule.timezone in env.zones && IsDue(row, now) then 1 else 0)
            && w.tables.executions.Keys <= r.executions.Keys
            && (forall k :: k in w.tables.executions ==> r.executions[k] == w.tables.executions[k])
            && (forall k :: k in r.executions && k !in w.tables.executions ==> r.executions[k].triggeredBy == "schedule")
    ensures var r := ProcessRowSpec(w, row, now, osType, pythonExecutable, env).tables;
            row.schedule.timezone in env.zones && IsDue(row, now) ==>
              w.tables.nextExecutionId in r.executions && r.executions[w.tables.nextExecutionId].taskId == row.schedule.taskId
  {
    var s := row.schedule;
    if s.timezone in env.zones && IsDue(row, now) {
      var o := ExecuteSpec(w.tables, s.taskId, "schedule", osType, env.exec(s.id));
      EnabledTaskGetsOneRecord(w.tables, s.taskId, "schedule", osType, env.exec(s.id));
    } else {
      QuietRowKeepsRecords(w, row, now, osType, pythonExecutable, env);
    }
  }

  /** A row that is not due leaves the records alone. */
  lemma QuietRowKeepsRecords(w: World, row: ActiveSchedule, now: Instant, osType: string, pythonExecutable: string,
                             env: SchedulerEnv)
    requires w.tables.Valid()
    requires !(row.schedule.timezone in env.zones && IsDue(row, now))
    ensures var r := ProcessRowSpec(w, row, now, osType, pythonExecutable, env).tables;
            r.executions == w.tables.executions && r.nextExecutionId == w.tables.nextExecutionId && r.tasks == w.tables.tasks
  {
  }

  /** The records from key `start` on are for `tasks`, one record per task
      and in order. */
  predicate RecordsFor(m: map<ExecutionId, Execution>, start: nat, tasks: seq<TaskId>)
  {
    forall k :: start <= k < start + |tasks| ==> k in m && m[k].taskId == tasks[k - start]
  }

  /** If the records from `t.nextExecutionId` on are for `before`, and one
      more step keeps them and, when it `fires`, adds the record for `task`
      next, then the records from `t.nextExecutionId` on are for `before`
      followed by that one. */
  lemma NewRecordsInOrder(t: Tables, mid: Tables, f: Tables, before: seq<TaskId>, fires: bool, task: TaskId)
    requires mid.nextExecutionId == t.nextExecutionId + |before|
    requires RecordsFor(mid.executions, t.nextExecutionId, before)
    requires forall k :: k in mid.executions ==> k in f.executions && f.executions[k] == mid.executions[k]
    requires fires ==> mid.nextExecutionId in f.executions && f.executions[mid.nextExecutionId].taskId == task
    ensures RecordsFor(f.executions, t.nextExecutionId, before + (if fires then [task] else []))
  {
  }

  /** The due tasks of one more row. */
  lemma DueTasksSnoc(rows: seq<ActiveSchedule>, now: Instant, zones: set<string>)
    requires rows != []
    ensures var last := rows[|rows| - 1];
            DueTasks(rows, now, zones) == DueTasks(rows[..|rows| - 1], now, zones) +
              (if last.schedule.timezone in zones && IsDue(last, now) then [last.schedule.taskId] else [])
  {
  }

  /** A pass over listed schedules runs the task of every due schedule
      exactly once, in row order: the execution serial advances by the
      number of due rows, the j-th new record is for the task of the j-th
      due row, every new record is triggered by "schedule", and no earlier
      record changes. */
  lemma {:induction false} PassRunsEachDueScheduleOnce(w: World, rows: seq<ActiveSchedule>, now: Instant, osType: string,
                                                       pythonExecutable: string, env: SchedulerEnv)
    requires w.tables.Valid()
    requires forall i :: 0 <= i < |rows| ==> IsListed(w.tables.tasks, rows[i].schedule)
    ensures var f := BatchSpec(w, rows, now, osType, pythonExecutable, env).tables;
            && f.tasks == w.tables.tasks
            && f.nextExecutionId == w.tables.nextExecutionId + |DueTasks(rows, now, env.zones)|
            && w.tables.executions.Keys <= f.executions.Keys
            && (forall k :: k in w.tables.executions ==> f.executions[k] == w.tables.executions[k])
            && (forall k :: k in f.executions && k !in w.tables.executions ==> f.executions[k].triggeredBy == "schedule")
    ensures RecordsFor(BatchSpec(w, rows, now, osType, pythonExecutable, env).tables.executions,
                       w.tables.nextExecutionId, DueTasks(rows, now, env.zones))
  {
    if rows != [] {
      var n := |rows| - 1;
      PassRunsEachDueScheduleOnce(w, rows[..n], now, osType, pythonExecutable, env);
      var mid := BatchSpec(w, rows[..n], now, osType, pythonExecutable, env);
      RowExecutions(mid, rows[n], now, osType, pythonExecutable, env);
      DueTasksSnoc(rows, now, env.zones);
      NewRecordsInOrder(w.tables, mid.tables, BatchSpec(w, rows, now, osType, pythonExecutable, env).tables,
                        DueTasks(rows[..n], now, env.zones),
                        rows[n].schedule.timezone in env.zones && IsDue(rows[n], now), rows[n].schedule.taskId);
    }
  }
}
