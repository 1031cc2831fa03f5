/** The scheduler (automation-engine/src/core/scheduler.py): a loop that
    every `check_interval` seconds reads the active schedules, seeds a
    missing next run, runs the task of every schedule that is due, and
    moves its next run forward from the current time.  Cron arithmetic,
    the time-zone database, the clock, and the faults of the store and the
    executor are inputs; the thread and its sleep are reduced to the state
    that `start` and `stop` change and to one loop pass at a time. */
module Scheduling {
  import opened Common
  import opened Store
  import opened Host
  import opened Executor
  import opened ExecutorProperties

  /** `croniter(expression, base in zone).get_next()` as a UTC instant, or
      `None` when croniter raises (a malformed expression). */
  type CronOracle = (string, Instant, string) -> Option<Instant>

  /** A cron implementation moves forward: its next occurrence is strictly
      after the base time. */
  ghost predicate CronForward(cron: CronOracle)
  {
    forall expr, base, zone :: cron(expr, base, zone).Some? ==> base < cron(expr, base, zone).value
  }

  /** `_calculate_next_run`: the next occurrence after `base`, or one hour
      after `base` when the cron computation raises. */
  function CalculateNextRun(cron: CronOracle, expr: string, base: Instant, zone: string): (r: Instant)
    ensures CronForward(cron) ==> base < r
    ensures cron(expr, base, zone).None? ==> r - base == OneHour
  {
    match cron(expr, base, zone)
    case Some(next) => next
    case None => base + OneHour
  }

  /** A stored `next_run` as an instant: a value without a zone is read as UTC. */
  function AsUtc(t: StoredTime): (i: Instant)
    ensures t.Naive? ==> i == t.wall
    ensures t.Aware? ==> i == t.instant
  {
    match t
    case Naive(wall) => wall
    case Aware(instant) => instant
  }

  /** What one pass of the loop depends on besides the database. */
  datatype SchedulerEnv = SchedulerEnv(
    /** The zone names `pytz.timezone` knows. */
    zones: set<string>,
    cron: CronOracle,
    /** `get_active_schedules` raising, with its message. */
    fetchFault: Option<string>,
    /** `update_schedule_next_run` raising for a schedule, with its message. */
    updateFaults: map<ScheduleId, string>,
    /** What the executor meets when it runs the task of a schedule. */
    exec: ScheduleId -> ExecEnv)

  /** `str(UnknownTimeZoneError(zone))` for a plain zone name: the name in
      quotes.  Python's `repr` escapes a name holding a quote or a
      backslash differently; that is not modelled. */
  function ZoneError(zone: string): string
  {
    "'" + zone + "'"
  }

  /** The state one pass works on: the database and the host. */
  datatype World = World(tables: Tables, files: map<string, string>, launches: seq<Invocation>)

  /** The error entry a failing schedule appends to the log. */
  function ScheduleErrorEntry(row: ActiveSchedule, message: string): LogEntry
  {
    LogEntry("error", "scheduler", "Error processing schedule: " + row.taskName, Some(message),
             map["schedule_id" := Text(row.schedule.id)])
  }

  /** The `except` branch of the per-schedule body. */
  function ScheduleError(t: Tables, row: ActiveSchedule, message: string): (r: Tables)
    ensures r.Valid() <==> t.Valid()
    ensures r.(logs := t.logs) == t
    ensures r.logs == t.logs + [ScheduleErrorEntry(row, message)]
  {
    t.Log("error", "scheduler", "Error processing schedule: " + row.taskName, Some(message),
          Some(map["schedule_id" := Text(row.schedule.id)]))
  }

  /** `update_schedule_next_run`, or the `except` branch when it raises. */
  function StoreNextRun(t: Tables, row: ActiveSchedule, next: Instant, env: SchedulerEnv): (r: Tables)
    requires t.Valid()
    ensures r.Valid()
    ensures r.(schedules := t.schedules, logs := t.logs) == t
    ensures row.schedule.id in env.updateFaults ==>
              && r.schedules == t.schedules
              && r.logs == t.logs + [ScheduleErrorEntry(row, env.updateFaults[row.schedule.id])]
    ensures row.schedule.id !in env.updateFaults ==> r == t.UpdateNextRun(row.schedule.id, next) && r.logs == t.logs
  {
    var id := row.schedule.id;
    if id in env.updateFaults then ScheduleError(t, row, env.updateFaults[id])
    else t.UpdateNextRun(id, next)
  }

  predicate IsDue(row: ActiveSchedule, now: Instant)
  {
    row.schedule.nextRun.Some? && now >= AsUtc(row.schedule.nextRun.value)
  }

  /** The body of the `for schedule in schedules` loop, on one row. */
  function ProcessRowSpec(w: World, row: ActiveSchedule, now: Instant, osType: string, pythonExecutable: string,
                          env: SchedulerEnv): (r: World)
    requires w.tables.Valid()
    ensures r.tables.Valid()
  {
    var s := row.schedule;
    if s.timezone !in env.zones then
      w.(tables := ScheduleError(w.tables, row, ZoneError(s.timezone)))
    else if s.nextRun.None? then
      w.(tables := StoreNextRun(w.tables, row, CalculateNextRun(env.cron, s.cronExpression, now, s.timezone), env))
    else if IsDue(row, now) then
      AfterRun(w, row, ExecuteSpec(w.tables, s.taskId, "schedule", osType, env.exec(s.id)),
               now, osType, pythonExecutable, env)
    else
      w
  }

  /** The rest of the due branch once `execute_task` has ended in `o`: the
      host as the runner left it, and the next run stored, or the error
      logged when `execute_task` raised. */
  function AfterRun(w: World, row: ActiveSchedule, o: Outcome, now: Instant, osType: string, pythonExecutable: string,
                    env: SchedulerEnv): (r: World)
    requires o.tables.Valid()
    ensures r.tables.Valid()
    ensures r.tables.executions == o.tables.executions && r.tables.nextExecutionId == o.tables.nextExecutionId
    ensures r.tables.tasks == o.tables.tasks && r.tables.clock == o.tables.clock
  {
    var s := row.schedule;
    var host := World(o.tables, FilesAfter(w.tables, s.taskId, osType, w.files, env.exec(s.id)),
                      w.launches + LaunchesOf(w.tables, s.taskId, osType, pythonExecutable, w.files));
    if o.result.Propagated? then
      host.(tables := ScheduleError(o.tables, row, o.result.message))
    else
      host.(tables := StoreNextRun(o.tables, row, CalculateNextRun(env.cron, s.cronExpression, now, s.timezone), env))
  }

  /** The rows processed in order. */
  function BatchSpec(w: World, rows: seq<ActiveSchedule>, now: Instant, osType: string, pythonExecutable: string,
                     env: SchedulerEnv): (r: World)
    requires w.tables.Valid()
    ensures r.tables.Valid()
  {
    if rows == [] then w
    else ProcessRowSpec(BatchSpec(w, rows[..|rows| - 1], now, osType, pythonExecutable, env),
                        rows[|rows| - 1], now, osType, pythonExecutable, env)
  }

  /** A pass over one more row is one more step. */
  lemma BatchSnoc(w: World, rows: seq<ActiveSchedule>, i: nat, now: Instant, osType: string, pythonExecutable: string,
                  env: SchedulerEnv)
    requires w.tables.Valid() && i < |rows|
    ensures BatchSpec(w, rows[..i + 1], now, osType, pythonExecutable, env)
            == ProcessRowSpec(BatchSpec(w, rows[..i], now, osType, pythonExecutable, env), rows[i],
                              now, osType, pythonExecutable, env)
  {
    assert rows[..i + 1][..i] == rows[..i];
  }

  class TaskScheduler {
    const db: DatabaseManager
    const executor: TaskExecutor
    var running: bool
    /** The background thread, by the serial number it was started with. */
    var schedulerThread: Option<nat>
    var threadsStarted: nat
    /** Seconds slept between passes. */
    const checkInterval: nat

    ghost predicate Valid()
      reads this, db
    {
      executor.db == db && db.Valid()
    }

    function Observed(): World
      reads db, executor.machine
    {
      World(db.State(), executor.machine.files, executor.machine.invocations)
    }

    constructor (db: DatabaseManager, executor: TaskExecutor)
      requires executor.db == db
      ensures this.db == db && this.executor == executor
      ensures !running && schedulerThread == None && threadsStarted == 0
      ensures checkInterval == 30
    {
      this.db := db;
      this.executor := executor;
      this.running := false;
      this.schedulerThread := None;
      this.threadsStarted := 0;
      this.checkInterval := 30;
    }

    /** `start`: a second start while running changes nothing; otherwise
        one new thread is started and the scheduler is running. */
    method Start()
      modifies this
      ensures running
      ensures old(running) ==> schedulerThread == old(schedulerThread) && threadsStarted == old(threadsStarted)
      ensures !old(running) ==> schedulerThread == Some(old(threadsStarted)) && threadsStarted == old(threadsStarted) + 1
    {
      if running {
        return;
      }
      running := true;
      schedulerThread := Some(threadsStarted);
      threadsStarted := threadsStarted + 1;
    }

    /** `stop`: clears the flag the loop tests; the thread is joined, not forgotten. */
    method Stop()
      modifies this
      ensures !running
      ensures schedulerThread == old(schedulerThread) && threadsStarted == old(threadsStarted)
    {
      running := false;
    }

    /** `_check_and_execute_scheduled_tasks` at time `now`: when the fetch
        raises, nothing changes and the error leaves; otherwise every fetched
        row is processed in turn. */
    method CheckAndExecuteScheduledTasks(now: Instant, env: SchedulerEnv)
      returns (rows: seq<ActiveSchedule>, raised: Option<string>)
      requires Valid()
      modifies db, executor.machine
      ensures Valid()
      ensures raised == env.fetchFault
      ensures raised.Some? ==> rows == [] && Observed() == old(Observed())
      ensures raised.None? ==> IsActiveListing(old(db.tasks), old(db.schedules), rows)
      ensures raised.None? ==>
                Observed() == BatchSpec(old(Observed()), rows, now, executor.osType, executor.pythonExecutable, env)
    {
      if env.fetchFault.Some? {
        return [], env.fetchFault;
      }
      raised := None;
      rows := db.GetActiveSchedules();
      var i := 0;
      while i < |rows|
        invariant 0 <= i <= |rows|
        invariant Valid()
        invariant Observed() == BatchSpec(old(Observed()), rows[..i], now, executor.osType, executor.pythonExecutable, env)
      {
        ProcessSchedule(rows[i], now, env);
        BatchSnoc(old(Observed()), rows, i, now, executor.osType, executor.pythonExecutable, env);
        i := i + 1;
      }
      assert rows[..i] == rows;
    }

    /** The per-schedule body with its `try`/`except`. */
    method ProcessSchedule(row: ActiveSchedule, now: Instant, env: SchedulerEnv)
      requires Valid()
      modifies db, executor.machine
      ensures Valid()
      ensures Observed() == ProcessRowSpec(old(Observed()), row, now, executor.osType, executor.pythonExecutable, env)
    {
      var s := row.schedule;
      if s.timezone !in env.zones {
        LogScheduleError(row, ZoneError(s.timezone));
        return;
      }
      if s.nextRun.None? {
        var next := CalculateNextRun(env.cron, s.cronExpression, now, s.timezone);
        StoreNextRunOrLog(row, next, env);
        return;
      }
      var nextRun := AsUtc(s.nextRun.value);
      if now >= nextRun {
        var r := executor.ExecuteTask(s.taskId, env.exec(s.id), "schedule");
        if r.Propagated? {
          LogScheduleError(row, r.message);
          return;
        }
        var next := CalculateNextRun(env.cron, s.cronExpression, now, s.timezone);
        StoreNextRunOrLog(row, next, env);
      }
    }

    method LogScheduleError(row: ActiveSchedule, message: string)
      requires Valid()
      modifies db
      ensures Valid()
      ensures db.State() == ScheduleError(old(db.State()), row, message)
    {
      db.LogSystemEvent("error", "scheduler", "Error processing schedule: " + row.taskName, Some(message),
                        Some(map["schedule_id" := Text(row.schedule.id)]));
    }

    method StoreNextRunOrLog(row: ActiveSchedule, next: Instant, env: SchedulerEnv)
      requires Valid()
      modifies db
      ensures Valid()
      ensures db.State() == StoreNextRun(old(db.State()), row, next, env)
    {
      if row.schedule.id in env.updateFaults {
        LogScheduleError(row, env.updateFaults[row.schedule.id]);
      } else {
        db.UpdateScheduleNextRun(row.schedule.id, next);
      }
    }

    /** One pass of `_run_scheduler`'s loop: a stopped scheduler leaves the
        loop; otherwise one check, and a failed fetch is logged as a loop
        error.  The sleep that follows is not modelled. */
    method RunIteration(now: Instant, env: SchedulerEnv) returns (continued: bool, rows: seq<ActiveSchedule>)
      requires Valid()
      modifies db, executor.machine
      ensures Valid()
      ensures continued == running
      ensures !continued ==> Observed() == old(Observed())
      ensures continued && env.fetchFault.None? ==>
                && IsActiveListing(old(db.tasks), old(db.schedules), rows)
                && Observed() == BatchSpec(old(Observed()), rows, now, executor.osType, executor.pythonExecutable, env)
      ensures continued && env.fetchFault.Some? ==>
                Observed() == old(Observed()).(tables := old(db.State()).Log("error", "scheduler", "Scheduler loop error",
                                                                              env.fetchFault, None))
    {
      if !running {
        return false, [];
      }
      continued := true;
      var raised;
      rows, raised := CheckAndExecuteScheduledTasks(now, env);
      if raised.Some? {
        db.LogSystemEvent("error", "scheduler", "Scheduler loop error", raised);
      }
    }
  }
}
