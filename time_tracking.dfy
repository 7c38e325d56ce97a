/**
 * The per-task time-tracking records the task service keeps in memory, the
 * invariant its timer operations keep, and the lemmas that show they keep it.
 * Timestamps are integer milliseconds since the epoch.
 */
module TimeTracking {
  import opened Basics

  /** The id the first closed time log receives. */
  const FirstTimeLogId: int := 100
  const TimerAlreadyRunning: string := "Timer already running for this task"
  const NoActiveTimer: string := "No active timer for this task"

  /** An open interval: the task it runs for and when it started. */
  datatype ActiveTimer = ActiveTimer(id: int, startTime: int)

  /** A closed interval; `date` is the UTC day (days since the epoch) of `startTime`. */
  datatype TimeLog = TimeLog(id: int, startTime: int, endTime: int, duration: int, date: int)

  /** A task's tracking record; the task is running exactly when `activeTimer` is present. */
  datatype Tracking = Tracking(totalTime: int, activeTimer: Option<ActiveTimer>, timeLogs: seq<TimeLog>)

  /** The record of a task that has none stored: idle, nothing logged. */
  const NewTracking: Tracking := Tracking(0, None, [])

  /** `timeTrackingData.get(taskId) || { totalTime: 0, activeTimer: null, timeLogs: [] }` */
  function Lookup(entries: map<int, Tracking>, taskId: int): Tracking
  {
    if taskId in entries then entries[taskId] else NewTracking
  }

  /**
   * The UTC calendar day that contains the instant `time`, also for instants
   * before the epoch; a day is 86400000 ms.
   */
  function Day(time: int): (d: int)
    ensures d * 86400000 <= time < (d + 1) * 86400000
  {
    time / 86400000
  }

  /** The durations of `logs` added up in log order. */
  function TotalDuration(logs: seq<TimeLog>): int
  {
    if logs == [] then 0 else TotalDuration(logs[..|logs| - 1]) + logs[|logs| - 1].duration
  }

  lemma {:induction false} TotalDurationAppend(logs: seq<TimeLog>, log: TimeLog)
    ensures TotalDuration(logs + [log]) == TotalDuration(logs) + log.duration
  {
  }

  /** The record after a timer starts at `now`. */
  function Started(t: Tracking, taskId: int, now: int): Tracking
  {
    t.(activeTimer := Some(ActiveTimer(taskId, now)))
  }

  /** The log that closes `timer` at `now`. */
  function ClosedLog(timer: ActiveTimer, logId: int, now: int): TimeLog
  {
    TimeLog(logId, timer.startTime, now, now - timer.startTime, Day(timer.startTime))
  }

  /** The record after its running timer stops at `now` and is logged under `logId`. */
  function Stopped(t: Tracking, logId: int, now: int): Tracking
    requires t.activeTimer.Some?
  {
    var log := ClosedLog(t.activeTimer.value, logId, now);
    Tracking(t.totalTime + log.duration, None, t.timeLogs + [log])
  }

  ghost predicate WellFormed(log: TimeLog)
  {
    log.duration == log.endTime - log.startTime && log.date == Day(log.startTime)
  }

  /**
   * The record of task `taskId`, when the next log id to hand out is `next`:
   * the total is the sum of the logged durations, a running timer belongs to
   * this task, every log is a well-formed interval with an id already handed
   * out, and the ids increase along the log.
   */
  ghost predicate Consistent(taskId: int, t: Tracking, next: int)
  {
    && t.totalTime == TotalDuration(t.timeLogs)
    && (t.activeTimer.Some? ==> t.activeTimer.value.id == taskId)
    && (forall i | 0 <= i < |t.timeLogs| ::
          WellFormed(t.timeLogs[i]) && FirstTimeLogId <= t.timeLogs[i].id < next)
    && (forall i, j | 0 <= i < j < |t.timeLogs| :: t.timeLogs[i].id < t.timeLogs[j].id)
  }

  /** No two logs anywhere in the store share an id. */
  ghost predicate LogIdsUnique(entries: map<int, Tracking>)
  {
    forall a, b, i, j |
      && a in entries && b in entries
      && 0 <= i < |entries[a].timeLogs| && 0 <= j < |entries[b].timeLogs|
      && entries[a].timeLogs[i].id == entries[b].timeLogs[j].id
      :: a == b && i == j
  }

  /** The invariant of the whole store: the map of records and the log-id counter. */
  ghost predicate StoreInvariant(entries: map<int, Tracking>, next: int)
  {
    && FirstTimeLogId <= next
    && (forall taskId | taskId in entries :: Consistent(taskId, entries[taskId], next))
    && LogIdsUnique(entries)
  }

  /** Starting a timer on an idle task keeps the store invariant. */
  lemma StartPreservesInvariant(entries: map<int, Tracking>, next: int, taskId: int, now: int)
    requires StoreInvariant(entries, next)
    requires Lookup(entries, taskId).activeTimer.None?
    ensures StoreInvariant(entries[taskId := Started(Lookup(entries, taskId), taskId, now)], next)
  {
  }

  /** Closing a consistent record's timer with the next log id keeps it consistent with the incremented counter. */
  lemma StopKeepsConsistent(taskId: int, t: Tracking, next: int, now: int)
    requires FirstTimeLogId <= next
    requires Consistent(taskId, t, next) && t.activeTimer.Some?
    ensures Consistent(taskId, Stopped(t, next, now), next + 1)
  {
    TotalDurationAppend(t.timeLogs, ClosedLog(t.activeTimer.value, next, now));
  }

  /** A log appended with an id above every stored id leaves the ids unique. */
  lemma AppendFreshIdKeepsUnique(entries: map<int, Tracking>, taskId: int, t': Tracking, next: int)
    requires LogIdsUnique(entries)
    requires forall a, i | a in entries && 0 <= i < |entries[a].timeLogs| :: entries[a].timeLogs[i].id < next
    requires |t'.timeLogs| == |Lookup(entries, taskId).timeLogs| + 1
    requires t'.timeLogs[..|t'.timeLogs| - 1] == Lookup(entries, taskId).timeLogs
    requires t'.timeLogs[|t'.timeLogs| - 1].id == next
    ensures LogIdsUnique(entries[taskId := t'])
  {
  }

  /**
   * Stopping a running timer, with the current counter as the log id and the
   * counter then incremented, keeps the store invariant: `entries'` and
   * `next'` are the store after the stop.
   */
  lemma StopPreservesInvariant(entries: map<int, Tracking>, next: int, taskId: int, now: int, entries': map<int, Tracking>, next': int)
    requires StoreInvariant(entries, next)
    requires Lookup(entries, taskId).activeTimer.Some?
    requires entries' == entries[taskId := Stopped(Lookup(entries, taskId), next, now)]
    requires next' == next + 1
    ensures StoreInvariant(entries', next')
  {
    var t := entries[taskId];
    StopKeepsConsistent(taskId, t, next, now);
    AppendFreshIdKeepsUnique(entries, taskId, Stopped(t, next, now), next);
  }

  /** Giving a task a fresh record keeps the store invariant. */
  lemma InitPreservesInvariant(entries: map<int, Tracking>, next: int, taskId: int)
    requires StoreInvariant(entries, next)
    ensures StoreInvariant(entries[taskId := NewTracking], next)
  {
  }

  /** Dropping a task's record keeps the store invariant. */
  lemma RemovePreservesInvariant(entries: map<int, Tracking>, next: int, taskId: int)
    requires StoreInvariant(entries, next)
    ensures StoreInvariant(entries - {taskId}, next)
  {
  }
}
