/**
 * The task service: the in-memory time-tracking store (a map from task id to
 * tracking record, and the counter that numbers closed time logs), the
 * timer operations that update it in place, and the task operations that
 * create, read and drop its records around the backend's responses.
 * The backend calls themselves are not modelled; their responses are inputs.
 */
module TaskService {
  import opened Basics
  import opened Responses
  import opened TimeTracking

  const FailedToCreate: string := "Failed to create task"
  const FailedToUpdate: string := "Failed to update task"
  const FailedToUpdateStatus: string := "Failed to update task status"
  const FailedToDelete: string := "Failed to delete task"

  /** A task as the service returns it: the backend record (here only its `Id`) with its tracking record. */
  datatype TaskView = TaskView(id: int, timeTracking: Tracking)

  /** The id in the data of the first successful record, when there is one. */
  function FirstRecordId(successful: seq<RecordResult<int>>): Option<int>
  {
    if |successful| > 0 && successful[0].data.Some? then Some(successful[0].data.value) else None
  }

  class TaskStore {
    /** `timeTrackingData` */
    var entries: map<int, Tracking>
    /** `nextTimeLogId` */
    var nextTimeLogId: int

    ghost predicate Valid()
      reads this
    {
      StoreInvariant(entries, nextTimeLogId)
    }

    /** The state when the module is loaded: no records, the first log id 100. */
    constructor ()
      ensures Valid()
      ensures entries == map[] && nextTimeLogId == FirstTimeLogId
    {
      entries := map[];
      nextTimeLogId := FirstTimeLogId;
    }

    /**
     * `getAllTasks`: every fetched task with its stored record, or the
     * default record for a task that has none; nothing is stored.
     */
    method GetAllTasks(response: FetchResponse<seq<int>>) returns (r: Outcome<seq<TaskView>>)
      requires Valid()
      ensures !response.success <==> r.Err?
      ensures !response.success ==> r == Err(Thrown(response.message))
      ensures response.success ==>
                var ids := if response.data.Some? then response.data.value else [];
                && |r.value| == |ids|
                && forall i | 0 <= i < |ids| ::
                     && r.value[i].id == ids[i]
                     && r.value[i].timeTracking == Lookup(entries, ids[i])
                     && r.value[i].timeTracking.totalTime == TotalDuration(r.value[i].timeTracking.timeLogs)
    {
      if !response.success {
        return Err(Thrown(response.message));
      }
      var ids := if response.data.Some? then response.data.value else [];
      var stored := entries;
      r := Ok(seq(|ids|, i requires 0 <= i < |ids| => TaskView(ids[i], Lookup(stored, ids[i]))));
    }

    /** `getTaskById`: the fetched task with its stored or default record; nothing is stored. */
    method GetTaskById(response: FetchResponse<int>) returns (r: Outcome<TaskView>)
      requires Valid()
      ensures !response.success ==> r == Err(Thrown(response.message))
      ensures response.success && response.data.None? ==> r == Err(UndefinedRecord)
      ensures response.success && response.data.Some? ==>
                && r == Ok(TaskView(response.data.value, Lookup(entries, response.data.value)))
                && r.value.timeTracking.totalTime == TotalDuration(r.value.timeTracking.timeLogs)
    {
      if !response.success {
        return Err(Thrown(response.message));
      }
      if response.data.None? {
        return Err(UndefinedRecord);
      }
      var id := response.data.value;
      r := Ok(TaskView(id, Lookup(entries, id)));
    }

    /**
     * `createTask`: on a successful batch, gives the created task a fresh
     * record (replacing any record under that id); on any failure, or when
     * the response has no results, nothing changes.
     */
    method CreateTask(response: WriteResponse<int>) returns (r: Outcome<Option<TaskView>>)
      requires Valid()
      modifies this
      ensures Valid()
      ensures nextTimeLogId == old(nextTimeLogId)
      ensures match Settle(response, FailedToCreate)
              case Err(e) => r == Err(e) && entries == old(entries)
              case Ok(None) => r == Ok(None) && entries == old(entries)
              case Ok(Some(successful)) =>
                match FirstRecordId(successful)
                case None => r == Err(UndefinedRecord) && entries == old(entries)
                case Some(id) =>
                  && r == Ok(Some(TaskView(id, NewTracking)))
                  && entries == old(entries)[id := NewTracking]
    {
      var settled := Settle(response, FailedToCreate);
      if settled.Err? {
        return Err(settled.error);
      }
      if settled.value.None? {
        return Ok(None);
      }
      var successful := settled.value.value;
      if |successful| == 0 || successful[0].data.None? {
        return Err(UndefinedRecord);
      }
      var id := successful[0].data.value;
      InitPreservesInvariant(entries, nextTimeLogId, id);
      entries := entries[id := NewTracking];
      r := Ok(Some(TaskView(id, entries[id])));
    }

    /**
     * `updateTask` (`statusOnly` false) and `updateTaskStatus` (true): the
     * updated task with its stored or default record; nothing is stored.
     */
    method UpdateTask(response: WriteResponse<int>, statusOnly: bool) returns (r: Outcome<Option<TaskView>>)
      requires Valid()
      ensures match Settle(response, if statusOnly then FailedToUpdateStatus else FailedToUpdate)
              case Err(e) => r == Err(e)
              case Ok(None) => r == Ok(None)
              case Ok(Some(successful)) =>
                match FirstRecordId(successful)
                case None => r == Err(UndefinedRecord)
                case Some(id) => r == Ok(Some(TaskView(id, Lookup(entries, id))))
      ensures r.Ok? && r.value.Some? ==>
                r.value.value.timeTracking.totalTime == TotalDuration(r.value.value.timeTracking.timeLogs)
    {
      var settled := Settle(response, if statusOnly then FailedToUpdateStatus else FailedToUpdate);
      if settled.Err? {
        return Err(settled.error);
      }
      if settled.value.None? {
        return Ok(None);
      }
      var successful := settled.value.value;
      if |successful| == 0 || successful[0].data.None? {
        return Err(UndefinedRecord);
      }
      var id := successful[0].data.value;
      r := Ok(Some(TaskView(id, Lookup(entries, id))));
    }

    /**
     * `deleteTask`: drops the task's record only when the response succeeded
     * and carries results none of which failed (`Ok(Some(true))`); with no
     * results it returns undefined (`Ok(None)`) and drops nothing.
     */
    method DeleteTask(id: int, response: WriteResponse<int>) returns (r: Outcome<Option<bool>>)
      requires Valid()
      modifies this
      ensures Valid()
      ensures nextTimeLogId == old(nextTimeLogId)
      ensures match Settle(response, FailedToDelete)
              case Err(e) => r == Err(e) && entries == old(entries)
              case Ok(None) => r == Ok(None) && entries == old(entries)
              case Ok(Some(_)) => r == Ok(Some(true)) && entries == old(entries) - {id}
      ensures r == Ok(Some(true)) ==> id !in entries
    {
      var settled := Settle(response, FailedToDelete);
      if settled.Err? {
        return Err(settled.error);
      }
      if settled.value.None? {
        return Ok(None);
      }
      RemovePreservesInvariant(entries, nextTimeLogId, id);
      entries := entries - {id};
      r := Ok(Some(true));
    }

    /**
     * `startTaskTimer`: fails with a fixed message, changing nothing, when the
     * task's timer is already running; otherwise opens a timer at `now` on
     * the task's record (created idle when missing) and changes no other
     * record, no total, no log and not the counter.
     */
    method StartTaskTimer(taskId: int, now: int) returns (r: Outcome<ActiveTimer>)
      requires Valid()
      modifies this
      ensures Valid()
      ensures nextTimeLogId == old(nextTimeLogId)
      ensures var t := Lookup(old(entries), taskId);
              if t.activeTimer.Some? then
                r == Err(Thrown(TimerAlreadyRunning)) && entries == old(entries)
              else
                && r == Ok(ActiveTimer(taskId, now))
                && entries == old(entries)[taskId := Started(t, taskId, now)]
                && entries[taskId].totalTime == t.totalTime
                && entries[taskId].timeLogs == t.timeLogs
    {
      var tracking := if taskId in entries then entries[taskId] else NewTracking;
      if tracking.activeTimer.Some? {
        return Err(Thrown(TimerAlreadyRunning));
      }
      StartPreservesInvariant(entries, nextTimeLogId, taskId, now);
      tracking := tracking.(activeTimer := Some(ActiveTimer(taskId, now)));
      entries := entries[taskId := tracking];
      r := Ok(tracking.activeTimer.value);
    }

    /**
     * `stopTaskTimer`: fails with a fixed message, changing nothing, when the
     * task has no record or no running timer; otherwise closes the timer at
     * `now` into one new log numbered with the counter, adds its duration to
     * the total, marks the task idle, increments the counter, and changes no
     * other record. The new log's id is above every id already stored.
     */
    method StopTaskTimer(taskId: int, now: int) returns (r: Outcome<TimeLog>)
      requires Valid()
      modifies this
      ensures var t := Lookup(old(entries), taskId);
              if t.activeTimer.None? then
                && r == Err(Thrown(NoActiveTimer))
                && entries == old(entries)
                && nextTimeLogId == old(nextTimeLogId)
              else
                && r == Ok(ClosedLog(t.activeTimer.value, old(nextTimeLogId), now))
                && r.value.id == old(nextTimeLogId)
                && r.value.startTime == t.activeTimer.value.startTime
                && r.value.endTime == now
                && r.value.duration == now - t.activeTimer.value.startTime
                && (forall k, i | k in old(entries) && 0 <= i < |old(entries)[k].timeLogs| ::
                      old(entries)[k].timeLogs[i].id < r.value.id)
                && entries == old(entries)[taskId := Stopped(t, old(nextTimeLogId), now)]
                && entries[taskId].totalTime == t.totalTime + r.value.duration
                && entries[taskId].activeTimer.None?
                && entries[taskId].timeLogs == t.timeLogs + [r.value]
                && nextTimeLogId == old(nextTimeLogId) + 1
      ensures Valid()
    {
      if taskId !in entries || entries[taskId].activeTimer.None? {
        return Err(Thrown(NoActiveTimer));
      }
      var tracking := entries[taskId];
      ghost var stopped := Stopped(tracking, nextTimeLogId, now);
      var log := ClosedLog(tracking.activeTimer.value, nextTimeLogId, now);
      nextTimeLogId := nextTimeLogId + 1;
      tracking := tracking.(timeLogs := tracking.timeLogs + [log]);
      tracking := tracking.(totalTime := tracking.totalTime + log.duration);
      tracking := tracking.(activeTimer := None);
      assert tracking == stopped;
      entries := entries[taskId := tracking];
      r := Ok(log);
      StopPreservesInvariant(old(entries), old(nextTimeLogId), taskId, now, entries, nextTimeLogId);
    }

    /**
     * `getTaskTimeLogs`: the task's stored logs, or none for a task without a
     * record; nothing changes. Their durations add up to the task's total.
     */
    method GetTaskTimeLogs(taskId: int) returns (logs: seq<TimeLog>)
      requires Valid()
      ensures taskId in entries ==> logs == entries[taskId].timeLogs
      ensures taskId !in entries ==> logs == []
      ensures TotalDuration(logs) == Lookup(entries, taskId).totalTime
      ensures forall i, j | 0 <= i < j < |logs| :: logs[i].id < logs[j].id
      ensures forall i | 0 <= i < |logs| :: FirstTimeLogId <= logs[i].id < nextTimeLogId
    {
      logs := if taskId in entries then entries[taskId].timeLogs else [];
    }
  }

  /**
   * A fresh store, driven through one timer cycle on one task: a second start
   * without a stop fails, the stop yields the first log (id 100) spanning the
   * two instants, and a second stop fails.
   */
  method TimerLifecycle(taskId: int, t1: int, t2: int)
    returns (first: Outcome<ActiveTimer>, second: Outcome<ActiveTimer>, log: Outcome<TimeLog>, again: Outcome<TimeLog>)
    ensures first == Ok(ActiveTimer(taskId, t1))
    ensures second == Err(Thrown(TimerAlreadyRunning))
    ensures log == Ok(TimeLog(FirstTimeLogId, t1, t2, t2 - t1, Day(t1)))
    ensures again == Err(Thrown(NoActiveTimer))
  {
    var store := new TaskStore();
    first := store.StartTaskTimer(taskId, t1);
    second := store.StartTaskTimer(taskId, t1);
    log := store.StopTaskTimer(taskId, t2);
    assert log.value == TimeLog(FirstTimeLogId, t1, t2, t2 - t1, Day(t1));
    again := store.StopTaskTimer(taskId, t2);
  }
}
