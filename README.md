# Task time tracking and dashboard summary, in Dafny

This project models the two pieces of logic in the ClientFlow frontend's data-access layer.

**The task service's time-tracking store** (`src/services/api/taskService.js`). The service keeps an
in-memory map from task id to a tracking record `{ totalTime, activeTimer, timeLogs }` next to the
backend's task records. It also keeps a counter that numbers closed time logs, starting at 100. Each task
is idle or running:

- `startTaskTimer` opens a timer on an idle task.
- `stopTaskTimer` closes the running timer into a time log and adds its duration to the total.
- `createTask` gives a new task a fresh record.
- `deleteTask` drops the record, but only when the backend reports that no record failed.
- The read paths (`getAllTasks`, `getTaskById`, `updateTask`, `updateTaskStatus`, `getTaskTimeLogs`)
  return the stored record, or a default idle record, and store nothing.

The store is the class `TaskService.TaskStore`. Its fields are `entries: map<int, Tracking>` and
`nextTimeLogId: int`, and its methods update them in place. The invariant `TimeTracking.StoreInvariant` says
four things:

- every total is the sum of its task's logged durations;
- a running timer belongs to its own task;
- every log is a well-formed interval whose id has already been handed out, and ids increase along each log;
- no two logs anywhere share an id.

A task has at most one timer because `activeTimer` is an `Option`.

The backend SDK is not modelled. Its responses are input values (`Responses.WriteResponse`,
`Responses.FetchResponse`). The order in which a service checks a create/update/delete response is modelled
by `Responses.Settle`:

1. the response's own failure, with its message;
2. then the first failed record, with that record's message or a fixed default message;
3. otherwise the successful records.

**The dashboard summary** (`src/services/api/dashboardService.js`). `getDashboardData` reduces the fetched
clients, projects, tasks and invoices to counts and a revenue sum, and adds a fixed recent-activity feed.
Each count is a `filter(...).length` (`DashboardService.Filter`). Each count is proved equal to the
cardinality of the set of positions that pass its test. The revenue is a left fold over the paid invoices.

Timestamps are integer milliseconds supplied by the caller. A time log's `date` (the `YYYY-MM-DD` prefix of
its start instant in UTC) is modelled as the UTC day number `startTime / 86400000`, which is in one-to-one
correspondence with that prefix.

Reads (`getAllTasks`, `getTaskById`, `getTaskTimeLogs`) never store the default record; only `createTask`
and `startTaskTimer` store one (taskService.js:41-48, 80-87, 127-131, 285, 326-328).

## Model

| member | source | states |
|---|---|---|
| `Responses.BatchError` | src/services/api/taskService.js:116-122 | There is no error exactly when every record succeeded. Otherwise the message is that of the first failed record (every earlier record succeeded), or the default message when that message is absent or empty. |
| `Responses.FailedFirst` | src/services/api/taskService.js:118-122 | The filtered list of failed records is empty exactly when all records succeeded. Its head is the first failed record in `results`. |
| `Responses.SucceededWhenNoneFailed` | src/services/api/taskService.js:117-125 | When no record failed, the filtered successful records are all the records, so `successfulRecords[0]` is the first result. |
| `Responses.Settle` | src/services/api/taskService.js:237-250 | A failed response throws its own message before any record is looked at. Otherwise, when a record failed, it throws `BatchError`'s message: the first failed record's message, or the default message when that is absent or empty. The outcome is an error exactly when the response failed or some record failed. A success carries the response's results, all successful, or nothing when the response has none. |
| `TimeTracking.Day` | src/services/api/taskService.js:310 | The day number `d` of an instant satisfies `d * 86400000 <= time < (d + 1) * 86400000`, also before the epoch. |
| `TimeTracking.TotalDurationAppend` | src/services/api/taskService.js:313-314 | Appending a log grows the sum of durations by that log's duration, which is what `totalTime += duration` does. |
| `TimeTracking.StartPreservesInvariant` | src/services/api/taskService.js:270-285 | Opening a timer on an idle task keeps the store invariant. This holds also when the task had no record before. |
| `TimeTracking.StopKeepsConsistent` | src/services/api/taskService.js:300-315 | Closing a record's timer into a log numbered with the counter keeps the record consistent with the incremented counter. The total still equals the sum of durations, the new log is well formed, and its id is the largest. |
| `TimeTracking.AppendFreshIdKeepsUnique` | src/services/api/taskService.js:305-313 | A log appended to one task with an id above every stored id leaves all log ids in the store pairwise distinct. |
| `TimeTracking.StopPreservesInvariant` | src/services/api/taskService.js:294-317 | Stopping a running timer and then incrementing the counter keeps the store invariant. |
| `TimeTracking.InitPreservesInvariant` | src/services/api/taskService.js:127-131 | Replacing a task's record with a fresh idle one keeps the store invariant. |
| `TimeTracking.RemovePreservesInvariant` | src/services/api/taskService.js:252-253 | Dropping a task's record keeps the store invariant. |
| `TaskService.TaskStore.constructor` | src/services/api/taskService.js:9-10 | The store starts with no records and the next log id set to 100. It satisfies the invariant. |
| `TaskService.TaskStore.GetAllTasks` | src/services/api/taskService.js:33-50 | A failed response throws its message. Otherwise each fetched task (none when `data` is absent) is paired, in order, with its stored record or the default idle record. Each total equals its logged durations. Nothing changes. |
| `TaskService.TaskStore.GetTaskById` | src/services/api/taskService.js:72-89 | A failed response throws its message. A missing record is a TypeError. Otherwise the result is the record with the tracking stored under the returned record's own id, or the default. Nothing changes. |
| `TaskService.TaskStore.CreateTask` | src/services/api/taskService.js:109-136 | On a response failure or a failed record, the error is `Settle`'s and nothing changes. With no results, the result is undefined and nothing changes. With no first successful record, a TypeError and nothing changes. Otherwise exactly the created id's entry becomes the fresh idle record. The log counter never changes. |
| `TaskService.TaskStore.UpdateTask` | src/services/api/taskService.js:158-223 | `updateTask` and `updateTaskStatus` follow the same rule, with their two default messages. On success the updated task comes with its stored or default record. Nothing changes. |
| `TaskService.TaskStore.DeleteTask` | src/services/api/taskService.js:237-256 | A response failure or a failed record throws and removes nothing. With no results, undefined (`Ok(None)`) is returned and nothing is removed. Otherwise exactly the given id's entry is removed and `true` is returned. |
| `TaskService.TaskStore.StartTaskTimer` | src/services/api/taskService.js:264-288 | A running timer gives "Timer already running for this task" and no state change. Otherwise the task's entry is created when missing and gets the timer `{Id: taskId, startTime: now}`, which is returned. Its total and logs are unchanged. No other entry changes and the counter is unchanged. The invariant is kept. |
| `TaskService.TaskStore.StopTaskTimer` | src/services/api/taskService.js:290-320 | No record or no running timer gives "No active timer for this task" and no state change. Otherwise one log `{id = old counter, start, end = now, duration = now - start}` is appended and returned. Its id is above every log id already stored. The total grows by the duration, the timer is cleared, the counter is incremented, and no other entry changes. The invariant is kept. |
| `TaskService.TaskStore.GetTaskTimeLogs` | src/services/api/taskService.js:322-329 | Returns the stored logs, or none for a task without a record. Their durations sum to the task's total and their ids increase. Nothing changes. |
| `TaskService.TimerLifecycle` | src/services/api/taskService.js:264-320 | In a fresh store, a second start without a stop fails. The stop then yields log 100 of duration `t2 - t1`. A second stop fails. |
| `DashboardService.FilterLength` | src/services/api/dashboardService.js:21-29 | `filter(test).length` equals the number of positions whose element passes the test. |
| `DashboardService.DisjointFiltersBound` | src/services/api/dashboardService.js:22-29 | Two tests that no element passes together select at most as many elements as there are. |
| `DashboardService.ActiveProjects` | src/services/api/dashboardService.js:21 | The number of projects whose status is exactly "active". |
| `DashboardService.PendingTasks` | src/services/api/dashboardService.js:22 | The number of tasks whose status is "todo" or "in-progress". |
| `DashboardService.CompletedTasks` | src/services/api/dashboardService.js:26 | The number of tasks whose status is "done". |
| `DashboardService.OverdueItems` | src/services/api/dashboardService.js:27-29 | The number of tasks that are not done and have a due date that parses and is strictly before now. |
| `DashboardService.InvoicesSent` | src/services/api/dashboardService.js:89 | The number of invoices whose status is "sent". |
| `DashboardService.MonthlyRevenue` | src/services/api/dashboardService.js:23-25 | The sum of `amount \|\| 0` over the paid invoices: it is 0 when no invoice is paid. Its other properties are `RevenueConcat`, `RevenueOfOneInvoice` (each invoice adds its amount exactly when paid) and `RevenueNonNegative`. |
| `DashboardService.SumAmountsConcat` | src/services/api/dashboardService.js:25 | The `reduce` sum of amounts (a missing amount counts 0) splits over concatenation. |
| `DashboardService.FilterConcat` | src/services/api/dashboardService.js:24 | Filtering distributes over concatenation and keeps order. |
| `DashboardService.RevenueConcat` | src/services/api/dashboardService.js:23-25 | The revenue of two invoice lists together is the sum of their revenues. |
| `DashboardService.RevenueOfOneInvoice` | src/services/api/dashboardService.js:23-25 | An invoice anywhere in the list adds its amount (0 when missing) to the revenue when its status is "paid". It adds nothing otherwise. |
| `DashboardService.RevenueNonNegative` | src/services/api/dashboardService.js:23-25 | When no amount is negative, the revenue is not negative. |
| `DashboardService.RecentActivity` | src/services/api/dashboardService.js:32-73 | The feed has five entries with ids 1 to 5. |
| `DashboardService.GetDashboardData` | src/services/api/dashboardService.js:20-29 | `totalClients` is the number of clients. Each other summary field is its count or the revenue. `pendingTasks + completedTasks` and `overdueItems + completedTasks` are each at most the number of tasks. `tasksCompleted` equals `completedTasks`. `invoicesSent` counts "sent" invoices. The feed is the fixed one, whatever the inputs. |

## Left out

- The backend SDK calls (`fetchRecords`, `getRecordById`, `createRecord`, `updateRecord`, `deleteRecord`), their field and ordering parameters, and `console.error` logging are foreign I/O. The responses are inputs.
- The `setTimeout` delays and the `Promise.all` fan-out are left out. Each service call is modelled as one atomic step on the store, which is how the single-threaded event loop runs the synchronous part after the delay.
- `new Date()`, ISO-8601 formatting and parsing are not modelled. Instants are integer milliseconds passed in as `now`, and the log's `date` string is the UTC day number.
- `parseInt` coercion of ids is not modelled; ids are integers.
- Task records are modelled by their `Id` alone. The other fields that the services copy with object spread are not modelled.
- Aliasing is not modelled. The source returns the stored tracking object from `getAllTasks`, `getTaskById`, `createTask` and the update functions, and the stored array from `getTaskTimeLogs`, so a caller that mutates them mutates the store. The model returns values.
- A due date given as `null` parses in JavaScript as instant 0, and an absent or unparsable one as an invalid date. The model takes the parsed instant (`Some(0)` for `null`) or `None` for an invalid date.
- The floating-point quick stats `projectsThisWeek` (`Math.floor(activeProjects * 0.4)`) and `hoursTracked` (`Math.floor(completedTasks * 2.5)`) are not modelled.
- JavaScript number arithmetic is not modelled: amounts and durations are unbounded integers, with no rounding and no string concatenation in the revenue `reduce`.
- `DashboardService.GetDashboardData`: a rejected fetch of any of the four collections is not modelled. The collections are inputs.
- `src/services/api/clientService.js` is not part of this model. Its only logic repeats the batch rule modelled here.
- `getAllProjects` and `getAllInvoices` (projectService and invoiceService) are not part of this model. Their results are inputs.
