# Background task queue — a Dafny model

This project models `TaskQueue` from `utils/queue.js`. It is an in-memory background job queue, exported as a module-level singleton (utils/queue.js:79-81) that none of the routes enqueue into; the upload route stores its embeddings inline. The queue has three fields:

- `queue`: an array of task records that only grows;
- `running`: a single-flight flag;
- `subscribers`: an ordered list of callbacks.

Its operations:

- `add` builds a `pending` record, appends it, notifies the subscribers and starts the runner.
- `list` filters the records on the fields of the filter that are set.
- `subscribe` registers a callback and returns a function that removes it again.
- `notify` calls every subscriber with a task.
- `run` is the drain loop. It repeatedly takes the first `pending` record, marks it `running`, awaits its work, and marks it `done` or `failed`, recording the error. It notifies the subscribers after each write, and clears `running` once nothing is pending.

The model is split into four modules:

- `Seqs` (`seqs.dfy`): counting, subsequences and repetition on sequences.
- `Tasks` (`tasks.dfy`): the task record and its status lifecycle, plus the specification functions for one drain pass:
  - `Processed`: what the runner does to one record;
  - `Drained`: what a whole pass does to the queue;
  - `FirstPending`: the `find` of the drain loop;
  - `PendingCount`: the loop measure;
  - `Select`: the filter of `list`.
- `Observers` (`observers.dfy`): what the subscribers see.
  - A `Notice` is one call of `notify`, holding the task id and the status at that moment.
  - An `Event` is one call of one subscriber.
  - `Fan` turns a series of notices into the subscriber calls they cause.
  - `RunNotices` is the notices of a drain pass.
  - `Without` is the list of subscribers left after an unsubscribe.
- `Queue` (`queue.dfy`): the class `TaskQueue`, with the fields above, and the class `Unsubscribe`, which stands for the function `subscribe` returns.
  - The methods update the fields in place.
  - `run` is a `while` loop whose measure is the number of pending tasks.
  - Two ghost fields keep the log of every `notify` call (`notices`) and of every subscriber call (`trace`).

Outside effects become data:

- A task's function becomes a per-task outcome, `Work = Succeeds | Throws(error)`. This is the result the runner sees when it awaits the work.
- `crypto.randomUUID` becomes a counter, `nextId`.
- A subscriber callback becomes a number that stands for its identity.

The queue invariant `QueueInv` holds between any two operations. It states:

- ids are the positions in the queue, so they are unique and grow with the order of `add`;
- `error` is set exactly on failed tasks;
- no task is left `running` between operations;
- for every task, the statuses sent to `notify` are exactly its lifecycle so far: `pending`, then `running`, then one of `done` or `failed`.

`Valid` adds one more fact: an idle queue has no pending task.

Two points about what the code does, which the model follows:

- **Throwing subscribers.** The subscriber calls at utils/queue.js:47 are not guarded. A subscriber that throws aborts `add`, or leaves `running` true with the runner stopped part-way through a pass. The model does not claim that such a subscriber is isolated.
- **Scope of single flight.** The code admits one running task for the whole queue, whatever its `pdfId`, not merely one per document. The model proves this global property.

## Model

| member | source | states |
|---|---|---|
| Queue.TaskQueue.constructor | utils/queue.js:5-9 | A new queue is empty, idle and has no subscribers, and satisfies the queue invariant. |
| Queue.TaskQueue.Add | utils/queue.js:12-24 | Appends exactly one task at the end of the queue and leaves the earlier tasks unchanged. The task carries the given name, pdfId and work, and an id used by no earlier task, which is returned. If no pass was active, the post-state is the one after the triggered pass has settled the new task (see Left out on the unawaited `run`). The only notices are `pending` for the new task, then its `running` and terminal notices. The invariant is kept. |
| Queue.AddKeepsInv | utils/queue.js:12-23 | Appending a fresh pending task with the next id and notifying it keeps the queue invariant: the new task's notified lifecycle is exactly `[pending]`. |
| Queue.DrainAfterAdd | utils/queue.js:20-22 | When nothing else is pending, the pass that `add` starts runs only the new task and notifies only its two steps. |
| Queue.TaskQueue.List | utils/queue.js:27-34 | The result holds exactly the tasks that match every truthy filter field. It is a subsequence of the queue, so queue order is kept. It reads the queue and changes nothing. |
| Queue.ListInOrder | utils/queue.js:27-34 | The tasks that `list` returns are in enqueue order: ids strictly increase along the result. |
| Tasks.Select | utils/queue.js:27-34 | A task is in the result if and only if it is in the queue and matches the filter. The result is a subsequence of the queue. |
| Tasks.SelectInOrder | utils/queue.js:27-34 | Filtering keeps the relative order of the tasks: ids that increase along the queue still increase along the result. |
| Tasks.SelectEverything | utils/queue.js:29-32 | A filter with no truthy field returns the whole queue. |
| Tasks.MatchesPendingOnly | utils/queue.js:30 | The status filter `'pending'` selects exactly the pending tasks. |
| Queue.TaskQueue.Subscribe | utils/queue.js:37-43 | Adds the subscriber at the end of the registration list. Returns a new unsubscribe object bound to this queue and this subscriber. |
| Queue.Unsubscribe.Call | utils/queue.js:40-42 | The subscriber list becomes the old list with every registration of that subscriber removed. The invariant is kept. |
| Observers.Without | utils/queue.js:41 | The subscriber no longer occurs. Every other subscriber occurs as often as before, in the same order. |
| Observers.WithoutIdempotent | utils/queue.js:40-42 | Calling unsubscribe a second time changes nothing. |
| Observers.UnsubscribeStopsOnlyThatSubscriber | utils/queue.js:40-48 | After unsubscribing, later notifications reach that subscriber not at all. Every other subscriber receives exactly what it would have received anyway. |
| Queue.TaskQueue.Notify | utils/queue.js:46-48 | Records one notice with the task's id and current status. Calls every registered subscriber once with it, in registration order. |
| Observers.DeliveriesInOrder | utils/queue.js:47 | The calls of one notify are one per registration, and the k-th call goes to the k-th registered subscriber. |
| Observers.ProjectFan | utils/queue.js:46-48 | Over a series of notify calls, a subscriber receives every notice once per registration, in notify order. |
| Observers.SubscribedOnceSeesAll | utils/queue.js:46-48 | A subscriber registered once receives exactly the notices, in order. |
| Queue.TaskQueue.Run | utils/queue.js:51-75 | If a pass is active, nothing changes. Otherwise the pass ends idle with no task pending. Every task ends as `Processed` makes it: a pending task is run and settled, any other task is untouched. The notices and subscriber calls are exactly those of the pass, in queue order. The invariant is kept. |
| Queue.TaskQueue.RunNext | utils/queue.js:55-71 | One loop iteration either reports that no task is pending and changes nothing, which is the `break`, or runs exactly the first pending task: only that task changes, to its processed form, and the only notices are its two steps. Running it advances the pass and lowers the number of pending tasks by exactly one, which is why the loop terminates. |
| Queue.TaskQueue.RunTask | utils/queue.js:58-71 | Exactly the chosen task changes, to its processed form. The notices are `running`, then its terminal status, both also delivered to every subscriber. The invariant is kept. |
| Tasks.FirstPending | utils/queue.js:56-57 | Returns the index of a pending task with no pending task before it, and `None` exactly when no task is pending (FIFO selection). |
| Tasks.PendingCountZero | utils/queue.js:55-57 | The loop measure is zero exactly when no task is pending. |
| Tasks.PendingCountSettle | utils/queue.js:59-67 | Settling one pending task lowers the pending count by exactly one. |
| Tasks.ProcessedSpec | utils/queue.js:59-67 | Running a task only moves its status forward. A pending task ends `done` exactly when its work succeeds. A failure records the error thrown, and a success records none. Id, name, pdfId and work are unchanged, and tasks that are not pending are left alone. |
| Tasks.LifecycleForward | utils/queue.js:59-66 | The status lifecycle starts at `pending`, ends at the current status and moves exactly one step forward per write. Only its last entry can be terminal. |
| Tasks.DrainedSpec | utils/queue.js:55-72 | After a pass, each task is its processed form and no task is pending. A failing task does not stop later pending tasks from running. |
| Queue.DrainAdvance | utils/queue.js:55-72 | Part-way through a pass, the first pending task still has the state it was enqueued with. Processing it advances the pass by one task, lowers the pending count and extends the logs by its two steps. |
| Queue.DrainFinished | utils/queue.js:55-74 | When the untouched rest of the queue has nothing pending, the queue already equals the result of a whole pass. |
| Queue.RunStepKeepsInv | utils/queue.js:58-71 | Single flight: while the chosen task runs, it is the only running task. Once it has settled and both writes are notified, the queue invariant holds again. |
| Observers.TrackedAfterWrite | utils/queue.js:59-71 | Writing the next lifecycle status of one task and notifying it keeps every task's notified statuses equal to its lifecycle. |
| Observers.TrackedAfterAdd | utils/queue.js:18-21 | Appending a new pending task and notifying it keeps every task's notified statuses equal to its lifecycle. |
| Observers.RunAlternates | utils/queue.js:58-71 | A pass sends two notices per pending task. Every `running` notice is followed by the terminal notice of the same task before another task starts. |
| Observers.RunStartOrder | utils/queue.js:55-72 | A pass starts exactly the tasks that `list({ status: 'pending' })` returned before it, in that order (first in, first out). |

## Left out

- Queue.TaskQueue.Run: the `await` of a task's work is modelled as an atomic step. Calls to `add`, `subscribe` or unsubscribe made during that await, which JavaScript's event loop allows, are not interleaved. What an `add` would do is captured only in part: `Add` on an active queue leaves the new task pending for that pass. A subscriber registered during the await of a task's work (utils/queue.js:63) would receive that task's terminal notice (utils/queue.js:71) without its `pending` or `running` notices; the model does not show this.
- Queue.TaskQueue.Notify: subscribers receive the live task object (utils/queue.js:47), so one that keeps it sees later status writes; a `Notice` is a snapshot of id and status. Subscribers are modelled as identities whose calls are recorded. The model omits a subscriber that throws (which would abort `notify` and the runner), and a subscriber that calls back into the queue.
- Queue.TaskQueue.List: it returns the task records as values. In JavaScript they are live references to the same objects, and a caller could mutate them.
- Queue.TaskQueue.Add: its post-state is the one after the pass it triggers has settled. In the source, `run()` is not awaited (utils/queue.js:22), so `add` returns as soon as the pass reaches `await task.fn()` (utils/queue.js:63): the new task is then still `running`, or already settled if its function throws synchronously, and the rest of the pass runs after the return.
- Queue.TaskQueue.Add: `crypto.randomUUID` is modelled as a counter, so ids are unique by construction rather than with overwhelming probability.
- Queue.TaskQueue.RunTask: the error log written with `console.error` (utils/queue.js:68) is left out, as output with no effect on the queue.
- A task function that is not callable throws a TypeError when it is called, inside the `try` at utils/queue.js:62-63. The model represents it as work that throws.
- The module-level singleton (utils/queue.js:79-81) is a plain construction of `TaskQueue`.
- The polling status stream is not part of this model: no such code exists.
- The HTTP routes, middleware and server start-up, and the Prisma and embedding code, are not part of this model. They are I/O and calls into external services.
