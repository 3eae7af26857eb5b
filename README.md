# YTDownloader download queue in Dafny

This project models the download-queue subsystem of YTDownloader, a yt-dlp front end. It covers three parts:

- **Task** (`task.dfy`): a single download job. It has six statuses, a priority, a progress record and two control signals: the pause signal and the cancel signal.
  - `pause`, `resume`, `cancel` and `set_priority` change the task in place.
  - The progress hook applies executor events to the progress record.
- **Queue** (`queue_order.dfy`, `queue_states.dfy`, `queue_filters.dfy`, `ydl_options.dfy`, `queue.dfy`): the scheduler.
  - It keeps a list of task objects. `add_task`, `set_task_priority` and the two moves re-sort it stably by the key `(not is_active, -priority)`; admission, pause, resume and completion change keys without re-sorting, so the order holds right after a re-sort only (`Queue.FinishCanBreakOrder`).
  - It keeps a counter of running downloads, `active_downloads`, and a budget, `max_concurrent`.
  - The admission step starts the first QUEUED task while the counter is below the budget.
  - The worker's completion is one atomic method, `Finish`: it overwrites the status, decrements the counter and runs one admission pass.
  - The yt-dlp options built for a task are pure string functions.
- **Persistence** (`persistence.dfy`): saving and restoring a snapshot.
  - Saving writes one record per task.
  - Restoring keeps the queued, paused and error records, maps their statuses, fills in defaults, and re-adds each task through `add_task`. A restored QUEUED task may therefore be admitted at once.

Modelling choices:

- `DownloadTask` and `DownloadQueue` are classes, and their methods update fields in place.
- `TaskState` is the value of a task's mutable fields. `StatesOf(tasks)` gives the values of the list in order.
- `TaskConfig` is the value of a task's construction arguments (url, quality, audio flag, output path, playlist flag), which are set once and are `const` fields. `ConfigsOf(tasks)` gives them for the list in order.
- Every queue method is specified against pure functions of these values:
  - `Admit`, the admission pass;
  - `SortStates` and `SortByPriority`, the sort;
  - `UpdateFirst` and `Each`, transitions applied to one task or to all;
  - `Replay`, the whole restore.
- The properties the source promises are proved about those functions.

COMPLETED, ERROR and CANCELLED are not final in the code:

- `cancel` sets CANCELLED from every status, COMPLETED included (`utils/download_task.py:102-106`);
- the worker's completion overwrites whatever status the task has, CANCELLED and PAUSED included (`utils/download_queue.py:229-233`).

The counter is not tied to the number of DOWNLOADING tasks:

- pausing does not decrement it;
- `clear_all` sets it to zero while workers still decrement it later.

So the model proves the local admission guard (`QueueStates.AdmitFacts`), not a global bound. The one place the model proves that counter and DOWNLOADING tasks coincide is a freshly restored queue (`Persistence.ReplayShape`).

Unchecked exceptions are modelled as error results:

- A restore in which a kept record lacks `url` or `id` raises `KeyError` in the source. The model gives `None` for it.
- A download that raises is the `ok == false` input of `Finish`.

## Model

| member | source | states |
|---|---|---|
| Task.StatusValueInjective | utils/download_task.py:15-21 | distinct statuses are stored as distinct strings |
| Task.StatusPredicatesPartition | utils/download_task.py:68-86 | `is_finished` holds exactly for COMPLETED, ERROR and CANCELLED, `is_active` exactly for DOWNLOADING, `is_paused` exactly for PAUSED; the three never overlap and with QUEUED cover all statuses |
| Task.DownloadTask.constructor | utils/download_task.py:35-66 | a new task is QUEUED with priority 0, zero progress, speed and ETA "N/A", no error, neither signal set, title "Unknown", duration and size 0, created now; the output path defaults to `downloads` under the working directory |
| Task.PauseFacts | utils/download_task.py:88-93 | pause turns DOWNLOADING into PAUSED and sets the pause signal, changes nothing from any other status, and is idempotent |
| Task.DownloadTask.Pause | utils/download_task.py:88-93 | the task's new value is the pause transition of its old value |
| Task.ResumeFacts | utils/download_task.py:95-100 | resume turns PAUSED into QUEUED and clears the pause signal, changes nothing from any other status, and is idempotent |
| Task.DownloadTask.Resume | utils/download_task.py:95-100 | the task's new value is the resume transition of its old value |
| Task.CancelFacts | utils/download_task.py:102-106 | cancel from every status, COMPLETED included, leaves CANCELLED with both signals set, keeps priority and progress, and is idempotent |
| Task.DownloadTask.Cancel | utils/download_task.py:102-111 | the task's new value is the cancel transition of its old value |
| Task.PauseThenResumeRequeues | utils/download_task.py:88-100 | pausing a running task and resuming it puts it back to QUEUED with everything else unchanged |
| Task.DownloadTask.SetPriority | utils/download_task.py:113-115 | the priority becomes the given value whatever the status; nothing else changes |
| Task.TransitionsKeepInv | utils/download_task.py:88-115 | every transition keeps the invariant relating status and signals: pause signal means not QUEUED or DOWNLOADING, cancel signal means paused and finished |
| Task.ApplyEvent | utils/download_task.py:122-140 | a `finished` event sets the percentage to 100; a `downloading` event sets speed and ETA from the event with "N/A" defaults and the percentage when it parses; any other event changes nothing; byte counts never change |
| Task.ApplyEventIdempotent | utils/download_task.py:122-140 | handling the same event twice records the same progress as handling it once |
| Task.DownloadTask.NotifyProgress | utils/download_task.py:122-140 | only the progress changes, to the event applied to the old progress |
| Task.HookProgress | utils/download_task.py:142-157 | once the cancel signal is set every event is dropped; a wait that ends by cancellation drops the event; a wait that ends by the pause signal clearing, and no wait at all, apply the event |
| Task.DownloadTask.ProgressHook | utils/download_task.py:142-157 | only the progress changes, as the hook's outcome for the old state |
| Task.HookNeverWaits | utils/download_task.py:142-157 | in every state satisfying the invariant the pause wait is never entered, so the hook drops the event exactly when cancelled |
| Task.PausedTaskKeepsProgressing | utils/download_task.py:142-157 | a paused transfer keeps recording the executor's progress |
| Task.DownloadTask.GetDisplayInfo | utils/download_task.py:159-172 | the report carries the task's id, title, status string, percentage, speed, ETA, priority, quality, audio flag and error |
| QueueOrder.SortByPriority | utils/download_queue.py:178-181 | the sorted list is a permutation of the list |
| QueueOrder.SortOrdered | utils/download_queue.py:178-181 | after sorting every DOWNLOADING task precedes every other and priority does not increase within each group |
| QueueOrder.SortStable | utils/download_queue.py:178-181 | tasks with equal keys keep their relative order |
| QueueOrder.SortByPriorityStates | utils/download_queue.py:178-181 | the values of the sorted list are the value-level sort of the list's values |
| QueueStates.IndexOfId | utils/download_queue.py:171-176 | the position found holds the id and no earlier position does; None exactly when no task has the id |
| QueueStates.FirstQueued | utils/download_queue.py:188-194 | the position found is QUEUED and no earlier one is; None exactly when no task is QUEUED |
| QueueStates.Admit | utils/download_queue.py:183-186 | admission keeps the length, and changes nothing when the counter has reached the budget |
| QueueStates.AdmitFacts | utils/download_queue.py:183-204 | admission adds at most one to the counter, only below the budget, so the counter never passes the budget; it changes at most the first QUEUED task, to DOWNLOADING; it admits whenever a QUEUED task exists and there is room |
| QueueStates.AdmitFirst | utils/download_queue.py:183-204 | with room in the budget, admission starts exactly the first QUEUED task and adds one |
| QueueStates.AdmitKeepsInv | utils/download_queue.py:198-204 | admission keeps the task invariant |
| QueueStates.AdmitOnlyTakesQueued | utils/download_queue.py:200-201 | admission never changes a task that is not QUEUED |
| QueueStates.PauseEachFacts | utils/download_queue.py:117-122 | after pause-all no task is DOWNLOADING, every task that was is PAUSED with the pause signal, every other task is untouched |
| QueueStates.ResumeEachFacts | utils/download_queue.py:124-129 | after the resume loop no task is PAUSED, every task that was is QUEUED with the signal cleared, every other task is untouched |
| QueueStates.PauseAllThenResumeAll | utils/download_queue.py:117-129 | pause-all then the resume loop re-queues every task that was running |
| QueueStates.MoveFacts | utils/download_queue.py:91-115 | moving up adds one to the priority; moving down subtracts one but never below zero; each undoes the other where the bound allows; neither changes the status |
| QueueFilters.WithStatus | utils/download_queue.py:156-169 | the filter keeps exactly the tasks of the given status |
| QueueFilters.WithoutStatus | utils/download_queue.py:132-135 | the filter keeps exactly the tasks not of the given status |
| QueueFilters.FiltersPartition | utils/download_queue.py:132-169 | the tasks of a status and the tasks not of it together are the whole list, as a bag |
| QueueFilters.WithStatusKeepsOrder | utils/download_queue.py:156-169 | filtering distributes over concatenation, so list order is kept |
| QueueFilters.WithoutStatusKeepsOrder | utils/download_queue.py:132-135 | removing completed tasks distributes over concatenation, so list order is kept |
| QueueFilters.WithoutKeepsOthers | utils/download_queue.py:132-135 | removing one status keeps every task of every other status, ERROR and CANCELLED included |
| QueueFilters.StatusCountsCoverQueue | utils/download_queue.py:285-297 | the counts of the six statuses add up to the number of tasks |
| QueueFilters.Stats | utils/download_queue.py:285-297 | `total` is the length of the list; `queued`, `paused`, `completed` and `error` are the numbers of tasks with that status; the total is the sum of those counts plus the DOWNLOADING and CANCELLED tasks; `active` is the counter, not a count of tasks |
| YdlOptions.StripP | utils/download_queue.py:269 | removing "p" leaves no "p" and never lengthens the string |
| YdlOptions.StripPDistributes | utils/download_queue.py:269 | removing "p" distributes over concatenation |
| YdlOptions.StripPHeight | utils/download_queue.py:269 | a height quality such as "720p" becomes its number |
| YdlOptions.VideoFormat | utils/download_queue.py:264-269 | "best" selects `best[height<=1080]/best`, "worst" selects `worst`, and any other quality selects `best[height<=N]/best` where N is the quality with every "p" removed |
| YdlOptions.OptionsFor | utils/download_queue.py:246-277 | quiet and without warnings; audio-only selects `bestaudio/best` with mp3 extraction at 192, video uses the quality's format and no post-processing; a playlist uses the playlist-title template, otherwise `noplaylist` is set |
| YdlOptions.HeightQualityFormat | utils/download_queue.py:264-269 | any quality `d` + "p" with `d` free of "p" caps the height at `d` |
| YdlOptions.BestMeans1080p | utils/download_queue.py:264-269 | "best" and "1080p" select the same format |
| YdlOptions.OptionsIndependence | utils/download_queue.py:255-275 | audio-only ignores the quality, and the playlist flag changes neither the format nor the post-processing |
| QueueOrder.ConfigsPermute | utils/download_queue.py:178-181 | reordering a list, as the sort does, keeps the bag of its tasks' construction arguments, which are set once at utils/download_task.py:38-42 |
| QueueOrder.ConfigsAdded | utils/download_queue.py:30-32 | adding a task to a list and reordering it adds exactly that task's construction arguments |
| QueueStates.LockedCallsReturnOnlyWhenIdle | utils/download_queue.py:43-149 | as written, pause-all returns only when no task is DOWNLOADING, the resume loop only when none is PAUSED, clear-all only on an empty list, and remove never returns when the id is found (the cancel always notifies): otherwise the status callback blocks on the held lock |
| Queue.FinishCanBreakOrder | utils/download_queue.py:236-241 | a list in priority order stops being ordered when a running task finishes and the next QUEUED task is admitted without a re-sort |
| Queue.SortKeepsValid | utils/download_queue.py:178-181 | sorting keeps the list free of repeated tasks and every task valid |
| Queue.AddedMembers | utils/download_queue.py:30-32 | appending a task and sorting brings in no task but the old ones and the new one |
| Queue.AddKeepsValid | utils/download_queue.py:30-32 | appending a new valid task and sorting keeps the list free of repeated tasks and every task valid |
| Queue.AppendSortedStates | utils/download_queue.py:30-32 | the values after append-and-sort are the value-level sort of the old values plus the new one |
| Queue.ChangeThenSort | utils/download_queue.py:78-115 | changing the first task with the id and sorting gives an ordered, valid list whose values are the updated ones |
| Queue.DownloadQueue.constructor | utils/download_queue.py:16-19 | an empty queue with the given budget and a zero counter |
| Queue.DownloadQueue.FindTask | utils/download_queue.py:171-176 | the loop returns the position of the first task with the id, or None |
| Queue.DownloadQueue.FindNextQueued | utils/download_queue.py:188-194 | the loop returns the position of the first QUEUED task, or None |
| Queue.DownloadQueue.StartDownload | utils/download_queue.py:198-204 | a QUEUED task becomes DOWNLOADING and the counter goes up by one; any other task and the counter are left alone |
| Queue.DownloadQueue.StartNextDownload | utils/download_queue.py:183-196 | the list is unchanged and the values and counter become those of one admission pass |
| Queue.DownloadQueue.AdmitAt | utils/download_queue.py:195-204 | starting the first QUEUED task, with room in the budget, is the admission pass |
| Queue.DownloadQueue.AddTask | utils/download_queue.py:27-41 | always true; the list becomes the sorted old list plus the task, holding the old tasks and the new one as a bag, and the values and counter are those of one admission pass over the sorted old values plus the new one |
| Queue.DownloadQueue.Enqueue | utils/download_queue.py:30-32 | the list becomes the sorted old list plus the task and holds no other task; its values are the value-level sort of the old values plus the new one; a new valid task keeps the queue valid |
| Queue.DownloadQueue.RemoveTask | utils/download_queue.py:43-57 | false and nothing changes for an unknown id; otherwise the first task with the id is cancelled and removed, the others keep their order and values, and the counter is untouched |
| Queue.DownloadQueue.CancelAt | utils/download_queue.py:48 | only the task at the position changes, to its cancelled value |
| Queue.DownloadQueue.DropAt | utils/download_queue.py:49 | only that position leaves the list; no task value changes |
| Queue.DownloadQueue.PauseTask | utils/download_queue.py:59-66 | true exactly for a known id; only the first task with the id goes through pause; the list and counter are unchanged |
| Queue.DownloadQueue.ResumeTask | utils/download_queue.py:68-76 | true exactly for a known id, and then the first task with it is resumed and one admission pass runs; otherwise nothing changes |
| Queue.DownloadQueue.ResumeFound | utils/download_queue.py:70-73 | only the first task with the id goes through resume |
| Queue.DownloadQueue.SetTaskPriority | utils/download_queue.py:78-89 | true exactly for a known id, whatever its status; the task gets the priority and the list is re-sorted and ordered; otherwise nothing changes |
| Queue.DownloadQueue.MoveTaskUp | utils/download_queue.py:91-102 | true exactly when the id is known and its task is not DOWNLOADING; then its priority goes up by one and the list is re-sorted; otherwise nothing changes |
| Queue.DownloadQueue.MoveTaskDown | utils/download_queue.py:104-115 | as move up, with the priority lowered by one but not below zero |
| Queue.DownloadQueue.SetPriorityAt | utils/download_queue.py:82-84 | the task at the found position gets the new priority, no other task changes, and the re-sorted list is valid and in priority order |
| Queue.DownloadQueue.Resort | utils/download_queue.py:178-181 | the list becomes its sort; no task changes |
| Queue.DownloadQueue.PauseAll | utils/download_queue.py:117-122 | every task goes through pause, so every DOWNLOADING task is PAUSED; the counter is untouched |
| Queue.DownloadQueue.ResumeAll | utils/download_queue.py:124-130 | every task goes through resume, then one admission pass runs |
| Queue.DownloadQueue.ResumeEvery | utils/download_queue.py:126-129 | the loop applies resume to every task and changes nothing else |
| Queue.DownloadQueue.ClearCompleted | utils/download_queue.py:132-138 | the list becomes the tasks that are not COMPLETED, in order |
| Queue.DownloadQueue.ClearAll | utils/download_queue.py:140-149 | every task is cancelled, the list is empty and the counter is zero |
| Queue.DownloadQueue.Empty | utils/download_queue.py:145-146 | the list becomes empty and the counter zero; no task changes |
| Queue.DownloadQueue.CancelEvery | utils/download_queue.py:142-144 | the loop cancels every task, whatever its status |
| Queue.DownloadQueue.Finish | utils/download_queue.py:215-244 | the task becomes COMPLETED on success or ERROR with the text on failure, whatever its status was; the counter goes down by one; one admission pass runs; the task need not still be listed |
| Queue.DownloadQueue.Settle | utils/download_queue.py:228-237 | the status overwrite and the decrement, before admission |
| Persistence.LoadQueue | utils/queue_persistence.py:53-66 | a missing or unreadable file gives `{max_concurrent: 3, tasks: []}`; otherwise the stored snapshot |
| Persistence.SaveQueue | utils/queue_persistence.py:20-42 | the snapshot holds the budget and one record per task, in list order, each with the task's fields and its status string |
| Persistence.KeptStatuses | utils/queue_persistence.py:73-76 | a record is kept exactly when its status is queued, paused or error; a missing status counts as queued |
| Persistence.RestoredStatusMapping | utils/queue_persistence.py:91-98 | paused restores PAUSED, error restores ERROR with "Restored from previous session", queued restores QUEUED; never DOWNLOADING, neither signal set, and the task invariant holds |
| Persistence.RestoreDefaults | utils/queue_persistence.py:77-89 | a kept record restores exactly when it has url and id; missing fields default to quality "best", no audio, "downloads", no playlist, priority 0, "Unknown", duration 0, created at 0 |
| Persistence.SaveRestoreRoundTrip | utils/queue_persistence.py:28-42 | restoring the saved record of a QUEUED, PAUSED or ERROR task gives back its url, quality, audio flag, output path, playlist flag, id, priority, title, duration, creation time and status |
| Persistence.SaveDropsOthers | utils/queue_persistence.py:73-76 | a saved DOWNLOADING, COMPLETED or CANCELLED task is not restored |
| Persistence.ReplayFailureSticks | utils/queue_persistence.py:77-85 | once a kept record without url or id is met, the whole restore fails |
| Persistence.NothingKeptRestoresEmpty | utils/queue_persistence.py:73-76 | a snapshot with no kept record restores to an empty queue with a zero counter |
| Persistence.DefaultRestoresEmpty | utils/queue_persistence.py:56-71 | the default snapshot restores to an empty queue with a budget of three |
| Persistence.MixedSnapshotRestore | utils/queue_persistence.py:68-102 | COMPLETED, PAUSED, ERROR and DOWNLOADING records restore to the PAUSED task then the ERROR task with the restore message, and nothing is admitted |
| Persistence.ReplayShape | utils/queue_persistence.py:68-102 | a restored queue holds the kept records' values, some QUEUED ones admitted; its counter equals the DOWNLOADING tasks and stays within a non-negative budget; every task is valid |
| Persistence.RestoreAdmitsOnlyQueued | utils/queue_persistence.py:100 | a restored DOWNLOADING task was a kept QUEUED record, and every kept PAUSED or ERROR value is in the queue unchanged |
| Persistence.KeptConfigsExtend | utils/queue_persistence.py:77-100 | the construction arguments restored from a longer prefix of records are those of the shorter prefix plus the next record's, if it restores |
| Persistence.MakeTask | utils/queue_persistence.py:77-98 | the built task is fresh and valid, with the construction arguments (url, quality, audio flag, output path, playlist flag) and value the record restores to |
| Persistence.RestoreOne | utils/queue_persistence.py:73-100 | one record's turn: skipped when not kept, added through `add_task` when it restores, failing otherwise; the construction arguments in the queue gain exactly the record's, with defaults, when it is added |
| Persistence.AddRestored | utils/queue_persistence.py:77-100 | the record's task is added: the values and counter become one admission pass over the sorted values plus the new one, and the construction arguments in the queue gain exactly the record's url, quality, audio flag, output path and playlist flag, with defaults "best", no audio, "downloads", no playlist |
| Persistence.RestoreQueue | utils/queue_persistence.py:68-102 | a fresh valid queue with the snapshot's budget (3 when missing), whose values and counter are the replay of the records through `add_task`, and whose tasks' construction arguments are, as a bag, those of the kept records with defaults; None exactly when the replay fails |

## Left out

- File I/O: reading and writing the JSON file, printing errors, and `clear_saved_queue` (utils/queue_persistence.py:44-66, 104-110). `LoadQueue` takes what was read, or None when the file is missing or unreadable.
- JSON values of unexpected types: every record field is modelled with the type the saver writes.
- `str(Path(...))` normalisation of output paths: paths are strings, and joining them is `dir + "/" + name`.
- Floating point: percentages and creation times are `real`. Parsing `_percent_str` with its bare `except` is an optional percentage input.
- Threads, the lock and `threading.Event`:
  - every method runs atomically, including the two halves a method is split into (`Enqueue`, `CancelAt`, `DropAt`, `ResumeFound`, `ResumeEvery`, `CancelEvery`, `Settle`);
  - the signals are boolean fields;
  - the 100 ms polling loop of the progress hook is reduced to its outcome, the `cancelledWhileWaiting` parameter.
- `uuid.uuid4`, `time.time` and `Path.cwd()`: these are the parameters `id`, `now` and `cwd` (`freshId` and `now` on restore).
- The status callback `add_task` installs (`_on_task_status_change`, utils/download_queue.py:278-282): the model treats it as unset. As written it takes the queue's lock, which is not re-entrant, so `remove_task`, `pause_task`, `resume_task`, `pause_all`, `resume_all` and `clear_all` block at their first status change that notifies (see Findings).
- The other `on_*` callbacks, `_thread` and `_ydl_instance`: with the queue's defaults (no callback) they change no modelled state. A caller-installed `on_queue_changed` that reads the queue, as yt_downloader_advanced_gui.py:26 installs, would take the same non-re-entrant lock (utils/download_queue.py:153, 287) that every operation calling `on_queue_changed` already holds, `add_task` first among them (utils/download_queue.py:29, 37), so with it those calls block as well; the callbacks are treated as unset.
- The yt-dlp download itself: `Finish` takes its outcome as `ok` and the error text `msg`.
- The `progress_hooks` entry of the yt-dlp options: it is the task's `ProgressHook`.
- `get_tasks` returns a copy of the list; `SaveQueue` reads `tasks` directly.
- Queue.DownloadQueue.AddTask: requires that the task is not already in the list. Every caller passes a new task; adding the same object twice is not modelled.
- `max_concurrent` is a constant of the queue (`maxConcurrent`), although the GUI assigns it after construction (yt_downloader_advanced_gui.py:516, 520).
- Persistence.RestoreQueue: states the bag of the restored tasks' construction arguments and the list of their values separately; which arguments go with which value is not stated.
- Persistence.RestoreQueue: a record that raises `KeyError` gives None, not the partial queue the source has built when it raises.
- The GUIs and the command-line tool, which only call into this subsystem.

## Findings

| source | as written | input that shows it | evidently intended | confidence | as-written member | corrected member |
|---|---|---|---|---|---|---|
| utils/download_queue.py:20, 31, 278-282 | the status callback `add_task` installs takes the queue's lock, which is a plain `threading.Lock`; `remove_task`, `pause_task`, `resume_task`, `pause_all`, `resume_all` and `clear_all` call `pause`, `resume` or `cancel` while holding that lock | `remove_task` with the id of any listed task: `cancel` always notifies (utils/download_task.py:111), the callback waits for the lock its caller holds | the operations complete, with the callback not re-acquiring the lock (a re-entrant lock, or notifying after release) | high, not executed | QueueStates.LockedCallsReturnOnlyWhenIdle | Queue.DownloadQueue.RemoveTask |
