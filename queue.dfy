/**
 * The download queue (utils/download_queue.py): a priority-ordered list of
 * task objects, a concurrency budget and a counter of running downloads.
 * Every operation runs atomically, as under the source's lock; a worker's
 * completion is the single step `Finish`.
 */
module Queue {
  import opened Wrappers
  import opened Task
  import opened QueueOrder
  import opened QueueStates
  import opened QueueFilters
  import opened YdlOptions

  /** No task object occurs twice in `ts`. */
  predicate Distinct(ts: seq<DownloadTask>) {
    forall t | t in ts :: multiset(ts)[t] <= 1
  }

  /** Two positions holding the same task make it count twice in the bag of the list. */
  lemma TwiceInBag(ts: seq<DownloadTask>, i: int, j: int)
    requires 0 <= i < j < |ts| && ts[i] == ts[j]
    ensures multiset(ts)[ts[i]] >= 2
  {
    assert ts == ts[..j] + ts[j..];
    assert ts[..j][i] == ts[i] && ts[j..][0] == ts[j];
    assert ts[i] in multiset(ts[..j]) && ts[j] in multiset(ts[j..]);
  }

  /** Where each element of a list ends up once the one at position `k` is taken out. */
  lemma RemovedAt<T>(a: seq<T>, k: int, j: int)
    requires 0 <= k < |a| && 0 <= j < |a| - 1
    ensures (a[..k] + a[k + 1..])[j] == if j < k then a[j] else a[j + 1]
  {
  }

  /** Taking position `k` out of a list does not see what was written there. */
  lemma RemovedUpdate<T>(a: seq<T>, k: int, v: T)
    requires 0 <= k < |a|
    ensures a[k := v][..k] + a[k := v][k + 1..] == a[..k] + a[k + 1..]
  {
    assert a[k := v][..k] == a[..k] && a[k := v][k + 1..] == a[k + 1..];
  }

  /**
   * Taking the task at position `k` out of a list without repetitions whose
   * other tasks have the values `ss` leaves a list without repetitions whose
   * values are `ss` without position `k`.
   */
  lemma RemovalKeepsValid(ts: seq<DownloadTask>, ss: seq<TaskState>, k: int)
    requires 0 <= k < |ts| == |ss|
    requires forall j :: 0 <= j < |ts| && j != k ==> ts[j].State() == ss[j]
    requires Distinct(ts) && AllInv(ss)
    ensures StatesOf(ts[..k] + ts[k + 1..]) == ss[..k] + ss[k + 1..]
    ensures Distinct(ts[..k] + ts[k + 1..]) && AllInv(ss[..k] + ss[k + 1..])
  {
    var rest := ts[..k] + ts[k + 1..];
    forall j | 0 <= j < |rest|
      ensures rest[j].State() == (ss[..k] + ss[k + 1..])[j] && Inv((ss[..k] + ss[k + 1..])[j])
    {
      RemovedAt(ts, k, j);
      RemovedAt(ss, k, j);
    }
    StatesOfIs(rest, ss[..k] + ss[k + 1..]);
    assert ts == ts[..k] + [ts[k]] + ts[k + 1..];
    DistinctSub(rest, ts);
  }

  /** The values of `ts` after the first task with identifier `id`, at position `k`, has gone through `f`. */
  lemma UpdatedAt(ts: seq<DownloadTask>, ss: seq<TaskState>, id: string, k: nat, f: TaskState -> TaskState)
    requires |ts| == |ss| && IndexOfId(ss, id) == Some(k)
    requires forall j :: 0 <= j < |ts| && j != k ==> ts[j].State() == ss[j]
    requires ts[k].State() == f(ss[k])
    requires AllInv(ss) && Inv(f(ss[k]))
    ensures StatesOf(ts) == UpdateFirst(ss, id, f)
    ensures AllInv(StatesOf(ts))
  {
    StatesOfIs(ts, UpdateFirst(ss, id, f));
  }

  /**
   * The priority order holds right after a re-sort only: when the worker of a
   * running task finishes and the admission pass starts the next QUEUED task,
   * the list is not re-sorted, so a DOWNLOADING task can follow one that is not.
   */
  lemma FinishCanBreakOrder(a: TaskState, b: TaskState, ok: bool, msg: string, maxConcurrent: int)
    requires a.status == Downloading && b.status == Queued && maxConcurrent >= 1
    ensures PriorityOrdered([a, b])
    ensures !PriorityOrdered(Admit([Finished(a, ok, msg), b], 0, maxConcurrent).0)
  {
    var r := Admit([Finished(a, ok, msg), b], 0, maxConcurrent).0;
    assert FirstQueued([Finished(a, ok, msg), b]) == Some(1);
    assert r[0].status != Downloading && r[1].status == Downloading;
  }

  /**
   * The values of `ts`, whose tasks had the values `ss`, after the worker of
   * `task` has settled it as `Finished(…, ok, msg)`.
   */
  lemma ReplacedStates(ts: seq<DownloadTask>, ss: seq<TaskState>, task: DownloadTask, fin: TaskState, ok: bool, msg: string)
    requires |ts| == |ss| && AllInv(ss)
    requires forall j :: 0 <= j < |ts| && ts[j] == task ==> fin == Finished(ss[j], ok, msg)
    requires forall j :: 0 <= j < |ts| ==> ts[j].State() == if ts[j] == task then fin else ss[j]
    ensures StatesOf(ts) == ReplaceTask(ts, ss, task, fin)
    ensures AllInv(ReplaceTask(ts, ss, task, fin))
  {
    var rs := ReplaceTask(ts, ss, task, fin);
    StatesOfIs(ts, rs);
    forall j | 0 <= j < |rs|
      ensures Inv(rs[j])
    {
      TransitionsKeepInv(ss[j], 0, ProgressEvent(None, None, None, None), false, ok, msg);
    }
  }

  /** Sorting keeps a list free of repetitions and its tasks valid. */
  lemma SortKeepsValid(ts: seq<DownloadTask>)
    requires Distinct(ts) && AllInv(StatesOf(ts))
    ensures Distinct(SortByPriority(ts)) && AllInv(StatesOf(SortByPriority(ts)))
  {
    DistinctSub(SortByPriority(ts), ts);
    var zs := Zip(ts, StatesOf(ts));
    var ys := Sort(zs);
    SortedStates(ts);
    forall i | 0 <= i < |ys|
      ensures Inv(Keys(ys)[i])
    {
      assert ys[i] in multiset(zs);
      var n :| 0 <= n < |zs| && zs[n] == ys[i];
      assert Inv(StatesOf(ts)[n]);
    }
  }

  /** Appending a new valid task keeps a list free of repetitions and its tasks valid. */
  lemma AppendKeepsValid(ts: seq<DownloadTask>, task: DownloadTask)
    requires Distinct(ts) && AllInv(StatesOf(ts)) && task.Valid() && task !in ts
    ensures Distinct(ts + [task]) && AllInv(StatesOf(ts + [task]))
  {
    var added := ts + [task];
    forall i | 0 <= i < |added|
      ensures Inv(StatesOf(added)[i])
    {
      if i < |ts| {
        assert added[i] == ts[i] && Inv(StatesOf(ts)[i]);
      }
    }
  }

  /** Appending a task and sorting leaves the old tasks and the new one, and nothing else. */
  lemma AddedMembers(ts: seq<DownloadTask>, task: DownloadTask)
    ensures forall i :: 0 <= i < |SortByPriority(ts + [task])| ==>
              SortByPriority(ts + [task])[i] in ts || SortByPriority(ts + [task])[i] == task
  {
    var added := ts + [task];
    var r := SortByPriority(added);
    forall i | 0 <= i < |r|
      ensures r[i] in ts || r[i] == task
    {
      assert r[i] in multiset(added);
    }
  }

  /** Appending a new valid task and sorting keeps a list free of repetitions and its tasks valid. */
  lemma AddKeepsValid(ts: seq<DownloadTask>, task: DownloadTask)
    requires Distinct(ts) && AllInv(StatesOf(ts)) && task.Valid() && task !in ts
    ensures Distinct(SortByPriority(ts + [task])) && AllInv(StatesOf(SortByPriority(ts + [task])))
  {
    AppendKeepsValid(ts, task);
    SortKeepsValid(ts + [task]);
  }

  /**
   * The task at position `k`, the first with identifier `id`, has gone
   * through `f` and the others still have their values `ss`: the values of
   * the list are `UpdateFirst(ss, id, f)`, and sorting it keeps it free of
   * repetitions and its tasks valid, and puts it in priority order.
   */
  lemma ChangeThenSort(ts: seq<DownloadTask>, ss: seq<TaskState>, id: string, k: nat, f: TaskState -> TaskState)
    requires Distinct(ts) && AllInv(ss) && |ts| == |ss| && IndexOfId(ss, id) == Some(k)
    requires forall j :: 0 <= j < |ts| && j != k ==> ts[j].State() == ss[j]
    requires ts[k].State() == f(ss[k]) && Inv(f(ss[k]))
    ensures StatesOf(ts) == UpdateFirst(ss, id, f)
    ensures Distinct(SortByPriority(ts)) && AllInv(StatesOf(SortByPriority(ts)))
    ensures PriorityOrdered(StatesOf(SortByPriority(ts)))
  {
    UpdatedAt(ts, ss, id, k, f);
    assert AllInv(StatesOf(ts)) by {
      forall j | 0 <= j < |ss|
        ensures Inv(UpdateFirst(ss, id, f)[j])
      {
      }
    }
    SortKeepsValid(ts);
    SortOrdered(ts);
  }

  /** The states of an appended and re-sorted list are the sorted states with the new one appended. */
  lemma AppendSortedStates(ts: seq<DownloadTask>, t: DownloadTask)
    ensures StatesOf(SortByPriority(ts + [t])) == SortStates(StatesOf(ts) + [t.State()])
  {
    SortByPriorityStates(ts + [t]);
    StatesOfAppend(ts, t);
  }

  /** A list whose tasks did not change has the same states and the same sort order. */
  twostate lemma TasksUnchanged(ts: seq<DownloadTask>)
    requires forall i :: 0 <= i < |ts| ==> unchanged(ts[i])
    ensures StatesOf(ts) == old(StatesOf(ts))
    ensures SortByPriority(ts) == old(SortByPriority(ts))
  {
  }

  /** Distinct positions of a list without repetitions hold distinct tasks. */
  lemma DistinctAt(ts: seq<DownloadTask>, i: int, j: int)
    requires Distinct(ts) && 0 <= i < |ts| && 0 <= j < |ts| && i != j
    ensures ts[i] != ts[j]
  {
    if ts[i] == ts[j] {
      if i < j {
        TwiceInBag(ts, i, j);
      } else {
        TwiceInBag(ts, j, i);
      }
    }
  }

  /** A sub-bag of a list without repetitions has none either. */
  lemma DistinctSub(a: seq<DownloadTask>, b: seq<DownloadTask>)
    requires multiset(a) <= multiset(b) && Distinct(b)
    ensures Distinct(a)
  {
  }

  /** The task invariant holds of every value in `StatesOf(ts)` exactly when every task of `ts` is valid. */
  lemma AllInvMembers(ts: seq<DownloadTask>)
    ensures AllInv(StatesOf(ts)) <==> forall t :: t in ts ==> t.Valid()
  {
    if AllInv(StatesOf(ts)) {
      forall t | t in ts
        ensures t.Valid()
      {
        var i :| 0 <= i < |ts| && ts[i] == t;
        assert Inv(StatesOf(ts)[i]);
      }
    }
    if forall t :: t in ts ==> t.Valid() {
      forall i | 0 <= i < |ts|
        ensures Inv(StatesOf(ts)[i])
      {
        assert ts[i] in ts;
      }
    }
  }

  /** What `add_task` makes of the values and counter `q`: append `s`, re-sort, one admission pass. */
  function Added(q: (seq<TaskState>, int), s: TaskState, maxConcurrent: int): (seq<TaskState>, int) {
    Admit(SortStates(q.0 + [s]), q.1, maxConcurrent)
  }

  class DownloadQueue {
    var tasks: seq<DownloadTask>
    const maxConcurrent: int
    var activeDownloads: int

    ghost predicate Valid()
      reads this, tasks
    {
      Distinct(tasks) && AllInv(StatesOf(tasks))
    }

    /** The values of the tasks, in list order, and the counter of running downloads. */
    ghost function View(): (seq<TaskState>, int)
      reads this, tasks
    {
      (StatesOf(tasks), activeDownloads)
    }

    constructor (maxConcurrent: int)
      ensures Valid()
      ensures tasks == [] && this.maxConcurrent == maxConcurrent && activeDownloads == 0
    {
      tasks := [];
      this.maxConcurrent := maxConcurrent;
      activeDownloads := 0;
    }

    /** `_find_task`: the position of the first task with identifier `id`. */
    method FindTask(id: string) returns (k: Option<nat>)
      ensures k == IndexOfId(StatesOf(tasks), id)
    {
      var i := 0;
      while i < |tasks|
        invariant 0 <= i <= |tasks|
        invariant forall j :: 0 <= j < i ==> StatesOf(tasks)[j].id != id
      {
        if tasks[i].id == id {
          assert StatesOf(tasks)[i].id == id;
          return Some(i);
        }
        i := i + 1;
      }
      return None;
    }

    /** The scan of `_start_next_download`: the position of the first QUEUED task. */
    method FindNextQueued() returns (k: Option<nat>)
      ensures k == FirstQueued(StatesOf(tasks))
    {
      var i := 0;
      while i < |tasks|
        invariant 0 <= i <= |tasks|
        invariant forall j :: 0 <= j < i ==> StatesOf(tasks)[j].status != Queued
      {
        if tasks[i].status == Queued {
          assert StatesOf(tasks)[i].status == Queued;
          return Some(i);
        }
        i := i + 1;
      }
      return None;
    }

    /** `_start_download`: a QUEUED task becomes DOWNLOADING and the counter goes up. */
    method StartDownload(task: DownloadTask)
      modifies this`activeDownloads, task
      ensures old(task.status) == Queued ==>
                task.State() == Admitted(old(task.State())) && activeDownloads == old(activeDownloads) + 1
      ensures old(task.status) != Queued ==>
                task.State() == old(task.State()) && activeDownloads == old(activeDownloads)
    {
      if task.status != Queued {
        return;
      }
      task.status := Downloading;
      activeDownloads := activeDownloads + 1;
    }

    /** `_start_next_download`: one admission pass. */
    method StartNextDownload()
      requires Valid()
      modifies this`activeDownloads, tasks
      ensures Valid()
      ensures tasks == old(tasks)
      ensures StatesOf(tasks) == Admit(old(StatesOf(tasks)), old(activeDownloads), maxConcurrent).0
      ensures activeDownloads == Admit(old(StatesOf(tasks)), old(activeDownloads), maxConcurrent).1
    {
      if activeDownloads >= maxConcurrent {
        return;
      }
      var next := FindNextQueued();
      assert StatesOf(tasks) == old(StatesOf(tasks));
      if next.Some? {
        AdmitAt(next.value);
      }
    }

    /** The admission itself: the first QUEUED task, at `k`, is started while there is room in the budget. */
    method AdmitAt(k: nat)
      requires Valid() && activeDownloads < maxConcurrent && FirstQueued(StatesOf(tasks)) == Some(k)
      modifies this`activeDownloads, tasks
      ensures Valid()
      ensures tasks == old(tasks)
      ensures StatesOf(tasks) == Admit(old(StatesOf(tasks)), old(activeDownloads), maxConcurrent).0
      ensures activeDownloads == Admit(old(StatesOf(tasks)), old(activeDownloads), maxConcurrent).1
    {
      var ts := tasks;
      ghost var ss := StatesOf(ts);
      ghost var admitted := ss[k := Admitted(ss[k])];
      AdmitFirst(ss, activeDownloads, maxConcurrent, k);
      StartDownload(ts[k]);
      forall j | 0 <= j < |ts|
        ensures ts[j].State() == admitted[j]
      {
        if j != k {
          DistinctAt(ts, j, k);
        }
      }
      StatesOfIs(ts, admitted);
    }

    /**
     * `add_task`: appends the task, re-sorts, and runs one admission pass;
     * it always answers true.
     */
    method AddTask(task: DownloadTask) returns (ok: bool)
      requires Valid() && task.Valid() && task !in tasks
      modifies this`tasks, this`activeDownloads, tasks, task
      ensures Valid()
      ensures ok
      ensures tasks == old(SortByPriority(tasks + [task]))
      ensures multiset(tasks) == multiset(old(tasks)) + multiset{task}
      ensures forall i :: 0 <= i < |tasks| ==> tasks[i] in old(tasks) || tasks[i] == task
      ensures View() == Added(old(View()), old(task.State()), maxConcurrent)
    {
      ghost var q := View();
      ghost var x := task.State();
      Enqueue(task);
      assert View() == (SortStates(q.0 + [x]), q.1);
      StartNextDownload();
      ok := true;
    }

    /** Replaces the task list; no task changes. */
    method SetTasks(ts: seq<DownloadTask>)
      modifies this`tasks
      ensures tasks == ts
      ensures StatesOf(ts) == old(StatesOf(ts))
    {
      tasks := ts;
      TasksUnchanged(ts);
    }

    /**
     * The first half of `add_task`: append the task and re-sort, before the
     * admission pass; a new valid task keeps the queue valid.
     */
    method Enqueue(task: DownloadTask)
      modifies this`tasks
      ensures tasks == old(SortByPriority(tasks + [task]))
      ensures multiset(tasks) == multiset(old(tasks)) + multiset{task}
      ensures forall i :: 0 <= i < |tasks| ==> tasks[i] in old(tasks) || tasks[i] == task
      ensures StatesOf(tasks) == SortStates(old(StatesOf(tasks)) + [old(task.State())])
      ensures old(Valid() && task.Valid() && task !in tasks) ==> Valid()
    {
      var sorted := SortByPriority(tasks + [task]);
      AddedMembers(tasks, task);
      if Valid() && task.Valid() && task !in tasks {
        AddKeepsValid(tasks, task);
      }
      AppendSortedStates(tasks, task);
      SetTasks(sorted);
    }

    /**
     * `remove_task`: cancels the first task with identifier `id` and takes it
     * out of the list; the counter of running downloads is left as it is.
     */
    method RemoveTask(id: string) returns (ok: bool)
      requires Valid()
      modifies this`tasks, tasks
      ensures Valid()
      ensures ok <==> IndexOfId(old(StatesOf(tasks)), id).Some?
      ensures !ok ==> tasks == old(tasks) && StatesOf(tasks) == old(StatesOf(tasks))
      ensures ok ==>
        var k := IndexOfId(old(StatesOf(tasks)), id).value;
        && tasks == old(tasks[..k] + tasks[k + 1..])
        && StatesOf(tasks) == old(StatesOf(tasks)[..k] + StatesOf(tasks)[k + 1..])
        && StatesOf(old(tasks)) == old(StatesOf(tasks)[k := AfterCancel(StatesOf(tasks)[k])])
    {
      var found := FindTask(id);
      assert StatesOf(tasks) == old(StatesOf(tasks));
      if found.None? {
        return false;
      }
      var k := found.value;
      ghost var ss := StatesOf(tasks);
      CancelAt(k);
      DropAt(k);
      RemovedUpdate(ss, k, AfterCancel(ss[k]));
      ok := true;
    }

    /** The first half of `remove_task`: cancels the task at position `k`. */
    method CancelAt(k: nat)
      requires Valid() && k < |tasks|
      modifies tasks
      ensures tasks == old(tasks)
      ensures Valid()
      ensures StatesOf(tasks) == old(StatesOf(tasks)[k := AfterCancel(StatesOf(tasks)[k])])
    {
      var ts := tasks;
      ghost var ss := StatesOf(ts);
      ts[k].Cancel();
      forall j | 0 <= j < |ts| && j != k
        ensures ts[j].State() == ss[j]
      {
        DistinctAt(ts, j, k);
      }
      TransitionsKeepInv(ss[k], 0, ProgressEvent(None, None, None, None), false, false, "");
      StatesOfIs(ts, ss[k := AfterCancel(ss[k])]);
    }

    /** The second half of `remove_task`: takes the task at position `k` out of the list. */
    method DropAt(k: nat)
      requires Valid() && k < |tasks|
      modifies this`tasks
      ensures Valid()
      ensures tasks == old(tasks[..k] + tasks[k + 1..])
      ensures StatesOf(old(tasks)) == old(StatesOf(tasks))
      ensures StatesOf(tasks) == old(StatesOf(tasks)[..k] + StatesOf(tasks)[k + 1..])
    {
      var ts := tasks;
      ghost var ss := StatesOf(ts);
      tasks := ts[..k] + ts[k + 1..];
      TasksUnchanged(ts);
      RemovalKeepsValid(ts, ss, k);
    }

    /** `pause_task`: pauses the first task with identifier `id`; the counter is left as it is. */
    method PauseTask(id: string) returns (ok: bool)
      requires Valid()
      modifies tasks
      ensures tasks == old(tasks)
      ensures Valid()
      ensures ok <==> IndexOfId(old(StatesOf(tasks)), id).Some?
      ensures StatesOf(tasks) == UpdateFirst(old(StatesOf(tasks)), id, AfterPause)
    {
      var found := FindTask(id);
      assert StatesOf(tasks) == old(StatesOf(tasks));
      ghost var ss := StatesOf(tasks);
      if found.None? {
        return false;
      }
      var k := found.value;
      var ts := tasks;
      ts[k].Pause();
      forall j | 0 <= j < |ts| && j != k
        ensures ts[j].State() == ss[j]
      {
        DistinctAt(ts, j, k);
      }
      TransitionsKeepInv(ss[k], 0, ProgressEvent(None, None, None, None), false, false, "");
      UpdatedAt(ts, ss, id, k, AfterPause);
      ok := true;
    }

    /** `resume_task`: resumes the first task with identifier `id`, then runs one admission pass. */
    method ResumeTask(id: string) returns (ok: bool)
      requires Valid()
      modifies this`activeDownloads, tasks
      ensures Valid()
      ensures ok <==> IndexOfId(old(StatesOf(tasks)), id).Some?
      ensures !ok ==> StatesOf(tasks) == old(StatesOf(tasks)) && activeDownloads == old(activeDownloads)
      ensures ok ==> StatesOf(tasks) == Admit(UpdateFirst(old(StatesOf(tasks)), id, AfterResume), old(activeDownloads), maxConcurrent).0
      ensures ok ==> activeDownloads == Admit(UpdateFirst(old(StatesOf(tasks)), id, AfterResume), old(activeDownloads), maxConcurrent).1
    {
      ghost var e := UpdateFirst(StatesOf(tasks), id, AfterResume);
      ok := ResumeFound(id);
      if ok {
        assert StatesOf(tasks) == e;
        StartNextDownload();
      }
    }

    /** The first half of `resume_task`: resumes the first task with identifier `id`, if any. */
    method ResumeFound(id: string) returns (ok: bool)
      requires Valid()
      modifies tasks
      ensures tasks == old(tasks)
      ensures Valid()
      ensures ok <==> IndexOfId(old(StatesOf(tasks)), id).Some?
      ensures StatesOf(tasks) == UpdateFirst(old(StatesOf(tasks)), id, AfterResume)
    {
      var found := FindTask(id);
      assert StatesOf(tasks) == old(StatesOf(tasks));
      ghost var ss := StatesOf(tasks);
      if found.None? {
        return false;
      }
      var k := found.value;
      var ts := tasks;
      ts[k].Resume();
      forall j | 0 <= j < |ts| && j != k
        ensures ts[j].State() == ss[j]
      {
        DistinctAt(ts, j, k);
      }
      TransitionsKeepInv(ss[k], 0, ProgressEvent(None, None, None, None), false, false, "");
      UpdatedAt(ts, ss, id, k, AfterResume);
      ok := true;
    }

    /**
     * `set_task_priority`: gives the first task with identifier `id` the
     * priority `priority`, whatever its status, and re-sorts.
     */
    method SetTaskPriority(id: string, priority: int) returns (ok: bool)
      requires Valid()
      modifies this`tasks, tasks
      ensures Valid()
      ensures ok <==> IndexOfId(old(StatesOf(tasks)), id).Some?
      ensures !ok ==> tasks == old(tasks) && StatesOf(tasks) == old(StatesOf(tasks))
      ensures ok ==> && StatesOf(old(tasks)) == UpdateFirst(old(StatesOf(tasks)), id, Reprioritised(priority))
                     && tasks == SortByPriority(old(tasks))
                     && PriorityOrdered(StatesOf(tasks))
    {
      var found := FindTask(id);
      assert StatesOf(tasks) == old(StatesOf(tasks));
      if found.None? {
        return false;
      }
      SetPriorityAt(found.value, id, priority, Reprioritised(priority));
      ok := true;
    }

    /**
     * `move_task_up`: when the first task with identifier `id` exists and is
     * not DOWNLOADING, raises its priority by one and re-sorts.
     */
    method MoveTaskUp(id: string) returns (ok: bool)
      requires Valid()
      modifies this`tasks, tasks
      ensures Valid()
      ensures ok <==> Movable(old(StatesOf(tasks)), id)
      ensures !ok ==> tasks == old(tasks) && StatesOf(tasks) == old(StatesOf(tasks))
      ensures ok ==> && StatesOf(old(tasks)) == UpdateFirst(old(StatesOf(tasks)), id, Raised)
                     && tasks == SortByPriority(old(tasks))
                     && PriorityOrdered(StatesOf(tasks))
    {
      var found := FindTask(id);
      assert StatesOf(tasks) == old(StatesOf(tasks));
      if found.None? || tasks[found.value].status == Downloading {
        return false;
      }
      var k := found.value;
      SetPriorityAt(k, id, tasks[k].priority + 1, Raised);
      ok := true;
    }

    /**
     * `move_task_down`: when the first task with identifier `id` exists and is
     * not DOWNLOADING, lowers its priority by one, not below zero, and re-sorts.
     */
    method MoveTaskDown(id: string) returns (ok: bool)
      requires Valid()
      modifies this`tasks, tasks
      ensures Valid()
      ensures ok <==> Movable(old(StatesOf(tasks)), id)
      ensures !ok ==> tasks == old(tasks) && StatesOf(tasks) == old(StatesOf(tasks))
      ensures ok ==> && StatesOf(old(tasks)) == UpdateFirst(old(StatesOf(tasks)), id, Lowered)
                     && tasks == SortByPriority(old(tasks))
                     && PriorityOrdered(StatesOf(tasks))
    {
      var found := FindTask(id);
      assert StatesOf(tasks) == old(StatesOf(tasks));
      if found.None? || tasks[found.value].status == Downloading {
        return false;
      }
      var k := found.value;
      var p := tasks[k].priority - 1;
      SetPriorityAt(k, id, if p > 0 then p else 0, Lowered);
      ok := true;
    }

    /**
     * The common end of `set_task_priority`, `move_task_up` and
     * `move_task_down`: the task at position `k`, the first with identifier
     * `id`, is given the priority `p`, the change `f` makes to its value, and
     * the list is re-sorted.
     */
    method SetPriorityAt(k: nat, id: string, p: int, ghost f: TaskState -> TaskState)
      requires Valid() && IndexOfId(StatesOf(tasks), id) == Some(k)
      requires f(StatesOf(tasks)[k]) == StatesOf(tasks)[k].(priority := p)
      modifies this`tasks, tasks
      ensures Valid()
      ensures StatesOf(old(tasks)) == UpdateFirst(old(StatesOf(tasks)), id, f)
      ensures tasks == SortByPriority(old(tasks))
      ensures PriorityOrdered(StatesOf(tasks))
    {
      ghost var ss := StatesOf(tasks);
      tasks[k].SetPriority(p);
      forall j | 0 <= j < |tasks| && j != k
        ensures tasks[j].State() == ss[j]
      {
        DistinctAt(tasks, j, k);
      }
      ChangeThenSort(tasks, ss, id, k, f);
      Resort();
    }

    /** `_sort_by_priority`: puts the task list in sort order; no task changes. */
    method Resort()
      modifies this`tasks
      ensures tasks == old(SortByPriority(tasks))
      ensures SortByPriority(old(tasks)) == old(SortByPriority(tasks))
      ensures StatesOf(old(tasks)) == old(StatesOf(tasks))
      ensures StatesOf(tasks) == old(StatesOf(SortByPriority(tasks)))
    {
      ghost var before := tasks;
      var sorted := SortByPriority(tasks);
      tasks := sorted;
      TasksUnchanged(before);
      TasksUnchanged(sorted);
    }

    /**
     * `pause_all`: pauses every DOWNLOADING task. The counter of running
     * downloads is left as it is, although afterwards none is DOWNLOADING.
     */
    method PauseAll()
      requires Valid()
      modifies tasks
      ensures tasks == old(tasks)
      ensures Valid()
      ensures StatesOf(tasks) == Each(AfterPause, old(StatesOf(tasks)))
    {
      var ts := tasks;
      ghost var ss := StatesOf(ts);
      var i := 0;
      while i < |ts|
        invariant 0 <= i <= |ts|
        invariant forall j :: 0 <= j < i ==> ts[j].State() == AfterPause(ss[j])
        invariant forall j :: i <= j < |ts| ==> ts[j].State() == ss[j]
      {
        if ts[i].status == Downloading {
          label Step:
          ts[i].Pause();
          forall j | 0 <= j < |ts| && j != i
            ensures ts[j].State() == old@Step(ts[j].State())
          {
            DistinctAt(ts, j, i);
          }
        }
        i := i + 1;
      }
      StatesOfIs(ts, Each(AfterPause, ss));
      PauseEachFacts(ss);
    }

    /** `resume_all`: resumes every PAUSED task, then runs one admission pass. */
    method ResumeAll()
      requires Valid()
      modifies this`activeDownloads, tasks
      ensures Valid()
      ensures StatesOf(tasks) == Admit(Each(AfterResume, old(StatesOf(tasks))), old(activeDownloads), maxConcurrent).0
      ensures activeDownloads == Admit(Each(AfterResume, old(StatesOf(tasks))), old(activeDownloads), maxConcurrent).1
    {
      ghost var e := Each(AfterResume, StatesOf(tasks));
      ResumeEvery();
      assert StatesOf(tasks) == e;
      StartNextDownload();
    }

    /** The loop of `resume_all`, before its admission pass. */
    method ResumeEvery()
      requires Valid()
      modifies tasks
      ensures tasks == old(tasks)
      ensures Valid()
      ensures StatesOf(tasks) == Each(AfterResume, old(StatesOf(tasks)))
    {
      var ts := tasks;
      ghost var ss := StatesOf(ts);
      var i := 0;
      while i < |ts|
        invariant 0 <= i <= |ts|
        invariant forall j :: 0 <= j < i ==> ts[j].State() == AfterResume(ss[j])
        invariant forall j :: i <= j < |ts| ==> ts[j].State() == ss[j]
      {
        if ts[i].status == Paused {
          label Step:
          ts[i].Resume();
          forall j | 0 <= j < |ts| && j != i
            ensures ts[j].State() == old@Step(ts[j].State())
          {
            DistinctAt(ts, j, i);
          }
        }
        i := i + 1;
      }
      StatesOfIs(ts, Each(AfterResume, ss));
      ResumeEachFacts(ss);
    }

    /** `clear_completed`: keeps only the tasks that are not COMPLETED, in their order. */
    method ClearCompleted()
      requires Valid()
      modifies this`tasks
      ensures Valid()
      ensures tasks == old(WithoutStatus(tasks, Completed))
    {
      var kept := WithoutStatus(tasks, Completed);
      assert Distinct(kept) && AllInv(StatesOf(kept)) by {
        FiltersPartition(tasks, Completed);
        DistinctSub(kept, tasks);
        AllInvMembers(tasks);
        AllInvMembers(kept);
      }
      tasks := kept;
      TasksUnchanged(kept);
    }

    /**
     * `clear_all`: cancels every task, empties the list and sets the counter
     * of running downloads to zero.
     */
    method ClearAll()
      requires Valid()
      modifies this`tasks, this`activeDownloads, tasks
      ensures Valid()
      ensures tasks == [] && activeDownloads == 0
      ensures StatesOf(old(tasks)) == Each(AfterCancel, old(StatesOf(tasks)))
    {
      var ts := tasks;
      ghost var s0 := StatesOf(ts);
      CancelEvery();
      assert StatesOf(ts) == Each(AfterCancel, s0);
      Empty(ts);
    }

    /** The end of `clear_all`: the list is emptied and the counter reset; no task changes. */
    method Empty(ghost ts: seq<DownloadTask>)
      modifies this`tasks, this`activeDownloads
      ensures Valid()
      ensures tasks == [] && activeDownloads == 0
      ensures StatesOf(ts) == old(StatesOf(ts))
    {
      tasks := [];
      activeDownloads := 0;
    }

    /** The loop of `clear_all`: cancels every task, whatever its status. */
    method CancelEvery()
      requires Valid()
      modifies tasks
      ensures tasks == old(tasks)
      ensures StatesOf(tasks) == Each(AfterCancel, old(StatesOf(tasks)))
    {
      var ts := tasks;
      ghost var ss := StatesOf(ts);
      var i := 0;
      while i < |ts|
        invariant 0 <= i <= |ts|
        invariant forall j :: 0 <= j < i ==> ts[j].State() == AfterCancel(ss[j])
        invariant forall j :: i <= j < |ts| ==> ts[j].State() == ss[j]
      {
        label Step:
        ts[i].Cancel();
        forall j | 0 <= j < |ts| && j != i
          ensures ts[j].State() == old@Step(ts[j].State())
        {
          DistinctAt(ts, j, i);
        }
        i := i + 1;
      }
      StatesOfIs(ts, Each(AfterCancel, ss));
    }

    /**
     * The end of `_download_worker` for `task`: the executor returned
     * (`ok`) or raised an error whose text is `msg`. The task's status is
     * overwritten whatever it was, the counter goes down by one, and one
     * admission pass runs. The task need not be in the list any more.
     */
    method Finish(task: DownloadTask, ok: bool, msg: string)
      requires Valid()
      modifies this`activeDownloads, tasks, task
      ensures Valid()
      ensures task.State() == Finished(old(task.State()), ok, msg)
      ensures StatesOf(tasks) == Admit(ReplaceTask(tasks, old(StatesOf(tasks)), task, Finished(old(task.State()), ok, msg)),
                                       old(activeDownloads) - 1, maxConcurrent).0
      ensures activeDownloads == Admit(ReplaceTask(tasks, old(StatesOf(tasks)), task, Finished(old(task.State()), ok, msg)),
                                       old(activeDownloads) - 1, maxConcurrent).1
    {
      ghost var fin := Finished(task.State(), ok, msg);
      Settle(task, ok, msg);
      ghost var rs := StatesOf(tasks);
      ghost var a := activeDownloads;
      StartNextDownload();
      assert task.State() == fin by {
        if task in tasks {
          var j :| 0 <= j < |tasks| && tasks[j] == task;
          assert rs[j] == fin;
          AdmitOnlyTakesQueued(rs, a, maxConcurrent, j);
        }
      }
    }

    /** The worker's status update and counter decrement, before the admission pass. */
    method Settle(task: DownloadTask, ok: bool, msg: string)
      requires Valid()
      modifies this`activeDownloads, task
      ensures Valid()
      ensures task.State() == Finished(old(task.State()), ok, msg)
      ensures StatesOf(tasks) == ReplaceTask(tasks, old(StatesOf(tasks)), task, Finished(old(task.State()), ok, msg))
      ensures activeDownloads == old(activeDownloads) - 1
    {
      ghost var ss := StatesOf(tasks);
      ghost var fin := Finished(task.State(), ok, msg);
      if ok {
        task.status := Completed;
      } else {
        task.status := Error;
        task.errorMessage := Some(msg);
      }
      activeDownloads := activeDownloads - 1;
      ReplacedStates(tasks, ss, task, fin, ok, msg);
    }
  }
}
