/**
 * The scheduler's decisions over the values of its tasks
 * (utils/download_queue.py): lookup by id, the admission step, and the
 * status filters and statistics.
 */
module QueueStates {
  import opened Wrappers
  import opened Task

  /** Every task value satisfies the task invariant. */
  predicate AllInv(ss: seq<TaskState>) {
    forall i :: 0 <= i < |ss| ==> Inv(ss[i])
  }

  /** The position `_find_task` finds: the first task with identifier `id`. */
  function IndexOfId(ss: seq<TaskState>, id: string): (r: Option<nat>)
    ensures r.Some? ==> r.value < |ss| && ss[r.value].id == id
    ensures r.Some? ==> forall j :: 0 <= j < r.value ==> ss[j].id != id
    ensures r.None? <==> forall j :: 0 <= j < |ss| ==> ss[j].id != id
  {
    if ss == [] then None
    else if ss[0].id == id then Some(0)
    else match IndexOfId(ss[1..], id)
      case None => None
      case Some(k) => Some(k + 1)
  }

  /** The position `_start_next_download` picks: the first QUEUED task. */
  function FirstQueued(ss: seq<TaskState>): (r: Option<nat>)
    ensures r.Some? ==> r.value < |ss| && ss[r.value].status == Queued
    ensures r.Some? ==> forall j :: 0 <= j < r.value ==> ss[j].status != Queued
    ensures r.None? <==> forall j :: 0 <= j < |ss| ==> ss[j].status != Queued
  {
    if ss == [] then None
    else if ss[0].status == Queued then Some(0)
    else match FirstQueued(ss[1..])
      case None => None
      case Some(k) => Some(k + 1)
  }

  /**
   * One admission pass: with `active` downloads running out of a budget of
   * `maxConcurrent`, the task values and the counter afterwards.
   */
  function Admit(ss: seq<TaskState>, active: int, maxConcurrent: int): (r: (seq<TaskState>, int))
    ensures |r.0| == |ss|
    ensures active >= maxConcurrent ==> r == (ss, active)
  {
    if active >= maxConcurrent then (ss, active)
    else match FirstQueued(ss)
      case None => (ss, active)
      case Some(k) => (ss[k := Admitted(ss[k])], active + 1)
  }

  /**
   * Admission adds at most one to the counter, and only while the counter is
   * below the budget, so it never lifts the counter above the budget; it
   * changes one task at most, the first QUEUED one, into DOWNLOADING, and it
   * does so whenever there is a QUEUED task and room in the budget.
   */
  lemma AdmitFacts(ss: seq<TaskState>, active: int, maxConcurrent: int)
    ensures var r := Admit(ss, active, maxConcurrent);
      && (r.1 == active || r.1 == active + 1)
      && (r.1 == active <==> r.0 == ss)
      && (active <= maxConcurrent ==> r.1 <= maxConcurrent)
      && (active < maxConcurrent && (exists j :: 0 <= j < |ss| && ss[j].status == Queued) ==> r.1 == active + 1)
      && (forall i :: 0 <= i < |ss| ==>
            || r.0[i] == ss[i]
            || (&& ss[i].status == Queued && r.0[i] == Admitted(ss[i])
                && forall j :: 0 <= j < i ==> ss[j].status != Queued))
  {
    if active < maxConcurrent && FirstQueued(ss).Some? {
      var k := FirstQueued(ss).value;
      assert ss[k := Admitted(ss[k])][k] != ss[k];
    }
  }

  /** Admission keeps the task invariant of every task. */
  lemma AdmitKeepsInv(ss: seq<TaskState>, active: int, maxConcurrent: int)
    requires AllInv(ss)
    ensures AllInv(Admit(ss, active, maxConcurrent).0)
  {
    var r := Admit(ss, active, maxConcurrent).0;
    AdmitFacts(ss, active, maxConcurrent);
    forall i | 0 <= i < |ss|
      ensures Inv(r[i])
    {
      if r[i] != ss[i] {
        TransitionsKeepInv(ss[i], 0, ProgressEvent(None, None, None, None), false, false, "");
      }
    }
  }

  /** With room in the budget, admission takes the first QUEUED task, at `k`, and adds one to the counter. */
  lemma AdmitFirst(ss: seq<TaskState>, active: int, maxConcurrent: int, k: nat)
    requires active < maxConcurrent && FirstQueued(ss) == Some(k) && AllInv(ss)
    ensures Admit(ss, active, maxConcurrent) == (ss[k := Admitted(ss[k])], active + 1)
    ensures AllInv(ss[k := Admitted(ss[k])])
  {
    AdmitKeepsInv(ss, active, maxConcurrent);
  }

  /** Admission never takes a PAUSED, ERROR, COMPLETED or CANCELLED task. */
  lemma AdmitOnlyTakesQueued(ss: seq<TaskState>, active: int, maxConcurrent: int, i: nat)
    requires i < |ss| && ss[i].status != Queued
    ensures Admit(ss, active, maxConcurrent).0[i] == ss[i]
  {
    AdmitFacts(ss, active, maxConcurrent);
  }

  /** `f` applied to every task value: a transition, as in `pause_all`, `resume_all` and `clear_all`, or a projection. */
  function Each<B>(f: TaskState -> B, ss: seq<TaskState>): (r: seq<B>)
    ensures |r| == |ss|
    ensures forall i :: 0 <= i < |ss| ==> r[i] == f(ss[i])
  {
    if ss == [] then [] else [f(ss[0])] + Each(f, ss[1..])
  }

  /**
   * After `pause_all` no task is DOWNLOADING, every task that was is PAUSED,
   * and every other task is untouched.
   */
  lemma PauseEachFacts(ss: seq<TaskState>)
    requires AllInv(ss)
    ensures var r := Each(AfterPause, ss);
      && AllInv(r)
      && (forall i :: 0 <= i < |ss| ==> r[i].status != Downloading)
      && (forall i :: 0 <= i < |ss| && ss[i].status == Downloading ==> r[i].status == Paused && r[i].paused)
      && (forall i :: 0 <= i < |ss| && ss[i].status != Downloading ==> r[i] == ss[i])
  {
    var r := Each(AfterPause, ss);
    forall i | 0 <= i < |ss|
      ensures Inv(r[i])
    {
      TransitionsKeepInv(ss[i], 0, ProgressEvent(None, None, None, None), false, false, "");
    }
  }

  /** After the resume loop of `resume_all` no task is PAUSED; each one that was is QUEUED again. */
  lemma ResumeEachFacts(ss: seq<TaskState>)
    requires AllInv(ss)
    ensures var r := Each(AfterResume, ss);
      && AllInv(r)
      && (forall i :: 0 <= i < |ss| ==> r[i].status != Paused)
      && (forall i :: 0 <= i < |ss| && ss[i].status == Paused ==> r[i] == ss[i].(status := Queued, paused := false))
      && (forall i :: 0 <= i < |ss| && ss[i].status != Paused ==> r[i] == ss[i])
  {
    var r := Each(AfterResume, ss);
    forall i | 0 <= i < |ss|
      ensures Inv(r[i])
    {
      TransitionsKeepInv(ss[i], 0, ProgressEvent(None, None, None, None), false, false, "");
    }
  }

  /** `pause_all` followed by the resume loop of `resume_all` puts every running task back in the queue. */
  lemma PauseAllThenResumeAll(ss: seq<TaskState>)
    requires AllInv(ss)
    ensures forall i :: 0 <= i < |ss| && ss[i].status == Downloading ==>
              Each(AfterResume, Each(AfterPause, ss))[i] == ss[i].(status := Queued)
  {
    forall i | 0 <= i < |ss| && ss[i].status == Downloading
      ensures Each(AfterResume, Each(AfterPause, ss))[i] == ss[i].(status := Queued)
    {
      PauseThenResumeRequeues(ss[i]);
    }
  }

  /** The task values after a transition `f` is applied to the first task with identifier `id`, as `_find_task` finds it. */
  function UpdateFirst(ss: seq<TaskState>, id: string, f: TaskState -> TaskState): (r: seq<TaskState>)
    ensures |r| == |ss|
    ensures forall i :: 0 <= i < |ss| ==> r[i] == if IndexOfId(ss, id) == Some(i as nat) then f(ss[i]) else ss[i]
  {
    match IndexOfId(ss, id)
    case None => ss
    case Some(k) => ss[k := f(ss[k])]
  }

  /** `set_priority(p)` as a transition. */
  function Reprioritised(p: int): TaskState -> TaskState {
    (s: TaskState) => s.(priority := p)
  }

  /** `move_task_up` and `move_task_down` find a task with identifier `id` and it is not DOWNLOADING. */
  predicate Movable(ss: seq<TaskState>, id: string) {
    match IndexOfId(ss, id)
    case None => false
    case Some(k) => ss[k].status != Downloading
  }

  /** The priority change of `move_task_up`. */
  function Raised(s: TaskState): TaskState {
    s.(priority := s.priority + 1)
  }

  /** The priority change of `move_task_down`, which never goes below zero. */
  function Lowered(s: TaskState): TaskState {
    s.(priority := if s.priority - 1 > 0 then s.priority - 1 else 0)
  }

  /**
   * Moving a task up raises its priority by one; moving it down lowers it by
   * one but not below zero, so a task at priority zero stays there; and a
   * move up undoes a move down from any positive priority, a move down undoes
   * a move up from any priority of zero or more.
   */
  lemma MoveFacts(s: TaskState)
    ensures Raised(s).priority == s.priority + 1
    ensures Lowered(s).priority >= 0 && Lowered(s).priority <= if s.priority > 0 then s.priority else 0
    ensures s.priority >= 1 ==> Lowered(s).priority == s.priority - 1 && Raised(Lowered(s)) == s
    ensures s.priority <= 0 ==> Lowered(s).priority == 0
    ensures s.priority >= 0 ==> Lowered(Raised(s)) == s
    ensures Raised(s).status == s.status && Lowered(s).status == s.status
  {
  }

  /** `ss` with the value at every position where `ts` holds `t` replaced by `s`. */
  function ReplaceTask(ts: seq<DownloadTask>, ss: seq<TaskState>, t: DownloadTask, s: TaskState): (r: seq<TaskState>)
    requires |ts| == |ss|
    ensures |r| == |ss|
    ensures forall i :: 0 <= i < |ss| ==> r[i] == if ts[i] == t then s else ss[i]
  {
    if ts == [] then [] else [if ts[0] == t then s else ss[0]] + ReplaceTask(ts[1..], ss[1..], t, s)
  }

  // ----- status notifications under the queue's lock -----

  /** The task transitions the locked queue operations run: `pause`, `resume` and `cancel`. */
  datatype Transition = PauseStep | ResumeStep | CancelStep

  /** Whether transition `t` calls the task's status callback: `pause` and `resume` only when they change the status, `cancel` always. */
  predicate Notifies(t: Transition, s: TaskState) {
    match t
    case PauseStep => s.status == Downloading
    case ResumeStep => s.status == Paused
    case CancelStep => true
  }

  /**
   * As written, whether a queue operation that runs `t` on each value of `ss`
   * while holding the queue's lock blocks: the status callback `add_task`
   * installs takes that same lock, which is not re-entrant, so the first
   * transition that notifies never returns.
   */
  predicate BlocksUnderLock(t: Transition, ss: seq<TaskState>) {
    exists i :: 0 <= i < |ss| && Notifies(t, ss[i])
  }

  /**
   * As written, the locked operations return only when they have nothing to
   * do: `pause_all` (and `pause_task` on one value) only when no task is
   * DOWNLOADING, so that pausing changes nothing; `resume_all` (and
   * `resume_task`) only when no task is PAUSED; `clear_all` (and `remove_task`
   * on the task it finds) only on an empty list.
   */
  lemma LockedCallsReturnOnlyWhenIdle(ss: seq<TaskState>)
    ensures !BlocksUnderLock(PauseStep, ss) <==> Each(AfterPause, ss) == ss
    ensures !BlocksUnderLock(ResumeStep, ss) <==> Each(AfterResume, ss) == ss
    ensures !BlocksUnderLock(CancelStep, ss) <==> ss == []
  {
    if BlocksUnderLock(PauseStep, ss) {
      var i :| 0 <= i < |ss| && Notifies(PauseStep, ss[i]);
      assert Each(AfterPause, ss)[i].status != ss[i].status;
    }
    if BlocksUnderLock(ResumeStep, ss) {
      var i :| 0 <= i < |ss| && Notifies(ResumeStep, ss[i]);
      assert Each(AfterResume, ss)[i].status != ss[i].status;
    }
    if ss != [] {
      assert Notifies(CancelStep, ss[0]);
    }
  }
}
