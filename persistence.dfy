/**
 * Saving and restoring the download queue (`utils/queue_persistence.py`).
 * A saved queue is a snapshot: the concurrency budget and one record per
 * task, each a JSON object whose keys may be missing. Reading and writing
 * the file are left to the caller: `LoadQueue` takes what was read, or
 * None when the file is missing or cannot be read.
 */
module Persistence {
  import opened Wrappers
  import opened Task
  import opened QueueOrder
  import opened QueueStates
  import opened Queue

  /** One saved task; None stands for a key the JSON object lacks. */
  datatype TaskRecord = TaskRecord(
    id: Option<string>,
    url: Option<string>,
    quality: Option<string>,
    audioOnly: Option<bool>,
    outputPath: Option<string>,
    playlist: Option<bool>,
    priority: Option<int>,
    status: Option<string>,
    title: Option<string>,
    duration: Option<int>,
    createdAt: Option<real>)

  /** The saved queue: `max_concurrent` and the list under `tasks`, either of which may be missing. */
  datatype Snapshot = Snapshot(maxConcurrent: Option<int>, tasks: Option<seq<TaskRecord>>)

  const DefaultMaxConcurrent := 3
  const RestoredErrorMessage := "Restored from previous session"

  /** What `load_queue` returns when there is no file or it cannot be read. */
  const DefaultSnapshot := Snapshot(Some(DefaultMaxConcurrent), Some([]))

  /** `load_queue`: the stored snapshot, or the default one when there is none. */
  function LoadQueue(stored: Option<Snapshot>): (s: Snapshot)
    ensures stored.None? ==> s == DefaultSnapshot
    ensures stored.Some? ==> s == stored.value
  {
    stored.GetOr(DefaultSnapshot)
  }

  // ----- saving -----

  /** The record `save_queue` writes for a task. */
  function RecordOf(t: DownloadTask): TaskRecord
    reads t
  {
    TaskRecord(Some(t.id), Some(t.url), Some(t.quality), Some(t.audioOnly), Some(t.outputPath), Some(t.playlist),
               Some(t.priority), Some(t.status.Value()), Some(t.title), Some(t.duration), Some(t.createdAt))
  }

  /** `save_queue` without the file: the budget and one record per task, in list order. */
  method SaveQueue(q: DownloadQueue) returns (s: Snapshot)
    ensures s.maxConcurrent == Some(q.maxConcurrent)
    ensures s.tasks.Some? && |s.tasks.value| == |q.tasks|
    ensures forall i :: 0 <= i < |q.tasks| ==> s.tasks.value[i] == RecordOf(q.tasks[i])
  {
    var ts := q.tasks;
    var records := [];
    for i := 0 to |ts|
      invariant |records| == i
      invariant forall j :: 0 <= j < i ==> records[j] == RecordOf(ts[j])
    {
      var t := ts[i];
      var r := TaskRecord(Some(t.id), Some(t.url), Some(t.quality), Some(t.audioOnly), Some(t.outputPath),
                          Some(t.playlist), Some(t.priority), Some(t.status.Value()), Some(t.title),
                          Some(t.duration), Some(t.createdAt));
      records := records + [r];
    }
    s := Snapshot(Some(q.maxConcurrent), Some(records));
  }

  // ----- restoring one record -----

  /** The status a record is saved with; a missing one counts as queued. */
  function SavedStatus(r: TaskRecord): string {
    r.status.GetOr("queued")
  }

  /** Only queued, paused and error records are restored. */
  predicate Kept(r: TaskRecord) {
    SavedStatus(r) == "queued" || SavedStatus(r) == "paused" || SavedStatus(r) == "error"
  }

  /** The status a kept record is restored with. */
  function RestoredStatus(status: string): TaskStatus {
    if status == "paused" then Paused
    else if status == "error" then Error
    else Queued
  }

  /** A restored task: its construction arguments and its value. */
  datatype Restored = Restored(config: TaskConfig, state: TaskState)

  /**
   * The task `restore_queue` builds from a kept record, with the defaults for
   * missing keys; None when `url` or `id` is missing, where the source raises.
   */
  function RestoreRecord(r: TaskRecord): Option<Restored> {
    if r.url.None? || r.id.None? then None
    else
      var status := RestoredStatus(SavedStatus(r));
      var message := if status == Error then Some(RestoredErrorMessage) else None;
      Some(Restored(
        TaskConfig(r.url.value, r.quality.GetOr("best"), r.audioOnly.GetOr(false), r.outputPath.GetOr("downloads"),
                   r.playlist.GetOr(false)),
        TaskState(r.id.value, status, InitialProgress, r.priority.GetOr(0), message, false, false,
                  r.title.GetOr("Unknown"), r.duration.GetOr(0), 0, r.createdAt.GetOr(0.0))))
  }

  /**
   * The status filter: a record saved with one of the six status values is
   * restored exactly when that status is QUEUED, PAUSED or ERROR; a record
   * without a status is restored as QUEUED.
   */
  lemma KeptStatuses(r: TaskRecord, st: TaskStatus)
    ensures r.status == Some(st.Value()) ==> (Kept(r) <==> st == Queued || st == Paused || st == Error)
    ensures r.status.None? ==> Kept(r) && RestoredStatus(SavedStatus(r)) == Queued
  {
    if r.status == Some(st.Value()) {
      StatusValueInjective(st, Queued);
      StatusValueInjective(st, Paused);
      StatusValueInjective(st, Error);
    }
  }

  /**
   * The status mapping: a kept record saved as paused comes back PAUSED, as
   * error comes back ERROR with the restore message, and otherwise QUEUED
   * without a message; the task is never DOWNLOADING and carries no signal.
   */
  lemma RestoredStatusMapping(r: TaskRecord)
    requires Kept(r) && RestoreRecord(r).Some?
    ensures var s := RestoreRecord(r).value.state;
      && (SavedStatus(r) == "paused" ==> s.status == Paused && s.errorMessage.None?)
      && (SavedStatus(r) == "error" ==> s.status == Error && s.errorMessage == Some(RestoredErrorMessage))
      && (SavedStatus(r) == "queued" ==> s.status == Queued && s.errorMessage.None?)
      && s.status != Downloading && !s.paused && !s.cancelled && Inv(s)
  {
  }

  /**
   * A kept record can be restored exactly when it has `url` and `id`; every
   * other missing key takes its default.
   */
  lemma RestoreDefaults(r: TaskRecord)
    ensures RestoreRecord(r).Some? <==> r.url.Some? && r.id.Some?
    ensures RestoreRecord(r).Some? ==> var x := RestoreRecord(r).value;
      && x.config.url == r.url.value && x.state.id == r.id.value
      && x.config.quality == r.quality.GetOr("best") && x.config.audioOnly == r.audioOnly.GetOr(false)
      && x.config.outputPath == r.outputPath.GetOr("downloads") && x.config.playlist == r.playlist.GetOr(false)
      && x.state.priority == r.priority.GetOr(0) && x.state.title == r.title.GetOr("Unknown")
      && x.state.duration == r.duration.GetOr(0) && x.state.createdAt == r.createdAt.GetOr(0.0)
      && x.state.progress == InitialProgress && x.state.fileSize == 0
  {
  }

  /**
   * Saving then restoring a task whose status is QUEUED, PAUSED or ERROR gives
   * back its construction arguments, identifier, priority, title, duration,
   * creation time and status.
   */
  lemma SaveRestoreRoundTrip(t: DownloadTask)
    requires t.status == Queued || t.status == Paused || t.status == Error
    ensures Kept(RecordOf(t)) && RestoreRecord(RecordOf(t)).Some?
    ensures var x := RestoreRecord(RecordOf(t)).value;
      && x.config == t.Config()
      && x.state.id == t.id && x.state.priority == t.priority && x.state.title == t.title
      && x.state.duration == t.duration && x.state.createdAt == t.createdAt
      && x.state.status == t.status
  {
    StatusValueInjective(t.status, Queued);
    StatusValueInjective(t.status, Paused);
    StatusValueInjective(t.status, Error);
  }

  /** A saved task with any other status is dropped on restore. */
  lemma SaveDropsOthers(t: DownloadTask)
    requires t.status == Downloading || t.status == Completed || t.status == Cancelled
    ensures !Kept(RecordOf(t))
  {
    KeptStatuses(RecordOf(t), t.status);
  }

  // ----- restoring a whole snapshot -----

  /**
   * What `restore_queue` leaves in the queue after the records `rs`, as the
   * task values in list order and the counter of running downloads: each kept
   * record is added as `add_task` adds it (append, re-sort, one admission
   * pass). None when a kept record lacks `url` or `id`, which aborts the restore.
   */
  function Replay(rs: seq<TaskRecord>, maxConcurrent: int): Option<(seq<TaskState>, int)>
  {
    if rs == [] then Some(([], 0))
    else match Replay(rs[..|rs| - 1], maxConcurrent)
      case None => None
      case Some(q) => ReplayStep(q, rs[|rs| - 1], maxConcurrent)
  }

  /** One record's turn: skipped when not kept, added through `add_task` when it restores, None when it cannot. */
  function ReplayStep(q: (seq<TaskState>, int), r: TaskRecord, maxConcurrent: int): Option<(seq<TaskState>, int)>
  {
    if !Kept(r) then Some(q)
    else match RestoreRecord(r)
      case None => None
      case Some(x) => Some(Added(q, x.state, maxConcurrent))
  }

  /** The values of the restored tasks, in record order, before any admission. */
  function KeptStates(rs: seq<TaskRecord>): seq<TaskState>
  {
    if rs == [] then []
    else
      var r := rs[|rs| - 1];
      KeptStates(rs[..|rs| - 1]) + (if Kept(r) && RestoreRecord(r).Some? then [RestoreRecord(r).value.state] else [])
  }

  /** The construction arguments record `r` restores, with the defaults for missing keys; none when it is not restored. */
  function ConfigOfRecord(r: TaskRecord): seq<TaskConfig>
  {
    if Kept(r) && RestoreRecord(r).Some? then [RestoreRecord(r).value.config] else []
  }

  /** The construction arguments of the restored tasks, in record order. */
  function KeptConfigs(rs: seq<TaskRecord>): seq<TaskConfig>
  {
    if rs == [] then [] else KeptConfigs(rs[..|rs| - 1]) + ConfigOfRecord(rs[|rs| - 1])
  }

  /** The records up to `i` inclusive restore as those before `i` followed by the turn of record `i`. */
  lemma ReplayExtend(rs: seq<TaskRecord>, i: nat, maxConcurrent: int, q: (seq<TaskState>, int))
    requires i < |rs| && Replay(rs[..i], maxConcurrent) == Some(q)
    ensures Replay(rs[..i + 1], maxConcurrent) == ReplayStep(q, rs[i], maxConcurrent)
  {
    assert rs[..i + 1][..i] == rs[..i];
  }

  /** The arguments restored from the records up to `i` inclusive: those before `i` and record `i`'s, if it restores. */
  lemma KeptConfigsExtend(rs: seq<TaskRecord>, i: nat)
    requires i < |rs|
    ensures multiset(KeptConfigs(rs[..i + 1])) == multiset(KeptConfigs(rs[..i])) + multiset(ConfigOfRecord(rs[i]))
  {
    assert rs[..i + 1][..i] == rs[..i];
  }

  /** Once a kept record fails to restore, the whole restore fails. */
  lemma {:induction false} ReplayFailureSticks(rs: seq<TaskRecord>, i: nat, maxConcurrent: int)
    requires i <= |rs| && Replay(rs[..i], maxConcurrent).None?
    ensures Replay(rs, maxConcurrent).None?
    decreases |rs| - i
  {
    if i < |rs| {
      assert rs[..i + 1][..i] == rs[..i];
      ReplayFailureSticks(rs, i + 1, maxConcurrent);
    } else {
      assert rs[..i] == rs;
    }
  }

  /** A snapshot none of whose records is kept restores to an empty queue. */
  lemma {:induction false} NothingKeptRestoresEmpty(rs: seq<TaskRecord>, maxConcurrent: int)
    requires forall i :: 0 <= i < |rs| ==> !Kept(rs[i])
    ensures Replay(rs, maxConcurrent) == Some(([], 0))
  {
    if rs != [] {
      NothingKeptRestoresEmpty(rs[..|rs| - 1], maxConcurrent);
    }
  }

  /** The default snapshot restores to an empty queue with a budget of three. */
  lemma DefaultRestoresEmpty()
    ensures var s := LoadQueue(None);
      s.maxConcurrent.GetOr(DefaultMaxConcurrent) == 3 && Replay(s.tasks.GetOr([]), 3) == Some(([], 0))
  {
  }

  /** A record saved with status `status`, id `id` and every other key present. */
  function SavedRecord(id: string, status: TaskStatus): TaskRecord {
    TaskRecord(Some(id), Some("https://example.org/watch"), Some("best"), Some(false), Some("downloads"), Some(false),
               Some(0), Some(status.Value()), Some("Unknown"), Some(0), Some(0.0))
  }

  /** A record that is not kept leaves the restored queue as it was. */
  lemma SkipTurn(rs: seq<TaskRecord>, i: nat, maxConcurrent: int, q: (seq<TaskState>, int))
    requires i < |rs| && Replay(rs[..i], maxConcurrent) == Some(q) && !Kept(rs[i])
    ensures Replay(rs[..i + 1], maxConcurrent) == Some(q)
  {
    ReplayExtend(rs, i, maxConcurrent, q);
  }

  /** A kept record restored to a value that is not QUEUED, added to a queue without QUEUED values, is only sorted in. */
  lemma QuietTurn(rs: seq<TaskRecord>, i: nat, maxConcurrent: int, q: (seq<TaskState>, int), s: TaskState)
    requires i < |rs| && Replay(rs[..i], maxConcurrent) == Some(q)
    requires Kept(rs[i]) && RestoreRecord(rs[i]).Some? && RestoreRecord(rs[i]).value.state == s
    requires s.status != Queued && forall j :: 0 <= j < |q.0| ==> q.0[j].status != Queued
    ensures Replay(rs[..i + 1], maxConcurrent) == Some((SortStates(q.0 + [s]), q.1))
  {
    ReplayExtend(rs, i, maxConcurrent, q);
    var sorted := SortStates(q.0 + [s]);
    forall j | 0 <= j < |sorted|
      ensures sorted[j].status != Queued
    {
      assert sorted[j] in multiset(q.0 + [s]);
    }
  }

  /** The value a record built by `SavedRecord(id, status)` restores to, with `message` as its error message. */
  function SavedState(id: string, status: TaskStatus, message: Option<string>): TaskState {
    TaskState(id, status, InitialProgress, 0, message, false, false, "Unknown", 0, 0, 0.0)
  }

  lemma SavedRecordRestores(id: string, status: TaskStatus)
    ensures Kept(SavedRecord(id, status)) <==> status == Queued || status == Paused || status == Error
    ensures status == Paused ==> RestoreRecord(SavedRecord(id, status)).value.state == SavedState(id, Paused, None)
    ensures status == Error ==>
      RestoreRecord(SavedRecord(id, status)).value.state == SavedState(id, Error, Some(RestoredErrorMessage))
  {
    KeptStatuses(SavedRecord(id, status), status);
  }

  /** When the first record is dropped and the second is restored to a PAUSED value, two records restore to that value alone. */
  lemma FirstRestoredSecond(rs: seq<TaskRecord>, maxConcurrent: int, s: TaskState)
    requires |rs| >= 2 && !Kept(rs[0]) && Kept(rs[1])
    requires RestoreRecord(rs[1]).Some? && RestoreRecord(rs[1]).value.state == s && s.status == Paused
    ensures Replay(rs[..2], maxConcurrent) == Some(([s], 0))
  {
    assert rs[..0] == [];
    SkipTurn(rs, 0, maxConcurrent, ([], 0));
    assert [] + [s] == [s];
    assert SortStates([s]) == [s];
    QuietTurn(rs, 1, maxConcurrent, ([], 0), s);
  }

  /** Continuing from one PAUSED value, a third record restored to an ERROR value of equal priority and a dropped fourth end the restore. */
  lemma ThenRestoredThird(rs: seq<TaskRecord>, maxConcurrent: int, sp: TaskState, se: TaskState)
    requires |rs| == 4 && Replay(rs[..2], maxConcurrent) == Some(([sp], 0)) && sp.status == Paused
    requires Kept(rs[2]) && RestoreRecord(rs[2]).Some? && RestoreRecord(rs[2]).value.state == se
    requires se.status == Error && se.priority == sp.priority && !Kept(rs[3])
    ensures Replay(rs, maxConcurrent) == Some(([sp, se], 0))
  {
    assert SortStates([sp] + [se]) == [sp, se];
    QuietTurn(rs, 2, maxConcurrent, ([sp], 0), se);
    SkipTurn(rs, 3, maxConcurrent, ([sp, se], 0));
    assert rs[..4] == rs;
  }

  /**
   * A snapshot holding a COMPLETED, a PAUSED, an ERROR and a DOWNLOADING task
   * restores to exactly two tasks, the PAUSED one and then the ERROR one with
   * the restore message, and nothing is admitted.
   */
  lemma MixedSnapshotRestore(c: string, p: string, e: string, d: string, maxConcurrent: int)
    ensures Replay([SavedRecord(c, Completed), SavedRecord(p, Paused), SavedRecord(e, Error), SavedRecord(d, Downloading)],
                   maxConcurrent)
         == Some(([SavedState(p, Paused, None), SavedState(e, Error, Some(RestoredErrorMessage))], 0))
  {
    var rs := [SavedRecord(c, Completed), SavedRecord(p, Paused), SavedRecord(e, Error), SavedRecord(d, Downloading)];
    var sp := SavedState(p, Paused, None);
    var se := SavedState(e, Error, Some(RestoredErrorMessage));
    SavedRecordRestores(c, Completed);
    SavedRecordRestores(p, Paused);
    SavedRecordRestores(e, Error);
    SavedRecordRestores(d, Downloading);
    FirstRestoredSecond(rs, maxConcurrent, sp);
    ThenRestoredThird(rs, maxConcurrent, sp, se);
  }

  // ----- what admission does to the restored values -----

  lemma {:induction false} MapInsert<B>(f: TaskState -> B, s: TaskState, ss: seq<TaskState>)
    ensures multiset(Each(f, InsertState(s, ss))) == multiset(Each(f, ss)) + multiset{f(s)}
  {
    if ss != [] && !KeyLe(s, ss[0]) {
      MapInsert(f, s, ss[1..]);
      assert Each(f, ss) == [f(ss[0])] + Each(f, ss[1..]);
      assert Each(f, InsertState(s, ss)) == [f(ss[0])] + Each(f, InsertState(s, ss[1..]));
    } else {
      assert Each(f, InsertState(s, ss)) == [f(s)] + Each(f, ss);
    }
  }

  /** Sorting permutes the values, so it permutes whatever is computed from each of them. */
  lemma {:induction false} MapSort<B>(f: TaskState -> B, ss: seq<TaskState>)
    ensures multiset(Each(f, SortStates(ss))) == multiset(Each(f, ss))
  {
    if ss != [] {
      MapSort(f, ss[1..]);
      MapInsert(f, ss[0], SortStates(ss[1..]));
      assert Each(f, ss) == [f(ss[0])] + Each(f, ss[1..]);
    }
  }

  lemma MapAppendOne<B>(f: TaskState -> B, ss: seq<TaskState>, s: TaskState)
    ensures Each(f, ss + [s]) == Each(f, ss) + [f(s)]
  {
    assert Each(f, ss + [s]) == Each(f, ss) + [f(s)];
  }

  /** A value as it was before an admission pass: DOWNLOADING back to QUEUED. */
  function Unadmit(s: TaskState): TaskState {
    if s.status == Downloading then s.(status := Queued) else s
  }

  function StatusOf(s: TaskState): TaskStatus {
    s.status
  }

  /** The number of DOWNLOADING values. */
  function Running(ss: seq<TaskState>): nat {
    multiset(Each(StatusOf, ss))[Downloading]
  }

  /** Admission changes nothing that `Unadmit` sees. */
  lemma AdmitUnadmits(ss: seq<TaskState>, active: int, maxConcurrent: int)
    ensures Each(Unadmit, Admit(ss, active, maxConcurrent).0) == Each(Unadmit, ss)
  {
    if active < maxConcurrent && FirstQueued(ss).Some? {
      var k := FirstQueued(ss).value;
      var r := ss[k := Admitted(ss[k])];
      assert Unadmit(r[k]) == ss[k];
      assert Each(Unadmit, r) == Each(Unadmit, ss);
    }
  }

  /** What admission adds to the counter it adds to the DOWNLOADING values. */
  lemma AdmitCounts(ss: seq<TaskState>, active: int, maxConcurrent: int)
    ensures var r := Admit(ss, active, maxConcurrent);
      Running(r.0) == Running(ss) + (r.1 - active)
  {
    if active < maxConcurrent && FirstQueued(ss).Some? {
      var k := FirstQueued(ss).value;
      var ms := Each(StatusOf, ss);
      assert ms[k] == Queued;
      assert Each(StatusOf, ss[k := Admitted(ss[k])]) == ms[k := Downloading];
    }
  }

  /** Adding a restored value and re-sorting keeps the counter equal to the DOWNLOADING values. */
  lemma AddKeepsRunning(ss: seq<TaskState>, s: TaskState)
    requires s.status != Downloading
    ensures Running(SortStates(ss + [s])) == Running(ss)
  {
    MapSort(StatusOf, ss + [s]);
    MapAppendOne(StatusOf, ss, s);
  }

  /** Adding a restored value and re-sorting adds it to what `Unadmit` sees. */
  lemma AddUnadmits(ss: seq<TaskState>, s: TaskState)
    requires s.status != Downloading
    ensures multiset(Each(Unadmit, SortStates(ss + [s]))) == multiset(Each(Unadmit, ss)) + multiset{s}
  {
    MapSort(Unadmit, ss + [s]);
    MapAppendOne(Unadmit, ss, s);
  }

  lemma AddKeepsInv(ss: seq<TaskState>, s: TaskState)
    requires AllInv(ss) && Inv(s)
    ensures AllInv(SortStates(ss + [s]))
  {
    var sorted := SortStates(ss + [s]);
    forall i | 0 <= i < |sorted|
      ensures Inv(sorted[i])
    {
      assert sorted[i] in multiset(ss + [s]);
    }
  }

  /** One kept record's turn keeps the three facts `ReplayShape` states. */
  lemma StepShape(q: (seq<TaskState>, int), s: TaskState, maxConcurrent: int)
    requires s.status != Downloading && Inv(s) && AllInv(q.0)
    requires q.1 == Running(q.0) && (maxConcurrent >= 0 ==> q.1 <= maxConcurrent)
    ensures var r := Admit(SortStates(q.0 + [s]), q.1, maxConcurrent);
      && multiset(Each(Unadmit, r.0)) == multiset(Each(Unadmit, q.0)) + multiset{s}
      && r.1 == Running(r.0)
      && (maxConcurrent >= 0 ==> r.1 <= maxConcurrent)
      && AllInv(r.0)
  {
    var sorted := SortStates(q.0 + [s]);
    AddUnadmits(q.0, s);
    AdmitUnadmits(sorted, q.1, maxConcurrent);
    AddKeepsRunning(q.0, s);
    AdmitCounts(sorted, q.1, maxConcurrent);
    AdmitFacts(sorted, q.1, maxConcurrent);
    AddKeepsInv(q.0, s);
    AdmitKeepsInv(sorted, q.1, maxConcurrent);
  }

  /**
   * The restored queue holds the kept records' values, except that some
   * QUEUED ones were admitted to DOWNLOADING, and its counter is the number
   * of DOWNLOADING tasks, within the budget.
   */
  lemma {:induction false} ReplayShape(rs: seq<TaskRecord>, maxConcurrent: int)
    requires Replay(rs, maxConcurrent).Some?
    ensures var (ss, active) := Replay(rs, maxConcurrent).value;
      && multiset(Each(Unadmit, ss)) == multiset(KeptStates(rs))
      && active == Running(ss)
      && (maxConcurrent >= 0 ==> active <= maxConcurrent)
      && AllInv(ss)
  {
    if rs != [] {
      var init := rs[..|rs| - 1];
      var r := rs[|rs| - 1];
      ReplayShape(init, maxConcurrent);
      if Kept(r) {
        RestoredStatusMapping(r);
        StepShape(Replay(init, maxConcurrent).value, RestoreRecord(r).value.state, maxConcurrent);
      }
    }
  }

  /**
   * Restoring never admits a PAUSED or ERROR task: every restored value that
   * is not DOWNLOADING is a kept record's value as restored, every DOWNLOADING
   * one is a kept QUEUED value admitted, and every kept PAUSED or ERROR value
   * is in the queue unchanged.
   */
  lemma RestoreAdmitsOnlyQueued(rs: seq<TaskRecord>, maxConcurrent: int)
    requires Replay(rs, maxConcurrent).Some?
    ensures var ss := Replay(rs, maxConcurrent).value.0;
      && (forall s | s in ss :: s.status != Downloading ==> s in KeptStates(rs))
      && (forall s | s in ss :: s.status == Downloading ==> s.(status := Queued) in KeptStates(rs))
      && (forall s | s in KeptStates(rs) :: s.status != Queued ==> s in ss)
  {
    ReplayShape(rs, maxConcurrent);
    UnadmittedMembers(Replay(rs, maxConcurrent).value.0, KeptStates(rs));
  }

  /** Values whose un-admitted forms are a permutation of `ks` come from `ks`, and hold every value of `ks` that is not QUEUED. */
  lemma UnadmittedMembers(ss: seq<TaskState>, ks: seq<TaskState>)
    requires multiset(Each(Unadmit, ss)) == multiset(ks)
    ensures forall s | s in ss :: Unadmit(s) in ks
    ensures forall s | s in ks && s.status != Queued :: s in ss
  {
    var us := Each(Unadmit, ss);
    forall s | s in ss
      ensures Unadmit(s) in ks
    {
      var i :| 0 <= i < |ss| && ss[i] == s;
      assert us[i] in multiset(us);
    }
    forall s | s in ks && s.status != Queued
      ensures s in ss
    {
      assert s in multiset(us);
      var i :| 0 <= i < |us| && us[i] == s;
    }
  }

  // ----- the restore itself -----

  /** The task `restore_queue` builds for a kept record (the construction and the field assignments). */
  method MakeTask(r: TaskRecord, freshId: string, now: real) returns (task: DownloadTask)
    requires Kept(r) && r.url.Some? && r.id.Some?
    ensures fresh(task) && task.Valid()
    ensures var x := RestoreRecord(r).value;
      task.State() == x.state && task.Config() == x.config
  {
    var status := SavedStatus(r);
    task := new DownloadTask(freshId, r.url.value, r.quality.GetOr("best"), r.audioOnly.GetOr(false),
                             Some(r.outputPath.GetOr("downloads")), r.playlist.GetOr(false), "", now);
    task.id := r.id.value;
    task.SetPriority(r.priority.GetOr(0));
    task.title := r.title.GetOr("Unknown");
    task.duration := r.duration.GetOr(0);
    task.createdAt := r.createdAt.GetOr(0.0);
    if status == "paused" {
      task.status := Paused;
    } else if status == "error" {
      task.status := Error;
      task.errorMessage := Some(RestoredErrorMessage);
    } else {
      task.status := Queued;
    }
  }

  /**
   * One turn of the loop in `restore_queue`: a kept record becomes a task that
   * is added through `add_task`; false when it lacks `url` or `id`.
   */
  method RestoreOne(queue: DownloadQueue, r: TaskRecord, freshId: string, now: real) returns (ok: bool)
    requires queue.Valid()
    modifies queue`tasks, queue`activeDownloads, queue.tasks
    ensures queue.Valid()
    ensures var step := ReplayStep(old(queue.View()), r, queue.maxConcurrent);
      && (ok <==> step.Some?)
      && (ok ==> queue.View() == step.value)
    ensures ok ==> multiset(ConfigsOf(queue.tasks)) == multiset(ConfigsOf(old(queue.tasks))) + multiset(ConfigOfRecord(r))
    ensures forall j :: 0 <= j < |queue.tasks| ==> queue.tasks[j] in old(queue.tasks) || fresh(queue.tasks[j])
  {
    ok := true;
    if Kept(r) {
      if r.url.None? || r.id.None? {
        return false;
      }
      AddRestored(queue, r, freshId, now);
    } else {
      assert ConfigOfRecord(r) == [];
    }
  }

  /** A kept record with `url` and `id`: build its task and hand it to `add_task`. */
  method AddRestored(queue: DownloadQueue, r: TaskRecord, freshId: string, now: real)
    requires queue.Valid() && Kept(r) && r.url.Some? && r.id.Some?
    modifies queue`tasks, queue`activeDownloads, queue.tasks
    ensures queue.Valid()
    ensures queue.View() == Added(old(queue.View()), RestoreRecord(r).value.state, queue.maxConcurrent)
    ensures multiset(ConfigsOf(queue.tasks)) == multiset(ConfigsOf(old(queue.tasks))) + multiset(ConfigOfRecord(r))
    ensures forall j :: 0 <= j < |queue.tasks| ==> queue.tasks[j] in old(queue.tasks) || fresh(queue.tasks[j])
  {
    assert ConfigOfRecord(r) == [RestoreRecord(r).value.config];
    ghost var before := queue.tasks;
    var task := MakeTask(r, freshId, now);
    var added := queue.AddTask(task);
    ConfigsAdded(before, task, queue.tasks);
  }

  /**
   * `restore_queue`: a fresh queue with the snapshot's budget (3 when it is
   * missing) into which every kept record is added, in record order, through
   * `add_task`. None when a kept record lacks `url` or `id`, where the source
   * raises out of the restore. `freshId` and `now` stand for the identifier
   * and the time the task constructor draws, both overwritten from the record.
   */
  method RestoreQueue(stored: Option<Snapshot>, freshId: string, now: real) returns (res: Option<DownloadQueue>)
    ensures var data := LoadQueue(stored);
      var m := data.maxConcurrent.GetOr(DefaultMaxConcurrent);
      var replay := Replay(data.tasks.GetOr([]), m);
      && (res.Some? <==> replay.Some?)
      && (res.Some? ==>
            && fresh(res.value) && res.value.Valid() && res.value.maxConcurrent == m
            && StatesOf(res.value.tasks) == replay.value.0
            && multiset(ConfigsOf(res.value.tasks)) == multiset(KeptConfigs(data.tasks.GetOr([])))
            && res.value.activeDownloads == replay.value.1)
  {
    var data := LoadQueue(stored);
    var m := data.maxConcurrent.GetOr(DefaultMaxConcurrent);
    var records := data.tasks.GetOr([]);
    var queue := new DownloadQueue(m);
    for i := 0 to |records|
      invariant fresh(queue)
      invariant queue.Valid()
      invariant queue.maxConcurrent == m
      invariant forall j :: 0 <= j < |queue.tasks| ==> fresh(queue.tasks[j])
      invariant Replay(records[..i], m) == Some(queue.View())
      invariant multiset(ConfigsOf(queue.tasks)) == multiset(KeptConfigs(records[..i]))
    {
      ReplayExtend(records, i, m, queue.View());
      KeptConfigsExtend(records, i);
      ghost var before := queue.tasks;
      var ok := RestoreOne(queue, records[i], freshId, now);
      if !ok {
        ReplayFailureSticks(records, i + 1, m);
        return None;
      }
      forall j | 0 <= j < |queue.tasks|
        ensures fresh(queue.tasks[j])
      {
        if queue.tasks[j] in before {
          var k :| 0 <= k < |before| && before[k] == queue.tasks[j];
        }
      }
    }
    assert records[..|records|] == records;
    res := Some(queue);
  }
}
