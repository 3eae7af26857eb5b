/**
 * A single download job (utils/download_task.py): its status machine, its
 * progress record and its two cooperative control signals.
 */
module Task {
  import opened Wrappers

  /** The six statuses of a task; `Value()` is the string the snapshots store. */
  datatype TaskStatus = Queued | Downloading | Paused | Completed | Error | Cancelled {

    function Value(): string {
      match this
      case Queued => "queued"
      case Downloading => "downloading"
      case Paused => "paused"
      case Completed => "completed"
      case Error => "error"
      case Cancelled => "cancelled"
    }

    predicate IsActive() { this == Downloading }

    predicate IsPaused() { this == Paused }

    predicate IsCompleted() { this == Completed }

    predicate IsFinished() { this == Completed || this == Error || this == Cancelled }
  }

  /** The progress record; percentages are the executor's floating-point values. */
  datatype Progress = Progress(percentage: real, speed: string, eta: string, downloadedBytes: int, totalBytes: int)

  const InitialProgress := Progress(0.0, "N/A", "N/A", 0, 0)

  /**
   * One event delivered by the executor. `status` is the event's `status` key.
   * `percent` is what parsing the `_percent_str` key (with "%" removed, and "0%"
   * when the key is absent) yields, or None when that parse fails. `speed` and
   * `eta` are the `_speed_str` and `_eta_str` keys when present.
   */
  datatype ProgressEvent = ProgressEvent(status: Option<string>, percent: Option<real>, speed: Option<string>, eta: Option<string>)

  /** Everything about a task that can change after it is constructed. */
  datatype TaskState = TaskState(
    id: string,
    status: TaskStatus,
    progress: Progress,
    priority: int,
    errorMessage: Option<string>,
    paused: bool,      // the pause signal
    cancelled: bool,   // the cancel signal
    title: string,
    duration: int,
    fileSize: int,
    createdAt: real)

  /**
   * The relation between the status and the two signals that every reachable
   * task state satisfies: a set pause signal means the task is not queued or
   * downloading, and a set cancel signal means the task was cancelled (and may
   * since have been overwritten by a worker's completion).
   */
  predicate Inv(s: TaskState) {
    && (s.paused ==> s.status != Queued && s.status != Downloading)
    && (s.cancelled ==> s.paused && s.status.IsFinished())
  }

  // ----- transitions -----

  function AfterPause(s: TaskState): TaskState {
    if s.status == Downloading then s.(status := Paused, paused := true) else s
  }

  function AfterResume(s: TaskState): TaskState {
    if s.status == Paused then s.(status := Queued, paused := false) else s
  }

  function AfterCancel(s: TaskState): TaskState {
    s.(status := Cancelled, cancelled := true, paused := true)
  }

  /** The effect of admission on the admitted task. */
  function Admitted(s: TaskState): TaskState {
    s.(status := Downloading)
  }

  /** The status and error text a worker leaves when the executor returns (`ok`) or raises `msg`. */
  function Finished(s: TaskState, ok: bool, msg: string): TaskState {
    if ok then s.(status := Completed) else s.(status := Error, errorMessage := Some(msg))
  }

  /** How one executor event changes the progress record. */
  function ApplyEvent(p: Progress, e: ProgressEvent): (r: Progress)
    ensures r.downloadedBytes == p.downloadedBytes && r.totalBytes == p.totalBytes
    ensures e.status == Some("finished") ==> r == p.(percentage := 100.0)
    ensures e.status == Some("downloading") ==>
              && r.speed == e.speed.GetOr("N/A")
              && r.eta == e.eta.GetOr("N/A")
              && r.percentage == (if e.percent.Some? then e.percent.value else p.percentage)
    ensures e.status != Some("downloading") && e.status != Some("finished") ==> r == p
  {
    if e.status == Some("downloading") then
      p.(percentage := e.percent.GetOr(p.percentage), speed := e.speed.GetOr("N/A"), eta := e.eta.GetOr("N/A"))
    else if e.status == Some("finished") then
      p.(percentage := 100.0)
    else
      p
  }

  /**
   * The progress record after the progress hook handles `e` in state `s`.
   * `cancelledWhileWaiting` tells how the hook's pause wait ends, when it waits:
   * by the cancel signal being set (true) or by the pause signal being cleared.
   */
  function HookProgress(s: TaskState, e: ProgressEvent, cancelledWhileWaiting: bool): (r: Progress)
    ensures s.cancelled ==> r == s.progress
    ensures !s.cancelled && !(s.paused && s.status == Downloading) ==> r == ApplyEvent(s.progress, e)
    ensures s.paused && s.status == Downloading && cancelledWhileWaiting ==> r == s.progress
    ensures !s.cancelled && s.paused && s.status == Downloading && !cancelledWhileWaiting ==> r == ApplyEvent(s.progress, e)
  {
    if s.cancelled then s.progress
    else if s.paused && s.status == Downloading && cancelledWhileWaiting then s.progress
    else ApplyEvent(s.progress, e)
  }

  /** The construction arguments a task keeps for its whole life: url, quality, audio-only flag, output path, playlist flag. */
  datatype TaskConfig = TaskConfig(url: string, quality: string, audioOnly: bool, outputPath: string, playlist: bool)

  /** What `get_display_info` reports about a task. */
  datatype DisplayInfo = DisplayInfo(
    id: string, title: string, status: string, progress: real, speed: string, eta: string,
    priority: int, quality: string, audioOnly: bool, error: Option<string>)

  // ----- lemmas about the transitions -----

  /** The four status predicates split the six statuses: exactly one of them, or queued, holds. */
  lemma StatusPredicatesPartition(st: TaskStatus)
    ensures st.IsFinished() <==> st in {Completed, Error, Cancelled}
    ensures st.IsActive() <==> st == Downloading
    ensures st.IsPaused() <==> st == Paused
    ensures st == Queued || st.IsActive() || st.IsPaused() || st.IsFinished()
    ensures !(st.IsActive() && st.IsPaused()) && !(st.IsActive() && st.IsFinished()) && !(st.IsPaused() && st.IsFinished())
  {
  }

  /** Distinct statuses are stored as distinct strings. */
  lemma StatusValueInjective(a: TaskStatus, b: TaskStatus)
    ensures a.Value() == b.Value() ==> a == b
  {
  }

  lemma PauseFacts(s: TaskState)
    ensures s.status == Downloading ==> AfterPause(s) == s.(status := Paused, paused := true)
    ensures s.status != Downloading ==> AfterPause(s) == s
    ensures AfterPause(AfterPause(s)) == AfterPause(s)
  {
  }

  lemma ResumeFacts(s: TaskState)
    ensures s.status == Paused ==> AfterResume(s) == s.(status := Queued, paused := false)
    ensures s.status != Paused ==> AfterResume(s) == s
    ensures AfterResume(AfterResume(s)) == AfterResume(s)
  {
  }

  /** Cancel reaches CANCELLED from every status, COMPLETED included, and is idempotent. */
  lemma CancelFacts(s: TaskState)
    ensures AfterCancel(s).status == Cancelled && AfterCancel(s).cancelled && AfterCancel(s).paused
    ensures AfterCancel(AfterCancel(s)) == AfterCancel(s)
    ensures AfterCancel(s).priority == s.priority && AfterCancel(s).progress == s.progress
  {
  }

  /** Pausing a running task and resuming it re-queues it rather than restarting the transfer. */
  lemma PauseThenResumeRequeues(s: TaskState)
    requires Inv(s) && s.status == Downloading
    ensures AfterResume(AfterPause(s)) == s.(status := Queued)
  {
  }

  /** Every transition of a task keeps `Inv`. */
  lemma TransitionsKeepInv(s: TaskState, p: int, e: ProgressEvent, w: bool, ok: bool, msg: string)
    requires Inv(s)
    ensures Inv(AfterPause(s)) && Inv(AfterResume(s)) && Inv(AfterCancel(s))
    ensures Inv(s.(priority := p)) && Inv(s.(progress := HookProgress(s, e, w)))
    ensures Inv(Finished(s, ok, msg))
    ensures s.status == Queued ==> Inv(Admitted(s))
  {
  }

  /**
   * In every reachable state the hook's pause wait is never entered, so how a
   * wait would end does not matter: the hook drops the event when cancelled and
   * applies it otherwise.
   */
  lemma HookNeverWaits(s: TaskState, e: ProgressEvent, w: bool)
    requires Inv(s)
    ensures HookProgress(s, e, w) == if s.cancelled then s.progress else ApplyEvent(s.progress, e)
  {
  }

  /** Consequently a paused transfer keeps recording the executor's progress. */
  lemma PausedTaskKeepsProgressing(s: TaskState, e: ProgressEvent, w: bool)
    requires Inv(s) && s.status == Downloading
    ensures HookProgress(AfterPause(s), e, w) == ApplyEvent(s.progress, e)
  {
    HookNeverWaits(AfterPause(s), e, w);
  }

  /** Handling the same event twice records the same progress as handling it once. */
  lemma ApplyEventIdempotent(p: Progress, e: ProgressEvent)
    ensures ApplyEvent(ApplyEvent(p, e), e) == ApplyEvent(p, e)
  {
  }

  // ----- the task object -----

  class DownloadTask {
    var id: string
    const url: string
    const quality: string
    const audioOnly: bool
    const outputPath: string
    const playlist: bool

    var status: TaskStatus
    var progress: Progress
    var priority: int
    var errorMessage: Option<string>
    var paused: bool
    var cancelled: bool

    var title: string
    var duration: int
    var fileSize: int
    var createdAt: real

    /** The value of the task's mutable fields. */
    function State(): TaskState
      reads this
    {
      TaskState(id, status, progress, priority, errorMessage, paused, cancelled, title, duration, fileSize, createdAt)
    }

    predicate Valid()
      reads this
    {
      Inv(State())
    }

    /** The construction arguments; they are never reassigned, so reading them needs no frame. */
    function Config(): TaskConfig {
      TaskConfig(url, quality, audioOnly, outputPath, playlist)
    }

    /**
     * A new task. `id` is the generated identifier and `now` the creation time;
     * `outputPath` None means the default `downloads` directory under `cwd`.
     */
    constructor (id: string, url: string, quality: string, audioOnly: bool, outputPath: Option<string>,
                 playlist: bool, cwd: string, now: real)
      ensures Valid()
      ensures State() == TaskState(id, Queued, InitialProgress, 0, None, false, false, "Unknown", 0, 0, now)
      ensures this.url == url && this.quality == quality && this.audioOnly == audioOnly && this.playlist == playlist
      ensures this.outputPath == outputPath.GetOr(cwd + "/downloads")
    {
      this.id := id;
      this.url := url;
      this.quality := quality;
      this.audioOnly := audioOnly;
      this.outputPath := outputPath.GetOr(cwd + "/downloads");
      this.playlist := playlist;
      status := Queued;
      progress := InitialProgress;
      priority := 0;
      errorMessage := None;
      paused := false;
      cancelled := false;
      title := "Unknown";
      duration := 0;
      fileSize := 0;
      createdAt := now;
    }

    method Pause()
      modifies this
      ensures State() == AfterPause(old(State()))
    {
      if status == Downloading {
        status := Paused;
        paused := true;
      }
    }

    method Resume()
      modifies this
      ensures State() == AfterResume(old(State()))
    {
      if status == Paused {
        status := Queued;
        paused := false;
      }
    }

    method Cancel()
      modifies this
      ensures State() == AfterCancel(old(State()))
    {
      status := Cancelled;
      cancelled := true;
      paused := true;
    }

    method SetPriority(p: int)
      modifies this
      ensures State() == old(State()).(priority := p)
    {
      priority := p;
    }

    method NotifyProgress(e: ProgressEvent)
      modifies this
      ensures State() == old(State()).(progress := ApplyEvent(old(progress), e))
    {
      if e.status == Some("downloading") {
        if e.percent.Some? {
          progress := progress.(percentage := e.percent.value);
        }
        progress := progress.(speed := e.speed.GetOr("N/A"), eta := e.eta.GetOr("N/A"));
      } else if e.status == Some("finished") {
        progress := progress.(percentage := 100.0);
      }
    }

    method ProgressHook(e: ProgressEvent, cancelledWhileWaiting: bool)
      modifies this
      ensures State() == old(State()).(progress := HookProgress(old(State()), e, cancelledWhileWaiting))
    {
      if cancelled {
        return;
      }
      if paused && status == Downloading {
        // the source polls here until the pause signal clears or the cancel signal is set
        if cancelledWhileWaiting {
          return;
        }
      }
      NotifyProgress(e);
    }

    function GetDisplayInfo(): (d: DisplayInfo)
      reads this
      ensures d.status == status.Value() && d.error == errorMessage
      ensures d.progress == progress.percentage && d.speed == progress.speed && d.eta == progress.eta
      ensures d.id == id && d.title == title && d.priority == priority && d.quality == quality && d.audioOnly == audioOnly
    {
      DisplayInfo(id, title, status.Value(), progress.percentage, progress.speed, progress.eta,
                  priority, quality, audioOnly, errorMessage)
    }
  }
}
