/**
 * The list comprehensions of utils/download_queue.py: the `get_*_tasks`
 * filters, `clear_completed` and the counts of `get_queue_stats`.
 */
module QueueFilters {
  import opened Wrappers
  import opened Task
  import opened QueueOrder

  /** The tasks of `ts` whose status is `st`, in list order. */
  function WithStatus(ts: seq<DownloadTask>, st: TaskStatus): (r: seq<DownloadTask>)
    reads ts
    ensures forall i :: 0 <= i < |r| ==> r[i] in ts && r[i].status == st
    ensures forall i :: 0 <= i < |ts| && ts[i].status == st ==> ts[i] in r
  {
    if ts == [] then []
    else if ts[0].status == st then [ts[0]] + WithStatus(ts[1..], st)
    else WithStatus(ts[1..], st)
  }

  /** The tasks of `ts` whose status is not `st`, in list order. */
  function WithoutStatus(ts: seq<DownloadTask>, st: TaskStatus): (r: seq<DownloadTask>)
    reads ts
    ensures forall i :: 0 <= i < |r| ==> r[i] in ts && r[i].status != st
    ensures forall i :: 0 <= i < |ts| && ts[i].status != st ==> ts[i] in r
  {
    if ts == [] then []
    else if ts[0].status != st then [ts[0]] + WithoutStatus(ts[1..], st)
    else WithoutStatus(ts[1..], st)
  }

  /** A status splits the list: every task is kept by exactly one of the two filters. */
  lemma {:induction false} FiltersPartition(ts: seq<DownloadTask>, st: TaskStatus)
    ensures multiset(WithStatus(ts, st)) + multiset(WithoutStatus(ts, st)) == multiset(ts)
  {
    if ts != [] {
      FiltersPartition(ts[1..], st);
      assert ts == [ts[0]] + ts[1..];
      assert multiset(ts) == multiset{ts[0]} + multiset(ts[1..]);
      if ts[0].status == st {
        assert multiset(WithStatus(ts, st)) == multiset{ts[0]} + multiset(WithStatus(ts[1..], st));
        assert WithoutStatus(ts, st) == WithoutStatus(ts[1..], st);
      } else {
        assert WithStatus(ts, st) == WithStatus(ts[1..], st);
        assert multiset(WithoutStatus(ts, st)) == multiset{ts[0]} + multiset(WithoutStatus(ts[1..], st));
      }
    }
  }

  lemma WithStatusCons(x: DownloadTask, ts: seq<DownloadTask>, st: TaskStatus)
    ensures WithStatus([x] + ts, st) == (if x.status == st then [x] else []) + WithStatus(ts, st)
  {
    assert ([x] + ts)[0] == x && ([x] + ts)[1..] == ts;
  }

  lemma WithoutStatusCons(x: DownloadTask, ts: seq<DownloadTask>, st: TaskStatus)
    ensures WithoutStatus([x] + ts, st) == (if x.status != st then [x] else []) + WithoutStatus(ts, st)
  {
    assert ([x] + ts)[0] == x && ([x] + ts)[1..] == ts;
  }

  /** Filtering keeps list order: it distributes over concatenation. */
  lemma {:induction false} WithStatusKeepsOrder(a: seq<DownloadTask>, b: seq<DownloadTask>, st: TaskStatus)
    ensures WithStatus(a + b, st) == WithStatus(a, st) + WithStatus(b, st)
  {
    if a == [] {
      assert a + b == b;
    } else {
      WithStatusKeepsOrder(a[1..], b, st);
      assert a + b == [a[0]] + (a[1..] + b);
      assert a == [a[0]] + a[1..];
      WithStatusCons(a[0], a[1..] + b, st);
      WithStatusCons(a[0], a[1..], st);
      Assoc(if a[0].status == st then [a[0]] else [], WithStatus(a[1..], st), WithStatus(b, st));
    }
  }

  lemma {:induction false} WithoutStatusKeepsOrder(a: seq<DownloadTask>, b: seq<DownloadTask>, st: TaskStatus)
    ensures WithoutStatus(a + b, st) == WithoutStatus(a, st) + WithoutStatus(b, st)
  {
    if a == [] {
      assert a + b == b;
    } else {
      WithoutStatusKeepsOrder(a[1..], b, st);
      assert a + b == [a[0]] + (a[1..] + b);
      assert a == [a[0]] + a[1..];
      WithoutStatusCons(a[0], a[1..] + b, st);
      WithoutStatusCons(a[0], a[1..], st);
      Assoc(if a[0].status != st then [a[0]] else [], WithoutStatus(a[1..], st), WithoutStatus(b, st));
    }
  }

  /** Filtering out one status leaves every task of any other status. */
  lemma {:induction false} WithoutKeepsOthers(ts: seq<DownloadTask>, st: TaskStatus, other: TaskStatus)
    requires other != st
    ensures WithStatus(WithoutStatus(ts, st), other) == WithStatus(ts, other)
  {
    if ts != [] {
      WithoutKeepsOthers(ts[1..], st, other);
    }
  }

  /** How many tasks of `ts` have status `st`. */
  function CountStatus(ts: seq<DownloadTask>, st: TaskStatus): nat
    reads ts
  {
    if ts == [] then 0 else (if ts[0].status == st then 1 else 0) + CountStatus(ts[1..], st)
  }

  lemma {:induction false} CountIsFilterLength(ts: seq<DownloadTask>, st: TaskStatus)
    ensures |WithStatus(ts, st)| == CountStatus(ts, st)
  {
    if ts != [] {
      CountIsFilterLength(ts[1..], st);
    }
  }

  lemma {:induction false} CountsCoverQueue(ts: seq<DownloadTask>)
    ensures CountStatus(ts, Queued) + CountStatus(ts, Downloading) + CountStatus(ts, Paused)
          + CountStatus(ts, Completed) + CountStatus(ts, Error) + CountStatus(ts, Cancelled) == |ts|
  {
    if ts != [] {
      CountsCoverQueue(ts[1..]);
    }
  }

  /** The number of tasks in each of the six statuses adds up to the number of tasks. */
  lemma StatusCountsCoverQueue(ts: seq<DownloadTask>)
    ensures |WithStatus(ts, Queued)| + |WithStatus(ts, Downloading)| + |WithStatus(ts, Paused)|
          + |WithStatus(ts, Completed)| + |WithStatus(ts, Error)| + |WithStatus(ts, Cancelled)| == |ts|
  {
    CountsCoverQueue(ts);
    CountIsFilterLength(ts, Queued);
    CountIsFilterLength(ts, Downloading);
    CountIsFilterLength(ts, Paused);
    CountIsFilterLength(ts, Completed);
    CountIsFilterLength(ts, Error);
    CountIsFilterLength(ts, Cancelled);
  }

  /** What `get_queue_stats` reports. */
  datatype QueueStats = QueueStats(total: int, active: int, queued: int, paused: int, completed: int, error: int, maxConcurrent: int)

  function Stats(ts: seq<DownloadTask>, activeDownloads: int, maxConcurrent: int): (s: QueueStats)
    reads ts
    ensures s.total == s.queued + s.paused + s.completed + s.error
                     + |WithStatus(ts, Downloading)| + |WithStatus(ts, Cancelled)|
    ensures s.total == |ts| && s.queued == |WithStatus(ts, Queued)| && s.paused == |WithStatus(ts, Paused)|
    ensures s.completed == |WithStatus(ts, Completed)| && s.error == |WithStatus(ts, Error)|
    ensures s.active == activeDownloads && s.maxConcurrent == maxConcurrent
  {
    StatusCountsCoverQueue(ts);
    QueueStats(|ts|, activeDownloads, |WithStatus(ts, Queued)|, |WithStatus(ts, Paused)|,
               |WithStatus(ts, Completed)|, |WithStatus(ts, Error)|, maxConcurrent)
  }
}
