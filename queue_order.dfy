/**
 * The order `DownloadQueue._sort_by_priority` puts the task list in
 * (utils/download_queue.py): Python's stable `list.sort` with the key
 * `(not is_active, -priority)`. Like Python, the sort computes every key
 * once, pairs it with its task, sorts the pairs and keeps the tasks.
 */
module QueueOrder {
  import opened Wrappers
  import opened Task

  /** The value of every task in `ts`, position by position. */
  function StatesOf(ts: seq<DownloadTask>): (ss: seq<TaskState>)
    reads ts
    ensures |ss| == |ts|
    ensures forall i {:trigger ss[i]} :: 0 <= i < |ts| ==> ss[i] == ts[i].State()
  {
    if ts == [] then [] else [ts[0].State()] + StatesOf(ts[1..])
  }

  /** The construction arguments of every task in `ts`, position by position. */
  function ConfigsOf(ts: seq<DownloadTask>): (cs: seq<TaskConfig>)
    ensures |cs| == |ts|
    ensures forall i {:trigger cs[i]} :: 0 <= i < |ts| ==> cs[i] == ts[i].Config()
  {
    if ts == [] then [] else [ts[0].Config()] + ConfigsOf(ts[1..])
  }

  /** The arguments of a list with one task removed are those of the list with that position removed. */
  lemma ConfigsRemoveAt(b: seq<DownloadTask>, k: nat)
    requires k < |b|
    ensures ConfigsOf(b[..k] + b[k + 1..]) == ConfigsOf(b)[..k] + ConfigsOf(b)[k + 1..]
  {
    var l := ConfigsOf(b[..k] + b[k + 1..]);
    var r := ConfigsOf(b)[..k] + ConfigsOf(b)[k + 1..];
    assert |l| == |r|;
    forall j | 0 <= j < |l|
      ensures l[j] == r[j]
    {
      if j < k {
        assert (b[..k] + b[k + 1..])[j] == b[j];
      } else {
        assert (b[..k] + b[k + 1..])[j] == b[j + 1];
      }
    }
  }

  /** Removing the element at `k` removes one occurrence of it from the multiset. */
  lemma RemoveAt<T>(b: seq<T>, k: nat)
    requires k < |b|
    ensures multiset(b) == multiset(b[..k] + b[k + 1..]) + multiset{b[k]}
  {
    assert b == b[..k] + [b[k]] + b[k + 1..];
  }

  /** Taking the first element out of `a` and a copy of it out of `b` leaves equal multisets. */
  lemma RemoveMatching<T>(a: seq<T>, b: seq<T>, k: nat)
    requires a != [] && k < |b| && b[k] == a[0] && multiset(a) == multiset(b)
    ensures multiset(a[1..]) == multiset(b[..k] + b[k + 1..])
  {
    assert a == [a[0]] + a[1..];
    RemoveAt(b, k);
    var x := multiset(a[1..]);
    var y := multiset(b[..k] + b[k + 1..]);
    assert x + multiset{a[0]} == y + multiset{a[0]};
    assert forall z :: x[z] == (x + multiset{a[0]})[z] - multiset{a[0]}[z];
  }

  /** Two lists holding the same tasks hold the same construction arguments. */
  lemma {:induction false} ConfigsPermute(a: seq<DownloadTask>, b: seq<DownloadTask>)
    requires multiset(a) == multiset(b)
    ensures multiset(ConfigsOf(a)) == multiset(ConfigsOf(b))
    decreases |a|
  {
    if a != [] {
      assert a[0] in multiset(b);
      var k :| 0 <= k < |b| && b[k] == a[0];
      var rest := b[..k] + b[k + 1..];
      RemoveMatching(a, b, k);
      ConfigsPermute(a[1..], rest);
      var ca := ConfigsOf(a);
      var cb := ConfigsOf(b);
      ConfigsRemoveAt(b, k);
      RemoveAt(cb, k);
      RemoveAt(ca, 0);
      assert ca[..0] + ca[1..] == ConfigsOf(a[1..]);
    }
  }

  /** Adding a task to a list adds its construction arguments to those of the list, wherever it lands. */
  lemma ConfigsAdded(ts: seq<DownloadTask>, t: DownloadTask, us: seq<DownloadTask>)
    requires multiset(us) == multiset(ts) + multiset{t}
    ensures multiset(ConfigsOf(us)) == multiset(ConfigsOf(ts)) + multiset{t.Config()}
  {
    assert multiset(ts + [t]) == multiset(ts) + multiset{t};
    ConfigsPermute(us, ts + [t]);
    assert ConfigsOf(ts + [t]) == ConfigsOf(ts) + [t.Config()];
  }

  /** `StatesOf(ts)` is `ss` when every task of `ts` has the value at its position in `ss`. */
  lemma StatesOfIs(ts: seq<DownloadTask>, ss: seq<TaskState>)
    requires |ts| == |ss|
    requires forall j :: 0 <= j < |ts| ==> ts[j].State() == ss[j]
    ensures StatesOf(ts) == ss
  {
  }

  lemma StatesOfAppend(ts: seq<DownloadTask>, t: DownloadTask)
    ensures StatesOf(ts + [t]) == StatesOf(ts) + [t.State()]
  {
    var l := ts + [t];
    var r := StatesOf(ts) + [t.State()];
    forall j | 0 <= j < |l|
      ensures StatesOf(l)[j] == r[j]
    {
      if j < |ts| {
        assert l[j] == ts[j];
      } else {
        assert l[j] == t;
      }
    }
  }

  /** `a` may come before `b`: the key `(not is_active, -priority)` of `a` is at most that of `b`. */
  predicate KeyLe(a: TaskState, b: TaskState) {
    || (a.status == Downloading && b.status != Downloading)
    || ((a.status == Downloading) == (b.status == Downloading) && a.priority >= b.priority)
  }

  /** `a` and `b` have the same sort key. */
  predicate SameKey(a: TaskState, b: TaskState) {
    (a.status == Downloading) == (b.status == Downloading) && a.priority == b.priority
  }

  /** Every downloading task comes first, and within each group priority does not increase. */
  predicate PriorityOrdered(ss: seq<TaskState>) {
    forall i, j :: 0 <= i < j < |ss| ==>
      && (ss[j].status == Downloading ==> ss[i].status == Downloading)
      && ((ss[i].status == Downloading) == (ss[j].status == Downloading) ==> ss[i].priority >= ss[j].priority)
  }

  // ----- the sort over (task, value) pairs -----

  /** A task paired with the value its sort key was computed from. */
  type Keyed = (DownloadTask, TaskState)

  function Zip(ts: seq<DownloadTask>, ss: seq<TaskState>): (r: seq<Keyed>)
    requires |ts| == |ss|
    ensures |r| == |ts|
    ensures forall i :: 0 <= i < |r| ==> r[i] == (ts[i], ss[i])
  {
    if ts == [] then [] else [(ts[0], ss[0])] + Zip(ts[1..], ss[1..])
  }

  function Tasks(ks: seq<Keyed>): (r: seq<DownloadTask>)
    ensures |r| == |ks|
    ensures forall i :: 0 <= i < |r| ==> r[i] == ks[i].0
  {
    if ks == [] then [] else [ks[0].0] + Tasks(ks[1..])
  }

  function Keys(ks: seq<Keyed>): (r: seq<TaskState>)
    ensures |r| == |ks|
    ensures forall i :: 0 <= i < |r| ==> r[i] == ks[i].1
  {
    if ks == [] then [] else [ks[0].1] + Keys(ks[1..])
  }

  lemma TasksCons(x: Keyed, ks: seq<Keyed>)
    ensures Tasks([x] + ks) == [x.0] + Tasks(ks)
  {
    assert ([x] + ks)[1..] == ks;
  }

  /** Puts `x` before the first pair whose key is not smaller than its own. */
  function Insert(x: Keyed, ks: seq<Keyed>): (r: seq<Keyed>)
    ensures multiset(r) == multiset(ks) + multiset{x}
    ensures multiset(Tasks(r)) == multiset(Tasks(ks)) + multiset{x.0}
  {
    if ks == [] || KeyLe(x.1, ks[0].1) then
      TasksCons(x, ks);
      [x] + ks
    else
      var rest := ks[1..];
      assert ks == [ks[0]] + rest;
      TasksCons(ks[0], rest);
      TasksCons(ks[0], Insert(x, rest));
      [ks[0]] + Insert(x, rest)
  }

  /** Insertion sort: stable, like Python's `list.sort`. */
  function Sort(ks: seq<Keyed>): (r: seq<Keyed>)
    ensures multiset(r) == multiset(ks)
    ensures multiset(Tasks(r)) == multiset(Tasks(ks))
  {
    if ks == [] then []
    else
      assert ks == [ks[0]] + ks[1..];
      TasksCons(ks[0], ks[1..]);
      Insert(ks[0], Sort(ks[1..]))
  }

  /** The task list after `_sort_by_priority`: a rearrangement of the same tasks. */
  function SortByPriority(ts: seq<DownloadTask>): (r: seq<DownloadTask>)
    reads ts
    ensures multiset(r) == multiset(ts)
  {
    var zs := Zip(ts, StatesOf(ts));
    assert Tasks(zs) == ts;
    Tasks(Sort(zs))
  }

  // ----- the sort orders by key -----

  /** The key of every pair may come before the key of every later one. */
  predicate Ordered(ks: seq<Keyed>) {
    forall i, j :: 0 <= i < j < |ks| ==> KeyLe(ks[i].1, ks[j].1)
  }

  /** A pair that may come before every pair of an ordered list extends it to an ordered list. */
  lemma OrderedCons(x: Keyed, rest: seq<Keyed>)
    requires Ordered(rest)
    requires forall m :: 0 <= m < |rest| ==> KeyLe(x.1, rest[m].1)
    ensures Ordered([x] + rest)
  {
    var r := [x] + rest;
    forall i, j | 0 <= i < j < |r|
      ensures KeyLe(r[i].1, r[j].1)
    {
      assert r[j] == rest[j - 1];
      if i > 0 {
        assert r[i] == rest[i - 1];
      }
    }
  }

  /** The tail of an ordered list is ordered. */
  lemma OrderedTail(ks: seq<Keyed>)
    requires Ordered(ks) && ks != []
    ensures Ordered(ks[1..])
  {
    var tail := ks[1..];
    forall i, j | 0 <= i < j < |tail|
      ensures KeyLe(tail[i].1, tail[j].1)
    {
      assert tail[i] == ks[i + 1] && tail[j] == ks[j + 1];
    }
  }

  /** The head of an ordered list may come before every pair of its tail. */
  lemma HeadFirst(ks: seq<Keyed>, y: Keyed)
    requires Ordered(ks) && ks != [] && y in multiset(ks[1..])
    ensures KeyLe(ks[0].1, y.1)
  {
    var n :| 0 <= n < |ks| - 1 && ks[1..][n] == y;
    assert ks[n + 1] == y;
  }

  lemma {:induction false} InsertOrdered(x: Keyed, ks: seq<Keyed>)
    requires Ordered(ks)
    ensures Ordered(Insert(x, ks))
  {
    if ks == [] || KeyLe(x.1, ks[0].1) {
      OrderedCons(x, ks);
    } else {
      var tail := ks[1..];
      OrderedTail(ks);
      InsertOrdered(x, tail);
      var rest := Insert(x, tail);
      forall m | 0 <= m < |rest|
        ensures KeyLe(ks[0].1, rest[m].1)
      {
        var y := rest[m];
        assert y in multiset(rest);
        if y != x {
          HeadFirst(ks, y);
        }
      }
      OrderedCons(ks[0], rest);
    }
  }

  lemma {:induction false} SortIsOrdered(ks: seq<Keyed>)
    ensures Ordered(Sort(ks))
  {
    if ks != [] {
      SortIsOrdered(ks[1..]);
      InsertOrdered(ks[0], Sort(ks[1..]));
    }
  }

  // ----- the sort is stable -----

  /** The pairs of `ks` whose key is that of `k`, in list order. */
  function Matching(ks: seq<Keyed>, k: TaskState): seq<Keyed>
  {
    if ks == [] then []
    else if SameKey(ks[0].1, k) then [ks[0]] + Matching(ks[1..], k)
    else Matching(ks[1..], k)
  }

  lemma MatchingCons(x: Keyed, ks: seq<Keyed>, k: TaskState)
    ensures Matching([x] + ks, k) == (if SameKey(x.1, k) then [x] else []) + Matching(ks, k)
  {
    assert ([x] + ks)[0] == x && ([x] + ks)[1..] == ks;
  }

  lemma {:induction false} InsertStable(x: Keyed, ks: seq<Keyed>, k: TaskState)
    ensures Matching(Insert(x, ks), k) == Matching([x] + ks, k)
  {
    if ks == [] || KeyLe(x.1, ks[0].1) {
    } else {
      var rest := ks[1..];
      assert ks == [ks[0]] + rest;
      InsertStable(x, rest, k);
      var h0 := if SameKey(ks[0].1, k) then [ks[0]] else [];
      var hx := if SameKey(x.1, k) then [x] else [];
      MatchingCons(ks[0], Insert(x, rest), k);
      MatchingCons(x, rest, k);
      MatchingCons(x, ks, k);
      MatchingCons(ks[0], rest, k);
      assert h0 == [] || hx == [];
      calc {
        Matching(Insert(x, ks), k);
        h0 + (hx + Matching(rest, k));
        { Assoc(h0, hx, Matching(rest, k)); }
        (h0 + hx) + Matching(rest, k);
        (hx + h0) + Matching(rest, k);
        { Assoc(hx, h0, Matching(rest, k)); }
        hx + (h0 + Matching(rest, k));
        Matching([x] + ks, k);
      }
    }
  }

  lemma {:induction false} SortKeepsMatching(ks: seq<Keyed>, k: TaskState)
    ensures Matching(Sort(ks), k) == Matching(ks, k)
  {
    if ks != [] {
      var rest := ks[1..];
      assert ks == [ks[0]] + rest;
      SortKeepsMatching(rest, k);
      InsertStable(ks[0], Sort(rest), k);
      MatchingCons(ks[0], Sort(rest), k);
      MatchingCons(ks[0], rest, k);
    }
  }

  // ----- back from pairs to tasks -----

  /** Sorting the pairs of a list keeps every pair holding its task's current value. */
  lemma SortKeepsValue(ts: seq<DownloadTask>, ys: seq<Keyed>, i: int)
    requires ys == Sort(Zip(ts, StatesOf(ts))) && 0 <= i < |ys|
    ensures ys[i].1 == ys[i].0.State()
  {
    var zs := Zip(ts, StatesOf(ts));
    assert ys[i] in multiset(zs);
    var n :| 0 <= n < |zs| && zs[n] == ys[i];
  }

  /** The states of the sorted list are the keys of the sorted pairs. */
  lemma SortedStates(ts: seq<DownloadTask>)
    ensures StatesOf(SortByPriority(ts)) == Keys(Sort(Zip(ts, StatesOf(ts))))
  {
    var ys := Sort(Zip(ts, StatesOf(ts)));
    var r := SortByPriority(ts);
    assert r == Tasks(ys);
    forall j | 0 <= j < |r|
      ensures r[j].State() == Keys(ys)[j]
    {
      SortKeepsValue(ts, ys, j);
    }
    StatesOfIs(r, Keys(ys));
  }

  /** Pairing the sorted list with its states gives back the sorted pairs. */
  lemma SortedPairs(ts: seq<DownloadTask>)
    ensures Zip(SortByPriority(ts), StatesOf(SortByPriority(ts))) == Sort(Zip(ts, StatesOf(ts)))
  {
    var ys := Sort(Zip(ts, StatesOf(ts)));
    var r := SortByPriority(ts);
    SortedStates(ts);
    assert Zip(r, Keys(ys)) == ys;
  }

  /** After `_sort_by_priority`, downloading tasks come first and priority does not increase within each group. */
  lemma SortOrdered(ts: seq<DownloadTask>)
    ensures PriorityOrdered(StatesOf(SortByPriority(ts)))
  {
    var ys := Sort(Zip(ts, StatesOf(ts)));
    SortIsOrdered(Zip(ts, StatesOf(ts)));
    SortedStates(ts);
    var ss := Keys(ys);
    forall i, j | 0 <= i < j < |ss|
      ensures && (ss[j].status == Downloading ==> ss[i].status == Downloading)
              && ((ss[i].status == Downloading) == (ss[j].status == Downloading) ==> ss[i].priority >= ss[j].priority)
    {
      assert KeyLe(ys[i].1, ys[j].1);
    }
  }

  /** The tasks of `ts` whose sort key is that of `k`, in list order. */
  function WithKeyOf(ts: seq<DownloadTask>, k: TaskState): seq<DownloadTask>
    reads ts
  {
    Tasks(Matching(Zip(ts, StatesOf(ts)), k))
  }

  /** The sort is stable: tasks with equal keys keep their relative order. */
  lemma SortStable(ts: seq<DownloadTask>, k: TaskState)
    ensures WithKeyOf(SortByPriority(ts), k) == WithKeyOf(ts, k)
  {
    SortedPairs(ts);
    SortKeepsMatching(Zip(ts, StatesOf(ts)), k);
  }

  // ----- the same sort on task values alone -----

  /** `Insert` on values: the new value goes before the first one whose key is not smaller. */
  function InsertState(s: TaskState, ss: seq<TaskState>): (r: seq<TaskState>)
    ensures multiset(r) == multiset(ss) + multiset{s}
  {
    if ss == [] || KeyLe(s, ss[0]) then [s] + ss
    else
      assert ss == [ss[0]] + ss[1..];
      [ss[0]] + InsertState(s, ss[1..])
  }

  /** `Sort` on values: what `_sort_by_priority` does to the states of a list. */
  function SortStates(ss: seq<TaskState>): (r: seq<TaskState>)
    ensures multiset(r) == multiset(ss)
  {
    if ss == [] then []
    else
      assert ss == [ss[0]] + ss[1..];
      InsertState(ss[0], SortStates(ss[1..]))
  }

  lemma {:induction false} KeysOfInsert(x: Keyed, ks: seq<Keyed>)
    ensures Keys(Insert(x, ks)) == InsertState(x.1, Keys(ks))
  {
    if ks != [] && !KeyLe(x.1, ks[0].1) {
      KeysOfInsert(x, ks[1..]);
      assert Keys(ks)[1..] == Keys(ks[1..]);
    }
  }

  lemma {:induction false} KeysOfSort(ks: seq<Keyed>)
    ensures Keys(Sort(ks)) == SortStates(Keys(ks))
  {
    if ks != [] {
      KeysOfSort(ks[1..]);
      KeysOfInsert(ks[0], Sort(ks[1..]));
      assert Keys(ks)[1..] == Keys(ks[1..]);
    }
  }

  /** Sorting a task list sorts its states: the order depends on nothing but the states. */
  lemma SortByPriorityStates(ts: seq<DownloadTask>)
    ensures StatesOf(SortByPriority(ts)) == SortStates(StatesOf(ts))
  {
    var ss := StatesOf(ts);
    var zs := Zip(ts, ss);
    SortedStates(ts);
    KeysOfSort(zs);
    KeysOfZip(ts, ss);
  }

  lemma KeysOfZip(ts: seq<DownloadTask>, ss: seq<TaskState>)
    requires |ts| == |ss|
    ensures Keys(Zip(ts, ss)) == ss
  {
  }
}
