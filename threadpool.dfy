// The work-stealing thread pool, as a sequential model: the queues, the
// order in which a worker looks for work, and the idle/done flags. Threads,
// mutexes, atomics and futures are not modelled; a task is an opaque token.
module ThreadPool {
  import opened Common

  /** An opaque task (the wrapped std::packaged_task). */
  type Task = nat

  // ---- mvWorkStealingQueue on values ----

  /** The queue after removing its front (try_pop). */
  function PoppedFront(q: seq<Task>): seq<Task>
    requires q != []
  {
    q[1..]
  }

  /** The queue after removing its back (try_steal). */
  function PoppedBack(q: seq<Task>): seq<Task>
    requires q != []
  {
    q[..|q| - 1]
  }

  /**
   * push appends at the back: a try_steal right after takes the pushed task
   * and restores the queue; a try_pop takes the oldest task, which is the
   * pushed one only on an empty queue. Removal keeps the remaining order.
   */
  lemma DequeLaws(q: seq<Task>, t: Task)
    ensures PoppedBack(q + [t]) == q && (q + [t])[|q|] == t
    ensures (q + [t])[0] == if q == [] then t else q[0]
    ensures q != [] ==> PoppedFront(q + [t]) == PoppedFront(q) + [t]
    ensures q != [] ==> q == [q[0]] + PoppedFront(q) && q == PoppedBack(q) + [q[|q| - 1]]
  {
    if q != [] {
      assert (q + [t])[1..] == q[1..] + [t];
    }
  }

  class WorkQueue {
    var items: seq<Task>

    constructor()
      ensures items == []
    {
      items := [];
    }

    method Push(t: Task)
      modifies this
      ensures items == old(items) + [t]
    {
      items := items + [t];
    }

    method Empty() returns (e: bool)
      ensures e <==> items == []
    {
      e := |items| == 0;
    }

    method TryPop() returns (ok: bool, t: Task)
      modifies this
      ensures ok <==> old(items) != []
      ensures ok ==> t == old(items)[0] && items == PoppedFront(old(items))
      ensures !ok ==> items == old(items)
    {
      if |items| == 0 {
        return false, 0;
      }
      t := items[0];
      items := items[1..];
      ok := true;
    }

    method TrySteal() returns (ok: bool, t: Task)
      modifies this
      ensures ok <==> old(items) != []
      ensures ok ==> t == old(items)[|old(items)| - 1] && items == PoppedBack(old(items))
      ensures !ok ==> items == old(items)
    {
      if |items| == 0 {
        return false, 0;
      }
      t := items[|items| - 1];
      items := items[..|items| - 1];
      ok := true;
    }
  }

  // ---- Sizing and victim order ----

  /** The constructor's worker count: the argument, or the hardware concurrency when it is 0. */
  function ThreadCount(threadcount: nat, hardware: nat): (n: nat)
    ensures threadcount > 0 ==> n == threadcount
    ensures threadcount == 0 ==> n == hardware
  {
    if threadcount == 0 then hardware else threadcount
  }

  /** The queue indices pop_task_from_other_thread_queue visits, in order. */
  function VictimOrder(index: nat, n: nat): seq<nat>
    requires n > 0
  {
    seq(n, i requires 0 <= i < n => (index + i + 1) % n)
  }

  lemma ModOnce(x: int, n: int)
    requires 0 < n && 0 <= x < 2 * n
    ensures x % n == if x < n then x else x - n
  {
    if x >= n {
      assert x == n + (x - n);
    }
  }

  /**
   * The victim scan visits every queue exactly once and the worker's own
   * queue last.
   */
  lemma VictimOrderVisitsAll(index: nat, n: nat)
    requires index < n
    ensures |VictimOrder(index, n)| == n
    ensures forall i :: 0 <= i < n ==> VictimOrder(index, n)[i] < n
    ensures forall i, j :: 0 <= i < j < n ==> VictimOrder(index, n)[i] != VictimOrder(index, n)[j]
    ensures forall k :: 0 <= k < n ==> k in VictimOrder(index, n)
    ensures VictimOrder(index, n)[n - 1] == index
  {
    var vo := VictimOrder(index, n);
    forall i | 0 <= i < n
      ensures vo[i] == if index + i + 1 < n then index + i + 1 else index + i + 1 - n
    {
      ModOnce(index + i + 1, n);
    }
    forall k | 0 <= k < n
      ensures k in vo
    {
      var i := if k > index then k - index - 1 else k + n - index - 1;
      assert vo[i] == k;
    }
  }

  /** The first queue in the given order that holds a task. */
  function FirstNonEmpty(queues: seq<seq<Task>>, order: seq<nat>): (r: Option<nat>)
    requires forall i :: 0 <= i < |order| ==> order[i] < |queues|
    ensures r.Some? ==> r.value < |queues| && queues[r.value] != [] && r.value in order
    ensures r.None? <==> forall i :: 0 <= i < |order| ==> queues[order[i]] == []
    decreases |order|
  {
    if |order| == 0 then None
    else if queues[order[0]] != [] then Some(order[0])
    else FirstNonEmpty(queues, order[1..])
  }

  /** A position whose queue holds a task, after positions whose queues are all empty, is the first. */
  lemma {:induction false} FirstNonEmptyAt(queues: seq<seq<Task>>, order: seq<nat>, j: nat)
    requires forall i :: 0 <= i < |order| ==> order[i] < |queues|
    requires j < |order| && queues[order[j]] != []
    requires forall i :: 0 <= i < j ==> queues[order[i]] == []
    ensures FirstNonEmpty(queues, order) == Some(order[j])
    decreases j
  {
    if j > 0 {
      FirstNonEmptyAt(queues, order[1..], j - 1);
    }
  }

  /** Where run_pending_task finds its next task. */
  datatype TaskSource = Local | Shared | Other(victim: nat) | NoTask

  /** run_pending_task's priority: the worker's own queue, then the pool's, then the victim scan. */
  function Pick(queues: seq<seq<Task>>, pool: seq<Task>, index: nat): TaskSource
    requires index < |queues|
  {
    if queues[index] != [] then Local
    else if pool != [] then Shared
    else
      VictimOrderVisitsAll(index, |queues|);
      match FirstNonEmpty(queues, VictimOrder(index, |queues|))
      case Some(k) => Other(k)
      case None => NoTask
  }

  /**
   * The source priority: the own queue whenever it has work, the pool
   * queue only when the own queue is empty, another worker's queue only
   * when both are empty, and no task only when every queue is empty.
   */
  lemma PickPriority(queues: seq<seq<Task>>, pool: seq<Task>, index: nat)
    requires index < |queues|
    ensures Pick(queues, pool, index) == Local <==> queues[index] != []
    ensures Pick(queues, pool, index) == Shared <==> queues[index] == [] && pool != []
    ensures Pick(queues, pool, index).Other? ==>
      queues[index] == [] && pool == [] && Pick(queues, pool, index).victim != index
      && Pick(queues, pool, index).victim < |queues| && queues[Pick(queues, pool, index).victim] != []
    ensures Pick(queues, pool, index) == NoTask <==>
      pool == [] && forall k :: 0 <= k < |queues| ==> queues[k] == []
  {
    VictimOrderVisitsAll(index, |queues|);
    var vo := VictimOrder(index, |queues|);
    if queues[index] == [] && pool == [] && FirstNonEmpty(queues, vo).None? {
      forall k | 0 <= k < |queues|
        ensures queues[k] == []
      {
        var n := |queues|;
        var i := if k > index then k - index - 1 else k + n - index - 1;
        ModOnce(index + i + 1, n);
        assert vo[i] == k;
      }
    }
  }

  /** Every task held by the worker queues. */
  function QueueTasks(queues: seq<seq<Task>>): multiset<Task>
    decreases |queues|
  {
    if |queues| == 0 then multiset{}
    else QueueTasks(queues[..|queues| - 1]) + multiset(queues[|queues| - 1])
  }

  /** Every task held by the pool queue and the worker queues. */
  function AllTasks(queues: seq<seq<Task>>, pool: seq<Task>): multiset<Task>
  {
    multiset(pool) + QueueTasks(queues)
  }

  lemma {:induction false} QueueTasksUpdate(queues: seq<seq<Task>>, k: nat, q: seq<Task>)
    requires k < |queues|
    ensures QueueTasks(queues[k := q]) + multiset(queues[k]) == QueueTasks(queues) + multiset(q)
    decreases |queues|
  {
    var last := |queues| - 1;
    var upd := queues[k := q];
    if k < last {
      assert upd[..last] == queues[..last][k := q];
      assert queues[..last][k] == queues[k];
      QueueTasksUpdate(queues[..last], k, q);
      calc {
        QueueTasks(upd) + multiset(queues[k]);
        (QueueTasks(upd[..last]) + multiset(queues[last])) + multiset(queues[k]);
        (QueueTasks(upd[..last]) + multiset(queues[k])) + multiset(queues[last]);
        (QueueTasks(queues[..last]) + multiset(q)) + multiset(queues[last]);
        QueueTasks(queues) + multiset(q);
      }
    } else {
      assert upd[..last] == queues[..last];
    }
  }

  lemma AllTasksUpdate(queues: seq<seq<Task>>, pool: seq<Task>, k: nat, q: seq<Task>)
    requires k < |queues|
    ensures AllTasks(queues[k := q], pool) + multiset(queues[k]) == AllTasks(queues, pool) + multiset(q)
  {
    QueueTasksUpdate(queues, k, q);
    calc {
      AllTasks(queues[k := q], pool) + multiset(queues[k]);
      multiset(pool) + (QueueTasks(queues[k := q]) + multiset(queues[k]));
      multiset(pool) + (QueueTasks(queues) + multiset(q));
      AllTasks(queues, pool) + multiset(q);
    }
  }

  lemma Cancel(a: multiset<Task>, b: multiset<Task>, c: multiset<Task>)
    requires a + c == b + c
    ensures a == b
  {
    forall x
      ensures a[x] == b[x]
    {
      assert (a + c)[x] == (b + c)[x];
    }
  }

  /** Taking the front of a non-empty queue removes exactly that one task from the pool's work. */
  lemma TakeConserves(queues: seq<seq<Task>>, pool: seq<Task>, k: nat)
    requires k < |queues| && queues[k] != []
    ensures AllTasks(queues[k := PoppedFront(queues[k])], pool) + multiset{queues[k][0]} == AllTasks(queues, pool)
  {
    var rest := PoppedFront(queues[k]);
    assert queues[k] == [queues[k][0]] + rest;
    AllTasksUpdate(queues, pool, k, rest);
    Cancel(AllTasks(queues[k := rest], pool) + multiset{queues[k][0]}, AllTasks(queues, pool), multiset(rest));
  }

  lemma TakePoolConserves(queues: seq<seq<Task>>, pool: seq<Task>)
    requires pool != []
    ensures AllTasks(queues, PoppedFront(pool)) + multiset{pool[0]} == AllTasks(queues, pool)
  {
    assert pool == [pool[0]] + PoppedFront(pool);
  }

  // ---- Idle flags ----

  /** run_pending_task's flag update when it finds no task. */
  function IdleAfterMiss(idling: seq<bool>, waitForIdle: bool, index: nat): seq<bool>
    requires index < |idling|
  {
    if waitForIdle && !idling[index] then idling[index := true] else idling
  }

  /** Workers 0 .. k-1 each finding no task, in turn. */
  function IdleSweep(idling: seq<bool>, waitForIdle: bool, k: nat): (r: seq<bool>)
    requires k <= |idling|
    ensures |r| == |idling|
    decreases k
  {
    if k == 0 then idling else IdleAfterMiss(IdleSweep(idling, waitForIdle, k - 1), waitForIdle, k - 1)
  }

  /**
   * While a wait is in progress, once every worker has found no task each
   * idle flag is set, so the waiting pass can exit; without a wait no flag
   * changes.
   */
  lemma {:induction false} IdleSweepSetsFlags(idling: seq<bool>, waitForIdle: bool, k: nat)
    requires k <= |idling|
    ensures |IdleSweep(idling, waitForIdle, k)| == |idling|
    ensures waitForIdle ==> forall i :: 0 <= i < k ==> IdleSweep(idling, waitForIdle, k)[i]
    ensures forall i :: k <= i < |idling| ==> IdleSweep(idling, waitForIdle, k)[i] == idling[i]
    ensures !waitForIdle ==> IdleSweep(idling, waitForIdle, k) == idling
    decreases k
  {
    if k > 0 {
      IdleSweepSetsFlags(idling, waitForIdle, k - 1);
    }
  }

  /** The pool: its shared queue, one queue and one idle flag per worker, and the two flags. */
  class Pool {
    var poolQueue: seq<Task>
    var queues: seq<seq<Task>>
    var idling: seq<bool>
    var waitForIdle: bool
    var done: bool

    ghost predicate Valid()
      reads this
    {
      |idling| == |queues|
    }

    /** mvThreadPool(threadcount): one empty queue and one cleared idle flag per worker. */
    constructor(threadcount: nat, hardware: nat)
      ensures Valid()
      ensures |queues| == ThreadCount(threadcount, hardware)
      ensures forall i :: 0 <= i < |queues| ==> queues[i] == [] && !idling[i]
      ensures poolQueue == [] && !waitForIdle && !done
    {
      var n := if threadcount == 0 then hardware else threadcount;
      var qs: seq<seq<Task>> := [];
      var i := 0;
      while i < n
        invariant i <= n && |qs| == i
        invariant forall j :: 0 <= j < i ==> qs[j] == []
      {
        qs := qs + [[]];
        i := i + 1;
      }
      var flags: seq<bool> := [];
      i := 0;
      while i < n
        invariant i <= n && |flags| == i
        invariant forall j :: 0 <= j < i ==> !flags[j]
      {
        flags := flags + [false];
        i := i + 1;
      }
      poolQueue := [];
      queues := qs;
      idling := flags;
      waitForIdle := false;
      done := false;
    }

    /** submit: a worker pushes onto its own queue; any other thread onto the pool queue. */
    method Submit(worker: Option<nat>, t: Task)
      requires worker.Some? ==> worker.value < |queues|
      modifies this
      ensures worker.Some? ==>
        queues == old(queues)[worker.value := old(queues)[worker.value] + [t]] && poolQueue == old(poolQueue)
      ensures worker.None? ==> poolQueue == old(poolQueue) + [t] && queues == old(queues)
      ensures idling == old(idling) && waitForIdle == old(waitForIdle) && done == old(done)
      ensures AllTasks(queues, poolQueue) == old(AllTasks(queues, poolQueue)) + multiset{t}
    {
      match worker
      case Some(i) =>
        AllTasksUpdate(queues, poolQueue, i, queues[i] + [t]);
        Cancel(AllTasks(queues[i := queues[i] + [t]], poolQueue), AllTasks(queues, poolQueue) + multiset{t}, multiset(queues[i]));
        queues := queues[i := queues[i] + [t]];
      case None =>
        poolQueue := poolQueue + [t];
    }

    /** pop_task_from_other_thread_queue: the first non-empty queue in victim order gives up its front. */
    method PopFromOtherQueue(index: nat) returns (task: Option<Task>)
      requires index < |queues|
      modifies this
      ensures var v := FirstNonEmpty(old(queues), VictimOrder(index, |old(queues)|));
        (v.None? ==> task.None? && queues == old(queues))
        && (v.Some? ==> task == Some(old(queues)[v.value][0])
                        && queues == old(queues)[v.value := PoppedFront(old(queues)[v.value])])
      ensures poolQueue == old(poolQueue) && idling == old(idling)
      ensures waitForIdle == old(waitForIdle) && done == old(done)
    {
      var n := |queues|;
      ghost var vo := VictimOrder(index, n);
      VictimOrderVisitsAll(index, n);
      var i := 0;
      while i < n
        invariant 0 <= i <= n && queues == old(queues)
        invariant forall j :: 0 <= j < i ==> queues[vo[j]] == []
      {
        var victim := (index + i + 1) % n;
        assert vo[i] == victim;
        if queues[victim] != [] {
          FirstNonEmptyAt(queues, vo, i);
          task := Some(queues[victim][0]);
          queues := queues[victim := queues[victim][1..]];
          return;
        }
        i := i + 1;
      }
      task := None;
    }

    /**
     * run_pending_task for worker index, without running the task: it is
     * taken from the source Pick names, and a worker that finds nothing
     * sets its idle flag while a wait is in progress.
     */
    method RunPendingTask(index: nat) returns (task: Option<Task>)
      requires Valid() && index < |queues|
      modifies this
      ensures Valid()
      ensures var src := Pick(old(queues), old(poolQueue), index);
        match src
        case Local =>
          task == Some(old(queues)[index][0]) && queues == old(queues)[index := PoppedFront(old(queues)[index])]
          && poolQueue == old(poolQueue) && idling == old(idling)
        case Shared =>
          task == Some(old(poolQueue)[0]) && poolQueue == PoppedFront(old(poolQueue))
          && queues == old(queues) && idling == old(idling)
        case Other(k) =>
          k < |old(queues)| && old(queues)[k] != []
          && task == Some(old(queues)[k][0]) && queues == old(queues)[k := PoppedFront(old(queues)[k])]
          && poolQueue == old(poolQueue) && idling == old(idling)
        case NoTask =>
          task.None? && queues == old(queues) && poolQueue == old(poolQueue)
          && idling == IdleAfterMiss(old(idling), old(waitForIdle), index)
      ensures waitForIdle == old(waitForIdle) && done == old(done)
      ensures task.Some? ==> AllTasks(queues, poolQueue) + multiset{task.value} == old(AllTasks(queues, poolQueue))
    {
      if queues[index] != [] {
        TakeConserves(queues, poolQueue, index);
        task := Some(queues[index][0]);
        queues := queues[index := queues[index][1..]];
      } else if poolQueue != [] {
        TakePoolConserves(queues, poolQueue);
        task := Some(poolQueue[0]);
        poolQueue := poolQueue[1..];
      } else {
        task := StealOrIdle(index);
      }
    }

    /**
     * The last part of run_pending_task, both queues it looks at first being
     * empty: a task from the first non-empty queue in victim order, or else
     * the idle flag when a wait is in progress.
     */
    method StealOrIdle(index: nat) returns (task: Option<Task>)
      requires Valid() && index < |queues| && queues[index] == [] && poolQueue == []
      modifies this
      ensures Valid()
      ensures var v := FirstNonEmpty(old(queues), VictimOrder(index, |old(queues)|));
        match v
        case Some(k) =>
          k < |old(queues)| && old(queues)[k] != []
          && task == Some(old(queues)[k][0]) && queues == old(queues)[k := PoppedFront(old(queues)[k])]
          && idling == old(idling)
          && AllTasks(queues, poolQueue) + multiset{task.value} == old(AllTasks(queues, poolQueue))
        case None =>
          task.None? && queues == old(queues) && idling == IdleAfterMiss(old(idling), old(waitForIdle), index)
      ensures poolQueue == old(poolQueue) && waitForIdle == old(waitForIdle) && done == old(done)
    {
      VictimOrderVisitsAll(index, |queues|);
      ghost var v := FirstNonEmpty(queues, VictimOrder(index, |queues|));
      if v.Some? {
        TakeConserves(queues, poolQueue, v.value);
      }
      task := PopFromOtherQueue(index);
      if task.None? {
        if waitForIdle && !idling[index] {
          idling := idling[index := true];
        }
      }
    }

    /** One pass of wait_for_idle's loop: whether every idle flag reads true. */
    method AllIdle() returns (finished: bool)
      ensures finished <==> forall i :: 0 <= i < |idling| ==> idling[i]
    {
      finished := true;
      var i := 0;
      while i < |idling|
        invariant 0 <= i <= |idling|
        invariant finished <==> forall j :: 0 <= j < i ==> idling[j]
      {
        if !idling[i] {
          finished := false;
        }
        i := i + 1;
      }
    }

    /**
     * wait_for_idle, one turn of its loop: the wait flag is raised and the
     * flags are read; when all read true the wait ends, the wait flag is
     * cleared and every idle flag is reset. Otherwise the wait goes on
     * (the caller repeats the turn while workers run).
     */
    method WaitForIdleTurn() returns (finished: bool)
      requires Valid()
      modifies this
      ensures Valid()
      ensures finished <==> forall i :: 0 <= i < |old(idling)| ==> old(idling)[i]
      ensures finished ==> !waitForIdle && |idling| == |old(idling)| && forall i :: 0 <= i < |idling| ==> !idling[i]
      ensures !finished ==> waitForIdle && idling == old(idling)
      ensures queues == old(queues) && poolQueue == old(poolQueue) && done == old(done)
    {
      waitForIdle := true;
      finished := AllIdle();
      if finished {
        waitForIdle := false;
        var i := 0;
        while i < |idling|
          invariant 0 <= i <= |idling| && |idling| == |old(idling)|
          invariant forall j :: 0 <= j < i ==> !idling[j]
          invariant Valid() && !waitForIdle
          invariant queues == old(queues) && poolQueue == old(poolQueue) && done == old(done)
        {
          idling := idling[i := false];
          i := i + 1;
        }
      }
    }

    /** wait_for_finished: once the idle wait ends, done is set. */
    method WaitForFinishedTurn() returns (finished: bool)
      requires Valid()
      modifies this
      ensures Valid()
      ensures finished <==> forall i :: 0 <= i < |old(idling)| ==> old(idling)[i]
      ensures done <==> finished || old(done)
      ensures finished ==> !waitForIdle && forall i :: 0 <= i < |idling| ==> !idling[i]
      ensures !finished ==> waitForIdle && idling == old(idling)
      ensures queues == old(queues) && poolQueue == old(poolQueue)
    {
      finished := WaitForIdleTurn();
      if finished {
        done := true;
      }
    }
  }
}
