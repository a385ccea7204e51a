/**
 * SequentialTaskQueue: a bounded queue of asynchronous tasks. `Queue` is its abstract value and
 * `Settle` what schedule() does to it.
 */
module TaskQueues {
  import opened Sequences
  import opened Wrappers

  type TaskId = nat

  /** `maxJobs` is None for Python's True: no bound. */
  datatype Queue = Queue(maxJobs: Option<nat>, waiting: seq<TaskId>, running: set<TaskId>) {
    predicate Room() {
      maxJobs.None? || |running| < maxJobs.value
    }

    /** The truth value of the queue: something waits or runs. */
    predicate Busy() {
      waiting != [] || running != {}
    }

    predicate Holds(t: TaskId) {
      t in waiting || t in running
    }

    /** Nothing waits while there is room: what holds outside schedule(). */
    predicate Saturated() {
      waiting != [] ==> !Room()
    }
  }

  /** A settled queue and the tasks that were started on the way, in order. */
  datatype Settled = Settled(queue: Queue, started: seq<TaskId>)

  /** schedule(): start waiting tasks while there is room, dropping the cancelled ones. */
  function Settle(q: Queue, cancelled: set<TaskId>): Settled
    decreases |q.waiting|
  {
    if q.waiting == [] || !q.Room() then Settled(q, [])
    else
      var t := q.waiting[0];
      var popped := q.(waiting := q.waiting[1..]);
      if t in cancelled then Settle(popped, cancelled)
      else
        var r := Settle(popped.(running := popped.running + {t}), cancelled);
        Settled(r.queue, [t] + r.started)
  }

  lemma StartedSize(running: set<TaskId>, t: TaskId)
    ensures |running + {t}| <= |running| + 1
  {
    assert running + {t} - {t} <= running;
    if t in running {
      assert running + {t} == running;
    }
  }

  /**
   * What scheduling achieves: the queue is saturated, keeps its bound and runs what it ran before
   * together with the started tasks.
   */
  lemma {:induction false} SettleFills(q: Queue, cancelled: set<TaskId>)
    ensures
      var r := Settle(q, cancelled);
      && r.queue.Saturated()
      && r.queue.maxJobs == q.maxJobs
      && (q.maxJobs.Some? && |q.running| <= q.maxJobs.value ==> |r.queue.running| <= q.maxJobs.value)
      && r.queue.running == q.running + Elements(r.started)
    decreases |q.waiting|
  {
    if q.waiting != [] && q.Room() {
      var t := q.waiting[0];
      var popped := q.(waiting := q.waiting[1..]);
      if t in cancelled {
        SettleFills(popped, cancelled);
      } else {
        var next := popped.(running := popped.running + {t});
        var rest := Settle(next, cancelled);
        StartedSize(q.running, t);
        SettleFills(next, cancelled);
        assert Settle(q, cancelled) == Settled(rest.queue, [t] + rest.started);
        hide Settle;
        assert Elements([t] + rest.started) == {t} + Elements(rest.started);
      }
    }
  }

  /** What is left waiting is a suffix of what waited; exactly the live tasks before it are started. */
  lemma {:induction false} SettleTakesPrefix(q: Queue, cancelled: set<TaskId>)
    ensures
      var r := Settle(q, cancelled);
      var k := |q.waiting| - |r.queue.waiting|;
      && 0 <= k
      && r.queue.waiting == q.waiting[k..]
      && r.started == Filter(t => t !in cancelled, q.waiting[..k])
    decreases |q.waiting|
  {
    if q.waiting != [] && q.Room() {
      var t := q.waiting[0];
      var popped := q.(waiting := q.waiting[1..]);
      var next := if t in cancelled then popped else popped.(running := popped.running + {t});
      SettleTakesPrefix(next, cancelled);
      var k := |q.waiting| - |Settle(q, cancelled).queue.waiting|;
      assert q.waiting[..k][1..] == next.waiting[..k - 1];
    } else {
      assert q.waiting[..0] == [];
    }
  }

  /** Adding one task to a saturated queue starts that task or nothing. */
  lemma SettleAdded(q: Queue, t: TaskId, front: bool)
    requires q.Saturated()
    ensures
      var added := q.(waiting := if front then [t] + q.waiting else q.waiting + [t]);
      Settle(added, {}) ==
        if q.Room() then Settled(q.(running := q.running + {t}), [t]) else Settled(added, [])
  {
    var added := q.(waiting := if front then [t] + q.waiting else q.waiting + [t]);
    if q.Room() {
      assert added.waiting == [t];
      assert Settle(q.(running := q.running + {t}), {}).started == [];
    }
  }

  /** When one running task leaves a saturated queue, the head of the queue is all that starts. */
  lemma SettleExited(q: Queue, t: TaskId)
    requires q.Saturated() && t in q.running
    requires q.maxJobs.Some? && |q.running| <= q.maxJobs.value
    requires q.waiting != [] ==> q.waiting[0] !in q.running
    ensures
      var left := q.(running := q.running - {t});
      Settle(left, {}) ==
        if q.waiting == [] then Settled(left, [])
        else Settled(left.(waiting := q.waiting[1..], running := left.running + {q.waiting[0]}), [q.waiting[0]])
  {
    var left := q.(running := q.running - {t});
    if q.waiting != [] {
      var h := q.waiting[0];
      var next := left.(waiting := q.waiting[1..], running := left.running + {h});
      assert |left.running| == |q.running| - 1;
      assert |next.running| == |q.running|;
      assert Settle(next, {}) == Settled(next, []);
      assert Settle(left, {}) == Settled(Settle(next, {}).queue, [h] + []);
    }
  }

  class SequentialTaskQueue {
    var maxJobs: Option<nat>
    var taskQueue: seq<TaskId>
    var runningTasks: set<TaskId>
    var scheduling: bool
    /** The tasks whose start() was called, in order. */
    var started: seq<TaskId>

    ghost function View(): Queue
      reads this
    {
      Queue(maxJobs, taskQueue, runningTasks)
    }

    constructor (max: Option<nat>)
      ensures View() == Queue(max, [], {}) && !scheduling && started == []
    {
      maxJobs, taskQueue, runningTasks, scheduling, started := max, [], {}, false, [];
    }

    method Add(task: TaskId, cancelled: set<TaskId>)
      requires !scheduling
      modifies this
      ensures
        var r := Settle(old(View()).(waiting := old(taskQueue) + [task]), cancelled);
        View() == r.queue && started == old(started) + r.started && !scheduling
    {
      taskQueue := taskQueue + [task];
      Schedule(cancelled);
    }

    method AddFront(task: TaskId, cancelled: set<TaskId>)
      requires !scheduling
      modifies this
      ensures
        var r := Settle(old(View()).(waiting := [task] + old(taskQueue)), cancelled);
        View() == r.queue && started == old(started) + r.started && !scheduling
    {
      taskQueue := [task] + taskQueue;
      Schedule(cancelled);
    }

    /** A call from inside schedule() is ignored. */
    method Schedule(cancelled: set<TaskId>)
      modifies this
      ensures scheduling == old(scheduling)
      ensures old(scheduling) ==> View() == old(View()) && started == old(started)
      ensures !old(scheduling) ==>
        var r := Settle(old(View()), cancelled);
        View() == r.queue && started == old(started) + r.started
    {
      if scheduling {
        return;
      }
      scheduling := true;
      ghost var before, goal := started, Settle(View(), cancelled);
      while taskQueue != [] && (maxJobs.None? || |runningTasks| < maxJobs.value)
        invariant scheduling
        invariant Settle(View(), cancelled).queue == goal.queue
        invariant started + Settle(View(), cancelled).started == before + goal.started
        decreases |taskQueue|
      {
        var task := taskQueue[0];
        taskQueue := taskQueue[1..];
        if task !in cancelled {
          runningTasks := runningTasks + {task};
          ghost var rest := Settle(View(), cancelled).started;
          assert started + ([task] + rest) == (started + [task]) + rest;
          started := started + [task];
        }
      }
      scheduling := false;
    }

    /** The exit listener: the task is removed and, when something waits, the queue is scheduled. */
    method TaskExit(task: TaskId, cancelled: set<TaskId>)
      requires task in runningTasks && !scheduling
      modifies this
      ensures
        var left := old(View()).(running := old(runningTasks) - {task});
        var r := Settle(left, cancelled);
        View() == r.queue && started == old(started) + r.started && !scheduling
    {
      runningTasks := runningTasks - {task};
      if taskQueue != [] {
        Schedule(cancelled);
      }
    }

    /** Empty the queue; every waiting and every running task is told to cancel. */
    method Clear() returns (cancelled: set<TaskId>)
      modifies this
      ensures View() == old(View()).(waiting := []) && started == old(started)
      ensures cancelled == Elements(old(taskQueue)) + old(runningTasks)
      ensures scheduling == old(scheduling)
    {
      cancelled := Elements(taskQueue) + runningTasks;
      taskQueue := [];
    }
  }
}
