/**
 * A task queue together with its tasks and the FIFO event loop that calls _task_exit, over any
 * interleaving of additions, exits, callbacks and cancellations.
 */
module TaskQueueRuns {
  import opened Sequences
  import opened TaskQueues
  import opened Wrappers

  /**
   * A queue with its tasks and event loop. `loop` holds the scheduled _task_exit calls, `exited` the
   * tasks whose return code is set, `added` every task ever given to the queue.
   */
  datatype System = System(
    queue: Queue,
    cancelled: set<TaskId>,
    exited: set<TaskId>,
    loop: seq<TaskId>,
    started: seq<TaskId>,
    added: set<TaskId>)

  datatype Action =
    | AddTask(t: TaskId, front: bool)
    | Exits(t: TaskId)
    | RunCallback
    | CancelTask(t: TaskId)
    | ClearQueue

  function Scheduled(s: System, q: Queue): System {
    var r := Settle(q, s.cancelled);
    s.(queue := r.queue, started := s.started + r.started)
  }

  /** One step. A task is given to the queue once; it exits once, after it was started. */
  function Step(s: System, a: Action): System {
    match a
    case AddTask(t, front) =>
      if t in s.added then s
      else
        var waiting := if front then [t] + s.queue.waiting else s.queue.waiting + [t];
        Scheduled(s.(added := s.added + {t}), s.queue.(waiting := waiting))
    case Exits(t) =>
      if t in s.started && t !in s.exited then s.(exited := s.exited + {t}, loop := s.loop + [t]) else s
    case RunCallback =>
      if s.loop == [] then s
      else
        var left := s.queue.(running := s.queue.running - {s.loop[0]});
        Scheduled(s.(loop := s.loop[1..]), left)
    case CancelTask(t) => s.(cancelled := s.cancelled + {t})
    case ClearQueue =>
      s.(queue := s.queue.(waiting := []),
         cancelled := s.cancelled + Elements(s.queue.waiting) + s.queue.running)
  }

  function Run(s: System, actions: seq<Action>): System
    decreases |actions|
  {
    if actions == [] then s
    else Step(Run(s, actions[..|actions| - 1]), actions[|actions| - 1])
  }

  function Fresh(max: Option<nat>): System {
    System(Queue(max, [], {}), {}, {}, [], [], {})
  }

  /** What every reachable state satisfies. */
  ghost predicate Inv(s: System) {
    && s.queue.Saturated()
    && (s.queue.maxJobs.Some? ==> |s.queue.running| <= s.queue.maxJobs.value)
    && Distinct(s.started)
    && Distinct(s.queue.waiting)
    && Distinct(s.loop)
    && (forall t :: t in s.queue.waiting ==> t !in s.started && t in s.added)
    && (forall t :: t in s.started ==> t in s.added)
    && (forall t :: t in s.queue.running <==> t in s.started && (t !in s.exited || t in s.loop))
    && (forall t :: t in s.loop ==> t in s.exited && t in s.started)
  }

  /** Scheduling from any state that only its queue's saturation fails leaves the invariant. */
  lemma ScheduledKeepsInv(s: System, q: Queue)
    requires q.maxJobs.Some? ==> |q.running| <= q.maxJobs.value
    requires Distinct(s.started) && Distinct(q.waiting) && Distinct(s.loop)
    requires forall t :: t in q.waiting ==> t !in s.started && t in s.added && t !in s.exited
    requires forall t :: t in s.started ==> t in s.added
    requires forall t :: t in q.running <==> t in s.started && (t !in s.exited || t in s.loop)
    requires forall t :: t in s.loop ==> t in s.exited && t in s.started
    ensures Inv(Scheduled(s, q))
  {
    SettleFills(q, s.cancelled);
    SettleTakesPrefix(q, s.cancelled);
    var r := Settle(q, s.cancelled);
    var k := |q.waiting| - |r.queue.waiting|;
    var head := q.waiting[..k];
    FilterDistinct(t => t !in s.cancelled, head);
    DistinctSplit(q.waiting, k);
    assert forall t :: t in r.started ==> t in head;
    DistinctAppend(s.started, r.started);
  }

  lemma DistinctSplit<T(!new)>(s: seq<T>, k: nat)
    requires Distinct(s) && k <= |s|
    ensures Distinct(s[..k]) && Distinct(s[k..])
    ensures forall x :: x in s[..k] ==> x in s && x !in s[k..]
    ensures forall x :: x in s[k..] ==> x in s
  {
  }

  lemma StepKeepsInv(s: System, a: Action)
    requires Inv(s)
    requires forall t :: t in s.exited ==> t in s.started
    ensures Inv(Step(s, a))
    ensures forall t :: t in Step(s, a).exited ==> t in Step(s, a).started
  {
    match a
    case AddTask(t, front) =>
      if t !in s.added {
        var waiting := if front then [t] + s.queue.waiting else s.queue.waiting + [t];
        ScheduledKeepsInv(s.(added := s.added + {t}), s.queue.(waiting := waiting));
      }
    case Exits(t) =>
    case RunCallback =>
      if s.loop != [] {
        var left := s.queue.(running := s.queue.running - {s.loop[0]});
        var popped := s.(loop := s.loop[1..]);
        assert forall t :: t in s.loop <==> t == s.loop[0] || t in popped.loop;
        ScheduledKeepsInv(popped, left);
      }
    case CancelTask(t) =>
    case ClearQueue =>
  }

  lemma {:induction false} RunKeepsInv(max: Option<nat>, actions: seq<Action>)
    ensures Inv(Run(Fresh(max), actions))
    ensures forall t :: t in Run(Fresh(max), actions).exited ==> t in Run(Fresh(max), actions).started
    ensures Run(Fresh(max), actions).queue.maxJobs == max
    decreases |actions|
  {
    if actions != [] {
      var before := actions[..|actions| - 1];
      RunKeepsInv(max, before);
      StepKeepsInv(Run(Fresh(max), before), actions[|actions| - 1]);
      StepKeepsBound(Run(Fresh(max), before), actions[|actions| - 1]);
    }
  }

  lemma StepKeepsBound(s: System, a: Action)
    ensures Step(s, a).queue.maxJobs == s.queue.maxJobs
  {
    match a
    case AddTask(t, front) =>
      var waiting := if front then [t] + s.queue.waiting else s.queue.waiting + [t];
      SettleFills(s.queue.(waiting := waiting), s.cancelled);
    case RunCallback =>
      if s.loop != [] {
        SettleFills(s.queue.(running := s.queue.running - {s.loop[0]}), s.cancelled);
      }
    case _ =>
  }

  /**
   * Over any interleaving: never more than the bound runs, each task is started at most once,
   * tasks wait only while the bound is reached, and _task_exit only ever removes a running task.
   */
  lemma QueueDiscipline(max: Option<nat>, actions: seq<Action>)
    ensures
      var s := Run(Fresh(max), actions);
      && (max.Some? ==> |s.queue.running| <= max.value)
      && Distinct(s.started)
      && (s.queue.waiting != [] ==> max.Some? && |s.queue.running| == max.value)
      && (s.loop != [] ==> s.loop[0] in s.queue.running)
  {
    RunKeepsInv(max, actions);
  }
}
