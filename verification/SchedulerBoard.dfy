/**
 * The invariant of the scheduler's tasks, queues and event loop, and its preservation by every
 * board operation of SchedulerModel. Each part names just the fields it depends on.
 */
module SchedulerBoard {
  import opened Packages
  import opened SchedulerModel
  import opened Sequences
  import opened TaskQueues
  import opened Wrappers

  /** The scheduled exit callbacks of task `t`, in loop order. */
  function Due(loop: seq<Callback>, t: TaskId): seq<Callback> {
    if loop == [] then []
    else (if IsExit(loop[0]) && loop[0].t == t then [loop[0]] else []) + Due(loop[1..], t)
  }

  lemma {:induction false} DueAppend(a: seq<Callback>, b: seq<Callback>, t: TaskId)
    ensures Due(a + b, t) == Due(a, t) + Due(b, t)
  {
    if a == [] {
      assert a + b == b;
    } else {
      assert (a + b)[1..] == a[1..] + b;
      DueAppend(a[1..], b, t);
    }
  }

  lemma {:induction false} DueOfOwn(cs: seq<Callback>, t: TaskId, u: TaskId)
    requires forall c :: c in cs ==> IsExit(c) && c.t == t
    ensures Due(cs, u) == if u == t then cs else []
  {
    if cs != [] {
      assert cs[0] in cs;
      DueOfOwn(cs[1..], t, u);
      assert cs == [cs[0]] + cs[1..];
    }
  }

  lemma DueOfOther(c: Callback, t: TaskId)
    requires !IsExit(c) || c.t != t
    ensures Due([c], t) == []
  {
    assert [c][1..] == [];
  }

  /** The listener that reports the end of a merge. */
  function MergeDone(task: Task, t: TaskId): Callback {
    if task.viaWait then MergeWaitExit(t) else MergeExit(t)
  }

  /** A merge-wait merge of a system package. */
  predicate Solitary(task: Task) {
    task.kind == MergeTask && task.viaWait && task.isSystem
  }

  /** The listeners a task can have in each phase of its life. */
  ghost predicate Shape(task: Task, t: TaskId) {
    match task.kind
    case BuildTask =>
      && !task.pkg.IsInstalled()
      && !task.status.Waiting?
      && (|| task.listeners == [JobQueueExit(t), BuildExit(t)]
          || (task.status.Exited? && (task.listeners == [BuildExit(t)] || task.listeners == [])))
    case MergeTask =>
      var q, x := MergeQueueExit(t), MergeDone(task, t);
      match task.status {
        case Waiting => task.listeners == [x] || (task.listeners == [] && !task.viaWait)
        case Started => task.listeners == [q, x] || (task.listeners == [x, q] && !Solitary(task))
        case Exited(_) =>
          || task.listeners == [q, x] || task.listeners == [x] || task.listeners == []
          || ((task.listeners == [x, q] || task.listeners == [q]) && !Solitary(task))
      }
    case SetupTask =>
      match task.status {
        case Waiting => task.listeners == []
        case Started => task.listeners == [MergeQueueExit(t)]
        case Exited(_) => task.listeners == [MergeQueueExit(t)] || task.listeners == []
      }
  }

  ghost predicate ShapesOk(objects: seq<Task>) {
    forall t: nat :: t < |objects| ==> Shape(objects[t], t)
  }

  /** A task waits in the merge queue, going by its own fields. */
  predicate WaitsForMerge(task: Task) {
    task.status.Waiting? && (task.kind == SetupTask || (task.kind == MergeTask && task.listeners != []))
  }

  /** A task is in the merge-wait queue, going by its own fields. */
  predicate InMergeWait(task: Task) {
    task.status.Waiting? && task.kind == MergeTask && task.listeners == []
  }

  /** Task `t` still has listener `c` to call. */
  predicate Listens(objects: seq<Task>, t: nat, c: Callback) {
    t < |objects| && c in objects[t].listeners
  }

  ghost predicate MergeQueueOk(objects: seq<Task>, q: Queue) {
    && q.Saturated()
    && q.maxJobs.Some?
    && 1 <= q.maxJobs.value
    && |q.running| <= q.maxJobs.value
    && Distinct(q.waiting)
    && (forall t: nat :: t in q.waiting <==> t < |objects| && WaitsForMerge(objects[t]))
    && (forall t: nat :: t in q.running <==> Listens(objects, t, MergeQueueExit(t)))
  }

  ghost predicate JobQueueOk(objects: seq<Task>, q: Queue) {
    && q.waiting == []
    && q.maxJobs.Some?
    && (forall t: nat :: t in q.running <==> Listens(objects, t, JobQueueExit(t)))
  }

  ghost predicate MergeWaitOk(objects: seq<Task>, mergeWait: seq<TaskId>, scheduled: seq<TaskId>) {
    && Distinct(mergeWait)
    && Distinct(scheduled)
    && (forall t: nat :: t in mergeWait <==> t < |objects| && InMergeWait(objects[t]))
    && (forall t: nat :: t in scheduled <==> Listens(objects, t, MergeWaitExit(t)))
  }

  /** The exit callbacks in the loop are exactly the uncalled listeners of exited tasks, in order. */
  ghost predicate LoopOk(objects: seq<Task>, loop: seq<Callback>) {
    && (forall t: nat :: t < |objects| ==>
          Due(loop, t) == if objects[t].status.Exited? then objects[t].listeners else [])
    && (forall c :: c in loop && !c.TerminationCheck? ==> c.t < |objects|)
  }

  /** The builds whose exit has not been handled. */
  ghost function UnhandledBuilds(objects: seq<Task>): set<TaskId> {
    set t: nat | t < |objects| && Listens(objects, t, BuildExit(t))
  }

  ghost predicate JobsOk(objects: seq<Task>, jobs: int, max: Option<nat>) {
    && jobs == |UnhandledBuilds(objects)|
    && max.Some?
    && jobs <= max.value
  }

  /** A setup phase is in the merge queue only while its build runs. */
  ghost predicate SetupsOk(objects: seq<Task>, q: Queue) {
    forall u: nat :: u < |objects| && objects[u].kind == SetupTask && q.Holds(u) ==>
      var t := objects[u].owner;
      t < |objects| && objects[t].kind == BuildTask && objects[t].status.Started?
  }

  /** A merge-wait merge of a system package is alone in the merge queue. */
  ghost predicate SerialOk(objects: seq<Task>, q: Queue) {
    forall t: nat, u: nat :: q.Holds(t) && q.Holds(u) && t < |objects| && Solitary(objects[t]) ==> u == t
  }

  /** The parts that say where every task is. */
  ghost predicate QueuesOk(b: Board) {
    && ShapesOk(b.objects)
    && MergeQueueOk(b.objects, b.mergeQueue)
    && JobQueueOk(b.objects, b.jobQueue)
    && MergeWaitOk(b.objects, b.mergeWait, b.waitScheduled)
  }

  ghost predicate BoardInv(b: Board) {
    && QueuesOk(b)
    && LoopOk(b.objects, b.loop)
    && JobsOk(b.objects, b.jobs, b.jobQueue.maxJobs)
    && SetupsOk(b.objects, b.mergeQueue)
    && SerialOk(b.objects, b.mergeQueue)
    && (b.waitScheduled != [] ==> b.jobs == 0)
  }

  // ----- a task enters the merge queue -----

  /** The listeners that a queued task gets besides the queue's own. */
  function OwnListeners(task: Task, t: TaskId): seq<Callback> {
    if task.kind == SetupTask then [] else [MergeDone(task, t)]
  }

  /** Task `t` is added to the merge queue and its own listener is registered, spelled out. */
  function Enqueued(b: Board, t: TaskId, front: bool): Board
    requires t < |b.objects|
  {
    var task, q := b.objects[t], b.mergeQueue;
    var own := OwnListeners(task, t);
    if q.Room() then
      b.(objects := b.objects[t := task.(status := Started, listeners := [MergeQueueExit(t)] + own)],
         mergeQueue := q.(running := q.running + {t}),
         loop := if NotifiesStart(task) then b.loop + [SystemMergeStarted(t)] else b.loop)
    else
      b.(objects := b.objects[t := task.(listeners := own)],
         mergeQueue := q.(waiting := if front then [t] + q.waiting else q.waiting + [t]))
  }

  lemma AddEffect(b: Board, t: TaskId)
    requires t < |b.objects| && b.mergeQueue.Saturated()
    requires b.objects[t].status.Waiting? && b.objects[t].listeners == []
    ensures
      var own := OwnListeners(b.objects[t], t);
      && (own == [] ==> AddToMergeQueue(b, t) == Enqueued(b, t, false))
      && (own != [] ==> AddListener(AddToMergeQueue(b, t), t, own[0]) == Enqueued(b, t, false))
      && (own != [] ==> AddListener(AddFrontToMergeQueue(b, t), t, own[0]) == Enqueued(b, t, true))
  {
    SettleAdded(b.mergeQueue, t, false);
    SettleAdded(b.mergeQueue, t, true);
    var started := StartOnMergeQueue(b.(mergeQueue := b.mergeQueue.(running := b.mergeQueue.running + {t})), t);
    assert StartAllOnMergeQueue(started, [t][1..]) == started;
    var own := OwnListeners(b.objects[t], t);
    assert [] + [MergeQueueExit(t)] == [MergeQueueExit(t)];
    assert own != [] ==> own == [own[0]];
    assert [] + own == own;
    assert own == [] ==> b.objects[t := b.objects[t].(listeners := [])] == b.objects;
    if b.mergeQueue.Room() {
      var task := b.objects[t].(status := Started, listeners := [MergeQueueExit(t)] + own);
      assert [MergeQueueExit(t)] + [] == [MergeQueueExit(t)];
      assert started.objects[t := task] == b.objects[t := task];
    }
  }

  /** The merge queue is in order when task `t` is left out. */
  ghost predicate MergeQueueOkBut(objects: seq<Task>, q: Queue, t: TaskId) {
    && q.Saturated()
    && q.maxJobs.Some?
    && 1 <= q.maxJobs.value
    && |q.running| <= q.maxJobs.value
    && Distinct(q.waiting)
    && (forall u: nat :: u in q.waiting <==> u < |objects| && u != t && WaitsForMerge(objects[u]))
    && (forall u: nat :: u in q.running <==> Listens(objects, u, MergeQueueExit(u)))
  }

  /** Task `t` is out of the merge-wait queue, and counted among the scheduled ones if it came from there. */
  ghost predicate MergeWaitOkBut(objects: seq<Task>, mergeWait: seq<TaskId>, scheduled: seq<TaskId>, t: TaskId)
    requires t < |objects|
  {
    && Distinct(mergeWait)
    && Distinct(scheduled)
    && (forall u: nat :: u in mergeWait <==> u < |objects| && u != t && InMergeWait(objects[u]))
    && (t in scheduled <==> objects[t].kind == MergeTask && objects[t].viaWait)
    && (forall u: nat :: u != t ==> (u in scheduled <==> Listens(objects, u, MergeWaitExit(u))))
  }

  ghost predicate ShapesOkBut(objects: seq<Task>, t: TaskId) {
    forall u: nat :: u < |objects| && u != t ==> Shape(objects[u], u)
  }

  /** A task that waits for its place in the merge queue. */
  predicate Newcomer(objects: seq<Task>, t: TaskId) {
    t < |objects| && objects[t].kind != BuildTask && objects[t].status.Waiting? && objects[t].listeners == []
  }

  /** Everything but task `t` is in order, and `t` is about to enter the merge queue. */
  ghost predicate Prepared(b: Board, t: TaskId) {
    && Newcomer(b.objects, t)
    && ShapesOkBut(b.objects, t)
    && MergeQueueOkBut(b.objects, b.mergeQueue, t)
    && JobQueueOk(b.objects, b.jobQueue)
    && MergeWaitOkBut(b.objects, b.mergeWait, b.waitScheduled, t)
    && LoopOk(b.objects, b.loop)
    && JobsOk(b.objects, b.jobs, b.jobQueue.maxJobs)
    && SetupsOk(b.objects, b.mergeQueue)
    && (b.waitScheduled != [] ==> b.jobs == 0)
  }

  ghost predicate NoneSolitary(objects: seq<Task>, q: Queue) {
    forall u: nat :: u < |objects| && q.Holds(u) ==> !Solitary(objects[u])
  }

  /** What may enter beside what: a merge-wait merge of a system package meets an empty queue. */
  ghost predicate MayEnter(b: Board, t: TaskId)
    requires t < |b.objects|
  {
    && NoneSolitary(b.objects, b.mergeQueue)
    && (Solitary(b.objects[t]) ==> !b.mergeQueue.Busy())
    && (b.objects[t].kind == SetupTask ==>
          var o := b.objects[t].owner;
          o < |b.objects| && b.objects[o].kind == BuildTask && b.objects[o].status.Started?)
  }

  /** `t` is the only object in which two object lists differ. */
  ghost predicate OnlyObject(a: seq<Task>, r: seq<Task>, t: TaskId) {
    |r| == |a| && forall u: nat :: u < |a| && u != t ==> r[u] == a[u]
  }

  lemma EnqueuedShapes(b: Board, t: TaskId, front: bool)
    requires Newcomer(b.objects, t) && ShapesOkBut(b.objects, t)
    ensures OnlyObject(b.objects, Enqueued(b, t, front).objects, t) && ShapesOk(Enqueued(b, t, front).objects)
  {
    var r := Enqueued(b, t, front);
    var own := OwnListeners(b.objects[t], t);
    assert own == [] || own == [MergeDone(b.objects[t], t)];
    assert [MergeQueueExit(t)] + [MergeDone(b.objects[t], t)] == [MergeQueueExit(t), MergeDone(b.objects[t], t)];
    assert Shape(r.objects[t], t);
  }

  lemma EnqueuedMergeQueue(b: Board, t: TaskId, front: bool)
    requires Newcomer(b.objects, t) && MergeQueueOkBut(b.objects, b.mergeQueue, t)
    ensures MergeQueueOk(Enqueued(b, t, front).objects, Enqueued(b, t, front).mergeQueue)
  {
    var r, q := Enqueued(b, t, front), b.mergeQueue;
    assert OnlyObject(b.objects, r.objects, t);
    assert t !in q.running && t !in q.waiting;
    if q.Room() {
      assert |q.running + {t}| == |q.running| + 1;
      assert MergeQueueExit(t) in r.objects[t].listeners;
    } else {
      assert WaitsForMerge(r.objects[t]);
      assert forall u :: u in r.mergeQueue.waiting <==> u == t || u in q.waiting;
    }
  }

  lemma EnqueuedOtherQueues(b: Board, t: TaskId, front: bool)
    requires Newcomer(b.objects, t)
    requires JobQueueOk(b.objects, b.jobQueue) && MergeWaitOkBut(b.objects, b.mergeWait, b.waitScheduled, t)
    ensures JobQueueOk(Enqueued(b, t, front).objects, b.jobQueue)
    ensures MergeWaitOk(Enqueued(b, t, front).objects, b.mergeWait, b.waitScheduled)
  {
    var r := Enqueued(b, t, front);
    assert OnlyObject(b.objects, r.objects, t);
    assert JobQueueExit(t) !in r.objects[t].listeners;
    assert !InMergeWait(r.objects[t]);
    assert MergeWaitExit(t) in r.objects[t].listeners <==> b.objects[t].kind == MergeTask && b.objects[t].viaWait;
  }

  lemma EnqueuedLoop(b: Board, t: TaskId, front: bool)
    requires Newcomer(b.objects, t) && LoopOk(b.objects, b.loop)
    ensures LoopOk(Enqueued(b, t, front).objects, Enqueued(b, t, front).loop)
  {
    var r := Enqueued(b, t, front);
    assert OnlyObject(b.objects, r.objects, t);
    forall u: nat | u < |b.objects|
      ensures Due(r.loop, u) == Due(b.loop, u)
    {
      if r.loop != b.loop {
        DueAppend(b.loop, [SystemMergeStarted(t)], u);
        DueOfOther(SystemMergeStarted(t), u);
      }
    }
  }

  lemma EnqueuedJobs(b: Board, t: TaskId, front: bool)
    requires Newcomer(b.objects, t)
    ensures UnhandledBuilds(Enqueued(b, t, front).objects) == UnhandledBuilds(b.objects)
  {
    var r := Enqueued(b, t, front);
    assert OnlyObject(b.objects, r.objects, t);
    assert BuildExit(t) !in r.objects[t].listeners;
  }

  lemma EnqueuedSerial(b: Board, t: TaskId, front: bool)
    requires Newcomer(b.objects, t) && MayEnter(b, t) && SetupsOk(b.objects, b.mergeQueue)
    requires forall u: nat :: b.mergeQueue.Holds(u) ==> u != t && u < |b.objects|
    ensures SetupsOk(Enqueued(b, t, front).objects, Enqueued(b, t, front).mergeQueue)
    ensures SerialOk(Enqueued(b, t, front).objects, Enqueued(b, t, front).mergeQueue)
    ensures !Solitary(b.objects[t]) ==>
      NoneSolitary(Enqueued(b, t, front).objects, Enqueued(b, t, front).mergeQueue)
  {
    var r := Enqueued(b, t, front);
    assert OnlyObject(b.objects, r.objects, t);
    assert forall u: nat :: r.mergeQueue.Holds(u) <==> u == t || b.mergeQueue.Holds(u);
    assert forall u: nat :: u < |b.objects| ==> Solitary(r.objects[u]) == Solitary(b.objects[u]);
  }

  lemma EnqueuedKeepsInv(b: Board, t: TaskId, front: bool)
    requires Prepared(b, t) && MayEnter(b, t)
    ensures BoardInv(Enqueued(b, t, front))
    ensures !Solitary(b.objects[t]) ==>
      NoneSolitary(Enqueued(b, t, front).objects, Enqueued(b, t, front).mergeQueue)
  {
    EnqueuedShapes(b, t, front);
    EnqueuedMergeQueue(b, t, front);
    EnqueuedOtherQueues(b, t, front);
    EnqueuedLoop(b, t, front);
    EnqueuedJobs(b, t, front);
    EnqueuedSerial(b, t, front);
  }

  // ----- callbacks leave the event loop -----

  /** The next exit callback is the first uncalled listener of its task, which has exited. */
  lemma PopEffect(b: Board)
    requires LoopOk(b.objects, b.loop) && b.loop != [] && IsExit(b.loop[0])
    ensures
      var c := b.loop[0];
      && c.t < |b.objects|
      && var task := b.objects[c.t];
      && task.status.Exited?
      && task.listeners != []
      && task.listeners[0] == c
      && PopCallback(b) == b.(loop := b.loop[1..], objects := b.objects[c.t := task.(listeners := task.listeners[1..])])
  {
    var c := b.loop[0];
    assert Due(b.loop, c.t)[0] == c;
    var ls := b.objects[c.t].listeners;
    assert ls[..0] + ls[1..] == ls[1..];
  }

  lemma PopKeepsLoop(b: Board)
    requires LoopOk(b.objects, b.loop) && b.loop != []
    ensures LoopOk(PopCallback(b).objects, PopCallback(b).loop)
  {
    var c, r := b.loop[0], PopCallback(b);
    assert forall d :: d in b.loop[1..] ==> d in b.loop;
    if IsExit(c) {
      PopEffect(b);
      assert Due(b.loop, c.t) == [c] + Due(b.loop[1..], c.t);
      assert OnlyObject(b.objects, r.objects, c.t);
    }
  }

  /** Nothing but the loop depends on a callback that is no exit. */
  lemma PopOtherKeepsInv(b: Board)
    requires BoardInv(b) && b.loop != [] && !IsExit(b.loop[0])
    ensures BoardInv(PopCallback(b))
  {
    PopKeepsLoop(b);
  }

  lemma AppendTerminationKeepsInv(b: Board)
    requires BoardInv(b)
    ensures BoardInv(b.(loop := b.loop + [TerminationCheck]))
  {
    forall u: nat | u < |b.objects|
      ensures Due(b.loop + [TerminationCheck], u) == Due(b.loop, u)
    {
      DueAppend(b.loop, [TerminationCheck], u);
      DueOfOther(TerminationCheck, u);
    }
    assert LoopOk(b.objects, b.loop + [TerminationCheck]);
  }

  /** Task `t` lost its first listener, `c`. */
  ghost predicate Popped(a: seq<Task>, r: seq<Task>, t: TaskId, c: Callback) {
    && OnlyObject(a, r, t)
    && t < |a|
    && a[t].status.Exited?
    && a[t].listeners != []
    && a[t].listeners[0] == c
    && r[t] == a[t].(listeners := a[t].listeners[1..])
  }

  lemma PoppedShapes(a: seq<Task>, r: seq<Task>, t: TaskId, c: Callback)
    requires ShapesOk(a) && Popped(a, r, t, c)
    ensures ShapesOk(r)
    ensures Listens(a, t, c) && !Listens(r, t, c)
    ensures forall u: nat, d :: u != t || d != c ==> (Listens(r, u, d) <==> Listens(a, u, d))
  {
    var ls := a[t].listeners;
    assert Shape(a[t], t);
    assert ls == [ls[0]] + ls[1..];
    assert |ls| <= 2;
    assert |ls| == 1 ==> ls[1..] == [];
    assert |ls| == 2 ==> ls[1..] == [ls[1]];
    assert ls[0] !in ls[1..];
  }

  lemma PoppedBuilds(a: seq<Task>, r: seq<Task>, t: TaskId, c: Callback)
    requires ShapesOk(a) && Popped(a, r, t, c)
    ensures UnhandledBuilds(r) == UnhandledBuilds(a) - (if c == BuildExit(t) then {t} else {})
    ensures c == BuildExit(t) ==> t in UnhandledBuilds(a)
  {
    PoppedShapes(a, r, t, c);
  }

  /** Popping another callback than a queue's own leaves that queue in order. */
  lemma PoppedQueues(a: seq<Task>, r: seq<Task>, t: TaskId, c: Callback, b: Board)
    requires ShapesOk(a) && Popped(a, r, t, c)
    ensures MergeQueueOk(a, b.mergeQueue) && c != MergeQueueExit(t) ==> MergeQueueOk(r, b.mergeQueue)
    ensures MergeWaitOk(a, b.mergeWait, b.waitScheduled) && c != MergeWaitExit(t) ==>
      MergeWaitOk(r, b.mergeWait, b.waitScheduled)
    ensures JobQueueOk(a, b.jobQueue) && c != JobQueueExit(t) ==> JobQueueOk(r, b.jobQueue)
    ensures forall u: nat :: u < |a| ==> WaitsForMerge(r[u]) == WaitsForMerge(a[u])
    ensures forall u: nat :: u < |a| ==> InMergeWait(r[u]) == InMergeWait(a[u])
  {
    PoppedShapes(a, r, t, c);
  }

  lemma PoppedSerial(a: seq<Task>, r: seq<Task>, t: TaskId, c: Callback, q: Queue)
    requires Popped(a, r, t, c)
    ensures SetupsOk(a, q) ==> SetupsOk(r, q)
    ensures SerialOk(a, q) ==> SerialOk(r, q)
  {
    assert forall u: nat :: u < |a| ==> Solitary(r[u]) == Solitary(a[u]);
  }

  lemma JobLeavesQueue(a: seq<Task>, r: seq<Task>, t: TaskId, q: Queue)
    requires ShapesOk(a) && Popped(a, r, t, JobQueueExit(t)) && JobQueueOk(a, q)
    ensures t in q.running && JobQueueOk(r, q.(running := q.running - {t}))
  {
    PoppedShapes(a, r, t, JobQueueExit(t));
  }

  lemma JobQueueExitKeepsInv(b: Board, t: TaskId)
    requires BoardInv(b) && b.loop != [] && b.loop[0] == JobQueueExit(t)
    ensures t in b.jobQueue.running
    ensures BoardInv(JobQueueExitHandler(PopCallback(b), t))
  {
    PopEffect(b);
    PopKeepsLoop(b);
    var popped := PopCallback(b).objects;
    assert Popped(b.objects, popped, t, JobQueueExit(t));
    JobLeavesQueue(b.objects, popped, t, b.jobQueue);
    PoppedShapes(b.objects, popped, t, JobQueueExit(t));
    PoppedQueues(b.objects, popped, t, JobQueueExit(t), b);
    PoppedBuilds(b.objects, popped, t, JobQueueExit(t));
    PoppedSerial(b.objects, popped, t, JobQueueExit(t), b.mergeQueue);
  }

  // ----- the merge queue loses a task and starts the next -----

  /** A merge-wait merge of a system package stays scheduled while it is in the merge queue. */
  lemma SolitaryIsScheduled(b: Board, t: TaskId)
    requires QueuesOk(b) && t < |b.objects| && b.mergeQueue.Holds(t) && Solitary(b.objects[t])
    ensures t in b.waitScheduled
  {
    assert Shape(b.objects[t], t);
    if t in b.mergeQueue.waiting {
      assert WaitsForMerge(b.objects[t]);
    }
    assert Listens(b.objects, t, MergeWaitExit(t));
  }

  lemma NoneScheduledNoneSolitary(b: Board)
    requires QueuesOk(b) && b.waitScheduled == []
    ensures NoneSolitary(b.objects, b.mergeQueue)
  {
    forall u: nat | u < |b.objects| && b.mergeQueue.Holds(u)
      ensures !Solitary(b.objects[u])
    {
      if Solitary(b.objects[u]) {
        SolitaryIsScheduled(b, u);
        assert false;
      }
    }
  }

  /** A waiting task is not running. */
  lemma WaitingNotRunning(objects: seq<Task>, q: Queue, t: TaskId)
    requires ShapesOk(objects) && MergeQueueOk(objects, q) && t in q.waiting
    ensures t < |objects| && WaitsForMerge(objects[t]) && t !in q.running
  {
    assert Shape(objects[t], t);
  }

  lemma SolitaryAlone(objects: seq<Task>, q: Queue, t: TaskId)
    requires SerialOk(objects, q) && t in q.waiting && t !in q.running && t < |objects|
    ensures Solitary(objects[t]) ==> q.running == {}
  {
    if Solitary(objects[t]) {
      forall u: nat | u in q.running
        ensures u == t
      {
        assert q.Holds(u) && q.Holds(t);
      }
    }
  }

  /** A solitary task never waits in the merge queue: it would be there alone, with room. */
  lemma SolitaryNeverWaits(objects: seq<Task>, q: Queue, t: TaskId)
    requires ShapesOk(objects) && MergeQueueOk(objects, q) && SerialOk(objects, q) && t in q.waiting
    ensures t < |objects| && !Solitary(objects[t])
  {
    WaitingNotRunning(objects, q, t);
    SolitaryAlone(objects, q, t);
    hide ShapesOk, Shape, WaitsForMerge, SerialOk;
  }

  /** The task at the head of the merge queue is started, spelled out. */
  function HeadStarted(objects: seq<Task>, h: TaskId): seq<Task>
    requires h < |objects|
  {
    objects[h := objects[h].(status := Started, listeners := objects[h].listeners + [MergeQueueExit(h)])]
  }

  lemma HeadStartedShape(objects: seq<Task>, h: TaskId)
    requires ShapesOk(objects) && h < |objects| && WaitsForMerge(objects[h]) && !Solitary(objects[h])
    ensures ShapesOk(HeadStarted(objects, h))
    ensures forall u: nat, d :: u != h || d != MergeQueueExit(h) ==>
      (Listens(HeadStarted(objects, h), u, d) <==> Listens(objects, u, d))
    ensures Listens(HeadStarted(objects, h), h, MergeQueueExit(h)) && !Listens(objects, h, MergeQueueExit(h))
  {
    var r := HeadStarted(objects, h);
    assert Shape(objects[h], h);
    var x := MergeDone(objects[h], h);
    assert [x] + [MergeQueueExit(h)] == [x, MergeQueueExit(h)];
    assert [] + [MergeQueueExit(h)] == [MergeQueueExit(h)];
    assert Shape(r[h], h);
  }

  /** The queue after task `t` left and the head started. */
  function Advanced(q: Queue, t: TaskId): Queue
    requires q.waiting != []
  {
    q.(waiting := q.waiting[1..], running := q.running - {t} + {q.waiting[0]})
  }

  lemma HeadStartedMembers(a: seq<Task>, objects: seq<Task>, q: Queue, t: TaskId)
    requires ShapesOk(a) && MergeQueueOk(a, q) && q.waiting != []
    requires Popped(a, objects, t, MergeQueueExit(t))
    requires q.waiting[0] < |objects| && ShapesOk(objects) && WaitsForMerge(objects[q.waiting[0]])
    requires !Solitary(objects[q.waiting[0]])
    ensures
      var r := HeadStarted(objects, q.waiting[0]);
      && (forall u: nat :: u in Advanced(q, t).waiting <==> u < |r| && WaitsForMerge(r[u]))
      && (forall u: nat :: u in Advanced(q, t).running <==> Listens(r, u, MergeQueueExit(u)))
  {
    var h, r := q.waiting[0], HeadStarted(objects, q.waiting[0]);
    MergeLeavesQueue(a, objects, t, q);
    HeadStartedShape(objects, h);
    assert Distinct(q.waiting);
    hide ShapesOk, Shape, Solitary, Popped, MergeQueueOk;
    assert h !in q.waiting[1..] && q.waiting == [h] + q.waiting[1..];
    forall u: nat
      ensures u in Advanced(q, t).waiting <==> u < |r| && WaitsForMerge(r[u])
    {
      assert u in q.waiting <==> u == h || u in q.waiting[1..];
      if u == h {
        assert r[h].status == Started;
      } else {
        assert u < |r| ==> r[u] == objects[u];
      }
    }
  }

  lemma HeadStartedQueue(a: seq<Task>, objects: seq<Task>, q: Queue, t: TaskId)
    requires ShapesOk(a) && MergeQueueOk(a, q) && q.waiting != []
    requires Popped(a, objects, t, MergeQueueExit(t))
    requires q.waiting[0] < |objects| && ShapesOk(objects) && WaitsForMerge(objects[q.waiting[0]])
    requires !Solitary(objects[q.waiting[0]])
    ensures MergeQueueOk(HeadStarted(objects, q.waiting[0]), Advanced(q, t))
  {
    var h, left, r := q.waiting[0], Advanced(q, t), HeadStarted(objects, q.waiting[0]);
    MergeLeavesQueue(a, objects, t, q);
    WaitingNotRunning(a, q, h);
    HeadStartedMembers(a, objects, q, t);
    hide ShapesOk, Shape, Solitary, Popped, HeadStarted, WaitsForMerge;
    assert |q.running - {t}| == |q.running| - 1;
    assert |left.running| == |q.running|;
  }

  lemma HeadStartedRest(b: Board, objects: seq<Task>, h: TaskId)
    requires ShapesOk(objects) && h < |objects| && WaitsForMerge(objects[h]) && !Solitary(objects[h])
    requires JobQueueOk(objects, b.jobQueue) && MergeWaitOk(objects, b.mergeWait, b.waitScheduled)
    requires LoopOk(objects, b.loop)
    ensures JobQueueOk(HeadStarted(objects, h), b.jobQueue)
    ensures MergeWaitOk(HeadStarted(objects, h), b.mergeWait, b.waitScheduled)
    ensures LoopOk(HeadStarted(objects, h), b.loop)
    ensures UnhandledBuilds(HeadStarted(objects, h)) == UnhandledBuilds(objects)
  {
    HeadStartedShape(objects, h);
    assert OnlyObject(objects, HeadStarted(objects, h), h);
  }

  lemma HeadStartedSerial(objects: seq<Task>, q: Queue, h: TaskId, left: Queue)
    requires h < |objects| && SetupsOk(objects, q) && SerialOk(objects, q) && objects[h].kind != BuildTask
    requires forall u: nat :: left.Holds(u) ==> q.Holds(u)
    ensures SetupsOk(HeadStarted(objects, h), left)
    ensures SerialOk(HeadStarted(objects, h), left)
  {
    var r := HeadStarted(objects, h);
    assert OnlyObject(objects, r, h);
    assert forall u: nat :: u < |objects| ==> Solitary(r[u]) == Solitary(objects[u]);
  }

  lemma MergeLeavesQueue(a: seq<Task>, r: seq<Task>, t: TaskId, q: Queue)
    requires ShapesOk(a) && Popped(a, r, t, MergeQueueExit(t)) && MergeQueueOk(a, q)
    ensures t in q.running
    ensures forall u: nat :: u in q.waiting <==> u < |r| && WaitsForMerge(r[u])
    ensures forall u: nat :: u in q.running - {t} <==> Listens(r, u, MergeQueueExit(u))
    ensures q.waiting == [] ==> MergeQueueOk(r, q.(running := q.running - {t}))
  {
    PoppedShapes(a, r, t, MergeQueueExit(t));
    assert |q.running - {t}| == |q.running| - 1;
  }

  /** After the head of the queue started, spelled out. */
  lemma MergeQueueExitEffect(b: Board, t: TaskId)
    requires b.mergeQueue.Saturated() && t in b.mergeQueue.running && b.mergeQueue.waiting != []
    requires b.mergeQueue.maxJobs.Some? && |b.mergeQueue.running| <= b.mergeQueue.maxJobs.value
    requires b.mergeQueue.waiting[0] !in b.mergeQueue.running
    requires b.mergeQueue.waiting[0] < |b.objects| && !NotifiesStart(b.objects[b.mergeQueue.waiting[0]])
    ensures
      MergeQueueExitHandler(b, t) == b.(
        objects := HeadStarted(b.objects, b.mergeQueue.waiting[0]), mergeQueue := Advanced(b.mergeQueue, t))
  {
    SettleExited(b.mergeQueue, t);
    var h := b.mergeQueue.waiting[0];
    var settled := b.(mergeQueue := Advanced(b.mergeQueue, t));
    assert StartAllOnMergeQueue(StartOnMergeQueue(settled, h), [h][1..]) == StartOnMergeQueue(settled, h);
  }

  /** The popped board with the head of the merge queue started. */
  lemma HeadStartKeepsInv(b: Board, objects: seq<Task>, loop: seq<Callback>, t: TaskId)
    requires BoardInv(b) && Popped(b.objects, objects, t, MergeQueueExit(t)) && LoopOk(objects, loop)
    requires b.mergeQueue.waiting != []
    ensures
      var h := b.mergeQueue.waiting[0];
      && h < |objects|
      && !Solitary(objects[h])
      && BoardInv(b.(objects := HeadStarted(objects, h), loop := loop, mergeQueue := Advanced(b.mergeQueue, t)))
  {
    hide ShapesOk, MergeQueueOk, JobQueueOk, MergeWaitOk, LoopOk, UnhandledBuilds, SetupsOk, SerialOk, WaitsForMerge;
    var q := b.mergeQueue;
    var h := q.waiting[0];
    WaitingNotRunning(b.objects, q, h);
    SolitaryNeverWaits(b.objects, q, h);
    PoppedShapes(b.objects, objects, t, MergeQueueExit(t));
    PoppedQueues(b.objects, objects, t, MergeQueueExit(t), b);
    PoppedBuilds(b.objects, objects, t, MergeQueueExit(t));
    PoppedSerial(b.objects, objects, t, MergeQueueExit(t), q);
    assert Solitary(objects[h]) == Solitary(b.objects[h]);
    HeadStartedShape(objects, h);
    HeadStartedQueue(b.objects, objects, q, t);
    HeadStartedRest(b.(loop := loop), objects, h);
    assert forall u: nat :: Advanced(q, t).Holds(u) ==> q.Holds(u);
    HeadStartedSerial(objects, q, h, Advanced(q, t));
  }

  lemma MergeQueueExitKeepsInv(b: Board, t: TaskId)
    requires BoardInv(b) && b.loop != [] && b.loop[0] == MergeQueueExit(t)
    ensures t in b.mergeQueue.running
    ensures BoardInv(MergeQueueExitHandler(PopCallback(b), t))
  {
    hide ShapesOk, JobQueueOk, MergeWaitOk, LoopOk, UnhandledBuilds;
    PopEffect(b);
    PopKeepsLoop(b);
    var popped, q := PopCallback(b), b.mergeQueue;
    var objects := popped.objects;
    assert Popped(b.objects, objects, t, MergeQueueExit(t));
    MergeLeavesQueue(b.objects, objects, t, q);
    if q.waiting == [] {
      PoppedShapes(b.objects, objects, t, MergeQueueExit(t));
      PoppedQueues(b.objects, objects, t, MergeQueueExit(t), b);
      PoppedBuilds(b.objects, objects, t, MergeQueueExit(t));
      PoppedSerial(b.objects, objects, t, MergeQueueExit(t), q);
      assert forall u: nat :: q.(running := q.running - {t}).Holds(u) ==> q.Holds(u);
    } else {
      WaitingNotRunning(b.objects, q, q.waiting[0]);
      HeadStartKeepsInv(b, objects, popped.loop, t);
      MergeQueueExitEffect(popped, t);
    }
  }

  // ----- merges and builds end -----

  lemma MergeExitKeepsInv(b: Board, t: TaskId)
    requires BoardInv(b) && b.loop != [] && b.loop[0] == MergeExit(t)
    ensures BoardInv(PopCallback(b))
  {
    hide ShapesOk, MergeQueueOk, JobQueueOk, MergeWaitOk, LoopOk, UnhandledBuilds, SetupsOk, SerialOk;
    PopEffect(b);
    PopKeepsLoop(b);
    var objects := PopCallback(b).objects;
    assert Popped(b.objects, objects, t, MergeExit(t));
    PoppedShapes(b.objects, objects, t, MergeExit(t));
    PoppedQueues(b.objects, objects, t, MergeExit(t), b);
    PoppedBuilds(b.objects, objects, t, MergeExit(t));
    PoppedSerial(b.objects, objects, t, MergeExit(t), b.mergeQueue);
  }

  lemma MergeWaitLeaves(a: seq<Task>, r: seq<Task>, t: TaskId, b: Board)
    requires ShapesOk(a) && Popped(a, r, t, MergeWaitExit(t)) && MergeWaitOk(a, b.mergeWait, b.waitScheduled)
    ensures t in b.waitScheduled
    ensures MergeWaitOk(r, b.mergeWait, RemoveFirst(b.waitScheduled, t))
  {
    PoppedShapes(a, r, t, MergeWaitExit(t));
    PoppedQueues(a, r, t, MergeWaitExit(t), b);
    RemoveFirstDistinct(b.waitScheduled, t);
  }

  lemma MergeWaitExitKeepsInv(b: Board, t: TaskId)
    requires BoardInv(b) && b.loop != [] && b.loop[0] == MergeWaitExit(t)
    ensures t in b.waitScheduled
    ensures BoardInv(PopCallback(b).(waitScheduled := RemoveFirst(b.waitScheduled, t)))
  {
    hide ShapesOk, MergeQueueOk, JobQueueOk, MergeWaitOk, LoopOk, UnhandledBuilds, SetupsOk, SerialOk;
    PopEffect(b);
    PopKeepsLoop(b);
    var objects := PopCallback(b).objects;
    assert Popped(b.objects, objects, t, MergeWaitExit(t));
    MergeWaitLeaves(b.objects, objects, t, b);
    PoppedShapes(b.objects, objects, t, MergeWaitExit(t));
    PoppedQueues(b.objects, objects, t, MergeWaitExit(t), b);
    PoppedBuilds(b.objects, objects, t, MergeWaitExit(t));
    PoppedSerial(b.objects, objects, t, MergeWaitExit(t), b.mergeQueue);
  }

  /** A build whose exit is handled was counted, so no merge-wait merge is scheduled. */
  lemma BuildExitKeepsInv(b: Board, t: TaskId)
    requires BoardInv(b) && b.loop != [] && b.loop[0] == BuildExit(t)
    ensures b.waitScheduled == []
    ensures BoardInv(PopCallback(b).(jobs := b.jobs - 1))
  {
    hide ShapesOk, MergeQueueOk, JobQueueOk, MergeWaitOk, LoopOk, UnhandledBuilds, SetupsOk, SerialOk;
    PopEffect(b);
    PopKeepsLoop(b);
    var objects := PopCallback(b).objects;
    assert Popped(b.objects, objects, t, BuildExit(t));
    PoppedShapes(b.objects, objects, t, BuildExit(t));
    PoppedQueues(b.objects, objects, t, BuildExit(t), b);
    PoppedBuilds(b.objects, objects, t, BuildExit(t));
    PoppedSerial(b.objects, objects, t, BuildExit(t), b.mergeQueue);
    assert |UnhandledBuilds(b.objects) - {t}| == |UnhandledBuilds(b.objects)| - 1;
    assert |UnhandledBuilds(b.objects)| >= 1;
  }

  // ----- tasks are created -----

  /** A new task that waits for the merge queue changes no other part of the board. */
  lemma CreatePrepared(b: Board, task: Task)
    requires BoardInv(b)
    requires task.kind != BuildTask && task.status.Waiting? && task.listeners == [] && !task.viaWait
    ensures Prepared(Create(b, task), |b.objects|)
  {
    var r, n := Create(b, task), |b.objects|;
    CreateKeepsQueues(b, task);
    CreateKeepsRest(b, task);
  }

  lemma CreateKeepsQueues(b: Board, task: Task)
    requires QueuesOk(b) && task.listeners == [] && (task.kind == BuildTask ==> !task.status.Waiting?)
    ensures
      var r := (b.objects + [task]);
      && ShapesOkBut(r, |b.objects|)
      && MergeQueueOkBut(r, b.mergeQueue, |b.objects|)
      && JobQueueOk(r, b.jobQueue)
      && (!task.viaWait ==> MergeWaitOkBut(r, b.mergeWait, b.waitScheduled, |b.objects|))
  {
    var r := b.objects + [task];
    assert forall u: nat, c :: Listens(r, u, c) <==> Listens(b.objects, u, c);
  }

  lemma CreateKeepsRest(b: Board, task: Task)
    requires LoopOk(b.objects, b.loop) && SetupsOk(b.objects, b.mergeQueue) && task.listeners == []
    requires forall u: nat :: b.mergeQueue.Holds(u) ==> u < |b.objects|
    requires SerialOk(b.objects, b.mergeQueue)
    ensures LoopOk(b.objects + [task], b.loop)
    ensures UnhandledBuilds(b.objects + [task]) == UnhandledBuilds(b.objects)
    ensures SetupsOk(b.objects + [task], b.mergeQueue)
    ensures NoneSolitary(b.objects, b.mergeQueue) ==> NoneSolitary(b.objects + [task], b.mergeQueue)
    ensures SerialOk(b.objects + [task], b.mergeQueue)
  {
    forall u: nat | u == |b.objects|
      ensures Due(b.loop, u) == []
    {
      DueOfUnknown(b.loop, u);
    }
  }

  lemma {:induction false} DueOfUnknown(loop: seq<Callback>, t: TaskId)
    requires forall c :: c in loop && !c.TerminationCheck? ==> c.t < t
    ensures Due(loop, t) == []
  {
    if loop != [] {
      assert loop[0] in loop;
      DueOfUnknown(loop[1..], t);
    }
  }

  lemma StartUninstallKeepsInv(b: Board, pkg: Package, toReplace: Option<Package>)
    requires BoardInv(b) && b.waitScheduled == []
    ensures BoardInv(StartUninstall(b, pkg, toReplace))
  {
    hide ShapesOk, JobQueueOk, MergeWaitOk, LoopOk, UnhandledBuilds, SetupsOk, SerialOk;
    var t := |b.objects|;
    var task := NewTask(MergeTask, pkg, toReplace);
    CreatePrepared(b, task);
    NoneScheduledNoneSolitary(b);
    CreateKeepsRest(b, task);
    var created := Create(b, task).(running := b.running + {t});
    EnqueuedKeepsInv(created, t, true);
    AddEffect(created, t);
  }

  lemma QueueSetupKeepsInv(b: Board, t: TaskId)
    requires BoardInv(b) && t < |b.objects| && b.objects[t].kind == BuildTask && b.objects[t].status.Started?
    ensures BoardInv(QueueSetup(b, t))
  {
    hide JobQueueOk, MergeWaitOk, LoopOk, SetupsOk, SerialOk;
    var setup := NewTask(SetupTask, b.objects[t].pkg, None).(owner := t);
    assert Shape(b.objects[t], t);
    assert t in UnhandledBuilds(b.objects);
    assert b.waitScheduled == [];
    CreatePrepared(b, setup);
    NoneScheduledNoneSolitary(b);
    CreateKeepsRest(b, setup);
    var created := Create(b, setup);
    EnqueuedKeepsInv(created, |b.objects|, false);
    AddEffect(created, |b.objects|);
  }

  /** A finished build turned merge keeps the board in order. */
  lemma PromoteBuildKeepsInv(cfg: Config, b: Board, build: Task)
    requires BoardInv(b) && b.waitScheduled == []
    ensures BoardInv(PromoteBuild(cfg, b, build))
  {
    hide ShapesOk, JobQueueOk, LoopOk, UnhandledBuilds, SetupsOk, SerialOk;
    var m, task := |b.objects|, MergeOf(cfg, build);
    CreatePrepared(b, task);
    NoneScheduledNoneSolitary(b);
    CreateKeepsRest(b, task);
    var created := Create(b, task).(running := b.running + {m});
    if GoesToMergeWait(cfg, build) {
      ParkKeepsQueues(b, task);
    } else {
      EnqueuedKeepsInv(created, m, false);
      AddEffect(created, m);
    }
  }

  lemma ParkKeepsQueues(b: Board, task: Task)
    requires QueuesOk(b)
    requires task.kind == MergeTask && task.status.Waiting? && task.listeners == [] && !task.viaWait
    ensures QueuesOk(Create(b, task).(mergeWait := b.mergeWait + [|b.objects|]))
  {
    CreateKeepsQueues(b, task);
    var m := |b.objects|;
    assert m !in b.mergeWait;
    assert forall u :: u in b.mergeWait + [m] <==> u == m || u in b.mergeWait;
  }

  // ----- builds start -----

  /** A new build is started at once, spelled out. */
  function BuildStarted(b: Board, pkg: Package, toReplace: Option<Package>): Board {
    var t := |b.objects|;
    b.(objects := b.objects + [
         NewTask(BuildTask, pkg, toReplace).(status := Started, listeners := [JobQueueExit(t), BuildExit(t)])],
       jobs := b.jobs + 1,
       running := b.running + {t},
       jobQueue := b.jobQueue.(running := b.jobQueue.running + {t}))
  }

  /** The job queue has room for every job that the scheduler counts. */
  lemma JobQueueHasRoom(b: Board)
    requires ShapesOk(b.objects) && JobQueueOk(b.objects, b.jobQueue) && JobsOk(b.objects, b.jobs, b.jobQueue.maxJobs)
    requires b.jobs < b.jobQueue.maxJobs.value
    ensures b.jobQueue.Room()
  {
    var builds := UnhandledBuilds(b.objects);
    forall t | t in b.jobQueue.running
      ensures t in builds
    {
      assert Listens(b.objects, t, JobQueueExit(t));
      assert Shape(b.objects[t], t);
    }
    SubsetSize(b.jobQueue.running, builds);
  }

  lemma StartBuildEffect(b: Board, pkg: Package, toReplace: Option<Package>)
    requires b.jobQueue.waiting == [] && b.jobQueue.Room()
    ensures StartBuild(b, pkg, toReplace) == BuildStarted(b, pkg, toReplace)
  {
    var t, task := |b.objects|, NewTask(BuildTask, pkg, toReplace);
    var created := Create(b, task).(jobs := b.jobs + 1, running := b.running + {t});
    SettleAdded(b.jobQueue, t, false);
    var queued := created.(jobQueue := b.jobQueue.(running := b.jobQueue.running + {t}));
    assert StartAllOnJobQueue(StartOnJobQueue(queued, t), [t][1..]) == StartOnJobQueue(queued, t);
    assert AddToJobQueue(created, t) == StartOnJobQueue(queued, t);
    assert [] + [JobQueueExit(t)] == [JobQueueExit(t)];
    assert [JobQueueExit(t)] + [BuildExit(t)] == [JobQueueExit(t), BuildExit(t)];
    var r := StartBuild(b, pkg, toReplace);
    assert r.objects == BuildStarted(b, pkg, toReplace).objects;
  }

  lemma BuildStartedQueues(b: Board, pkg: Package, toReplace: Option<Package>)
    requires QueuesOk(b) && !pkg.IsInstalled()
    ensures QueuesOk(BuildStarted(b, pkg, toReplace))
  {
    var r, n := BuildStarted(b, pkg, toReplace), |b.objects|;
    assert forall u: nat, c :: u != n ==> (Listens(r.objects, u, c) <==> Listens(b.objects, u, c));
    assert Shape(r.objects[n], n);
  }

  lemma BuildStartedRest(b: Board, pkg: Package, toReplace: Option<Package>)
    requires LoopOk(b.objects, b.loop) && SetupsOk(b.objects, b.mergeQueue) && SerialOk(b.objects, b.mergeQueue)
    requires forall u: nat :: b.mergeQueue.Holds(u) ==> u < |b.objects|
    ensures
      var objects := BuildStarted(b, pkg, toReplace).objects;
      && LoopOk(objects, b.loop)
      && SetupsOk(objects, b.mergeQueue)
      && SerialOk(objects, b.mergeQueue)
      && UnhandledBuilds(objects) == UnhandledBuilds(b.objects) + {|b.objects|}
  {
    DueOfUnknown(b.loop, |b.objects|);
    var objects, n := BuildStarted(b, pkg, toReplace).objects, |b.objects|;
    assert forall u: nat, c :: u != n ==> (Listens(objects, u, c) <==> Listens(b.objects, u, c));
    assert Listens(objects, n, BuildExit(n));
  }

  lemma StartBuildKeepsInv(b: Board, pkg: Package, toReplace: Option<Package>)
    requires BoardInv(b) && !pkg.IsInstalled() && b.waitScheduled == [] && b.jobs < b.jobQueue.maxJobs.value
    ensures StartBuild(b, pkg, toReplace) == BuildStarted(b, pkg, toReplace)
    ensures BoardInv(StartBuild(b, pkg, toReplace))
  {
    hide ShapesOk, MergeWaitOk, LoopOk, SetupsOk, SerialOk;
    JobQueueHasRoom(b);
    StartBuildEffect(b, pkg, toReplace);
    BuildStartedQueues(b, pkg, toReplace);
    BuildStartedRest(b, pkg, toReplace);
    assert |b.objects| !in UnhandledBuilds(b.objects);
    assert |UnhandledBuilds(b.objects) + {|b.objects|}| == |UnhandledBuilds(b.objects)| + 1;
  }

  // ----- merge-wait merges move -----

  lemma MergeWaitHead(b: Board)
    requires MergeWaitOk(b.objects, b.mergeWait, b.waitScheduled) && b.mergeWait != []
    ensures b.mergeWait[0] < |b.objects| && InMergeWait(b.objects[b.mergeWait[0]])
  {
    assert b.mergeWait[0] in b.mergeWait;
  }

  lemma MovePrepared(b: Board)
    requires BoardInv(b) && b.mergeWait != [] && b.jobs == 0
    ensures
      var t := b.mergeWait[0];
      && t < |b.objects|
      && b.objects[t].kind == MergeTask
      && Prepared(Moving(b), t)
  {
    hide ShapesOk, MergeQueueOk, JobQueueOk, LoopOk, UnhandledBuilds, SetupsOk, SerialOk;
    var t := b.mergeWait[0];
    MergeWaitHead(b);
    var objects := b.objects[t := b.objects[t].(viaWait := true)];
    MoveKeepsQueues(b, t, objects);
    MoveKeepsMergeWait(b, t, objects);
    MoveKeepsRest(b, t, objects);
  }

  lemma MoveKeepsMergeWait(b: Board, t: TaskId, objects: seq<Task>)
    requires MergeWaitOk(b.objects, b.mergeWait, b.waitScheduled) && b.mergeWait != [] && t == b.mergeWait[0]
    requires t < |b.objects| && objects == b.objects[t := b.objects[t].(viaWait := true)]
    ensures MergeWaitOkBut(objects, b.mergeWait[1..], b.waitScheduled + [t], t)
  {
    assert forall u: nat, c :: Listens(objects, u, c) <==> Listens(b.objects, u, c);
    assert forall u :: u in b.waitScheduled + [t] <==> u == t || u in b.waitScheduled;
    assert forall u :: u in b.mergeWait <==> u == t || u in b.mergeWait[1..];
    assert t !in b.waitScheduled;
    assert t !in b.mergeWait[1..];
  }

  lemma MoveKeepsQueues(b: Board, t: TaskId, objects: seq<Task>)
    requires QueuesOk(b) && t < |b.objects| && InMergeWait(b.objects[t])
    requires objects == b.objects[t := b.objects[t].(viaWait := true)]
    ensures ShapesOkBut(objects, t)
    ensures MergeQueueOkBut(objects, b.mergeQueue, t)
    ensures JobQueueOk(objects, b.jobQueue)
  {
    assert forall u: nat, c :: Listens(objects, u, c) <==> Listens(b.objects, u, c);
  }

  lemma MoveKeepsRest(b: Board, t: TaskId, objects: seq<Task>)
    requires LoopOk(b.objects, b.loop) && SetupsOk(b.objects, b.mergeQueue)
    requires t < |b.objects| && InMergeWait(b.objects[t])
    requires objects == b.objects[t := b.objects[t].(viaWait := true)]
    ensures LoopOk(objects, b.loop)
    ensures SetupsOk(objects, b.mergeQueue)
    ensures UnhandledBuilds(objects) == UnhandledBuilds(b.objects)
  {
    assert forall u: nat, c :: Listens(objects, u, c) <==> Listens(b.objects, u, c);
  }

  /** The head of the merge-wait queue on its way to the merge queue. */
  function Moving(b: Board): Board
    requires b.mergeWait != [] && b.mergeWait[0] < |b.objects|
  {
    var t := b.mergeWait[0];
    b.(
      objects := b.objects[t := b.objects[t].(viaWait := true)],
      mergeWait := b.mergeWait[1..],
      waitScheduled := b.waitScheduled + [t])
  }

  lemma MoveOneIs(b: Board)
    requires b.mergeWait != [] && b.mergeWait[0] < |b.objects| && InMergeWait(b.objects[b.mergeWait[0]])
    requires b.mergeQueue.Saturated()
    ensures MoveOne(b) == Enqueued(Moving(b), b.mergeWait[0], false)
  {
    var t, moved := b.mergeWait[0], Moving(b);
    AddEffect(moved, t);
    hide Enqueued, AddToMergeQueue, AddListener;
    assert OwnListeners(moved.objects[t], t) == [MergeWaitExit(t)];
  }

  lemma MoveOneKeepsInv(b: Board)
    requires BoardInv(b) && b.mergeWait != [] && b.jobs == 0
    requires NoneSolitary(b.objects, b.mergeQueue)
    requires b.mergeQueue.Busy() ==> !TaskOf(b, b.mergeWait[0]).isSystem
    ensures BoardInv(MoveOne(b))
    ensures !TaskOf(b, b.mergeWait[0]).isSystem ==> NoneSolitary(MoveOne(b).objects, MoveOne(b).mergeQueue)
    ensures MoveOne(b).jobs == b.jobs && MoveOne(b).running == b.running
  {
    hide ShapesOk, JobQueueOk, MergeWaitOk, LoopOk, UnhandledBuilds, SetupsOk, SerialOk;
    MergeWaitHead(b);
    MovePrepared(b);
    var t, moved := b.mergeWait[0], Moving(b);
    MergeWaitHeadNotQueued(b);
    assert NoneSolitary(moved.objects, moved.mergeQueue);
    EnqueuedKeepsInv(moved, t, false);
    MoveOneIs(b);
  }

  lemma MergeWaitHeadNotQueued(b: Board)
    requires QueuesOk(b) && b.mergeWait != []
    ensures !b.mergeQueue.Holds(b.mergeWait[0])
  {
    assert b.mergeWait[0] in b.mergeWait;
  }

  lemma {:induction false} MoveMergeWaitKeepsInv(b: Board)
    requires BoardInv(b) && b.jobs == 0 && NoneSolitary(b.objects, b.mergeQueue)
    ensures BoardInv(MoveMergeWait(b))
    ensures MoveMergeWait(b).running == b.running
    decreases |b.mergeWait|
  {
    hide QueuesOk, LoopOk, JobsOk, SetupsOk, SerialOk, NoneSolitary;
    if b.mergeWait != [] {
      var system := TaskOf(b, b.mergeWait[0]).isSystem;
      if !(b.mergeQueue.Busy() && system) {
        MoveOneKeepsInv(b);
        if !system {
          MoveMergeWaitKeepsInv(MoveOne(b));
        }
      }
    }
  }

  // ----- tasks exit, and queues are cleared -----

  lemma ExitShapes(objects: seq<Task>, t: TaskId, ok: bool)
    requires ShapesOk(objects) && t < |objects| && !objects[t].status.Exited?
    ensures ShapesOk(objects[t := objects[t].(status := Exited(ok))])
    ensures forall c :: c in objects[t].listeners ==> IsExit(c) && c.t == t
  {
    assert Shape(objects[t], t);
    var r := objects[t := objects[t].(status := Exited(ok))];
    assert Shape(r[t], t);
  }

  lemma ExitLoop(objects: seq<Task>, loop: seq<Callback>, t: TaskId, ok: bool)
    requires LoopOk(objects, loop) && t < |objects| && !objects[t].status.Exited?
    requires forall c :: c in objects[t].listeners ==> IsExit(c) && c.t == t
    ensures LoopOk(objects[t := objects[t].(status := Exited(ok))], loop + objects[t].listeners)
  {
    forall u: nat | u < |objects|
      ensures Due(loop + objects[t].listeners, u) == Due(loop, u) + (if u == t then objects[t].listeners else [])
    {
      DueAppend(loop, objects[t].listeners, u);
      DueOfOwn(objects[t].listeners, t, u);
    }
  }

  /** A change of status that leaves waiting tasks waiting moves no task. */
  lemma ExitQueues(b: Board, t: TaskId, ok: bool)
    requires t < |b.objects| && b.objects[t].status.Started?
    ensures
      var r := b.objects[t := b.objects[t].(status := Exited(ok))];
      && (MergeQueueOk(b.objects, b.mergeQueue) ==> MergeQueueOk(r, b.mergeQueue))
      && (JobQueueOk(b.objects, b.jobQueue) ==> JobQueueOk(r, b.jobQueue))
      && (MergeWaitOk(b.objects, b.mergeWait, b.waitScheduled) ==> MergeWaitOk(r, b.mergeWait, b.waitScheduled))
  {
    var r := b.objects[t := b.objects[t].(status := Exited(ok))];
    assert forall u: nat, c :: Listens(r, u, c) <==> Listens(b.objects, u, c);
    assert forall u: nat :: u < |r| ==> WaitsForMerge(r[u]) == WaitsForMerge(b.objects[u]);
    assert forall u: nat :: u < |r| ==> InMergeWait(r[u]) == InMergeWait(b.objects[u]);
  }

  lemma ExitBuilds(objects: seq<Task>, t: TaskId, ok: bool)
    requires t < |objects|
    ensures UnhandledBuilds(objects[t := objects[t].(status := Exited(ok))]) == UnhandledBuilds(objects)
  {
    var r := objects[t := objects[t].(status := Exited(ok))];
    assert forall u: nat, c :: Listens(r, u, c) <==> Listens(objects, u, c);
  }

  lemma ExitKeepsInv(b: Board, t: TaskId, ok: bool)
    requires BoardInv(b) && CanExit(b, t)
    ensures BoardInv(ExitTask(b, t, ok))
  {
    hide ShapesOk, MergeQueueOk, JobQueueOk, MergeWaitOk, LoopOk, UnhandledBuilds;
    ExitShapes(b.objects, t, ok);
    ExitLoop(b.objects, b.loop, t, ok);
    ExitQueues(b, t, ok);
    ExitBuilds(b.objects, t, ok);
  }

  /** The head of the merge queue is cancelled and leaves the queue. */
  lemma CancelHeadQueue(b: Board, t: TaskId)
    requires QueuesOk(b) && SerialOk(b.objects, b.mergeQueue)
    requires b.mergeQueue.waiting != [] && t == b.mergeQueue.waiting[0]
    ensures t < |b.objects| && b.objects[t].status.Waiting?
    ensures
      var r := b.objects[t := b.objects[t].(status := Exited(false))];
      && MergeQueueOk(r, b.mergeQueue.(waiting := b.mergeQueue.waiting[1..]))
      && JobQueueOk(r, b.jobQueue)
      && MergeWaitOk(r, b.mergeWait, b.waitScheduled)
  {
    var q := b.mergeQueue;
    WaitingNotRunning(b.objects, q, t);
    var r := b.objects[t := b.objects[t].(status := Exited(false))];
    assert forall u: nat, c :: Listens(r, u, c) <==> Listens(b.objects, u, c);
    assert forall u: nat :: u < |r| && u != t ==> r[u] == b.objects[u];
    assert forall u :: u in q.waiting <==> u == t || u in q.waiting[1..];
    assert t !in q.waiting[1..];
  }

  lemma CancelHeadKeepsInv(b: Board)
    requires BoardInv(b) && b.mergeQueue.waiting != []
    ensures
      var t := b.mergeQueue.waiting[0];
      && TaskOf(b, t).status.Waiting?
      && BoardInv(ExitTask(b, t, false).(mergeQueue := b.mergeQueue.(waiting := b.mergeQueue.waiting[1..])))
  {
    hide ShapesOk, MergeQueueOk, JobQueueOk, MergeWaitOk, LoopOk, UnhandledBuilds;
    var t := b.mergeQueue.waiting[0];
    CancelHeadQueue(b, t);
    WaitingNotRunning(b.objects, b.mergeQueue, t);
    ExitShapes(b.objects, t, false);
    ExitLoop(b.objects, b.loop, t, false);
    ExitBuilds(b.objects, t, false);
    var q := b.mergeQueue.(waiting := b.mergeQueue.waiting[1..]);
    assert forall u: nat :: q.Holds(u) ==> b.mergeQueue.Holds(u);
  }

  /** Cancelling does not look at the queue, so the queue may be emptied before or after. */
  lemma {:induction false} CancelCommutes(b: Board, q: Queue, ts: seq<TaskId>)
    ensures CancelAllWaiting(b.(mergeQueue := q), ts) == CancelAllWaiting(b, ts).(mergeQueue := q)
    decreases |ts|
  {
    if ts != [] {
      CancelCommutes(CancelWaiting(b, ts[0]), q, ts[1..]);
      assert CancelWaiting(b.(mergeQueue := q), ts[0]) == CancelWaiting(b, ts[0]).(mergeQueue := q);
    }
  }

  lemma {:induction false} CancelMergesKeepsInv(b: Board)
    requires BoardInv(b)
    ensures BoardInv(CancelAllWaiting(b, b.mergeQueue.waiting).(mergeQueue := b.mergeQueue.(waiting := [])))
    decreases |b.mergeQueue.waiting|
  {
    hide QueuesOk, LoopOk, JobsOk, SetupsOk, SerialOk;
    var ts, empty := b.mergeQueue.waiting, b.mergeQueue.(waiting := []);
    if ts == [] {
      assert b.(mergeQueue := empty) == b;
    } else {
      CancelHeadKeepsInv(b);
      var cancelled := ExitTask(b, ts[0], false);
      var next := cancelled.(mergeQueue := b.mergeQueue.(waiting := ts[1..]));
      CancelMergesKeepsInv(next);
      CancelCommutes(cancelled, next.mergeQueue, ts[1..]);
      assert CancelWaiting(b, ts[0]) == cancelled;
    }
  }

  lemma ClearQueuesKeepsInv(b: Board)
    requires BoardInv(b)
    ensures BoardInv(ClearQueues(b))
  {
    hide ShapesOk, MergeQueueOk, MergeWaitOk, LoopOk, JobsOk, SetupsOk, SerialOk;
    CancelMergesKeepsInv(b);
    var merges := CancelAllWaiting(b, b.mergeQueue.waiting).(mergeQueue := b.mergeQueue.(waiting := []));
    assert merges.jobQueue == merges.jobQueue.(waiting := []);
    assert CancelAllWaiting(merges, []) == merges;
  }
}
