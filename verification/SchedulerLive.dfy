/**
 * Which task objects are live, that is, still have to report the end of a build or merge, and
 * how each board operation changes that. Packages are tracked through their live tasks.
 */
module SchedulerLive {
  import opened Packages
  import opened SchedulerBoard
  import opened SchedulerModel
  import opened TaskQueues
  import opened Wrappers

  /** Task `t` waits in the merge-wait queue or has an uncalled listener of the scheduler. */
  ghost predicate Live(objects: seq<Task>, t: nat) {
    && t < |objects|
    && (|| Listens(objects, t, BuildExit(t))
        || Listens(objects, t, MergeExit(t))
        || Listens(objects, t, MergeWaitExit(t))
        || InMergeWait(objects[t]))
  }

  /** What a task object is about does not change. */
  predicate SameSubject(a: Task, b: Task) {
    a.kind == b.kind && a.pkg == b.pkg && a.toReplace == b.toReplace
  }

  ghost predicate SameSubjects(a: seq<Task>, r: seq<Task>) {
    |a| <= |r| && forall u: nat :: u < |a| ==> SameSubject(a[u], r[u])
  }

  ghost predicate LiveSame(a: seq<Task>, r: seq<Task>) {
    |r| == |a| && SameSubjects(a, r) && forall u: nat :: u < |a| ==> (Live(r, u) <==> Live(a, u))
  }

  ghost predicate LiveLost(a: seq<Task>, r: seq<Task>, t: TaskId) {
    && |r| == |a|
    && SameSubjects(a, r)
    && Live(a, t)
    && forall u: nat :: u < |a| ==> (Live(r, u) <==> Live(a, u) && u != t)
  }

  /** One task was created, live or not. */
  ghost predicate LiveGained(a: seq<Task>, r: seq<Task>, task: Task, live: bool) {
    && |r| == |a| + 1
    && SameSubjects(a, r)
    && SameSubject(r[|a|], task)
    && (Live(r, |a|) <==> live)
    && forall u: nat :: u < |a| ==> (Live(r, u) <==> Live(a, u))
  }

  lemma PoppedLive(a: seq<Task>, r: seq<Task>, t: TaskId, c: Callback)
    requires ShapesOk(a) && Popped(a, r, t, c)
    ensures c == JobQueueExit(t) || c == MergeQueueExit(t) ==> LiveSame(a, r)
    ensures c == BuildExit(t) || c == MergeExit(t) || c == MergeWaitExit(t) ==> LiveLost(a, r, t)
  {
    PoppedShapes(a, r, t, c);
    assert Shape(a[t], t);
  }

  lemma JobQueueExitLive(b: Board, t: TaskId)
    requires BoardInv(b) && b.loop != [] && b.loop[0] == JobQueueExit(t)
    ensures LiveSame(b.objects, JobQueueExitHandler(PopCallback(b), t).objects)
  {
    hide ShapesOk, MergeQueueOk, MergeWaitOk, LoopOk, JobsOk, SetupsOk, SerialOk;
    PopEffect(b);
    PoppedLive(b.objects, PopCallback(b).objects, t, JobQueueExit(t));
  }

  lemma HeadStartedLive(objects: seq<Task>, h: TaskId)
    requires h < |objects| && ShapesOk(objects) && WaitsForMerge(objects[h]) && !Solitary(objects[h])
    ensures LiveSame(objects, HeadStarted(objects, h))
  {
    HeadStartedShape(objects, h);
    assert Shape(objects[h], h);
  }

  lemma LiveSameTransitive(a: seq<Task>, b: seq<Task>, c: seq<Task>)
    requires LiveSame(a, b) && LiveSame(b, c)
    ensures LiveSame(a, c)
  {
  }

  lemma MergeQueueExitLive(b: Board, t: TaskId)
    requires BoardInv(b) && b.loop != [] && b.loop[0] == MergeQueueExit(t)
    ensures LiveSame(b.objects, MergeQueueExitHandler(PopCallback(b), t).objects)
  {
    hide ShapesOk, JobQueueOk, MergeWaitOk, LoopOk, JobsOk, SetupsOk, Live, SameSubjects;
    PopEffect(b);
    var popped, q := PopCallback(b), b.mergeQueue;
    var objects := popped.objects;
    assert Popped(b.objects, objects, t, MergeQueueExit(t));
    PoppedLive(b.objects, objects, t, MergeQueueExit(t));
    if q.waiting != [] {
      var h := q.waiting[0];
      MergeLeavesQueue(b.objects, objects, t, q);
      WaitingNotRunning(b.objects, q, h);
      SolitaryNeverWaits(b.objects, q, h);
      PoppedShapes(b.objects, objects, t, MergeQueueExit(t));
      PoppedQueues(b.objects, objects, t, MergeQueueExit(t), b);
      MergeQueueExitEffect(popped, t);
      HeadStartedLive(objects, h);
      LiveSameTransitive(b.objects, objects, HeadStarted(objects, h));
    }
  }

  /** The callback of a build or a merge takes its task from the live ones. */
  lemma ExitCallbackLive(b: Board)
    requires BoardInv(b) && b.loop != [] && SchedulesAfter(b.loop[0])
    ensures
      var t := b.loop[0].t;
      && t < |b.objects|
      && b.objects[t].status.Exited?
      && PopCallback(b).objects[t].status == b.objects[t].status
      && LiveLost(b.objects, PopCallback(b).objects, t)
      && (b.loop[0].BuildExit? ==> b.objects[t].kind == BuildTask)
      && (!b.loop[0].BuildExit? ==> b.objects[t].kind == MergeTask)
  {
    hide MergeQueueOk, JobQueueOk, MergeWaitOk, LoopOk, JobsOk, SetupsOk, SerialOk, LiveLost;
    PopEffect(b);
    var t := b.loop[0].t;
    PoppedLive(b.objects, PopCallback(b).objects, t, b.loop[0]);
    assert Shape(b.objects[t], t);
  }

  lemma EnqueuedLive(b: Board, t: TaskId, front: bool)
    requires Newcomer(b.objects, t)
    ensures |Enqueued(b, t, front).objects| == |b.objects|
    ensures SameSubjects(b.objects, Enqueued(b, t, front).objects)
    ensures forall u: nat :: u < |b.objects| && u != t ==> (Live(Enqueued(b, t, front).objects, u) <==> Live(b.objects, u))
    ensures Live(Enqueued(b, t, front).objects, t) <==> b.objects[t].kind == MergeTask
  {
    var r := Enqueued(b, t, front);
    assert OnlyObject(b.objects, r.objects, t);
    assert b.objects[t].kind == MergeTask ==> MergeDone(b.objects[t], t) in r.objects[t].listeners;
  }

  lemma CreateLive(b: Board, task: Task)
    requires task.listeners == []
    ensures LiveGained(b.objects, Create(b, task).objects, task, InMergeWait(task))
  {
    assert forall u: nat, c :: Listens(Create(b, task).objects, u, c) <==> Listens(b.objects, u, c);
  }

  lemma StartUninstallLive(b: Board, pkg: Package, toReplace: Option<Package>)
    requires b.mergeQueue.Saturated()
    ensures LiveGained(b.objects, StartUninstall(b, pkg, toReplace).objects, NewTask(MergeTask, pkg, toReplace), true)
  {
    var t, task := |b.objects|, NewTask(MergeTask, pkg, toReplace);
    CreateLive(b, task);
    var created := Create(b, task).(running := b.running + {t});
    AddEffect(created, t);
    EnqueuedLive(created, t, true);
  }

  lemma QueueSetupLive(b: Board, t: TaskId)
    requires b.mergeQueue.Saturated()
    ensures LiveGained(b.objects, QueueSetup(b, t).objects, NewTask(SetupTask, TaskOf(b, t).pkg, None), false)
  {
    var setup := NewTask(SetupTask, TaskOf(b, t).pkg, None).(owner := t);
    CreateLive(b, setup);
    AddEffect(Create(b, setup), |b.objects|);
    EnqueuedLive(Create(b, setup), |b.objects|, false);
  }

  lemma PromoteBuildLive(cfg: Config, b: Board, build: Task)
    requires b.mergeQueue.Saturated()
    ensures LiveGained(b.objects, PromoteBuild(cfg, b, build).objects, MergeOf(cfg, build), true)
    ensures PromoteBuild(cfg, b, build).running == b.running + {|b.objects|}
    ensures PromoteBuild(cfg, b, build).jobs == b.jobs
    ensures PromoteBuild(cfg, b, build).(jobs := b.jobs - 1) == PromoteBuild(cfg, b.(jobs := b.jobs - 1), build)
  {
    var m, task := |b.objects|, MergeOf(cfg, build);
    CreateLive(b, task);
    if !GoesToMergeWait(cfg, build) {
      var created := Create(b, task).(running := b.running + {m});
      AddEffect(created, m);
      AddEffect(created.(jobs := b.jobs - 1), m);
      EnqueuedLive(created, m, false);
    }
  }

  lemma BuildStartedLive(b: Board, pkg: Package, toReplace: Option<Package>)
    ensures LiveGained(b.objects, BuildStarted(b, pkg, toReplace).objects, NewTask(BuildTask, pkg, toReplace), true)
  {
    var r, n := BuildStarted(b, pkg, toReplace).objects, |b.objects|;
    assert forall u: nat, c :: u != n ==> (Listens(r, u, c) <==> Listens(b.objects, u, c));
    assert Listens(r, n, BuildExit(n));
  }

  lemma ViaWaitLive(b: Board, t: TaskId)
    requires t < |b.objects| && InMergeWait(b.objects[t])
    ensures
      var r := b.objects[t := b.objects[t].(viaWait := true)];
      SameSubjects(b.objects, r) && forall u: nat :: Live(r, u) <==> Live(b.objects, u)
  {
    var r := b.objects[t := b.objects[t].(viaWait := true)];
    assert forall u: nat, c :: Listens(r, u, c) <==> Listens(b.objects, u, c);
  }

  lemma MoveOneLive(b: Board)
    requires QueuesOk(b) && b.mergeWait != []
    ensures LiveSame(b.objects, MoveOne(b).objects)
  {
    var t := b.mergeWait[0];
    MergeWaitHead(b);
    ViaWaitLive(b, t);
    EnqueuedLive(Moving(b), t, false);
    MoveOneIs(b);
    hide ShapesOk, MergeQueueOk, JobQueueOk, MergeWaitOk, Enqueued, MoveOne, Live;
  }

  lemma {:induction false} MoveMergeWaitLive(b: Board)
    requires BoardInv(b) && b.jobs == 0 && NoneSolitary(b.objects, b.mergeQueue)
    ensures LiveSame(b.objects, MoveMergeWait(b).objects)
    decreases |b.mergeWait|
  {
    hide QueuesOk, LoopOk, JobsOk, SetupsOk, SerialOk, NoneSolitary, Live;
    if b.mergeWait != [] {
      var system := TaskOf(b, b.mergeWait[0]).isSystem;
      if !(b.mergeQueue.Busy() && system) {
        MoveOneKeepsInv(b);
        MoveOneLive(b);
        if !system {
          MoveMergeWaitLive(MoveOne(b));
          LiveSameTransitive(b.objects, MoveOne(b).objects, MoveMergeWait(b).objects);
        }
      }
    }
  }

  lemma ExitLive(b: Board, t: TaskId, ok: bool)
    requires t < |b.objects| && !InMergeWait(b.objects[t])
    ensures LiveSame(b.objects, ExitTask(b, t, ok).objects)
  {
    var r := ExitTask(b, t, ok).objects;
    assert forall u: nat, c :: Listens(r, u, c) <==> Listens(b.objects, u, c);
  }

  lemma {:induction false} CancelMergesLive(b: Board)
    requires BoardInv(b)
    ensures LiveSame(b.objects, CancelAllWaiting(b, b.mergeQueue.waiting).objects)
    decreases |b.mergeQueue.waiting|
  {
    hide ShapesOk, JobQueueOk, MergeWaitOk, LoopOk, JobsOk, SetupsOk, SerialOk, Live;
    var ts := b.mergeQueue.waiting;
    if ts != [] {
      CancelHeadKeepsInv(b);
      var cancelled := ExitTask(b, ts[0], false);
      var next := cancelled.(mergeQueue := b.mergeQueue.(waiting := ts[1..]));
      WaitingNotRunning(b.objects, b.mergeQueue, ts[0]);
      ExitLive(b, ts[0], false);
      CancelMergesLive(next);
      CancelCommutes(cancelled, next.mergeQueue, ts[1..]);
      LiveSameTransitive(b.objects, cancelled.objects, CancelAllWaiting(b, ts).objects);
    }
  }

  lemma ClearQueuesLive(b: Board)
    requires BoardInv(b)
    ensures LiveSame(b.objects, ClearQueues(b).objects)
  {
    CancelMergesLive(b);
    var merges := CancelAllWaiting(b, b.mergeQueue.waiting).(mergeQueue := b.mergeQueue.(waiting := []));
    assert CancelAllWaiting(merges, []) == merges;
  }
}
