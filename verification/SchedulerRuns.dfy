/**
 * Event handlers keep the global invariant, and so does every run of the scheduler.
 */
module SchedulerRuns {
  import opened Packages
  import opened SchedulerBoard
  import opened SchedulerInvariant
  import opened SchedulerLive
  import opened SchedulerModel
  import opened SchedulerSteps
  import opened SchedulerTokens
  import opened Sequences
  import opened TaskQueues
  import opened Wrappers

  // ----- events that move no live task -----

  lemma BoardStepKeepsInv(cfg: Config, musts: set<(Package, Package)>, s: State, r: Board)
    requires StateInv(cfg, musts, s)
    requires BoardInv(r) && LiveSame(s.board.objects, r.objects)
    requires UnhandledBuilds(r.objects) == UnhandledBuilds(s.board.objects)
    requires r.jobQueue.maxJobs == s.board.jobQueue.maxJobs && r.running == s.board.running
    ensures StateInv(cfg, musts, s.(board := r))
  {
    hide BoardInv, PlanInv, RunningOk, ServerOk, LiveSame, UnhandledBuilds;
    PlanInvLiveSame(cfg, musts, s.plan, s.board.objects, r.objects, s.terminated);
    RunningOkLiveSame(s.board.objects, r.objects, s.board.running, s.terminatedTasks);
  }

  lemma JobQueueExitStep(cfg: Config, musts: set<(Package, Package)>, s: State, t: TaskId)
    requires StateInv(cfg, musts, s) && s.board.loop != [] && s.board.loop[0] == JobQueueExit(t)
    ensures StateInv(cfg, musts, s.(board := JobQueueExitHandler(PopCallback(s.board), t)))
  {
    hide PlanInv, RunningOk, ServerOk, LiveSame, UnhandledBuilds, MergeQueueOk, MergeWaitOk, LoopOk, ShapesOk, SerialOk, SetupsOk;
    var b := s.board;
    JobQueueExitKeepsInv(b, t);
    JobQueueExitLive(b, t);
    PopEffect(b);
    PoppedBuilds(b.objects, PopCallback(b).objects, t, JobQueueExit(t));
    BoardStepKeepsInv(cfg, musts, s, JobQueueExitHandler(PopCallback(b), t));
  }

  lemma MergeQueueExitFrame(b: Board, t: TaskId)
    requires BoardInv(b) && b.loop != [] && b.loop[0] == MergeQueueExit(t)
    ensures
      var r := MergeQueueExitHandler(PopCallback(b), t);
      && UnhandledBuilds(r.objects) == UnhandledBuilds(b.objects)
      && r.jobQueue == b.jobQueue
      && r.running == b.running
  {
    hide ShapesOk, JobQueueOk, MergeWaitOk, LoopOk, UnhandledBuilds, SetupsOk;
    PopEffect(b);
    PopKeepsLoop(b);
    var popped, q := PopCallback(b), b.mergeQueue;
    var objects := popped.objects;
    PoppedBuilds(b.objects, objects, t, MergeQueueExit(t));
    if q.waiting != [] {
      MergeLeavesQueue(b.objects, objects, t, q);
      WaitingNotRunning(b.objects, q, q.waiting[0]);
      SolitaryNeverWaits(b.objects, q, q.waiting[0]);
      PoppedShapes(b.objects, objects, t, MergeQueueExit(t));
      PoppedQueues(b.objects, objects, t, MergeQueueExit(t), b);
      MergeQueueExitEffect(popped, t);
      HeadStartedRest(popped, objects, q.waiting[0]);
    }
  }

  lemma MergeQueueExitStep(cfg: Config, musts: set<(Package, Package)>, s: State, t: TaskId)
    requires StateInv(cfg, musts, s) && s.board.loop != [] && s.board.loop[0] == MergeQueueExit(t)
    ensures StateInv(cfg, musts, s.(board := MergeQueueExitHandler(PopCallback(s.board), t)))
  {
    hide PlanInv, RunningOk, ServerOk, LiveSame, UnhandledBuilds, QueuesOk, LoopOk, JobsOk, SerialOk, SetupsOk;
    MergeQueueExitKeepsInv(s.board, t);
    MergeQueueExitLive(s.board, t);
    MergeQueueExitFrame(s.board, t);
    BoardStepKeepsInv(cfg, musts, s, MergeQueueExitHandler(PopCallback(s.board), t));
  }

  lemma PopOtherStep(cfg: Config, musts: set<(Package, Package)>, s: State)
    requires StateInv(cfg, musts, s) && s.board.loop != [] && !IsExit(s.board.loop[0])
    ensures StateInv(cfg, musts, s.(board := PopCallback(s.board)))
  {
    hide BoardInv, PlanInv, RunningOk, ServerOk, UnhandledBuilds;
    PopOtherKeepsInv(s.board);
    assert LiveSame(s.board.objects, PopCallback(s.board).objects);
    BoardStepKeepsInv(cfg, musts, s, PopCallback(s.board));
  }

  lemma SystemMergeStartedStep(cfg: Config, musts: set<(Package, Package)>, s: State, pkg: Package)
    requires StateInv(cfg, musts, s)
    ensures StateInv(cfg, musts, s.(plan := SystemMergeStartedHandler(s.plan, pkg)))
  {
    hide BoardInv, GraphOk, QueueOk, PlacesOk, ReplacesOk, NoneLost, OrderOk, StartedOk, RunningOk, TokenKeysOk, ServerOk;
  }

  lemma TerminateStep(cfg: Config, musts: set<(Package, Package)>, s: State)
    requires StateInv(cfg, musts, s)
    ensures StateInv(cfg, musts, Terminate(s))
  {
    hide BoardInv, GraphOk, QueueOk, PlacesOk, ReplacesOk, OrderOk, StartedOk, RunningOk, TokenKeysOk, ServerOk;
    AppendTerminationKeepsInv(s.board);
  }

  lemma ExitStep(cfg: Config, musts: set<(Package, Package)>, s: State, t: TaskId, ok: bool)
    requires StateInv(cfg, musts, s) && CanExit(s.board, t)
    ensures StateInv(cfg, musts, s.(board := ExitTask(s.board, t, ok)))
  {
    hide QueuesOk, LoopOk, JobsOk, SetupsOk, SerialOk, PlanInv, RunningOk, ServerOk, LiveSame, UnhandledBuilds;
    ExitKeepsInv(s.board, t, ok);
    ExitLive(s.board, t, ok);
    ExitBuilds(s.board.objects, t, ok);
    BoardStepKeepsInv(cfg, musts, s, ExitTask(s.board, t, ok));
  }

  lemma QueueSetupBuilds(b: Board, t: TaskId)
    requires b.mergeQueue.Saturated()
    ensures UnhandledBuilds(QueueSetup(b, t).objects) == UnhandledBuilds(b.objects)
    ensures QueueSetup(b, t).jobQueue == b.jobQueue && QueueSetup(b, t).running == b.running
  {
    var setup := NewTask(SetupTask, TaskOf(b, t).pkg, None).(owner := t);
    var created := Create(b, setup);
    AddEffect(created, |b.objects|);
    EnqueuedJobs(created, |b.objects|, false);
    assert forall u: nat, c :: Listens(created.objects, u, c) <==> Listens(b.objects, u, c);
  }

  lemma QueueSetupStep(cfg: Config, musts: set<(Package, Package)>, s: State, t: TaskId)
    requires StateInv(cfg, musts, s) && CanQueueSetup(s, t)
    ensures StateInv(cfg, musts, s.(board := QueueSetup(s.board, t)))
  {
    hide ShapesOk, JobQueueOk, MergeWaitOk, LoopOk, JobsOk, SetupsOk, SerialOk, GraphOk, QueueOk, PlacesOk, ReplacesOk,
      NoneLost, OrderOk, RunningOk, ServerOk, UnhandledBuilds;
    var b, r := s.board, QueueSetup(s.board, t);
    QueueSetupKeepsInv(b, t);
    QueueSetupLive(b, t);
    QueueSetupBuilds(b, t);
    var setup := NewTask(SetupTask, TaskOf(b, t).pkg, None);
    PlanInvLiveGained(cfg, s.plan, b.objects, r.objects, setup, false, s.terminated || s.plan.failed != []);
    StartedOkGained(musts, b.objects, r.objects, setup, false, s.plan.completed);
    RunningUngained(b.objects, r.objects, b.running, s.terminatedTasks, setup);
  }

  lemma RunningUngained(a: seq<Task>, r: seq<Task>, running: set<TaskId>, terminatedTasks: bool, task: Task)
    requires RunningOk(a, running, terminatedTasks) && LiveGained(a, r, task, false)
    ensures RunningOk(r, running, terminatedTasks)
  {
    hide Live;
    forall u: nat | Live(r, u) || Live(a, u)
      ensures u < |r| && (Live(a, u) ==> u < |a|)
    {
      if Live(r, u) { LiveInRange(r, u); }
      if Live(a, u) { LiveInRange(a, u); }
    }
  }

  // ----- the end of a merge -----

  lemma RunningLost(a: seq<Task>, r: seq<Task>, running: set<TaskId>, t: TaskId, terminatedTasks: bool)
    requires RunningOk(a, running, terminatedTasks) && LiveLost(a, r, t)
    ensures RunningOk(r, running - {t}, terminatedTasks)
  {
    hide Live;
    forall u: nat | Live(r, u) || Live(a, u)
      ensures u < |a|
    {
      if Live(r, u) { LiveInRange(r, u); } else { LiveInRange(a, u); }
    }
  }

  /** Completing a package that is not queued keeps queue, graph and order in order. */
  lemma CompleteKeepsPlan(cfg: Config, musts: set<(Package, Package)>, p: Plan, objects: seq<Task>, pkg: Package)
    requires GraphOk(cfg, p.graph, p.completed) && QueueOk(cfg, p.queue, p.completed) && StartedOk(musts, objects, p.completed)
    requires pkg !in p.queue
    ensures GraphOk(cfg, p.graph, p.completed + {pkg}) && QueueOk(cfg, p.queue, p.completed + {pkg})
    ensures StartedOk(musts, objects, p.completed + {pkg})
  {
  }

  lemma CompleteKeepsPlaces(cfg: Config, p: Plan, objects: seq<Task>, pkg: Package, excused: bool)
    requires PlacesOk(cfg, p.queue, p.completed, objects) && NoneLost(cfg, p.queue, p.completed, objects, excused)
    requires pkg.IsInstalled() || !InProgress(objects, pkg)
    ensures PlacesOk(cfg, p.queue, p.completed + {pkg}, objects)
    ensures NoneLost(cfg, p.queue, p.completed + {pkg}, objects, excused)
  {
    forall t: nat | Live(objects, t) && objects[t].pkg in p.completed + {pkg}
      ensures objects[t].pkg.IsInstalled()
    {
      if objects[t].pkg == pkg {
        assert InProgress(objects, pkg);
      }
    }
  }

  /** A replaced package leaves the queue and is completed. */
  lemma DropQueued(cfg: Config, musts: set<(Package, Package)>, p: Plan, objects: seq<Task>, previous: Package, excused: bool)
    requires GraphOk(cfg, p.graph, p.completed) && QueueOk(cfg, p.queue, p.completed) && OrderOk(musts, p.queue)
    requires PlacesOk(cfg, p.queue, p.completed, objects) && StartedOk(musts, objects, p.completed)
    requires NoneLost(cfg, p.queue, p.completed, objects, excused)
    requires previous.IsInstalled()
    ensures
      var queue, completed := RemoveFirst(p.queue, previous), p.completed + {previous};
      && GraphOk(cfg, p.graph, completed)
      && QueueOk(cfg, queue, completed)
      && OrderOk(musts, queue)
      && PlacesOk(cfg, queue, completed, objects)
      && StartedOk(musts, objects, completed)
      && NoneLost(cfg, queue, completed, objects, excused)
  {
    hide GraphOk, StartedOk, Live;
    var queue := RemoveFirst(p.queue, previous);
    RemoveFirstDistinct(p.queue, previous);
    var i := IndexOf(p.queue, previous);
    assert forall k :: 0 <= k < |queue| ==> queue[k] == p.queue[if k < i then k else k + 1];
    assert QueueOk(cfg, queue, p.completed);
    CompleteKeepsPlan(cfg, musts, p.(queue := queue), objects, previous);
    assert forall q :: q in p.queue ==> q == previous || q in queue;
    DropKeepsPlaces(cfg, p.queue, queue, p.completed, objects, previous);
  }

  lemma DropKeepsPlaces(cfg: Config, before: seq<Package>, after: seq<Package>, completed: set<Package>, objects: seq<Task>, previous: Package)
    requires PlacesOk(cfg, before, completed, objects) && previous.IsInstalled()
    requires forall q :: q in after ==> q in before
    ensures PlacesOk(cfg, after, completed + {previous}, objects)
  {
  }

  /** The plan after the live task `t` reported the end of its merge. */
  lemma DoMergeExitKeepsPlan(cfg: Config, musts: set<(Package, Package)>, p: Plan, a: seq<Task>, r: seq<Task>, t: TaskId, terminated: bool, task: Task)
    requires PlanInv(cfg, musts, p, a, terminated) && LiveLost(a, r, t)
    requires task.pkg == a[t].pkg && task.toReplace == a[t].toReplace
    ensures PlanInv(cfg, musts, DoMergeExit(p, task), r, terminated)
    ensures task.status == Exited(true) ==> !DoMergeExit(p, task).chooseEarly
    ensures task.status != Exited(true) ==> DoMergeExit(p, task).failed != []
  {
    hide GraphOk, QueueOk, OrderOk, Live;
    var excused := terminated || p.failed != [];
    LiveInRange(a, t);
    PlanInvLiveLost(cfg, p, a, r, t, excused);
    StartedOkSame(musts, a, r, p.completed);
    if task.status != Exited(true) {
      assert (p.failed + [task.pkg])[|p.failed|] == task.pkg;
    } else {
      var done := TaskComplete(p, task.pkg);
      CompleteKeepsPlan(cfg, musts, p, r, task.pkg);
      assert NoneLost(cfg, p.queue, p.completed + {task.pkg}, r, excused);
      CompleteKeepsPlaces(cfg, p, r, task.pkg, true);
      if task.toReplace.Some? && task.toReplace.value in p.graph.order {
        DropQueued(cfg, musts, done, r, task.toReplace.value, excused);
      }
    }
  }

  /** The board after the callback of a merge was taken off, and what that leaves of the state. */
  lemma MergeExitStep(cfg: Config, musts: set<(Package, Package)>, s: State, board: Board, t: TaskId)
    requires StateInv(cfg, musts, s) && t < |s.board.objects| && LiveLost(s.board.objects, board.objects, t)
    requires BoardInv(board) && board.running == s.board.running
    requires board.jobQueue.maxJobs == s.board.jobQueue.maxJobs
    requires UnhandledBuilds(board.objects) == UnhandledBuilds(s.board.objects)
    ensures StateInv(cfg, musts, MergeExitHandler(s.(board := board), t))
  {
    hide BoardInv, PlanInv, Live, ServerOk, NothingToChoose, UnhandledBuilds, RunningOk, DoMergeExit;
    var task := TaskOf(board, t);
    DoMergeExitKeepsPlan(cfg, musts, s.plan, s.board.objects, board.objects, t, s.terminated, task);
    RunningLost(s.board.objects, board.objects, s.board.running, t, s.terminatedTasks);
    BoardInvRunning(board, s.board.running - {t});
  }

  lemma BoardInvRunning(b: Board, running: set<TaskId>)
    requires BoardInv(b)
    ensures BoardInv(b.(running := running))
  {
    hide ShapesOk, MergeQueueOk, JobQueueOk, MergeWaitOk, LoopOk, JobsOk, SetupsOk, SerialOk;
  }

  lemma MergeDoneStep(cfg: Config, musts: set<(Package, Package)>, s: State)
    requires StateInv(cfg, musts, s) && s.board.loop != []
    requires s.board.loop[0].MergeExit? || s.board.loop[0].MergeWaitExit?
    ensures StateInv(cfg, musts, Handle(cfg, s.(board := PopCallback(s.board)), s.board.loop[0]))
  {
    hide ShapesOk, MergeQueueOk, JobQueueOk, MergeWaitOk, LoopOk, JobsOk, SetupsOk, SerialOk, PlanInv, RunningOk, ServerOk,
      LiveLost, UnhandledBuilds, MergeExitHandler, EarlyOk;
    var b, c := s.board, s.board.loop[0];
    ExitCallbackLive(b);
    PopEffect(b);
    PoppedBuilds(b.objects, PopCallback(b).objects, c.t, c);
    if c.MergeExit? {
      MergeExitKeepsInv(b, c.t);
      MergeExitStep(cfg, musts, s, PopCallback(b), c.t);
    } else {
      MergeWaitExitKeepsInv(b, c.t);
      MergeExitStep(cfg, musts, s, PopCallback(b).(waitScheduled := RemoveFirst(b.waitScheduled, c.t)), c.t);
    }
  }

  // ----- the end of a build -----

  /** The plan when a finished build's package moves on to its merge task. */
  lemma PromoteKeepsPlan(cfg: Config, musts: set<(Package, Package)>, p: Plan, a: seq<Task>, x: seq<Task>, r: seq<Task>, t: TaskId, terminated: bool, task: Task)
    requires PlanInv(cfg, musts, p, a, terminated) && LiveLost(a, x, t) && LiveGained(x, r, task, true)
    requires t < |a| && !a[t].pkg.IsInstalled() && task.pkg == a[t].pkg && task.toReplace == a[t].toReplace
    requires task.kind == MergeTask
    ensures PlanInv(cfg, musts, p, r, terminated)
  {
    hide GraphOk, QueueOk, OrderOk, Live;
    PlanInvLiveLost(cfg, p, a, x, t, true);
    PlanInvLiveLost(cfg, p, a, x, t, terminated || p.failed != []);
    PlanInvLiveGained(cfg, p, x, r, task, true, true);
    StartedOkSame(musts, a, x, p.completed);
    StartedOkGained(musts, x, r, task, true, p.completed);
  }

  /** The plan when a build's package is dropped because of a failure or termination. */
  lemma AbandonKeepsPlan(cfg: Config, musts: set<(Package, Package)>, p: Plan, a: seq<Task>, x: seq<Task>, t: TaskId, terminated: bool)
    requires PlanInv(cfg, musts, p, a, terminated) && LiveLost(a, x, t) && t < |a|
    ensures PlanInv(cfg, musts, p.(failed := p.failed + [a[t].pkg]), x, terminated)
    ensures terminated ==> PlanInv(cfg, musts, p, x, terminated)
  {
    hide GraphOk, QueueOk, OrderOk, Live;
    PlanInvLiveLost(cfg, p, a, x, t, terminated || p.failed != []);
    PlanInvLiveLost(cfg, p, a, x, t, true) by {
      assert NoneLost(cfg, p.queue, p.completed, a, true);
    }
    StartedOkSame(musts, a, x, p.completed);
    assert (p.failed + [a[t].pkg])[|p.failed|] == a[t].pkg;
  }

  /** Build `t` was taken off the board: everything is in order but the plan, which still has its package in progress. */
  ghost predicate BuildGone(cfg: Config, s: State, x: State, t: TaskId) {
    && t < |s.board.objects|
    && s.board.objects[t].kind == BuildTask
    && LiveLost(s.board.objects, x.board.objects, t)
    && TaskOf(x.board, t) == s.board.objects[t].(listeners := TaskOf(x.board, t).listeners)
    && BoardInv(x.board)
    && x.board.waitScheduled == []
    && x.board.jobQueue.maxJobs == Some(cfg.maxJobs)
    && RunningOk(x.board.objects, x.board.running, x.terminatedTasks)
    && FlagsOk(x)
    && TokenKeysOk(x.board.objects, x.server.tokens, x.terminatedTasks)
    && ServerOk(cfg.server, x.server)
    && x.plan == s.plan
    && x.terminatedTasks == s.terminatedTasks
    && (s.terminated ==> x.terminated)
  }

  /** The state between releasing the token of build `t` and deciding what becomes of it. */
  function BuildReleased(cfg: Config, s: State, t: TaskId): State {
    ReleaseJobToken(cfg, s.(board := s.board.(running := s.board.running - {t})), t)
  }

  lemma BuildReleasedGone(cfg: Config, musts: set<(Package, Package)>, s: State, t: TaskId)
    requires StateInv(cfg, musts, s) && s.board.loop != [] && s.board.loop[0] == BuildExit(t)
    ensures
      var x := BuildReleased(cfg, s.(board := PopCallback(s.board)), t);
      BuildGone(cfg, s, x.(board := x.board.(jobs := x.board.jobs - 1)), t)
    ensures TaskOf(PopCallback(s.board), t).status == TaskOf(s.board, t).status
  {
    hide ShapesOk, MergeQueueOk, JobQueueOk, MergeWaitOk, LoopOk, JobsOk, SetupsOk, SerialOk, PlanInv, RunningOk, ServerOk,
      LiveLost, UnhandledBuilds, EarlyOk, ReleaseJobToken;
    var b, popped := s.board, PopCallback(s.board);
    PopEffect(b);
    ExitCallbackLive(b);
    PoppedBuilds(b.objects, popped.objects, t, BuildExit(t));
    BuildExitKeepsInv(b, t);
    RunningLost(b.objects, popped.objects, b.running, t, s.terminatedTasks);
    var start := s.(board := popped.(running := b.running - {t}));
    ReleaseKeepsServer(cfg, cfg.server, start, t);
    ReleaseFrame(cfg, start, t);
    ReleaseMayTerminate(cfg, start, t);
    BoardInvRunning(popped.(jobs := b.jobs - 1), b.running - {t});
    var counted := popped.(jobs := b.jobs - 1, running := b.running - {t});
    AppendTerminationKeepsInv(counted);
  }

  lemma BuildExitStep(cfg: Config, musts: set<(Package, Package)>, s: State, t: TaskId)
    requires ValidConfig(cfg) && StateInv(cfg, musts, s)
    requires s.board.loop != [] && s.board.loop[0] == BuildExit(t)
    ensures StateInv(cfg, musts, BuildExitHandler(cfg, s.(board := PopCallback(s.board)), t))
  {
    hide ShapesOk, MergeQueueOk, JobQueueOk, MergeWaitOk, LoopOk, JobsOk, SetupsOk, SerialOk, PlanInv, RunningOk, ServerOk,
      LiveLost, LiveGained, UnhandledBuilds, ReleaseJobToken, ValidConfig, PromoteBuild, NothingToChoose;
    var popped := s.(board := PopCallback(s.board));
    var released := BuildReleased(cfg, popped, t);
    var x := released.(board := released.board.(jobs := released.board.jobs - 1));
    BuildReleasedGone(cfg, musts, s, t);
    BuildIsNotInstalled(s.board, t);
    var build := TaskOf(popped.board, t);
    if build.status == Exited(true) && !s.terminatedTasks {
      PromoteStep(cfg, musts, s, x, t, build);
      SaturatedOf(x.board);
      PromoteBuildLive(cfg, released.board, build);
    } else {
      AbandonKeepsPlan(cfg, musts, s.plan, s.board.objects, x.board.objects, t, x.terminated) by {
        PlanInvExcused(cfg, musts, s.plan, s.board.objects, s.terminated, x.terminated);
      }
      ReleasedTask(cfg, s, t);
    }
  }

  lemma PlanInvExcused(cfg: Config, musts: set<(Package, Package)>, p: Plan, objects: seq<Task>, a: bool, b: bool)
    requires PlanInv(cfg, musts, p, objects, a) && (a ==> b)
    ensures PlanInv(cfg, musts, p, objects, b)
  {
  }

  lemma BuildIsNotInstalled(b: Board, t: TaskId)
    requires BoardInv(b) && b.loop != [] && b.loop[0] == BuildExit(t)
    ensures t < |b.objects| && b.objects[t].kind == BuildTask && !b.objects[t].pkg.IsInstalled()
  {
    PopEffect(b);
    assert Shape(b.objects[t], t);
  }

  /** The objects are not touched by the release of a token. */
  lemma ReleasedTask(cfg: Config, s: State, t: TaskId)
    requires s.board.loop != []
    ensures BuildReleased(cfg, s.(board := PopCallback(s.board)), t).board.objects == PopCallback(s.board).objects
    ensures BuildReleased(cfg, s.(board := PopCallback(s.board)), t).plan == s.plan
    ensures BuildReleased(cfg, s.(board := PopCallback(s.board)), t).terminatedTasks == s.terminatedTasks
  {
    hide ReleaseJobToken, PopCallback;
    var popped := PopCallback(s.board);
    ReleaseFrame(cfg, s.(board := popped.(running := popped.running - {t})), t);
  }

  lemma PromoteStep(cfg: Config, musts: set<(Package, Package)>, s: State, x: State, t: TaskId, build: Task)
    requires StateInv(cfg, musts, s) && BuildGone(cfg, s, x, t) && !s.board.objects[t].pkg.IsInstalled()
    requires build.pkg == s.board.objects[t].pkg && build.toReplace == s.board.objects[t].toReplace
    ensures StateInv(cfg, musts, x.(board := PromoteBuild(cfg, x.board, build)))
  {
    hide ShapesOk, MergeQueueOk, JobQueueOk, MergeWaitOk, LoopOk, JobsOk, SetupsOk, SerialOk, PlanInv, RunningOk, ServerOk,
      LiveLost, LiveGained, UnhandledBuilds, PromoteBuild, NothingToChoose;
    var b, r := x.board, PromoteBuild(cfg, x.board, build);
    SaturatedOf(b);
    PromoteBuildKeepsInv(cfg, b, build);
    PromoteBuildLive(cfg, b, build);
    PromoteBuildBuilds(cfg, b, build);
    PlanInvExcused(cfg, musts, s.plan, s.board.objects, s.terminated, x.terminated);
    PromoteKeepsPlan(cfg, musts, s.plan, s.board.objects, b.objects, r.objects, t, x.terminated, MergeOf(cfg, build));
    RunningGained(b.objects, r.objects, b.running, x.terminatedTasks, MergeOf(cfg, build));
    assert |b.objects| in r.running;
  }

  lemma SaturatedOf(b: Board)
    requires BoardInv(b)
    ensures b.mergeQueue.Saturated()
  {
  }

  lemma PromoteBuildBuilds(cfg: Config, b: Board, build: Task)
    requires b.mergeQueue.Saturated()
    ensures UnhandledBuilds(PromoteBuild(cfg, b, build).objects) == UnhandledBuilds(b.objects)
    ensures PromoteBuild(cfg, b, build).jobQueue == b.jobQueue
  {
    var m, task := |b.objects|, MergeOf(cfg, build);
    var created := Create(b, task).(running := b.running + {m});
    assert forall u: nat, c :: Listens(created.objects, u, c) <==> Listens(b.objects, u, c);
    if !GoesToMergeWait(cfg, build) {
      AddEffect(created, m);
      EnqueuedJobs(created, m, false);
    }
  }

  // ----- termination -----

  /** What holds while idle tasks are released one by one. */
  ghost predicate Releasing(cfg: Config, s: State, r: State) {
    && r.board == s.board.(running := r.board.running, loop := r.board.loop)
    && BoardInv(r.board)
    && RunningOk(r.board.objects, r.board.running, true)
    && FlagsOk(r)
    && r.terminated
    && TokenKeysOk(r.board.objects, r.server.tokens, true)
    && ServerOk(cfg.server, r.server)
    && r.plan == s.plan
    && r.terminatedTasks == s.terminatedTasks
  }

  lemma {:induction false} ReleaseIdleReleases(cfg: Config, s: State, n: nat)
    requires Releasing(cfg, s, s)
    ensures Releasing(cfg, s, ReleaseIdle(cfg, s, n))
  {
    hide BoardInv, RunningOk, TokenKeysOk, ServerOk, ReleaseJobToken;
    if n > 0 {
      ReleaseIdleReleases(cfg, s, n - 1);
      var before, t := ReleaseIdle(cfg, s, n - 1), n - 1;
      if t in before.board.running && !TaskOf(before.board, t).status.Started? {
        ReleaseOneReleases(cfg, s, before, t);
      }
    }
  }

  lemma ReleaseOneReleases(cfg: Config, s: State, before: State, t: TaskId)
    requires Releasing(cfg, s, before)
    ensures
      var released := ReleaseJobToken(cfg, before, t);
      Releasing(cfg, s, released.(board := released.board.(running := released.board.running - {t})))
  {
    hide QueuesOk, LoopOk, JobsOk, SetupsOk, SerialOk, ServerOk, ReleaseJobToken, UnhandledBuilds, Live;
    ReleaseKeepsServer(cfg, cfg.server, before, t);
    ReleaseFrame(cfg, before, t);
    ReleaseMayTerminate(cfg, before, t);
    AppendTerminationKeepsInv(before.board);
    var released := ReleaseJobToken(cfg, before, t);
    BoardInvRunning(released.board, released.board.running - {t});
  }

  lemma {:induction false} CancelMergesBuilds(b: Board)
    requires BoardInv(b)
    ensures UnhandledBuilds(CancelAllWaiting(b, b.mergeQueue.waiting).objects) == UnhandledBuilds(b.objects)
    decreases |b.mergeQueue.waiting|
  {
    hide ShapesOk, JobQueueOk, MergeWaitOk, LoopOk, JobsOk, SetupsOk, SerialOk, UnhandledBuilds;
    var ts := b.mergeQueue.waiting;
    if ts != [] {
      CancelHeadKeepsInv(b);
      var cancelled := ExitTask(b, ts[0], false);
      var next := cancelled.(mergeQueue := b.mergeQueue.(waiting := ts[1..]));
      WaitingNotRunning(b.objects, b.mergeQueue, ts[0]);
      ExitBuilds(b.objects, ts[0], false);
      CancelMergesBuilds(next);
      CancelCommutes(cancelled, next.mergeQueue, ts[1..]);
    }
  }

  lemma ClearQueuesBuilds(b: Board)
    requires BoardInv(b)
    ensures UnhandledBuilds(ClearQueues(b).objects) == UnhandledBuilds(b.objects)
    ensures ClearQueues(b).jobQueue == b.jobQueue && ClearQueues(b).running == b.running
  {
    CancelMergesBuilds(b);
    var merges := CancelAllWaiting(b, b.mergeQueue.waiting).(mergeQueue := b.mergeQueue.(waiting := []));
    assert CancelAllWaiting(merges, []) == merges;
  }

  lemma TerminationCheckStep(cfg: Config, musts: set<(Package, Package)>, s: State)
    requires StateInv(cfg, musts, s)
    ensures StateInv(cfg, musts, TerminationCheckHandler(cfg, s))
  {
    hide QueuesOk, LoopOk, JobsOk, SetupsOk, SerialOk, ServerOk, PlanInv, UnhandledBuilds, Live, ReleaseIdle, ClearQueues;
    if s.terminated && !s.terminatedTasks {
      var start := s.(terminatedTasks := true);
      assert Releasing(cfg, start, start);
      ReleaseIdleReleases(cfg, start, |start.board.objects|);
      var released := ReleaseIdle(cfg, start, |start.board.objects|);
      ReleasedInv(cfg, musts, start, released);
      ClearQueuesKeepsInv(released.board);
      ClearQueuesLive(released.board);
      ClearQueuesBuilds(released.board);
      BoardStepKeepsInv(cfg, musts, released, ClearQueues(released.board));
    }
  }

  lemma ReleasedInv(cfg: Config, musts: set<(Package, Package)>, s: State, r: State)
    requires Releasing(cfg, s, r) && s.terminated && s.terminatedTasks
    requires PlanInv(cfg, musts, s.plan, s.board.objects, s.terminated)
    requires s.board.jobQueue.maxJobs == Some(cfg.maxJobs)
    ensures StateInv(cfg, musts, r)
  {
    hide BoardInv, PlanInv, RunningOk, TokenKeysOk, ServerOk;
  }
}
