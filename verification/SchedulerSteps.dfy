/**
 * Every step of the scheduler keeps the global invariant.
 */
module SchedulerSteps {
  import opened Packages
  import opened SchedulerBoard
  import opened SchedulerChoice
  import opened SchedulerInvariant
  import opened SchedulerLive
  import opened SchedulerModel
  import opened SchedulerTokens
  import opened TaskQueues
  import opened Wrappers

  // ----- a chosen package, between the queue and its task -----

  /** The plan is in order except that `pkg` is neither queued nor in progress. */
  ghost predicate PlanHole(cfg: Config, musts: set<(Package, Package)>, p: Plan, objects: seq<Task>, excused: bool, pkg: Package) {
    && GraphOk(cfg, p.graph, p.completed)
    && QueueOk(cfg, p.queue, p.completed)
    && PlacesOk(cfg, p.queue, p.completed, objects)
    && ReplacesOk(objects)
    && OrderOk(musts, p.queue)
    && StartedOk(musts, objects, p.completed)
    && !p.chooseEarly
    && pkg in cfg.mergelist
    && pkg !in p.queue
    && pkg !in p.completed
    && !InProgress(objects, pkg)
    && (forall m :: m in musts && m.1 == pkg ==> m.0 in p.completed)
    && NoneLost(cfg, p.queue, p.completed + {pkg}, objects, excused)
  }

  lemma ChoiceLeavesHole(cfg: Config, musts: set<(Package, Package)>, p: Plan, objects: seq<Task>, terminated: bool, c: Chosen)
    requires PlanInv(cfg, musts, p, objects, terminated)
    requires GoodChoice(cfg, musts, p, c) && c.pkg.Some?
    ensures PlanHole(cfg, musts, c.plan, objects, terminated || p.failed != [], c.pkg.value)
  {
    hide GraphOk, QueueOk, OrderOk, StartedOk, Live, ReplacesOk;
    var pkg := c.pkg.value;
    var i: nat :| Taken(p.queue, i, c.plan.queue) && p.queue[i] == pkg;
    TakenQueue(cfg, musts, p.queue, p.completed, i, c.plan.queue);
    QueuedFacts(cfg, p.queue, p.completed, pkg);
  }

  lemma QueuedFacts(cfg: Config, queue: seq<Package>, completed: set<Package>, pkg: Package)
    requires QueueOk(cfg, queue, completed) && pkg in queue
    ensures pkg in cfg.mergelist && pkg !in completed
  {
  }

  lemma BlockedFillsHole(cfg: Config, musts: set<(Package, Package)>, p: Plan, objects: seq<Task>, terminated: bool, pkg: Package)
    requires PlanHole(cfg, musts, p, objects, terminated || p.failed != [], pkg)
    ensures PlanInv(cfg, musts, p.(queue := [pkg] + p.queue), objects, terminated)
  {
    hide GraphOk, OrderOk, StartedOk, Live, ReplacesOk;
    HeadKeepsOrder(cfg, musts, p.queue, p.completed, pkg);
    forall t: nat | Live(objects, t)
      ensures t < |objects| && InProgress(objects, objects[t].pkg)
    {
      LiveInRange(objects, t);
    }
  }

  lemma LaunchFillsHole(cfg: Config, musts: set<(Package, Package)>, p: Plan, a: seq<Task>, r: seq<Task>, excused: bool, terminated: bool, pkg: Package, task: Task)
    requires PlanHole(cfg, musts, p, a, excused, pkg) && LiveGained(a, r, task, true) && task.pkg == pkg
    requires task.toReplace.Some? ==> task.toReplace.value.IsInstalled()
    requires excused ==> terminated || p.failed != []
    ensures PlanInv(cfg, musts, p, r, terminated)
  {
    hide GraphOk, QueueOk, OrderOk, Live;
    PlanInvLiveGained(cfg, p, a, r, task, true, excused);
    forall q | InProgress(a, q) || q == pkg
      ensures InProgress(r, q)
    {
    }
  }

  // ----- starting a package -----

  /** Everything but the plan and the server is in order. */
  ghost predicate RestInv(cfg: Config, s: State) {
    && BoardInv(s.board)
    && s.board.jobQueue.maxJobs == Some(cfg.maxJobs)
    && RunningOk(s.board.objects, s.board.running, s.terminatedTasks)
    && FlagsOk(s)
    && TokenKeysOk(s.board.objects, s.server.tokens, s.terminatedTasks)
  }

  lemma RunningGained(a: seq<Task>, r: seq<Task>, running: set<TaskId>, terminatedTasks: bool, task: Task)
    requires RunningOk(a, running, terminatedTasks) && LiveGained(a, r, task, true)
    ensures RunningOk(r, running + {|a|}, terminatedTasks)
  {
    hide Live;
    forall u: nat | Live(r, u)
      ensures u < |r|
    {
      LiveInRange(r, u);
    }
    forall u: nat | Live(a, u)
      ensures u < |a|
    {
      LiveInRange(a, u);
    }
  }

  lemma UninstallRest(cfg: Config, s: State, pkg: Package, toReplace: Option<Package>)
    requires RestInv(cfg, s) && s.board.waitScheduled == []
    ensures
      var board := StartUninstall(s.board, pkg, toReplace);
      RestInv(cfg, s.(board := board)) && board.running == s.board.running + {|s.board.objects|}
  {
    hide Live, ShapesOk, JobQueueOk, MergeWaitOk, LoopOk, JobsOk, SetupsOk, SerialOk;
    var b := s.board;
    StartUninstallKeepsInv(b, pkg, toReplace);
    StartUninstallLive(b, pkg, toReplace);
    var task := NewTask(MergeTask, pkg, toReplace);
    RunningGained(b.objects, StartUninstall(b, pkg, toReplace).objects, b.running, s.terminatedTasks, task);
    StartUninstallBuilds(b, pkg, toReplace);
  }

  lemma StartUninstallBuilds(b: Board, pkg: Package, toReplace: Option<Package>)
    requires b.mergeQueue.Saturated()
    ensures UnhandledBuilds(StartUninstall(b, pkg, toReplace).objects) == UnhandledBuilds(b.objects)
    ensures StartUninstall(b, pkg, toReplace).jobQueue == b.jobQueue
    ensures StartUninstall(b, pkg, toReplace).running == b.running + {|b.objects|}
  {
    var t, task := |b.objects|, NewTask(MergeTask, pkg, toReplace);
    var created := Create(b, task).(running := b.running + {t});
    AddEffect(created, t);
    EnqueuedJobs(created, t, true);
    assert forall u: nat, c :: Listens(created.objects, u, c) <==> Listens(b.objects, u, c);
  }

  lemma BuildRest(cfg: Config, s: State, pkg: Package, toReplace: Option<Package>, token: seq<int>)
    requires RestInv(cfg, s) && s.board.waitScheduled == [] && !pkg.IsInstalled() && s.board.jobs < cfg.maxJobs
    ensures
      var board := StartBuild(s.board, pkg, toReplace);
      && board == BuildStarted(s.board, pkg, toReplace)
      && RestInv(cfg, s.(
        board := board, server := s.server.(tokens := s.server.tokens[|s.board.objects| := token])))
  {
    hide Live, ShapesOk, MergeQueueOk, JobQueueOk, MergeWaitOk, LoopOk, SetupsOk, SerialOk, LiveGained, RunningOk;
    var b := s.board;
    StartBuildKeepsInv(b, pkg, toReplace);
    BuildStartedLive(b, pkg, toReplace);
    var task := NewTask(BuildTask, pkg, toReplace);
    RunningGained(b.objects, BuildStarted(b, pkg, toReplace).objects, b.running, s.terminatedTasks, task);
    BuildStartedCounts(b, pkg, toReplace);
  }

  lemma BuildStartedCounts(b: Board, pkg: Package, toReplace: Option<Package>)
    ensures UnhandledBuilds(BuildStarted(b, pkg, toReplace).objects) == UnhandledBuilds(b.objects) + {|b.objects|}
  {
    var objects, n := BuildStarted(b, pkg, toReplace).objects, |b.objects|;
    assert forall u: nat, c :: u != n ==> (Listens(objects, u, c) <==> Listens(b.objects, u, c));
    assert Listens(objects, n, BuildExit(n));
  }

  /** Requesting termination on the way changes nothing that the invariant needs. */
  lemma MayTerminateRest(cfg: Config, s: State, r: State)
    requires RestInv(cfg, s) && MayTerminate(s, r)
    requires r.server.tokens == s.server.tokens && r.terminatedTasks == s.terminatedTasks
    requires r.terminationPending ==> r.terminated
    ensures RestInv(cfg, r)
    ensures s.terminated ==> r.terminated
    ensures r.board == s.board.(loop := r.board.loop)
  {
    hide ShapesOk, MergeQueueOk, JobQueueOk, MergeWaitOk, LoopOk, JobsOk, SetupsOk, SerialOk, RunningOk, TokenKeysOk;
    AppendTerminationKeepsInv(s.board);
  }

  /** The hole does not depend on how far termination has gone. */
  lemma PlanHoleExcused(cfg: Config, musts: set<(Package, Package)>, p: Plan, objects: seq<Task>, a: bool, b: bool, pkg: Package)
    requires PlanHole(cfg, musts, p, objects, a, pkg) && (a ==> b)
    ensures PlanHole(cfg, musts, p, objects, b, pkg)
  {
  }

  lemma LaunchKeepsInv(cfg: Config, musts: set<(Package, Package)>, s: State, pkg: Package, token: seq<int>)
    requires RestInv(cfg, s) && s.board.waitScheduled == []
    requires PlanHole(cfg, musts, s.plan, s.board.objects, s.terminated || s.plan.failed != [], pkg)
    requires pkg.IsInstalled() ==> ServerOk(cfg.server, s.server)
    requires !pkg.IsInstalled() ==> s.board.jobs < cfg.maxJobs
    requires !pkg.IsInstalled() ==>
      ServerOk(cfg.server, s.server.(tokens := s.server.tokens[|s.board.objects| := token]))
    ensures StateInv(cfg, musts, Launch(cfg, s, pkg, token))
  {
    hide RestInv, PlanHole, ServerOk, BoardInv, RunningOk, TokenKeysOk, PlanInv, QueuesOk;
    var b, toReplace := s.board, PkgToReplace(cfg, s.clock, pkg);
    var excused := s.terminated || s.plan.failed != [];
    RestSaturated(cfg, s);
    if pkg.IsInstalled() {
      UninstallRest(cfg, s, pkg, toReplace);
      StartUninstallLive(b, pkg, toReplace);
      var task := NewTask(MergeTask, pkg, toReplace);
      LaunchFillsHole(cfg, musts, s.plan, b.objects, StartUninstall(b, pkg, toReplace).objects, excused, s.terminated, pkg, task);
      RestParts(cfg, s.(board := StartUninstall(b, pkg, toReplace)));
    } else {
      BuildRest(cfg, s, pkg, toReplace, token);
      BuildStartedLive(b, pkg, toReplace);
      var task := NewTask(BuildTask, pkg, toReplace);
      LaunchFillsHole(cfg, musts, s.plan, b.objects, BuildStarted(b, pkg, toReplace).objects, excused, s.terminated, pkg, task);
      RestParts(cfg, s.(board := StartBuild(b, pkg, toReplace),
        server := s.server.(tokens := s.server.tokens[|b.objects| := token])));
    }
    HoleNotEarly(cfg, musts, s.plan, b.objects, excused, pkg);
  }

  lemma HoleNotEarly(cfg: Config, musts: set<(Package, Package)>, p: Plan, objects: seq<Task>, excused: bool, pkg: Package)
    requires PlanHole(cfg, musts, p, objects, excused, pkg)
    ensures !p.chooseEarly
  {
  }

  lemma RestSaturated(cfg: Config, s: State)
    requires RestInv(cfg, s)
    ensures s.board.mergeQueue.Saturated()
  {
  }

  lemma RestParts(cfg: Config, s: State)
    requires RestInv(cfg, s)
    ensures BoardInv(s.board) && s.board.jobQueue.maxJobs == Some(cfg.maxJobs)
    ensures RunningOk(s.board.objects, s.board.running, s.terminatedTasks) && FlagsOk(s)
    ensures TokenKeysOk(s.board.objects, s.server.tokens, s.terminatedTasks)
  {
  }

  // ----- one round of _schedule_tasks_imp -----

  /** The result of an attempt keeps the invariant; a blocked one leaves its package first in line. */
  lemma AttendKeepsInv(cfg: Config, musts: set<(Package, Package)>, s: State, pkg: Package)
    requires RestInv(cfg, s) && s.board.waitScheduled == [] && s.board.jobs < cfg.maxJobs
    requires PlanHole(cfg, musts, s.plan, s.board.objects, s.terminated || s.plan.failed != [], pkg)
    requires ServerOk(cfg.server, s.server)
    ensures StateInv(cfg, musts, Attend(cfg, s, pkg).s)
    ensures Attend(cfg, s, pkg).Launched? || TokenBlocked(Attend(cfg, s, pkg).s)
  {
    hide RestInv, PlanHole, ServerOk, BoardInv, RunningOk, TokenKeysOk, PlanInv, QueuesOk, Launch, AcquireJobToken, StateInv;
    if pkg.IsInstalled() {
      LaunchKeepsInv(cfg, musts, s, pkg, []);
    } else {
      RestFlags(cfg, s);
      FreshHasNoToken(cfg, s);
      AcquireKeepsServer(cfg, cfg.server, s, |s.board.objects|);
      AcquireFrame(cfg, s);
      match AcquireJobToken(cfg, s)
      case WouldBlock(w) =>
        BlockedFillsHole(cfg, musts, s.plan, s.board.objects, s.terminated, pkg);
        RestParts(cfg, s);
        HoleNotEarly(cfg, musts, s.plan, s.board.objects, s.terminated || s.plan.failed != [], pkg);
        BlockedInv(cfg, musts, s, w, pkg);
      case Token(a, token) =>
        MayTerminateRest(cfg, s, a);
        PlanHoleExcused(cfg, musts, s.plan, s.board.objects, s.terminated || s.plan.failed != [],
          a.terminated || a.plan.failed != [], pkg);
        LaunchKeepsInv(cfg, musts, a, pkg, token);
    }
  }

  lemma RestFlags(cfg: Config, s: State)
    requires RestInv(cfg, s)
    ensures s.terminationPending ==> s.terminated
  {
  }

  lemma FreshHasNoToken(cfg: Config, s: State)
    requires RestInv(cfg, s)
    ensures |s.board.objects| !in s.server.tokens
  {
    assert forall t :: t in s.server.tokens.Keys ==> t in UnhandledBuilds(s.board.objects);
  }

  /** The head of the queue waits for a token: the slot is taken, the fifo was empty and a reader is registered. */
  ghost predicate TokenBlocked(s: State) {
    && s.server.up
    && !s.server.implicit
    && s.server.fifo == []
    && s.server.watching
    && s.plan.queue != []
    && !s.plan.queue[0].IsInstalled()
  }

  lemma BlockedInv(cfg: Config, musts: set<(Package, Package)>, s: State, w: State, pkg: Package)
    requires BoardInv(s.board) && s.board.jobQueue.maxJobs == Some(cfg.maxJobs)
    requires RunningOk(s.board.objects, s.board.running, s.terminatedTasks) && FlagsOk(s)
    requires TokenKeysOk(s.board.objects, s.server.tokens, s.terminatedTasks)
    requires PlanInv(cfg, musts, s.plan.(queue := [pkg] + s.plan.queue), s.board.objects, s.terminated)
    requires !s.plan.chooseEarly
    requires w == s.(server := w.server, clock := w.clock) && w.server.tokens == s.server.tokens
    requires ServerOk(cfg.server, w.server)
    ensures StateInv(cfg, musts,
      w.(plan := w.plan.(queue := [pkg] + w.plan.queue), server := w.server.(watching := true)))
  {
    hide BoardInv, RunningOk, TokenKeysOk, PlanInv;
  }

  /** Nothing but the environment, a jobserver token or another task can make more progress now. */
  ghost predicate Stuck(cfg: Config, s: State) {
    || StopsScheduling(cfg, s)
    || !(s.board.jobs == 0 && s.board.mergeWait == [])
    || TokenBlocked(s)
  }

  lemma ScheduleOneKeepsInv(cfg: Config, musts: set<(Package, Package)>, s: State)
    requires ValidConfig(cfg) && ValidMusts(cfg, musts) && StateInv(cfg, musts, s)
    ensures StateInv(cfg, musts, ScheduleOne(cfg, s).s)
    ensures !ScheduleOne(cfg, s).Launched? ==> Stuck(cfg, ScheduleOne(cfg, s).s)
  {
    hide BoardInv, ServerOk, RunningOk, TokenKeysOk, PlanInv, Attend, ChoosePkg, NothingToChoose, ValidConfig, ValidMusts;
    if !StopsScheduling(cfg, s) && !HeldBack(cfg, s.board, s.clock) {
      ChooseGood(cfg, musts, s);
      var c := ChoosePkg(s.plan, s.board.running != {});
      var next := s.(clock := s.clock + 1, plan := c.plan);
      match c.pkg
      case None =>
        NoChoicePlan(cfg, musts, s, c);
      case Some(pkg) =>
        ChoiceLeavesHole(cfg, musts, s.plan, s.board.objects, s.terminated, c);
        assert RestInv(cfg, next);
        AttendKeepsInv(cfg, musts, next, pkg);
    }
  }

  lemma NoChoicePlan(cfg: Config, musts: set<(Package, Package)>, s: State, c: Chosen)
    requires PlanInv(cfg, musts, s.plan, s.board.objects, s.terminated)
    requires GoodChoice(cfg, musts, s.plan, c) && c.pkg.None?
    ensures PlanInv(cfg, musts, c.plan, s.board.objects, s.terminated)
  {
  }

  lemma {:induction false} ScheduleTasksImpKeepsInv(cfg: Config, musts: set<(Package, Package)>, s: State)
    requires ValidConfig(cfg) && ValidMusts(cfg, musts) && StateInv(cfg, musts, s)
    ensures StateInv(cfg, musts, ScheduleTasksImp(cfg, s).0)
    ensures Stuck(cfg, ScheduleTasksImp(cfg, s).0)
    decreases |s.plan.queue|
  {
    hide StateInv, ValidConfig, ValidMusts, ScheduleOne, Stuck;
    ScheduleOneKeepsInv(cfg, musts, s);
    match ScheduleOne(cfg, s)
    case Idle(_) =>
    case Blocked(_) =>
    case Launched(s1) =>
      ScheduleTasksImpKeepsInv(cfg, musts, s1);
  }

  lemma MoveKeepsInv(cfg: Config, musts: set<(Package, Package)>, s: State)
    requires StateInv(cfg, musts, s) && MergeWaitDue(s.board)
    ensures StateInv(cfg, musts, s.(board := MoveMergeWait(s.board)))
  {
    hide ServerOk, PlanInv, ShapesOk, JobQueueOk, MergeWaitOk, LoopOk, SetupsOk, SerialOk, RunningOk, MergeQueueOk;
    var b := s.board;
    MoveMergeWaitKeepsInv(b);
    MoveMergeWaitLive(b);
    var r := MoveMergeWait(b);
    MoveMergeWaitBuilds(b);
    PlanInvLiveSame(cfg, musts, s.plan, b.objects, r.objects, s.terminated);
    RunningOkLiveSame(b.objects, r.objects, b.running, s.terminatedTasks);
  }

  lemma MoveOneBuilds(b: Board)
    requires QueuesOk(b) && b.mergeWait != []
    ensures UnhandledBuilds(MoveOne(b).objects) == UnhandledBuilds(b.objects)
    ensures MoveOne(b).jobQueue == b.jobQueue
  {
    MergeWaitHead(b);
    var t := b.mergeWait[0];
    var moved := b.(
      objects := b.objects[t := b.objects[t].(viaWait := true)],
      mergeWait := b.mergeWait[1..],
      waitScheduled := b.waitScheduled + [t]);
    assert forall u: nat, c :: Listens(moved.objects, u, c) <==> Listens(b.objects, u, c);
    AddEffect(moved, t);
    EnqueuedJobs(moved, t, false);
    assert MoveOne(b) == Enqueued(moved, t, false);
  }

  lemma {:induction false} MoveMergeWaitBuilds(b: Board)
    requires BoardInv(b) && b.jobs == 0 && NoneSolitary(b.objects, b.mergeQueue)
    ensures UnhandledBuilds(MoveMergeWait(b).objects) == UnhandledBuilds(b.objects)
    ensures MoveMergeWait(b).jobQueue == b.jobQueue
    decreases |b.mergeWait|
  {
    hide QueuesOk, LoopOk, JobsOk, SetupsOk, SerialOk, NoneSolitary, UnhandledBuilds;
    if b.mergeWait != [] {
      var system := TaskOf(b, b.mergeWait[0]).isSystem;
      if !(b.mergeQueue.Busy() && system) {
        MoveOneKeepsInv(b);
        MoveOneBuilds(b);
        if !system {
          MoveMergeWaitBuilds(MoveOne(b));
        }
      }
    }
  }

  lemma ScheduleRoundKeepsInv(cfg: Config, musts: set<(Package, Package)>, s: State)
    requires ValidConfig(cfg) && ValidMusts(cfg, musts) && StateInv(cfg, musts, s)
    ensures StateInv(cfg, musts, ScheduleRound(cfg, s).0)
    ensures Stuck(cfg, ScheduleRound(cfg, s).0)
  {
    hide StateInv, ValidConfig, ValidMusts, Stuck, MoveMergeWait;
    if MergeWaitDue(s.board) {
      MoveKeepsInv(cfg, musts, s);
      ScheduleTasksImpKeepsInv(cfg, musts, s.(board := MoveMergeWait(s.board)));
    } else {
      ScheduleTasksImpKeepsInv(cfg, musts, s);
    }
  }

  lemma {:induction false} ScheduleLoopKeepsInv(cfg: Config, musts: set<(Package, Package)>, s: State)
    requires ValidConfig(cfg) && ValidMusts(cfg, musts) && StateInv(cfg, musts, s)
    ensures StateInv(cfg, musts, ScheduleLoop(cfg, s))
    ensures Stuck(cfg, ScheduleLoop(cfg, s))
    decreases Backlog(s)
  {
    hide StateInv, ValidConfig, ValidMusts, Stuck, ScheduleRound;
    ScheduleRoundKeepsInv(cfg, musts, s);
    var r := ScheduleRound(cfg, s);
    if r.1 || MergeWaitDue(r.0.board) {
      ScheduleLoopKeepsInv(cfg, musts, r.0);
    }
  }

  lemma ScheduleKeepsInv(cfg: Config, musts: set<(Package, Package)>, s: State)
    requires ValidConfig(cfg) && ValidMusts(cfg, musts) && StateInv(cfg, musts, s)
    ensures StateInv(cfg, musts, Schedule(cfg, s))
    ensures Stuck(cfg, Schedule(cfg, s))
  {
    hide BoardInv, PlanInv, RunningOk, TokenKeysOk, ServerOk, EarlyOk, ScheduleLoop;
    ScheduleLoopKeepsInv(cfg, musts, s);
  }
}
