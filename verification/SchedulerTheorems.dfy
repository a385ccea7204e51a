/**
 * What the scheduler guarantees in every run: dependencies first, no builddir collision, careful
 * merges of system packages, progress, and an exact account of jobs and job tokens.
 */
module SchedulerTheorems {
  import opened Packages
  import opened Reachability
  import opened SchedulerBoard
  import opened SchedulerChoice
  import opened SchedulerInvariant
  import opened SchedulerLive
  import opened SchedulerModel
  import opened SchedulerRuns
  import opened SchedulerSetup
  import opened SchedulerSteps
  import opened SchedulerTokens
  import opened Sequences
  import opened TaskQueues
  import opened Wrappers

  // ----- every run keeps the invariant -----

  lemma HandleKeepsInv(cfg: Config, musts: set<(Package, Package)>, s: State)
    requires ValidConfig(cfg) && StateInv(cfg, musts, s) && s.board.loop != []
    ensures StateInv(cfg, musts, Handle(cfg, s.(board := PopCallback(s.board)), s.board.loop[0]))
  {
    hide StateInv, ValidConfig, PopCallback, JobQueueExitHandler, MergeQueueExitHandler, BuildExitHandler,
      SystemMergeStartedHandler, TerminationCheckHandler, MergeExitHandler, MergeWaitExitHandler;
    var popped := s.(board := PopCallback(s.board));
    match s.board.loop[0]
    case JobQueueExit(t) => JobQueueExitStep(cfg, musts, s, t);
    case MergeQueueExit(t) => MergeQueueExitStep(cfg, musts, s, t);
    case BuildExit(t) => BuildExitStep(cfg, musts, s, t);
    case MergeExit(_) => MergeDoneStep(cfg, musts, s);
    case MergeWaitExit(_) => MergeDoneStep(cfg, musts, s);
    case SystemMergeStarted(t) =>
      PopOtherStep(cfg, musts, s);
      SystemMergeStartedStep(cfg, musts, popped, TaskOf(popped.board, t).pkg);
    case TerminationCheck =>
      PopOtherStep(cfg, musts, s);
      TerminationCheckStep(cfg, musts, popped);
  }

  lemma TokenReadableStep(cfg: Config, musts: set<(Package, Package)>, s: State)
    requires StateInv(cfg, musts, s)
    ensures StateInv(cfg, musts, s.(server := s.server.(watching := false)))
  {
    hide BoardInv, PlanInv, RunningOk, TokenKeysOk, EarlyOk;
  }

  lemma WakeupKeepsInv(cfg: Config, musts: set<(Package, Package)>, s: State)
    requires StateInv(cfg, musts, s)
    ensures StateInv(cfg, musts, s.(wakeup := false))
  {
    hide BoardInv, PlanInv, RunningOk, TokenKeysOk, ServerOk, EarlyOk;
  }

  lemma StepKeepsInv(cfg: Config, musts: set<(Package, Package)>, s: State, e: Event)
    requires ValidConfig(cfg) && ValidMusts(cfg, musts) && StateInv(cfg, musts, s)
    ensures StateInv(cfg, musts, Step(cfg, s, e))
  {
    hide StateInv, ValidConfig, ValidMusts, PopCallback, Handle, Schedule, Terminate, ExitTask, QueueSetup, CanExit, CanQueueSetup;
    match e
    case RunCallback =>
      if s.board.loop != [] {
        HandleKeepsInv(cfg, musts, s);
        ScheduleKeepsInv(cfg, musts, Handle(cfg, s.(board := PopCallback(s.board)), s.board.loop[0]));
      }
    case TaskExits(t, ok) => if CanExit(s.board, t) { ExitStep(cfg, musts, s, t, ok); }
    case SetupQueued(t) =>
      if CanQueueSetup(s, t) {
        QueueSetupStep(cfg, musts, s, t);
        ScheduleKeepsInv(cfg, musts, s.(board := QueueSetup(s.board, t)));
      }
    case TokenReadable =>
      TokenReadableStep(cfg, musts, s);
      ScheduleKeepsInv(cfg, musts, s.(server := s.server.(watching := false)));
    case MergeWakeup =>
      WakeupKeepsInv(cfg, musts, s);
      ScheduleKeepsInv(cfg, musts, s.(wakeup := false));
    case Tick => ScheduleKeepsInv(cfg, musts, s);
    case Interrupt => TerminateStep(cfg, musts, s);
  }

  lemma InitInv(cfg: Config, musts: set<(Package, Package)>)
    requires ValidConfig(cfg) && ValidMusts(cfg, musts)
    ensures StateInv(cfg, musts, Init(cfg))
  {
    hide Needs;
    var s := Init(cfg);
    assert UnhandledBuilds(s.board.objects) == {};
    assert forall token :: Holders(s.server.tokens, token) == {};
    assert Shrunk(cfg.graph, cfg.graph);
  }

  lemma {:induction false} RunKeepsInv(cfg: Config, musts: set<(Package, Package)>, events: seq<Event>)
    requires ValidConfig(cfg) && ValidMusts(cfg, musts)
    ensures StateInv(cfg, musts, Run(cfg, events))
    decreases |events|
  {
    hide StateInv, ValidConfig, ValidMusts, Step, Schedule, Init;
    if events == [] {
      InitInv(cfg, musts);
      ScheduleKeepsInv(cfg, musts, Init(cfg));
    } else {
      RunKeepsInv(cfg, musts, events[..|events| - 1]);
      StepKeepsInv(cfg, musts, Run(cfg, events[..|events| - 1]), events[|events| - 1]);
    }
  }

  // ----- dependencies first -----

  /** The merge list puts each package to be built after everything it needs merged. */
  ghost predicate WellOrdered(cfg: Config) {
    ListOrdered(cfg.graph, cfg.mergelist)
  }

  /** All pairs of a package to be merged and a package to be built that needs it. */
  ghost function AllMusts(cfg: Config): set<(Package, Package)> {
    set d, p | d in cfg.mergelist && p in cfg.mergelist && d.operation == Merge && !p.IsInstalled() && Needs(cfg.graph, p, d)
      :: (d, p)
  }

  lemma AllMustsValid(cfg: Config)
    requires ValidConfig(cfg) && WellOrdered(cfg)
    ensures ValidMusts(cfg, AllMusts(cfg))
  {
  }

  lemma AllMustsMember(cfg: Config, d: Package, p: Package)
    requires d in cfg.mergelist && p in cfg.mergelist && d.operation == Merge && !p.IsInstalled() && Needs(cfg.graph, p, d)
    ensures (d, p) in AllMusts(cfg)
  {
  }

  /**
   * In every run of a well-ordered merge list, whenever a package is in progress (built or merged),
   * every package to be merged that it needs, however deep, is completed. This includes packages
   * that went back to the head of the queue for want of a job token.
   */
  lemma DependenciesFirst(cfg: Config, events: seq<Event>, p: Package, d: Package)
    requires ValidConfig(cfg) && WellOrdered(cfg)
    requires p in cfg.mergelist && !p.IsInstalled() && InProgress(Run(cfg, events).board.objects, p)
    requires d in cfg.mergelist && d.operation == Merge && Needs(cfg.graph, p, d)
    ensures d in Run(cfg, events).plan.completed
  {
    hide BoardInv, GraphOk, QueueOk, PlacesOk, NoneLost, RunningOk, TokenKeysOk, ServerOk, EarlyOk, Needs, WellOrdered, ValidConfig;
    AllMustsValid(cfg);
    RunKeepsInv(cfg, AllMusts(cfg), events);
    AllMustsMember(cfg, d, p);
    var t: nat :| Live(Run(cfg, events).board.objects, t) && Run(cfg, events).board.objects[t].pkg == p;
  }

  /**
   * The same at the very moment of a start: when a round of the scheduling loop launches a build,
   * whatever that build needs is completed in the state the round begins in.
   */
  lemma LaunchNeedsCompleted(cfg: Config, s: State, d: Package)
    requires ValidConfig(cfg) && WellOrdered(cfg) && StateInv(cfg, AllMusts(cfg), s)
    requires ScheduleOne(cfg, s).Launched?
    ensures
      var c := ChoosePkg(s.plan, s.board.running != {});
      && c.pkg.Some?
      && TaskOf(ScheduleOne(cfg, s).s.board, |s.board.objects|).pkg == c.pkg.value
      && (!c.pkg.value.IsInstalled() && d in cfg.mergelist && d.operation == Merge && Needs(cfg.graph, c.pkg.value, d) ==>
            d in s.plan.completed)
  {
    hide BoardInv, GraphOk, QueueOk, PlacesOk, NoneLost, RunningOk, TokenKeysOk, ServerOk, Needs, WellOrdered, ValidConfig,
      OrderOk, StartedOk, ChoosePkg;
    AllMustsValid(cfg);
    ChooseGood(cfg, AllMusts(cfg), s);
    var c := ChoosePkg(s.plan, s.board.running != {});
    var pkg := c.pkg.value;
    ChosenInList(cfg, s, c);
    if !pkg.IsInstalled() && d in cfg.mergelist && d.operation == Merge && Needs(cfg.graph, pkg, d) {
      AllMustsMember(cfg, d, pkg);
      assert (d, pkg).1 == pkg;
    }
    LaunchedTask(cfg, s, c);
  }

  lemma ChosenInList(cfg: Config, s: State, c: Chosen)
    requires PlanInv(cfg, AllMusts(cfg), s.plan, s.board.objects, s.terminated)
    requires GoodChoice(cfg, AllMusts(cfg), s.plan, c) && c.pkg.Some?
    ensures c.pkg.value in cfg.mergelist
  {
  }

  lemma LaunchedTask(cfg: Config, s: State, c: Chosen)
    requires StateInv(cfg, AllMusts(cfg), s) && s.plan.queue != [] && c == ChoosePkg(s.plan, s.board.running != {}) && c.pkg.Some?
    requires !StopsScheduling(cfg, s) && !HeldBack(cfg, s.board, s.clock) && ScheduleOne(cfg, s).Launched?
    ensures TaskOf(ScheduleOne(cfg, s).s.board, |s.board.objects|).pkg == c.pkg.value
  {
    hide Live, GraphOk, QueueOk, PlacesOk, NoneLost, TokenKeysOk, ServerOk, Needs, ChoosePkg, OrderOk, StartedOk, RunningOk,
      LoopOk, SerialOk, SetupsOk, MergeWaitOk, ShapesOk, UnhandledBuilds, NoneLost, ReplacesOk, JobsOk, JobQueueOk, EarlyOk,
      AcquireJobToken, StartBuild, StartUninstall, StartAllOnJobQueue, PkgToReplace;
    var pkg := c.pkg.value;
    var asked := s.(clock := s.clock + 1, plan := c.plan);
    if pkg.IsInstalled() {
      StartUninstallLive(s.board, pkg, PkgToReplace(cfg, asked.clock, pkg));
    } else {
      AcquireFrame(cfg, asked);
      var a := AcquireJobToken(cfg, asked).s;
      StartBuildPkg(a.board, pkg, PkgToReplace(cfg, a.clock, pkg));
    }
  }

  lemma StartBuildPkg(b: Board, pkg: Package, toReplace: Option<Package>)
    ensures TaskOf(StartBuild(b, pkg, toReplace), |b.objects|).pkg == pkg
  {
    var t := |b.objects|;
    var created := Create(b, NewTask(BuildTask, pkg, toReplace)).(jobs := b.jobs + 1, running := b.running + {t});
    var r := Settle(created.jobQueue.(waiting := created.jobQueue.waiting + [t]), {});
    StartAllKeepsPkg(created.(jobQueue := r.queue), r.started, t);
  }

  lemma {:induction false} StartAllKeepsPkg(b: Board, ts: seq<TaskId>, t: TaskId)
    ensures TaskOf(StartAllOnJobQueue(b, ts), t).pkg == TaskOf(b, t).pkg
    decreases |ts|
  {
    if ts != [] {
      StartAllKeepsPkg(StartOnJobQueue(b, ts[0]), ts[1..], t);
    }
  }

  // ----- no two packages with the same cpv at once -----

  /** The arcs that _prevent_builddir_collisions adds: from a later package to an earlier one with its cpv. */
  ghost predicate HasCollisionArcs(cfg: Config) {
    forall e :: e in CollisionArcs(cfg.mergelist, |cfg.mergelist|) ==> e in cfg.graph.arcs
  }

  /**
   * In every run, of any merge list: two packages of the list with one cpv are never in progress
   * together, and the earlier one is completed before anything of the later one exists.
   */
  lemma SameCpvSerialized(cfg: Config, events: seq<Event>, i: nat, j: nat)
    requires ValidConfig(cfg) && HasCollisionArcs(cfg)
    requires i < j < |cfg.mergelist| && cfg.mergelist[i].cpv == cfg.mergelist[j].cpv
    requires !cfg.mergelist[i].IsInstalled() && !cfg.mergelist[j].IsInstalled()
    ensures
      var s := Run(cfg, events);
      && !(InProgress(s.board.objects, cfg.mergelist[i]) && InProgress(s.board.objects, cfg.mergelist[j]))
      && forall t: nat :: t < |s.board.objects| && s.board.objects[t].pkg == cfg.mergelist[j] ==>
           cfg.mergelist[i] in s.plan.completed
  {
    hide BoardInv, GraphOk, QueueOk, NoneLost, RunningOk, TokenKeysOk, ServerOk, EarlyOk, Needs, Live;
    var e, l := cfg.mergelist[i], cfg.mergelist[j];
    var musts := {(e, l)};
    assert (l, e) in CollisionArcs(cfg.mergelist, |cfg.mergelist|);
    ArcNeeds(cfg.graph, l, e);
    assert Before(cfg.mergelist, e, l);
    assert e in cfg.mergelist;
    RunKeepsInv(cfg, musts, events);
    var s := Run(cfg, events);
    forall t: nat | t < |s.board.objects| && s.board.objects[t].pkg == l
      ensures e in s.plan.completed
    {
      assert (e, l) in musts && (e, l).1 == s.board.objects[t].pkg;
    }
    CompletedNotInProgress(cfg, s.plan, s.board.objects, e);
    InProgressHasTask(s.board.objects, l);
  }

  lemma InProgressHasTask(objects: seq<Task>, p: Package)
    ensures InProgress(objects, p) ==> exists t: nat :: t < |objects| && objects[t].pkg == p
  {
  }

  lemma CompletedNotInProgress(cfg: Config, p: Plan, objects: seq<Task>, pkg: Package)
    requires PlacesOk(cfg, p.queue, p.completed, objects) && !pkg.IsInstalled()
    ensures pkg in p.completed ==> !InProgress(objects, pkg)
  {
  }

  lemma ArcNeeds(g: DepGraph, start: Package, node: Package)
    requires (start, node) in g.arcs && start != node
    ensures Needs(g, start, node)
  {
    assert IsPath(SearchArcs(g, start), [start, node], start, node);
  }

  // ----- every package is in one place -----

  /**
   * In every run each package of the merge list is queued, in progress or completed, unless something
   * failed or was terminated; a queued package is nowhere else, a merged one is not in progress, and
   * no package has two live tasks.
   */
  lemma OnePlace(cfg: Config, events: seq<Event>, p: Package)
    requires ValidConfig(cfg) && p in cfg.mergelist
    ensures
      var s := Run(cfg, events);
      && (s.plan.failed == [] && !s.terminated ==>
            p in s.plan.queue || InProgress(s.board.objects, p) || p in s.plan.completed)
      && (p in s.plan.queue ==> !InProgress(s.board.objects, p) && p !in s.plan.completed)
      && (p in s.plan.completed && !p.IsInstalled() ==> !InProgress(s.board.objects, p))
      && Distinct(s.plan.queue)
      && forall t: nat, u: nat ::
           (Live(s.board.objects, t) && Live(s.board.objects, u) && s.board.objects[t].pkg == s.board.objects[u].pkg) ==> t == u
  {
    hide BoardInv, GraphOk, RunningOk, TokenKeysOk, ServerOk, EarlyOk, Needs, Live;
    RunKeepsInv(cfg, {}, events);
    var s := Run(cfg, events);
    QueuedNotInProgress(cfg, s.plan, s.board.objects, p);
  }

  lemma QueuedNotInProgress(cfg: Config, p: Plan, objects: seq<Task>, pkg: Package)
    requires PlacesOk(cfg, p.queue, p.completed, objects)
    ensures pkg in p.queue ==> !InProgress(objects, pkg)
    ensures pkg in p.completed && !pkg.IsInstalled() ==> !InProgress(objects, pkg)
  {
  }

  // ----- merge-wait -----

  /**
   * In every reachable state, whatever the bound of the merge queue: while a merge-wait merge is
   * scheduled no job runs, and one of a system package is all that the merge queue holds.
   */
  lemma MergeWaitIsolated(cfg: Config, events: seq<Event>)
    requires ValidConfig(cfg)
    ensures
      var b := Run(cfg, events).board;
      && (b.waitScheduled != [] ==> b.jobs == 0)
      && forall t: nat, u: nat :: t < |b.objects| && b.mergeQueue.Holds(t) && Solitary(b.objects[t]) && b.mergeQueue.Holds(u) ==>
           u == t && t in b.waitScheduled
  {
    hide PlanInv, RunningOk, TokenKeysOk, ServerOk, EarlyOk, Needs, MergeQueueOk, JobQueueOk, MergeWaitOk, ShapesOk;
    RunKeepsInv(cfg, {}, events);
    var b := Run(cfg, events).board;
    forall t: nat | t < |b.objects| && b.mergeQueue.Holds(t) && Solitary(b.objects[t])
      ensures t in b.waitScheduled
    {
      SolitaryIsScheduled(b, t);
    }
  }

  // ----- jobs, tokens and callbacks -----

  /** The count of jobs is exact and bounded, and every build that is not handled has its token entry. */
  lemma JobsAccounted(cfg: Config, events: seq<Event>)
    requires ValidConfig(cfg)
    ensures
      var s := Run(cfg, events);
      && s.board.jobs == |UnhandledBuilds(s.board.objects)|
      && s.board.jobs <= cfg.maxJobs
      && s.server.tokens.Keys <= UnhandledBuilds(s.board.objects)
      && (!s.terminatedTasks ==> s.server.tokens.Keys == UnhandledBuilds(s.board.objects))
  {
    hide QueuesOk, LoopOk, SetupsOk, SerialOk, PlanInv, RunningOk, ServerOk, EarlyOk, Needs, UnhandledBuilds;
    RunKeepsInv(cfg, {}, events);
  }

  /**
   * While the jobserver is up, for every byte value, the tokens in its fifo, with other clients and
   * with tasks are as many as at the start; the implicit slot is free or held by exactly one task,
   * and no release can meet the assertion in _release_job_token.
   */
  lemma TokensConserved(cfg: Config, events: seq<Event>, token: int, t: TaskId)
    requires ValidConfig(cfg) && Run(cfg, events).server.up
    ensures
      var j := Run(cfg, events).server;
      && multiset(j.fifo)[token] + j.others[token] + |Holders(j.tokens, [token])|
           == multiset(cfg.server.fifo)[token] + cfg.server.others[token]
      && |Holders(j.tokens, [])| + (if j.implicit then 1 else 0) == (if cfg.server.implicit then 1 else 0)
      && !ReleaseAssertionFails(j, t)
  {
    hide BoardInv, PlanInv, RunningOk, TokenKeysOk, EarlyOk, Needs;
    RunKeepsInv(cfg, {}, events);
    ReleaseKeepsServer(cfg, cfg.server, Run(cfg, events), t);
  }

  /** The next callback always finds what it removes: no KeyError and no ValueError. */
  lemma CallbacksFindTheirTask(cfg: Config, events: seq<Event>)
    requires ValidConfig(cfg) && Run(cfg, events).board.loop != []
    ensures
      var b := Run(cfg, events).board;
      match b.loop[0]
      case JobQueueExit(t) => t in b.jobQueue.running
      case MergeQueueExit(t) => t in b.mergeQueue.running
      case MergeWaitExit(t) => t in b.waitScheduled
      case BuildExit(t) => t < |b.objects| && b.objects[t].kind == BuildTask && b.objects[t].status.Exited?
      case MergeExit(t) => t < |b.objects| && b.objects[t].kind == MergeTask && b.objects[t].status.Exited?
      case _ => true
  {
    hide PlanInv, RunningOk, TokenKeysOk, ServerOk, EarlyOk, Needs, QueuesOk, LoopOk, JobsOk, SetupsOk, SerialOk;
    RunKeepsInv(cfg, {}, events);
    var b := Run(cfg, events).board;
    match b.loop[0]
    case JobQueueExit(t) => JobQueueExitKeepsInv(b, t);
    case MergeQueueExit(t) => MergeQueueExitKeepsInv(b, t);
    case MergeWaitExit(t) => MergeWaitExitKeepsInv(b, t);
    case BuildExit(_) => ExitCallbackLive(b);
    case MergeExit(_) => ExitCallbackLive(b);
    case _ =>
  }

  // ----- progress -----

  /** While the early-return flag is set and scheduling goes on, a fresh search would choose nothing either. */
  lemma EarlyReturnJustified(cfg: Config, events: seq<Event>)
    requires ValidConfig(cfg) && Run(cfg, events).plan.chooseEarly && KeepScheduling(Run(cfg, events))
    ensures
      var s := Run(cfg, events);
      && s.board.running != {}
      && ChoosePkg(s.plan.(chooseEarly := false), s.board.running != {}) == Chosen(s.plan, None)
  {
    hide BoardInv, PlanInv, RunningOk, TokenKeysOk, ServerOk, Needs, Prune, SearchQueue;
    RunKeepsInv(cfg, {}, events);
  }

  /** With no task running, no list of tasks has anything left. */
  lemma IdleBoard(cfg: Config, s: State)
    requires StateInv(cfg, {}, s) && s.board.running == {} && !s.terminatedTasks
    ensures s.board.jobs == 0 && s.board.mergeWait == [] && s.board.waitScheduled == []
  {
    hide PlanInv, TokenKeysOk, ServerOk, EarlyOk, LoopOk, SetupsOk, SerialOk, ShapesOk, MergeQueueOk, JobQueueOk;
    var b := s.board;
    assert forall t: nat :: !Live(b.objects, t);
    assert UnhandledBuilds(b.objects) == {};
    forall t: nat | t in b.mergeWait || t in b.waitScheduled
      ensures Live(b.objects, t)
    {
    }
    NoMembers(b.mergeWait);
    NoMembers(b.waitScheduled);
  }

  lemma NoMembers(ts: seq<TaskId>)
    ensures ts == [] || exists t: nat :: t in ts
  {
    if ts != [] {
      assert ts[0] in ts;
    }
  }

  /**
   * No call of _schedule_tasks, wherever it is made, strands the queue: if no task is running
   * afterwards, then the main exit is done or the package at the head of the queue waits for a token.
   */
  lemma NeverStranded(cfg: Config, s: State)
    requires ValidConfig(cfg) && StateInv(cfg, {}, s)
    ensures
      var r := Schedule(cfg, s);
      r.board.running == {} ==> r.mainExitDone || (KeepScheduling(r) && TokenBlocked(r))
  {
    hide BoardInv, PlanInv, RunningOk, TokenKeysOk, ServerOk, Needs, ScheduleLoop, ValidConfig;
    ScheduleKeepsInv(cfg, {}, s);
    var r := Schedule(cfg, s);
    ScheduleDone(cfg, s);
    if r.board.running == {} && KeepScheduling(r) {
      IdleBoard(cfg, r);
      MaxJobsPositive(cfg);
    }
  }

  lemma MaxJobsPositive(cfg: Config)
    requires ValidConfig(cfg)
    ensures 1 <= cfg.maxJobs
  {
  }

  lemma ScheduleDone(cfg: Config, s: State)
    ensures
      var r := Schedule(cfg, s);
      r.board.running == {} && !KeepScheduling(r) ==> r.mainExitDone
  {
    hide ScheduleLoop;
  }

  /** Each repeated round of _schedule_tasks shrinks the queue and the merge-wait queue together. */
  lemma RoundsShrinkBacklog(cfg: Config, s: State)
    ensures
      var r := ScheduleRound(cfg, s);
      r.1 || MergeWaitDue(r.0.board) ==> Backlog(r.0) < Backlog(s)
  {
  }
}
