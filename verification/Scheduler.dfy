/**
 * The classes Scheduler and PollScheduler as one object whose methods update its fields, each proved
 * to do what SchedulerModel specifies. `Valid()` is the global invariant.
 */
module Schedulers {
  import opened DependencySearch
  import opened Digraphs
  import opened Packages
  import opened SchedulerBoard
  import opened SchedulerChoice
  import opened SchedulerInvariant
  import opened SchedulerModel
  import opened SchedulerSteps
  import opened SchedulerTheorems
  import opened SchedulerTokens
  import opened Sequences
  import opened TaskQueues
  import opened Wrappers

  class Scheduler {
    const cfg: Config
    // task objects, their queues and the event loop
    var objects: seq<Task>
    var runningTasks: set<TaskId>
    var jobs: int
    var mergeWaitQueue: seq<TaskId>
    var mergeWaitScheduled: seq<TaskId>
    var mergeQueue: Queue
    var jobQueue: Queue
    var loop: seq<Callback>
    // what to merge
    var digraph: DepGraph
    var pkgQueue: seq<Package>
    var unsatisfiedSystemDeps: set<Package>
    var completedTasks: set<Package>
    var failedPkgs: seq<Package>
    var choosePkgReturnEarly: bool
    // the jobserver
    var server: Jobserver
    // PollScheduler
    var terminated: bool
    var termCheckHandle: bool
    var terminatedTasks: bool
    var mainExitDone: bool
    var mergeWakeup: bool
    var clock: nat

    ghost function Tasks(): Board
      reads this
    {
      Board(objects, runningTasks, jobs, mergeWaitQueue, mergeWaitScheduled, mergeQueue, jobQueue, loop)
    }

    ghost function Packages(): Plan
      reads this
    {
      Plan(digraph, pkgQueue, unsatisfiedSystemDeps, completedTasks, failedPkgs, choosePkgReturnEarly)
    }

    ghost function View(): State
      reads this
    {
      State(Tasks(), Packages(), server, terminated, termCheckHandle, terminatedTasks, mainExitDone, mergeWakeup, clock)
    }

    ghost predicate Valid()
      reads this
    {
      ValidConfig(cfg) && StateInv(cfg, {}, View())
    }

    /** The state in which _main_loop makes its first call of _schedule. */
    constructor (config: Config)
      requires ValidConfig(config)
      ensures cfg == config && View() == Init(config) && Valid()
    {
      cfg := config;
      objects, runningTasks, jobs, mergeWaitQueue, mergeWaitScheduled := [], {}, 0, [], [];
      mergeQueue, jobQueue, loop := Queue(Some(config.mergeMax), [], {}), Queue(Some(config.maxJobs), [], {}), [];
      digraph, pkgQueue, unsatisfiedSystemDeps := config.graph, config.mergelist, {};
      completedTasks, failedPkgs, choosePkgReturnEarly := {}, [], false;
      server := config.server;
      terminated, termCheckHandle, terminatedTasks, mainExitDone, mergeWakeup, clock := false, false, false, false, false, 0;
      new;
      InitInv(config, {});
    }

    method Terminate()
      modifies this`terminated, this`termCheckHandle, this`loop
      ensures View() == SchedulerModel.Terminate(old(View()))
    {
      if !termCheckHandle {
        terminated := true;
        termCheckHandle := true;
        loop := loop + [TerminationCheck];
      }
    }

    /** None stands for BlockingIOError. */
    method AcquireJobToken() returns (token: Option<seq<int>>)
      modifies this`server, this`clock, this`terminated, this`termCheckHandle, this`loop
      ensures
        match SchedulerModel.AcquireJobToken(cfg, old(View()))
        case Token(s, bytes) => token == Some(bytes) && View() == s
        case WouldBlock(s) => token == None && View() == s
    {
      hide RivalsAct;
      RivalsFrame(cfg, server, clock);
      if !server.up {
        return Some([]);
      }
      if server.implicit {
        server := server.(implicit := false);
        return Some([]);
      }
      var now := clock;
      server, clock := RivalsAct(cfg, server, now), now + 1;
      if cfg.ioError(now) {
        server := server.(up := false);
        Terminate();
        return Some([]);
      }
      if server.fifo == [] {
        return None;
      }
      token := Some([server.fifo[0]]);
      server := server.(fifo := server.fifo[1..]);
    }

    method ReleaseJobToken(t: TaskId)
      modifies this`server, this`clock, this`terminated, this`termCheckHandle, this`loop
      ensures View() == SchedulerModel.ReleaseJobToken(cfg, old(View()), t)
    {
      if t !in server.tokens {
        return;
      }
      var token := server.tokens[t];
      server := server.(tokens := server.tokens - {t});
      if !server.up {
        return;
      }
      if token == [] {
        server := server.(implicit := true);
        return;
      }
      var now := clock;
      clock := now + 1;
      if cfg.ioError(now) {
        server := server.(up := false);
        Terminate();
      } else {
        server := server.(fifo := server.fifo + token);
      }
    }

    /** The merge queue's schedule(): start waiting tasks while there is room. */
    method SettleMerges()
      modifies this`objects, this`loop, this`mergeQueue
      ensures Tasks() == SettleMergeQueue(old(Tasks()), old(mergeQueue))
    {
      ghost var goal := SettleMergeQueue(Tasks(), mergeQueue);
      while mergeQueue.waiting != [] && mergeQueue.Room()
        invariant Tasks() == old(Tasks()).(objects := objects, loop := loop, mergeQueue := mergeQueue)
        invariant SettleMergeQueue(Tasks(), mergeQueue) == goal
        decreases |mergeQueue.waiting|
      {
        var t := mergeQueue.waiting[0];
        ghost var before, q := Tasks(), mergeQueue;
        mergeQueue := mergeQueue.(waiting := mergeQueue.waiting[1..], running := mergeQueue.running + {t});
        ghost var next := mergeQueue;
        StartOne(t);
        SettleMergesOnce(before, q, next);
      }
    }

    /** A started task gets the queue's exit listener before start() is called. */
    method StartOne(t: TaskId)
      modifies this`objects, this`loop
      ensures Tasks() == StartOnMergeQueue(old(Tasks()), t)
    {
      if t < |objects| {
        var task := objects[t];
        objects := objects[t := task.(status := Started, listeners := task.listeners + [MergeQueueExit(t)])];
        if NotifiesStart(task) {
          loop := loop + [SystemMergeStarted(t)];
        }
      }
    }

    method AddExitListener(t: TaskId, c: Callback)
      modifies this`objects
      ensures Tasks() == AddListener(old(Tasks()), t, c)
    {
      if t < |objects| {
        objects := objects[t := objects[t].(listeners := objects[t].listeners + [c])];
      }
    }

    method AddMerge(t: TaskId)
      modifies this`objects, this`loop, this`mergeQueue
      ensures Tasks() == AddToMergeQueue(old(Tasks()), t)
    {
      mergeQueue := mergeQueue.(waiting := mergeQueue.waiting + [t]);
      SettleMerges();
    }

    method AddMergeFront(t: TaskId)
      modifies this`objects, this`loop, this`mergeQueue
      ensures Tasks() == AddFrontToMergeQueue(old(Tasks()), t)
    {
      mergeQueue := mergeQueue.(waiting := [t] + mergeQueue.waiting);
      SettleMerges();
    }

    method TaskComplete(pkg: Package)
      modifies this`completedTasks, this`unsatisfiedSystemDeps, this`choosePkgReturnEarly
      ensures Packages() == SchedulerModel.TaskComplete(old(Packages()), pkg)
    {
      completedTasks := completedTasks + {pkg};
      unsatisfiedSystemDeps := unsatisfiedSystemDeps - {pkg};
      choosePkgReturnEarly := false;
    }

    method DoMergeExit(t: TaskId)
      modifies this`completedTasks, this`unsatisfiedSystemDeps, this`choosePkgReturnEarly, this`failedPkgs, this`pkgQueue
      ensures Packages() == SchedulerModel.DoMergeExit(old(Packages()), TaskOf(old(Tasks()), t))
    {
      var task := if t < |objects| then objects[t] else NO_TASK;
      if task.status != Exited(true) {
        failedPkgs := failedPkgs + [task.pkg];
        return;
      }
      TaskComplete(task.pkg);
      if task.toReplace.Some? && task.toReplace.value in digraph.order {
        pkgQueue := RemoveFirst(pkgQueue, task.toReplace.value);
        TaskComplete(task.toReplace.value);
      }
    }

    /** _prune_digraph: passes over the root nodes until one finds nothing to drop. */
    method FindPrunableRoots() returns (removed: set<Package>)
      ensures removed == PrunableRoots(digraph, completedTasks)
    {
      var roots := digraph.RootNodes();
      removed := {};
      for i := 0 to |roots|
        invariant removed == set n | n in roots[..i] && Prunable(n, completedTasks)
      {
        assert roots[..i + 1] == roots[..i] + [roots[i]];
        if Prunable(roots[i], completedTasks) {
          removed := removed + {roots[i]};
        }
      }
      assert roots[..|roots|] == roots;
    }

    method PruneDigraph()
      requires digraph.Valid()
      modifies this`digraph
      ensures digraph == Prune(old(digraph), completedTasks)
    {
      hide PrunableRoots;
      while true
        invariant digraph.Valid()
        invariant Prune(digraph, completedTasks) == Prune(old(digraph), completedTasks)
        decreases |digraph.order|
      {
        var removed := FindPrunableRoots();
        if removed == {} {
          break;
        }
        WithoutValid(digraph, removed);
        PassShrinks(digraph, completedTasks);
        digraph := digraph.Without(removed);
      }
    }

    /** The first uninstall task in the queue without dependencies. */
    method FindFreeUninstall() returns (i: nat)
      ensures i == FreeUninstall(digraph, pkgQueue, 0)
    {
      i := 0;
      while i < |pkgQueue| && (pkgQueue[i].operation != Uninstall || digraph.ChildNodes(pkgQueue[i]) != [])
        invariant i <= |pkgQueue|
        invariant FreeUninstall(digraph, pkgQueue, i) == FreeUninstall(digraph, pkgQueue, 0)
      {
        i := i + 1;
      }
    }

    /** The first package in the queue that depends on no scheduled merge. */
    method FindFree() returns (i: nat)
      requires digraph.Valid() && forall p :: p in pkgQueue ==> p in digraph.order
      ensures i == FirstFree(digraph, completedTasks, pkgQueue, 0)
    {
      i := 0;
      while i < |pkgQueue|
        invariant i <= |pkgQueue|
        invariant FirstFree(digraph, completedTasks, pkgQueue, i) == FirstFree(digraph, completedTasks, pkgQueue, 0)
      {
        var later := Elements(pkgQueue[i + 1..]);
        var dependent := DependentOnScheduledMerges(digraph, completedTasks, pkgQueue[i], later);
        if !dependent {
          return;
        }
        i := i + 1;
      }
    }

    /** The search: uninstall operations are preferred when available. */
    method Search() returns (i: nat)
      requires digraph.Valid() && forall p :: p in pkgQueue ==> p in digraph.order
      ensures i == SearchQueue(digraph, completedTasks, pkgQueue)
    {
      hide FreeUninstall, FirstFree;
      i := FindFreeUninstall();
      if i >= |pkgQueue| {
        i := FindFree();
      }
    }

    /** The part of _choose_pkg that prunes and searches. */
    method TakeFree() returns (chosen: Option<Package>)
      requires digraph.Valid() && Prune(digraph, completedTasks).Valid()
      requires forall p :: p in pkgQueue ==> p in Prune(digraph, completedTasks).order
      modifies this`digraph, this`pkgQueue, this`choosePkgReturnEarly
      ensures digraph == Prune(old(digraph), completedTasks)
      ensures
        var i := SearchQueue(digraph, completedTasks, old(pkgQueue));
        if i < |old(pkgQueue)| then
          && chosen == Some(old(pkgQueue)[i]) && pkgQueue == old(pkgQueue)[..i] + old(pkgQueue)[i + 1..]
          && choosePkgReturnEarly == old(choosePkgReturnEarly)
        else chosen == None && pkgQueue == old(pkgQueue) && choosePkgReturnEarly
    {
      hide Prune, SearchQueue;
      PruneDigraph();
      var i := Search();
      if i < |pkgQueue| {
        chosen := Some(pkgQueue[i]);
        pkgQueue := pkgQueue[..i] + pkgQueue[i + 1..];
      } else {
        choosePkgReturnEarly := true;
        chosen := None;
      }
    }

    /** None when no package can be chosen now. */
    method ChoosePkg() returns (chosen: Option<Package>)
      requires Valid() && pkgQueue != []
      modifies this`digraph, this`pkgQueue, this`choosePkgReturnEarly
      ensures
        var c := SchedulerModel.ChoosePkg(old(Packages()), runningTasks != {});
        chosen == c.pkg && View() == old(View()).(plan := c.plan)
    {
      hide StateInv, ValidConfig, Prune, SearchQueue;
      if choosePkgReturnEarly {
        chosen := None;
      } else if runningTasks == {} {
        chosen := Some(pkgQueue[0]);
        pkgQueue := pkgQueue[1..];
      } else {
        SearchReady(cfg, View());
        chosen := TakeFree();
      }
    }

    predicate KeepScheduling()
      reads this
      ensures KeepScheduling() == SchedulerModel.KeepScheduling(View())
    {
      !terminated && pkgQueue != [] && failedPkgs == []
    }

    /** _can_add_job and _job_delay; the environment is asked once. */
    method CanAddJob() returns (can: bool)
      modifies this`clock
      ensures
        var s := old(View());
        && can == (!terminatedTasks && jobs < cfg.maxJobs && !HeldBack(cfg, s.board, s.clock))
        && View() == if !terminatedTasks && jobs < cfg.maxJobs then s.(clock := s.clock + 1) else s
    {
      if terminatedTasks || jobs >= cfg.maxJobs {
        return false;
      }
      var now := clock;
      clock := now + 1;
      if jobs >= 1 && cfg.maxJobs > 1 && cfg.loaded(now) {
        return false;
      }
      if !(jobs == 0 && mergeWaitQueue == []) && cfg.noSpace(now) {
        return false;
      }
      can := !(jobs != 0 && cfg.delayed(now));
    }

    method LaunchUninstall(pkg: Package)
      requires pkg.IsInstalled()
      modifies this`objects, this`runningTasks, this`mergeQueue, this`loop, this`clock
      ensures View() == SchedulerModel.Launch(cfg, old(View()), pkg, [])
    {
      hide AddFrontToMergeQueue, AddListener, PkgToReplace, Create;
      var now := clock;
      clock := now + 1;
      StartMerge(|objects|, NewTask(MergeTask, pkg, PkgToReplace(cfg, now, pkg)));
    }

    method StartMerge(t: TaskId, task: Task)
      requires t == |objects|
      modifies this`objects, this`runningTasks, this`mergeQueue, this`loop
      ensures
        var created := Create(old(Tasks()), task).(running := old(runningTasks) + {t});
        Tasks() == AddListener(AddFrontToMergeQueue(created, t), t, MergeExit(t))
    {
      hide AddFrontToMergeQueue, AddListener;
      objects := objects + [task];
      runningTasks := runningTasks + {t};
      AddMergeFront(t);
      AddExitListener(t, MergeExit(t));
    }

    method LaunchBuild(pkg: Package, token: seq<int>)
      requires !pkg.IsInstalled()
      modifies this`objects, this`jobs, this`runningTasks, this`jobQueue, this`server, this`clock
      ensures View() == SchedulerModel.Launch(cfg, old(View()), pkg, token)
    {
      hide SchedulerModel.Launch, AddToJobQueue, AddListener, PkgToReplace, Create, NewTask;
      LaunchBuildIs(cfg, View(), pkg, token);
      var t, now := |objects|, clock;
      var task := NewTask(BuildTask, pkg, PkgToReplace(cfg, now, pkg));
      server, clock := server.(tokens := server.tokens[t := token]), now + 1;
      StartJob(t, task);
    }

    method StartJob(t: TaskId, task: Task)
      requires t == |objects|
      modifies this`objects, this`jobs, this`runningTasks, this`jobQueue
      ensures
        var created := Create(old(Tasks()), task).(jobs := old(jobs) + 1, running := old(runningTasks) + {t});
        Tasks() == AddListener(AddToJobQueue(created, t), t, BuildExit(t))
    {
      hide AddToJobQueue, AddListener;
      objects := objects + [task];
      jobs := jobs + 1;
      runningTasks := runningTasks + {t};
      AddJob(t);
      AddExitListener(t, BuildExit(t));
    }

    method AddJob(t: TaskId)
      modifies this`objects, this`jobQueue
      ensures Tasks() == AddToJobQueue(old(Tasks()), t)
    {
      jobQueue := jobQueue.(waiting := jobQueue.waiting + [t]);
      SettleJobs();
    }

    /** The job queue's schedule(). */
    method SettleJobs()
      modifies this`objects, this`jobQueue
      ensures Tasks() == SettleJobQueue(old(Tasks()), old(jobQueue))
    {
      ghost var goal := SettleJobQueue(Tasks(), jobQueue);
      while jobQueue.waiting != [] && jobQueue.Room()
        invariant Tasks() == old(Tasks()).(objects := objects, jobQueue := jobQueue)
        invariant SettleJobQueue(Tasks(), jobQueue) == goal
        decreases |jobQueue.waiting|
      {
        var u := jobQueue.waiting[0];
        ghost var before, q := Tasks(), jobQueue;
        jobQueue := jobQueue.(waiting := jobQueue.waiting[1..], running := jobQueue.running + {u});
        ghost var next := jobQueue;
        if u < |objects| {
          objects := objects[u := objects[u].(status := Started, listeners := objects[u].listeners + [JobQueueExit(u)])];
        }
        SettleJobsOnce(before, q, next);
      }
    }

    method ScheduleTasksImp() returns (stateChange: bool)
      requires Valid()
      modifies this
      ensures Valid()
      ensures (View(), stateChange) == SchedulerModel.ScheduleTasksImp(cfg, old(View()))
    {
      stateChange := false;
      ghost var start := View();
      while true
        invariant Valid()
        invariant SchedulerModel.ScheduleTasksImp(cfg, View()).0 == SchedulerModel.ScheduleTasksImp(cfg, start).0
        invariant stateChange ==> SchedulerModel.ScheduleTasksImp(cfg, start).1
        invariant !stateChange ==> View() == start
        decreases |pkgQueue|
      {
        ghost var s := View();
        ScheduleOneKeepsInv(cfg, {}, s);
        var launched := Attempt();
        if !launched {
          return;
        }
        stateChange := true;
      }
    }

    /** One round of the loop in _schedule_tasks_imp. */
    method Attempt() returns (launched: bool)
      requires Valid()
      modifies this
      ensures launched == ScheduleOne(cfg, old(View())).Launched?
      ensures View() == ScheduleOne(cfg, old(View())).s
    {
      hide StateInv, ValidConfig, SchedulerModel.ChoosePkg, HeldBack, Attend;
      if !KeepScheduling() || choosePkgReturnEarly || mergeWaitScheduled != [] || (jobs != 0 && unsatisfiedSystemDeps != {}) {
        return false;
      }
      var can := CanAddJob();
      if !can {
        return false;
      }
      AskedValid(cfg, old(View()));
      var chosen := ChoosePkg();
      if chosen.None? {
        return false;
      }
      launched := StartChosen(chosen.value);
    }

    /** The chosen package gets its token and starts, or goes back to the head of the queue. */
    method StartChosen(pkg: Package) returns (launched: bool)
      modifies this
      ensures launched == Attend(cfg, old(View()), pkg).Launched?
      ensures View() == Attend(cfg, old(View()), pkg).s
    {
      hide SchedulerModel.AcquireJobToken, SchedulerModel.Launch;
      if pkg.IsInstalled() {
        LaunchUninstall(pkg);
        return true;
      }
      var token := AcquireJobToken();
      if token.None? {
        pkgQueue := [pkg] + pkgQueue;
        server := server.(watching := true);
        return false;
      }
      LaunchBuild(pkg, token.value);
      launched := true;
    }

    /** The head of the merge-wait queue goes to the merge queue. */
    method MoveHead()
      requires mergeWaitQueue != []
      modifies this`objects, this`mergeWaitQueue, this`mergeWaitScheduled, this`mergeQueue, this`loop
      ensures Tasks() == MoveOne(old(Tasks()))
    {
      hide AddToMergeQueue, AddListener;
      var t := mergeWaitQueue[0];
      mergeWaitQueue := mergeWaitQueue[1..];
      if t < |objects| {
        objects := objects[t := objects[t].(viaWait := true)];
      }
      mergeWaitScheduled := mergeWaitScheduled + [t];
      AddMerge(t);
      AddExitListener(t, MergeWaitExit(t));
    }

    method MoveMerges()
      modifies this`objects, this`mergeWaitQueue, this`mergeWaitScheduled, this`mergeQueue, this`loop
      ensures View() == old(View()).(board := MoveMergeWait(old(Tasks())))
    {
      hide MoveOne;
      ghost var start := Tasks();
      while mergeWaitQueue != []
        invariant MoveMergeWait(Tasks()) == MoveMergeWait(start)
        decreases |mergeWaitQueue|
      {
        var t := mergeWaitQueue[0];
        var system := t < |objects| && objects[t].isSystem;
        if mergeQueue.Busy() && system {
          break;
        }
        MoveHead();
        if system {
          assert Tasks() == MoveMergeWait(start);
          return;
        }
      }
    }

    /** _schedule_tasks: rounds until nothing changes, the main exit if nothing is left, and the merge wakeup. */
    method ScheduleTasks()
      requires Valid()
      modifies this
      ensures Valid()
      ensures View() == Schedule(cfg, old(View()))
    {
      hide StateInv, ValidConfig, SchedulerModel.ScheduleTasksImp, MoveMergeWait;
      ghost var start := View();
      ScheduleKeepsInv(cfg, {}, start);
      var again := true;
      while again
        invariant Valid()
        invariant again ==> ScheduleLoop(cfg, View()) == ScheduleLoop(cfg, start)
        invariant !again ==> View() == ScheduleLoop(cfg, start)
        decreases Backlog(View()), again
      {
        ghost var s := View();
        RoundsShrinkBacklog(cfg, s);
        var due := mergeWaitQueue != [] && jobs == 0 && !mergeQueue.Busy();
        if due {
          MoveKeepsInv(cfg, {}, s);
          MoveMerges();
        }
        var changed := ScheduleTasksImp();
        again := changed || due || (mergeWaitQueue != [] && jobs == 0 && !mergeQueue.Busy());
      }
      if runningTasks == {} && !KeepScheduling() {
        mainExitDone := true;
      }
      mergeWakeup := mergeWakeup || mergeQueue.Busy();
    }

    /** The merge queue was seen empty. */
    method ScheduleMergeWakeup()
      requires Valid()
      modifies this
      ensures Valid()
      ensures View() == WakeUp(cfg, old(View()))
    {
      hide StateInv, Schedule;
      WakeupKeepsInv(cfg, {}, View());
      mergeWakeup := false;
      if !mainExitDone {
        ScheduleTasks();
      }
    }

    // ----- exit handlers; RunCallback says which are followed by _schedule -----

    method HandleMergeExit(t: TaskId)
      modifies this`runningTasks, this`completedTasks, this`unsatisfiedSystemDeps, this`choosePkgReturnEarly, this`failedPkgs, this`pkgQueue
      ensures View() == MergeExitHandler(old(View()), t)
    {
      hide SchedulerModel.DoMergeExit;
      runningTasks := runningTasks - {t};
      DoMergeExit(t);
    }

    method HandleMergeWaitExit(t: TaskId)
      modifies this`mergeWaitScheduled, this`runningTasks, this`completedTasks, this`unsatisfiedSystemDeps, this`choosePkgReturnEarly, this`failedPkgs, this`pkgQueue
      ensures View() == MergeWaitExitHandler(old(View()), t)
    {
      hide RemoveFirst, SchedulerModel.DoMergeExit, TaskOf;
      mergeWaitScheduled := RemoveFirst(mergeWaitScheduled, t);
      HandleMergeExit(t);
    }

    /** The merge task of a finished build, in the merge-wait queue or in the merge queue. */
    method Promote(build: Task)
      modifies this`objects, this`runningTasks, this`mergeWaitQueue, this`mergeQueue, this`loop
      ensures Tasks() == PromoteBuild(cfg, old(Tasks()), build)
    {
      hide AddToMergeQueue, AddListener;
      var m := |objects|;
      objects := objects + [MergeOf(cfg, build)];
      runningTasks := runningTasks + {m};
      if GoesToMergeWait(cfg, build) {
        mergeWaitQueue := mergeWaitQueue + [m];
      } else {
        AddMerge(m);
        AddExitListener(m, MergeExit(m));
      }
    }

    /** What becomes of a build that ended: a merge, a failure or, after an interruption, nothing. */
    method SettleBuild(build: Task)
      modifies this`objects, this`runningTasks, this`mergeWaitQueue, this`mergeQueue, this`loop, this`failedPkgs
      ensures
        var s := old(View());
        View() ==
          if build.status == Exited(true) && s.terminatedTasks then s
          else if build.status == Exited(true) then s.(board := PromoteBuild(cfg, s.board, build))
          else s.(plan := s.plan.(failed := s.plan.failed + [build.pkg]))
    {
      hide PromoteBuild;
      if build.status == Exited(true) && terminatedTasks {
        return;
      }
      if build.status == Exited(true) {
        Promote(build);
      } else {
        failedPkgs := failedPkgs + [build.pkg];
      }
    }

    method HandleBuildExit(t: TaskId)
      modifies this
      ensures View() == BuildExitHandler(cfg, old(View()), t)
    {
      hide PromoteBuild, SchedulerModel.ReleaseJobToken;
      var build := if t < |objects| then objects[t] else NO_TASK;
      runningTasks := runningTasks - {t};
      ReleaseJobToken(t);
      SettleBuild(build);
      CountJobDone();
    }

    method CountJobDone()
      modifies this`jobs
      ensures View() == old(View()).(board := old(Tasks()).(jobs := old(jobs) - 1))
    {
      jobs := jobs - 1;
    }

    method HandleSystemMergeStarted(pkg: Package)
      modifies this`unsatisfiedSystemDeps
      ensures Packages() == SystemMergeStartedHandler(old(Packages()), pkg)
    {
      hide StillToMerge;
      if pkg.root != 0 {
        return;
      }
      AddUnsatisfied(digraph.ChildNodesWhere(pkg, UnsatisfiedRuntime), pkg);
    }

    method AddUnsatisfied(children: seq<Package>, pkg: Package)
      modifies this`unsatisfiedSystemDeps
      ensures unsatisfiedSystemDeps == old(unsatisfiedSystemDeps) + StillToMerge(children, pkg, completedTasks)
    {
      for i := 0 to |children|
        invariant unsatisfiedSystemDeps == old(unsatisfiedSystemDeps) + StillToMerge(children[..i], pkg, completedTasks)
      {
        var child := children[i];
        assert children[..i + 1] == children[..i] + [child];
        if child.operation == Uninstall || child == pkg {
          continue;
        }
        if child.operation == Merge && child !in completedTasks {
          unsatisfiedSystemDeps := unsatisfiedSystemDeps + {child};
        }
      }
      assert children[..|children|] == children;
    }

    method HandleMergeQueueExit(t: TaskId)
      modifies this`objects, this`loop, this`mergeQueue
      ensures View() == old(View()).(board := MergeQueueExitHandler(old(Tasks()), t))
    {
      mergeQueue := mergeQueue.(running := mergeQueue.running - {t});
      if mergeQueue.waiting != [] {
        ghost var b := Tasks();
        assert SettleMergeQueue(b, mergeQueue) == SettleMergeQueue(old(Tasks()), mergeQueue);
        SettleMerges();
      }
    }

    // ----- termination -----

    /** A task that is told to cancel while it waits gets a return code, and its listeners are scheduled. */
    method CancelTask(t: TaskId)
      modifies this`objects, this`loop
      ensures Tasks() == CancelWaiting(old(Tasks()), t)
    {
      if t < |objects| && objects[t].status.Waiting? {
        var task := objects[t];
        objects := objects[t := task.(status := Exited(false))];
        loop := loop + task.listeners;
      }
    }

    method CancelTasks(ts: seq<TaskId>)
      modifies this`objects, this`loop
      ensures Tasks() == CancelAllWaiting(old(Tasks()), ts)
    {
      hide CancelWaiting;
      ghost var start := Tasks();
      for i := 0 to |ts|
        invariant CancelAllWaiting(Tasks(), ts[i..]) == CancelAllWaiting(start, ts)
      {
        assert ts[i..][1..] == ts[i + 1..];
        CancelTask(ts[i]);
      }
    }

    /** Tasks that are not alive leave the running tasks, with their tokens. */
    method ReleaseIdleTasks()
      modifies this
      ensures View() == ReleaseIdle(cfg, old(View()), |old(objects)|)
    {
      hide SchedulerModel.ReleaseJobToken;
      ghost var start := View();
      var n := |objects|;
      for t := 0 to n
        invariant View() == ReleaseIdle(cfg, start, t)
      {
        if t in runningTasks && !(t < |objects| && objects[t].status.Started?) {
          ghost var s := View();
          ReleaseJobToken(t);
          runningTasks := runningTasks - {t};
        }
      }
    }

    /** _terminate_tasks: running tasks are told to cancel, which shows when they exit. */
    method TerminateTasks()
      modifies this
      ensures View() == SchedulerModel.TerminateTasks(cfg, old(View()))
    {
      hide CancelAllWaiting, ReleaseIdle;
      ReleaseIdleTasks();
      CancelTasks(mergeQueue.waiting);
      mergeQueue := mergeQueue.(waiting := []);
      CancelTasks(jobQueue.waiting);
      jobQueue := jobQueue.(waiting := []);
    }

    method HandleTerminationCheck()
      modifies this
      ensures View() == TerminationCheckHandler(cfg, old(View()))
    {
      if terminated && !terminatedTasks {
        terminatedTasks := true;
        TerminateTasks();
      }
    }

    // ----- the event loop -----

    method PopNext() returns (c: Callback)
      requires loop != []
      modifies this`loop, this`objects
      ensures c == old(loop)[0] && View() == old(View()).(board := PopCallback(old(Tasks())))
    {
      c := loop[0];
      loop := loop[1..];
      if IsExit(c) && c.t < |objects| {
        objects := objects[c.t := objects[c.t].(listeners := RemoveFirst(objects[c.t].listeners, c))];
      }
    }

    /** The event loop calls its next callback. */
    method RunCallback()
      requires Valid()
      modifies this
      ensures Valid()
      ensures View() == Dispatch(cfg, old(View()))
    {
      hide StateInv, ValidConfig, BuildExitHandler, MergeExitHandler, MergeWaitExitHandler, SystemMergeStartedHandler,
        MergeQueueExitHandler, TerminationCheckHandler, PopCallback, Schedule, TaskOf;
      if loop == [] {
        return;
      }
      HandleKeepsInv(cfg, {}, View());
      var c := PopNext();
      match c
      case JobQueueExit(t) => HandleJobQueueExit(t);
      case MergeQueueExit(t) => HandleMergeQueueExit(t);
      case BuildExit(t) =>
        HandleBuildExit(t);
        ScheduleTasks();
      case MergeExit(t) =>
        HandleMergeExit(t);
        ScheduleTasks();
      case MergeWaitExit(t) =>
        HandleMergeWaitExit(t);
        ScheduleTasks();
      case SystemMergeStarted(t) => NoteSystemMerge(t);
      case TerminationCheck => HandleTerminationCheck();
    }

    method NoteSystemMerge(t: TaskId)
      modifies this`unsatisfiedSystemDeps
      ensures View() == old(View()).(plan := SystemMergeStartedHandler(old(Packages()), TaskOf(old(Tasks()), t).pkg))
    {
      HandleSystemMergeStarted((if t < |objects| then objects[t] else NO_TASK).pkg);
    }

    method HandleJobQueueExit(t: TaskId)
      modifies this`objects, this`jobQueue
      ensures View() == old(View()).(board := JobQueueExitHandler(old(Tasks()), t))
    {
      jobQueue := jobQueue.(running := jobQueue.running - {t});
      if jobQueue.waiting != [] {
        SettleJobs();
      }
    }
  }

  lemma LaunchBuildIs(cfg: Config, s: State, pkg: Package, token: seq<int>)
    requires !pkg.IsInstalled()
    ensures
      var b, t := s.board, |s.board.objects|;
      var task := NewTask(BuildTask, pkg, PkgToReplace(cfg, s.clock, pkg));
      var created := Create(b, task).(jobs := b.jobs + 1, running := b.running + {t});
      SchedulerModel.Launch(cfg, s, pkg, token) == s.(
        clock := s.clock + 1,
        board := AddListener(AddToJobQueue(created, t), t, BuildExit(t)),
        server := s.server.(tokens := s.server.tokens[t := token]))
  {
  }

  lemma SearchReady(cfg: Config, s: State)
    requires ValidConfig(cfg) && StateInv(cfg, {}, s)
    ensures s.plan.graph.Valid() && Prune(s.plan.graph, s.plan.completed).Valid()
    ensures forall p :: p in s.plan.queue ==> p in Prune(s.plan.graph, s.plan.completed).order
  {
    hide BoardInv, ServerOk, RunningOk, TokenKeysOk, EarlyOk, PlacesOk, NoneLost;
    PruneKeepsGraphOk(cfg, s.plan);
    GraphValid(cfg, s.plan);
    PruneCorrect(s.plan.graph, s.plan.completed);
    forall p | p in s.plan.queue
      ensures p in Prune(s.plan.graph, s.plan.completed).order
    {
      QueuedInGraph(cfg, s.plan, Prune(s.plan.graph, s.plan.completed), p);
    }
  }

  lemma AskedValid(cfg: Config, s: State)
    requires StateInv(cfg, {}, s)
    ensures StateInv(cfg, {}, s.(clock := s.clock + 1))
  {
    hide BoardInv, PlanInv, ServerOk, RunningOk, TokenKeysOk, EarlyOk;
  }

  lemma SettleJobsOnce(b: Board, q: Queue, next: Queue)
    requires q.waiting != [] && q.Room()
    requires next == q.(waiting := q.waiting[1..], running := q.running + {q.waiting[0]})
    ensures SettleJobQueue(StartOnJobQueue(b.(jobQueue := next), q.waiting[0]), next) == SettleJobQueue(b, q)
  {
    var t, r := q.waiting[0], Settle(next, {});
    assert Settle(q, {}) == Settled(r.queue, [t] + r.started);
    assert ([t] + r.started)[1..] == r.started;
    assert StartOnJobQueue(b.(jobQueue := next), t).(jobQueue := r.queue)
      == StartOnJobQueue(b.(jobQueue := r.queue), t);
  }

  /** Starting the head of the merge queue is the first step of settling it. */
  lemma SettleMergesOnce(b: Board, q: Queue, next: Queue)
    requires q.waiting != [] && q.Room()
    requires next == q.(waiting := q.waiting[1..], running := q.running + {q.waiting[0]})
    ensures SettleMergeQueue(StartOnMergeQueue(b.(mergeQueue := next), q.waiting[0]), next) == SettleMergeQueue(b, q)
  {
    var t, r := q.waiting[0], Settle(next, {});
    assert Settle(q, {}) == Settled(r.queue, [t] + r.started);
    assert ([t] + r.started)[1..] == r.started;
    assert StartOnMergeQueue(b.(mergeQueue := next), t).(mergeQueue := r.queue)
      == StartOnMergeQueue(b.(mergeQueue := r.queue), t);
  }
}
