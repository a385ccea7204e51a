/**
 * How runs end. Once nothing can happen by itself any more, the main exit is done or the queue waits
 * for a job token; and a main exit without failure or termination means that everything is merged.
 */
module SchedulerProgress {
  import opened Packages
  import opened SchedulerBoard
  import opened SchedulerInvariant
  import opened SchedulerLive
  import opened SchedulerModel
  import opened SchedulerRuns
  import opened SchedulerSteps
  import opened SchedulerTheorems
  import opened SchedulerTokens
  import opened Sequences
  import opened TaskQueues

  /** Nothing happens by itself: no callback is due, no task runs, nobody waits for the merge queue. */
  ghost predicate Quiet(s: State) {
    && s.board.loop == []
    && !s.wakeup
    && forall t: nat :: t < |s.board.objects| ==> !s.board.objects[t].status.Started?
  }

  /** The queue waits for a token of other clients, and a reader of the jobserver is registered. */
  ghost predicate Starved(s: State) {
    && s.server.up
    && s.server.watching
    && !s.server.implicit
    && s.plan.queue != []
    && s.plan.failed == []
  }

  ghost predicate HasLive(objects: seq<Task>) {
    exists t: nat :: Live(objects, t)
  }

  /** Until the main exit is done, merge-wait merges will be looked at again, and so will the queue. */
  ghost predicate ProgressInv(s: State) {
    || s.mainExitDone
    || ((s.board.mergeWait != [] ==> s.board.jobs != 0 || s.wakeup) && (HasLive(s.board.objects) || Starved(s)))
  }

  // ----- a quiet state -----

  /** With an empty loop and no started task, the merge queue and the jobs are gone. */
  lemma QuietQueues(b: Board)
    requires BoardInv(b) && b.loop == []
    requires forall t: nat :: t < |b.objects| ==> !b.objects[t].status.Started?
    ensures forall t: nat :: Live(b.objects, t) ==> t in b.mergeWait
    ensures b.jobs == 0 && b.mergeQueue.waiting == []
  {
    hide JobQueueOk, SetupsOk, SerialOk;
    forall t: nat | t < |b.objects|
      ensures b.objects[t].status.Exited? ==> b.objects[t].listeners == []
      ensures Shape(b.objects[t], t)
    {
      assert Due([], t) == [];
    }
    assert forall t: nat :: !Listens(b.objects, t, MergeQueueExit(t));
    assert b.mergeQueue.running == {};
    assert b.mergeQueue.waiting == [];
    assert forall t: nat :: t < |b.objects| ==> !WaitsForMerge(b.objects[t]);
    assert UnhandledBuilds(b.objects) == {};
  }

  lemma QuietIdle(cfg: Config, s: State)
    requires StateInv(cfg, {}, s) && ProgressInv(s) && Quiet(s)
    ensures s.server.tokens == map[] && s.board.jobs == 0
    ensures s.mainExitDone || (s.board.running == {} && s.board.mergeWait == [] && !HasLive(s.board.objects) && Starved(s))
  {
    hide QueuesOk, LoopOk, SetupsOk, SerialOk, PlanInv, ServerOk, EarlyOk, Live;
    var b := s.board;
    QuietQueues(b);
    assert UnhandledBuilds(b.objects) == {};
  }

  // ----- after _schedule_tasks -----

  lemma {:induction false} LoopNotDue(cfg: Config, s: State)
    ensures !MergeWaitDue(ScheduleLoop(cfg, s).board)
    decreases Backlog(s)
  {
    hide ScheduleRound;
    var r := ScheduleRound(cfg, s);
    if r.1 || MergeWaitDue(r.0.board) {
      LoopNotDue(cfg, r.0);
    }
  }

  /** Whatever the state _schedule_tasks is called in, progress is assured after it. */
  lemma ScheduleProgresses(cfg: Config, s: State)
    requires ValidConfig(cfg) && StateInv(cfg, {}, s)
    ensures ProgressInv(Schedule(cfg, s))
  {
    hide BoardInv, PlanInv, RunningOk, TokenKeysOk, ServerOk, EarlyOk, ScheduleLoop, ValidConfig, Live;
    LoopNotDue(cfg, s);
    ScheduleKeepsInv(cfg, {}, s);
    NeverStranded(cfg, s);
    var r := Schedule(cfg, s);
    if r.board.running != {} {
      RunningIsLive(r);
    }
  }

  lemma RunningIsLive(s: State)
    requires RunningOk(s.board.objects, s.board.running, s.terminatedTasks) && s.board.running != {}
    ensures HasLive(s.board.objects)
  {
    var t :| t in s.board.running;
    assert Live(s.board.objects, t);
  }

  // ----- other steps -----

  lemma BoardStepProgresses(s: State, r: Board)
    requires ProgressInv(s) && LiveSame(s.board.objects, r.objects)
    requires r.mergeWait == s.board.mergeWait && r.jobs == s.board.jobs
    ensures ProgressInv(s.(board := r))
  {
    hide Live;
    if HasLive(s.board.objects) {
      var t: nat :| Live(s.board.objects, t);
      LiveInRange(s.board.objects, t);
      assert Live(r.objects, t);
    }
  }

  /** Without tokens held by tasks, terminating them does not touch the jobserver. */
  lemma {:induction false} ReleaseIdleFrame(cfg: Config, s: State, n: nat)
    ensures
      var r := ReleaseIdle(cfg, s, n);
      && r.board.objects == s.board.objects
      && r.board.mergeWait == s.board.mergeWait
      && r.board.jobs == s.board.jobs
      && r.plan == s.plan
      && r.mainExitDone == s.mainExitDone
      && r.wakeup == s.wakeup
      && (s.terminated ==> r.terminated)
      && (s.server.tokens == map[] ==> r.server == s.server)
  {
    hide ReleaseJobToken;
    if n > 0 {
      ReleaseIdleFrame(cfg, s, n - 1);
      ReleaseFrame(cfg, ReleaseIdle(cfg, s, n - 1), n - 1);
    }
  }

  lemma TerminationCheckProgresses(cfg: Config, s: State)
    requires StateInv(cfg, {}, s) && ProgressInv(s)
    ensures ProgressInv(TerminationCheckHandler(cfg, s))
  {
    hide QueuesOk, LoopOk, JobsOk, SetupsOk, SerialOk, PlanInv, ServerOk, EarlyOk, Live, ClearQueues, RunningOk, HasLive;
    if s.terminated && !s.terminatedTasks {
      var start := s.(terminatedTasks := true);
      var n := |start.board.objects|;
      var released := ReleaseIdle(cfg, start, n);
      ReleaseIdleFrame(cfg, start, n);
      if !HasLive(s.board.objects) {
        NoTokens(s);
      }
      assert ProgressInv(released);
      CheckReleases(cfg, s);
      ReleaseIdleReleases(cfg, start, n);
      ClearQueuesLive(released.board);
      ClearQueuesFrame(released.board);
      BoardStepProgresses(released, ClearQueues(released.board));
    }
  }

  lemma CheckReleases(cfg: Config, s: State)
    requires StateInv(cfg, {}, s) && s.terminated
    ensures Releasing(cfg, s.(terminatedTasks := true), s.(terminatedTasks := true))
  {
    hide BoardInv, PlanInv, ServerOk, EarlyOk, UnhandledBuilds, Live;
  }

  lemma NoTokens(s: State)
    requires TokenKeysOk(s.board.objects, s.server.tokens, s.terminatedTasks) && !HasLive(s.board.objects)
    ensures s.server.tokens == map[]
  {
    forall t | t in s.server.tokens.Keys
      ensures false
    {
      assert t in UnhandledBuilds(s.board.objects);
      assert Live(s.board.objects, t);
    }
  }

  lemma ClearQueuesFrame(b: Board)
    ensures ClearQueues(b).mergeWait == b.mergeWait && ClearQueues(b).jobs == b.jobs
  {
  }

  /** Callbacks that do not call _schedule. */
  lemma HandleProgresses(cfg: Config, s: State)
    requires StateInv(cfg, {}, s) && ProgressInv(s) && s.board.loop != [] && !SchedulesAfter(s.board.loop[0])
    ensures ProgressInv(Handle(cfg, s.(board := PopCallback(s.board)), s.board.loop[0]))
  {
    hide QueuesOk, LoopOk, JobsOk, SetupsOk, SerialOk, PlanInv, ServerOk, EarlyOk, Live, RunningOk, ProgressInv,
      TokenKeysOk, TerminationCheckHandler, SystemMergeStartedHandler;
    var b := s.board;
    var popped := s.(board := PopCallback(b));
    match b.loop[0]
    case JobQueueExit(t) =>
      JobQueueExitLive(b, t);
      BoardStepProgresses(s, JobQueueExitHandler(PopCallback(b), t));
    case MergeQueueExit(t) =>
      MergeQueueExitLive(b, t);
      BoardStepProgresses(s, MergeQueueExitHandler(PopCallback(b), t));
    case SystemMergeStarted(t) =>
      BoardStepProgresses(s, PopCallback(b));
      NotedProgresses(popped, TaskOf(popped.board, t).pkg);
    case TerminationCheck =>
      BoardStepProgresses(s, PopCallback(b));
      PopOtherStep(cfg, {}, s);
      TerminationCheckProgresses(cfg, popped);
  }

  lemma NotedProgresses(s: State, pkg: Package)
    requires ProgressInv(s)
    ensures ProgressInv(s.(plan := SystemMergeStartedHandler(s.plan, pkg)))
  {
  }

  lemma StepProgresses(cfg: Config, s: State, e: Event)
    requires ValidConfig(cfg) && StateInv(cfg, {}, s) && ProgressInv(s)
    ensures ProgressInv(Step(cfg, s, e))
  {
    hide StateInv, ValidConfig, PopCallback, Handle, Schedule, ExitTask, QueueSetup, CanExit, CanQueueSetup, Live;
    match e
    case RunCallback =>
      if s.board.loop != [] {
        HandleKeepsInv(cfg, {}, s);
        if SchedulesAfter(s.board.loop[0]) {
          ScheduleProgresses(cfg, Handle(cfg, s.(board := PopCallback(s.board)), s.board.loop[0]));
        } else {
          HandleProgresses(cfg, s);
        }
      }
    case TaskExits(t, ok) =>
      if CanExit(s.board, t) {
        ExitProgresses(cfg, s, t, ok);
      }
    case SetupQueued(t) =>
      if CanQueueSetup(s, t) {
        QueueSetupStep(cfg, {}, s, t);
        ScheduleProgresses(cfg, s.(board := QueueSetup(s.board, t)));
      }
    case TokenReadable =>
      TokenReadableStep(cfg, {}, s);
      ScheduleProgresses(cfg, s.(server := s.server.(watching := false)));
    case MergeWakeup =>
      WakeupKeepsInv(cfg, {}, s);
      ScheduleProgresses(cfg, s.(wakeup := false));
    case Tick => ScheduleProgresses(cfg, s);
    case Interrupt =>
  }

  lemma ExitProgresses(cfg: Config, s: State, t: TaskId, ok: bool)
    requires StateInv(cfg, {}, s) && ProgressInv(s) && CanExit(s.board, t)
    ensures ProgressInv(s.(board := ExitTask(s.board, t, ok)))
  {
    hide QueuesOk, LoopOk, JobsOk, SetupsOk, SerialOk, PlanInv, ServerOk, EarlyOk, Live, RunningOk, ProgressInv, TokenKeysOk;
    ExitLive(s.board, t, ok);
    BoardStepProgresses(s, ExitTask(s.board, t, ok));
  }

  lemma {:induction false} RunProgresses(cfg: Config, events: seq<Event>)
    requires ValidConfig(cfg)
    ensures ProgressInv(Run(cfg, events))
    decreases |events|
  {
    hide StateInv, ValidConfig, Step, Schedule, Init, ProgressInv;
    if events == [] {
      InitInv(cfg, {});
      ScheduleProgresses(cfg, Init(cfg));
    } else {
      var before := events[..|events| - 1];
      RunKeepsInv(cfg, {}, before);
      RunProgresses(cfg, before);
      StepProgresses(cfg, Run(cfg, before), events[|events| - 1]);
    }
  }

  /**
   * In every run: when nothing happens by itself any more, no job is left, and the main exit is done
   * or the queue waits for a token with no task and no merge-wait merge left. With an implicit slot
   * the main exit is done.
   */
  lemma QuietRunEnds(cfg: Config, events: seq<Event>)
    requires ValidConfig(cfg) && Quiet(Run(cfg, events))
    ensures
      var s := Run(cfg, events);
      && s.board.jobs == 0
      && s.server.tokens == map[]
      && (s.mainExitDone || (Starved(s) && s.board.running == {} && s.board.mergeWait == []))
      && (cfg.server.implicit ==> s.mainExitDone)
  {
    hide BoardInv, PlanInv, RunningOk, TokenKeysOk, EarlyOk, Conserved, Quiet, ValidConfig;
    RunKeepsInv(cfg, {}, events);
    RunProgresses(cfg, events);
    var s := Run(cfg, events);
    QuietIdle(cfg, s);
    assert Holders(s.server.tokens, []) == {};
  }

  // ----- what a main exit means -----

  /** Termination, failures, completed packages and an empty queue stay; the main exit is as it was. */
  ghost predicate Advances(s: State, r: State) {
    && (s.terminated ==> r.terminated)
    && (s.plan.failed != [] ==> r.plan.failed != [])
    && (s.plan.queue == [] ==> r.plan.queue == [])
    && s.plan.completed <= r.plan.completed
    && r.mainExitDone == s.mainExitDone
  }

  lemma AcquireAdvances(cfg: Config, s: State)
    ensures Advances(s, AcquireJobToken(cfg, s).s)
  {
    hide RivalsAct;
  }

  lemma ScheduleOneAdvances(cfg: Config, s: State)
    ensures Advances(s, ScheduleOne(cfg, s).s)
  {
    hide AcquireJobToken, StartBuild, StartUninstall, HeldBack, Prune, SearchQueue, PkgToReplace;
    if !StopsScheduling(cfg, s) && !HeldBack(cfg, s.board, s.clock) {
      var c := ChoosePkg(s.plan, s.board.running != {});
      AcquireAdvances(cfg, s.(clock := s.clock + 1, plan := c.plan));
    }
  }

  lemma {:induction false} ScheduleTasksImpAdvances(cfg: Config, s: State)
    ensures Advances(s, ScheduleTasksImp(cfg, s).0)
    decreases |s.plan.queue|
  {
    hide ScheduleOne;
    ScheduleOneAdvances(cfg, s);
    match ScheduleOne(cfg, s)
    case Idle(_) =>
    case Blocked(_) =>
    case Launched(s1) => ScheduleTasksImpAdvances(cfg, s1);
  }

  lemma {:induction false} ScheduleLoopAdvances(cfg: Config, s: State)
    ensures Advances(s, ScheduleLoop(cfg, s))
    decreases Backlog(s)
  {
    hide ScheduleTasksImp, MoveMergeWait;
    ScheduleTasksImpAdvances(cfg, if MergeWaitDue(s.board) then s.(board := MoveMergeWait(s.board)) else s);
    var r := ScheduleRound(cfg, s);
    if r.1 || MergeWaitDue(r.0.board) {
      ScheduleLoopAdvances(cfg, r.0);
    }
  }

  lemma HandleAdvances(cfg: Config, s: State, c: Callback)
    ensures Advances(s, Handle(cfg, s, c))
  {
    hide BuildExitHandler, MergeExitHandler, TerminationCheckHandler, JobQueueExitHandler, MergeQueueExitHandler;
    match c
    case BuildExit(t) => BuildExitAdvances(cfg, s, t);
    case MergeExit(t) => MergeExitAdvances(s, t);
    case MergeWaitExit(t) =>
      MergeExitAdvances(s.(board := s.board.(waitScheduled := RemoveFirst(s.board.waitScheduled, t))), t);
    case TerminationCheck => TerminationCheckAdvances(cfg, s);
    case _ =>
  }

  lemma BuildExitAdvances(cfg: Config, s: State, t: TaskId)
    ensures Advances(s, BuildExitHandler(cfg, s, t))
  {
    hide ReleaseJobToken, PromoteBuild;
    ReleaseFrame(cfg, s.(board := s.board.(running := s.board.running - {t})), t);
  }

  lemma MergeExitAdvances(s: State, t: TaskId)
    ensures Advances(s, MergeExitHandler(s, t))
  {
    hide TaskOf;
  }

  lemma TerminationCheckAdvances(cfg: Config, s: State)
    ensures Advances(s, TerminationCheckHandler(cfg, s))
  {
    hide ReleaseIdle, ClearQueues;
    ReleaseIdleFrame(cfg, s.(terminatedTasks := true), |s.board.objects|);
  }

  /** A main exit without failure or termination: the queue is empty and the whole list is completed. */
  ghost predicate ExitInv(cfg: Config, s: State) {
    s.mainExitDone && !s.terminated && s.plan.failed == [] ==>
      s.plan.queue == [] && forall p :: p in cfg.mergelist ==> p in s.plan.completed
  }

  lemma AdvancesExitInv(cfg: Config, s: State, r: State)
    requires ExitInv(cfg, s) && Advances(s, r)
    ensures ExitInv(cfg, r)
  {
  }

  lemma ScheduleExits(cfg: Config, s: State)
    requires ValidConfig(cfg) && StateInv(cfg, {}, s) && ExitInv(cfg, s)
    ensures ExitInv(cfg, Schedule(cfg, s))
  {
    hide BoardInv, GraphOk, QueueOk, PlacesOk, ReplacesOk, OrderOk, StartedOk, TokenKeysOk, ServerOk, EarlyOk, ScheduleLoop,
      ValidConfig, Live, ExitInv;
    ScheduleLoopAdvances(cfg, s);
    ScheduleLoopKeepsInv(cfg, {}, s);
    var looped := ScheduleLoop(cfg, s);
    AdvancesExitInv(cfg, s, looped);
    if looped.board.running == {} && !KeepScheduling(looped) {
      IdleIsCompleted(cfg, looped);
    }
    ExitInvFrame(cfg, looped, Schedule(cfg, s));
  }

  lemma IdleIsCompleted(cfg: Config, s: State)
    requires StateInv(cfg, {}, s) && s.board.running == {} && !KeepScheduling(s)
    ensures ExitInv(cfg, s.(mainExitDone := true))
  {
    hide BoardInv, GraphOk, QueueOk, PlacesOk, ReplacesOk, OrderOk, StartedOk, TokenKeysOk, ServerOk, EarlyOk, Live;
  }

  lemma ExitInvFrame(cfg: Config, s: State, r: State)
    requires ExitInv(cfg, s.(mainExitDone := r.mainExitDone)) && r.plan == s.plan && r.terminated == s.terminated
    ensures ExitInv(cfg, r)
  {
  }

  lemma StepExits(cfg: Config, s: State, e: Event)
    requires ValidConfig(cfg) && StateInv(cfg, {}, s) && ExitInv(cfg, s)
    ensures ExitInv(cfg, Step(cfg, s, e))
  {
    hide StateInv, ValidConfig, PopCallback, Handle, Schedule, ExitTask, QueueSetup, CanExit, CanQueueSetup;
    match e
    case RunCallback =>
      if s.board.loop != [] {
        var popped := s.(board := PopCallback(s.board));
        HandleAdvances(cfg, popped, s.board.loop[0]);
        var handled := Handle(cfg, popped, s.board.loop[0]);
        AdvancesExitInv(cfg, s, handled);
        if SchedulesAfter(s.board.loop[0]) {
          HandleKeepsInv(cfg, {}, s);
          ScheduleExits(cfg, handled);
        }
      }
    case TaskExits(_, _) =>
    case SetupQueued(t) =>
      if CanQueueSetup(s, t) {
        QueueSetupStep(cfg, {}, s, t);
        ScheduleExits(cfg, s.(board := QueueSetup(s.board, t)));
      }
    case TokenReadable =>
      TokenReadableStep(cfg, {}, s);
      ScheduleExits(cfg, s.(server := s.server.(watching := false)));
    case MergeWakeup =>
      WakeupKeepsInv(cfg, {}, s);
      ScheduleExits(cfg, s.(wakeup := false));
    case Tick => ScheduleExits(cfg, s);
    case Interrupt =>
  }

  /** In every run: once the main exit is done without failure or termination, everything is merged. */
  lemma {:induction false} MainExitCompletes(cfg: Config, events: seq<Event>)
    requires ValidConfig(cfg)
    ensures ExitInv(cfg, Run(cfg, events))
    decreases |events|
  {
    hide StateInv, ValidConfig, Step, Schedule, ExitInv;
    if events == [] {
      InitInv(cfg, {});
      assert ExitInv(cfg, Init(cfg)) by { InitExits(cfg); }
      ScheduleExits(cfg, Init(cfg));
    } else {
      var before := events[..|events| - 1];
      RunKeepsInv(cfg, {}, before);
      MainExitCompletes(cfg, before);
      StepExits(cfg, Run(cfg, before), events[|events| - 1]);
    }
  }

  lemma InitExits(cfg: Config)
    ensures ExitInv(cfg, Init(cfg))
  {
  }

  /**
   * The end of every run that nothing disturbs: without a failure, a termination or a token to wait
   * for, a run in which nothing happens any more has completed every package of the merge list.
   */
  lemma UndisturbedRunMergesAll(cfg: Config, events: seq<Event>, p: Package)
    requires ValidConfig(cfg) && Quiet(Run(cfg, events)) && p in cfg.mergelist
    requires !Run(cfg, events).terminated && Run(cfg, events).plan.failed == []
    requires cfg.server.implicit || !Run(cfg, events).server.up
    ensures p in Run(cfg, events).plan.completed
  {
    hide Quiet, ValidConfig, Run;
    QuietRunEnds(cfg, events);
    MainExitCompletes(cfg, events);
  }

  // ----- termination while the queue waits for a token -----

  lemma {:induction false} NothingIdle(cfg: Config, s: State, n: nat)
    requires s.board.running == {}
    ensures ReleaseIdle(cfg, s, n) == s
  {
    if n > 0 {
      NothingIdle(cfg, s, n - 1);
    }
  }

  lemma NothingCleared(b: Board)
    requires b.mergeQueue.waiting == [] && b.jobQueue.waiting == []
    ensures ClearQueues(b) == b
  {
  }

  /** What the termination check of a quiet, starved state does: it sets the flags. */
  lemma QuietCheck(cfg: Config, s: State)
    requires StateInv(cfg, {}, s) && Quiet(s) && s.board.running == {} && !s.terminated
    ensures
      var told := Terminate(s);
      && told.board.loop == [TerminationCheck]
      && Handle(cfg, told.(board := PopCallback(told.board)), TerminationCheck)
           == s.(terminated := true, terminationPending := true, terminatedTasks := true)
  {
    hide LoopOk, JobsOk, SetupsOk, SerialOk, PlanInv, ServerOk, EarlyOk, TokenKeysOk, RunningOk, ReleaseIdle, ClearQueues,
      ShapesOk, MergeWaitOk, MergeQueueOk;
    QuietQueues(s.board);
    var told := Terminate(s);
    assert PopCallback(told.board) == s.board;
    var flagged := s.(terminated := true, terminationPending := true, terminatedTasks := true);
    NothingIdle(cfg, flagged, |s.board.objects|);
    NothingCleared(s.board);
  }

  lemma TerminatedLoop(cfg: Config, s: State)
    requires s.terminated && s.board.mergeWait == []
    ensures ScheduleLoop(cfg, s) == s
  {
    hide HeldBack, ChoosePkg, Attend;
    assert ScheduleOne(cfg, s) == Idle(s);
    assert ScheduleTasksImp(cfg, s) == (s, false);
    assert ScheduleRound(cfg, s) == (s, false);
  }

  /** In a quiet state that was told to terminate, only a token or a timer does anything, and ends the run. */
  lemma OnlyTokenOrTimer(cfg: Config, s: State)
    requires Quiet(s) && Starved(s) && s.terminated && s.terminationPending
    requires s.board.running == {} && s.board.mergeWait == []
    ensures forall e: Event :: e != TokenReadable && e != Tick ==> Step(cfg, s, e) == s
    ensures Step(cfg, s, TokenReadable).mainExitDone && Step(cfg, s, Tick).mainExitDone
  {
    hide ScheduleLoop;
    TerminatedLoop(cfg, s);
    TerminatedLoop(cfg, s.(server := s.server.(watching := false)));
  }

  /**
   * An interrupt in a quiet state that waits for a token does not end the run: the termination check
   * does not call _schedule, so the main exit is not done, and nothing but a token or a timer
   * changes that.
   */
  lemma InterruptedWhileStarved(cfg: Config, events: seq<Event>)
    requires ValidConfig(cfg)
    requires Quiet(Run(cfg, events)) && !Run(cfg, events).mainExitDone && !Run(cfg, events).terminated
    ensures
      var s := Run(cfg, events + [Interrupt, RunCallback]);
      && Quiet(s)
      && s.terminated
      && !s.mainExitDone
      && (forall e: Event :: e != TokenReadable && e != Tick ==> Step(cfg, s, e) == s)
      && Step(cfg, s, TokenReadable).mainExitDone
      && Step(cfg, s, Tick).mainExitDone
  {
    hide StateInv, ValidConfig, Step, Terminate, Handle, PopCallback;
    var start := Run(cfg, events);
    QuietRunEnds(cfg, events);
    RunKeepsInv(cfg, {}, events);
    QuietCheck(cfg, start);
    var flagged := start.(terminated := true, terminationPending := true, terminatedTasks := true);
    TwoEvents(cfg, events, Interrupt, RunCallback);
    InterruptStep(cfg, start);
    OnlyTokenOrTimer(cfg, flagged);
  }

  lemma TwoEvents(cfg: Config, events: seq<Event>, e: Event, f: Event)
    ensures Run(cfg, events + [e, f]) == Step(cfg, Step(cfg, Run(cfg, events), e), f)
  {
    hide Step, Schedule;
    assert (events + [e, f])[..|events| + 1] == events + [e];
    assert (events + [e])[..|events|] == events;
  }

  lemma InterruptStep(cfg: Config, s: State)
    requires Terminate(s).board.loop == [TerminationCheck]
    ensures
      var told := Terminate(s);
      Step(cfg, Step(cfg, s, Interrupt), RunCallback)
        == Handle(cfg, told.(board := PopCallback(told.board)), TerminationCheck)
  {
    hide Terminate, Handle, PopCallback, Schedule;
  }

  /** The jobserver has no token for the first package to build. */
  ghost predicate NoTokenAtStart(cfg: Config) {
    && cfg.mergelist != []
    && !cfg.mergelist[0].IsInstalled()
    && cfg.server.up
    && !cfg.server.implicit
    && cfg.server.fifo == []
    && cfg.rivals(1) == []
    && !cfg.ioError(1)
  }

  /** Such quiet states are reached: a run starts in one when the jobserver has no token left for it. */
  lemma StarvesAtStart(cfg: Config)
    requires ValidConfig(cfg) && NoTokenAtStart(cfg)
    ensures var s := Run(cfg, []); Quiet(s) && Starved(s) && !s.mainExitDone && !s.terminated
  {
    var s := Init(cfg);
    var one := ScheduleOne(cfg, s);
    assert one.Blocked?;
    assert ScheduleTasksImp(cfg, s) == (one.s, false);
    assert ScheduleRound(cfg, s) == (one.s, false);
    assert ScheduleLoop(cfg, s) == one.s;
  }
}
