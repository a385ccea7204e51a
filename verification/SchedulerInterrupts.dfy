/**
 * What an interrupt leads to: exactly when a run that is told to terminate comes to its end.
 */
module SchedulerInterrupts {
  import opened SchedulerBoard
  import opened SchedulerInvariant
  import opened SchedulerLive
  import opened SchedulerModel
  import opened SchedulerProgress
  import opened SchedulerRuns
  import opened SchedulerSteps
  import opened SchedulerTheorems
  import opened SchedulerTokens
  import opened TaskQueues

  /** Something will call _schedule by itself: a live task or the merge wakeup; or the main exit is done. */
  ghost predicate WillEnd(s: State) {
    s.mainExitDone || HasLive(s.board.objects) || s.wakeup
  }

  /** The events that call _schedule from outside: a token to read, and a timer. */
  predicate Wakes(e: Event) {
    e.TokenReadable? || e.Tick?
  }

  // ----- one step after termination was requested -----

  /** A call of _schedule_tasks after termination leaves a live task or does the main exit. */
  lemma ScheduleWillEnd(cfg: Config, s: State)
    requires ValidConfig(cfg) && StateInv(cfg, {}, s) && s.terminated
    ensures Schedule(cfg, s).terminated && WillEnd(Schedule(cfg, s))
  {
    hide BoardInv, PlanInv, RunningOk, TokenKeysOk, ServerOk, EarlyOk, ScheduleLoop, ValidConfig, HasLive;
    ScheduleLoopAdvances(cfg, s);
    ScheduleKeepsInv(cfg, {}, s);
    var r := Schedule(cfg, s);
    if r.board.running != {} {
      RunningIsLive(r);
    }
  }

  lemma SameLive(a: seq<Task>, r: seq<Task>)
    requires LiveSame(a, r)
    ensures HasLive(r) <==> HasLive(a)
  {
    hide Live;
    if HasLive(a) {
      var t: nat :| Live(a, t);
      LiveInRange(a, t);
      assert Live(r, t);
    }
    if HasLive(r) {
      var t: nat :| Live(r, t);
      LiveInRange(r, t);
      assert Live(a, t);
    }
  }

  /** The parts that decide whether a run will end are as they were. */
  ghost predicate SameEnd(s: State, r: State) {
    && (HasLive(r.board.objects) <==> HasLive(s.board.objects))
    && r.mainExitDone == s.mainExitDone
    && r.wakeup == s.wakeup
    && (s.terminated ==> r.terminated)
  }

  lemma CheckSameEnd(cfg: Config, s: State)
    requires StateInv(cfg, {}, s)
    ensures SameEnd(s, TerminationCheckHandler(cfg, s))
  {
    hide QueuesOk, LoopOk, JobsOk, SetupsOk, SerialOk, PlanInv, ServerOk, EarlyOk, Live, ClearQueues, RunningOk, HasLive, ReleaseIdle;
    if s.terminated && !s.terminatedTasks {
      var start := s.(terminatedTasks := true);
      var n := |start.board.objects|;
      ReleaseIdleFrame(cfg, start, n);
      CheckReleases(cfg, s);
      ReleaseIdleReleases(cfg, start, n);
      var released := ReleaseIdle(cfg, start, n);
      ClearQueuesLive(released.board);
      SameLive(released.board.objects, ClearQueues(released.board).objects);
    }
  }

  /** Callbacks that do not call _schedule neither create nor finish anything. */
  lemma HandleSameEnd(cfg: Config, s: State)
    requires StateInv(cfg, {}, s) && s.board.loop != [] && !SchedulesAfter(s.board.loop[0])
    ensures SameEnd(s, Handle(cfg, s.(board := PopCallback(s.board)), s.board.loop[0]))
  {
    hide QueuesOk, LoopOk, JobsOk, SetupsOk, SerialOk, PlanInv, ServerOk, EarlyOk, Live, RunningOk, HasLive,
      TokenKeysOk, TerminationCheckHandler, SystemMergeStartedHandler, LiveSame;
    var b := s.board;
    var popped := s.(board := PopCallback(b));
    match b.loop[0]
    case JobQueueExit(t) =>
      JobQueueExitLive(b, t);
      SameLive(b.objects, JobQueueExitHandler(PopCallback(b), t).objects);
    case MergeQueueExit(t) =>
      MergeQueueExitLive(b, t);
      SameLive(b.objects, MergeQueueExitHandler(PopCallback(b), t).objects);
    case SystemMergeStarted(_) =>
    case TerminationCheck =>
      PopOtherStep(cfg, {}, s);
      CheckSameEnd(cfg, popped);
  }

  lemma ExitSameEnd(cfg: Config, s: State, t: TaskId, ok: bool)
    requires StateInv(cfg, {}, s) && CanExit(s.board, t)
    ensures SameEnd(s, s.(board := ExitTask(s.board, t, ok)))
  {
    hide QueuesOk, LoopOk, JobsOk, SetupsOk, SerialOk, PlanInv, ServerOk, EarlyOk, Live, RunningOk, HasLive, TokenKeysOk;
    ExitLive(s.board, t, ok);
    SameLive(s.board.objects, ExitTask(s.board, t, ok).objects);
  }

  /** A callback that calls _schedule reports the end of a live task. */
  lemma SchedulingIsLive(cfg: Config, s: State)
    requires StateInv(cfg, {}, s) && s.board.loop != [] && SchedulesAfter(s.board.loop[0])
    ensures HasLive(s.board.objects)
  {
    hide BoardInv, PlanInv, RunningOk, TokenKeysOk, ServerOk, EarlyOk, Live;
    ExitCallbackLive(s.board);
    assert Live(s.board.objects, s.board.loop[0].t);
  }

  /** A build that queues its setup phase is live. */
  lemma SetupIsLive(cfg: Config, s: State, t: TaskId)
    requires StateInv(cfg, {}, s) && CanQueueSetup(s, t)
    ensures HasLive(s.board.objects)
  {
    hide MergeQueueOk, JobQueueOk, MergeWaitOk, LoopOk, JobsOk, SetupsOk, SerialOk, PlanInv, RunningOk, TokenKeysOk, ServerOk, EarlyOk;
    assert Shape(s.board.objects[t], t);
    assert Live(s.board.objects, t);
  }

  /** The exact law of one step after termination was requested. */
  lemma StepWillEnd(cfg: Config, s: State, e: Event)
    requires ValidConfig(cfg) && StateInv(cfg, {}, s) && ProgressInv(s) && s.terminated
    ensures Step(cfg, s, e).terminated
    ensures WillEnd(Step(cfg, s, e)) <==> WillEnd(s) || Wakes(e)
  {
    hide StateInv, ValidConfig, PopCallback, Handle, Schedule, ExitTask, QueueSetup, CanExit, CanQueueSetup, HasLive;
    match e
    case RunCallback =>
      if s.board.loop != [] {
        var c, popped := s.board.loop[0], s.(board := PopCallback(s.board));
        HandleAdvances(cfg, popped, c);
        HandleKeepsInv(cfg, {}, s);
        if SchedulesAfter(c) {
          SchedulingIsLive(cfg, s);
          ScheduleWillEnd(cfg, Handle(cfg, popped, c));
        } else {
          HandleSameEnd(cfg, s);
        }
      }
    case TaskExits(t, ok) =>
      if CanExit(s.board, t) {
        ExitSameEnd(cfg, s, t, ok);
      }
    case SetupQueued(t) =>
      if CanQueueSetup(s, t) {
        SetupIsLive(cfg, s, t);
        QueueSetupStep(cfg, {}, s, t);
        ScheduleWillEnd(cfg, s.(board := QueueSetup(s.board, t)));
      }
    case TokenReadable =>
      TokenReadableStep(cfg, {}, s);
      ScheduleWillEnd(cfg, s.(server := s.server.(watching := false)));
    case MergeWakeup =>
      WakeupKeepsInv(cfg, {}, s);
      ScheduleWillEnd(cfg, s.(wakeup := false));
    case Tick => ScheduleWillEnd(cfg, s);
    case Interrupt =>
  }

  // ----- whole runs -----

  ghost predicate AnyWakes(events: seq<Event>) {
    exists e :: e in events && Wakes(e)
  }

  lemma AnyWakesLast(events: seq<Event>)
    requires events != []
    ensures AnyWakes(events) <==> AnyWakes(events[..|events| - 1]) || Wakes(events[|events| - 1])
  {
    var before, last := events[..|events| - 1], events[|events| - 1];
    assert events == before + [last];
  }

  lemma InterruptTerminates(cfg: Config, s: State)
    requires StateInv(cfg, {}, s)
    ensures Step(cfg, s, Interrupt).terminated && (WillEnd(Step(cfg, s, Interrupt)) <==> WillEnd(s))
  {
    hide BoardInv, PlanInv, RunningOk, TokenKeysOk, ServerOk, EarlyOk, HasLive;
  }

  /** After an interrupt a run will end exactly if it would have when it came, or was woken since. */
  lemma {:induction false} InterruptedRun(cfg: Config, before: seq<Event>, after: seq<Event>)
    requires ValidConfig(cfg)
    ensures
      var s := Run(cfg, before + [Interrupt] + after);
      s.terminated && (WillEnd(s) <==> WillEnd(Run(cfg, before)) || AnyWakes(after))
    decreases |after|
  {
    hide StateInv, ValidConfig, Step, Schedule, WillEnd, AnyWakes, ProgressInv;
    if after == [] {
      assert before + [Interrupt] + after == before + [Interrupt];
      assert (before + [Interrupt])[..|before|] == before;
      RunKeepsInv(cfg, {}, before);
      InterruptTerminates(cfg, Run(cfg, before));
      assert !AnyWakes(after) by { NoneWake(); }
    } else {
      var all, most := before + [Interrupt] + after, after[..|after| - 1];
      var until := before + [Interrupt] + most;
      assert all[..|all| - 1] == until && all[|all| - 1] == after[|after| - 1];
      InterruptedRun(cfg, before, most);
      RunKeepsInv(cfg, {}, until);
      RunProgresses(cfg, until);
      StepWillEnd(cfg, Run(cfg, until), after[|after| - 1]);
      AnyWakesLast(after);
    }
  }

  lemma NoneWake()
    ensures !AnyWakes([])
  {
  }

  /**
   * When an interrupt ends a run, for every run: once nothing happens any more after it, the main
   * exit is done if and only if, when the interrupt came, a task was live, the merge wakeup was
   * pending or the main exit was done, or if a token or a timer came later.
   */
  lemma InterruptEndsExactly(cfg: Config, before: seq<Event>, after: seq<Event>)
    requires ValidConfig(cfg) && Quiet(Run(cfg, before + [Interrupt] + after))
    ensures
      Run(cfg, before + [Interrupt] + after).mainExitDone <==>
        WillEnd(Run(cfg, before)) || AnyWakes(after)
  {
    hide StateInv, ValidConfig, Run, AnyWakes, ProgressInv, HasLive;
    var all := before + [Interrupt] + after;
    RunKeepsInv(cfg, {}, all);
    RunProgresses(cfg, all);
    QuietIdle(cfg, Run(cfg, all));
    InterruptedRun(cfg, before, after);
  }
}
