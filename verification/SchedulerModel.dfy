/**
 * The merge scheduler as a state machine. `State` holds the fields of Scheduler and PollScheduler
 * in groups: the board (task objects, queues, event loop), the plan (what to merge and what is
 * done) and the jobserver. Each function specifies a method, branch by branch.
 */
module SchedulerModel {
  import opened Packages
  import opened DependencySearch
  import opened Sequences
  import opened TaskQueues
  import opened Wrappers

  datatype TaskKind = BuildTask | MergeTask | SetupTask

  datatype Status = Waiting | Started | Exited(ok: bool)

  /** A scheduled call of an exit listener, of a start listener or of the termination check. */
  datatype Callback =
    | JobQueueExit(t: TaskId)
    | MergeQueueExit(t: TaskId)
    | BuildExit(t: TaskId)
    | MergeExit(t: TaskId)
    | MergeWaitExit(t: TaskId)
    | SystemMergeStarted(t: TaskId)
    | TerminationCheck

  /** `c` is a call of an exit listener, not of a start listener or the termination check. */
  predicate IsExit(c: Callback) {
    !c.SystemMergeStarted? && !c.TerminationCheck?
  }

  /**
   * A task object. `listeners` are its exit listeners that have not been called yet, in
   * registration order. `owner` is the build that a setup phase belongs to; `viaWait` says that a
   * merge came through the merge-wait queue.
   */
  datatype Task = Task(
    kind: TaskKind,
    pkg: Package,
    toReplace: Option<Package>,
    isSystem: bool,
    viaWait: bool,
    owner: TaskId,
    status: Status,
    listeners: seq<Callback>)

  /** The task objects, _running_tasks, _jobs, the merge-wait lists, both queues and the event loop. */
  datatype Board = Board(
    objects: seq<Task>,
    running: set<TaskId>,
    jobs: int,
    mergeWait: seq<TaskId>,
    waitScheduled: seq<TaskId>,
    mergeQueue: Queue,
    jobQueue: Queue,
    loop: seq<Callback>)

  /** The digraph, _pkg_queue, the completed and failed packages and the flags of the search. */
  datatype Plan = Plan(
    graph: DepGraph,
    queue: seq<Package>,
    unsatisfied: set<Package>,
    completed: set<Package>,
    failed: seq<Package>,
    chooseEarly: bool)

  /**
   * The jobserver connection: `up` while its file descriptor is open, `implicit` while the implicit
   * slot is free, `watching` while a reader is registered, `tokens` those held by tasks. `others`
   * are the tokens that other clients hold.
   */
  datatype Jobserver = Jobserver(
    up: bool,
    implicit: bool,
    watching: bool,
    fifo: seq<int>,
    others: multiset<int>,
    tokens: map<TaskId, seq<int>>)

  /** `wakeup` says that a task waits for the merge queue to become empty, to call _schedule then. */
  datatype State = State(
    board: Board,
    plan: Plan,
    server: Jobserver,
    terminated: bool,
    terminationPending: bool,
    terminatedTasks: bool,
    mainExitDone: bool,
    wakeup: bool,
    clock: nat)

  /**
   * What does not change during a run. The functions give the answers of the environment at each
   * consultation: load average, free space, job delay, I/O errors of the jobserver, the fifo that
   * other clients leave behind, and the installed package that a task will replace.
   */
  datatype Config = Config(
    mergelist: seq<Package>,
    graph: DepGraph,
    maxJobs: nat,
    mergeMax: nat,
    deepSystem: set<Package>,
    mergeWait: set<Package>,
    buildPkgOnly: bool,
    server: Jobserver,
    loaded: nat -> bool,
    noSpace: nat -> bool,
    delayed: nat -> bool,
    ioError: nat -> bool,
    rivals: nat -> seq<int>,
    installedAt: nat -> Option<(nat, nat)>)

  // ----- task objects and their queues -----

  const NO_TASK := Task(SetupTask, Package(Ebuild, 0, 0, NoMerge, 0, true), None, false, false, 0, Exited(false), [])

  /** The task object with this identity. */
  function TaskOf(b: Board, t: TaskId): Task {
    if t < |b.objects| then b.objects[t] else NO_TASK
  }

  function WithTask(b: Board, t: TaskId, task: Task): Board {
    if t < |b.objects| then b.(objects := b.objects[t := task]) else b
  }

  function Create(b: Board, task: Task): Board {
    b.(objects := b.objects + [task])
  }

  function AddListener(b: Board, t: TaskId, c: Callback): Board {
    var task := TaskOf(b, t);
    WithTask(b, t, task.(listeners := task.listeners + [c]))
  }

  /** The start listener of a merge that came through merge-wait as a system package. */
  predicate NotifiesStart(task: Task) {
    task.kind == MergeTask && task.viaWait && task.isSystem
  }

  /** What the merge queue does to a task that it starts: listen for its exit, then start it. */
  function StartOnMergeQueue(b: Board, t: TaskId): Board {
    var task := TaskOf(b, t);
    var b1 := WithTask(b, t, task.(status := Started, listeners := task.listeners + [MergeQueueExit(t)]));
    if NotifiesStart(task) then b1.(loop := b1.loop + [SystemMergeStarted(t)]) else b1
  }

  function StartOnJobQueue(b: Board, t: TaskId): Board {
    var task := TaskOf(b, t);
    WithTask(b, t, task.(status := Started, listeners := task.listeners + [JobQueueExit(t)]))
  }

  /** Starting tasks changes task objects and the event loop, nothing else. */
  function StartAllOnMergeQueue(b: Board, ts: seq<TaskId>): (r: Board)
    ensures r == b.(objects := r.objects, loop := r.loop) && |r.objects| == |b.objects|
    decreases |ts|
  {
    if ts == [] then b else StartAllOnMergeQueue(StartOnMergeQueue(b, ts[0]), ts[1..])
  }

  function StartAllOnJobQueue(b: Board, ts: seq<TaskId>): (r: Board)
    ensures r == b.(objects := r.objects) && |r.objects| == |b.objects|
    decreases |ts|
  {
    if ts == [] then b else StartAllOnJobQueue(StartOnJobQueue(b, ts[0]), ts[1..])
  }

  function SettleMergeQueue(b: Board, q: Queue): (r: Board)
    ensures r == b.(objects := r.objects, loop := r.loop, mergeQueue := r.mergeQueue)
    ensures |r.objects| == |b.objects|
  {
    var settled := Settle(q, {});
    StartAllOnMergeQueue(b.(mergeQueue := settled.queue), settled.started)
  }

  function SettleJobQueue(b: Board, q: Queue): (r: Board)
    ensures r == b.(objects := r.objects, jobQueue := r.jobQueue)
    ensures |r.objects| == |b.objects|
  {
    var settled := Settle(q, {});
    StartAllOnJobQueue(b.(jobQueue := settled.queue), settled.started)
  }

  function AddToMergeQueue(b: Board, t: TaskId): Board {
    SettleMergeQueue(b, b.mergeQueue.(waiting := b.mergeQueue.waiting + [t]))
  }

  function AddFrontToMergeQueue(b: Board, t: TaskId): Board {
    SettleMergeQueue(b, b.mergeQueue.(waiting := [t] + b.mergeQueue.waiting))
  }

  function AddToJobQueue(b: Board, t: TaskId): Board {
    SettleJobQueue(b, b.jobQueue.(waiting := b.jobQueue.waiting + [t]))
  }

  function MergeQueueExitHandler(b: Board, t: TaskId): Board {
    var left := b.mergeQueue.(running := b.mergeQueue.running - {t});
    if left.waiting != [] then SettleMergeQueue(b, left) else b.(mergeQueue := left)
  }

  function JobQueueExitHandler(b: Board, t: TaskId): Board {
    var left := b.jobQueue.(running := b.jobQueue.running - {t});
    if left.waiting != [] then SettleJobQueue(b, left) else b.(jobQueue := left)
  }

  /** The callback at the head of the event loop is taken off the loop and off its task. */
  function PopCallback(b: Board): Board
    requires b.loop != []
  {
    var c, popped := b.loop[0], b.(loop := b.loop[1..]);
    if !IsExit(c) then popped
    else
      var task := TaskOf(b, c.t);
      WithTask(popped, c.t, task.(listeners := RemoveFirst(task.listeners, c)))
  }

  /** A task gets its return code: its exit listeners are scheduled in registration order. */
  function ExitTask(b: Board, t: TaskId, ok: bool): Board {
    var task := TaskOf(b, t);
    WithTask(b, t, task.(status := Exited(ok))).(loop := b.loop + task.listeners)
  }

  // ----- starting tasks -----

  function NewTask(kind: TaskKind, pkg: Package, toReplace: Option<Package>): Task {
    Task(kind, pkg, toReplace, false, false, 0, Waiting, [])
  }

  /** A build is created, counted and given to the job queue. */
  function StartBuild(b: Board, pkg: Package, toReplace: Option<Package>): Board {
    var t := |b.objects|;
    var created := Create(b, NewTask(BuildTask, pkg, toReplace)).(jobs := b.jobs + 1, running := b.running + {t});
    AddListener(AddToJobQueue(created, t), t, BuildExit(t))
  }

  /** An uninstall goes straight to the front of the merge queue. */
  function StartUninstall(b: Board, pkg: Package, toReplace: Option<Package>): Board {
    var t := |b.objects|;
    var created := Create(b, NewTask(MergeTask, pkg, toReplace)).(running := b.running + {t});
    AddListener(AddFrontToMergeQueue(created, t), t, MergeExit(t))
  }

  /** A setup phase of build `t` is queued. */
  function QueueSetup(b: Board, t: TaskId): Board {
    var setup := NewTask(SetupTask, TaskOf(b, t).pkg, None).(owner := t);
    AddToMergeQueue(Create(b, setup), |b.objects|)
  }

  // ----- merge-wait -----

  /** The head of the merge-wait queue goes to the merge queue. */
  function MoveOne(b: Board): (r: Board)
    requires b.mergeWait != []
    ensures r.mergeWait == b.mergeWait[1..]
  {
    var t := b.mergeWait[0];
    var moved := WithTask(b, t, TaskOf(b, t).(viaWait := true)).(
      mergeWait := b.mergeWait[1..],
      waitScheduled := b.waitScheduled + [t]);
    AddListener(AddToMergeQueue(moved, t), t, MergeWaitExit(t))
  }

  /** Move merges from the merge-wait queue to the merge queue; a system package goes alone. */
  function MoveMergeWait(b: Board): (r: Board)
    ensures |r.mergeWait| <= |b.mergeWait|
    ensures b.mergeWait != [] && !b.mergeQueue.Busy() ==> |r.mergeWait| < |b.mergeWait|
    decreases |b.mergeWait|
  {
    if b.mergeWait == [] then b
    else
      var system := TaskOf(b, b.mergeWait[0]).isSystem;
      if b.mergeQueue.Busy() && system then b
      else if system then MoveOne(b)
      else MoveMergeWait(MoveOne(b))
  }

  /** No job and no merge is left, and a merge waits. */
  predicate MergeWaitDue(b: Board) {
    b.mergeWait != [] && b.jobs == 0 && !b.mergeQueue.Busy()
  }

  // ----- the exits of builds and merges -----

  /** The merge task that a finished build turns into. */
  function MergeOf(cfg: Config, build: Task): Task {
    NewTask(MergeTask, build.pkg, build.toReplace).(isSystem := build.pkg in cfg.deepSystem)
  }

  /** A finished build has to wait until no build runs before it is merged. */
  predicate GoesToMergeWait(cfg: Config, build: Task) {
    !cfg.buildPkgOnly && (build.pkg in cfg.mergeWait || build.pkg in cfg.deepSystem)
  }

  /** A finished build becomes a merge in the merge-wait queue or in the merge queue. */
  function PromoteBuild(cfg: Config, b: Board, build: Task): Board {
    var m := |b.objects|;
    var created := Create(b, MergeOf(cfg, build)).(running := b.running + {m});
    if GoesToMergeWait(cfg, build)
    then created.(mergeWait := created.mergeWait + [m])
    else AddListener(AddToMergeQueue(created, m), m, MergeExit(m))
  }

  function TaskComplete(p: Plan, pkg: Package): Plan {
    p.(completed := p.completed + {pkg}, unsatisfied := p.unsatisfied - {pkg}, chooseEarly := false)
  }

  function DoMergeExit(p: Plan, task: Task): Plan {
    if task.status != Exited(true) then p.(failed := p.failed + [task.pkg])
    else
      var done := TaskComplete(p, task.pkg);
      match task.toReplace
      case None => done
      case Some(previous) =>
        if previous in p.graph.order
        then TaskComplete(done.(queue := RemoveFirst(p.queue, previous)), previous)
        else done
  }

  function MergeExitHandler(s: State, t: TaskId): State {
    s.(board := s.board.(running := s.board.running - {t}), plan := DoMergeExit(s.plan, TaskOf(s.board, t)))
  }

  function MergeWaitExitHandler(s: State, t: TaskId): State {
    MergeExitHandler(s.(board := s.board.(waitScheduled := RemoveFirst(s.board.waitScheduled, t))), t)
  }

  function BuildExitHandler(cfg: Config, s: State, t: TaskId): State {
    var build := TaskOf(s.board, t);
    var s1 := ReleaseJobToken(cfg, s.(board := s.board.(running := s.board.running - {t})), t);
    var s2 :=
      if build.status == Exited(true) && s.terminatedTasks then s1
      else if build.status == Exited(true) then s1.(board := PromoteBuild(cfg, s1.board, build))
      else s1.(plan := s1.plan.(failed := s1.plan.failed + [build.pkg]));
    s2.(board := s2.board.(jobs := s2.board.jobs - 1))
  }

  predicate UnsatisfiedRuntime(p: Priority) {
    p.Dep? && !p.satisfied && (p.runtime || p.runtimePost)
  }

  /** The children, other than `pkg` itself, that are to be merged and not completed. */
  function StillToMerge(children: seq<Package>, pkg: Package, completed: set<Package>): set<Package> {
    set c | c in children && c != pkg && c.operation == Merge && c !in completed
  }

  /** The merge of a system package started: its unsatisfied direct runtime dependencies are noted. */
  function SystemMergeStartedHandler(p: Plan, pkg: Package): Plan {
    if pkg.root != 0 then p
    else
      var children := p.graph.ChildNodesWhere(pkg, UnsatisfiedRuntime);
      p.(unsatisfied := p.unsatisfied + StillToMerge(children, pkg, p.completed))
  }

  // ----- termination (PollScheduler) and job tokens -----

  function Terminate(s: State): State {
    if s.terminationPending then s
    else
      s.(terminated := true, terminationPending := true, board := s.board.(loop := s.board.loop + [TerminationCheck]))
  }

  /** The jobserver's descriptor is closed and the scheduler terminates. */
  function ServerDied(s: State): State {
    Terminate(s.(server := s.server.(up := false)))
  }

  /** Other clients take and return tokens before the fifo is read. */
  function RivalsAct(cfg: Config, j: Jobserver, now: nat): Jobserver {
    var f, pool := cfg.rivals(now), multiset(j.fifo) + j.others;
    if multiset(f) <= pool then j.(fifo := f, others := pool - multiset(f)) else j
  }

  datatype Acquired = Token(s: State, token: seq<int>) | WouldBlock(s: State)

  function AcquireJobToken(cfg: Config, s: State): (r: Acquired)
    ensures r.s.plan == s.plan && r.s.board.mergeWait == s.board.mergeWait
    ensures r.WouldBlock? ==> r.s.board == s.board
  {
    if !s.server.up then Token(s, [])
    else if s.server.implicit then Token(s.(server := s.server.(implicit := false)), [])
    else
      var j := RivalsAct(cfg, s.server, s.clock);
      var asked := s.(server := j, clock := s.clock + 1);
      if cfg.ioError(s.clock) then Token(ServerDied(asked), [])
      else if j.fifo == [] then WouldBlock(asked)
      else Token(asked.(server := j.(fifo := j.fifo[1..])), [j.fifo[0]])
  }

  function ReleaseJobToken(cfg: Config, s: State, t: TaskId): State {
    if t !in s.server.tokens then s
    else
      var j := s.server.(tokens := s.server.tokens - {t});
      var token := s.server.tokens[t];
      if !j.up then s.(server := j)
      else if token == [] then s.(server := j.(implicit := true))
      else if cfg.ioError(s.clock) then ServerDied(s.(server := j, clock := s.clock + 1))
      else s.(server := j.(fifo := j.fifo + token), clock := s.clock + 1)
  }

  /** The assertion in _release_job_token would fail. */
  predicate ReleaseAssertionFails(j: Jobserver, t: TaskId) {
    t in j.tokens && j.up && j.tokens[t] == [] && j.implicit
  }

  // ----- choosing a package -----

  predicate KeepScheduling(s: State) {
    !s.terminated && s.plan.queue != [] && s.plan.failed == []
  }

  /** The position of the first uninstall task without dependencies, from `i` on. */
  function FreeUninstall(g: DepGraph, queue: seq<Package>, i: nat): (r: nat)
    requires i <= |queue|
    ensures i <= r <= |queue|
    ensures r < |queue| ==> queue[r].operation == Uninstall && g.ChildNodes(queue[r]) == []
    ensures forall k :: i <= k < r ==> queue[k].operation != Uninstall || g.ChildNodes(queue[k]) != []
    decreases |queue| - i
  {
    if i == |queue| then i
    else if queue[i].operation == Uninstall && g.ChildNodes(queue[i]) == [] then i
    else FreeUninstall(g, queue, i + 1)
  }

  /** The package at `i` depends on no scheduled merge, ignoring what the queue has after it. */
  ghost predicate Free(g: DepGraph, completed: set<Package>, queue: seq<Package>, i: nat)
    requires i < |queue|
  {
    !DependsOnScheduled(g, completed, queue[i], Elements(queue[i + 1..]))
  }

  ghost function FirstFree(g: DepGraph, completed: set<Package>, queue: seq<Package>, i: nat): (r: nat)
    requires i <= |queue|
    ensures i <= r <= |queue|
    ensures r < |queue| ==> Free(g, completed, queue, r)
    ensures forall k :: i <= k < r ==> !Free(g, completed, queue, k)
    decreases |queue| - i
  {
    if i == |queue| then i
    else if Free(g, completed, queue, i) then i
    else FirstFree(g, completed, queue, i + 1)
  }

  /** The position that a search of the queue settles on, or `|queue|`. */
  ghost function SearchQueue(g: DepGraph, completed: set<Package>, queue: seq<Package>): (r: nat)
    ensures r <= |queue|
  {
    var u := FreeUninstall(g, queue, 0);
    if u < |queue| then u else FirstFree(g, completed, queue, 0)
  }

  datatype Chosen = Chosen(plan: Plan, pkg: Option<Package>)

  /** _choose_pkg; `busy` says that some task is running. */
  ghost function ChoosePkg(p: Plan, busy: bool): (r: Chosen)
    requires p.queue != []
    ensures r.pkg.Some? ==> |r.plan.queue| == |p.queue| - 1
    ensures r.pkg.None? ==> r.plan.queue == p.queue
  {
    if p.chooseEarly then Chosen(p, None)
    else if !busy then Chosen(p.(queue := p.queue[1..]), Some(p.queue[0]))
    else
      var g := Prune(p.graph, p.completed);
      var i := SearchQueue(g, p.completed, p.queue);
      if i < |p.queue|
      then Chosen(p.(graph := g, queue := p.queue[..i] + p.queue[i + 1..]), Some(p.queue[i]))
      else Chosen(p.(graph := g, chooseEarly := true), None)
  }

  // ----- scheduling -----

  /** The installed package that a new task will replace. */
  function PkgToReplace(cfg: Config, now: nat, pkg: Package): Option<Package> {
    if pkg.operation == Uninstall then None
    else
      match cfg.installedAt(now)
      case None => None
      case Some(found) => Some(Package(Installed, pkg.root, found.0, Uninstall, found.1, false))
  }

  /** What stops the loop of _schedule_tasks_imp without asking the environment. */
  predicate StopsScheduling(cfg: Config, s: State) {
    || !KeepScheduling(s)
    || s.plan.chooseEarly
    || s.board.waitScheduled != []
    || (s.board.jobs != 0 && s.plan.unsatisfied != {})
    || s.terminatedTasks
    || s.board.jobs >= cfg.maxJobs
  }

  /** The load average, the free space or the job delay holds a new job back. */
  predicate HeldBack(cfg: Config, b: Board, now: nat) {
    || (b.jobs >= 1 && cfg.maxJobs > 1 && cfg.loaded(now))
    || (!(b.jobs == 0 && b.mergeWait == []) && cfg.noSpace(now))
    || (b.jobs != 0 && cfg.delayed(now))
  }

  /** A chosen package is started with its token. */
  function Launch(cfg: Config, s: State, pkg: Package, token: seq<int>): (r: State)
    ensures r.plan == s.plan && r.board.mergeWait == s.board.mergeWait
  {
    var toReplace, next := PkgToReplace(cfg, s.clock, pkg), s.(clock := s.clock + 1);
    if pkg.IsInstalled()
    then next.(board := StartUninstall(s.board, pkg, toReplace))
    else next.(
        board := StartBuild(s.board, pkg, toReplace),
        server := s.server.(tokens := s.server.tokens[|s.board.objects| := token]))
  }

  /** How one round of the loop in _schedule_tasks_imp ended. */
  datatype Attempt = Idle(s: State) | Blocked(s: State) | Launched(s: State)

  /** A package leaves the queue and starts, or returns to the head of the queue without a token. */
  function Attend(cfg: Config, s: State, pkg: Package): (r: Attempt)
    ensures !r.Idle? && |r.s.plan.queue| == |s.plan.queue| + (if r.Blocked? then 1 else 0)
    ensures r.Blocked? ==> r.s.board == s.board
    ensures r.s.board.mergeWait == s.board.mergeWait
  {
    hide Launch, AcquireJobToken;
    if pkg.IsInstalled() then Launched(Launch(cfg, s, pkg, []))
    else
      match AcquireJobToken(cfg, s)
      case WouldBlock(b) =>
        Blocked(b.(plan := b.plan.(queue := [pkg] + b.plan.queue), server := b.server.(watching := true)))
      case Token(a, token) => Launched(Launch(cfg, a, pkg, token))
  }

  ghost function ScheduleOne(cfg: Config, s: State): (r: Attempt)
    ensures r.Launched? ==> |r.s.plan.queue| < |s.plan.queue|
    ensures r.Idle? ==> r.s.plan.queue == s.plan.queue
    ensures r.Blocked? ==> |r.s.plan.queue| == |s.plan.queue|
    ensures !r.Launched? ==> r.s.board == s.board
    ensures r.s.board.mergeWait == s.board.mergeWait
  {
    if StopsScheduling(cfg, s) then Idle(s)
    else
      var asked := s.(clock := s.clock + 1);
      if HeldBack(cfg, s.board, s.clock) then Idle(asked)
      else
        var c := ChoosePkg(s.plan, s.board.running != {});
        match c.pkg
        case None => Idle(asked.(plan := c.plan))
        case Some(pkg) =>
          hide Attend, ChoosePkg;
          Attend(cfg, asked.(plan := c.plan), pkg)
  }

  ghost function ScheduleTasksImp(cfg: Config, s: State): (r: (State, bool))
    ensures |r.0.plan.queue| <= |s.plan.queue|
    ensures r.1 ==> |r.0.plan.queue| < |s.plan.queue|
    ensures !r.1 ==> r == (ScheduleOne(cfg, s).s, false) && r.0.board == s.board
    ensures r.0.board.mergeWait == s.board.mergeWait
    decreases |s.plan.queue|
  {
    match ScheduleOne(cfg, s)
    case Idle(s1) => (s1, false)
    case Blocked(s1) => (s1, false)
    case Launched(s1) => (ScheduleTasksImp(cfg, s1).0, true)
  }

  /** What every repeated round of _schedule_tasks shrinks. */
  function Backlog(s: State): nat {
    |s.plan.queue| + |s.board.mergeWait|
  }

  /** One round of the loop in _schedule_tasks; the flag is its state_change. */
  ghost function ScheduleRound(cfg: Config, s: State): (r: (State, bool))
    ensures r.1 ==> Backlog(r.0) < Backlog(s)
    ensures !r.1 ==> r.0 == ScheduleOne(cfg, s).s && !MergeWaitDue(r.0.board)
  {
    var due := MergeWaitDue(s.board);
    var r := ScheduleTasksImp(cfg, if due then s.(board := MoveMergeWait(s.board)) else s);
    (r.0, r.1 || due)
  }

  /** The loop of _schedule_tasks: another round follows a change, or a merge-wait merge that is due. */
  ghost function ScheduleLoop(cfg: Config, s: State): State
    decreases Backlog(s)
  {
    var r := ScheduleRound(cfg, s);
    if r.1 || MergeWaitDue(r.0.board) then ScheduleLoop(cfg, r.0) else r.0
  }

  /** _schedule_tasks: the loop, the main exit when nothing is left to wait for, and the merge wakeup. */
  ghost function Schedule(cfg: Config, s: State): State {
    var r := ScheduleLoop(cfg, s);
    r.(mainExitDone := r.mainExitDone || (r.board.running == {} && !KeepScheduling(r)),
       wakeup := r.wakeup || r.board.mergeQueue.Busy())
  }

  // ----- termination of tasks -----

  /** Tasks below `n` that never started, or that are finished, leave the running tasks with their token. */
  function ReleaseIdle(cfg: Config, s: State, n: nat): State {
    if n == 0 then s
    else
      var before, t := ReleaseIdle(cfg, s, n - 1), n - 1;
      if t !in before.board.running || TaskOf(before.board, t).status.Started? then before
      else
        var released := ReleaseJobToken(cfg, before, t);
        released.(board := released.board.(running := released.board.running - {t}))
  }

  /** A waiting task that is cancelled gets a return code. */
  function CancelWaiting(b: Board, t: TaskId): Board {
    if TaskOf(b, t).status.Waiting? then ExitTask(b, t, false) else b
  }

  function CancelAllWaiting(b: Board, ts: seq<TaskId>): (r: Board)
    ensures r == b.(objects := r.objects, loop := r.loop) && |r.objects| == |b.objects|
    decreases |ts|
  {
    if ts == [] then b else CancelAllWaiting(CancelWaiting(b, ts[0]), ts[1..])
  }

  /** Both queues are emptied; running tasks are only told to cancel and exit by a later step. */
  function ClearQueues(b: Board): Board {
    var merges := CancelAllWaiting(b, b.mergeQueue.waiting).(mergeQueue := b.mergeQueue.(waiting := []));
    CancelAllWaiting(merges, merges.jobQueue.waiting).(jobQueue := merges.jobQueue.(waiting := []))
  }

  function TerminateTasks(cfg: Config, s: State): State {
    var released := ReleaseIdle(cfg, s, |s.board.objects|);
    released.(board := ClearQueues(released.board))
  }

  function TerminationCheckHandler(cfg: Config, s: State): State {
    if s.terminated && !s.terminatedTasks
    then TerminateTasks(cfg, s.(terminatedTasks := true))
    else s
  }

  // ----- events -----

  /** The effect of a callback before _schedule is called. */
  function Handle(cfg: Config, s: State, c: Callback): State {
    match c
    case JobQueueExit(t) => s.(board := JobQueueExitHandler(s.board, t))
    case MergeQueueExit(t) => s.(board := MergeQueueExitHandler(s.board, t))
    case BuildExit(t) => BuildExitHandler(cfg, s, t)
    case MergeExit(t) => MergeExitHandler(s, t)
    case MergeWaitExit(t) => MergeWaitExitHandler(s, t)
    case SystemMergeStarted(t) => s.(plan := SystemMergeStartedHandler(s.plan, TaskOf(s.board, t).pkg))
    case TerminationCheck => TerminationCheckHandler(cfg, s)
  }

  predicate SchedulesAfter(c: Callback) {
    c.BuildExit? || c.MergeExit? || c.MergeWaitExit?
  }

  /** The event loop calls its next callback. */
  ghost function Dispatch(cfg: Config, s: State): State {
    if s.board.loop == [] then s
    else
      var c := s.board.loop[0];
      var handled := Handle(cfg, s.(board := PopCallback(s.board)), c);
      if SchedulesAfter(c) then Schedule(cfg, handled) else handled
  }

  datatype Event =
    | RunCallback                      // the event loop calls the next callback
    | TaskExits(t: TaskId, ok: bool)   // a started task gets its return code
    | SetupQueued(t: TaskId)           // a running build queues its setup phase
    | TokenReadable                    // the registered reader of the jobserver fires
    | MergeWakeup                      // the merge queue is empty and who waited for that calls _schedule
    | Tick                             // a timer calls _schedule
    | Interrupt                        // a signal handler calls terminate

  /** A setup phase of build `t` is still in the merge queue. */
  ghost predicate SetupPending(b: Board, t: TaskId) {
    exists u: nat :: u < |b.objects| && b.objects[u].kind == SetupTask && b.objects[u].owner == t && b.mergeQueue.Holds(u)
  }

  /** A started task exits once; a build does not exit before its setup phase left the merge queue. */
  ghost predicate CanExit(b: Board, t: TaskId) {
    t < |b.objects| && b.objects[t].status.Started? && (b.objects[t].kind == BuildTask ==> !SetupPending(b, t))
  }

  /** A build whose setup phase may be queued: running, and not told to terminate. */
  predicate CanQueueSetup(s: State, t: TaskId) {
    && t < |s.board.objects|
    && s.board.objects[t].kind == BuildTask
    && s.board.objects[t].status.Started?
    && !s.terminatedTasks
  }

  /** _schedule_merge_wakeup */
  ghost function WakeUp(cfg: Config, s: State): State {
    var woken := s.(wakeup := false);
    if woken.mainExitDone then woken else Schedule(cfg, woken)
  }

  ghost function Step(cfg: Config, s: State, e: Event): State {
    match e
    case RunCallback => Dispatch(cfg, s)
    case TaskExits(t, ok) => if CanExit(s.board, t) then s.(board := ExitTask(s.board, t, ok)) else s
    case SetupQueued(t) =>
      if CanQueueSetup(s, t) then Schedule(cfg, s.(board := QueueSetup(s.board, t))) else s
    case TokenReadable =>
      if s.server.up && s.server.watching
      then Schedule(cfg, s.(server := s.server.(watching := false)))
      else s
    case MergeWakeup => if s.wakeup && !s.board.mergeQueue.Busy() then WakeUp(cfg, s) else s
    case Tick => Schedule(cfg, s)
    case Interrupt => Terminate(s)
  }

  function Init(cfg: Config): State {
    State(
      Board([], {}, 0, [], [], Queue(Some(cfg.mergeMax), [], {}), Queue(Some(cfg.maxJobs), [], {}), []),
      Plan(cfg.graph, cfg.mergelist, {}, {}, [], false),
      cfg.server, false, false, false, false, false, 0)
  }

  /** The state after a sequence of events, from the first _schedule of _main_loop on. */
  ghost function Run(cfg: Config, events: seq<Event>): State
    decreases |events|
  {
    if events == [] then Schedule(cfg, Init(cfg))
    else Step(cfg, Run(cfg, events[..|events| - 1]), events[|events| - 1])
  }
}
