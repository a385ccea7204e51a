/**
 * The global invariant of the scheduler and its parts about packages: every package is in one
 * place, the queue keeps what is needed first ahead, and running tasks are exactly the live ones.
 */
module SchedulerInvariant {
  import opened Packages
  import opened SchedulerBoard
  import opened SchedulerLive
  import opened SchedulerModel
  import opened SchedulerSetup
  import opened SchedulerTokens
  import opened Sequences
  import opened TaskQueues
  import opened Wrappers

  /** What the constructor and _set_graph_config hand to _main_loop. */
  ghost predicate ValidConfig(cfg: Config) {
    && cfg.graph.Valid()
    && 1 <= cfg.maxJobs
    && 1 <= cfg.mergeMax
    && Distinct(cfg.mergelist)
    && (forall p :: p in cfg.mergelist ==>
          && p in cfg.graph.order
          && !p.onlydeps
          && p.operation == (if p.IsInstalled() then Uninstall else Merge))
    && cfg.server.tokens == map[]
    && !cfg.server.watching
  }

  /**
   * Pairs (dependency, dependent) of packages to be merged, each listed in the merge list in that
   * order, where the dependent needs the dependency in the graph.
   */
  ghost predicate ValidMusts(cfg: Config, musts: set<(Package, Package)>) {
    forall m :: m in musts ==>
      && !m.0.IsInstalled() && m.0.operation == Merge
      && !m.1.IsInstalled()
      && Before(cfg.mergelist, m.0, m.1)
      && Needs(cfg.graph, m.1, m.0)
  }

  // ----- the parts of the invariant -----

  ghost predicate GraphOk(cfg: Config, graph: DepGraph, completed: set<Package>) {
    graph.Valid() && Shrunk(cfg.graph, graph) && DroppedPrunable(cfg.graph, graph, completed)
  }

  ghost predicate QueueOk(cfg: Config, queue: seq<Package>, completed: set<Package>) {
    Distinct(queue) && forall p :: p in queue ==> p in cfg.mergelist && p !in completed
  }

  /** A live task's package is neither queued nor, unless it was installed before, completed. */
  ghost predicate PlacesOk(cfg: Config, queue: seq<Package>, completed: set<Package>, objects: seq<Task>) {
    && (forall t: nat :: Live(objects, t) ==>
          var p := objects[t].pkg;
          p in cfg.mergelist && p !in queue && (p in completed ==> p.IsInstalled()))
    && (forall t: nat, u: nat :: Live(objects, t) && Live(objects, u) && objects[t].pkg == objects[u].pkg ==> t == u)
  }

  ghost predicate ReplacesOk(objects: seq<Task>) {
    forall t: nat :: t < |objects| && objects[t].toReplace.Some? ==> objects[t].toReplace.value.IsInstalled()
  }

  /** A live task works on `p`. */
  ghost predicate InProgress(objects: seq<Task>, p: Package) {
    exists t: nat :: Live(objects, t) && objects[t].pkg == p
  }

  /** Every package of the merge list is queued, in progress or completed; after a failure or termination all is excused. */
  ghost predicate NoneLost(cfg: Config, queue: seq<Package>, completed: set<Package>, objects: seq<Task>, excused: bool) {
    excused || forall p :: p in cfg.mergelist ==> p in queue || p in completed || InProgress(objects, p)
  }

  /** _running_tasks holds live tasks only and, until tasks are terminated, all of them. */
  ghost predicate RunningOk(objects: seq<Task>, running: set<TaskId>, terminatedTasks: bool) {
    && (forall t: nat :: t in running ==> Live(objects, t))
    && (!terminatedTasks ==> forall t: nat :: Live(objects, t) ==> t in running)
  }

  ghost predicate FlagsOk(s: State) {
    && (s.terminatedTasks ==> s.terminated)
    && (s.terminationPending ==> s.terminated)
  }

  /** Every unhandled build holds one token entry; after termination some entries may be gone. */
  ghost predicate TokenKeysOk(objects: seq<Task>, tokens: map<TaskId, seq<int>>, terminatedTasks: bool) {
    && tokens.Keys <= UnhandledBuilds(objects)
    && (!terminatedTasks ==> tokens.Keys == UnhandledBuilds(objects))
  }

  /** A search of the pruned queue finds nothing and pruning again changes nothing. */
  ghost predicate NothingToChoose(p: Plan) {
    && Prune(p.graph, p.completed) == p.graph
    && SearchQueue(p.graph, p.completed, p.queue) == |p.queue|
  }

  /** The early-return flag is justified as long as scheduling goes on. */
  ghost predicate EarlyOk(p: Plan, running: set<TaskId>, terminated: bool) {
    p.chooseEarly && !terminated && p.queue != [] && p.failed == [] ==> running != {} && NothingToChoose(p)
  }

  /** No queued dependent stands before a queued dependency. */
  ghost predicate OrderOk(musts: set<(Package, Package)>, queue: seq<Package>) {
    forall i, j :: 0 <= i <= j < |queue| ==> (queue[j], queue[i]) !in musts
  }

  /** Whatever a package needs first was completed when its first task was created, and still is. */
  ghost predicate StartedOk(musts: set<(Package, Package)>, objects: seq<Task>, completed: set<Package>) {
    forall t: nat, m :: t < |objects| && m in musts && m.1 == objects[t].pkg ==> m.0 in completed
  }

  ghost predicate PlanInv(cfg: Config, musts: set<(Package, Package)>, p: Plan, objects: seq<Task>, terminated: bool) {
    && GraphOk(cfg, p.graph, p.completed)
    && QueueOk(cfg, p.queue, p.completed)
    && PlacesOk(cfg, p.queue, p.completed, objects)
    && ReplacesOk(objects)
    && NoneLost(cfg, p.queue, p.completed, objects, terminated || p.failed != [])
    && OrderOk(musts, p.queue)
    && StartedOk(musts, objects, p.completed)
  }

  ghost predicate StateInv(cfg: Config, musts: set<(Package, Package)>, s: State) {
    && BoardInv(s.board)
    && s.board.jobQueue.maxJobs == Some(cfg.maxJobs)
    && PlanInv(cfg, musts, s.plan, s.board.objects, s.terminated)
    && RunningOk(s.board.objects, s.board.running, s.terminatedTasks)
    && FlagsOk(s)
    && TokenKeysOk(s.board.objects, s.server.tokens, s.terminatedTasks)
    && ServerOk(cfg.server, s.server)
    && EarlyOk(s.plan, s.board.running, s.terminated)
  }

  // ----- how the parts follow the live tasks -----

  lemma PlanInvLiveSame(cfg: Config, musts: set<(Package, Package)>, p: Plan, a: seq<Task>, r: seq<Task>, terminated: bool)
    requires PlanInv(cfg, musts, p, a, terminated) && LiveSame(a, r)
    ensures PlanInv(cfg, musts, p, r, terminated)
  {
    hide GraphOk, QueueOk, OrderOk, Live;
    forall t: nat | Live(r, t) || Live(a, t)
      ensures t < |a|
    {
      if Live(r, t) { LiveInRange(r, t); } else { LiveInRange(a, t); }
    }
    forall q | InProgress(a, q)
      ensures InProgress(r, q)
    {
      var t: nat :| Live(a, t) && a[t].pkg == q;
      assert Live(r, t) && r[t].pkg == q;
    }
  }

  lemma LiveInRange(objects: seq<Task>, t: nat)
    requires Live(objects, t)
    ensures t < |objects|
  {
  }

  lemma RunningOkLiveSame(a: seq<Task>, r: seq<Task>, running: set<TaskId>, terminatedTasks: bool)
    requires RunningOk(a, running, terminatedTasks) && LiveSame(a, r)
    ensures RunningOk(r, running, terminatedTasks)
  {
    hide Live;
    forall t: nat | Live(r, t) || Live(a, t)
      ensures t < |a|
    {
      if Live(r, t) { LiveInRange(r, t); } else { LiveInRange(a, t); }
    }
  }

  /** The live task `t` is gone; its package is completed, or all is excused. */
  lemma PlanInvLiveLost(cfg: Config, p: Plan, a: seq<Task>, r: seq<Task>, t: TaskId, excused: bool)
    requires PlacesOk(cfg, p.queue, p.completed, a) && ReplacesOk(a) && LiveLost(a, r, t)
    requires NoneLost(cfg, p.queue, p.completed, a, excused)
    ensures PlacesOk(cfg, p.queue, p.completed, r) && ReplacesOk(r)
    ensures excused || a[t].pkg in p.completed ==> NoneLost(cfg, p.queue, p.completed, r, excused)
    ensures forall q :: InProgress(a, q) && q != a[t].pkg ==> InProgress(r, q)
    ensures !InProgress(r, a[t].pkg)
  {
    hide Live;
    forall u: nat | Live(r, u) || Live(a, u)
      ensures u < |a|
    {
      if Live(r, u) { LiveInRange(r, u); } else { LiveInRange(a, u); }
    }
    forall q | InProgress(a, q) && q != a[t].pkg
      ensures InProgress(r, q)
    {
      var u: nat :| Live(a, u) && a[u].pkg == q;
      assert Live(r, u) && r[u].pkg == q;
    }
  }

  lemma StartedOkSame(musts: set<(Package, Package)>, a: seq<Task>, r: seq<Task>, completed: set<Package>)
    requires StartedOk(musts, a, completed) && SameSubjects(a, r) && |r| == |a|
    ensures StartedOk(musts, r, completed)
  {
  }

  lemma StartedOkGained(musts: set<(Package, Package)>, a: seq<Task>, r: seq<Task>, task: Task, live: bool, completed: set<Package>)
    requires StartedOk(musts, a, completed) && LiveGained(a, r, task, live)
    requires forall m :: m in musts && m.1 == task.pkg ==> m.0 in completed
    ensures StartedOk(musts, r, completed)
  {
  }

  /** A task is created; a live one must be for a package that is nowhere else. */
  lemma PlanInvLiveGained(cfg: Config, p: Plan, a: seq<Task>, r: seq<Task>, task: Task, live: bool, excused: bool)
    requires PlacesOk(cfg, p.queue, p.completed, a) && ReplacesOk(a) && LiveGained(a, r, task, live)
    requires task.toReplace.Some? ==> task.toReplace.value.IsInstalled()
    requires live ==> task.pkg in cfg.mergelist && task.pkg !in p.queue && !InProgress(a, task.pkg)
    requires live ==> task.pkg !in p.completed || task.pkg.IsInstalled()
    ensures PlacesOk(cfg, p.queue, p.completed, r) && ReplacesOk(r)
    ensures forall q :: InProgress(a, q) || (live && q == task.pkg) ==> InProgress(r, q)
    ensures NoneLost(cfg, p.queue, p.completed, a, excused) ==> NoneLost(cfg, p.queue, p.completed, r, excused)
  {
    hide Live;
    forall u: nat | Live(r, u) || Live(a, u)
      ensures u < |r| && (Live(a, u) ==> u < |a|)
    {
      if Live(r, u) { LiveInRange(r, u); }
      if Live(a, u) { LiveInRange(a, u); }
    }
    forall q | InProgress(a, q) || (live && q == task.pkg)
      ensures InProgress(r, q)
    {
      if InProgress(a, q) {
        var u: nat :| Live(a, u) && a[u].pkg == q;
        assert Live(r, u) && r[u].pkg == q;
      } else {
        assert Live(r, |a|) && r[|a|].pkg == q;
      }
    }
    assert forall u: nat :: Live(a, u) ==> InProgress(a, a[u].pkg);
  }
}
