/**
 * What a choice guarantees: the chosen package's needs are completed, and the queue stays in
 * order with or without the package at its head.
 */
module SchedulerChoice {
  import opened DependencySearch
  import opened Packages
  import opened SchedulerBoard
  import opened SchedulerInvariant
  import opened SchedulerLive
  import opened SchedulerModel
  import opened SchedulerTokens
  import opened Sequences

  /** `rest` is `queue` without the package at `i`. */
  ghost predicate Taken(queue: seq<Package>, i: nat, rest: seq<Package>) {
    i < |queue| && rest == queue[..i] + queue[i + 1..]
  }

  lemma TakenQueue(cfg: Config, musts: set<(Package, Package)>, queue: seq<Package>, completed: set<Package>, i: nat, rest: seq<Package>)
    requires QueueOk(cfg, queue, completed) && OrderOk(musts, queue) && Taken(queue, i, rest)
    ensures QueueOk(cfg, rest, completed) && OrderOk(musts, rest)
    ensures queue[i] !in rest
    ensures forall q :: q in queue <==> q == queue[i] || q in rest
  {
    assert forall k :: 0 <= k < |rest| ==> rest[k] == queue[if k < i then k else k + 1];
    assert queue == queue[..i] + [queue[i]] + queue[i + 1..];
  }

  /** A package whose needs are completed may stand at the head of the queue. */
  lemma HeadKeepsOrder(cfg: Config, musts: set<(Package, Package)>, rest: seq<Package>, completed: set<Package>, pkg: Package)
    requires QueueOk(cfg, rest, completed) && OrderOk(musts, rest)
    requires pkg in cfg.mergelist && pkg !in rest && pkg !in completed
    requires forall m :: m in musts && m.1 == pkg ==> m.0 in completed
    ensures QueueOk(cfg, [pkg] + rest, completed) && OrderOk(musts, [pkg] + rest)
  {
    var queue := [pkg] + rest;
    forall i, j | 0 <= i <= j < |queue|
      ensures (queue[j], queue[i]) !in musts
    {
      if i == 0 {
        assert queue[j] !in completed by {
          assert queue[j] == pkg || queue[j] in rest;
        }
        assert (queue[j], queue[i]).1 == pkg;
      }
    }
  }

  /** A dependency does not stand at its dependent or behind it. */
  lemma OrderExcludes(musts: set<(Package, Package)>, queue: seq<Package>, i: nat, m: (Package, Package))
    requires OrderOk(musts, queue) && i < |queue| && m in musts && m.1 == queue[i]
    ensures m.0 !in queue[i..]
  {
    forall k | i <= k < |queue|
      ensures queue[k] != m.0
    {
      assert m == (m.0, queue[i]);
      assert (queue[k], queue[i]) !in musts;
    }
  }

  /** With nothing running, what the head of the queue needs is completed. */
  lemma IdleHeadReady(cfg: Config, musts: set<(Package, Package)>, s: State, m: (Package, Package))
    requires StateInv(cfg, musts, s) && ValidMusts(cfg, musts)
    requires KeepScheduling(s) && s.board.running == {} && m in musts && m.1 == s.plan.queue[0]
    ensures m.0 in s.plan.completed
  {
    hide BoardInv, ServerOk, TokenKeysOk, EarlyOk, GraphOk, Live, PlacesOk, StartedOk, Needs;
    assert m.0 in cfg.mergelist;
    OrderExcludes(musts, s.plan.queue, 0, m);
    assert s.plan.queue[0..] == s.plan.queue;
    assert !InProgress(s.board.objects, m.0);
  }

  /** A package that the search found free has its needs completed: the rest of its needs would block it. */
  lemma FreeReady(cfg: Config, musts: set<(Package, Package)>, p: Plan, g: DepGraph, i: nat, m: (Package, Package))
    requires ValidConfig(cfg) && ValidMusts(cfg, musts) && GraphOk(cfg, g, p.completed)
    requires QueueOk(cfg, p.queue, p.completed) && OrderOk(musts, p.queue)
    requires i < |p.queue| && Free(g, p.completed, p.queue, i) && m in musts && m.1 == p.queue[i]
    ensures m.0 in p.completed
  {
    QueuedInGraph(cfg, p, g, p.queue[i]);
    ShrunkKeepsNeeds(cfg.graph, g, m.1, m.0);
    assert !Blocking(m.0, (m.1, m.0) in g.arcs, p.completed, Elements(p.queue[i + 1..]));
    OrderExcludes(musts, p.queue, i, m);
    assert p.queue[i..][1..] == p.queue[i + 1..];
  }

  /** A queued package is in the pruned graph, so looking up its children cannot fail. */
  lemma QueuedInGraph(cfg: Config, p: Plan, g: DepGraph, pkg: Package)
    requires ValidConfig(cfg) && GraphOk(cfg, g, p.completed) && QueueOk(cfg, p.queue, p.completed)
    requires pkg in p.queue
    ensures pkg in g.order
  {
  }

  lemma PruneKeepsGraphOk(cfg: Config, p: Plan)
    requires GraphOk(cfg, p.graph, p.completed)
    ensures GraphOk(cfg, Prune(p.graph, p.completed), p.completed)
  {
    PruneCorrect(p.graph, p.completed);
    ShrunkTransitive(cfg.graph, p.graph, Prune(p.graph, p.completed));
  }

  /** What the caller of _choose_pkg may rely on. */
  ghost predicate GoodChoice(cfg: Config, musts: set<(Package, Package)>, p: Plan, c: Chosen) {
    && c.plan == p.(graph := c.plan.graph, queue := c.plan.queue, chooseEarly := c.plan.chooseEarly)
    && GraphOk(cfg, c.plan.graph, p.completed)
    && match c.pkg
       case None => c.plan.queue == p.queue && c.plan.chooseEarly
       case Some(pkg) =>
         && !c.plan.chooseEarly
         && (exists i: nat :: Taken(p.queue, i, c.plan.queue) && p.queue[i] == pkg)
         && forall m :: m in musts && m.1 == pkg ==> m.0 in p.completed
  }

  lemma ChooseGood(cfg: Config, musts: set<(Package, Package)>, s: State)
    requires ValidConfig(cfg) && ValidMusts(cfg, musts) && StateInv(cfg, musts, s)
    requires KeepScheduling(s) && !s.plan.chooseEarly
    ensures GoodChoice(cfg, musts, s.plan, ChoosePkg(s.plan, s.board.running != {}))
    ensures
      var c := ChoosePkg(s.plan, s.board.running != {});
      c.pkg.None? ==> s.board.running != {} && NothingToChoose(c.plan)
  {
    hide BoardInv, ServerOk, TokenKeysOk, GraphOk, Live, QueueOk, PlacesOk, NoneLost, OrderOk, StartedOk, Needs, Free;
    var p, c := s.plan, ChoosePkg(s.plan, s.board.running != {});
    if s.board.running == {} {
      assert p.queue[..0] + p.queue[1..] == p.queue[1..];
      assert Taken(p.queue, 0, c.plan.queue);
      forall m | m in musts && m.1 == p.queue[0]
        ensures m.0 in p.completed
      {
        IdleHeadReady(cfg, musts, s, m);
      }
    } else {
      PruneKeepsGraphOk(cfg, p);
      GraphValid(cfg, p);
      PruneIdempotent(p.graph, p.completed);
      var g := Prune(p.graph, p.completed);
      var i := SearchQueue(g, p.completed, p.queue);
      if i < |p.queue| {
        assert Taken(p.queue, i, c.plan.queue);
        forall m | m in musts && m.1 == p.queue[i]
          ensures m.0 in p.completed
        {
          ChosenReady(cfg, musts, p, g, i, m);
        }
      }
    }
  }

  lemma GraphValid(cfg: Config, p: Plan)
    requires GraphOk(cfg, p.graph, p.completed)
    ensures p.graph.Valid()
  {
  }

  lemma ChosenReady(cfg: Config, musts: set<(Package, Package)>, p: Plan, g: DepGraph, i: nat, m: (Package, Package))
    requires ValidConfig(cfg) && ValidMusts(cfg, musts) && GraphOk(cfg, g, p.completed)
    requires QueueOk(cfg, p.queue, p.completed) && OrderOk(musts, p.queue)
    requires i < |p.queue| && i == SearchQueue(g, p.completed, p.queue) && m in musts && m.1 == p.queue[i]
    ensures m.0 in p.completed
  {
    hide GraphOk, QueueOk, OrderOk, Needs, Free;
    var u := FreeUninstall(g, p.queue, 0);
    if u < |p.queue| {
      UninstallHasNoMusts(cfg, musts, p, i, m);
    } else {
      FreeReady(cfg, musts, p, g, i, m);
    }
  }

  lemma UninstallHasNoMusts(cfg: Config, musts: set<(Package, Package)>, p: Plan, i: nat, m: (Package, Package))
    requires ValidConfig(cfg) && ValidMusts(cfg, musts) && QueueOk(cfg, p.queue, p.completed)
    requires i < |p.queue| && m in musts && m.1 == p.queue[i]
    ensures p.queue[i].operation != Uninstall
  {
  }
}
