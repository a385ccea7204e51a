/**
 * The two worklists over the dependency graph: the search for scheduled merges that a
 * package depends on, and the closure of the system set over runtime dependencies.
 * Both are proved to compute reachability exactly.
 */
module DependencySearch {
  import opened Digraphs
  import opened Packages
  import opened Reachability
  import opened Sequences

  /** A needed node that must be waited for. `direct` says that it is a direct dependency. */
  predicate Blocking(node: Package, direct: bool, completed: set<Package>, later: set<Package>) {
    !(|| (node.IsInstalled() && node.operation == NoMerge)
      || (node.operation == Uninstall && !direct)
      || node in completed
      || node in later)
  }

  /** Among everything `pkg` needs there is something to wait for. */
  ghost predicate DependsOnScheduled(g: DepGraph, completed: set<Package>, pkg: Package, later: set<Package>) {
    exists n :: Needs(g, pkg, n) && Blocking(n, (pkg, n) in g.arcs, completed, later)
  }

  /** The nodes of `g` that are not in `seen`; the worklists consume it. */
  function Unseen<N(!new), P(!new)>(g: Digraph<N, P>, seen: set<N>): set<N> {
    set n | n in g.order && n !in seen
  }

  method DependentOnScheduledMerges(g: DepGraph, completed: set<Package>, pkg: Package, later: set<Package>)
    returns (dependent: bool)
    requires g.Valid() && pkg in g.order
    ensures dependent <==> DependsOnScheduled(g, completed, pkg, later)
  {
    ghost var arcs := SearchArcs(g, pkg);
    var traversed := {pkg};
    var direct := g.ChildNodes(pkg);
    var stack := direct;
    ReachesItself(arcs, pkg);
    forall n | n in direct
      ensures Reaches(arcs, pkg, n)
    {
      ReachesFurther(arcs, pkg, pkg, n);
    }
    while stack != []
      invariant pkg in traversed
      invariant forall n :: n in stack ==> n in g.order && Reaches(arcs, pkg, n)
      invariant forall n :: n in traversed ==> Reaches(arcs, pkg, n)
      invariant forall n :: n in traversed && n != pkg ==> !Blocking(n, (pkg, n) in g.arcs, completed, later)
      invariant forall a, b :: (a, b) in arcs && a in traversed ==> b in traversed || b in stack
      decreases Unseen(g, traversed), |stack|
    {
      var node := stack[|stack| - 1];
      PopKeepsOthers(stack);
      stack := stack[..|stack| - 1];
      if node in traversed {
        continue;
      }
      ghost var seen := traversed;
      traversed := traversed + {node};
      assert node in Unseen(g, seen) && Unseen(g, traversed) < Unseen(g, seen);
      if Blocking(node, node in direct, completed, later) {
        assert Needs(g, pkg, node);
        return true;
      }
      if node.operation != Uninstall {
        forall c | c in g.ChildNodes(node)
          ensures Reaches(arcs, pkg, c)
        {
          ReachesFurther(arcs, pkg, node, c);
        }
        stack := stack + g.ChildNodes(node);
      }
    }
    forall n | Needs(g, pkg, n)
      ensures !Blocking(n, (pkg, n) in g.arcs, completed, later)
    {
      ClosedKeepsReach(arcs, traversed, pkg, n);
    }
    dependent := false;
  }

  /** A runtime or post-merge runtime dependency. */
  predicate IsRuntime(p: Priority) {
    p.Dep? && (p.runtime || p.runtimePost)
  }

  /** The arcs that the system closure follows: runtime dependencies on packages that stay. */
  ghost function RuntimeArcs(g: DepGraph): set<(Package, Package)> {
    set e | e in g.arcs.Keys && e.1.operation != Uninstall && Filter(IsRuntime, g.arcs[e]) != []
  }

  /** `node` is a system package of the graph or a deep runtime dependency of one. */
  ghost predicate DeepSystem(g: DepGraph, system: set<Package>, node: Package) {
    exists s :: s in g.order && s in system && s.operation != Uninstall && Reaches(RuntimeArcs(g), s, node)
  }

  lemma DeepSystemStarts(g: DepGraph, system: set<Package>, node: Package)
    requires node in g.order && node in system && node.operation != Uninstall
    ensures DeepSystem(g, system, node)
  {
    ReachesItself(RuntimeArcs(g), node);
  }

  lemma DeepSystemSpreads(g: DepGraph, system: set<Package>, node: Package, child: Package)
    requires DeepSystem(g, system, node) && (node, child) in RuntimeArcs(g)
    ensures DeepSystem(g, system, child)
  {
    var s :| s in g.order && s in system && s.operation != Uninstall && Reaches(RuntimeArcs(g), s, node);
    ReachesFurther(RuntimeArcs(g), s, node, child);
  }

  lemma DeepSystemEnclosed(g: DepGraph, system: set<Package>, deps: set<Package>, node: Package)
    requires Closed(RuntimeArcs(g), deps) && DeepSystem(g, system, node)
    requires forall s :: s in g.order && s in system && s.operation != Uninstall ==> s in deps
    ensures node in deps
  {
    var s :| s in g.order && s in system && s.operation != Uninstall && Reaches(RuntimeArcs(g), s, node);
    ClosedKeepsReach(RuntimeArcs(g), deps, s, node);
  }

  /** The deep system dependencies as a set: it holds the system packages and is closed. */
  lemma DeepSystemSet(g: DepGraph, system: set<Package>) returns (all: set<Package>)
    requires g.Valid()
    ensures forall n :: n in all <==> DeepSystem(g, system, n)
    ensures forall s :: s in g.order && s in system && s.operation != Uninstall ==> s in all
    ensures Closed(RuntimeArcs(g), all)
  {
    all := set n | n in g.order && DeepSystem(g, system, n);
    forall n | DeepSystem(g, system, n)
      ensures n in g.order
    {
      DeepSystemEnclosed(g, system, Elements(g.order), n);
    }
    forall s | s in g.order && s in system && s.operation != Uninstall
      ensures s in all
    {
      DeepSystemStarts(g, system, s);
    }
    forall a, b | (a, b) in RuntimeArcs(g) && a in all
      ensures b in all
    {
      DeepSystemSpreads(g, system, a, b);
    }
  }

  /** Whatever the closure visits next: children over a runtime arc that are not being removed. */
  function RuntimeChildren(g: DepGraph, node: Package): (r: seq<Package>)
    requires g.Valid()
    ensures forall c :: c in r <==> (node, c) in RuntimeArcs(g)
  {
    Filter((c: Package) => c.operation != Uninstall, g.ChildNodesWhere(node, IsRuntime))
  }

  /** One step of the closure keeps what the loop knows about its stack and its result. */
  lemma VisitKeepsClosure(g: DepGraph, deps: set<Package>, stack: seq<Package>, all: set<Package>)
    requires g.Valid() && stack != [] && Closed(RuntimeArcs(g), all)
    requires forall n :: n in stack ==> n in all
    requires forall a, b :: (a, b) in RuntimeArcs(g) && a in deps ==> b in deps || b in stack
    ensures
      var node, rest := stack[|stack| - 1], stack[..|stack| - 1];
      var next := rest + RuntimeChildren(g, node);
      && (forall n :: n in next ==> n in all)
      && (forall a, b :: (a, b) in RuntimeArcs(g) && a in deps + {node} ==> b in deps + {node} || b in next)
      && (node in deps ==> forall a, b :: (a, b) in RuntimeArcs(g) && a in deps ==> b in deps || b in rest)
  {
    PopKeepsOthers(stack);
  }

  method FindDeepSystemRuntimeDeps(g: DepGraph, system: set<Package>) returns (deps: set<Package>)
    requires g.Valid()
    ensures forall n :: n in deps <==> DeepSystem(g, system, n)
  {
    ghost var all := DeepSystemSet(g, system);
    deps := {};
    var stack := Filter((n: Package) => n.operation != Uninstall && n in system, g.order);
    while stack != []
      invariant forall n :: n in stack ==> n in all
      invariant deps <= all
      invariant forall n :: n in g.order && n in system && n.operation != Uninstall ==> n in deps || n in stack
      invariant forall a, b :: (a, b) in RuntimeArcs(g) && a in deps ==> b in deps || b in stack
      decreases all - deps, |stack|
    {
      VisitKeepsClosure(g, deps, stack, all);
      PopKeepsOthers(stack);
      var node := stack[|stack| - 1];
      stack := stack[..|stack| - 1];
      if node !in deps {
        deps := deps + {node};
        stack := stack + RuntimeChildren(g, node);
      }
    }
    forall n | DeepSystem(g, system, n)
      ensures n in deps
    {
      DeepSystemEnclosed(g, system, deps, n);
    }
  }
}
