/** Packages, dependency priorities and dependency graphs as the scheduler sees them. */
module Packages {
  import opened Digraphs
  import opened Reachability
  import Sequences

  datatype Operation = Merge | NoMerge | Uninstall

  datatype PackageType = Ebuild | Binary | Installed

  /** The attributes that make up a package's hash key, and `onlydeps`. */
  datatype Package = Package(
    typeName: PackageType,
    root: nat,
    cpv: nat,
    operation: Operation,
    repo: nat,
    onlydeps: bool)
  {
    predicate IsInstalled() { typeName.Installed? }
  }

  /** The flags of a DepPriority; `Foreign` is a priority object of another class. */
  datatype Priority =
    | Dep(buildtime: bool, runtime: bool, runtimePost: bool, satisfied: bool)
    | Foreign

  type DepGraph = Digraph<Package, Priority>

  const BUILDTIME := Dep(true, false, false, false)

  /** The arcs along which deep dependencies are followed from `start`: none leaves another uninstall node. */
  ghost function SearchArcs(g: DepGraph, start: Package): set<(Package, Package)> {
    set e | e in g.arcs.Keys && (e.0 == start || e.0.operation != Uninstall)
  }

  /** `start` needs `node`: some dependency path leads there through non-uninstall nodes. */
  ghost predicate Needs(g: DepGraph, start: Package, node: Package) {
    node != start && Reaches(SearchArcs(g, start), start, node)
  }

  /** A node that _prune_digraph may drop once nothing in the graph depends on it. */
  predicate Prunable(node: Package, completed: set<Package>) {
    || (node.IsInstalled() && node.operation == NoMerge)
    || node.onlydeps
    || node in completed
  }

  /** `h` is `g` after dropping nodes that no kept node depends on. */
  ghost predicate Shrunk(g: DepGraph, h: DepGraph) {
    && (forall n :: n in h.order ==> n in g.order)
    && (forall e :: e in h.arcs <==> e in g.arcs && e.0 in h.order && e.1 in h.order)
    && (forall e :: e in h.arcs ==> h.arcs[e] == g.arcs[e])
    && (forall e :: e in g.arcs && e.0 in h.order ==> e.1 in h.order)
  }

  /** Only prunable nodes were dropped on the way from `g` to `h`. */
  ghost predicate DroppedPrunable(g: DepGraph, h: DepGraph, completed: set<Package>) {
    forall n :: n in g.order && n !in h.order ==> Prunable(n, completed)
  }

  lemma ShrunkTransitive(g: DepGraph, h: DepGraph, k: DepGraph)
    requires Shrunk(g, h) && Shrunk(h, k)
    ensures Shrunk(g, k)
  {
    forall e | e in g.arcs && e.0 in k.order
      ensures e.1 in k.order
    {
      assert e.0 in h.order;
      assert e.1 in h.order;
      assert e in h.arcs;
    }
  }

  /** Pruning never changes what a kept node needs. */
  lemma ShrunkKeepsNeeds(g: DepGraph, h: DepGraph, start: Package, node: Package)
    requires g.Valid() && Shrunk(g, h) && start in h.order
    ensures Needs(g, start, node) <==> Needs(h, start, node)
    ensures Needs(g, start, node) ==> node in h.order
  {
    var big, small := SearchArcs(g, start), SearchArcs(h, start);
    if Reaches(big, start, node) {
      var p :| IsPath(big, p, start, node);
      forall k | 0 <= k < |p|
        ensures p[k] in h.order
      {
        PathStaysKept(g, h, start, p, k);
      }
      forall i | 0 <= i < |p| - 1
        ensures (p[i], p[i + 1]) in small
      {
        var e := (p[i], p[i + 1]);
        assert e in big;
        assert e.0 in h.order && e.1 in h.order;
        assert e in h.arcs;
      }
      assert IsPath(small, p, start, node);
    }
    if Reaches(small, start, node) {
      assert small <= big;
      ReachesMonotone(small, big, start, node);
    }
  }

  lemma {:induction false} PathStaysKept(g: DepGraph, h: DepGraph, start: Package, p: seq<Package>, k: nat)
    requires Shrunk(g, h) && start in h.order && k < |p|
    requires p[0] == start && forall i :: 0 <= i < |p| - 1 ==> (p[i], p[i + 1]) in SearchArcs(g, start)
    ensures p[k] in h.order
  {
    if k > 0 {
      PathStaysKept(g, h, start, p, k - 1);
      assert (p[k - 1], p[k - 1 + 1]) in SearchArcs(g, start);
    }
  }

  /** The prunable roots that one pass of _prune_digraph collects. */
  function PrunableRoots(g: DepGraph, completed: set<Package>): set<Package> {
    set n | n in g.RootNodes() && Prunable(n, completed)
  }

  /** The graph that _prune_digraph leaves: passes are repeated until one collects nothing. */
  function Prune(g: DepGraph, completed: set<Package>): DepGraph
    decreases |g.order|
  {
    var gone := PrunableRoots(g, completed);
    if gone == {} then g
    else
      PassShrinks(g, completed);
      Prune(g.Without(gone), completed)
  }

  lemma PassShrinks(g: DepGraph, completed: set<Package>)
    requires PrunableRoots(g, completed) != {}
    ensures |g.Without(PrunableRoots(g, completed)).order| < |g.order|
  {
    var gone := PrunableRoots(g, completed);
    var n :| n in gone;
    Sequences.FilterDrops(x => x !in gone, g.order, n);
  }

  /**
   * What pruning guarantees: it drops only nodes all of whose ancestors are prunable (no kept
   * node has an arc to a dropped one), and it leaves no prunable root.
   */
  lemma {:induction false} PruneCorrect(g: DepGraph, completed: set<Package>)
    requires g.Valid()
    ensures Prune(g, completed).Valid()
    ensures Shrunk(g, Prune(g, completed))
    ensures DroppedPrunable(g, Prune(g, completed), completed)
    ensures PrunableRoots(Prune(g, completed), completed) == {}
    decreases |g.order|
  {
    var gone := PrunableRoots(g, completed);
    if gone != {} {
      WithoutValid(g, gone);
      PassShrinks(g, completed);
      var h := g.Without(gone);
      assert Shrunk(g, h);
      PruneCorrect(h, completed);
      ShrunkTransitive(g, h, Prune(h, completed));
    }
  }

  /** Every ancestor of a dropped node was prunable, however far above it. */
  lemma PrunedAncestorsPrunable(g: DepGraph, completed: set<Package>, above: Package, node: Package)
    requires g.Valid() && node in g.order && node !in Prune(g, completed).order
    requires above in g.order && Reaches(g.arcs.Keys, above, node)
    ensures above !in Prune(g, completed).order && Prunable(above, completed)
  {
    PruneCorrect(g, completed);
    var h := Prune(g, completed);
    if above in h.order {
      var kept := set n | n in h.order;
      assert Closed(g.arcs.Keys, kept);
      ClosedKeepsReach(g.arcs.Keys, kept, above, node);
    }
  }

  /** A second pruning with the same completed packages changes nothing. */
  lemma PruneIdempotent(g: DepGraph, completed: set<Package>)
    requires g.Valid()
    ensures Prune(g, completed).Valid()
    ensures Prune(Prune(g, completed), completed) == Prune(g, completed)
  {
    PruneCorrect(g, completed);
  }
}
