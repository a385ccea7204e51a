/**
 * What the scheduler does to the dependency graph before it starts: prune it, then add arcs that
 * keep packages with the same cpv apart. Neither disturbs a well-ordered merge list.
 */
module SchedulerSetup {
  import opened Packages
  import opened Reachability
  import opened Sequences

  /** `d` stands before `p` in `list`. */
  ghost predicate Before(list: seq<Package>, d: Package, p: Package) {
    exists i, j :: 0 <= i < j < |list| && list[i] == d && list[j] == p
  }

  lemma BeforeTransitive(list: seq<Package>, a: Package, b: Package, c: Package)
    requires Distinct(list) && Before(list, a, b) && Before(list, b, c)
    ensures Before(list, a, c)
  {
    var i, j :| 0 <= i < j < |list| && list[i] == a && list[j] == b;
    var k, l :| 0 <= k < l < |list| && list[k] == b && list[l] == c;
    assert j == k;
  }

  /** The list puts each package to be built after everything to be merged that it needs. */
  ghost predicate ListOrdered(g: DepGraph, list: seq<Package>) {
    forall d, p :: d in list && p in list && d.operation == Merge && !p.IsInstalled() && Needs(g, p, d) ==>
      Before(list, d, p)
  }

  /** Two packages of the list, neither of them installed, with one cpv: they would share a build directory. */
  predicate Collide(earlier: Package, later: Package) {
    !earlier.IsInstalled() && !later.IsInstalled() && earlier.cpv == later.cpv
  }

  /** The arcs from a later to an earlier colliding package, among the first `n` of the list. */
  ghost function CollisionArcs(list: seq<Package>, n: nat): (r: set<(Package, Package)>)
    requires n <= |list|
    ensures forall i, j :: 0 <= i < j < n && Collide(list[i], list[j]) ==> (list[j], list[i]) in r
    ensures forall e :: e in r ==> exists i, j :: 0 <= i < j < n && Collide(list[i], list[j]) && e == (list[j], list[i])
  {
    set i, j | 0 <= i < j < n && Collide(list[i], list[j]) :: (list[j], list[i])
  }

  /** digraph.add(child, parent, priority) for two nodes of the graph. */
  function AddArc(g: DepGraph, child: Package, parent: Package, priority: Priority): DepGraph {
    var e := (parent, child);
    g.(arcs := g.arcs[e := if e in g.arcs then g.arcs[e] + [priority] else [priority]])
  }

  /** `h` is `g` with the arcs in `added`; the other arcs keep their priorities. */
  ghost predicate Extended(g: DepGraph, h: DepGraph, added: set<(Package, Package)>) {
    && h.order == g.order
    && h.arcs.Keys == g.arcs.Keys + added
    && (forall e :: e in g.arcs && e !in added ==> h.arcs[e] == g.arcs[e])
    && (forall e :: e in added ==> BUILDTIME in h.arcs[e])
    && (forall e :: e in g.arcs ==> g.arcs[e] <= h.arcs[e])
  }

  /** What the n-th package of the list adds: arcs to the earlier packages that collide with it. */
  lemma CollisionArcsStep(list: seq<Package>, n: nat, earlier: seq<Package>)
    requires n < |list|
    requires forall p :: p in earlier <==> p in list[..n] && Collide(p, list[n])
    ensures CollisionArcs(list, n + 1) == CollisionArcs(list, n) + ArcsTo(list[n], earlier)
  {
    forall e | e in CollisionArcs(list, n + 1)
      ensures e in CollisionArcs(list, n) + ArcsTo(list[n], earlier)
    {
      var i, j :| 0 <= i < j < n + 1 && Collide(list[i], list[j]) && e == (list[j], list[i]);
      if j == n {
        assert list[i] in list[..n];
      }
    }
    forall e | e in ArcsTo(list[n], earlier)
      ensures e in CollisionArcs(list, n + 1)
    {
      assert e.1 in list[..n];
      var i :| 0 <= i < n && list[i] == e.1;
    }
  }

  function ArcsTo(parent: Package, children: seq<Package>): (r: set<(Package, Package)>)
    ensures forall e :: e in r <==> e.0 == parent && e.1 in children
  {
    set c | c in children :: (parent, c)
  }

  lemma AddArcExtends(g: DepGraph, h: DepGraph, added: set<(Package, Package)>, child: Package, parent: Package)
    requires Extended(g, h, added)
    ensures Extended(g, AddArc(h, child, parent, BUILDTIME), added + {(parent, child)})
  {
    var e, r := (parent, child), AddArc(h, child, parent, BUILDTIME);
    assert BUILDTIME in r.arcs[e] by {
      assert r.arcs[e][|r.arcs[e]| - 1] == BUILDTIME;
    }
  }

  /** The map lists, for each cpv, the packages to be built among the first `n`. */
  ghost predicate Grouped(cpvMap: map<nat, seq<Package>>, list: seq<Package>, n: nat)
    requires n <= |list|
  {
    && (forall c, p :: c in cpvMap ==> (p in cpvMap[c] <==> p in list[..n] && p.cpv == c && !p.IsInstalled()))
    && (forall p :: p in list[..n] && !p.IsInstalled() ==> p.cpv in cpvMap)
  }

  lemma GroupedStep(cpvMap: map<nat, seq<Package>>, list: seq<Package>, n: nat)
    requires n < |list| && Grouped(cpvMap, list, n)
    ensures list[n].IsInstalled() ==> Grouped(cpvMap, list, n + 1)
    ensures !list[n].IsInstalled() ==>
      var c := list[n].cpv;
      var earlier := if c in cpvMap then cpvMap[c] else [];
      && Grouped(cpvMap[c := earlier + [list[n]]], list, n + 1)
      && forall p :: p in earlier <==> p in list[..n] && Collide(p, list[n])
  {
    assert list[..n + 1] == list[..n] + [list[n]];
    var c := list[n].cpv;
    var earlier := if c in cpvMap then cpvMap[c] else [];
    assert forall p :: p in earlier + [list[n]] <==> p in earlier || p == list[n];
  }

  /** An installed package collides with nothing. */
  lemma InstalledStep(cpvMap: map<nat, seq<Package>>, list: seq<Package>, n: nat)
    requires n < |list| && list[n].IsInstalled() && Grouped(cpvMap, list, n)
    ensures CollisionArcs(list, n + 1) == CollisionArcs(list, n) && Grouped(cpvMap, list, n + 1)
  {
    GroupedStep(cpvMap, list, n);
    hide Grouped, CollisionArcs;
    CollisionArcsStep(list, n, []);
  }

  /** The first package to be built with its cpv collides with nothing either. */
  lemma FirstStep(cpvMap: map<nat, seq<Package>>, list: seq<Package>, n: nat)
    requires n < |list| && !list[n].IsInstalled() && list[n].cpv !in cpvMap && Grouped(cpvMap, list, n)
    ensures CollisionArcs(list, n + 1) == CollisionArcs(list, n)
    ensures Grouped(cpvMap[list[n].cpv := [list[n]]], list, n + 1)
  {
    GroupedStep(cpvMap, list, n);
    hide Grouped, CollisionArcs;
    CollisionArcsStep(list, n, []);
    assert [] + [list[n]] == [list[n]];
  }

  lemma LaterStep(cpvMap: map<nat, seq<Package>>, list: seq<Package>, n: nat)
    requires n < |list| && !list[n].IsInstalled() && list[n].cpv in cpvMap && Grouped(cpvMap, list, n)
    ensures
      var earlier := cpvMap[list[n].cpv];
      && CollisionArcs(list, n + 1) == CollisionArcs(list, n) + ArcsTo(list[n], earlier)
      && Grouped(cpvMap[list[n].cpv := earlier + [list[n]]], list, n + 1)
  {
    GroupedStep(cpvMap, list, n);
    hide Grouped, CollisionArcs;
    CollisionArcsStep(list, n, cpvMap[list[n].cpv]);
  }

  lemma NothingYet(g: DepGraph, list: seq<Package>)
    ensures Extended(g, g, CollisionArcs(list, 0)) && Grouped(map[], list, 0)
  {
  }

  method PreventBuilddirCollisions(g: DepGraph, list: seq<Package>) returns (h: DepGraph)
    ensures Extended(g, h, CollisionArcs(list, |list|))
  {
    hide *;
    h := g;
    var cpvMap: map<nat, seq<Package>> := map[];
    NothingYet(g, list);
    for n := 0 to |list|
      invariant Extended(g, h, CollisionArcs(list, n))
      invariant Grouped(cpvMap, list, n)
    {
      var pkg := list[n];
      if pkg.IsInstalled() {
        InstalledStep(cpvMap, list, n);
      } else if pkg.cpv !in cpvMap {
        FirstStep(cpvMap, list, n);
        cpvMap := cpvMap[pkg.cpv := [pkg]];
      } else {
        LaterStep(cpvMap, list, n);
        var earlier := cpvMap[pkg.cpv];
        h := AddArcsTo(g, h, CollisionArcs(list, n), earlier, pkg);
        cpvMap := cpvMap[pkg.cpv := earlier + [pkg]];
      }
    }
  }

  /** The inner loop: an arc from `parent` to each package of `earlier`. */
  method AddArcsTo(ghost g: DepGraph, h0: DepGraph, ghost before: set<(Package, Package)>, earlier: seq<Package>, parent: Package)
    returns (h: DepGraph)
    requires Extended(g, h0, before)
    ensures Extended(g, h, before + ArcsTo(parent, earlier))
  {
    h := h0;
    assert before + ArcsTo(parent, earlier[..0]) == before;
    for k := 0 to |earlier|
      invariant Extended(g, h, before + ArcsTo(parent, earlier[..k]))
    {
      AddArcExtends(g, h, before + ArcsTo(parent, earlier[..k]), earlier[k], parent);
      assert earlier[..k + 1] == earlier[..k] + [earlier[k]];
      assert before + ArcsTo(parent, earlier[..k + 1]) == before + ArcsTo(parent, earlier[..k]) + {(parent, earlier[k])};
      h := AddArc(h, earlier[k], parent, BUILDTIME);
    }
    assert earlier[..|earlier|] == earlier;
  }

  // ----- the set-up keeps a well-ordered list -----

  /** From a package to be built, the search follows the arcs that leave nodes other than uninstalls. */
  lemma SearchArcsAlike(g: DepGraph, a: Package, b: Package)
    requires a.operation != Uninstall && b.operation != Uninstall
    ensures SearchArcs(g, a) == SearchArcs(g, b)
  {
  }

  /** What the merge list may hold, for the set-up. */
  ghost predicate ListOk(list: seq<Package>) {
    Distinct(list) && forall p :: p in list ==> p.operation == (if p.IsInstalled() then Uninstall else Merge)
  }

  /** A collision arc leads to an earlier package of the list. */
  lemma CollisionArcBefore(list: seq<Package>, e: (Package, Package))
    requires e in CollisionArcs(list, |list|)
    ensures e.0 in list && e.1 in list && !e.0.IsInstalled() && !e.1.IsInstalled() && Before(list, e.1, e.0)
  {
    var i, j :| 0 <= i < j < |list| && Collide(list[i], list[j]) && e == (list[j], list[i]);
  }

  /**
   * Along a path from `p`, either every arc is old, or the first new arc is reached over old ones:
   * the number of old arcs before it.
   */
  function OldPrefix(g: DepGraph, path: seq<Package>): (k: nat)
    requires path != []
    ensures k < |path|
    ensures forall i :: 0 <= i < k ==> (path[i], path[i + 1]) in g.arcs
    ensures k < |path| - 1 ==> (path[k], path[k + 1]) !in g.arcs
  {
    if |path| == 1 || (path[0], path[1]) !in g.arcs then 0
    else
      var k := OldPrefix(g, path[1..]);
      assert forall i :: 0 < i < k + 1 ==> (path[1..][i - 1], path[1..][i]) in g.arcs;
      k + 1
  }

  /** The nodes of a path over old arcs are needed in the old graph. */
  lemma OldPrefixNeeds(g: DepGraph, h: DepGraph, path: seq<Package>, k: nat, p: Package, d: Package)
    requires IsPath(SearchArcs(h, p), path, p, d) && k < |path|
    requires forall i :: 0 <= i < k ==> (path[i], path[i + 1]) in g.arcs
    ensures path[k] == p || Needs(g, p, path[k])
  {
    var prefix := path[..k + 1];
    forall i | 0 <= i < |prefix| - 1
      ensures (prefix[i], prefix[i + 1]) in SearchArcs(g, p)
    {
      assert (path[i], path[i + 1]) in SearchArcs(h, p);
    }
    assert IsPath(SearchArcs(g, p), prefix, p, path[k]);
  }

  /** A package to be merged that old arcs reach stands before the start. */
  lemma PrefixOrdered(g: DepGraph, h: DepGraph, list: seq<Package>, path: seq<Package>, p: Package, d: Package)
    requires ListOrdered(g, list) && IsPath(SearchArcs(h, p), path, p, d) && p in list && !p.IsInstalled()
    ensures
      var x := path[OldPrefix(g, path)];
      x in list && x.operation == Merge ==> x == p || Before(list, x, p)
  {
    OldPrefixNeeds(g, h, path, OldPrefix(g, path), p, d);
  }

  lemma PathEnds(arcs: set<(Package, Package)>, path: seq<Package>, p: Package, d: Package)
    requires IsPath(arcs, path, p, d)
    ensures path != [] && path[|path| - 1] == d
  {
  }

  lemma PathSuffix(arcs: set<(Package, Package)>, path: seq<Package>, k: nat, p: Package, d: Package)
    requires IsPath(arcs, path, p, d) && 0 < k < |path|
    ensures IsPath(arcs, path[k..], path[k], d) && (path[k - 1], path[k]) in arcs
  {
    assert (path[k - 1], path[k - 1 + 1]) in arcs;
  }

  /** An arc of the search that was not there before is a collision arc. */
  lemma NewArc(g: DepGraph, h: DepGraph, list: seq<Package>, p: Package, x: Package, y: Package)
    requires Extended(g, h, CollisionArcs(list, |list|)) && (x, y) in SearchArcs(h, p) && (x, y) !in g.arcs
    ensures (x, y) in CollisionArcs(list, |list|)
  {
    hide CollisionArcs;
  }

  lemma MergeOperation(list: seq<Package>, p: Package)
    requires ListOk(list) && p in list && !p.IsInstalled()
    ensures p.operation == Merge && p.operation != Uninstall
  {
  }

  lemma {:induction false} PathKeepsOrder(g: DepGraph, h: DepGraph, list: seq<Package>, path: seq<Package>, p: Package, d: Package)
    requires ListOk(list) && ListOrdered(g, list) && Extended(g, h, CollisionArcs(list, |list|))
    requires IsPath(SearchArcs(h, p), path, p, d)
    requires p in list && !p.IsInstalled() && d in list && d.operation == Merge
    ensures d == p || Before(list, d, p)
    decreases |path|
  {
    assert path != [] && Distinct(list);
    hide *;
    var k := OldPrefix(g, path);
    PrefixOrdered(g, h, list, path, p, d);
    PathEnds(SearchArcs(h, p), path, p, d);
    if k < |path| - 1 {
      var x, y := path[k], path[k + 1];
      PathSuffix(SearchArcs(h, p), path, k + 1, p, d);
      NewArc(g, h, list, p, x, y);
      CollisionArcBefore(list, (x, y));
      MergeOperation(list, y);
      MergeOperation(list, x);
      MergeOperation(list, p);
      SearchArcsAlike(h, p, y);
      PathKeepsOrder(g, h, list, path[k + 1..], y, d);
      if x != p {
        BeforeTransitive(list, y, x, p);
      }
      if d != y {
        BeforeTransitive(list, d, y, p);
      }
    }
  }

  /** Adding the collision arcs keeps a well-ordered list well ordered. */
  lemma CollisionsKeepOrder(g: DepGraph, h: DepGraph, list: seq<Package>)
    requires ListOk(list) && ListOrdered(g, list) && Extended(g, h, CollisionArcs(list, |list|))
    ensures ListOrdered(h, list)
  {
    forall d, p | d in list && p in list && d.operation == Merge && !p.IsInstalled() && Needs(h, p, d)
      ensures Before(list, d, p)
    {
      var path :| IsPath(SearchArcs(h, p), path, p, d);
      PathKeepsOrder(g, h, list, path, p, d);
    }
  }

  /** Pruning keeps a well-ordered list well ordered, and keeps the packages of the list. */
  lemma PruneKeepsOrder(g: DepGraph, list: seq<Package>)
    requires g.Valid() && ListOk(list) && ListOrdered(g, list)
    requires forall p :: p in list ==> p in g.order && !p.onlydeps
    ensures ListOrdered(Prune(g, {}), list) && Prune(g, {}).Valid()
    ensures forall p :: p in list ==> p in Prune(g, {}).order
  {
    PruneCorrect(g, {});
    var h := Prune(g, {});
    forall d, p | d in list && p in list && d.operation == Merge && !p.IsInstalled() && Needs(h, p, d)
      ensures Before(list, d, p)
    {
      ShrunkKeepsNeeds(g, h, p, d);
    }
  }

  /**
   * The whole set-up: a merge list that is well ordered for the resolver's graph is well ordered for
   * the graph that the scheduler runs on, whose arcs keep colliding packages apart.
   */
  lemma SetupKeepsOrder(g: DepGraph, h: DepGraph, list: seq<Package>)
    requires g.Valid() && ListOk(list) && ListOrdered(g, list)
    requires forall p :: p in list ==> p in g.order && !p.onlydeps
    requires Extended(Prune(g, {}), h, CollisionArcs(list, |list|))
    ensures h.Valid() && ListOrdered(h, list)
    ensures forall p :: p in list ==> p in h.order
    ensures forall i, j :: 0 <= i < j < |list| && Collide(list[i], list[j]) ==> (list[j], list[i]) in h.arcs
  {
    PruneKeepsOrder(g, list);
    CollisionsKeepOrder(Prune(g, {}), h, list);
    forall e | e in h.arcs
      ensures e.0 in h.order && e.1 in h.order && h.arcs[e] != []
    {
      if e in CollisionArcs(list, |list|) {
        CollisionArcBefore(list, e);
      }
    }
  }
}
