/**
 * The removal order of _calc_depclean: a topological sort of the packages to be unmerged that
 * drops dependencies, weakest first, only where there are cycles.
 */
module UnmergeOrder {
  import opened Digraphs
  import opened Sequences
  import opened Sorting
  import opened Wrappers

  /** A package to be unmerged; `rank` stands for its place in the order of Package objects. */
  datatype Node = Node(cpv: nat, rank: int)

  /** The flags of an UnmergeDepPriority. */
  datatype DepPriority = DepPriority(
    installtime: bool,
    runtimeSlotOp: bool,
    runtime: bool,
    runtimePost: bool,
    buildtime: bool)
  {
    /** __int__: how hard a dependency is, from MIN for the soft ones to MAX. */
    function Value(): (v: int)
      ensures MIN <= v <= MAX
      ensures v == MAX <==> installtime
      ensures v > MIN <==> installtime || runtimeSlotOp || runtime || runtimePost
    {
      if installtime then 0
      else if runtimeSlotOp then -1
      else if runtime then -2
      else if runtimePost then -3
      else -4
    }
  }

  const MAX := 0
  const MIN := -4

  /** Arcs lead from a package to its dependencies; the priorities of an arc are in ascending order. */
  type UnmergeGraph = Digraph<Node, int>

  /** The last, and so hardest, priority of an arc. */
  function Hardest(g: UnmergeGraph, e: (Node, Node)): int {
    if e in g.arcs && g.arcs[e] != [] then g.arcs[e][|g.arcs[e]| - 1] else MIN
  }

  ghost predicate ValidGraph(g: UnmergeGraph) {
    g.Valid() && forall e :: e in g.arcs ==> MIN <= Hardest(g, e) <= MAX
  }

  // ----- building the graph -----

  ghost predicate Ascending(ps: seq<int>) {
    forall i, j :: 0 <= i < j < |ps| ==> ps[i] <= ps[j]
  }

  /** bisect.insort: the new priority goes behind those that are not greater. */
  function Insort(ps: seq<int>, p: int): (r: seq<int>)
    ensures |r| == |ps| + 1
  {
    if ps == [] || ps[|ps| - 1] <= p then ps + [p]
    else Insort(ps[..|ps| - 1], p) + [ps[|ps| - 1]]
  }

  lemma {:induction false} InsortMembers(ps: seq<int>, p: int)
    ensures forall q :: q in Insort(ps, p) <==> q in ps || q == p
  {
    if ps != [] && ps[|ps| - 1] > p {
      assert ps == ps[..|ps| - 1] + [ps[|ps| - 1]];
      InsortMembers(ps[..|ps| - 1], p);
    }
  }

  lemma {:induction false} InsortAscending(ps: seq<int>, p: int)
    requires Ascending(ps)
    ensures Ascending(Insort(ps, p))
  {
    if ps != [] && ps[|ps| - 1] > p {
      var front := ps[..|ps| - 1];
      InsortAscending(front, p);
      InsortMembers(front, p);
      assert forall i :: 0 <= i < |front| ==> front[i] == ps[i];
      var r := Insort(front, p);
      assert forall i :: 0 <= i < |r| ==> r[i] in r;
      assert forall q :: q in r ==> q <= ps[|ps| - 1];
    }
  }

  /** The priorities of one arc: ascending and in range; no package depends on itself. */
  ghost predicate GoodArc(e: (Node, Node), ps: seq<int>) {
    Ascending(ps) && e.0 != e.1 && forall p :: p in ps ==> MIN <= p <= MAX
  }

  ghost predicate Building(g: UnmergeGraph) {
    g.Valid() && forall e :: e in g.arcs ==> GoodArc(e, g.arcs[e])
  }

  function AddNode(g: UnmergeGraph, node: Node): (r: UnmergeGraph)
    ensures forall n :: n in r.order <==> n == node || n in g.order
  {
    if node in g.order then g else g.(order := g.order + [node])
  }

  /** digraph.add(child, parent, priority) for two different packages. */
  function AddDep(g: UnmergeGraph, child: Node, parent: Node, priority: int): UnmergeGraph
    requires Building(g)
  {
    var h := AddNode(AddNode(g, child), parent);
    var e := (parent, child);
    h.(arcs := h.arcs[e := Insort(if e in h.arcs then h.arcs[e] else [], priority)])
  }

  lemma AddNodeBuilds(g: UnmergeGraph, node: Node)
    requires Building(g)
    ensures Building(AddNode(g, node))
  {
  }

  lemma InsortGood(e: (Node, Node), ps: seq<int>, p: int)
    requires e.0 != e.1 && (GoodArc(e, ps) || ps == []) && MIN <= p <= MAX
    ensures GoodArc(e, ps) ==> GoodArc(e, Insort(ps, p))
    ensures ps == [] ==> GoodArc(e, Insort(ps, p))
  {
    hide Insort;
    InsortMembers(ps, p);
    InsortAscending(ps, p);
  }

  lemma AddDepBuilds(g: UnmergeGraph, child: Node, parent: Node, priority: int)
    requires Building(g) && child != parent && MIN <= priority <= MAX
    ensures Building(AddDep(g, child, parent, priority))
  {
    hide Insort, AddNode, GoodArc;
    AddNodeBuilds(g, child);
    AddNodeBuilds(AddNode(g, child), parent);
    var h, e := AddNode(AddNode(g, child), parent), (parent, child);
    InsortGood(e, if e in h.arcs then h.arcs[e] else [], priority);
  }

  /** Every arc with each of its priorities. */
  ghost function ContentOf(arcs: map<(Node, Node), seq<int>>): set<((Node, Node), int)> {
    set e, p | e in arcs && p in arcs[e] :: (e, p)
  }

  ghost function Content(g: UnmergeGraph): set<((Node, Node), int)> {
    ContentOf(g.arcs)
  }

  lemma ContentUpdate(arcs: map<(Node, Node), seq<int>>, e: (Node, Node), before: seq<int>, after: seq<int>, p: int)
    requires before == if e in arcs then arcs[e] else []
    requires forall q :: q in after <==> q in before || q == p
    ensures ContentOf(arcs[e := after]) == ContentOf(arcs) + {(e, p)}
  {
    assert forall f, q :: (f, q) in ContentOf(arcs[e := after]) <==> (f, q) in ContentOf(arcs) || (f, q) == (e, p);
  }

  lemma AddDepContent(g: UnmergeGraph, child: Node, parent: Node, priority: int)
    requires Building(g)
    ensures Content(AddDep(g, child, parent, priority)) == Content(g) + {((parent, child), priority)}
  {
    var before := if (parent, child) in g.arcs then g.arcs[(parent, child)] else [];
    InsortMembers(before, priority);
    ContentUpdate(g.arcs, (parent, child), before, Insort(before, priority), priority);
  }

  /**
   * The dependencies of the first `n` packages and the first `k` of the next one, as arcs with
   * priorities. `needs[i]` are the installed packages that the dependencies of `clean[i]` match;
   * those that stay, and the package itself, do not count.
   */
  ghost function Found(clean: seq<Node>, needs: seq<seq<(Node, DepPriority)>>, n: nat, k: nat): set<((Node, Node), int)>
    requires |needs| == |clean|
  {
    set i, j | 0 <= i < |clean| && 0 <= j < |needs[i]| && (i < n || (i == n && j < k))
      && needs[i][j].0 in clean && needs[i][j].0 != clean[i]
      :: ((clean[i], needs[i][j].0), needs[i][j].1.Value())
  }

  lemma FoundStep(clean: seq<Node>, needs: seq<seq<(Node, DepPriority)>>, n: nat, k: nat)
    requires |needs| == |clean| && n < |clean| && k < |needs[n]|
    ensures
      var (child, priority) := needs[n][k];
      Found(clean, needs, n, k + 1) == Found(clean, needs, n, k) +
        if child in clean && child != clean[n] then {((clean[n], child), priority.Value())} else {}
  {
  }

  /** The graph of the packages to be unmerged; direct circular dependencies are dropped. */
  method BuildGraph(clean: seq<Node>, needs: seq<seq<(Node, DepPriority)>>) returns (g: UnmergeGraph)
    requires |needs| == |clean|
    ensures Building(g) && ValidGraph(g)
    ensures forall n :: n in g.order <==> n in clean
    ensures Content(g) == Found(clean, needs, |clean|, 0)
  {
    g := Digraph([], map[]);
    for n := 0 to |clean|
      invariant Building(g)
      invariant forall x :: x in clean[..n] ==> x in g.order
      invariant forall x :: x in g.order ==> x in clean
      invariant Content(g) == Found(clean, needs, n, 0)
    {
      var node := clean[n];
      AddNodeBuilds(g, node);
      g := AddNode(g, node);
      assert clean[..n + 1] == clean[..n] + [node];
      for k := 0 to |needs[n]|
        invariant Building(g)
        invariant forall x :: x in clean[..n + 1] ==> x in g.order
        invariant forall x :: x in g.order ==> x in clean
        invariant Content(g) == Found(clean, needs, n, k)
      {
        var (child, priority) := needs[n][k];
        FoundStep(clean, needs, n, k);
        if child in clean && child != node {
          AddDepBuilds(g, child, node, priority.Value());
          AddDepContent(g, child, node, priority.Value());
          g := AddDep(g, child, node, priority.Value());
        }
      }
      assert Found(clean, needs, n, |needs[n]|) == Found(clean, needs, n + 1, 0);
    }
    assert clean[..|clean|] == clean;
    assert forall e :: e in g.arcs ==> Hardest(g, e) in g.arcs[e];
  }

  // ----- root nodes and cycles -----

  /** No arc into `n` is harder than what root_nodes(ignore_priority) looks past. */
  predicate IsRootBelow(g: UnmergeGraph, n: Node, ignore: Option<int>) {
    forall e | e in g.arcs.Keys && e.1 == n :: ignore.Some? && Hardest(g, e) <= ignore.value
  }

  function RootNodesBelow(g: UnmergeGraph, ignore: Option<int>): (r: seq<Node>)
    ensures forall n :: n in r <==> n in g.order && IsRootBelow(g, n, ignore)
  {
    Filter(n => IsRootBelow(g, n, ignore), g.order)
  }

  /** `path` runs along arcs of priority `q` or harder between the given packages. */
  ghost predicate HardPath(g: UnmergeGraph, nodes: set<Node>, path: seq<Node>, q: int) {
    && (forall i :: 0 <= i < |path| ==> path[i] in nodes)
    && (forall i :: 0 <= i < |path| - 1 ==> (path[i], path[i + 1]) in g.arcs && Hardest(g, (path[i], path[i + 1])) >= q)
  }

  /** The given packages have a cycle whose arcs all have priority `q` or harder. */
  ghost predicate HasHardCycle(g: UnmergeGraph, nodes: set<Node>, q: int) {
    exists path :: |path| >= 2 && path[0] == path[|path| - 1] && HardPath(g, nodes, path, q)
  }

  /** `m` depends on `n` by an arc of priority `q` or harder. */
  ghost predicate HeldBy(g: UnmergeGraph, n: Node, m: Node, q: int) {
    (m, n) in g.arcs && Hardest(g, (m, n)) >= q
  }

  /** `n` has a dependent, among the given packages, by an arc of priority `q` or harder. */
  ghost predicate Held(g: UnmergeGraph, nodes: set<Node>, n: Node, q: int) {
    exists m :: m in nodes && HeldBy(g, n, m, q)
  }

  ghost predicate AllHeld(g: UnmergeGraph, nodes: set<Node>, q: int) {
    forall n :: n in nodes ==> Held(g, nodes, n, q)
  }

  lemma LongerWalk(g: UnmergeGraph, nodes: set<Node>, q: int, m: Node, walk: seq<Node>)
    requires m in nodes && HardPath(g, nodes, walk, q) && walk != [] && HeldBy(g, walk[0], m, q)
    ensures HardPath(g, nodes, [m] + walk, q)
  {
    var longer := [m] + walk;
    forall i | 0 <= i < |longer| - 1
      ensures HeldBy(g, longer[i + 1], longer[i], q)
    {
      if i > 0 {
        assert longer[i] == walk[i - 1] && longer[i + 1] == walk[i - 1 + 1];
      }
    }
  }

  lemma ClosedWalk(g: UnmergeGraph, nodes: set<Node>, q: int, walk: seq<Node>, k: nat)
    requires HardPath(g, nodes, walk, q) && 0 < k < |walk| && walk[k] == walk[0]
    ensures HasHardCycle(g, nodes, q)
  {
    var cycle := walk[..k + 1];
    assert cycle[0] == cycle[|cycle| - 1] && HardPath(g, nodes, cycle, q);
  }

  lemma SomeHolder(g: UnmergeGraph, nodes: set<Node>, q: int, n: Node) returns (m: Node)
    requires AllHeld(g, nodes, q) && n in nodes
    ensures m in nodes && HeldBy(g, n, m, q)
  {
    assert Held(g, nodes, n, q);
    m :| m in nodes && HeldBy(g, n, m, q);
  }

  /** Going from dependent to dependent, a walk without repetition must close a cycle. */
  lemma {:induction false} WalkClosesCycle(g: UnmergeGraph, nodes: set<Node>, q: int, walk: seq<Node>)
    requires AllHeld(g, nodes, q) && walk != [] && Distinct(walk) && HardPath(g, nodes, walk, q)
    ensures HasHardCycle(g, nodes, q)
    decreases |nodes| + 1 - |walk|
  {
    assert walk[0] in nodes && forall i :: 0 <= i < |walk| ==> walk[i] in nodes;
    DistinctWithin(walk, nodes);
    hide *;
    var m := SomeHolder(g, nodes, q, walk[0]);
    LongerWalk(g, nodes, q, m, walk);
    if Distinct([m] + walk) {
      WalkClosesCycle(g, nodes, q, [m] + walk);
    } else {
      ClosesWhenRepeated(g, nodes, q, m, walk);
    }
  }

  /** A walk that comes back to itself with its first step closes a cycle. */
  lemma ClosesWhenRepeated(g: UnmergeGraph, nodes: set<Node>, q: int, m: Node, walk: seq<Node>)
    requires HardPath(g, nodes, [m] + walk, q) && Distinct(walk) && !Distinct([m] + walk)
    ensures HasHardCycle(g, nodes, q)
  {
    if k :| 0 <= k < |walk| && walk[k] == m {
      hide HardPath, HasHardCycle;
      ClosedWalk(g, nodes, q, [m] + walk, k + 1);
    }
  }

  lemma DistinctWithin(walk: seq<Node>, nodes: set<Node>)
    requires Distinct(walk) && forall i :: 0 <= i < |walk| ==> walk[i] in nodes
    ensures |walk| <= |nodes|
  {
    DistinctCardinality(walk);
    SubsetSize(Elements(walk), nodes);
  }

  lemma HeldHasCycle(g: UnmergeGraph, nodes: set<Node>, q: int)
    requires AllHeld(g, nodes, q) && nodes != {}
    ensures HasHardCycle(g, nodes, q)
  {
    hide AllHeld, HasHardCycle;
    var n :| n in nodes;
    WalkClosesCycle(g, nodes, q, [n]);
  }

  // ----- the removal loop -----

  /** `h` is what is left of `g`, with the same arcs and priorities between what is left. */
  ghost predicate LeftOf(g: UnmergeGraph, h: UnmergeGraph) {
    && h.Valid()
    && (forall n :: n in h.order ==> n in g.order)
    && (forall e :: e in h.arcs <==> e in g.arcs && e.0 in h.order && e.1 in h.order)
    && (forall e :: e in h.arcs ==> h.arcs[e] == g.arcs[e])
  }

  /** Some arc into `x` is harder than the level looks past. */
  lemma HeldAtLevel(g: UnmergeGraph, h: UnmergeGraph, x: Node, level: Option<int>, q: int)
    requires LeftOf(g, h) && ValidGraph(g) && !IsRootBelow(h, x, level)
    requires level == if q == MIN then None else Some(q - 1)
    ensures Held(g, Elements(h.order), x, q)
  {
    var e :| e in h.arcs.Keys && e.1 == x && !(level.Some? && Hardest(h, e) <= level.value);
    assert e == (e.0, x) && Hardest(g, e) == Hardest(h, e);
    assert e.0 in Elements(h.order) && HeldBy(g, x, e.0, q);
  }

  /** When no package is free of arcs as hard as `q`, what is left has a cycle that hard. */
  lemma LevelJustifies(g: UnmergeGraph, h: UnmergeGraph, level: Option<int>, q: int)
    requires LeftOf(g, h) && ValidGraph(g) && h.order != []
    requires level == if q == MIN then None else Some(q - 1)
    requires forall x :: x in h.order ==> !IsRootBelow(h, x, level)
    ensures HasHardCycle(g, Elements(h.order), q)
  {
    hide HasHardCycle, LeftOf, ValidGraph, Held;
    forall x | x in Elements(h.order)
      ensures Held(g, Elements(h.order), x, q)
    {
      HeldAtLevel(g, h, x, level, q);
    }
    assert h.order[0] in Elements(h.order);
    HeldHasCycle(g, Elements(h.order), q);
  }

  /** The values of ignore_priority that are tried in turn: None, then MIN to MAX. */
  predicate IsLevel(level: Option<int>) {
    level.Some? ==> MIN <= level.value <= MAX
  }

  function LevelRank(level: Option<int>): int {
    if level == None then 0 else level.value - MIN + 1
  }

  /** The first level, from the given one on, that finds root nodes. */
  function LevelFrom(h: UnmergeGraph, level: Option<int>): (r: Option<int>)
    requires IsLevel(level)
    ensures IsLevel(r) && LevelRank(level) <= LevelRank(r)
    ensures r == Some(MAX) || RootNodesBelow(h, r) != []
    ensures forall l :: IsLevel(l) && LevelRank(level) <= LevelRank(l) < LevelRank(r) ==> RootNodesBelow(h, l) == []
    decreases LevelRank(Some(MAX)) - LevelRank(level)
  {
    if RootNodesBelow(h, level) != [] || level == Some(MAX) then level
    else
      var next := Some(if level == None then MIN else level.value + 1);
      assert forall l :: IsLevel(l) && LevelRank(level) <= LevelRank(l) ==> l == level || LevelRank(next) <= LevelRank(l);
      LevelFrom(h, next)
  }

  function Descending(n: Node): int {
    -n.rank
  }

  /** The packages that one round removes: all roots, or one root when dependencies are looked past. */
  function Batch(h: UnmergeGraph): (r: seq<Node>)
    ensures forall n :: n in r ==> n in RootNodesBelow(h, LevelFrom(h, None))
    ensures r == [] <==> RootNodesBelow(h, LevelFrom(h, None)) == []
    ensures LevelFrom(h, None).Some? ==> |r| <= 1
  {
    var level := LevelFrom(h, None);
    var nodes := SortBy(Descending, RootNodesBelow(h, level));
    assert forall n :: n in nodes <==> n in multiset(nodes);
    assert forall n :: n in multiset(nodes) <==> n in RootNodesBelow(h, level);
    if level.Some? && nodes != [] then nodes[..1] else nodes
  }

  lemma HighestFirst(roots: seq<Node>)
    ensures
      var sorted := SortBy(Descending, roots);
      && (forall n :: n in sorted <==> n in roots)
      && (forall i, j :: 0 <= i < j < |sorted| ==> sorted[i].rank >= sorted[j].rank)
      && (roots != [] ==> sorted != [] && forall n :: n in roots ==> n.rank <= sorted[0].rank)
  {
    var sorted := SortBy(Descending, roots);
    SortBySorted(Descending, roots);
    hide SortBy;
    forall n
      ensures n in sorted <==> n in roots
    {
      assert n in sorted <==> n in multiset(sorted);
      assert n in roots <==> n in multiset(roots);
    }
    forall i, j | 0 <= i < j < |sorted|
      ensures sorted[i].rank >= sorted[j].rank
    {
      assert Descending(sorted[i]) <= Descending(sorted[j]);
    }
  }

  lemma BatchIs(h: UnmergeGraph)
    ensures
      var sorted := SortBy(Descending, RootNodesBelow(h, LevelFrom(h, None)));
      Batch(h) == if LevelFrom(h, None) != None && sorted != [] then sorted[..1] else sorted
  {
  }

  /**
   * Which packages go: without looking past anything, all root nodes from the highest to the lowest;
   * otherwise the highest root node alone. No level before the chosen one has root nodes.
   */
  lemma BatchChoice(h: UnmergeGraph)
    ensures
      var level, batch := LevelFrom(h, None), Batch(h);
      var roots := RootNodesBelow(h, level);
      && (forall l :: IsLevel(l) && LevelRank(l) < LevelRank(level) ==> RootNodesBelow(h, l) == [])
      && (level == None ==> multiset(batch) == multiset(roots) && forall i, j :: 0 <= i < j < |batch| ==> batch[i].rank >= batch[j].rank)
      && (level != None && roots != [] ==> |batch| == 1 && batch[0] in roots && forall n :: n in roots ==> n.rank <= batch[0].rank)
  {
    var roots := RootNodesBelow(h, LevelFrom(h, None));
    HighestFirst(roots);
    BatchIs(h);
    hide Batch, LevelFrom, RootNodesBelow, SortBy;
  }

  /** The removal starts from the packages in ascending order of their reference counts. */
  lemma FewestReferencesFirst(g: UnmergeGraph, i: nat, j: nat)
    requires i < j < |ByReferences(g).order|
    ensures RefCount(g, ByReferences(g).order[i]) <= RefCount(g, ByReferences(g).order[j])
    ensures multiset(ByReferences(g).order) == multiset(g.order)
  {
    SortBySorted(n => RefCount(g, n), g.order);
    hide SortBy;
  }

  lemma BatchShrinks(h: UnmergeGraph)
    requires Batch(h) != []
    ensures |h.Without(Elements(Batch(h))).order| < |h.order|
  {
    var gone := Elements(Batch(h));
    assert Batch(h)[0] in gone;
    FilterDrops(n => n !in gone, h.order, Batch(h)[0]);
  }

  /** The whole order in which the packages of a graph are removed. */
  function RemovalFrom(h: UnmergeGraph): seq<Node>
    decreases |h.order|
  {
    if Batch(h) == [] then []
    else
      BatchShrinks(h);
      Batch(h) + RemovalFrom(h.Without(Elements(Batch(h))))
  }

  /** MAX looks past every dependency, so a package can always be removed. */
  lemma AlwaysRoots(g: UnmergeGraph, h: UnmergeGraph)
    requires ValidGraph(g) && LeftOf(g, h)
    ensures Batch(h) == [] <==> h.order == []
  {
    if h.order != [] {
      forall e | e in h.arcs.Keys
        ensures Hardest(h, e) <= MAX
      {
        assert Hardest(h, e) == Hardest(g, e);
      }
      assert IsRootBelow(h, h.order[0], Some(MAX));
      assert h.order[0] in RootNodesBelow(h, Some(MAX));
    }
  }

  lemma BatchDistinct(h: UnmergeGraph)
    requires h.Valid()
    ensures Distinct(Batch(h))
  {
    var level := LevelFrom(h, None);
    var nodes := RootNodesBelow(h, level);
    FilterDistinct(n => IsRootBelow(h, n, level), h.order);
    SameMultisetDistinct(nodes, SortBy(Descending, nodes));
  }

  lemma {:induction false} OccursOnce<T(!new)>(s: seq<T>, x: T)
    ensures Distinct(s) ==> multiset(s)[x] <= 1
    ensures forall i, j :: 0 <= i < j < |s| && s[i] == s[j] == x ==> multiset(s)[x] >= 2
  {
    if s != [] {
      OccursOnce(s[1..], x);
      assert s == [s[0]] + s[1..];
      assert s[0] == x && Distinct(s) ==> x !in s[1..] && x !in multiset(s[1..]);
      forall i, j | 0 <= i < j < |s| && s[i] == s[j] == x
        ensures multiset(s)[x] >= 2
      {
        assert s[1..][j - 1] == x && x in multiset(s[1..]);
      }
    }
  }

  lemma SameMultisetDistinct<T(!new)>(s: seq<T>, t: seq<T>)
    requires Distinct(s) && multiset(s) == multiset(t)
    ensures Distinct(t)
  {
    forall i, j | 0 <= i < j < |t|
      ensures t[i] != t[j]
    {
      OccursOnce(s, t[i]);
      OccursOnce(t, t[i]);
    }
  }

  /**
   * A dependency removed before its dependent is part of the price of a cycle: when `order[i]` is
   * removed while a package that depends on it by priority `q` is left, what is left has a cycle of
   * arcs at least that hard.
   */
  ghost predicate Justified(g: UnmergeGraph, order: seq<Node>, i: nat)
    requires i < |order|
  {
    forall m :: m in order[i + 1..] && (m, order[i]) in g.arcs ==>
      HasHardCycle(g, Elements(order[i..]), Hardest(g, (m, order[i])))
  }

  lemma BatchRoots(h: UnmergeGraph, n: Node)
    requires n in Batch(h)
    ensures n in h.order && IsRootBelow(h, n, LevelFrom(h, None))
    ensures LevelFrom(h, None).Some? ==> |Batch(h)| == 1
  {
    hide Batch, LevelFrom, IsRootBelow;
  }

  lemma ArcLeft(g: UnmergeGraph, h: UnmergeGraph, m: Node, n: Node)
    requires LeftOf(g, h) && m in h.order && n in h.order && (m, n) in g.arcs
    ensures (m, n) in h.arcs.Keys && Hardest(h, (m, n)) == Hardest(g, (m, n))
  {
  }

  lemma RootBound(h: UnmergeGraph, n: Node, level: Option<int>, m: Node)
    requires IsRootBelow(h, n, level) && (m, n) in h.arcs.Keys
    ensures level.Some? && Hardest(h, (m, n)) <= level.value
  {
    hide Hardest;
  }

  /** What the level looks past when it removes `n` while `m` is left. */
  lemma LookedPast(g: UnmergeGraph, h: UnmergeGraph, n: Node, m: Node)
    requires LeftOf(g, h) && n in Batch(h) && m in h.order && (m, n) in g.arcs
    ensures |Batch(h)| == 1 && LevelFrom(h, None).Some?
    ensures Hardest(g, (m, n)) <= LevelFrom(h, None).value
  {
    var level := LevelFrom(h, None);
    hide *;
    BatchRoots(h, n);
    ArcLeft(g, h, m, n);
    RootBound(h, n, level, m);
  }

  /** No package was free at the level before the chosen one. */
  lemma LevelBefore(h: UnmergeGraph) returns (before: Option<int>)
    requires LevelFrom(h, None).Some?
    ensures before == if LevelFrom(h, None).value == MIN then None else Some(LevelFrom(h, None).value - 1)
    ensures forall x :: x in h.order ==> !IsRootBelow(h, x, before)
  {
    hide IsRootBelow;
    var level := LevelFrom(h, None).value;
    before := if level == MIN then None else Some(level - 1);
    assert RootNodesBelow(h, before) == [];
  }

  /** A package that is removed while another depends on it is removed because of a cycle. */
  lemma BatchJustified(g: UnmergeGraph, h: UnmergeGraph, n: Node, m: Node)
    requires ValidGraph(g) && LeftOf(g, h) && n in Batch(h) && m in h.order && (m, n) in g.arcs
    ensures |Batch(h)| == 1 && HasHardCycle(g, Elements(h.order), Hardest(g, (m, n)))
  {
    hide LeftOf, ValidGraph, HasHardCycle, IsRootBelow, RootNodesBelow, LevelFrom, Batch, Hardest;
    LookedPast(g, h, n, m);
    var before := LevelBefore(h);
    LevelJustifies(g, h, before, LevelFrom(h, None).value);
    CycleWithin(g, Elements(h.order), Elements(h.order), LevelFrom(h, None).value, Hardest(g, (m, n)));
  }

  lemma StepJustified(g: UnmergeGraph, h: UnmergeGraph, rest: seq<Node>, i: nat)
    requires ValidGraph(g) && LeftOf(g, h) && i < |Batch(h)|
    requires forall n :: n in Batch(h) + rest <==> n in h.order
    ensures Justified(g, Batch(h) + rest, i)
  {
    hide LeftOf, ValidGraph, HasHardCycle, Batch;
    var r := Batch(h) + rest;
    forall m | m in r[i + 1..] && (m, r[i]) in g.arcs
      ensures HasHardCycle(g, Elements(r[i..]), Hardest(g, (m, r[i])))
    {
      assert m in r && r[i] in Batch(h);
      BatchJustified(g, h, r[i], m);
      assert i == 0 && r[i..] == r;
      assert Elements(r) == Elements(h.order);
    }
  }

  lemma RestJustified(g: UnmergeGraph, batch: seq<Node>, rest: seq<Node>, i: nat)
    requires i < |rest| && Justified(g, rest, i)
    ensures Justified(g, batch + rest, |batch| + i)
  {
    var r, k := batch + rest, |batch| + i;
    assert r[k..] == rest[i..] && r[k + 1..] == rest[i + 1..] && r[k] == rest[i];
  }

  /** Every package is removed exactly once, and every inversion is justified by a cycle. */
  lemma {:induction false} RemovalSound(g: UnmergeGraph, h: UnmergeGraph)
    requires ValidGraph(g) && LeftOf(g, h)
    ensures Distinct(RemovalFrom(h))
    ensures forall n :: n in RemovalFrom(h) <==> n in h.order
    ensures forall i: nat :: i < |RemovalFrom(h)| ==> Justified(g, RemovalFrom(h), i)
    decreases |h.order|
  {
    hide LeftOf, ValidGraph, Justified, Batch;
    AlwaysRoots(g, h);
    if h.order != [] {
      var batch := Batch(h);
      var left := h.Without(Elements(batch));
      var rest := RemovalFrom(left);
      BatchShrinks(h);
      BatchLeaves(g, h);
      BatchDistinct(h);
      RemovalSound(g, left);
      assert RemovalFrom(h) == batch + rest;
      DistinctAppend(batch, rest);
      forall i: nat | i < |batch + rest|
        ensures Justified(g, batch + rest, i)
      {
        if i < |batch| {
          StepJustified(g, h, rest, i);
        } else {
          RestJustified(g, batch, rest, i - |batch|);
        }
      }
    } else {
      assert RemovalFrom(h) == [];
    }
  }

  lemma BatchLeaves(g: UnmergeGraph, h: UnmergeGraph)
    requires LeftOf(g, h)
    ensures LeftOf(g, h.Without(Elements(Batch(h))))
    ensures h.Valid()
    ensures forall n :: n in Batch(h) ==> n in h.order
    ensures forall n :: n in h.Without(Elements(Batch(h))).order <==> n in h.order && n !in Batch(h)
  {
    WithoutValid(h, Elements(Batch(h)));
  }

  lemma CycleWithin(g: UnmergeGraph, few: set<Node>, many: set<Node>, hard: int, q: int)
    requires HasHardCycle(g, few, hard) && few <= many && q <= hard
    ensures HasHardCycle(g, many, q)
  {
    var path :| |path| >= 2 && path[0] == path[|path| - 1] && HardPath(g, few, path, hard);
    assert HardPath(g, many, path, q);
  }

  /** The number of packages that depend on `n`. */
  function RefCount(g: UnmergeGraph, n: Node): nat {
    |Filter(m => (m, n) in g.arcs, g.order)|
  }

  /** The graph with its packages in ascending order of their reference counts. */
  function ByReferences(g: UnmergeGraph): UnmergeGraph {
    g.(order := SortBy(n => RefCount(g, n), g.order))
  }

  lemma ByReferencesSame(g: UnmergeGraph)
    requires g.Valid()
    ensures LeftOf(g, ByReferences(g))
    ensures forall n :: n in ByReferences(g).order <==> n in g.order
  {
    var order := ByReferences(g).order;
    SameMultisetDistinct(g.order, order);
    assert forall n :: n in multiset(order) <==> n in order;
    assert forall n :: n in multiset(g.order) <==> n in g.order;
  }

  function CleanOrder(g: UnmergeGraph): seq<Node> {
    if |g.order| == |RootNodesBelow(g, None)| then g.order else RemovalFrom(ByReferences(g))
  }

  /** All packages are root nodes exactly when there are no dependencies between them. */
  lemma AllRoots(g: UnmergeGraph)
    requires g.Valid()
    ensures |g.order| == |RootNodesBelow(g, None)| <==> g.arcs == map[]
  {
    if e :| e in g.arcs.Keys {
      assert !IsRootBelow(g, e.1, None);
      FilterDrops(n => IsRootBelow(g, n, None), g.order, e.1);
    } else {
      FilterAll(n => IsRootBelow(g, n, None), g.order);
    }
  }

  /** Every package is removed exactly once, and a dependency before its dependent only because of a cycle. */
  lemma CleanOrderSound(g: UnmergeGraph)
    requires ValidGraph(g)
    ensures Distinct(CleanOrder(g))
    ensures forall n :: n in CleanOrder(g) <==> n in g.order
    ensures forall i: nat :: i < |CleanOrder(g)| ==> Justified(g, CleanOrder(g), i)
  {
    AllRoots(g);
    ByReferencesSame(g);
    RemovalSound(g, ByReferences(g));
  }

  /** Where no cycle is that hard, a package goes before everything it depends on that hard. */
  lemma TopologicalWithoutCycles(g: UnmergeGraph, q: int, i: nat, j: nat)
    requires ValidGraph(g) && !HasHardCycle(g, Elements(g.order), q)
    requires i < |CleanOrder(g)| && j < |CleanOrder(g)| && HeldBy(g, CleanOrder(g)[j], CleanOrder(g)[i], q)
    ensures i < j
  {
    hide LeftOf, ValidGraph, HasHardCycle, CleanOrder;
    var r := CleanOrder(g);
    CleanOrderSound(g);
    if i == j {
      SelfCycle(g, Elements(g.order), r[i], q);
    } else if j < i {
      assert r[i] == r[j + 1..][i - j - 1];
      assert Justified(g, r, j);
      CycleWithin(g, Elements(r[j..]), Elements(g.order), Hardest(g, (r[i], r[j])), q);
    }
  }

  lemma SelfCycle(g: UnmergeGraph, nodes: set<Node>, n: Node, q: int)
    requires n in nodes && HeldBy(g, n, n, q)
    ensures HasHardCycle(g, nodes, q)
  {
    assert HardPath(g, nodes, [n, n], q);
  }

  // ----- the loops -----

  function Cpvs(order: seq<Node>): (r: seq<nat>)
    ensures |r| == |order| && forall i :: 0 <= i < |r| ==> r[i] == order[i].cpv
  {
    seq(|order|, i requires 0 <= i < |order| => order[i].cpv)
  }

  lemma CpvsConcat(s: seq<Node>, t: seq<Node>)
    ensures Cpvs(s + t) == Cpvs(s) + Cpvs(t)
  {
  }

  /** One round: the first level that finds roots decides which of them go, and whether just one. */
  method NextBatch(h: UnmergeGraph) returns (nodes: seq<Node>)
    ensures nodes == Batch(h)
  {
    var level := None;
    nodes := RootNodesBelow(h, None);
    while nodes == [] && level != Some(MAX)
      invariant IsLevel(level) && nodes == RootNodesBelow(h, level)
      invariant LevelFrom(h, level) == LevelFrom(h, None)
      decreases LevelRank(Some(MAX)) - LevelRank(level)
    {
      level := Some(if level == None then MIN else level.value + 1);
      nodes := RootNodesBelow(h, level);
    }
    nodes := SortBy(Descending, nodes);
    if level != None && nodes != [] {
      nodes := nodes[..1];
    }
  }

  lemma WithoutOneMore(h: UnmergeGraph, nodes: seq<Node>, k: nat)
    requires k < |nodes|
    ensures h.Without(Elements(nodes[..k])).Without({nodes[k]}) == h.Without(Elements(nodes[..k + 1]))
  {
    var few, one, more := Elements(nodes[..k]), {nodes[k]}, Elements(nodes[..k + 1]);
    assert nodes[..k + 1] == nodes[..k] + [nodes[k]];
    FilterTwice(n => n !in few, n => n !in one, n => n !in more, h.order);
  }

  lemma WithoutNothing(g: UnmergeGraph, nodes: seq<Node>)
    ensures g.Without(Elements(nodes[..0])) == g && Cpvs(nodes[..0]) == []
  {
    FilterAll(n => n !in Elements(nodes[..0]), g.order);
  }

  lemma CpvsOneMore(nodes: seq<Node>, k: nat)
    requires k < |nodes|
    ensures Cpvs(nodes[..k + 1]) == Cpvs(nodes[..k]) + [nodes[k].cpv]
  {
  }

  /** Remove the packages of one round from the graph and list them. */
  method RemoveNodes(graph: UnmergeGraph, cleanlist: seq<nat>, nodes: seq<Node>) returns (left: UnmergeGraph, longer: seq<nat>)
    ensures left == graph.Without(Elements(nodes))
    ensures longer == cleanlist + Cpvs(nodes)
  {
    hide *;
    left, longer := graph, cleanlist;
    WithoutNothing(graph, nodes);
    assert cleanlist + [] == cleanlist;
    for k := 0 to |nodes|
      invariant left == graph.Without(Elements(nodes[..k]))
      invariant longer == cleanlist + Cpvs(nodes[..k])
    {
      WithoutOneMore(graph, nodes, k);
      CpvsOneMore(nodes, k);
      AppendAssoc(cleanlist, Cpvs(nodes[..k]), [nodes[k].cpv]);
      left := left.Without({nodes[k]});
      longer := longer + [nodes[k].cpv];
    }
    assert nodes[..|nodes|] == nodes;
  }

  lemma RoundListed(g: UnmergeGraph, h: UnmergeGraph)
    requires ValidGraph(g) && LeftOf(g, h)
    ensures h.order == [] ==> Cpvs(RemovalFrom(h)) == []
    ensures h.order != [] ==>
      var left := h.Without(Elements(Batch(h)));
      && Batch(h) != [] && LeftOf(g, left) && |left.order| < |h.order|
      && Cpvs(RemovalFrom(h)) == Cpvs(Batch(h)) + Cpvs(RemovalFrom(left))
  {
    hide LeftOf, ValidGraph, Batch;
    AlwaysRoots(g, h);
    if h.order != [] {
      var left := h.Without(Elements(Batch(h)));
      BatchLeaves(g, h);
      BatchShrinks(h);
      assert RemovalFrom(h) == Batch(h) + RemovalFrom(left);
      CpvsConcat(Batch(h), RemovalFrom(left));
    }
  }

  /** Round after round until the graph is empty. */
  method RemoveAll(g: UnmergeGraph, start: UnmergeGraph) returns (cleanlist: seq<nat>)
    requires ValidGraph(g) && LeftOf(g, start)
    ensures cleanlist == Cpvs(RemovalFrom(start))
  {
    hide LeftOf, ValidGraph, Batch, RemovalFrom, Cpvs;
    var graph := start;
    cleanlist := [];
    while graph.order != []
      invariant LeftOf(g, graph)
      invariant cleanlist + Cpvs(RemovalFrom(graph)) == Cpvs(RemovalFrom(start))
      decreases |graph.order|
    {
      RoundListed(g, graph);
      var nodes := NextBatch(graph);
      assert nodes != [];
      graph, cleanlist := RemoveNodes(graph, cleanlist, nodes);
    }
    RoundListed(g, graph);
  }

  /** The removal order of _calc_depclean, and whether it matters. */
  method RemovalOrder(g: UnmergeGraph) returns (ordered: bool, cleanlist: seq<nat>)
    requires ValidGraph(g)
    ensures cleanlist == Cpvs(CleanOrder(g))
    ensures ordered <==> g.arcs != map[]
  {
    AllRoots(g);
    if |g.order| == |RootNodesBelow(g, None)| {
      ordered, cleanlist := false, Cpvs(g.order);
    } else {
      ByReferencesSame(g);
      hide LeftOf, ValidGraph, RemovalFrom, ByReferences;
      ordered := true;
      cleanlist := RemoveAll(g, ByReferences(g));
    }
  }
}
