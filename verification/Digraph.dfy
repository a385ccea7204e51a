/**
 * The interface of lib/corepkg/util/digraph.py that the schedulers use: nodes in
 * insertion order and, for each (parent, child) arc, its ascending list of priorities.
 */
module Digraphs {
  import opened Sequences

  datatype Digraph<N(==,!new), P(!new)> = Digraph(order: seq<N>, arcs: map<(N, N), seq<P>>) {

    /** Nodes are listed once, arcs join nodes of the graph and carry at least one priority. */
    ghost predicate Valid() {
      && Distinct(order)
      && forall e :: e in arcs ==> e.0 in order && e.1 in order && arcs[e] != []
    }

    function ChildNodes(node: N): (r: seq<N>)
      ensures forall c :: c in r <==> c in order && (node, c) in arcs
    {
      Filter(c => (node, c) in arcs, order)
    }

    /** child_nodes() with an ignore_priority callable: some priority of the arc is kept. */
    function ChildNodesWhere(node: N, keep: P -> bool): (r: seq<N>)
      ensures forall c :: c in r <==> c in order && (node, c) in arcs && Filter(keep, arcs[(node, c)]) != []
    {
      Filter(c => (node, c) in arcs && Filter(keep, arcs[(node, c)]) != [], order)
    }

    predicate IsRoot(node: N) {
      forall e | e in arcs.Keys :: e.1 != node
    }

    /** root_nodes() with no ignored priority. */
    function RootNodes(): (r: seq<N>)
      ensures forall n :: n in r <==> n in order && IsRoot(n)
    {
      Filter(n => IsRoot(n), order)
    }

    /** difference_update: drop the given nodes and every arc that touches them. */
    function Without(gone: set<N>): Digraph<N, P> {
      Digraph(
        Filter(n => n !in gone, order),
        map e | e in arcs && e.0 !in gone && e.1 !in gone :: arcs[e])
    }
  }

  lemma WithoutValid<N(!new), P(!new)>(g: Digraph<N, P>, gone: set<N>)
    requires g.Valid()
    ensures g.Without(gone).Valid()
    ensures forall n :: n in g.Without(gone).order <==> n in g.order && n !in gone
  {
    FilterDistinct(n => n !in gone, g.order);
  }
}
