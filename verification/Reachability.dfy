/**
 * Reachability over a finite set of arcs. It is the reference against which every
 * worklist of the dependency code is proved.
 */
module Reachability {

  /** `p` is a path from `a` to `b`: neighbouring nodes are joined by arcs. */
  ghost predicate IsPath<N(!new)>(arcs: set<(N, N)>, p: seq<N>, a: N, b: N) {
    && |p| > 0
    && p[0] == a
    && p[|p| - 1] == b
    && forall i :: 0 <= i < |p| - 1 ==> (p[i], p[i + 1]) in arcs
  }

  ghost predicate Reaches<N(!new)>(arcs: set<(N, N)>, a: N, b: N) {
    exists p :: IsPath(arcs, p, a, b)
  }

  /** Every arc that starts in `s` also ends in `s`. */
  ghost predicate Closed<N(!new)>(arcs: set<(N, N)>, s: set<N>) {
    forall a, b :: (a, b) in arcs && a in s ==> b in s
  }

  lemma ReachesItself<N(!new)>(arcs: set<(N, N)>, a: N)
    ensures Reaches(arcs, a, a)
  {
    assert IsPath(arcs, [a], a, a);
  }

  lemma ReachesFurther<N(!new)>(arcs: set<(N, N)>, a: N, b: N, c: N)
    requires Reaches(arcs, a, b) && (b, c) in arcs
    ensures Reaches(arcs, a, c)
  {
    var p :| IsPath(arcs, p, a, b);
    assert IsPath(arcs, p + [c], a, c);
  }

  /** A closed set that holds the start of a path holds its end. */
  lemma {:induction false} ClosedKeepsPath<N(!new)>(arcs: set<(N, N)>, s: set<N>, p: seq<N>, a: N, b: N)
    requires IsPath(arcs, p, a, b) && a in s && Closed(arcs, s)
    ensures b in s
  {
    if |p| > 1 {
      assert (p[0], p[1]) in arcs;
      assert IsPath(arcs, p[1..], p[1], b);
      ClosedKeepsPath(arcs, s, p[1..], p[1], b);
    }
  }

  lemma ClosedKeepsReach<N(!new)>(arcs: set<(N, N)>, s: set<N>, a: N, b: N)
    requires Reaches(arcs, a, b) && a in s && Closed(arcs, s)
    ensures b in s
  {
    var p :| IsPath(arcs, p, a, b);
    ClosedKeepsPath(arcs, s, p, a, b);
  }

  lemma ReachesMonotone<N(!new)>(small: set<(N, N)>, big: set<(N, N)>, a: N, b: N)
    requires Reaches(small, a, b) && small <= big
    ensures Reaches(big, a, b)
  {
    var p :| IsPath(small, p, a, b);
    assert IsPath(big, p, a, b);
  }
}
