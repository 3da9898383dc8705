/** Finite directed graphs as sets of edges, with walks as sequences of nodes. */
module Graphs {
  type Edges<T(==)> = set<(T, T)>

  ghost predicate Walk<T>(edges: Edges<T>, w: seq<T>) {
    w != [] && forall i :: 0 <= i < |w| - 1 ==> (w[i], w[i + 1]) in edges
  }

  function Endpoints<T>(edges: Edges<T>): set<T> {
    (set e | e in edges :: e.0) + (set e | e in edges :: e.1)
  }

  ghost predicate Reaches<T(!new)>(edges: Edges<T>, from: T, to: T) {
    exists w :: Walk(edges, w) && w[0] == from && w[|w| - 1] == to
  }

  lemma ReachesSelf<T(!new)>(edges: Edges<T>, x: T)
    ensures Reaches(edges, x, x)
  {
    assert Walk(edges, [x]);
  }

  lemma ReachesStep<T(!new)>(edges: Edges<T>, x: T, parent: T, child: T)
    requires Reaches(edges, x, parent) && (parent, child) in edges
    ensures Reaches(edges, x, child)
  {
    var w :| Walk(edges, w) && w[0] == x && w[|w| - 1] == parent;
    assert Walk(edges, w + [child]);
  }
}
