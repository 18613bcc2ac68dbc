/**
 * The disjoint-set forest both grids own. The repository takes it from a
 * library that is not part of this model; here it is a component-label array
 * (quick-find) whose contract is the one the grids rely on: `Find` returns an
 * in-range representative, and two elements share a representative exactly
 * when the unions performed so far connect them.
 */
module UnionFind {
  import opened Graph

  class UnionFind {
    /** Number of elements, fixed at construction. */
    const size: nat
    /** Component label of each element; a label is itself a member of its component. */
    const id: array<int>
    /** Every union performed so far, in both orientations. */
    ghost var edges: set<Edge>

    ghost predicate Valid()
      reads this, id
    {
      id.Length == size &&
      (forall x :: 0 <= x < size ==> 0 <= id[x] < size && id[id[x]] == id[x]) &&
      Symmetric(edges) &&
      (forall x, y :: 0 <= x < size && 0 <= y < size ==>
        (id[x] == id[y] <==> Connected(edges, x, y)))
    }

    /** Every element starts as its own singleton component. */
    constructor (n: nat)
      ensures Valid() && fresh(id)
      ensures size == n && edges == {}
      ensures forall x :: 0 <= x < n ==> Find(x) == x
    {
      size := n;
      edges := {};
      var labels := new int[n];
      var i := 0;
      while i < n
        invariant 0 <= i <= n
        invariant forall k :: 0 <= k < i ==> labels[k] == k
      {
        labels[i] := i;
        i := i + 1;
      }
      id := labels;
      new;
      forall x, y | 0 <= x < size && 0 <= y < size
        ensures id[x] == id[y] <==> Connected(edges, x, y)
      {
        EmptyConnected(x, y);
      }
    }

    /** The representative of `x`'s component: an element of that component. */
    function Find(x: int): (r: int)
      reads this, id
      requires Valid() && 0 <= x < size
      ensures 0 <= r < size && id[r] == r
      ensures Connected(edges, x, r)
    {
      id[x]
    }

    /**
     * Merges the components of `p` and `q`: afterwards they share a
     * representative, and two elements share one exactly when they did before
     * or one was with `p` and the other with `q`.
     */
    method Union(p: int, q: int)
      requires Valid() && 0 <= p < size && 0 <= q < size
      modifies this, id
      ensures Valid()
      ensures edges == old(edges) + Pair(p, q)
      ensures Find(p) == Find(q)
      ensures forall x, y :: 0 <= x < size && 0 <= y < size ==>
        (Find(x) == Find(y) <==>
          old(Find(x) == Find(y)) ||
          old(Find(x) == Find(p) && Find(y) == Find(q)) ||
          old(Find(x) == Find(q) && Find(y) == Find(p)))
    {
      var pid, qid := id[p], id[q];
      var i := 0;
      while i < size
        modifies id
        invariant 0 <= i <= size
        invariant forall k :: 0 <= k < i ==> id[k] == if old(id[k]) == pid then qid else old(id[k])
        invariant forall k :: i <= k < size ==> id[k] == old(id[k])
      {
        if id[i] == pid {
          id[i] := qid;
        }
        i := i + 1;
      }
      ghost var before := edges;
      edges := edges + Pair(p, q);
      forall x, y | 0 <= x < size && 0 <= y < size
        ensures id[x] == id[y] <==> Connected(edges, x, y)
      {
        AddEdge(before, p, q, x, y);
      }
      AddEdge(before, p, q, p, p);
    }
  }
}
