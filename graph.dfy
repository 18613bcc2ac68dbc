/**
 * Undirected connectivity over a finite set of edges. A union-find forest is
 * specified by the edges passed to its unions: two elements share a component
 * exactly when a path of such edges joins them.
 */
module Graph {

  /** An edge between two element indices; undirected graphs hold both orientations. */
  type Edge = (int, int)

  /** Both orientations of the edge between `a` and `b`. */
  function Pair(a: int, b: int): (e: set<Edge>)
    ensures forall x :: x in e <==> x == (a, b) || x == (b, a)
  {
    {(a, b), (b, a)}
  }

  /** The edge a union guarded by `guard` adds: none when the guard fails. */
  function EdgeIf(guard: bool, a: int, b: int): (e: set<Edge>)
    ensures forall x :: x in e <==> guard && (x == (a, b) || x == (b, a))
  {
    if guard then Pair(a, b) else {}
  }

  /** Two batches of unions add the union of their edges. */
  lemma UnionsInTurn(e0: set<Edge>, e1: set<Edge>, e2: set<Edge>, a: set<Edge>, b: set<Edge>)
    requires e1 == e0 + a && e2 == e1 + b
    ensures e2 == e0 + (a + b)
  {
  }

  ghost predicate Symmetric(edges: set<Edge>)
  {
    forall u, v :: (u, v) in edges ==> (v, u) in edges
  }

  /** `p` is a non-empty walk whose consecutive elements are joined by edges. */
  ghost predicate IsPath(edges: set<Edge>, p: seq<int>)
  {
    |p| >= 1 && forall i :: 0 <= i < |p| - 1 ==> (p[i], p[i + 1]) in edges
  }

  ghost predicate PathFromTo(edges: set<Edge>, p: seq<int>, x: int, y: int)
  {
    IsPath(edges, p) && p[0] == x && p[|p| - 1] == y
  }

  ghost predicate Connected(edges: set<Edge>, x: int, y: int)
  {
    exists p :: PathFromTo(edges, p, x, y)
  }

  lemma ConnectedRefl(edges: set<Edge>, x: int)
    ensures Connected(edges, x, x)
  {
    assert PathFromTo(edges, [x], x, x);
  }

  lemma ConnectedEdge(edges: set<Edge>, x: int, y: int)
    requires (x, y) in edges
    ensures Connected(edges, x, y)
  {
    assert PathFromTo(edges, [x, y], x, y);
  }

  lemma ConnectedTrans(edges: set<Edge>, x: int, y: int, z: int)
    requires Connected(edges, x, y) && Connected(edges, y, z)
    ensures Connected(edges, x, z)
  {
    var p :| PathFromTo(edges, p, x, y);
    var q :| PathFromTo(edges, q, y, z);
    var r := p + q[1..];
    forall i | 0 <= i < |r| - 1
      ensures (r[i], r[i + 1]) in edges
    {
      if i < |p| - 1 {
        assert r[i] == p[i] && r[i + 1] == p[i + 1];
      } else {
        assert r[i] == q[i - |p| + 1] && r[i + 1] == q[i - |p| + 2];
      }
    }
    assert PathFromTo(edges, r, x, z);
  }

  /** A connection extends by one more edge. */
  lemma ConnectedStep(edges: set<Edge>, x: int, y: int, z: int)
    requires Connected(edges, x, y) && (y, z) in edges
    ensures Connected(edges, x, z)
  {
    ConnectedEdge(edges, y, z);
    ConnectedTrans(edges, x, y, z);
  }

  /** Four edges in a row connect the two ends. */
  lemma Walk(edges: set<Edge>, a: int, b: int, c: int, d: int, e: int)
    requires (a, b) in edges && (b, c) in edges && (c, d) in edges && (d, e) in edges
    ensures Connected(edges, a, b) && Connected(edges, a, c) && Connected(edges, a, d) && Connected(edges, a, e)
  {
    ConnectedEdge(edges, a, b);
    ConnectedStep(edges, a, b, c);
    ConnectedStep(edges, a, c, d);
    ConnectedStep(edges, a, d, e);
  }

  function Reverse(p: seq<int>): (r: seq<int>)
    ensures |r| == |p|
    ensures forall i :: 0 <= i < |p| ==> r[i] == p[|p| - 1 - i]
  {
    if p == [] then [] else Reverse(p[1..]) + [p[0]]
  }

  lemma ConnectedSym(edges: set<Edge>, x: int, y: int)
    requires Symmetric(edges) && Connected(edges, x, y)
    ensures Connected(edges, y, x)
  {
    var p :| PathFromTo(edges, p, x, y);
    var r := Reverse(p);
    forall i | 0 <= i < |r| - 1
      ensures (r[i], r[i + 1]) in edges
    {
      assert (p[|p| - 2 - i], p[|p| - 1 - i]) in edges;
    }
    assert PathFromTo(edges, r, y, x);
  }

  lemma ConnectedMono(edges: set<Edge>, more: set<Edge>, x: int, y: int)
    requires edges <= more && Connected(edges, x, y)
    ensures Connected(more, x, y)
  {
    var p :| PathFromTo(edges, p, x, y);
    assert PathFromTo(more, p, x, y);
  }

  /** Without edges every element is alone in its component. */
  lemma EmptyConnected(x: int, y: int)
    ensures Connected({}, x, y) <==> x == y
  {
    if x == y {
      ConnectedRefl({}, x);
    } else {
      IsolatedUnreachable({}, x, y);
    }
  }

  /** A path between two distinct elements enters its end through some edge. */
  lemma LastStep(edges: set<Edge>, x: int, y: int)
    requires x != y && Connected(edges, x, y)
    ensures exists e :: e in edges && e.1 == y
  {
    var p :| PathFromTo(edges, p, x, y);
    var i := |p| - 2;
    assert (p[i], p[i + 1]) in edges;
    assert (p[i], y) in edges;
  }

  /** An element that no edge enters is reachable from itself only. */
  lemma IsolatedUnreachable(edges: set<Edge>, x: int, y: int)
    requires x != y
    requires forall e :: e in edges ==> e.1 != y
    ensures !Connected(edges, x, y)
  {
    if Connected(edges, x, y) {
      LastStep(edges, x, y);
    }
  }

  /** A set that no edge leaves contains everything reachable from its members. */
  lemma {:induction false} ClosedSetConfines(edges: set<Edge>, inside: set<int>, p: seq<int>)
    requires IsPath(edges, p) && p[0] in inside
    requires forall u, v :: (u, v) in edges && u in inside ==> v in inside
    ensures p[|p| - 1] in inside
  {
    if |p| > 1 {
      var q := p[..|p| - 1];
      assert IsPath(edges, q);
      ClosedSetConfines(edges, inside, q);
      assert (p[|p| - 2], p[|p| - 1]) in edges;
    }
  }

  lemma ClosedSetUnreachable(edges: set<Edge>, inside: set<int>, x: int, y: int)
    requires x in inside && y !in inside
    requires forall u, v :: (u, v) in edges && u in inside ==> v in inside
    ensures !Connected(edges, x, y)
  {
    if Connected(edges, x, y) {
      var p :| PathFromTo(edges, p, x, y);
      ClosedSetConfines(edges, inside, p);
      assert false;
    }
  }

  /**
   * The connectivity that the forest must report after `union(a, b)`: a path
   * over the enlarged edge set either avoids the new edge, or runs from `x`
   * to one end of it and from the other end to `y`.
   */
  lemma AddEdge(edges: set<Edge>, a: int, b: int, x: int, y: int)
    requires Symmetric(edges)
    ensures Symmetric(edges + Pair(a, b))
    ensures Connected(edges + Pair(a, b), x, y) <==>
      Connected(edges, x, y) ||
      (Connected(edges, x, a) && Connected(edges, b, y)) ||
      (Connected(edges, x, b) && Connected(edges, a, y))
  {
    var more := edges + Pair(a, b);
    if Connected(more, x, y) {
      var p :| PathFromTo(more, p, x, y);
      AddEdgePath(edges, a, b, p);
    } else {
      if Connected(edges, x, y) {
        ConnectedMono(edges, more, x, y);
      } else if Connected(edges, x, a) && Connected(edges, b, y) {
        ConnectedMono(edges, more, x, a);
        ConnectedMono(edges, more, b, y);
        ConnectedEdge(more, a, b);
        ConnectedTrans(more, x, a, b);
        ConnectedTrans(more, x, b, y);
      } else if Connected(edges, x, b) && Connected(edges, a, y) {
        ConnectedMono(edges, more, x, b);
        ConnectedMono(edges, more, a, y);
        ConnectedEdge(more, b, a);
        ConnectedTrans(more, x, b, a);
        ConnectedTrans(more, x, a, y);
      }
    }
  }

  lemma {:induction false} AddEdgePath(edges: set<Edge>, a: int, b: int, p: seq<int>)
    requires Symmetric(edges) && IsPath(edges + Pair(a, b), p)
    ensures var x, y := p[0], p[|p| - 1];
      Connected(edges, x, y) ||
      (Connected(edges, x, a) && Connected(edges, b, y)) ||
      (Connected(edges, x, b) && Connected(edges, a, y))
  {
    var x, y := p[0], p[|p| - 1];
    if |p| == 1 {
      ConnectedRefl(edges, x);
    } else {
      var q := p[..|p| - 1];
      var z := q[|q| - 1];
      assert IsPath(edges + Pair(a, b), q);
      AddEdgePath(edges, a, b, q);
      assert (z, y) in edges + Pair(a, b);
      ConnectedRefl(edges, a);
      ConnectedRefl(edges, b);
      if (z, y) in edges {
        ConnectedEdge(edges, z, y);
        if Connected(edges, x, z) {
          ConnectedTrans(edges, x, z, y);
        } else if Connected(edges, x, a) && Connected(edges, b, z) {
          ConnectedTrans(edges, b, z, y);
        } else {
          ConnectedTrans(edges, a, z, y);
        }
      } else {
        // The last step is the new edge itself: z and y are its two ends.
        assert (z == a && y == b) || (z == b && y == a);
      }
    }
  }
}
