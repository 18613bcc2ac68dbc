/**
 * The meaning of the virtual-node grid's state. Sites are numbered 1 to n*n
 * row by row; index 0 is a virtual node above the board and n*n+1 one below
 * it. The forest is meant to hold exactly the links below: open sites that
 * share a side, every open top-row site with the top node and every open
 * bottom-row site with the bottom node.
 */
module OldGrid {
  import opened Graph
  import opened Board

  predicate IsSite(n: int, t: int)
  {
    1 <= t <= n * n
  }

  function Row(n: int, t: int): int
    requires n >= 1
  {
    RowOf(n, t - 1)
  }

  function Col(n: int, t: int): int
    requires n >= 1
  {
    ColOf(n, t - 1)
  }

  /** Index of the cell (row, col): 1-based, so that 0 stays free for the top node. */
  function GetTarget(n: int, row: int, col: int): (t: int)
    requires n >= 1 && InBounds(n, row, col)
    ensures IsSite(n, t) && t != 0 && t != n * n + 1
  {
    PositionRoundTrip(n, row, col);
    n * (row - 1) + col
  }

  /** The site of a cell gives the cell back, so no two cells share a site. */
  lemma GetTargetRoundTrip(n: int, row: int, col: int)
    requires n >= 1 && InBounds(n, row, col)
    ensures Row(n, GetTarget(n, row, col)) == row && Col(n, GetTarget(n, row, col)) == col
  {
    PositionRoundTrip(n, row, col);
  }

  /** Every site is the index of an in-bounds cell. */
  lemma GetTargetOnto(n: int, t: int)
    requires n >= 1 && IsSite(n, t)
    ensures InBounds(n, Row(n, t), Col(n, t)) && GetTarget(n, Row(n, t), Col(n, t)) == t
  {
    PositionOnto(n, t - 1);
  }

  predicate Neighbours(n: int, u: int, v: int)
    requires n >= 1
  {
    Adjacent(n, u - 1, v - 1)
  }

  ghost predicate TopSite(n: int, open: seq<bool>, t: int)
    requires n >= 1 && |open| == n * n + 2
  {
    IsSite(n, t) && open[t] && Row(n, t) == 1
  }

  ghost predicate BottomSite(n: int, open: seq<bool>, t: int)
    requires n >= 1 && |open| == n * n + 2
  {
    IsSite(n, t) && open[t] && Row(n, t) == n
  }

  /** Open sites that share a side. */
  ghost function SiteLinks(n: int, open: seq<bool>): set<Edge>
    requires n >= 1 && |open| == n * n + 2
  {
    set u, v | 1 <= u <= n * n && 1 <= v <= n * n && open[u] && open[v] && Neighbours(n, u, v) :: (u, v)
  }

  ghost function TopLinks(n: int, open: seq<bool>): set<Edge>
    requires n >= 1 && |open| == n * n + 2
  {
    (set t | 1 <= t <= n * n && TopSite(n, open, t) :: (0, t)) +
    (set t | 1 <= t <= n * n && TopSite(n, open, t) :: (t, 0))
  }

  ghost function BottomLinks(n: int, open: seq<bool>): set<Edge>
    requires n >= 1 && |open| == n * n + 2
  {
    (set t | 1 <= t <= n * n && BottomSite(n, open, t) :: (n * n + 1, t)) +
    (set t | 1 <= t <= n * n && BottomSite(n, open, t) :: (t, n * n + 1))
  }

  /** Everything the forest of the virtual-node grid is meant to connect. */
  ghost function Links(n: int, open: seq<bool>): set<Edge>
    requires n >= 1 && |open| == n * n + 2
  {
    SiteLinks(n, open) + TopLinks(n, open) + BottomLinks(n, open)
  }

  lemma SiteLinksMember(n: int, open: seq<bool>, u: int, v: int)
    requires n >= 1 && |open| == n * n + 2
    ensures (u, v) in SiteLinks(n, open) <==>
      IsSite(n, u) && IsSite(n, v) && open[u] && open[v] && Neighbours(n, u, v)
  {
  }

  lemma TopLinksMember(n: int, open: seq<bool>, u: int, v: int)
    requires n >= 1 && |open| == n * n + 2
    ensures (u, v) in TopLinks(n, open) <==>
      (u == 0 && TopSite(n, open, v)) || (v == 0 && TopSite(n, open, u))
  {
  }

  lemma BottomLinksMember(n: int, open: seq<bool>, u: int, v: int)
    requires n >= 1 && |open| == n * n + 2
    ensures (u, v) in BottomLinks(n, open) <==>
      (u == n * n + 1 && BottomSite(n, open, v)) || (v == n * n + 1 && BottomSite(n, open, u))
  {
  }

  /**
   * A link of the grid: between neighbouring open sites, or between a virtual
   * node and an open site of its row.
   */
  lemma LinksMember(n: int, open: seq<bool>, u: int, v: int)
    requires n >= 1 && |open| == n * n + 2
    ensures (u, v) in Links(n, open) <==>
      (IsSite(n, u) && IsSite(n, v) && open[u] && open[v] && Neighbours(n, u, v)) ||
      (u == 0 && TopSite(n, open, v)) || (v == 0 && TopSite(n, open, u)) ||
      (u == n * n + 1 && BottomSite(n, open, v)) || (v == n * n + 1 && BottomSite(n, open, u))
  {
    SiteLinksMember(n, open, u, v);
    TopLinksMember(n, open, u, v);
    BottomLinksMember(n, open, u, v);
  }

  lemma LinksSymmetric(n: int, open: seq<bool>)
    requires n >= 1 && |open| == n * n + 2
    ensures Symmetric(Links(n, open)) && Symmetric(SiteLinks(n, open))
  {
    forall u, v | (u, v) in Links(n, open)
      ensures (v, u) in Links(n, open)
    {
      LinksMember(n, open, u, v);
      LinksMember(n, open, v, u);
    }
  }

  /** Before any site is opened nothing is linked. */
  lemma NoOpenSiteNoLinks(n: int, open: seq<bool>)
    requires n >= 1 && |open| == n * n + 2
    requires forall t :: 1 <= t <= n * n ==> !open[t]
    ensures Links(n, open) == {}
  {
    forall e | e in Links(n, open)
      ensures false
    {
      LinksMember(n, open, e.0, e.1);
    }
  }

  /** The edge the forest gets for the top node when site `t` is opened. */
  function TopEdge(n: int, t: int): set<Edge>
  {
    if t <= n then Pair(0, t) else {}
  }

  function BottomEdge(n: int, t: int): set<Edge>
  {
    if t > n * (n - 1) then Pair(n * n + 1, t) else {}
  }

  /** The unions with the left and right neighbours, read on the array after `t` is set. */
  function SidewaysEdges(n: int, open: seq<bool>, t: int): set<Edge>
    requires n >= 1 && |open| == n * n + 2 && IsSite(n, t)
  {
    EdgeIf((t - 1) % n != 0 && open[t - 1], t - 1, t) +
    EdgeIf(t % n != 0 && open[t + 1], t + 1, t)
  }

  /** The unions with the neighbours above and below. */
  function VerticalEdges(n: int, open: seq<bool>, t: int): set<Edge>
    requires n >= 1 && |open| == n * n + 2 && IsSite(n, t)
  {
    EdgeIf(t - n > 0 && open[t - n], t - n, t) +
    EdgeIf(t + n <= n * n && open[t + n], t + n, t)
  }

  /** The four neighbour unions of `open(row, col)`, in the order it performs them. */
  function NeighbourEdges(n: int, open: seq<bool>, t: int): set<Edge>
    requires n >= 1 && |open| == n * n + 2 && IsSite(n, t)
  {
    SidewaysEdges(n, open, t) + VerticalEdges(n, open, t)
  }

  /** All unions `open(row, col)` performs on a closed site `t`, in the order it performs them. */
  function OpenEdges(n: int, open: seq<bool>, t: int): set<Edge>
    requires n >= 1 && |open| == n * n + 2 && IsSite(n, t)
  {
    TopEdge(n, t) + BottomEdge(n, t) + NeighbourEdges(n, open, t)
  }

  /** `v` is the index one of the four neighbour guards of `open(row, col)` lets through for `t`. */
  predicate Guarded(n: int, t: int, v: int)
    requires n >= 1
  {
    (v == t - 1 && (t - 1) % n != 0) ||
    (v == t + 1 && t % n != 0) ||
    (v == t - n && t - n > 0) ||
    (v == t + n && t + n <= n * n)
  }

  lemma NeighbourEdgesMember(n: int, open: seq<bool>, t: int, u: int, v: int)
    requires n >= 1 && |open| == n * n + 2 && IsSite(n, t)
    ensures (u, v) in NeighbourEdges(n, open, t) <==>
      (u == t && Guarded(n, t, v) && open[v]) || (v == t && Guarded(n, t, u) && open[u])
  {
    SidewaysEdgesMember(n, open, t, u, v);
    VerticalEdgesMember(n, open, t, u, v);
  }

  lemma SidewaysEdgesMember(n: int, open: seq<bool>, t: int, u: int, v: int)
    requires n >= 1 && |open| == n * n + 2 && IsSite(n, t)
    ensures (u, v) in SidewaysEdges(n, open, t) <==>
      (u == t && ((v == t - 1 && (t - 1) % n != 0) || (v == t + 1 && t % n != 0)) && open[v]) ||
      (v == t && ((u == t - 1 && (t - 1) % n != 0) || (u == t + 1 && t % n != 0)) && open[u])
  {
  }

  lemma VerticalEdgesMember(n: int, open: seq<bool>, t: int, u: int, v: int)
    requires n >= 1 && |open| == n * n + 2 && IsSite(n, t)
    ensures (u, v) in VerticalEdges(n, open, t) <==>
      (u == t && ((v == t - n && t - n > 0) || (v == t + n && t + n <= n * n)) && open[v]) ||
      (v == t && ((u == t - n && t - n > 0) || (u == t + n && t + n <= n * n)) && open[u])
  {
  }

  /**
   * The four neighbour guards pick out exactly the sites that share a side
   * with `t`: none of them crosses a row end or leaves the board.
   */
  lemma NeighbourGuards(n: int, t: int, v: int)
    requires n >= 1 && IsSite(n, t)
    ensures Guarded(n, t, v) <==> IsSite(n, v) && Neighbours(n, t, v)
  {
    var k, j := t - 1, v - 1;
    var steps :=
      (j == k - 1 && ColOf(n, k) > 1) ||
      (j == k + 1 && ColOf(n, k) < n) ||
      (j == k - n && RowOf(n, k) > 1) ||
      (j == k + n && RowOf(n, k) < n);
    assert
      ((v == t - 1 && (t - 1) % n != 0) ||
       (v == t + 1 && t % n != 0) ||
       (v == t - n && t - n > 0) ||
       (v == t + n && t + n <= n * n)) <==> steps
    by {
      GuardMeanings(n, k);
    }
    if 0 <= j < n * n {
      AdjacentSteps(n, k, j);
    } else {
      assert !steps by {
        StepsInRange(n, k);
      }
    }
  }

  /** An open site the top guard (`target <= n`) lets through is linked to the top node. */
  lemma TopLink(n: int, open: seq<bool>, t: int)
    requires n >= 1 && |open| == n * n + 2 && IsSite(n, t) && open[t] && t <= n
    ensures (0, t) in Links(n, open)
  {
    RowGuards(n, t);
    LinksMember(n, open, 0, t);
  }

  /** An open site the bottom guard (`target > n * (n - 1)`) lets through is linked to the bottom node. */
  lemma BottomLink(n: int, open: seq<bool>, t: int)
    requires n >= 1 && |open| == n * n + 2 && IsSite(n, t) && open[t] && t > n * (n - 1)
    ensures (t, n * n + 1) in Links(n, open) && (n * n + 1, t) in Links(n, open)
  {
    RowGuards(n, t);
    LinksMember(n, open, t, n * n + 1);
    LinksMember(n, open, n * n + 1, t);
  }

  /** Two open sites one of the neighbour guards lets through are linked, both ways. */
  lemma GuardedLink(n: int, open: seq<bool>, t: int, v: int)
    requires n >= 1 && |open| == n * n + 2 && IsSite(n, t) && Guarded(n, t, v) && open[t] && open[v]
    ensures (t, v) in Links(n, open) && (v, t) in Links(n, open)
  {
    NeighbourGuards(n, t, v);
    LinksMember(n, open, t, v);
    LinksMember(n, open, v, t);
  }

  /** Which row a site index lies in, read from the top and bottom guards. */
  lemma RowGuards(n: int, t: int)
    requires n >= 1 && IsSite(n, t)
    ensures t <= n <==> Row(n, t) == 1
    ensures t > n * (n - 1) <==> Row(n, t) == n
  {
    GuardMeanings(n, t - 1);
  }

  lemma SiteLinksAfterOpen(n: int, open: seq<bool>, t: int)
    requires n >= 1 && |open| == n * n + 2 && IsSite(n, t) && !open[t]
    ensures SiteLinks(n, open[t := true]) == SiteLinks(n, open) + NeighbourEdges(n, open[t := true], t)
  {
    var after := open[t := true];
    var lhs, rhs := SiteLinks(n, after), SiteLinks(n, open) + NeighbourEdges(n, after, t);
    forall e
      ensures e in lhs <==> e in rhs
    {
      var u, v := e.0, e.1;
      SiteLinksMember(n, after, u, v);
      SiteLinksMember(n, open, u, v);
      NeighbourEdgesMember(n, after, t, u, v);
      if u == t {
        NeighbourGuards(n, t, v);
      } else if v == t {
        NeighbourGuards(n, t, u);
      }
    }
  }

  lemma TopLinksAfterOpen(n: int, open: seq<bool>, t: int)
    requires n >= 1 && |open| == n * n + 2 && IsSite(n, t) && !open[t]
    ensures TopLinks(n, open[t := true]) == TopLinks(n, open) + TopEdge(n, t)
  {
    var after := open[t := true];
    var added := t <= n;
    assert added <==> Row(n, t) == 1 by {
      RowGuards(n, t);
    }
    assert TopEdge(n, t) == if added then Pair(0, t) else {};
    forall e
      ensures e in TopLinks(n, after) <==> e in TopLinks(n, open) + TopEdge(n, t)
    {
      TopLinksMember(n, after, e.0, e.1);
      TopLinksMember(n, open, e.0, e.1);
    }
  }

  lemma BottomLinksAfterOpen(n: int, open: seq<bool>, t: int)
    requires n >= 1 && |open| == n * n + 2 && IsSite(n, t) && !open[t]
    ensures BottomLinks(n, open[t := true]) == BottomLinks(n, open) + BottomEdge(n, t)
  {
    var after := open[t := true];
    var bottom := n * n + 1;
    var added := t > n * (n - 1);
    assert added <==> Row(n, t) == n by {
      RowGuards(n, t);
    }
    assert BottomEdge(n, t) == if added then Pair(bottom, t) else {};
    forall e
      ensures e in BottomLinks(n, after) <==> e in BottomLinks(n, open) + BottomEdge(n, t)
    {
      BottomLinksMember(n, after, e.0, e.1);
      BottomLinksMember(n, open, e.0, e.1);
    }
  }

  /**
   * Opening a closed site adds to the intended links exactly the unions that
   * `open` performs; so the forest never depends on the order of the opens.
   */
  lemma LinksAfterOpen(n: int, open: seq<bool>, t: int)
    requires n >= 1 && |open| == n * n + 2 && IsSite(n, t) && !open[t]
    ensures Links(n, open[t := true]) == Links(n, open) + OpenEdges(n, open[t := true], t)
  {
    SiteLinksAfterOpen(n, open, t);
    TopLinksAfterOpen(n, open, t);
    BottomLinksAfterOpen(n, open, t);
  }

  /** Some open top-row site reaches `t` through open sites that share sides. */
  ghost predicate FedFromTop(n: int, open: seq<bool>, t: int)
    requires n >= 1 && |open| == n * n + 2
  {
    exists s :: TopSite(n, open, s) && Connected(SiteLinks(n, open), s, t)
  }

  /** A chain of open neighbouring sites runs from the top row to the bottom row. */
  ghost predicate TopToBottomChain(n: int, open: seq<bool>)
    requires n >= 1 && |open| == n * n + 2
  {
    exists s, b :: TopSite(n, open, s) && BottomSite(n, open, b) && Connected(SiteLinks(n, open), s, b)
  }

  /**
   * Along a walk from the top node that has not yet met the bottom node,
   * every element is the top node or a site fed from the top.
   */
  lemma {:induction false} WalkFromTop(n: int, open: seq<bool>, p: seq<int>, i: int)
    requires n >= 1 && |open| == n * n + 2
    requires IsPath(Links(n, open), p) && p[0] == 0 && 0 <= i < |p|
    requires forall k :: 0 <= k <= i ==> p[k] != n * n + 1
    ensures p[i] == 0 || (IsSite(n, p[i]) && FedFromTop(n, open, p[i]))
  {
    if i > 0 {
      WalkFromTop(n, open, p, i - 1);
      var u, v := p[i - 1], p[i];
      assert (u, v) in Links(n, open);
      LinksMember(n, open, u, v);
      var links := SiteLinks(n, open);
      if u == 0 {
        ConnectedRefl(links, v);
      } else if v != 0 {
        var s :| TopSite(n, open, s) && Connected(links, s, u);
        SiteLinksMember(n, open, u, v);
        ConnectedEdge(links, u, v);
        ConnectedTrans(links, s, u, v);
      }
    }
  }

  lemma {:induction false} WalkReachesBottom(n: int, open: seq<bool>, p: seq<int>, i: int)
    requires n >= 1 && |open| == n * n + 2
    requires IsPath(Links(n, open), p) && p[0] == 0 && 0 <= i < |p| && p[i] == n * n + 1
    ensures TopToBottomChain(n, open)
    decreases i
  {
    if k :| 0 <= k < i && p[k] == n * n + 1 {
      WalkReachesBottom(n, open, p, k);
    } else {
      WalkFromTop(n, open, p, i - 1);
      var u := p[i - 1];
      assert (u, n * n + 1) in Links(n, open);
      LinksMember(n, open, u, n * n + 1);
      var s :| TopSite(n, open, s) && Connected(SiteLinks(n, open), s, u);
      assert BottomSite(n, open, u);
    }
  }

  /**
   * The two virtual nodes share a component exactly when a chain of open
   * neighbouring sites joins the top row to the bottom row.
   */
  lemma PercolatesIffChain(n: int, open: seq<bool>)
    requires n >= 1 && |open| == n * n + 2
    ensures Connected(Links(n, open), 0, n * n + 1) <==> TopToBottomChain(n, open)
  {
    var links := Links(n, open);
    if Connected(links, 0, n * n + 1) {
      var p :| PathFromTo(links, p, 0, n * n + 1);
      WalkReachesBottom(n, open, p, |p| - 1);
    }
    if TopToBottomChain(n, open) {
      var s, b :| TopSite(n, open, s) && BottomSite(n, open, b) && Connected(SiteLinks(n, open), s, b);
      LinksMember(n, open, 0, s);
      LinksMember(n, open, b, n * n + 1);
      ConnectedEdge(links, 0, s);
      ConnectedMono(SiteLinks(n, open), links, s, b);
      ConnectedEdge(links, b, n * n + 1);
      ConnectedTrans(links, 0, s, b);
      ConnectedTrans(links, 0, b, n * n + 1);
    }
  }

  /** A site fed from the top shares a component with the top node. */
  lemma FedSiteIsFull(n: int, open: seq<bool>, t: int)
    requires n >= 1 && |open| == n * n + 2
    requires FedFromTop(n, open, t)
    ensures Connected(Links(n, open), 0, t)
  {
    var links := Links(n, open);
    var s :| TopSite(n, open, s) && Connected(SiteLinks(n, open), s, t);
    LinksMember(n, open, 0, s);
    ConnectedEdge(links, 0, s);
    ConnectedMono(SiteLinks(n, open), links, s, t);
    ConnectedTrans(links, 0, s, t);
  }

  /** An open top-row site is always full. */
  lemma OpenTopSiteIsFull(n: int, open: seq<bool>, t: int)
    requires n >= 1 && |open| == n * n + 2
    requires TopSite(n, open, t)
    ensures Connected(Links(n, open), 0, t)
  {
    LinksMember(n, open, 0, t);
    ConnectedEdge(Links(n, open), 0, t);
  }

  /** A closed site is linked to nothing: it is alone in its component, so it is never full. */
  lemma ClosedSiteIsAlone(n: int, open: seq<bool>, t: int, x: int)
    requires n >= 1 && |open| == n * n + 2
    requires IsSite(n, t) && !open[t] && x != t
    ensures !Connected(Links(n, open), x, t)
  {
    forall e | e in Links(n, open)
      ensures e.1 != t
    {
      LinksMember(n, open, e.0, e.1);
    }
    IsolatedUnreachable(Links(n, open), x, t);
  }
}
