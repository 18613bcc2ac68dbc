/**
 * The meaning of the state of the grid without virtual nodes. Sites are
 * numbered 0 to n*n-1 row by row. `open` unites a new site with an open site
 * one index before or after it, or n indexes before or after it; the guards
 * on those steps keep the index on the board but do not stop a step across
 * the end of a row, and they leave out the step from index n up to index 0.
 */
module CurrentGrid {
  import opened Graph
  import opened Board

  predicate IsSite(n: int, t: int)
  {
    0 <= t < n * n
  }

  /** Index of the cell (row, col): the 0-based row-major position. */
  function GetTarget(n: int, row: int, col: int): (t: int)
    requires n >= 1 && InBounds(n, row, col)
    ensures IsSite(n, t)
  {
    PositionRoundTrip(n, row, col);
    n * (row - 1) + col - 1
  }

  /** The site of a cell gives the cell back, so no two cells share a site. */
  lemma GetTargetRoundTrip(n: int, row: int, col: int)
    requires n >= 1 && InBounds(n, row, col)
    ensures RowOf(n, GetTarget(n, row, col)) == row && ColOf(n, GetTarget(n, row, col)) == col
  {
    PositionRoundTrip(n, row, col);
  }

  /** Every site is the index of an in-bounds cell. */
  lemma GetTargetOnto(n: int, t: int)
    requires n >= 1 && IsSite(n, t)
    ensures InBounds(n, RowOf(n, t), ColOf(n, t)) && GetTarget(n, RowOf(n, t), ColOf(n, t)) == t
  {
    PositionOnto(n, t);
  }

  /** Indexes one apart or one row apart. */
  predicate Near(n: int, u: int, v: int)
  {
    u - v == 1 || v - u == 1 || u - v == n || v - u == n
  }

  /** Open sites whose indexes are near: the only pairs a union of `open` can join. */
  ghost function Bonds(n: int, open: seq<bool>): set<Edge>
    requires n >= 1 && |open| == n * n
  {
    set u, v | 0 <= u < n * n && 0 <= v < n * n && open[u] && open[v] && Near(n, u, v) :: (u, v)
  }

  lemma BondsMember(n: int, open: seq<bool>, u: int, v: int)
    requires n >= 1 && |open| == n * n
    ensures (u, v) in Bonds(n, open) <==>
      IsSite(n, u) && IsSite(n, v) && open[u] && open[v] && Near(n, u, v)
  {
  }

  /**
   * The forest holds every bond of the open sites, except possibly the one
   * between index 0 and index n, and nothing else.
   */
  ghost predicate Wired(n: int, open: seq<bool>, edges: set<Edge>)
    requires n >= 1 && |open| == n * n
  {
    Bonds(n, open) - Pair(0, n) <= edges <= Bonds(n, open)
  }

  /** A closed site is in no bond, so a wired forest leaves it a component of its own. */
  lemma ClosedSiteIsAlone(n: int, open: seq<bool>, edges: set<Edge>, t: int, x: int)
    requires n >= 1 && |open| == n * n && Wired(n, open, edges)
    requires IsSite(n, t) && !open[t] && x != t
    ensures !Connected(edges, x, t)
  {
    forall e | e in edges
      ensures e.1 != t
    {
      BondsMember(n, open, e.0, e.1);
    }
    IsolatedUnreachable(edges, x, t);
  }

  /** Before any site is opened there is no bond. */
  lemma NoOpenSiteNoBonds(n: int, open: seq<bool>)
    requires n >= 1 && |open| == n * n
    requires forall t :: 0 <= t < n * n ==> !open[t]
    ensures Bonds(n, open) == {}
    ensures Wired(n, open, {})
  {
    forall e | e in Bonds(n, open)
      ensures false
    {
      BondsMember(n, open, e.0, e.1);
    }
  }

  /** The unions with the sites one index before and after, read on the array after `t` is set. */
  function SidewaysEdges(n: int, open: seq<bool>, t: int): set<Edge>
    requires n >= 1 && |open| == n * n && IsSite(n, t)
  {
    EdgeIf(t > 0 && open[t - 1], t - 1, t) +
    EdgeIf(t < n * n - 1 && open[t + 1], t + 1, t)
  }

  /** The unions with the sites one row before and after. */
  function VerticalEdges(n: int, open: seq<bool>, t: int): set<Edge>
    requires n >= 1 && |open| == n * n && IsSite(n, t)
  {
    EdgeIf(t - n > 0 && open[t - n], t - n, t) +
    EdgeIf(t + n < n * n && open[t + n], t + n, t)
  }

  /** All unions `open(row, col)` performs on a closed site `t`, in the order it performs them. */
  function OpenEdges(n: int, open: seq<bool>, t: int): set<Edge>
    requires n >= 1 && |open| == n * n && IsSite(n, t)
  {
    SidewaysEdges(n, open, t) + VerticalEdges(n, open, t)
  }

  /** `v` is the index one of the four guards of `open(row, col)` lets through for `t`. */
  predicate Guarded(n: int, t: int, v: int)
  {
    (v == t - 1 && t > 0) ||
    (v == t + 1 && t < n * n - 1) ||
    (v == t - n && t - n > 0) ||
    (v == t + n && t + n < n * n)
  }

  /**
   * The four guards let through every near index on the board except one:
   * from index n the step up to index 0.
   */
  lemma GuardsAllowNear(n: int, t: int, v: int)
    requires n >= 1 && IsSite(n, t)
    ensures Guarded(n, t, v) <==> IsSite(n, v) && Near(n, t, v) && !(t == n && v == 0)
  {
    if IsSite(n, v) && Near(n, t, v) && !(t == n && v == 0) {
      if v == t - n && v >= 1 {
        assert t - n > 0;
      }
    }
  }

  lemma OpenEdgesMember(n: int, open: seq<bool>, t: int, u: int, v: int)
    requires n >= 1 && |open| == n * n && IsSite(n, t)
    ensures (u, v) in OpenEdges(n, open, t) <==>
      (u == t && Guarded(n, t, v) && open[v]) || (v == t && Guarded(n, t, u) && open[u])
  {
    var e := (u, v);
    assert e in SidewaysEdges(n, open, t) <==>
      e in EdgeIf(t > 0 && open[t - 1], t - 1, t) ||
      e in EdgeIf(t < n * n - 1 && open[t + 1], t + 1, t);
    assert e in VerticalEdges(n, open, t) <==>
      e in EdgeIf(t - n > 0 && open[t - n], t - n, t) ||
      e in EdgeIf(t + n < n * n && open[t + n], t + n, t);
  }

  /**
   * Opening a closed site keeps the forest wired: the unions `open` makes are
   * bonds of the new set of open sites, and they add every new bond except
   * the one from index n up to index 0.
   */
  lemma WiredAfterOpen(n: int, open: seq<bool>, t: int, before: set<Edge>, after: set<Edge>)
    requires n >= 1 && |open| == n * n && IsSite(n, t) && !open[t]
    requires Wired(n, open, before)
    requires after == before + OpenEdges(n, open[t := true], t)
    ensures Wired(n, open[t := true], after)
  {
    var later := open[t := true];
    forall e | e in OpenEdges(n, later, t)
      ensures e in Bonds(n, later)
    {
      OpenEdgesMember(n, later, t, e.0, e.1);
      BondsMember(n, later, e.0, e.1);
      if e.0 == t {
        GuardsAllowNear(n, t, e.1);
      } else {
        GuardsAllowNear(n, t, e.0);
      }
    }
    forall e | e in before
      ensures e in Bonds(n, later)
    {
      BondsMember(n, open, e.0, e.1);
      BondsMember(n, later, e.0, e.1);
    }
    forall e | e in Bonds(n, later) && e !in Pair(0, n)
      ensures e in after
    {
      BondsMember(n, later, e.0, e.1);
      BondsMember(n, open, e.0, e.1);
      if e.0 != t && e.1 != t {
        assert e in before;
      } else {
        OpenEdgesMember(n, later, t, e.0, e.1);
        if e.0 == t {
          GuardsAllowNear(n, t, e.1);
        } else {
          GuardsAllowNear(n, t, e.0);
        }
      }
    }
  }

  /**
   * Steps of one index cross row ends: the last site of row r and the first
   * site of row r+1 are not adjacent, yet opening either after the other
   * unites them.
   */
  lemma RowEndsJoined(n: int, open: seq<bool>, r: int)
    requires n >= 2 && |open| == n * n && 1 <= r < n
    ensures IsSite(n, n * r - 1) && IsSite(n, n * r)
    ensures !Adjacent(n, n * r - 1, n * r)
    ensures open[n * r - 1] ==> (n * r - 1, n * r) in OpenEdges(n, open[n * r := true], n * r)
    ensures open[n * r] ==> (n * r, n * r - 1) in OpenEdges(n, open[n * r - 1 := true], n * r - 1)
  {
    RowEnds(n, r);
    OpenEdgesMember(n, open[n * r := true], n * r, n * r - 1, n * r);
    OpenEdgesMember(n, open[n * r - 1 := true], n * r - 1, n * r, n * r - 1);
  }

  /** Index n*r-1 ends row r and index n*r starts row r+1. */
  lemma RowEnds(n: int, r: int)
    requires n >= 2 && 1 <= r < n
    ensures 0 < n * r - 1 && n * r < n * n
    ensures RowOf(n, n * r - 1) == r && ColOf(n, n * r - 1) == n
    ensures RowOf(n, n * r) == r + 1 && ColOf(n, n * r) == 1
  {
    MulMono(n, 1, r);
    MulMono(n, r, n - 1);
    assert n * r - 1 == n * (r - 1) + (n - 1);
    DivMod(n, r - 1, n - 1);
    DivMod(n, r, 0);
  }

  /**
   * The first two sites of the first column are united only when the upper
   * one is opened second: opening index n never unites it with index 0, and
   * opening index 0 unites it with index n when that site is open.
   */
  lemma TopLeftOrderMatters(n: int, open: seq<bool>)
    requires n >= 2 && |open| == n * n
    ensures IsSite(n, n) && Adjacent(n, 0, n)
    ensures (0, n) !in OpenEdges(n, open[n := true], n)
    ensures (n, 0) in OpenEdges(n, open[0 := true], 0) <==> open[n]
  {
    MulMono(n, 2, n);
    DivMod(n, 1, 0);
    DivMod(n, 0, 0);
    OpenEdgesMember(n, open[n := true], n, 0, n);
    OpenEdgesMember(n, open[0 := true], 0, n, 0);
  }

  /** The cells of a board on which no site is open. */
  function Closed(n: int): (s: seq<bool>)
    requires n >= 1
    ensures |s| == n * n && forall t :: 0 <= t < n * n ==> !s[t]
  {
    seq(n * n, _ => false)
  }

  /**
   * Opening site `a` and then site `b` on a closed board unites them exactly
   * when the guards of `open(row, col)` let `a` through for `b`, and makes no
   * other union.
   */
  lemma OpenedInTurn(n: int, a: int, b: int)
    requires n >= 1 && IsSite(n, a) && IsSite(n, b) && a != b
    ensures var first := Closed(n)[a := true];
      OpenEdges(n, first, a) + OpenEdges(n, first[b := true], b) ==
      if Guarded(n, b, a) then Pair(a, b) else {}
  {
    var first := Closed(n)[a := true];
    var second := first[b := true];
    var lhs := OpenEdges(n, first, a) + OpenEdges(n, second, b);
    var rhs := if Guarded(n, b, a) then Pair(a, b) else {};
    forall e | e in lhs
      ensures e in rhs
    {
      OpenEdgesMember(n, first, a, e.0, e.1);
      OpenEdgesMember(n, second, b, e.0, e.1);
    }
    forall e | e in rhs
      ensures e in lhs
    {
      OpenEdgesMember(n, second, b, e.0, e.1);
    }
  }
}
