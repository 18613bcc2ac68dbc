/**
 * The virtual-node percolation grid: an n-by-n board of sites opened one at a
 * time, a forest over the n*n sites and two virtual nodes, and a count of the
 * opened sites. Each mutating method keeps `Valid`, whose last clause says the
 * forest holds exactly `OldGrid.Links` of the open sites.
 */
module PercolationOld {
  import opened Outcomes
  import opened Graph
  import opened Board
  import opened OldGrid
  import UnionFind

  class Percolation {
    const n: int
    /** One cell per site, plus the virtual top (index 0) and bottom (index n*n+1). */
    const openSites: array<bool>
    const unionFind: UnionFind.UnionFind
    var openSitesCount: int

    ghost predicate Valid()
      reads this, openSites, unionFind, unionFind.id
    {
      n >= 1 &&
      openSites.Length == n * n + 2 &&
      unionFind.size == n * n + 2 &&
      unionFind.Valid() &&
      openSites[0] && openSites[n * n + 1] &&
      openSitesCount == CountTrue(openSites[1..n * n + 1]) &&
      unionFind.edges == Links(n, openSites[..])
    }

    /** Builds a closed board; `Create` is the entry point that rejects `n < 1`. */
    constructor (n: int)
      requires n >= 1
      ensures Valid() && fresh(openSites) && fresh(unionFind) && fresh(unionFind.id)
      ensures this.n == n && openSitesCount == 0
      ensures forall i :: 0 <= i < openSites.Length ==> (openSites[i] <==> i == 0 || i == n * n + 1)
    {
      this.n := n;
      var forest := new UnionFind.UnionFind(n * n + 2);
      var sites := new bool[n * n + 2](_ => false);
      sites[0] := true;
      sites[sites.Length - 1] := true;
      unionFind := forest;
      openSites := sites;
      openSitesCount := 0;
      new;
      CountTrueNone(openSites[1..n * n + 1]);
      NoOpenSiteNoLinks(n, openSites[..]);
    }

    /**
     * Marks the site open and unites it with the virtual node of its row (top
     * or bottom) and with each open neighbour; the forest then holds the
     * links of the new set of open sites.
     */
    method Open(row: int, col: int) returns (r: Result<()>)
      requires Valid()
      modifies this, openSites, unionFind, unionFind.id
      ensures Valid()
      ensures r.Ok? <==> InBounds(n, row, col)
      ensures !InBounds(n, row, col) ==>
        unchanged(this, openSites, unionFind, unionFind.id)
      ensures InBounds(n, row, col) ==>
        var t := GetTarget(n, row, col);
        openSites[..] == old(openSites[..])[t := true] &&
        openSitesCount == old(openSitesCount) + (if old(openSites[t]) then 0 else 1) &&
        unionFind.edges == old(unionFind.edges) + (if old(openSites[t]) then {} else OpenEdges(n, openSites[..], t))
      ensures forall i :: 0 <= i < openSites.Length && old(openSites[i]) ==> openSites[i]
    {
      var checked := ValidateArguments(n, row, col);
      if checked.IllegalArgument? {
        return IllegalArgument;
      }
      r := Ok(());

      var target := GetTarget(n, row, col);
      if openSites[target] {
        return;
      }

      ghost var before := openSites[..];
      ghost var edgesBefore := unionFind.edges;
      openSites[target] := true;
      openSitesCount := openSitesCount + 1;
      ghost var after := openSites[..];
      assert after == before[target := true];
      assert after[1..n * n + 1] == before[1..n * n + 1][target - 1 := true];
      CountTrueSet(before[1..n * n + 1], target - 1);
      LinksAfterOpen(n, before, target);

      UniteVirtual(target);
      ghost var edgesVirtual := unionFind.edges;
      UniteOpenNeighbours(target);
      assert openSites[..] == after;
      UnionsInTurn(edgesBefore, edgesVirtual, unionFind.edges,
        TopEdge(n, target) + BottomEdge(n, target), NeighbourEdges(n, after, target));
    }

    /** The unions with the virtual top and bottom nodes, for a site in the top or bottom row. */
    method UniteVirtual(target: int)
      requires n >= 1 && IsSite(n, target)
      requires unionFind.Valid() && unionFind.size == n * n + 2
      modifies unionFind, unionFind.id
      ensures unionFind.Valid()
      ensures unionFind.edges == old(unionFind.edges) + (TopEdge(n, target) + BottomEdge(n, target))
    {
      UniteIf(target <= n, 0, target);
      UniteIf(target > n * (n - 1), n * n + 1, target);
    }

    /** The four neighbour unions of `open`: each guard keeps the step on the board and in the row. */
    method UniteOpenNeighbours(target: int)
      requires n >= 1 && openSites.Length == n * n + 2 && IsSite(n, target)
      requires unionFind.Valid() && unionFind.size == n * n + 2
      modifies unionFind, unionFind.id
      ensures unionFind.Valid()
      ensures unionFind.edges == old(unionFind.edges) + NeighbourEdges(n, openSites[..], target)
    {
      ghost var edges0 := unionFind.edges;
      UniteSideways(target);
      ghost var edges1 := unionFind.edges;
      UniteVertical(target);
      UnionsInTurn(edges0, edges1, unionFind.edges,
        SidewaysEdges(n, openSites[..], target), VerticalEdges(n, openSites[..], target));
    }

    /** Unites the site with its open left and right neighbours within its row. */
    method UniteSideways(target: int)
      requires n >= 1 && openSites.Length == n * n + 2 && IsSite(n, target)
      requires unionFind.Valid() && unionFind.size == n * n + 2
      modifies unionFind, unionFind.id
      ensures unionFind.Valid()
      ensures unionFind.edges == old(unionFind.edges) + SidewaysEdges(n, openSites[..], target)
    {
      var left := (target - 1) % n != 0 && openSites[target - 1];
      var right := target % n != 0 && openSites[target + 1];
      ghost var edges0 := unionFind.edges;
      UniteIf(left, target - 1, target);
      ghost var edges1 := unionFind.edges;
      UniteIf(right, target + 1, target);
      UnionsInTurn(edges0, edges1, unionFind.edges,
        EdgeIf(left, target - 1, target), EdgeIf(right, target + 1, target));
    }

    /** Unites the site with its open neighbours above and below, within the board. */
    method UniteVertical(target: int)
      requires n >= 1 && openSites.Length == n * n + 2 && IsSite(n, target)
      requires unionFind.Valid() && unionFind.size == n * n + 2
      modifies unionFind, unionFind.id
      ensures unionFind.Valid()
      ensures unionFind.edges == old(unionFind.edges) + VerticalEdges(n, openSites[..], target)
    {
      var up := target - n > 0 && openSites[target - n];
      var down := target + n <= n * n && openSites[target + n];
      ghost var edges0 := unionFind.edges;
      UniteIf(up, target - n, target);
      ghost var edges1 := unionFind.edges;
      UniteIf(down, target + n, target);
      UnionsInTurn(edges0, edges1, unionFind.edges,
        EdgeIf(up, target - n, target), EdgeIf(down, target + n, target));
    }

    /** One guarded union: nothing happens when the guard fails. */
    method UniteIf(guard: bool, a: int, b: int)
      requires unionFind.Valid()
      requires guard ==> 0 <= a < unionFind.size && 0 <= b < unionFind.size
      modifies unionFind, unionFind.id
      ensures unionFind.Valid()
      ensures unionFind.edges == old(unionFind.edges) + EdgeIf(guard, a, b)
    {
      if guard {
        Unite(a, b);
      }
    }

    /**
     * Puts `a` and `b` in one component; `UnionFind.Union` says that no other
     * two components merge. Which root the forest keeps is decided by
     * comparing the current roots.
     */
    method Unite(a: int, b: int)
      requires unionFind.Valid() && 0 <= a < unionFind.size && 0 <= b < unionFind.size
      modifies unionFind, unionFind.id
      ensures unionFind.Valid()
      ensures unionFind.edges == old(unionFind.edges) + Pair(a, b)
      ensures unionFind.Find(a) == unionFind.Find(b)
    {
      var valueA := unionFind.Find(a);
      var valueB := unionFind.Find(b);
      if valueA < valueB {
        unionFind.Union(a, b);
      } else {
        unionFind.Union(b, a);
        assert Pair(b, a) == Pair(a, b);
      }
    }

    /** Reads one site; out-of-range coordinates throw. */
    method IsOpen(row: int, col: int) returns (r: Result<bool>)
      requires Valid()
      ensures r.Ok? <==> InBounds(n, row, col)
      ensures r.Ok? ==> r.value == openSites[GetTarget(n, row, col)]
    {
      var checked := ValidateArguments(n, row, col);
      if checked.IllegalArgument? {
        return IllegalArgument;
      }
      var target := GetTarget(n, row, col);
      return Ok(openSites[target]);
    }

    /**
     * A site is reported full when it shares a component with the top node,
     * that is, when the links of the open sites connect it to the top node.
     */
    method IsFull(row: int, col: int) returns (r: Result<bool>)
      requires Valid()
      ensures r.Ok? <==> InBounds(n, row, col)
      ensures r.Ok? ==> (r.value <==> Connected(Links(n, openSites[..]), 0, GetTarget(n, row, col)))
    {
      var checked := ValidateArguments(n, row, col);
      if checked.IllegalArgument? {
        return IllegalArgument;
      }
      var target := GetTarget(n, row, col);
      return Ok(unionFind.Find(0) == unionFind.Find(target));
    }

    /** The number of opened sites: the open cells other than the two virtual ones. */
    method NumberOfOpenSites() returns (count: int)
      requires Valid()
      ensures count == CountTrue(openSites[1..n * n + 1])
      ensures 0 <= count <= n * n
    {
      return openSitesCount;
    }

    /**
     * The grid percolates when the two virtual nodes share a component, which
     * by `OldGrid.PercolatesIffChain` is when open sites chain the top row to
     * the bottom row.
     */
    method Percolates() returns (b: bool)
      requires Valid()
      ensures b <==> Connected(Links(n, openSites[..]), 0, n * n + 1)
      ensures b <==> TopToBottomChain(n, openSites[..])
    {
      b := unionFind.Find(0) == unionFind.Find(n * n + 1);
      PercolatesIffChain(n, openSites[..]);
    }
  }

  /** `new Percolation(n)`: throws for `n < 1`, otherwise a board with every site closed. */
  method Create(n: int) returns (r: Result<Percolation>)
    ensures r.IllegalArgument? <==> n < 1
    ensures r.Ok? ==>
      fresh(r.value) && fresh(r.value.openSites) && fresh(r.value.unionFind) && fresh(r.value.unionFind.id) &&
      r.value.Valid() && r.value.n == n && r.value.openSitesCount == 0 &&
      r.value.unionFind.edges == {} &&
      forall t :: IsSite(n, t) ==> !r.value.openSites[t]
  {
    if n < 1 {
      return IllegalArgument;
    }
    var p := new Percolation(n);
    return Ok(p);
  }
}
