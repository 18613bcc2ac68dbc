/**
 * The percolation grid without virtual nodes: an n-by-n board of sites
 * opened one at a time, a forest over the n*n sites and a count of the
 * opened sites. `open` unites a new site with open sites one index or one
 * row away, so the forest is `CurrentGrid.Wired` to the open sites; `isFull`
 * and `percolates` do not consult the forest and always answer true.
 */
module PercolationCurrent {
  import opened Outcomes
  import opened Graph
  import opened Board
  import opened CurrentGrid
  import UnionFind

  class Percolation {
    const n: int
    const openSites: array<bool>
    const unionFind: UnionFind.UnionFind
    var openSitesCount: int

    ghost predicate Valid()
      reads this, openSites, unionFind, unionFind.id
    {
      n >= 1 &&
      openSites.Length == n * n &&
      unionFind.size == n * n &&
      unionFind.Valid() &&
      openSitesCount == CountTrue(openSites[..]) &&
      Wired(n, openSites[..], unionFind.edges)
    }

    /** Builds a closed board; `Create` is the entry point that rejects `n < 1`. */
    constructor (n: int)
      requires n >= 1
      ensures Valid() && fresh(openSites) && fresh(unionFind) && fresh(unionFind.id)
      ensures this.n == n && openSitesCount == 0 && unionFind.edges == {}
      ensures forall i :: 0 <= i < openSites.Length ==> !openSites[i]
    {
      this.n := n;
      unionFind := new UnionFind.UnionFind(n * n);
      openSites := new bool[n * n](_ => false);
      openSitesCount := 0;
      new;
      CountTrueNone(openSites[..]);
      NoOpenSiteNoBonds(n, openSites[..]);
    }

    /**
     * Marks the site open and unites it with the open sites the four guards
     * let through; the forest stays wired to the new set of open sites.
     */
    method Open(row: int, col: int) returns (r: Result<()>)
      requires Valid()
      modifies this, openSites, unionFind, unionFind.id
      ensures Valid()
      ensures r.Ok? <==> InBounds(n, row, col)
      ensures !InBounds(n, row, col) ==>
        unchanged(this, openSites, unionFind, unionFind.id)
      ensures InBounds(n, row, col) ==>
        var t := GetTarget(n, row, col);
        openSites[..] == old(openSites[..])[t := true] &&
        openSitesCount == old(openSitesCount) + (if old(openSites[t]) then 0 else 1) &&
        unionFind.edges == old(unionFind.edges) + (if old(openSites[t]) then {} else OpenEdges(n, openSites[..], t))
      ensures forall i :: 0 <= i < openSites.Length && old(openSites[i]) ==> openSites[i]
    {
      var checked := ValidateArguments(n, row, col);
      if checked.IllegalArgument? {
        return IllegalArgument;
      }
      r := Ok(());

      var target := GetTarget(n, row, col);
      if openSites[target] {
        return;
      }

      ghost var before := openSites[..];
      ghost var edgesBefore := unionFind.edges;
      openSites[target] := true;
      openSitesCount := openSitesCount + 1;
      ghost var after := openSites[..];
      assert after == before[target := true];
      CountTrueSet(before, target);

      ghost var edges0 := unionFind.edges;
      UniteSideways(target);
      ghost var edges1 := unionFind.edges;
      UniteVertical(target);
      assert openSites[..] == after;
      UnionsInTurn(edges0, edges1, unionFind.edges,
        SidewaysEdges(n, after, target), VerticalEdges(n, after, target));
      WiredAfterOpen(n, before, target, edgesBefore, unionFind.edges);
    }

    /** Unites the site with the open sites one index before and after it. */
    method UniteSideways(target: int)
      requires n >= 1 && openSites.Length == n * n && IsSite(n, target)
      requires unionFind.Valid() && unionFind.size == n * n
      modifies unionFind, unionFind.id
      ensures unionFind.Valid()
      ensures unionFind.edges == old(unionFind.edges) + SidewaysEdges(n, openSites[..], target)
    {
      var left := target > 0 && openSites[target - 1];
      var right := target < n * n - 1 && openSites[target + 1];
      ghost var edges0 := unionFind.edges;
      UniteIf(left, target - 1, target);
      ghost var edges1 := unionFind.edges;
      UniteIf(right, target + 1, target);
      UnionsInTurn(edges0, edges1, unionFind.edges,
        EdgeIf(left, target - 1, target), EdgeIf(right, target + 1, target));
    }

    /** Unites the site with the open sites one row before and after it. */
    method UniteVertical(target: int)
      requires n >= 1 && openSites.Length == n * n && IsSite(n, target)
      requires unionFind.Valid() && unionFind.size == n * n
      modifies unionFind, unionFind.id
      ensures unionFind.Valid()
      ensures unionFind.edges == old(unionFind.edges) + VerticalEdges(n, openSites[..], target)
    {
      var up := target - n > 0 && openSites[target - n];
      var down := target + n < n * n && openSites[target + n];
      ghost var edges0 := unionFind.edges;
      UniteIf(up, target - n, target);
      ghost var edges1 := unionFind.edges;
      UniteIf(down, target + n, target);
      UnionsInTurn(edges0, edges1, unionFind.edges,
        EdgeIf(up, target - n, target), EdgeIf(down, target + n, target));
    }

    /** One guarded union: nothing happens when the guard fails. */
    method UniteIf(guard: bool, a: int, b: int)
      requires unionFind.Valid()
      requires guard ==> 0 <= a < unionFind.size && 0 <= b < unionFind.size
      modifies unionFind, unionFind.id
      ensures unionFind.Valid()
      ensures unionFind.edges == old(unionFind.edges) + EdgeIf(guard, a, b)
    {
      if guard {
        Unite(a, b);
      }
    }

    /**
     * Puts `a` and `b` in one component; `UnionFind.Union` says that no other
     * two components merge. Which root the forest keeps is decided by
     * comparing the current roots.
     */
    method Unite(a: int, b: int)
      requires unionFind.Valid() && 0 <= a < unionFind.size && 0 <= b < unionFind.size
      modifies unionFind, unionFind.id
      ensures unionFind.Valid()
      ensures unionFind.edges == old(unionFind.edges) + Pair(a, b)
      ensures unionFind.Find(a) == unionFind.Find(b)
    {
      var valueA := unionFind.Find(a);
      var valueB := unionFind.Find(b);
      if valueA < valueB {
        unionFind.Union(a, b);
      } else {
        unionFind.Union(b, a);
        assert Pair(b, a) == Pair(a, b);
      }
    }

    /** Reads one site; out-of-range coordinates throw. */
    method IsOpen(row: int, col: int) returns (r: Result<bool>)
      requires Valid()
      ensures r.Ok? <==> InBounds(n, row, col)
      ensures r.Ok? ==> r.value == openSites[GetTarget(n, row, col)]
    {
      var checked := ValidateArguments(n, row, col);
      if checked.IllegalArgument? {
        return IllegalArgument;
      }
      var target := GetTarget(n, row, col);
      return Ok(openSites[target]);
    }

    /** Checks the coordinates and then reports every site full, open or not. */
    method IsFull(row: int, col: int) returns (r: Result<bool>)
      requires Valid()
      ensures r.Ok? <==> InBounds(n, row, col)
      ensures r.Ok? ==> r.value
    {
      var checked := ValidateArguments(n, row, col);
      if checked.IllegalArgument? {
        return IllegalArgument;
      }
      return Ok(true);
    }

    /** The number of opened sites. */
    method NumberOfOpenSites() returns (count: int)
      requires Valid()
      ensures count == CountTrue(openSites[..])
      ensures 0 <= count <= n * n
    {
      return openSitesCount;
    }

    /** Reports percolation whatever sites are open. */
    method Percolates() returns (b: bool)
      requires Valid()
      ensures b
    {
      return true;
    }
  }

  /** `new Percolation(n)`: throws for `n < 1`, otherwise a board with every site closed. */
  method Create(n: int) returns (r: Result<Percolation>)
    ensures r.IllegalArgument? <==> n < 1
    ensures r.Ok? ==>
      fresh(r.value) && fresh(r.value.openSites) && fresh(r.value.unionFind) && fresh(r.value.unionFind.id) &&
      r.value.Valid() && r.value.n == n && r.value.openSitesCount == 0 &&
      r.value.unionFind.edges == {} &&
      forall t :: IsSite(n, t) ==> !r.value.openSites[t]
  {
    if n < 1 {
      return IllegalArgument;
    }
    var p := new Percolation(n);
    return Ok(p);
  }
}
