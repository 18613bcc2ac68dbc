# Percolation grids, modelled in Dafny

The repository's `Percolation` class simulates percolation on an n-by-n board.
Sites start closed and are opened one at a time with `open(row, col)`
(coordinates run from 1 to n). A disjoint-set forest tracks which open sites
are connected. The other operations are:

- `isOpen` reports whether a site is open.
- `isFull` reports whether a site is connected to the top row.
- `numberOfOpenSites` counts the opened sites.
- `percolates` reports whether the top row is connected to the bottom row.

Coordinates outside the board throw `IllegalArgumentException` before any state
changes.

The repository holds two versions of the class. Each is modelled as its own class.

- **The virtual-node version** (`src/main/java/Percolation.old.java`):
  - Sites are numbered 1 to n*n, with a virtual top node 0 and a virtual bottom node n*n+1.
  - `open` unites a site of the first row with the top node and a site of the last row with the bottom node.
  - It also unites the site with each open neighbour. The neighbour guards stop at row ends and at the board's edge.
  - `percolates` compares the roots of the two virtual nodes; `isFull` compares a site's root with the top node's root.
- **The current version** (`src/main/java/Percolation.java`):
  - Sites are numbered 0 to n*n-1 and there are no virtual nodes.
  - `open` unites the new site with open sites one index or one row away. Its guards keep the index on the board, so they let steps across a row end through. The guard `target - n > 0` also drops the step from index n up to index 0, which is on the board.
  - `isFull` and `percolates` always answer true.

## How the model is built

- `Outcomes` models an exception as the `IllegalArgument` case of a `Result`.
- `Board` holds what both versions share:
  - the argument check and the row-major layout;
  - the adjacency of cells that share a side;
  - the number of open cells.
- `Graph` defines undirected connectivity over a set of edges.
- `UnionFind.UnionFind` is the forest, as a component-label array. Its ghost field `edges` records every union performed. Its invariant says that two elements have the same label exactly when those edges connect them. This stands in for the library's `WeightedQuickUnionUF`, whose source is not part of this model.
- `OldGrid` gives the virtual-node version's state a meaning:
  - `Links` is every link the forest should hold: open sites that share a side, open top-row sites with node 0, and open bottom-row sites with node n*n+1.
  - The class invariant says the forest's edges are exactly `Links` of the open cells. So the forest's edge set, and therefore which sites share a component, depends only on the set of open sites (`LinksAfterOpen`). The component labels themselves can depend on the order, because `unite` picks which root survives by comparing the current roots.
  - `percolates` answers whether a chain of open sites joins the top row to the bottom row (`PercolatesIffChain`).
  - `isFull` is true for every open top-row site and false for every closed site.
  - It is also true for some sites that no chain of open sites joins to the top row. This is backwash: the third column percolates, and site (3, 1) reaches the top through the bottom node (`OldScenarios.Backwash`). The test `doesNotBackwash` expects the opposite answer.
- `CurrentGrid` does the same for the current version:
  - `Bonds` holds the pairs of open sites whose indexes differ by 1 or n.
  - The class invariant `Wired` says the forest holds only bonds, and every bond except possibly the one between index 0 and index n.
  - `GuardsAllowNear` says what the guards let through.
  - `RowEndsJoined` and `OpenedInTurn` show that the last site of a row and the first site of the next row are united.
  - `TopLeftOrderMatters` shows that sites (1, 1) and (2, 1) are united only when (1, 1) is opened second.
  - The tests that compare roots after such opens compare against a closed site, so they pass anyway (`CurrentScenarios.RowWrapAboveScenario`).
- `OldScenarios` and `CurrentScenarios` replay the repository's tests on boards of the sizes the tests use, and state the answers each version gives.

## Model

| member | source | states |
|---|---|---|
| `Board.ValidateArguments` | src/main/java/Percolation.java:55-60 | The check passes exactly for 1 <= row <= n and 1 <= col <= n, and otherwise fails with an illegal-argument error. Both versions run the same four tests (src/main/java/Percolation.old.java:65-70). |
| `Board.GuardMeanings` | src/main/java/Percolation.old.java:28-50 | Each index test a guard makes reads as a statement about the cell's row or column. Column > 1 iff `(k) % n != 0`, column < n iff `(k+1) % n != 0`, row > 1 iff `k - n >= 0`, and so on for the last row and for the top and bottom rows. |
| `Board.CountTrueNone` | src/main/java/Percolation.java:8 | A board with no open cell has count 0, the counter's initial value. |
| `Board.CountTrueSet` | src/main/java/Percolation.java:21-24 | Setting one cell raises the number of true cells by one, unless the cell was already true. |
| `UnionFind.UnionFind.constructor` | src/main/java/Percolation.old.java:13 | A fresh forest of the given size, with no unions and every element its own representative. |
| `UnionFind.UnionFind.Find` | src/main/java/Percolation.old.java:55-56 | The representative is in range, is a root, and is connected to the element by the unions performed so far. |
| `UnionFind.UnionFind.Union` | src/main/java/Percolation.old.java:59-61 | Adds the edge between p and q. Afterwards p and q share a representative. Two elements share one exactly when they did before, or one was with p and the other with q: no other classes merge. |
| `OldGrid.GetTarget` | src/main/java/Percolation.old.java:85-87 | An in-bounds cell maps to a site index in 1..n*n, never the virtual 0 or n*n+1. |
| `OldGrid.GetTargetRoundTrip` | src/main/java/Percolation.old.java:85-87 | The row and column of a cell's index are the cell's own, so distinct cells get distinct indexes. |
| `OldGrid.GetTargetOnto` | src/main/java/Percolation.old.java:85-87 | Every index 1..n*n is the index of some in-bounds cell, so the mapping is a bijection. |
| `OldGrid.LinksMember` | src/main/java/Percolation.old.java:28-50 | The intended links are exactly: open sites sharing a side, the top node with open first-row sites, and the bottom node with open last-row sites. |
| `OldGrid.NoOpenSiteNoLinks` | src/main/java/Percolation.old.java:13-16 | A board with no open site has no links, matching the fresh forest. |
| `OldGrid.NeighbourEdgesMember` | src/main/java/Percolation.old.java:36-50 | The four guarded neighbour unions join t with an index v exactly when a guard lets v through and v is open. |
| `OldGrid.NeighbourGuards` | src/main/java/Percolation.old.java:36-50 | The four guards let through exactly the sites that share a side with t: none crosses a row end or leaves the board. |
| `OldGrid.RowGuards` | src/main/java/Percolation.old.java:28-34 | `target <= n` holds exactly on the first row and `target > n*(n-1)` exactly on the last row. |
| `OldGrid.TopLink` | src/main/java/Percolation.old.java:28-30 | An open site that passes the index test `target <= n` is linked to the top node. |
| `OldGrid.BottomLink` | src/main/java/Percolation.old.java:32-34 | An open site that passes the index test `target > n*(n-1)` is linked to the bottom node, in both orientations. |
| `OldGrid.GuardedLink` | src/main/java/Percolation.old.java:36-50 | Two open sites that one of the four neighbour guards lets through are linked, in both orientations. |
| `OldGrid.SiteLinksAfterOpen` | src/main/java/Percolation.old.java:36-50 | Opening a closed site adds to the side-sharing links exactly the guarded neighbour unions. |
| `OldGrid.TopLinksAfterOpen` | src/main/java/Percolation.old.java:28-30 | Opening a closed site adds to the top-node links exactly the union with node 0 that `open` makes. |
| `OldGrid.BottomLinksAfterOpen` | src/main/java/Percolation.old.java:32-34 | Opening a closed site adds to the bottom-node links exactly the union with node n*n+1 that `open` makes. |
| `OldGrid.LinksAfterOpen` | src/main/java/Percolation.old.java:25-50 | Opening a closed site adds to the intended links exactly the unions `open` performs. So the forest's edge set, and therefore which sites share a component, depends only on the set of open sites. |
| `OldGrid.PercolatesIffChain` | src/main/java/Percolation.old.java:95-97 | The two virtual nodes are connected iff a chain of open side-sharing sites joins an open first-row site to an open last-row site. |
| `OldGrid.FedSiteIsFull` | src/main/java/Percolation.old.java:78-83 | A site joined to an open first-row site by open side-sharing sites is connected to the top node. |
| `OldGrid.OpenTopSiteIsFull` | src/main/java/Percolation.old.java:78-83 | An open first-row site is always connected to the top node. |
| `OldGrid.ClosedSiteIsAlone` | src/main/java/Percolation.old.java:78-83 | A closed site is connected to nothing else, so it is never full. |
| `PercolationOld.Create` | src/main/java/Percolation.old.java:10-17 | `new Percolation(n)` fails with an illegal-argument error exactly when n < 1. Otherwise it gives a valid board with count 0, no unions and every real site closed. |
| `PercolationOld.Percolation.constructor` | src/main/java/Percolation.old.java:12-16 | A forest of n*n+2 elements and n*n+2 cells, with only the virtual cells 0 and n*n+1 open and the count 0. |
| `PercolationOld.Percolation.Open` | src/main/java/Percolation.old.java:19-52 | Out-of-range coordinates fail and change nothing. Otherwise the cell is set and nothing else. The count rises by one unless the site was open. If the site was closed, the forest gains exactly the unions `OpenEdges` lists, and the edges stay equal to `Links` of the open cells. Cells never close again. |
| `PercolationOld.Percolation.UniteVirtual` | src/main/java/Percolation.old.java:28-34 | Adds the union with the top node for a first-row site and with the bottom node for a last-row site. |
| `PercolationOld.Percolation.UniteOpenNeighbours` | src/main/java/Percolation.old.java:36-50 | Adds exactly the four guarded neighbour unions. |
| `PercolationOld.Percolation.UniteSideways` | src/main/java/Percolation.old.java:36-42 | Adds the left and right unions that the row-end guards and the open cells allow. |
| `PercolationOld.Percolation.UniteVertical` | src/main/java/Percolation.old.java:44-50 | Adds the up and down unions that the board-edge guards and the open cells allow. |
| `PercolationOld.Percolation.UniteIf` | src/main/java/Percolation.old.java:36-38 | A guarded union adds the pair when the guard holds and nothing otherwise. |
| `PercolationOld.Percolation.Unite` | src/main/java/Percolation.old.java:54-63 | Whichever root order is taken, the forest gains the edge between a and b and they share a representative. |
| `PercolationOld.Percolation.IsOpen` | src/main/java/Percolation.old.java:72-76 | Fails exactly for out-of-range coordinates; otherwise returns the cell of the site. |
| `PercolationOld.Percolation.IsFull` | src/main/java/Percolation.old.java:78-83 | Fails exactly for out-of-range coordinates; otherwise true iff the links of the open cells connect the top node to the site. |
| `PercolationOld.Percolation.NumberOfOpenSites` | src/main/java/Percolation.old.java:90-92 | The count is the number of open cells among the real sites 1..n*n, leaving out the two virtual cells, and lies in 0..n*n. |
| `PercolationOld.Percolation.Percolates` | src/main/java/Percolation.old.java:95-97 | True iff the links connect the two virtual nodes, and so iff a chain of open sites joins the top row to the bottom row. |
| `CurrentGrid.GetTarget` | src/main/java/Percolation.java:74-76 | An in-bounds cell maps to an index in 0..n*n-1. |
| `CurrentGrid.GetTargetRoundTrip` | src/main/java/Percolation.java:74-76 | The row and column of a cell's index are the cell's own, so distinct cells get distinct indexes. |
| `CurrentGrid.GetTargetOnto` | src/main/java/Percolation.java:74-76 | Every index 0..n*n-1 is the index of some in-bounds cell. |
| `CurrentGrid.ClosedSiteIsAlone` | src/main/java/Percolation.java:26-40 | Every union joins two open sites, so a closed site is connected to no other site. |
| `CurrentGrid.NoOpenSiteNoBonds` | src/main/java/Percolation.java:13-14 | A board with no open site has no bonds, so the fresh forest is wired to it. |
| `CurrentGrid.GuardsAllowNear` | src/main/java/Percolation.java:26-40 | The four guards let through every index on the board one index or one row away. The one exception is index 0 from index n (`target - n > 0`). Indexes across a row end are let through. |
| `CurrentGrid.OpenEdgesMember` | src/main/java/Percolation.java:26-40 | The unions of `open` join t with v exactly when a guard lets v through and v is open. |
| `CurrentGrid.WiredAfterOpen` | src/main/java/Percolation.java:23-40 | Opening a closed site keeps the forest within the bonds of the open cells, holding all of them except possibly the one between index 0 and index n. |
| `CurrentGrid.RowEndsJoined` | src/main/java/Percolation.java:26-32 | For n >= 2 the last site of a row and the first site of the next row are not adjacent. Yet opening either while the other is open unites them. |
| `CurrentGrid.TopLeftOrderMatters` | src/main/java/Percolation.java:34-40 | Sites 0 and n are adjacent. Opening n never unites it with 0, while opening 0 unites it with n exactly when n is open. |
| `CurrentGrid.OpenedInTurn` | src/main/java/Percolation.java:26-40 | Opening a and then b on a closed board adds the pair (a, b) when the guards let a through for b, and no union otherwise. |
| `PercolationCurrent.Create` | src/main/java/Percolation.java:10-15 | `new Percolation(n)` fails with an illegal-argument error exactly when n < 1. Otherwise it gives a valid board with count 0, no unions and every site closed. |
| `PercolationCurrent.Percolation.constructor` | src/main/java/Percolation.java:12-14 | A forest of n*n elements, n*n closed cells and count 0. |
| `PercolationCurrent.Percolation.Open` | src/main/java/Percolation.java:17-42 | Out-of-range coordinates fail and change nothing. Otherwise the cell is set and nothing else. The count rises by one unless the site was open. If the site was closed, the forest gains exactly the four guarded unions `OpenEdges` lists and stays wired to the open cells. Cells never close again. |
| `PercolationCurrent.Percolation.UniteSideways` | src/main/java/Percolation.java:26-32 | Adds the unions with the open sites one index before and after, guarded only by the board's bounds. |
| `PercolationCurrent.Percolation.UniteVertical` | src/main/java/Percolation.java:34-40 | Adds the unions with the open sites one row before and after, under `target - n > 0` and `target + n < n*n`. |
| `PercolationCurrent.Percolation.UniteIf` | src/main/java/Percolation.java:26-28 | A guarded union adds the pair when the guard holds and nothing otherwise. |
| `PercolationCurrent.Percolation.Unite` | src/main/java/Percolation.java:44-53 | Whichever root order is taken, the forest gains the edge between a and b and they share a representative. |
| `PercolationCurrent.Percolation.IsOpen` | src/main/java/Percolation.java:62-66 | Fails exactly for out-of-range coordinates; otherwise returns the cell of the site. |
| `PercolationCurrent.Percolation.IsFull` | src/main/java/Percolation.java:68-72 | Fails exactly for out-of-range coordinates; otherwise answers true, open or closed. |
| `PercolationCurrent.Percolation.NumberOfOpenSites` | src/main/java/Percolation.java:79-81 | The count is the number of open cells and lies in 0..n*n. |
| `PercolationCurrent.Percolation.Percolates` | src/main/java/Percolation.java:84-86 | Answers true whatever is open. |
| `OldScenarios.ZeroSideScenario` | src/test/java/PercolationTest.java:40-43 | A side of 0 is refused. |
| `OldScenarios.FreshBoardScenario` | src/test/java/PercolationTest.java:34-38 | A fresh 10-by-10 board has count 0 and site (10, 10) closed. |
| `OldScenarios.OutOfBoundsScenario` | src/test/java/PercolationTest.java:162-184 | `open(0, 3)`, `isOpen(4, 3)` and `isFull(3, 0)` fail, and the count stays 0. |
| `OldScenarios.Backwash` | src/test/java/PercolationTest.java:70-79 | With sites 3, 4, 6, 7 and 9 open on a 3-by-3 board, the links connect the top node to the bottom node and to site 7. Yet no chain of open sites joins site 7 to the top row. |
| `OldScenarios.BackwashScenario` | src/test/java/PercolationTest.java:70-79 | After the test's five opens `isFull(3, 1)` answers true, not the false the test expects, and the grid percolates. |
| `OldScenarios.ColumnShortOfBottomScenario` | src/test/java/PercolationTest.java:59-67 | Five sites down the last column of a 6-by-6 board do not percolate. |
| `OldScenarios.MiddleScenario` | src/test/java/PercolationTest.java:82-87 | Sites (1, 2) and (2, 2) open: the grid does not percolate and (2, 2) is full, as `isFullIfThereAPathBetweenTopVirtualNodeAndTargetSite` (lines 148-153) also expects. |
| `OldScenarios.ColumnScenario` | src/test/java/PercolationTest.java:90-96 | The whole middle column open: the grid percolates. |
| `OldScenarios.SingleSiteScenario` | src/test/java/PercolationTest.java:99-103 | A 1-by-1 board with its site open percolates: the site is linked to both virtual nodes. |
| `OldScenarios.FourSitesScenario` | src/test/java/PercolationTest.java:106-113 | Opening (2, 2), (1, 1) and (1, 2) on a 2-by-2 board makes it percolate. |
| `OldScenarios.NotFullScenario` | src/test/java/PercolationTest.java:119-123 | With only (2, 1) open on a 2-by-2 board, that site is not full. |
| `OldScenarios.TopCornerScenario` | src/test/java/PercolationTest.java:126-130 | An open first-row site is full. |
| `OldScenarios.FullBelowTopScenario` | src/test/java/PercolationTest.java:133-138 | After opening (1, 1) and then (2, 1), site (2, 1) is full. |
| `OldScenarios.CountScenario` | src/test/java/PercolationTest.java:311-323 | Opening (1, 1) gives count 1, and opening it again keeps count 1. |
| `CurrentScenarios.SameComponent` | src/test/java/PercolationTest.java:19-29 | Comparing two sites' representatives, as the tests do through reflection, answers whether the unions so far connect them. |
| `CurrentScenarios.ZeroSideScenario` | src/test/java/PercolationTest.java:40-43 | A side of 0 is refused. |
| `CurrentScenarios.FreshBoardScenario` | src/test/java/PercolationTest.java:34-38 | A fresh 10-by-10 board has count 0 and site (10, 10) closed. |
| `CurrentScenarios.OutOfBoundsScenario` | src/test/java/PercolationTest.java:284-305 | `open(4, 3)`, `isOpen(0, 3)` and `isFull(3, 4)` fail, and the count stays 0. |
| `CurrentScenarios.LeftNeighbourScenario` | src/test/java/PercolationTest.java:230-236 | Opening (2, 3) and then (2, 2) unites sites 4 and 5. |
| `CurrentScenarios.RightNeighbourScenario` | src/test/java/PercolationTest.java:239-245 | Opening (2, 1) and then (2, 2) unites sites 4 and 3. |
| `CurrentScenarios.UpperNeighbourScenario` | src/test/java/PercolationTest.java:248-254 | Opening (1, 2) and then (2, 2) unites sites 4 and 1. |
| `CurrentScenarios.LowerNeighbourScenario` | src/test/java/PercolationTest.java:257-263 | Opening (3, 2) and then (2, 2) unites sites 4 and 7. |
| `CurrentScenarios.RowWrapAboveScenario` | src/test/java/PercolationTest.java:266-272 | After opening (1, 3) and then (2, 1), sites 4 and 3 are apart, as the test expects. Sites 2 and 3, the ends of two rows, are united. |
| `CurrentScenarios.RowWrapBelowScenario` | src/test/java/PercolationTest.java:275-281 | After opening (3, 1) and then (2, 3), sites 7 and 6 are apart, as the test expects. Sites 5 and 6 are united across the row break. |
| `CurrentScenarios.TopLeftOrderScenario` | src/test/java/PercolationTest.java:133-138 | Opening (1, 1) and then (2, 1), the opens of this test, leaves sites 0 and 3 apart. The other order unites them. |
| `CurrentScenarios.StubAnswersScenario` | src/test/java/PercolationTest.java:119-123 | With only (2, 1) open on a 2-by-2 board, the grid is reported to percolate. Site (2, 1) is reported full, against the test, and so is the closed site (1, 2). |
| `CurrentScenarios.CountScenario` | src/test/java/PercolationTest.java:311-323 | Opening (1, 1) gives count 1, and opening it again keeps count 1. |

## Left out

- `PercolationOld.Percolation.constructor`: requires `n >= 1`, because a Dafny constructor cannot fail. The throw for `n < 1` is modelled by `PercolationOld.Create`, which every client uses to build a board from an arbitrary n.
- `PercolationCurrent.Percolation.constructor`: requires `n >= 1` for the same reason. `PercolationCurrent.Create` models the throw.
- `UnionFind.UnionFind.Find`: the library's weighting by size, path compression and amortised cost are not modelled. The forest is a component-label array with the same connectivity contract, and `Find` reads the label without changing the forest. Which root survives a union, which `unite` steers by comparing roots, does not affect connectivity and is not tracked.
- Java's 32-bit `int` arithmetic is not modelled: `n * n`, `n * n + 2` and the site indexes are unbounded integers, so overflow for very large n is outside the model.
- The empty `main` methods of both files have nothing to model.
- The tests that read the board from resource files (src/test/java/PercolationTest.java:49-56 and :187-190) are not replayed: the files `input6.txt` and `input20.txt` and their loader are not part of this model.
- The reflection that reaches the forest in the tests is replaced by `CurrentScenarios.SameComponent`, which reads the forest field directly.
- The old-version tests of `isFull` on a 6-by-6 board (src/test/java/PercolationTest.java:156-160) and on a top-row site of a 3-by-3 board (:141-145) are covered by `OldGrid.OpenTopSiteIsFull` rather than replayed.
- A variant of the grid without backwash, such as one with a second forest that has no bottom node, is not in the repository and is not modelled.
