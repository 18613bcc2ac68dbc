/**
 * Runs of the virtual-node grid taken from the repository's tests. Each
 * `...Board` method opens the sites a test opens and states the cells that
 * are then open; each `...Scenario` method queries that board and states
 * the answers; the lemmas say what the links of those cells connect.
 */
module OldScenarios {
  import opened Outcomes
  import opened Graph
  import opened Board
  import opened OldGrid
  import opened PercolationOld

  /** `new Percolation(0)` throws. */
  method ZeroSideScenario() returns (r: Result<Percolation>)
    ensures r == IllegalArgument
  {
    r := Create(0);
  }

  /** A fresh 10-by-10 board has no open site, and its far corner is closed. */
  method FreshBoardScenario() returns (count: int, corner: Result<bool>)
    ensures count == 0 && corner == Ok(false)
  {
    var board := new Percolation(10);
    count := board.NumberOfOpenSites();
    corner := board.IsOpen(10, 10);
  }

  /** Coordinates outside the board throw from every query and from `open`, and leave the board closed. */
  method OutOfBoundsScenario() returns (openResult: Result<()>, isOpen: Result<bool>, isFull: Result<bool>, count: int)
    ensures openResult == IllegalArgument && isOpen == IllegalArgument && isFull == IllegalArgument
    ensures count == 0
  {
    var board := new Percolation(3);
    openResult := board.Open(0, 3);
    isOpen := board.IsOpen(4, 3);
    isFull := board.IsFull(3, 0);
    count := board.NumberOfOpenSites();
  }

  /** The cells of the `doesNotBackwash` board, from the cells of the closed board. */
  lemma BackwashCells(closed: seq<bool>, open: seq<bool>)
    requires closed == [true, false, false, false, false, false, false, false, false, false, true]
    requires open == closed[4 := true][3 := true][6 := true][7 := true][9 := true]
    ensures open == [true, false, false, true, true, false, true, true, false, true, true]
  {
  }

  /** Opens (2, 1), (1, 3), (2, 3), (3, 1) and (3, 3) on a 3-by-3 board. */
  method BackwashBoard() returns (board: Percolation)
    ensures fresh(board) && board.Valid() && board.n == 3
    ensures board.openSites[..] == [true, false, false, true, true, false, true, true, false, true, true]
  {
    board := new Percolation(3);
    ghost var closed := board.openSites[..];
    assert closed == [true, false, false, false, false, false, false, false, false, false, true];
    var r := board.Open(2, 1);
    r := board.Open(1, 3);
    r := board.Open(2, 3);
    r := board.Open(3, 1);
    r := board.Open(3, 3);
    BackwashCells(closed, board.openSites[..]);
  }

  /** The links of the backwash board that lead from the top node down the third column. */
  lemma BackwashColumnEdges(open: seq<bool>)
    requires open == [true, false, false, true, true, false, true, true, false, true, true]
    ensures (0, 3) in Links(3, open) && (3, 6) in Links(3, open) && (6, 9) in Links(3, open)
  {
    assert (0, 3) in Links(3, open) by {
      TopLink(3, open, 3);
    }
    assert (3, 6) in Links(3, open) by {
      GuardedLink(3, open, 3, 6);
    }
    assert (6, 9) in Links(3, open) by {
      GuardedLink(3, open, 6, 9);
    }
  }

  /** The links of the backwash board through the bottom node, from site 9 and back up to site 7. */
  lemma BackwashBottomEdges(open: seq<bool>)
    requires open == [true, false, false, true, true, false, true, true, false, true, true]
    ensures (9, 10) in Links(3, open) && (10, 7) in Links(3, open)
  {
    assert (9, 10) in Links(3, open) by {
      BottomLink(3, open, 9);
    }
    assert (10, 7) in Links(3, open) by {
      BottomLink(3, open, 7);
    }
  }

  /** On the backwash board the top node reaches the bottom node, and through it site 7. */
  lemma BackwashLinks(open: seq<bool>)
    requires open == [true, false, false, true, true, false, true, true, false, true, true]
    ensures Connected(Links(3, open), 0, 10)
    ensures Connected(Links(3, open), 0, 7)
  {
    BackwashColumnEdges(open);
    BackwashBottomEdges(open);
    Walk(Links(3, open), 0, 3, 6, 9, 10);
    ConnectedStep(Links(3, open), 0, 10, 7);
  }

  /** On the backwash board no chain of open sites joins site 7 to the top row. */
  lemma BackwashNotFed(open: seq<bool>)
    requires open == [true, false, false, true, true, false, true, true, false, true, true]
    ensures !FedFromTop(3, open, 7)
  {
    var sites := SiteLinks(3, open);
    LinksSymmetric(3, open);
    forall u, v | (u, v) in sites && u in {4, 7}
      ensures v in {4, 7}
    {
      SiteLinksMember(3, open, u, v);
      NeighbourGuards(3, u, v);
    }
    ClosedSetUnreachable(sites, {4, 7}, 7, 3);
    forall s | TopSite(3, open, s)
      ensures !Connected(sites, s, 7)
    {
      assert s == 3;
      if Connected(sites, s, 7) {
        ConnectedSym(sites, s, 7);
      }
    }
  }

  /**
   * Backwash on the 3-by-3 board with sites 3, 4, 6, 7 and 9 open: the top
   * node reaches the bottom node down the third column, and from there site 7
   * (row 3, column 1), although no chain of open sites joins site 7 to the
   * top row.
   */
  lemma Backwash(open: seq<bool>)
    requires open == [true, false, false, true, true, false, true, true, false, true, true]
    ensures Connected(Links(3, open), 0, 10)
    ensures Connected(Links(3, open), 0, 7) && !FedFromTop(3, open, 7)
  {
    BackwashLinks(open);
    BackwashNotFed(open);
  }

  /** `doesNotBackwash`: site (3, 1) is reported full, unlike the test's expectation, and the grid percolates. */
  method BackwashScenario() returns (full: Result<bool>, percolates: bool)
    ensures full == Ok(true) && percolates
  {
    var board := BackwashBoard();
    Backwash(board.openSites[..]);
    full := board.IsFull(3, 1);
    percolates := board.Percolates();
  }

  /** Opens a site of the last column above the bottom row of a 6-by-6 board; the bottom row stays closed. */
  method OpenAboveBottom(board: Percolation, row: int)
    requires board.Valid() && board.n == 6 && 1 <= row <= 5
    requires forall b :: 31 <= b <= 36 ==> !board.openSites[b]
    modifies board, board.openSites, board.unionFind, board.unionFind.id
    ensures board.Valid() && board.n == 6
    ensures forall b :: 31 <= b <= 36 ==> !board.openSites[b]
  {
    var r := board.Open(row, 6);
  }

  /** Opens (1, 6) to (5, 6) on a 6-by-6 board: the bottom row stays closed. */
  method ColumnShortOfBottomBoard() returns (board: Percolation)
    ensures fresh(board) && board.Valid() && board.n == 6
    ensures forall b :: 31 <= b <= 36 ==> !board.openSites[b]
  {
    board := new Percolation(6);
    OpenAboveBottom(board, 1);
    OpenAboveBottom(board, 2);
    OpenAboveBottom(board, 3);
    OpenAboveBottom(board, 4);
    OpenAboveBottom(board, 5);
  }

  /** `passesInput6TestCase`: five sites down the last column stop one row short of the bottom. */
  method ColumnShortOfBottomScenario() returns (percolates: bool)
    ensures !percolates
  {
    var board := ColumnShortOfBottomBoard();
    forall b | BottomSite(6, board.openSites[..], b)
      ensures false
    {
      RowGuards(6, b);
    }
    percolates := board.Percolates();
  }

  lemma MiddleCells(closed: seq<bool>, open: seq<bool>)
    requires closed == [true, false, false, false, false, false, false, false, false, false, true]
    requires open == closed[2 := true][5 := true]
    ensures open == [true, false, true, false, false, true, false, false, false, false, true]
  {
  }

  /** Opens (1, 2) and (2, 2) on a 3-by-3 board. */
  method MiddleBoard() returns (board: Percolation)
    ensures fresh(board) && fresh(board.openSites) && fresh(board.unionFind) && fresh(board.unionFind.id)
    ensures board.Valid() && board.n == 3
    ensures board.openSites[..] == [true, false, true, false, false, true, false, false, false, false, true]
  {
    board := new Percolation(3);
    ghost var closed := board.openSites[..];
    assert closed == [true, false, false, false, false, false, false, false, false, false, true];
    var r := board.Open(1, 2);
    r := board.Open(2, 2);
    MiddleCells(closed, board.openSites[..]);
  }

  /** On the board with sites 2 and 5 open, the top node reaches site 5 but no open site is in the bottom row. */
  lemma MiddleReach(open: seq<bool>)
    requires open == [true, false, true, false, false, true, false, false, false, false, true]
    ensures Connected(Links(3, open), 0, 5)
    ensures !TopToBottomChain(3, open)
  {
    forall b | BottomSite(3, open, b)
      ensures false
    {
      RowGuards(3, b);
    }
    TopLink(3, open, 2);
    GuardedLink(3, open, 2, 5);
    ConnectedEdge(Links(3, open), 0, 2);
    ConnectedStep(Links(3, open), 0, 2, 5);
  }

  /**
   * `doesNotPercolateIfThereIsNotAPathBetweenTopAndBottomVirtualNode` and
   * `isFullIfThereAPathBetweenTopVirtualNodeAndTargetSite`: two sites down the
   * middle column do not reach the bottom row, and the lower one is full.
   */
  method MiddleScenario() returns (percolates: bool, full: Result<bool>)
    ensures !percolates
    ensures full == Ok(true)
  {
    var board := MiddleBoard();
    MiddleReach(board.openSites[..]);
    percolates := board.Percolates();
    full := board.IsFull(2, 2);
  }

  lemma ColumnCells(two: seq<bool>, open: seq<bool>)
    requires two == [true, false, true, false, false, true, false, false, false, false, true]
    requires open == two[8 := true]
    ensures open == [true, false, true, false, false, true, false, false, true, false, true]
  {
  }

  /** Opens (1, 2), (2, 2) and (3, 2) on a 3-by-3 board. */
  method ColumnBoard() returns (board: Percolation)
    ensures fresh(board) && board.Valid() && board.n == 3
    ensures board.openSites[..] == [true, false, true, false, false, true, false, false, true, false, true]
  {
    board := MiddleBoard();
    ghost var two := board.openSites[..];
    var r := board.Open(3, 2);
    ColumnCells(two, board.openSites[..]);
  }

  /** The links of the middle column, from the top node to the bottom node. */
  lemma ColumnEdges(open: seq<bool>)
    requires open == [true, false, true, false, false, true, false, false, true, false, true]
    ensures (0, 2) in Links(3, open) && (2, 5) in Links(3, open)
    ensures (5, 8) in Links(3, open) && (8, 10) in Links(3, open)
  {
    TopLink(3, open, 2);
    GuardedLink(3, open, 2, 5);
    GuardedLink(3, open, 5, 8);
    BottomLink(3, open, 8);
  }

  /** The open middle column chains the top node to the bottom node. */
  lemma ColumnReach(open: seq<bool>)
    requires open == [true, false, true, false, false, true, false, false, true, false, true]
    ensures Connected(Links(3, open), 0, 10)
  {
    ColumnEdges(open);
    Walk(Links(3, open), 0, 2, 5, 8, 10);
  }

  /** `percolatesIfThereIsAPathBetweenTopAndBottomVirtualNode`: the whole middle column joins top and bottom. */
  method ColumnScenario() returns (percolates: bool)
    ensures percolates
  {
    var board := ColumnBoard();
    ColumnReach(board.openSites[..]);
    percolates := board.Percolates();
  }

  lemma SingleSiteCells(closed: seq<bool>, open: seq<bool>)
    requires closed == [true, false, true] && open == closed[1 := true]
    ensures open == [true, true, true]
  {
  }

  /** Opens the only site of a 1-by-1 board. */
  method SingleSiteBoard() returns (board: Percolation)
    ensures fresh(board) && board.Valid() && board.n == 1
    ensures board.openSites[..] == [true, true, true]
  {
    board := new Percolation(1);
    ghost var closed := board.openSites[..];
    assert closed == [true, false, true];
    var r := board.Open(1, 1);
    SingleSiteCells(closed, board.openSites[..]);
  }

  /** The only site of a 1-by-1 board, once open, joins the top node to the bottom node. */
  lemma SingleSiteReach(open: seq<bool>)
    requires open == [true, true, true]
    ensures Connected(Links(1, open), 0, 2)
  {
    TopLink(1, open, 1);
    BottomLink(1, open, 1);
    ConnectedEdge(Links(1, open), 0, 1);
    ConnectedStep(Links(1, open), 0, 1, 2);
  }

  /** `percolatesWithSingleSite`: a 1-by-1 board percolates once its only site is open. */
  method SingleSiteScenario() returns (percolates: bool)
    ensures percolates
  {
    var board := SingleSiteBoard();
    SingleSiteReach(board.openSites[..]);
    percolates := board.Percolates();
  }

  lemma FourSitesCells(closed: seq<bool>, open: seq<bool>)
    requires closed == [true, false, false, false, false, true]
    requires open == closed[4 := true][1 := true][2 := true]
    ensures open == [true, true, true, false, true, true]
  {
  }

  /** Opens (2, 2), (1, 1) and (1, 2) on a 2-by-2 board. */
  method FourSitesBoard() returns (board: Percolation)
    ensures fresh(board) && board.Valid() && board.n == 2
    ensures board.openSites[..] == [true, true, true, false, true, true]
  {
    board := new Percolation(2);
    ghost var closed := board.openSites[..];
    assert closed == [true, false, false, false, false, true];
    var r := board.Open(2, 2);
    r := board.Open(1, 1);
    r := board.Open(1, 2);
    FourSitesCells(closed, board.openSites[..]);
  }

  /** The links of the right column of the 2-by-2 board, from the top node to the bottom node. */
  lemma FourSitesEdges(open: seq<bool>)
    requires open == [true, true, true, false, true, true]
    ensures (0, 2) in Links(2, open) && (2, 4) in Links(2, open) && (4, 5) in Links(2, open)
  {
    TopLink(2, open, 2);
    GuardedLink(2, open, 2, 4);
    BottomLink(2, open, 4);
  }

  /** The right column of the 2-by-2 board chains the top node to the bottom node. */
  lemma FourSitesReach(open: seq<bool>)
    requires open == [true, true, true, false, true, true]
    ensures Connected(Links(2, open), 0, 5)
  {
    FourSitesEdges(open);
    ConnectedEdge(Links(2, open), 0, 2);
    ConnectedStep(Links(2, open), 0, 2, 4);
    ConnectedStep(Links(2, open), 0, 4, 5);
  }

  /** `percolatesWithFourSites`: the right column of the 2-by-2 board joins top and bottom. */
  method FourSitesScenario() returns (percolates: bool)
    ensures percolates
  {
    var board := FourSitesBoard();
    FourSitesReach(board.openSites[..]);
    percolates := board.Percolates();
  }

  lemma LowerLeftCells(closed: seq<bool>, open: seq<bool>)
    requires closed == [true, false, false, false, false, true] && open == closed[3 := true]
    ensures open == [true, false, false, true, false, true]
  {
  }

  /** Opens (2, 1) on a 2-by-2 board. */
  method LowerLeftBoard() returns (board: Percolation)
    ensures fresh(board) && board.Valid() && board.n == 2
    ensures board.openSites[..] == [true, false, false, true, false, true]
  {
    board := new Percolation(2);
    ghost var closed := board.openSites[..];
    assert closed == [true, false, false, false, false, true];
    var r := board.Open(2, 1);
    LowerLeftCells(closed, board.openSites[..]);
  }

  /** On the 2-by-2 board with only site 3 open, sites 3 and the bottom node form a component of their own. */
  lemma LowerLeftAlone(open: seq<bool>)
    requires open == [true, false, false, true, false, true]
    ensures !Connected(Links(2, open), 0, 3)
  {
    var links := Links(2, open);
    forall u, v | (u, v) in links && u in {3, 5}
      ensures v in {3, 5}
    {
      LinksMember(2, open, u, v);
      if IsSite(2, u) && IsSite(2, v) && Neighbours(2, u, v) {
        NeighbourGuards(2, u, v);
      }
    }
    ClosedSetUnreachable(links, {3, 5}, 3, 0);
    LinksSymmetric(2, open);
    if Connected(links, 0, 3) {
      ConnectedSym(links, 0, 3);
    }
  }

  /** `isNotFullIfIsOpenButDoesNotConnectWithTop`: an open bottom-left site with nothing above it is not full. */
  method NotFullScenario() returns (full: Result<bool>)
    ensures full == Ok(false)
  {
    var board := LowerLeftBoard();
    LowerLeftAlone(board.openSites[..]);
    full := board.IsFull(2, 1);
  }

  lemma TopCornerCells(closed: seq<bool>, open: seq<bool>)
    requires closed == [true, false, false, false, false, true] && open == closed[1 := true]
    ensures open == [true, true, false, false, false, true]
  {
  }

  /** Opens (1, 1) on a 2-by-2 board. */
  method TopCornerBoard() returns (board: Percolation)
    ensures fresh(board) && board.Valid() && board.n == 2
    ensures board.openSites[..] == [true, true, false, false, false, true]
  {
    board := new Percolation(2);
    ghost var closed := board.openSites[..];
    assert closed == [true, false, false, false, false, true];
    var r := board.Open(1, 1);
    TopCornerCells(closed, board.openSites[..]);
  }

  /** `isFullIfIsOpenAndInTopRow`: an open top-row site is full. */
  method TopCornerScenario() returns (full: Result<bool>)
    ensures full == Ok(true)
  {
    var board := TopCornerBoard();
    RowGuards(2, 1);
    OpenTopSiteIsFull(2, board.openSites[..], 1);
    full := board.IsFull(1, 1);
  }

  lemma LeftColumnCells(closed: seq<bool>, open: seq<bool>)
    requires closed == [true, false, false, false, false, false, false, false, false, false, true]
    requires open == closed[1 := true][4 := true]
    ensures open == [true, true, false, false, true, false, false, false, false, false, true]
  {
  }

  /** Opens (1, 1) and then (2, 1) on a 3-by-3 board. */
  method LeftColumnBoard() returns (board: Percolation)
    ensures fresh(board) && board.Valid() && board.n == 3
    ensures board.openSites[..] == [true, true, false, false, true, false, false, false, false, false, true]
  {
    board := new Percolation(3);
    ghost var closed := board.openSites[..];
    assert closed == [true, false, false, false, false, false, false, false, false, false, true];
    var r := board.Open(1, 1);
    r := board.Open(2, 1);
    LeftColumnCells(closed, board.openSites[..]);
  }

  /** The top node reaches site 4 through the open site above it. */
  lemma LeftColumnReach(open: seq<bool>)
    requires open == [true, true, false, false, true, false, false, false, false, false, true]
    ensures Connected(Links(3, open), 0, 4)
  {
    TopLink(3, open, 1);
    GuardedLink(3, open, 1, 4);
    ConnectedEdge(Links(3, open), 0, 1);
    ConnectedStep(Links(3, open), 0, 1, 4);
  }

  /** `isFullIfIsOpenAndConnectsWithTopRow`: the site below an open top-row site is full. */
  method FullBelowTopScenario() returns (full: Result<bool>)
    ensures full == Ok(true)
  {
    var board := LeftColumnBoard();
    LeftColumnReach(board.openSites[..]);
    full := board.IsFull(2, 1);
  }

  /** `countsNumberOfOpenSites` and `doesNotCountTheOpeningOfASiteMoreThanOnce`. */
  method CountScenario() returns (once: int, twice: int)
    ensures once == 1 && twice == 1
  {
    var board := new Percolation(3);
    var r := board.Open(1, 1);
    once := board.NumberOfOpenSites();
    r := board.Open(1, 1);
    twice := board.NumberOfOpenSites();
  }
}
