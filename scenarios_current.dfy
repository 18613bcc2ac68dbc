/**
 * Runs of the grid without virtual nodes taken from the repository's tests.
 * The tests read the forest directly and compare representatives; here
 * `SameComponent` does that, and the answers follow from what `open` unites
 * (`CurrentGrid.OpenedInTurn`).
 */
module CurrentScenarios {
  import opened Outcomes
  import opened Graph
  import opened Board
  import opened CurrentGrid
  import opened PercolationCurrent

  /** Compares the representatives of two sites in the board's forest, as the tests do. */
  method SameComponent(board: Percolation, x: int, y: int) returns (same: bool)
    requires board.Valid() && IsSite(board.n, x) && IsSite(board.n, y)
    ensures same <==> Connected(board.unionFind.edges, x, y)
  {
    same := board.unionFind.Find(x) == board.unionFind.Find(y);
  }

  /**
   * Opens (row1, col1) and then (row2, col2) on a closed board: the forest
   * holds the pair of the two sites when the guards let the first through
   * for the second, and nothing otherwise.
   */
  method TwoOpensBoard(n: int, row1: int, col1: int, row2: int, col2: int) returns (board: Percolation)
    requires n >= 1 && InBounds(n, row1, col1) && InBounds(n, row2, col2)
    requires GetTarget(n, row1, col1) != GetTarget(n, row2, col2)
    ensures fresh(board) && board.Valid() && board.n == n
    ensures var a, b := GetTarget(n, row1, col1), GetTarget(n, row2, col2);
      board.unionFind.edges == if Guarded(n, b, a) then Pair(a, b) else {}
  {
    var a, b := GetTarget(n, row1, col1), GetTarget(n, row2, col2);
    board := new Percolation(n);
    assert board.openSites[..] == Closed(n);
    var r := board.Open(row1, col1);
    assert board.openSites[..] == Closed(n)[a := true];
    r := board.Open(row2, col2);
    OpenedInTurn(n, a, b);
  }

  /** `new Percolation(0)` throws. */
  method ZeroSideScenario() returns (r: Result<Percolation>)
    ensures r == IllegalArgument
  {
    r := Create(0);
  }

  /** A fresh 10-by-10 board has no open site, and its far corner is closed. */
  method FreshBoardScenario() returns (count: int, corner: Result<bool>)
    ensures count == 0 && corner == Ok(false)
  {
    var board := new Percolation(10);
    count := board.NumberOfOpenSites();
    corner := board.IsOpen(10, 10);
  }

  /** Coordinates outside the board throw from every query and from `open`, and leave the board closed. */
  method OutOfBoundsScenario() returns (openResult: Result<()>, isOpen: Result<bool>, isFull: Result<bool>, count: int)
    ensures openResult == IllegalArgument && isOpen == IllegalArgument && isFull == IllegalArgument
    ensures count == 0
  {
    var board := new Percolation(3);
    openResult := board.Open(4, 3);
    isOpen := board.IsOpen(0, 3);
    isFull := board.IsFull(3, 4);
    count := board.NumberOfOpenSites();
  }

  /** `opensSiteAndConnectsWithNeighbourToTheLeft`: opening (2, 3) and then (2, 2) unites sites 5 and 4. */
  method LeftNeighbourScenario() returns (joined: bool)
    ensures joined
  {
    var board := TwoOpensBoard(3, 2, 3, 2, 2);
    ConnectedEdge(board.unionFind.edges, 4, 5);
    joined := SameComponent(board, 4, 5);
  }

  /** `opensSiteAndConnectsWithNeighbourToTheRight`: opening (2, 1) and then (2, 2) unites sites 3 and 4. */
  method RightNeighbourScenario() returns (joined: bool)
    ensures joined
  {
    var board := TwoOpensBoard(3, 2, 1, 2, 2);
    ConnectedEdge(board.unionFind.edges, 4, 3);
    joined := SameComponent(board, 4, 3);
  }

  /** `opensSiteAndConnectsWithUpperNeighbour`: opening (1, 2) and then (2, 2) unites sites 1 and 4. */
  method UpperNeighbourScenario() returns (joined: bool)
    ensures joined
  {
    var board := TwoOpensBoard(3, 1, 2, 2, 2);
    ConnectedEdge(board.unionFind.edges, 4, 1);
    joined := SameComponent(board, 4, 1);
  }

  /** `opensSiteAndConnectsWithLowerNeighbour`: opening (3, 2) and then (2, 2) unites sites 7 and 4. */
  method LowerNeighbourScenario() returns (joined: bool)
    ensures joined
  {
    var board := TwoOpensBoard(3, 3, 2, 2, 2);
    ConnectedEdge(board.unionFind.edges, 4, 7);
    joined := SameComponent(board, 4, 7);
  }

  /**
   * `opensSiteAndDoesNotConnectWithPreviousNeighbourInAboveRow`: after
   * opening (1, 3) and then (2, 1), the sites the test compares, 4 and 3, are
   * apart, but the two opened sites, 2 and 3, at the two ends of a row break,
   * are united.
   */
  method RowWrapAboveScenario() returns (wrapped: bool, compared: bool)
    ensures wrapped && !compared
  {
    var board := TwoOpensBoard(3, 1, 3, 2, 1);
    ConnectedEdge(board.unionFind.edges, 2, 3);
    IsolatedUnreachable(board.unionFind.edges, 3, 4);
    wrapped := SameComponent(board, 2, 3);
    compared := SameComponent(board, 3, 4);
  }

  /**
   * `opensSiteAndDoesNotConnectWithNextNeighbourInBelowRow`: after opening
   * (3, 1) and then (2, 3), the sites the test compares, 7 and 6, are apart,
   * but the two opened sites, 6 and 5, are united across the row break.
   */
  method RowWrapBelowScenario() returns (wrapped: bool, compared: bool)
    ensures wrapped && !compared
  {
    var board := TwoOpensBoard(3, 3, 1, 2, 3);
    ConnectedEdge(board.unionFind.edges, 5, 6);
    IsolatedUnreachable(board.unionFind.edges, 6, 7);
    wrapped := SameComponent(board, 5, 6);
    compared := SameComponent(board, 6, 7);
  }

  /**
   * The first two sites of the first column: opening (1, 1) and then (2, 1)
   * leaves sites 0 and 3 apart, while the other order unites them.
   */
  method TopLeftOrderScenario() returns (upperFirst: bool, upperSecond: bool)
    ensures !upperFirst && upperSecond
  {
    var board := TwoOpensBoard(3, 1, 1, 2, 1);
    EmptyConnected(0, 3);
    upperFirst := SameComponent(board, 0, 3);
    var other := TwoOpensBoard(3, 2, 1, 1, 1);
    ConnectedEdge(other.unionFind.edges, 0, 3);
    upperSecond := SameComponent(other, 0, 3);
  }

  /**
   * `isNotFullIfIsOpenButDoesNotConnectWithTop`: with only (2, 1) open on a
   * 2-by-2 board, the grid is reported to percolate, the open site and a
   * closed site are reported full.
   */
  method StubAnswersScenario() returns (percolates: bool, openFull: Result<bool>, closedFull: Result<bool>)
    ensures percolates && openFull == Ok(true) && closedFull == Ok(true)
  {
    var board := new Percolation(2);
    var r := board.Open(2, 1);
    percolates := board.Percolates();
    openFull := board.IsFull(2, 1);
    closedFull := board.IsFull(1, 2);
  }

  /** `countsNumberOfOpenSites` and `doesNotCountTheOpeningOfASiteMoreThanOnce`. */
  method CountScenario() returns (once: int, twice: int)
    ensures once == 1 && twice == 1
  {
    var board := new Percolation(3);
    var r := board.Open(1, 1);
    once := board.NumberOfOpenSites();
    r := board.Open(1, 1);
    twice := board.NumberOfOpenSites();
  }
}
