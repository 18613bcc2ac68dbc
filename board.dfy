/**
 * What both percolation grids share: the coordinate check, the row-major
 * layout of an n-by-n board and its grid adjacency, and the count of open
 * cells. Positions here are 0-based (`n * (row - 1) + col - 1`); the grid that
 * reserves index 0 for a virtual node shifts them by one.
 */
module Board {
  import opened Outcomes

  /** Rows and columns run from 1 to n. */
  predicate InBounds(n: int, row: int, col: int)
  {
    1 <= row <= n && 1 <= col <= n
  }

  /** The four argument checks both grids run before touching any state. */
  function ValidateArguments(n: int, row: int, col: int): (r: Result<()>)
    ensures r.Ok? <==> InBounds(n, row, col)
    ensures r.Ok? || r == IllegalArgument
  {
    if row < 1 then IllegalArgument
    else if row > n then IllegalArgument
    else if col < 1 then IllegalArgument
    else if col > n then IllegalArgument
    else Ok(())
  }

  /** Row-major 0-based position of a cell. */
  function Position(n: int, row: int, col: int): int
  {
    n * (row - 1) + col - 1
  }

  function RowOf(n: int, k: int): int
    requires n >= 1
  {
    k / n + 1
  }

  function ColOf(n: int, k: int): int
    requires n >= 1
  {
    k % n + 1
  }

  /** Cells sharing a side: same row and neighbouring columns, or the reverse. */
  predicate Adjacent(n: int, j: int, k: int)
    requires n >= 1
  {
    (RowOf(n, j) == RowOf(n, k) && (ColOf(n, j) - ColOf(n, k) == 1 || ColOf(n, k) - ColOf(n, j) == 1)) ||
    (ColOf(n, j) == ColOf(n, k) && (RowOf(n, j) - RowOf(n, k) == 1 || RowOf(n, k) - RowOf(n, j) == 1))
  }

  lemma MulMono(n: int, a: int, b: int)
    requires n >= 0 && a <= b
    ensures n * a <= n * b
  {
    assert n * b - n * a == n * (b - a);
  }

  lemma DivMod(n: int, q: int, m: int)
    requires n > 0 && 0 <= m < n
    ensures (n * q + m) / n == q && (n * q + m) % n == m
  {
    var a := n * q + m;
    var d := q - a / n;
    assert n * d == a % n - m;
    if d >= 1 {
      MulMono(n, 1, d);
    } else if d <= -1 {
      MulMono(n, d, -1);
    }
  }

  /** Every in-bounds cell has a position on the board, and the position gives the cell back. */
  lemma {:induction false} PositionRoundTrip(n: int, row: int, col: int)
    requires n >= 1 && InBounds(n, row, col)
    ensures 0 <= Position(n, row, col) < n * n
    ensures RowOf(n, Position(n, row, col)) == row && ColOf(n, Position(n, row, col)) == col
  {
    DivMod(n, row - 1, col - 1);
    MulMono(n, row - 1, n - 1);
  }

  /** Every position on the board is the position of an in-bounds cell. */
  lemma {:induction false} PositionOnto(n: int, k: int)
    requires n >= 1 && 0 <= k < n * n
    ensures InBounds(n, RowOf(n, k), ColOf(n, k))
    ensures Position(n, RowOf(n, k), ColOf(n, k)) == k
  {
    var q := k / n;
    if q >= n {
      MulMono(n, n, q);
    }
  }

  /**
   * The index tests a neighbour guard can make, each read as a statement
   * about the cell's row or column.
   */
  lemma GuardMeanings(n: int, k: int)
    requires n >= 1 && 0 <= k < n * n
    ensures k % n != 0 <==> ColOf(n, k) > 1
    ensures (k + 1) % n != 0 <==> ColOf(n, k) < n
    ensures k - n >= 0 <==> RowOf(n, k) > 1
    ensures k + n < n * n <==> RowOf(n, k) < n
    ensures k < n <==> RowOf(n, k) == 1
    ensures k >= n * (n - 1) <==> RowOf(n, k) == n
  {
    ColumnGuardMeanings(n, k);
    RowGuardMeanings(n, k);
  }

  lemma ColumnGuardMeanings(n: int, k: int)
    requires n >= 1 && 0 <= k < n * n
    ensures k % n != 0 <==> ColOf(n, k) > 1
    ensures (k + 1) % n != 0 <==> ColOf(n, k) < n
  {
    var r, c := RowOf(n, k), ColOf(n, k);
    PositionOnto(n, k);
    assert k == n * (r - 1) + (c - 1);
    if c < n {
      DivMod(n, r - 1, c);
    } else {
      DivMod(n, r, 0);
    }
  }

  lemma RowGuardMeanings(n: int, k: int)
    requires n >= 1 && 0 <= k < n * n
    ensures k - n >= 0 <==> RowOf(n, k) > 1
    ensures k + n < n * n <==> RowOf(n, k) < n
    ensures k < n <==> RowOf(n, k) == 1
    ensures k >= n * (n - 1) <==> RowOf(n, k) == n
  {
    FirstRow(n, k);
    LastRow(n, k);
  }

  /** The positions of the first row are those below n. */
  lemma FirstRow(n: int, k: int)
    requires n >= 1 && 0 <= k
    ensures k / n >= 0
    ensures k < n <==> k / n == 0
  {
    var q, m := k / n, k % n;
    assert k == n * q + m;
    if q < 0 {
      MulMono(n, q, -1);
    }
    if k < n {
      DivMod(n, 0, k);
    }
  }

  /** The positions of the last row are those from n * (n - 1) on. */
  lemma LastRow(n: int, k: int)
    requires n >= 1 && k < n * n
    ensures k / n <= n - 1
    ensures k >= n * (n - 1) <==> k / n == n - 1
  {
    var q, m := k / n, k % n;
    assert k == n * q + m && 0 <= m < n;
    if q >= n {
      MulMono(n, n, q);
    }
    assert n * (n - 1) == n * (n - 2) + n;
    if q <= n - 2 {
      MulMono(n, q, n - 2);
    }
  }

  /** Moving one step left, right, up or down keeps the other coordinate. */
  lemma {:induction false} StepCoordinates(n: int, k: int)
    requires n >= 1 && 0 <= k < n * n
    ensures ColOf(n, k) > 1 ==> RowOf(n, k - 1) == RowOf(n, k) && ColOf(n, k - 1) == ColOf(n, k) - 1
    ensures ColOf(n, k) < n ==> RowOf(n, k + 1) == RowOf(n, k) && ColOf(n, k + 1) == ColOf(n, k) + 1
    ensures RowOf(n, k) > 1 ==> RowOf(n, k - n) == RowOf(n, k) - 1 && ColOf(n, k - n) == ColOf(n, k)
    ensures RowOf(n, k) < n ==> RowOf(n, k + n) == RowOf(n, k) + 1 && ColOf(n, k + n) == ColOf(n, k)
  {
    var r, c := RowOf(n, k), ColOf(n, k);
    PositionOnto(n, k);
    assert k == n * (r - 1) + (c - 1);
    if c > 1 {
      DivMod(n, r - 1, c - 2);
    }
    if c < n {
      DivMod(n, r - 1, c);
    }
    if r > 1 {
      assert k - n == n * (r - 2) + (c - 1);
      DivMod(n, r - 2, c - 1);
    }
    if r < n {
      assert k + n == n * r + (c - 1);
      DivMod(n, r, c - 1);
    }
  }

  /** A step allowed by the cell's row and column stays on the board. */
  lemma {:induction false} StepsInRange(n: int, k: int)
    requires n >= 1 && 0 <= k < n * n
    ensures ColOf(n, k) > 1 ==> 0 <= k - 1
    ensures ColOf(n, k) < n ==> k + 1 < n * n
    ensures RowOf(n, k) > 1 ==> 0 <= k - n
    ensures RowOf(n, k) < n ==> k + n < n * n
  {
    var r, c := RowOf(n, k), ColOf(n, k);
    PositionOnto(n, k);
    GuardMeanings(n, k);
    assert k == n * (r - 1) + (c - 1);
    MulMono(n, 0, r - 1);
    MulMono(n, r - 1, n - 1);
    assert n * (n - 1) == n * n - n;
  }

  /** Grid adjacency is exactly one of the four index steps allowed by the cell's row and column. */
  lemma AdjacentSteps(n: int, k: int, j: int)
    requires n >= 1 && 0 <= k < n * n && 0 <= j < n * n
    ensures Adjacent(n, k, j) <==>
      (j == k - 1 && ColOf(n, k) > 1) ||
      (j == k + 1 && ColOf(n, k) < n) ||
      (j == k - n && RowOf(n, k) > 1) ||
      (j == k + n && RowOf(n, k) < n)
  {
    StepCoordinates(n, k);
    if Adjacent(n, k, j) {
      AdjacentIsStep(n, k, j);
    }
  }

  lemma {:induction false} AdjacentIsStep(n: int, k: int, j: int)
    requires n >= 1 && 0 <= k < n * n && 0 <= j < n * n
    requires Adjacent(n, k, j)
    ensures
      (j == k - 1 && ColOf(n, k) > 1) ||
      (j == k + 1 && ColOf(n, k) < n) ||
      (j == k - n && RowOf(n, k) > 1) ||
      (j == k + n && RowOf(n, k) < n)
  {
    PositionOnto(n, k);
    PositionOnto(n, j);
    var r, c := RowOf(n, k), ColOf(n, k);
    var rj, cj := RowOf(n, j), ColOf(n, j);
    assert k == n * (r - 1) + c - 1;
    assert j == n * (rj - 1) + cj - 1;
    if rj == r {
      assert n * (rj - 1) == n * (r - 1);
    } else if rj == r + 1 {
      assert n * (rj - 1) == n * (r - 1) + n;
    } else {
      assert rj == r - 1;
      assert n * (rj - 1) == n * (r - 1) - n;
    }
  }

  /** Number of open cells. */
  function CountTrue(s: seq<bool>): (r: nat)
    ensures r <= |s|
  {
    if s == [] then 0 else (if s[0] then 1 else 0) + CountTrue(s[1..])
  }

  lemma {:induction false} CountTrueNone(s: seq<bool>)
    requires forall i :: 0 <= i < |s| ==> !s[i]
    ensures CountTrue(s) == 0
  {
    if s != [] {
      CountTrueNone(s[1..]);
    }
  }

  /** Opening one cell raises the count by one, unless it was open already. */
  lemma {:induction false} CountTrueSet(s: seq<bool>, i: int)
    requires 0 <= i < |s|
    ensures CountTrue(s[i := true]) == CountTrue(s) + (if s[i] then 0 else 1)
  {
    if i > 0 {
      assert s[i := true][1..] == s[1..][i - 1 := true];
      CountTrueSet(s[1..], i - 1);
    } else {
      assert s[i := true][1..] == s[1..];
    }
  }
}
