/** The Connect Four board as a value: cells, the landing row of a column,
    the four-in-a-row predicate and what one move does to the board.
    The class in game.dfy keeps the board in an array and is proved against
    the functions of this module. */
module Board {

  datatype Option<T> = None | Some(value: T)

  /** A player is an opaque identity; its display colour is presentation. */
  datatype Player = Player(id: nat)

  /** A cell is empty (`undefined` in the page's board) or holds the player
      whose piece landed there. */
  type Cell = Option<Player>

  /** `height` rows of `width` cells, addressed as rows[y][x]; row 0 is the
      top of the board and row height - 1 the bottom. */
  datatype Grid = Grid(height: nat, width: nat, rows: seq<seq<Cell>>)
  {
    predicate WellFormed() {
      |rows| == height && forall y :: 0 <= y < height ==> |rows[y]| == width
    }
  }

  predicate InBounds(g: Grid, y: int, x: int) {
    0 <= y < g.height && 0 <= x < g.width
  }

  function At(g: Grid, y: int, x: int): Cell
    requires g.WellFormed() && InBounds(g, y, x)
  {
    g.rows[y][x]
  }

  /** Every cell of every row is occupied. */
  predicate IsFull(g: Grid)
    requires g.WellFormed()
    ensures IsFull(g) ==> forall x :: 0 <= x < g.width ==> ColumnFull(g, x)
  {
    forall y, x :: 0 <= y < g.height && 0 <= x < g.width ==> At(g, y, x).Some?
  }

  /** Two boards of the same shape with the same cells are the same board. */
  lemma SameCells(g1: Grid, g2: Grid)
    requires g1.WellFormed() && g2.WellFormed()
    requires g1.height == g2.height && g1.width == g2.width
    requires forall y, x :: InBounds(g1, y, x) ==> At(g1, y, x) == At(g2, y, x)
    ensures g1 == g2
  {
    forall y | 0 <= y < g1.height
      ensures g1.rows[y] == g2.rows[y]
    {
      forall x | 0 <= x < g1.width
        ensures g1.rows[y][x] == g2.rows[y][x]
      {
        assert At(g1, y, x) == At(g2, y, x);
      }
    }
  }

  // ---------------------------------------------------------------------
  // Landing row

  predicate ColumnFull(g: Grid, x: int)
    requires g.WellFormed() && 0 <= x < g.width
  {
    forall y :: 0 <= y < g.height ==> At(g, y, x).Some?
  }

  /** y is where a piece dropped into column x comes to rest: the cell is
      empty and every cell below it (larger row index) is occupied. */
  predicate IsLandingRow(g: Grid, x: int, y: int)
    requires g.WellFormed() && 0 <= x < g.width
  {
    && 0 <= y < g.height
    && At(g, y, x).None?
    && forall y' :: y < y' < g.height ==> At(g, y', x).Some?
  }

  /** Looks at rows n - 1, n - 2, ..., 0 of column x, in that order, and
      answers the first empty one. */
  function ScanUp(g: Grid, x: int, n: nat): (r: Option<nat>)
    requires g.WellFormed() && 0 <= x < g.width && n <= g.height
    ensures r.None? <==> forall y :: 0 <= y < n ==> At(g, y, x).Some?
    ensures r.Some? ==>
      && r.value < n
      && At(g, r.value, x).None?
      && forall y :: r.value < y < n ==> At(g, y, x).Some?
    decreases n
  {
    if n == 0 then None
    else if At(g, n - 1, x).None? then Some(n - 1)
    else ScanUp(g, x, n - 1)
  }

  /** The row a piece dropped into column x lands in, scanning from the
      bottom row upward; None when the column is full. */
  function LandingRow(g: Grid, x: int): (r: Option<nat>)
    requires g.WellFormed() && 0 <= x < g.width
    ensures r.None? <==> ColumnFull(g, x)
    ensures r.Some? ==> IsLandingRow(g, x, r.value)
  {
    ScanUp(g, x, g.height)
  }

  /** The landing row is determined by its characterisation. */
  lemma LandingRowUnique(g: Grid, x: int, y: int)
    requires g.WellFormed() && 0 <= x < g.width
    requires IsLandingRow(g, x, y)
    ensures LandingRow(g, x) == Some(y)
  {
  }

  // ---------------------------------------------------------------------
  // Placing a piece

  /** The board with cell (y, x) set to p. */
  function Place(g: Grid, y: int, x: int, p: Player): (g': Grid)
    requires g.WellFormed() && InBounds(g, y, x)
    ensures g'.WellFormed() && g'.height == g.height && g'.width == g.width
    ensures At(g', y, x) == Some(p)
    ensures forall y', x' :: InBounds(g, y', x') && (y' != y || x' != x) ==> At(g', y', x') == At(g, y', x')
  {
    g.(rows := g.rows[y := g.rows[y][x := Some(p)]])
  }

  // ---------------------------------------------------------------------
  // Four in a row

  /** The four scan directions, each as (row step, column step). */
  datatype Direction = Horizontal | Vertical | DiagDownRight | DiagDownLeft

  function DY(d: Direction): int {
    match d
    case Horizontal => 0
    case Vertical => 1
    case DiagDownRight => 1
    case DiagDownLeft => 1
  }

  function DX(d: Direction): int {
    match d
    case Horizontal => 1
    case Vertical => 0
    case DiagDownRight => 1
    case DiagDownLeft => -1
  }

  /** The "check list" of four cells starting at (y, x) in direction d. */
  function Line(y: int, x: int, d: Direction): (cells: seq<(int, int)>)
    ensures |cells| == 4 && cells[0] == (y, x)
  {
    match d
    case Horizontal => [(y, x), (y, x + 1), (y, x + 2), (y, x + 3)]
    case Vertical => [(y, x), (y + 1, x), (y + 2, x), (y + 3, x)]
    case DiagDownRight => [(y, x), (y + 1, x + 1), (y + 2, x + 2), (y + 3, x + 3)]
    case DiagDownLeft => [(y, x), (y + 1, x - 1), (y + 2, x - 2), (y + 3, x - 3)]
  }

  /** The k-th cell of a check list is k steps from the anchor in its
      direction. */
  lemma LineSteps(y: int, x: int, d: Direction)
    ensures forall k :: 0 <= k < 4 ==> Line(y, x, d)[k] == (Offset(y, k, DY(d)), Offset(x, k, DX(d)))
  {
    forall k | 0 <= k < 4
      ensures Line(y, x, d)[k] == (Offset(y, k, DY(d)), Offset(x, k, DX(d)))
    {
      assert k == 0 || k == 1 || k == 2 || k == 3;
    }
  }

  /** Cell (y, x) lies on the board and holds p. */
  predicate Owns(g: Grid, p: Player, y: int, x: int)
    requires g.WellFormed()
  {
    InBounds(g, y, x) && At(g, y, x) == Some(p)
  }

  /** Every listed cell lies on the board and holds p. */
  predicate AllOwned(g: Grid, p: Player, cells: seq<(int, int)>)
    requires g.WellFormed()
  {
    forall i :: 0 <= i < |cells| ==> Owns(g, p, cells[i].0, cells[i].1)
  }

  /** a + k * da: the k-th step from a. */
  function Offset(a: int, k: int, da: int): int {
    a + k * da
  }

  /** The four cells (y + k * DY(d), x + k * DX(d)), k = 0..3, all lie on the
      board and hold p. */
  ghost predicate IsWinAt(g: Grid, p: Player, y: int, x: int, d: Direction)
    requires g.WellFormed()
  {
    forall k :: 0 <= k < 4 ==> Owns(g, p, Offset(y, k, DY(d)), Offset(x, k, DX(d)))
  }

  /** p has four in a row somewhere on the board. */
  ghost predicate HasWin(g: Grid, p: Player)
    requires g.WellFormed()
  {
    exists y: int, x: int, d: Direction :: IsWinAt(g, p, y, x, d)
  }

  /** Some check list anchored at (y, x) wins: horizontal, vertical,
      down-right or down-left, tried in that order. */
  predicate AnchorWins(g: Grid, p: Player, y: int, x: int)
    requires g.WellFormed()
    ensures AnchorWins(g, p, y, x) ==> InBounds(g, y, x) && At(g, y, x) == Some(p)
  {
    || AllOwned(g, p, Line(y, x, Horizontal))
    || AllOwned(g, p, Line(y, x, Vertical))
    || AllOwned(g, p, Line(y, x, DiagDownRight))
    || AllOwned(g, p, Line(y, x, DiagDownLeft))
  }

  /** The explicit check list of a direction wins exactly when the
      quantified line does. */
  lemma AllOwnedLine(g: Grid, p: Player, y: int, x: int, d: Direction)
    requires g.WellFormed()
    ensures AllOwned(g, p, Line(y, x, d)) <==> IsWinAt(g, p, y, x, d)
  {
    LineSteps(y, x, d);
  }

  /** The four check lists at an anchor find exactly the lines that start
      there. */
  lemma AnchorWinsIff(g: Grid, p: Player, y: int, x: int)
    requires g.WellFormed()
    ensures AnchorWins(g, p, y, x) <==> exists d :: IsWinAt(g, p, y, x, d)
  {
    AllOwnedLine(g, p, y, x, Horizontal);
    AllOwnedLine(g, p, y, x, Vertical);
    AllOwnedLine(g, p, y, x, DiagDownRight);
    AllOwnedLine(g, p, y, x, DiagDownLeft);
    if d :| IsWinAt(g, p, y, x, d) {
      match d
      case Horizontal =>
      case Vertical =>
      case DiagDownRight =>
      case DiagDownLeft =>
    }
  }

  /** A winning line starts on the board, so scanning the anchors of the
      board finds every win. */
  lemma WinAnchorInBounds(g: Grid, p: Player, y: int, x: int, d: Direction)
    requires g.WellFormed()
    requires IsWinAt(g, p, y, x, d)
    ensures InBounds(g, y, x) && At(g, y, x) == Some(p)
  {
    assert Owns(g, p, Offset(y, 0, DY(d)), Offset(x, 0, DX(d)));
  }

  /** When no anchor of the board wins, no line anywhere wins: the scan
      over the board's cells misses nothing. */
  lemma NoAnchorNoWin(g: Grid, p: Player)
    requires g.WellFormed()
    requires forall y, x :: InBounds(g, y, x) ==> !AnchorWins(g, p, y, x)
    ensures !HasWin(g, p)
  {
    forall y, x, d | IsWinAt(g, p, y, x, d)
      ensures false
    {
      WinAnchorInBounds(g, p, y, x, d);
      AnchorWinsIff(g, p, y, x);
    }
  }

  // ---------------------------------------------------------------------
  // One move

  /** How a click on a column ends: the column was full and nothing
      happened, or a piece landed in `row` and the game went on, ended in a
      tie, or ended with a win for the player who dropped it. */
  datatype Outcome = ColumnIsFull | Dropped(row: nat) | Tie(row: nat) | Win(row: nat)

  /** The board after player p drops a piece into column x. */
  function AfterMove(g: Grid, p: Player, x: int): (g': Grid)
    requires g.WellFormed() && 0 <= x < g.width
    ensures g'.WellFormed() && g'.height == g.height && g'.width == g.width
    ensures ColumnFull(g, x) ==> g' == g
    ensures forall y :: IsLandingRow(g, x, y) ==> g' == Place(g, y, x, p)
  {
    match LandingRow(g, x)
    case None => g
    case Some(y) => Place(g, y, x, p)
  }

  /** What the move reports. The full-board test comes first, so a drop
      that fills the last cell is a tie even when it completes a line. */
  ghost function MoveOutcome(g: Grid, p: Player, x: int): (o: Outcome)
    requires g.WellFormed() && 0 <= x < g.width
    ensures o.ColumnIsFull? <==> ColumnFull(g, x)
    ensures !o.ColumnIsFull? ==> IsLandingRow(g, x, o.row)
    ensures o.Tie? <==> !ColumnFull(g, x) && IsFull(AfterMove(g, p, x))
    ensures o.Win? <==> !ColumnFull(g, x) && !IsFull(AfterMove(g, p, x)) && HasWin(AfterMove(g, p, x), p)
  {
    match LandingRow(g, x)
    case None => ColumnIsFull
    case Some(y) =>
      var g' := Place(g, y, x, p);
      if IsFull(g') then Tie(y)
      else if HasWin(g', p) then Win(y)
      else Dropped(y)
  }

  /** A click on a full column changes nothing and reports it. */
  lemma FullColumnIsNoOp(g: Grid, p: Player, x: int)
    requires g.WellFormed() && 0 <= x < g.width
    requires ColumnFull(g, x)
    ensures AfterMove(g, p, x) == g
    ensures MoveOutcome(g, p, x) == ColumnIsFull
  {
  }

  /** A drop into a column with room writes p into the landing cell of that
      column, reports that row, and leaves every other cell as it was. */
  lemma DropWritesLandingCell(g: Grid, p: Player, x: int)
    requires g.WellFormed() && 0 <= x < g.width
    requires !ColumnFull(g, x)
    ensures MoveOutcome(g, p, x) != ColumnIsFull
    ensures
      var y := MoveOutcome(g, p, x).row;
      var g' := AfterMove(g, p, x);
      && IsLandingRow(g, x, y)
      && At(g', y, x) == Some(p)
      && forall y', x' :: InBounds(g, y', x') && (y' != y || x' != x) ==> At(g', y', x') == At(g, y', x')
  {
  }

  /** No occupied cell is cleared or reassigned by a move. */
  lemma OccupancyGrows(g: Grid, p: Player, x: int)
    requires g.WellFormed() && 0 <= x < g.width
    ensures forall y', x' :: InBounds(g, y', x') && At(g, y', x').Some? ==>
      At(AfterMove(g, p, x), y', x') == At(g, y', x')
  {
  }

  /** In every column the occupied cells form a block at the bottom. */
  ghost predicate Gravity(g: Grid)
    requires g.WellFormed()
  {
    forall y1, y2, x :: 0 <= y1 <= y2 < g.height && 0 <= x < g.width && At(g, y1, x).Some? ==> At(g, y2, x).Some?
  }

  /** Every occupied cell holds p. */
  ghost predicate OnlyHeldBy(g: Grid, p: Player)
    requires g.WellFormed()
  {
    forall y, x :: InBounds(g, y, x) && At(g, y, x).Some? ==> At(g, y, x) == Some(p)
  }

  /** When every piece so far is p's and p moves again, every piece is
      still p's. */
  lemma OnlyHeldByPreserved(g: Grid, p: Player, x: int)
    requires g.WellFormed() && 0 <= x < g.width
    requires OnlyHeldBy(g, p)
    ensures OnlyHeldBy(AfterMove(g, p, x), p)
  {
  }

  /** A move keeps the occupied cells of every column at the bottom. */
  lemma GravityPreserved(g: Grid, p: Player, x: int)
    requires g.WellFormed() && 0 <= x < g.width
    requires Gravity(g)
    ensures Gravity(AfterMove(g, p, x))
  {
  }
}
