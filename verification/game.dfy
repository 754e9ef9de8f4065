/** The Game object of the page: the board kept in a two-dimensional array,
    the player whose piece a click drops, and the end-of-game state. Each
    method is proved against the value model of module Board. */
module ConnectFour {
  import opened Board

  class Game {
    const players: seq<Player>
    const height: nat
    const width: nat
    /** board[y, x]; row 0 is the top row. */
    const board: array2<Cell>
    /** The player whose piece the next click drops. No code path switches it. */
    var currPlayer: Player
    /** Set when a move wins; never read by the page. */
    var gameOver: bool
    /** The click listener on the row of column tops is attached. endGame
        detaches it, after which clicks no longer reach HandleClick. */
    var listening: bool

    /** The board as a value. */
    function Snapshot(): (g: Grid)
      reads board
      ensures g.WellFormed() && g.height == board.Length0 && g.width == board.Length1
      ensures forall y, x :: 0 <= y < board.Length0 && 0 <= x < board.Length1 ==> At(g, y, x) == board[y, x]
    {
      Grid(board.Length0, board.Length1,
        seq(board.Length0, y requires 0 <= y < board.Length0 reads board =>
          seq(board.Length1, x requires 0 <= x < board.Length1 reads board => board[y, x])))
    }

    ghost predicate Valid()
      reads this, board
    {
      && board.Length0 == height
      && board.Length1 == width
      && |players| == 2
      && currPlayer == players[0]
      && (gameOver ==> !listening)
      && Gravity(Snapshot())
      && OnlyHeldBy(Snapshot(), players[0])
    }

    constructor (p1: Player, p2: Player, height: nat := 6, width: nat := 7)
      ensures Valid() && fresh(board)
      ensures players == [p1, p2] && currPlayer == p1
      ensures this.height == height && this.width == width
      ensures forall y, x :: 0 <= y < height && 0 <= x < width ==> board[y, x] == None
      ensures !gameOver && listening
    {
      players := [p1, p2];
      this.height := height;
      this.width := width;
      currPlayer := p1;
      var b := MakeBoard(height, width);
      board := b;
      listening := true;
      gameOver := false;
    }

    /** A fresh board of `height` rows, each of `width` empty cells. */
    static method MakeBoard(height: nat, width: nat) returns (b: array2<Cell>)
      ensures fresh(b) && b.Length0 == height && b.Length1 == width
      ensures forall y, x :: 0 <= y < height && 0 <= x < width ==> b[y, x] == None
    {
      b := new Cell[height, width];
      for y := 0 to height
        invariant forall i, j :: 0 <= i < y && 0 <= j < width ==> b[i, j] == None
      {
        for x := 0 to width
          invariant forall i, j :: 0 <= i < y && 0 <= j < width ==> b[i, j] == None
          invariant forall j :: 0 <= j < x ==> b[y, j] == None
        {
          b[y, x] := None;
        }
      }
    }

    /** The top empty row of column x, scanning from the bottom row up;
        None when the column is full. */
    method FindSpotForCol(x: int) returns (r: Option<nat>)
      requires Valid() && 0 <= x < width
      ensures r == LandingRow(Snapshot(), x)
      ensures r.None? <==> ColumnFull(Snapshot(), x)
      ensures r.Some? ==> IsLandingRow(Snapshot(), x, r.value)
    {
      var y := height - 1;
      while y >= 0
        invariant -1 <= y < height
        invariant forall y' :: y < y' < height ==> board[y', x].Some?
      {
        if board[y, x].None? {
          LandingRowUnique(Snapshot(), x, y);
          return Some(y);
        }
        y := y - 1;
      }
      return None;
    }

    /** Tries every anchor cell of the board in each of the four directions. */
    method CheckForWin() returns (won: bool)
      requires board.Length0 == height && board.Length1 == width
      ensures won <==> HasWin(Snapshot(), currPlayer)
    {
      var g, p := Snapshot(), currPlayer;
      for y := 0 to g.height
        invariant forall y', x' :: 0 <= y' < y && 0 <= x' < g.width ==> !AnchorWins(g, p, y', x')
      {
        for x := 0 to g.width
          invariant forall y', x' :: 0 <= y' < y && 0 <= x' < g.width ==> !AnchorWins(g, p, y', x')
          invariant forall x' :: 0 <= x' < x ==> !AnchorWins(g, p, y, x')
        {
          if AnchorWins(g, p, y, x) {
            AnchorWinsIff(g, p, y, x);
            ghost var d :| IsWinAt(g, p, y, x, d);
            return true;
          }
        }
      }
      NoAnchorNoWin(g, p);
      return false;
    }

    /** Shows the end-of-game message and detaches the click listener. */
    method EndGame()
      modifies this
      ensures !listening
      ensures currPlayer == old(currPlayer) && gameOver == old(gameOver)
    {
      listening := false;
    }

    /** A click on the top of column x: drop a piece for currPlayer, then
        test for a full board and after that for a win. */
    method HandleClick(x: int) returns (outcome: Outcome)
      requires Valid() && 0 <= x < width
      modifies this, board
      ensures Valid()
      ensures outcome == MoveOutcome(old(Snapshot()), old(currPlayer), x)
      ensures Snapshot() == AfterMove(old(Snapshot()), old(currPlayer), x)
      ensures currPlayer == old(currPlayer)
      ensures gameOver == (old(gameOver) || outcome.Win?)
      ensures listening == (old(listening) && !outcome.Tie? && !outcome.Win?)
    {
      ghost var g0 := Snapshot();
      var y := FindSpotForCol(x);
      if y == None {
        return ColumnIsFull;
      }
      board[y.value, x] := Some(currPlayer);
      SameCells(Snapshot(), Place(g0, y.value, x, currPlayer));
      ghost var g1 := Snapshot();
      assert g1 == AfterMove(g0, currPlayer, x);
      GravityPreserved(g0, currPlayer, x);
      OnlyHeldByPreserved(g0, currPlayer, x);

      if IsFull(Snapshot()) {
        EndGame();
        return Tie(y.value);
      }

      var won := CheckForWin();
      if won {
        gameOver := true;
        EndGame();
        return Win(y.value);
      }
      // the page declares a switchPlayer helper here but never calls it
      return Dropped(y.value);
    }

    /** The page's dispatch of a click on column x: it reaches HandleClick
        only while the listener is attached. */
    method Click(x: int) returns (outcome: Option<Outcome>)
      requires Valid() && 0 <= x < width
      modifies this, board
      ensures Valid()
      ensures !old(listening) ==> outcome == None && unchanged(this) && unchanged(board)
      ensures old(listening) ==>
        && outcome == Some(MoveOutcome(old(Snapshot()), old(currPlayer), x))
        && Snapshot() == AfterMove(old(Snapshot()), old(currPlayer), x)
        && currPlayer == old(currPlayer)
        && gameOver == (old(gameOver) || outcome.value.Win?)
        && listening == (!outcome.value.Tie? && !outcome.value.Win?)
    {
      if !listening {
        return None;
      }
      var o := HandleClick(x);
      return Some(o);
    }
  }
}
