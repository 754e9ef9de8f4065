/** Concrete boards that pin down how a move ends. */
module Scenarios {
  import opened Board

  const A := Player(1)
  const B := Player(2)

  /** A height-by-width board whose cells in `a` hold A, whose cells in `b`
      hold B, and whose other cells are empty. */
  function BoardOf(height: nat, width: nat, a: set<(int, int)>, b: set<(int, int)>): (g: Grid)
    ensures g.WellFormed() && g.height == height && g.width == width
    ensures forall y, x :: InBounds(g, y, x) ==>
      At(g, y, x) == if (y, x) in a then Some(A) else if (y, x) in b then Some(B) else None
  {
    Grid(height, width, seq(height, y => seq(width, x => if (y, x) in a then Some(A) else if (y, x) in b then Some(B) else None)))
  }

  /** A four-row, one-column board holding A in its three bottom cells: A's
      drop fills the last cell and completes a vertical line, and the move
      still ends as a tie because the full-board test runs first. */
  lemma WinningLastDropIsTie()
    ensures
      var g := BoardOf(4, 1, {(1, 0), (2, 0), (3, 0)}, {});
      && HasWin(AfterMove(g, A, 0), A)
      && MoveOutcome(g, A, 0) == Tie(0)
  {
    var g := BoardOf(4, 1, {(1, 0), (2, 0), (3, 0)}, {});
    LandingRowUnique(g, 0, 0);
    var g' := Place(g, 0, 0, A);
    forall k | 0 <= k < 4
      ensures Owns(g', A, Offset(0, k, DY(Vertical)), Offset(0, k, DX(Vertical)))
    {
      assert k == 0 || k == 1 || k == 2 || k == 3;
    }
    assert IsWinAt(g', A, 0, 0, Vertical);
    assert IsFull(g') by {
      forall y, x | 0 <= y < 4 && 0 <= x < 1
        ensures At(g', y, x).Some?
      {
        assert y == 0 || y == 1 || y == 2 || y == 3;
      }
    }
  }

  /** A drop that lands on three of the mover's own pieces in its column
      wins, unless it filled the board. */
  lemma DropOnThreeOwnWins(g: Grid, p: Player, x: int, y: int)
    requires g.WellFormed() && 0 <= x < g.width
    requires IsLandingRow(g, x, y) && y + 3 < g.height
    requires At(g, y + 1, x) == Some(p) && At(g, y + 2, x) == Some(p) && At(g, y + 3, x) == Some(p)
    requires !IsFull(Place(g, y, x, p))
    ensures MoveOutcome(g, p, x) == Win(y)
    ensures IsWinAt(AfterMove(g, p, x), p, y, x, Vertical)
  {
    LandingRowUnique(g, x, y);
    var g' := Place(g, y, x, p);
    forall k | 0 <= k < 4
      ensures Owns(g', p, Offset(y, k, DY(Vertical)), Offset(x, k, DX(Vertical)))
    {
      assert k == 0 || k == 1 || k == 2 || k == 3;
    }
    assert IsWinAt(g', p, y, x, Vertical);
  }

  /** A's drop into column x of a 6 x 7 board whose cells in `a` hold A
      lands in row y when (y, x) is empty and every cell below it is in
      `a`, and adds (y, x) to A's cells. */
  lemma DropOnBoardOf(a: set<(int, int)>, x: int, y: int)
    requires 0 <= x < 7 && 0 <= y < 6 && (y, x) !in a
    requires forall y' :: y < y' < 6 ==> (y', x) in a
    ensures AfterMove(BoardOf(6, 7, a, {}), A, x) == BoardOf(6, 7, a + {(y, x)}, {})
  {
    var g := BoardOf(6, 7, a, {});
    assert IsLandingRow(g, x, y);
    SameCells(Place(g, y, x, A), BoardOf(6, 7, a + {(y, x)}, {}));
  }

  /** The first click, on column 3, lands in row 5. */
  lemma FirstClick()
    ensures AfterMove(BoardOf(6, 7, {}, {}), A, 3) == BoardOf(6, 7, {(5, 3)}, {})
  {
    DropOnBoardOf({}, 3, 5);
    assert {} + {(5, 3)} == {(5, 3)};
  }

  /** The second click, on column 4, lands in row 5. */
  lemma SecondClick()
    ensures AfterMove(BoardOf(6, 7, {(5, 3)}, {}), A, 4) == BoardOf(6, 7, {(5, 3), (5, 4)}, {})
  {
    DropOnBoardOf({(5, 3)}, 4, 5);
    assert {(5, 3)} + {(5, 4)} == {(5, 3), (5, 4)};
  }

  /** The third click, on column 3, lands in row 4. */
  lemma ThirdClick()
    ensures AfterMove(BoardOf(6, 7, {(5, 3), (5, 4)}, {}), A, 3)
      == BoardOf(6, 7, {(5, 3), (5, 4), (4, 3)}, {})
  {
    forall y' | 4 < y' < 6 ensures (y', 3) in {(5, 3), (5, 4)} { assert y' == 5; }
    DropOnBoardOf({(5, 3), (5, 4)}, 3, 4);
    assert {(5, 3), (5, 4)} + {(4, 3)} == {(5, 3), (5, 4), (4, 3)};
  }

  /** The fourth click, on column 4, lands in row 4. */
  lemma FourthClick()
    ensures AfterMove(BoardOf(6, 7, {(5, 3), (5, 4), (4, 3)}, {}), A, 4)
      == BoardOf(6, 7, {(5, 3), (5, 4), (4, 3), (4, 4)}, {})
  {
    forall y' | 4 < y' < 6 ensures (y', 4) in {(5, 3), (5, 4), (4, 3)} { assert y' == 5; }
    DropOnBoardOf({(5, 3), (5, 4), (4, 3)}, 4, 4);
    assert {(5, 3), (5, 4), (4, 3)} + {(4, 4)} == {(5, 3), (5, 4), (4, 3), (4, 4)};
  }

  /** The fifth click, on column 3, lands in row 3. */
  lemma FifthClick()
    ensures AfterMove(BoardOf(6, 7, {(5, 3), (5, 4), (4, 3), (4, 4)}, {}), A, 3)
      == BoardOf(6, 7, {(5, 3), (5, 4), (4, 3), (4, 4), (3, 3)}, {})
  {
    forall y' | 3 < y' < 6 ensures (y', 3) in {(5, 3), (5, 4), (4, 3), (4, 4)} {
      assert y' == 4 || y' == 5;
    }
    DropOnBoardOf({(5, 3), (5, 4), (4, 3), (4, 4)}, 3, 3);
    assert {(5, 3), (5, 4), (4, 3), (4, 4)} + {(3, 3)} == {(5, 3), (5, 4), (4, 3), (4, 4), (3, 3)};
  }

  /** The sixth click, on column 4, lands in row 3. */
  lemma SixthClick()
    ensures AfterMove(BoardOf(6, 7, {(5, 3), (5, 4), (4, 3), (4, 4), (3, 3)}, {}), A, 4)
      == BoardOf(6, 7, {(5, 3), (4, 3), (3, 3), (5, 4), (4, 4), (3, 4)}, {})
  {
    forall y' | 3 < y' < 6 ensures (y', 4) in {(5, 3), (5, 4), (4, 3), (4, 4), (3, 3)} {
      assert y' == 4 || y' == 5;
    }
    DropOnBoardOf({(5, 3), (5, 4), (4, 3), (4, 4), (3, 3)}, 4, 3);
    assert {(5, 3), (5, 4), (4, 3), (4, 4), (3, 3)} + {(3, 4)}
      == {(5, 3), (4, 3), (3, 3), (5, 4), (4, 4), (3, 4)};
  }

  /** On the board the six clicks leave, the seventh click, on column 3,
      lands on A's three pieces in row 2 and wins with the vertical line
      anchored there. */
  lemma FourthDropInColumnWins()
    ensures
      var g := BoardOf(6, 7, {(5, 3), (4, 3), (3, 3), (5, 4), (4, 4), (3, 4)}, {});
      && MoveOutcome(g, A, 3) == Win(2)
      && IsWinAt(AfterMove(g, A, 3), A, 2, 3, Vertical)
  {
    var g := BoardOf(6, 7, {(5, 3), (4, 3), (3, 3), (5, 4), (4, 4), (3, 4)}, {});
    assert IsLandingRow(g, 3, 2) by {
      forall y' | 2 < y' < 6 ensures At(g, y', 3).Some? {
        assert y' == 3 || y' == 4 || y' == 5;
      }
    }
    assert !IsFull(Place(g, 2, 3, A)) by { assert At(Place(g, 2, 3, A), 0, 0).None?; }
    DropOnThreeOwnWins(g, A, 3, 2);
  }

  /** From the empty default board, clicks on columns 3, 4, 3, 4, 3, 4
      fill rows 3-5 of columns 3 and 4 with A's pieces alone, since the
      player to move never changes; each board below is A's click on the
      previous one. The seventh click, on column 3, then wins for A in
      row 2. */
  lemma SeventhClickWins()
    ensures
      var b0 := BoardOf(6, 7, {}, {});
      var b1 := BoardOf(6, 7, {(5, 3)}, {});
      var b2 := BoardOf(6, 7, {(5, 3), (5, 4)}, {});
      var b3 := BoardOf(6, 7, {(5, 3), (5, 4), (4, 3)}, {});
      var b4 := BoardOf(6, 7, {(5, 3), (5, 4), (4, 3), (4, 4)}, {});
      var b5 := BoardOf(6, 7, {(5, 3), (5, 4), (4, 3), (4, 4), (3, 3)}, {});
      var b6 := BoardOf(6, 7, {(5, 3), (4, 3), (3, 3), (5, 4), (4, 4), (3, 4)}, {});
      && AfterMove(b0, A, 3) == b1
      && AfterMove(b1, A, 4) == b2
      && AfterMove(b2, A, 3) == b3
      && AfterMove(b3, A, 4) == b4
      && AfterMove(b4, A, 3) == b5
      && AfterMove(b5, A, 4) == b6
      && MoveOutcome(b6, A, 3) == Win(2)
  {
    FirstClick();
    SecondClick();
    ThirdClick();
    FourthClick();
    FifthClick();
    SixthClick();
    FourthDropInColumnWins();
  }

  /** A holds (5, 0), (4, 1), (3, 2) and (2, 3). The scan finds this line
      from the anchor (2, 3) going down-left; the down-right line from
      (5, 0) leaves the board at its first step. */
  lemma DiagonalFoundDownLeft()
    ensures
      var g := BoardOf(6, 7, {(5, 0), (4, 1), (3, 2), (2, 3)}, {});
      && HasWin(g, A)
      && IsWinAt(g, A, 2, 3, DiagDownLeft)
      && !IsWinAt(g, A, 5, 0, DiagDownRight)
  {
    var g := BoardOf(6, 7, {(5, 0), (4, 1), (3, 2), (2, 3)}, {});
    forall k | 0 <= k < 4
      ensures Owns(g, A, Offset(2, k, DY(DiagDownLeft)), Offset(3, k, DX(DiagDownLeft)))
    {
      assert k == 0 || k == 1 || k == 2 || k == 3;
    }
    assert IsWinAt(g, A, 2, 3, DiagDownLeft);
    assert !Owns(g, A, Offset(5, 1, DY(DiagDownRight)), Offset(0, 1, DX(DiagDownRight)));
  }
}
