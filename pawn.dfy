/**
 The pawn calculator: a step forward onto an empty square, a diagonal
 capture on either side, and a two-square first move, each forward step or
 capture onto the last row expanded into the four promotion choices.
 */
module PawnMoves {
  import opened ChessTypes

  /** The row direction a pawn of colour `c` advances in. */
  function Forward(c: TeamColor): (dir: int)
    ensures dir == 1 || dir == -1
  {
    if c == White then 1 else -1
  }

  /** The row a pawn of colour `c` starts on, where it may advance two squares. */
  function InitialRow(c: TeamColor): (r: int)
    ensures r + 6 * Forward(c) == PromotionRow(c)
  {
    if c == White then 2 else 7
  }

  /** The row on which a pawn of colour `c` promotes: the last row of the board in its direction. */
  function PromotionRow(c: TeamColor): (r: int)
    ensures IsValidMove(Position(r, 1)) && !IsValidMove(Position(r + Forward(c), 1))
  {
    if c == White then 8 else 1
  }

  /** The pieces a pawn may promote to, in the order the calculator emits them. */
  const PromotionPieces: seq<PieceType> := [Rook, Knight, Bishop, Queen]

  /** The moves onto `to`: one per promotion piece when `promote` holds, otherwise a plain move. */
  function Promotions(from: Position, to: Position, promote: bool): (r: seq<Move>)
    ensures |r| == if promote then 4 else 1
    ensures forall m :: m in r ==> m.start == from && m.end == to && (m.promotion.Some? <==> promote)
  {
    if promote then
      [Move(from, to, Some(Rook)), Move(from, to, Some(Knight)),
       Move(from, to, Some(Bishop)), Move(from, to, Some(Queen))]
    else [Move(from, to, None)]
  }

  /**
   Appends the moves onto `to`: the four promotion choices, in the order
   rook, knight, bishop, queen, when `promote` holds, otherwise one plain move.
   */
  method AddPromotions(moves: seq<Move>, myPosition: Position, to: Position, promote: bool)
    returns (r: seq<Move>)
    ensures r == moves + Promotions(myPosition, to, promote)
  {
    r := moves;
    if promote {
      r := r + [Move(myPosition, to, Some(Rook))];
      r := r + [Move(myPosition, to, Some(Knight))];
      r := r + [Move(myPosition, to, Some(Bishop))];
      r := r + [Move(myPosition, to, Some(Queen))];
    } else {
      r := r + [Move(myPosition, to, None)];
    }
  }

  /** The colour of the pawn on `from`. */
  function ColorAt(b: Board, from: Position): TeamColor
    requires b.Holds(from)
  {
    b.GetPiece(from).value.pieceColor
  }

  /** The square one row ahead of the pawn, `d` columns to the side (the side being taken the pawn's way). */
  function Ahead(b: Board, from: Position, side: int): Position
    requires b.Holds(from)
  {
    var dir := Forward(ColorAt(b, from));
    Position(from.row + dir, from.col + side * dir)
  }

  /** The square two rows ahead of the pawn. */
  function TwoAhead(b: Board, from: Position): Position
    requires b.Holds(from)
  {
    Position(from.row + 2 * Forward(ColorAt(b, from)), from.col)
  }

  /** A move one row ahead lands on the promotion row. */
  predicate Promotes(b: Board, from: Position)
    requires b.Holds(from)
  {
    from.row + Forward(ColorAt(b, from)) == PromotionRow(ColorAt(b, from))
  }

  /** The step forward: onto the square ahead when it is on the board and neither friendly nor enemy. */
  function Advance(b: Board, from: Position): (r: seq<Move>)
    requires b.Holds(from)
    ensures forall m :: m in r ==> m.end == Ahead(b, from, 0) && IsValidMove(m.end) && b.IsEmpty(m.end)
  {
    var front := Ahead(b, from, 0);
    if IsValidMove(front) && !b.IsFriendly(from, front) && !b.IsEnemy(from, front)
    then Promotions(from, front, Promotes(b, from)) else []
  }

  /** The diagonal capture on side `side` (1 for the pawn's right, -1 for its left). */
  function Capture(b: Board, from: Position, side: int): (r: seq<Move>)
    requires b.Holds(from)
    ensures forall m :: m in r ==> m.end == Ahead(b, from, side) && IsValidMove(m.end) && b.IsEnemy(from, m.end)
  {
    var target := Ahead(b, from, side);
    if IsValidMove(target) && b.IsEnemy(from, target)
    then Promotions(from, target, Promotes(b, from)) else []
  }

  /**
   The two-square move, exactly as tested: the square two ahead is on the
   board and holds no enemy, the square ahead is neither friendly nor enemy,
   and the pawn is on its initial row.
   */
  function DoubleStep(b: Board, from: Position): (r: seq<Move>)
    requires b.Holds(from)
    ensures r == [] || r == [Move(from, TwoAhead(b, from), None)]
    ensures r != [] ==> from.row == InitialRow(ColorAt(b, from)) && IsValidMove(Ahead(b, from, 0)) && b.IsEmpty(Ahead(b, from, 0))
    ensures r != [] ==> IsValidMove(TwoAhead(b, from)) && !b.IsEnemy(from, TwoAhead(b, from))
  {
    var front, two := Ahead(b, from, 0), TwoAhead(b, from);
    if IsValidMove(two) && !b.IsFriendly(from, front) && !b.IsEnemy(from, front)
       && !b.IsEnemy(from, two) && from.row == InitialRow(ColorAt(b, from))
    then [Move(from, two, None)] else []
  }

  /** Everything the pawn calculator emits, in the order it emits it. */
  function PawnMovesFrom(b: Board, from: Position): seq<Move>
    requires b.Holds(from)
  {
    Advance(b, from) + Capture(b, from, 1) + Capture(b, from, -1) + DoubleStep(b, from)
  }

  /**
   The pawn calculator. A white pawn advances up the rows (initial row 2,
   promotion row 8), a black pawn down them (initial row 7, promotion row 1);
   the two colours are handled by two separate blocks, as in the source.
   */
  method PawnMoveCalc(b: Board, myPosition: Position) returns (moves: seq<Move>)
    requires b.Holds(myPosition)
    ensures moves == PawnMovesFrom(b, myPosition)
  {
    moves := [];
    var color := b.GetPiece(myPosition).value.pieceColor;
    var initialRow := if color == White then 2 else 7;
    var promotionRow := if color == White then 8 else 1;
    if color == White {
      var block := WhitePawnMoves(b, myPosition, initialRow, promotionRow);
      moves := moves + block;
    }
    if color == Black {
      var block := BlackPawnMoves(b, myPosition, initialRow, promotionRow);
      moves := moves + block;
    }
  }

  /** The white block of the pawn calculator: the pawn advances up the rows. */
  method WhitePawnMoves(b: Board, myPosition: Position, initialRow: int, promotionRow: int) returns (moves: seq<Move>)
    requires b.Holds(myPosition) && b.GetPiece(myPosition).value.pieceColor == White
    requires initialRow == 2 && promotionRow == 8
    ensures moves == PawnMovesFrom(b, myPosition)
  {
    moves := [];
    var color := b.GetPiece(myPosition).value.pieceColor;
    var row, col := myPosition.row, myPosition.col;
    // step forward
    var frontPos := Position(row + 1, col);
    assert Forward(color) == 1 && frontPos == Ahead(b, myPosition, 0);
    assert Promotes(b, myPosition) == (row + 1 == promotionRow);
    if IsValidMove(frontPos) && !b.IsFriendly(myPosition, frontPos) && !b.IsEnemy(myPosition, frontPos) {
      moves := AddPromotions(moves, myPosition, frontPos, row + 1 == promotionRow);
    }
    assert moves == Advance(b, myPosition);
    // right attack
    var rightPos := Position(row + 1, col + 1);
    assert rightPos == Ahead(b, myPosition, 1);
    if IsValidMove(rightPos) && b.IsEnemy(myPosition, rightPos) {
      moves := AddPromotions(moves, myPosition, rightPos, row + 1 == promotionRow);
    }
    assert moves == Advance(b, myPosition) + Capture(b, myPosition, 1);
    // left attack
    var leftPos := Position(row + 1, col - 1);
    assert leftPos == Ahead(b, myPosition, -1);
    if IsValidMove(leftPos) && b.IsEnemy(myPosition, leftPos) {
      moves := AddPromotions(moves, myPosition, leftPos, row + 1 == promotionRow);
    }
    assert moves == Advance(b, myPosition) + Capture(b, myPosition, 1) + Capture(b, myPosition, -1);
    // two-square first move
    var twoStep := Position(row + 2, col);
    assert twoStep == TwoAhead(b, myPosition) && initialRow == InitialRow(color);
    if IsValidMove(twoStep) && !b.IsFriendly(myPosition, frontPos) && !b.IsEnemy(myPosition, frontPos)
       && !b.IsEnemy(myPosition, twoStep) && row == initialRow {
      moves := moves + [Move(myPosition, twoStep, None)];
    }
  }

  /** The black block of the pawn calculator: the pawn advances down the rows. */
  method BlackPawnMoves(b: Board, myPosition: Position, initialRow: int, promotionRow: int) returns (moves: seq<Move>)
    requires b.Holds(myPosition) && b.GetPiece(myPosition).value.pieceColor == Black
    requires initialRow == 7 && promotionRow == 1
    ensures moves == PawnMovesFrom(b, myPosition)
  {
    moves := [];
    var color := b.GetPiece(myPosition).value.pieceColor;
    var row, col := myPosition.row, myPosition.col;
    // step forward
    var frontPos := Position(row - 1, col);
    assert Forward(color) == -1 && frontPos == Ahead(b, myPosition, 0);
    assert Promotes(b, myPosition) == (row - 1 == promotionRow);
    if IsValidMove(frontPos) && !b.IsFriendly(myPosition, frontPos) && !b.IsEnemy(myPosition, frontPos) {
      moves := AddPromotions(moves, myPosition, frontPos, row - 1 == promotionRow);
    }
    assert moves == Advance(b, myPosition);
    // right attack
    var rightPos := Position(row - 1, col - 1);
    assert rightPos == Ahead(b, myPosition, 1);
    if IsValidMove(rightPos) && b.IsEnemy(myPosition, rightPos) {
      moves := AddPromotions(moves, myPosition, rightPos, row - 1 == promotionRow);
    }
    assert moves == Advance(b, myPosition) + Capture(b, myPosition, 1);
    // left attack
    var leftPos := Position(row - 1, col + 1);
    assert leftPos == Ahead(b, myPosition, -1);
    if IsValidMove(leftPos) && b.IsEnemy(myPosition, leftPos) {
      moves := AddPromotions(moves, myPosition, leftPos, row - 1 == promotionRow);
    }
    assert moves == Advance(b, myPosition) + Capture(b, myPosition, 1) + Capture(b, myPosition, -1);
    // two-square first move
    var twoStep := Position(row - 2, col);
    assert twoStep == TwoAhead(b, myPosition) && initialRow == InitialRow(color);
    if IsValidMove(twoStep) && !b.IsFriendly(myPosition, frontPos) && !b.IsEnemy(myPosition, frontPos)
       && !b.IsEnemy(myPosition, twoStep) && row == initialRow {
      moves := moves + [Move(myPosition, twoStep, None)];
    }
  }

  /** `m` carries the promotion the calculator attaches to a move one row ahead. */
  predicate PromotionFits(m: Move, promote: bool)
  {
    if promote then m.promotion.Some? && m.promotion.value in PromotionPieces else m.promotion == None
  }

  /** The promotion expansion emits exactly one move onto `to` per fitting promotion, none twice. */
  lemma PromotionsMember(from: Position, to: Position, promote: bool, m: Move)
    ensures m in Promotions(from, to, promote) <==> m.start == from && m.end == to && PromotionFits(m, promote)
    ensures NoDup(Promotions(from, to, promote))
  {
  }

  /**
   The pawn emits exactly: the step onto the empty square ahead; a capture
   onto either forward diagonal holding an enemy; each with the four
   promotions when it lands on the promotion row and none otherwise; and,
   from the initial row, the plain move two squares ahead when the square
   ahead is empty and the square two ahead holds no enemy.
   */
  lemma PawnMember(b: Board, from: Position, m: Move)
    requires b.Holds(from)
    ensures m in PawnMovesFrom(b, from) <==>
      && m.start == from
      && (|| (&& m.end == Ahead(b, from, 0) && IsValidMove(m.end) && b.IsEmpty(m.end)
              && PromotionFits(m, Promotes(b, from)))
          || (&& (m.end == Ahead(b, from, 1) || m.end == Ahead(b, from, -1))
              && IsValidMove(m.end) && b.IsEnemy(from, m.end)
              && PromotionFits(m, Promotes(b, from)))
          || (&& m.end == TwoAhead(b, from) && from.row == InitialRow(ColorAt(b, from))
              && m.promotion == None && IsValidMove(m.end) && !b.IsEnemy(from, m.end)
              && b.IsEmpty(Ahead(b, from, 0))))
  {
    var promote := Promotes(b, from);
    PromotionsMember(from, Ahead(b, from, 0), promote, m);
    PromotionsMember(from, Ahead(b, from, 1), promote, m);
    PromotionsMember(from, Ahead(b, from, -1), promote, m);
  }

  /**
   A move the pawn emits carries a promotion exactly when it lands on the
   promotion row: the two-square move never reaches it.
   */
  lemma PawnPromotesOnLastRow(b: Board, from: Position, m: Move)
    requires b.Holds(from) && m in PawnMovesFrom(b, from)
    ensures m.promotion.Some? <==> m.end.row == PromotionRow(ColorAt(b, from))
    ensures m.end.row == from.row + Forward(ColorAt(b, from)) || m.end == TwoAhead(b, from)
  {
    PawnMember(b, from, m);
  }

  /** The pawn emits no move twice. */
  lemma PawnNoDup(b: Board, from: Position)
    requires b.Holds(from)
    ensures NoDup(PawnMovesFrom(b, from))
  {
    var promote := Promotes(b, from);
    var a, r, l, d := Advance(b, from), Capture(b, from, 1), Capture(b, from, -1), DoubleStep(b, from);
    var front, right, left, two := Ahead(b, from, 0), Ahead(b, from, 1), Ahead(b, from, -1), TwoAhead(b, from);
    assert front != right && front != left && right != left && two != front && two != right && two != left;
    forall m | m in a ensures m.end == front {
      PromotionsMember(from, front, promote, m);
    }
    forall m | m in r ensures m.end == right {
      PromotionsMember(from, right, promote, m);
    }
    forall m | m in l ensures m.end == left {
      PromotionsMember(from, left, promote, m);
    }
    PromotionsMember(from, front, promote, Move(from, front, None));
    PromotionsMember(from, right, promote, Move(from, right, None));
    PromotionsMember(from, left, promote, Move(from, left, None));
    NoDupAppend(a, r);
    NoDupAppend(a + r, l);
    NoDupAppend(a + r + l, d);
  }

  /** The pawn emits at most twelve moves: four promotions onto each of three squares. */
  lemma PawnLength(b: Board, from: Position)
    requires b.Holds(from)
    ensures |PawnMovesFrom(b, from)| <= 12
  {
    if from.row == InitialRow(ColorAt(b, from)) {
      assert !Promotes(b, from);
    }
  }

  /**
   As written, the two-square move looks at the far square for an enemy
   only: from the initial row, with the square ahead empty and a piece of
   the pawn's own colour two squares ahead, the move onto that piece is
   emitted.
   */
  lemma DoubleStepOntoFriend(b: Board, from: Position)
    requires b.Holds(from) && from.row == InitialRow(ColorAt(b, from))
    requires b.IsEmpty(Ahead(b, from, 0)) && b.IsFriendly(from, TwoAhead(b, from))
    ensures Move(from, TwoAhead(b, from), None) in PawnMovesFrom(b, from)
  {
    PawnMember(b, from, Move(from, TwoAhead(b, from), None));
  }

  /** The two-square move as evidently intended: the far square holds neither a friendly piece nor an enemy. */
  function DoubleStepIntended(b: Board, from: Position): (r: seq<Move>)
    requires b.Holds(from)
    ensures r == [] || r == [Move(from, TwoAhead(b, from), None)]
    ensures r != [] ==> from.row == InitialRow(ColorAt(b, from)) && IsValidMove(Ahead(b, from, 0)) && b.IsEmpty(Ahead(b, from, 0))
    ensures r != [] ==> IsValidMove(TwoAhead(b, from)) && b.IsEmpty(TwoAhead(b, from))
  {
    var front, two := Ahead(b, from, 0), TwoAhead(b, from);
    if IsValidMove(two) && !b.IsFriendly(from, front) && !b.IsEnemy(from, front)
       && !b.IsFriendly(from, two) && !b.IsEnemy(from, two) && from.row == InitialRow(ColorAt(b, from))
    then [Move(from, two, None)] else []
  }

  /** The pawn calculator with the intended two-square move. */
  function PawnMovesIntended(b: Board, from: Position): seq<Move>
    requires b.Holds(from)
  {
    Advance(b, from) + Capture(b, from, 1) + Capture(b, from, -1) + DoubleStepIntended(b, from)
  }

  /** With the intended test, no pawn move lands on the board outside, or on a friendly piece. */
  lemma PawnIntendedNeverOntoFriend(b: Board, from: Position, m: Move)
    requires b.Holds(from) && m in PawnMovesIntended(b, from)
    ensures m.start == from && IsValidMove(m.end) && !b.IsFriendly(from, m.end)
  {
    var promote := Promotes(b, from);
    PromotionsMember(from, Ahead(b, from, 0), promote, m);
    PromotionsMember(from, Ahead(b, from, 1), promote, m);
    PromotionsMember(from, Ahead(b, from, -1), promote, m);
  }

  /**
   The intended and the written calculators differ on exactly one kind of
   board: when the written one emits the two-square move onto a friendly
   piece, which the intended one leaves out; otherwise they agree.
   */
  lemma PawnIntendedDropsOnlyFriendlyDoubleStep(b: Board, from: Position)
    requires b.Holds(from)
    ensures DoubleStep(b, from) != [] && b.IsFriendly(from, TwoAhead(b, from)) ==>
      PawnMovesFrom(b, from) == PawnMovesIntended(b, from) + [Move(from, TwoAhead(b, from), None)]
    ensures !(DoubleStep(b, from) != [] && b.IsFriendly(from, TwoAhead(b, from))) ==>
      PawnMovesFrom(b, from) == PawnMovesIntended(b, from)
  {
  }
}

/** Worked boards for the pawn calculator. */
module PawnScenarios {
  import opened ChessTypes
  import opened PawnMoves

  /** A white pawn alone on its initial row steps one or two squares up its column. */
  lemma WhitePawnOpening(b: Board, o: Position)
    requires o.row == 2 && b.Holds(o) && b.squares.Keys == {o} && b.squares[o].pieceColor == White
    ensures PawnMovesFrom(b, o) == [Move(o, Position(3, o.col), None), Move(o, Position(4, o.col), None)]
  {
  }

  /** A black pawn alone on its initial row steps one or two squares down its column. */
  lemma BlackPawnOpening(b: Board, o: Position)
    requires o.row == 7 && b.Holds(o) && b.squares.Keys == {o} && b.squares[o].pieceColor == Black
    ensures PawnMovesFrom(b, o) == [Move(o, Position(6, o.col), None), Move(o, Position(5, o.col), None)]
  {
  }

  /** Past its initial row, a lone pawn steps one square only. */
  lemma WhitePawnLaterStep(b: Board, o: Position)
    requires 3 <= o.row <= 6 && b.Holds(o) && b.squares.Keys == {o} && b.squares[o].pieceColor == White
    ensures PawnMovesFrom(b, o) == [Move(o, Position(o.row + 1, o.col), None)]
  {
  }

  /** A lone white pawn one row from the end promotes, to rook, knight, bishop and queen in that order. */
  lemma WhitePawnPromotes(b: Board, o: Position)
    requires o.row == 7 && b.Holds(o) && b.squares.Keys == {o} && b.squares[o].pieceColor == White
    ensures PawnMovesFrom(b, o) ==
      [Move(o, Position(8, o.col), Some(Rook)), Move(o, Position(8, o.col), Some(Knight)),
       Move(o, Position(8, o.col), Some(Bishop)), Move(o, Position(8, o.col), Some(Queen))]
  {
  }

  /** A lone black pawn one row from its end promotes the same way. */
  lemma BlackPawnPromotes(b: Board, o: Position)
    requires o.row == 2 && b.Holds(o) && b.squares.Keys == {o} && b.squares[o].pieceColor == Black
    ensures PawnMovesFrom(b, o) ==
      [Move(o, Position(1, o.col), Some(Rook)), Move(o, Position(1, o.col), Some(Knight)),
       Move(o, Position(1, o.col), Some(Bishop)), Move(o, Position(1, o.col), Some(Queen))]
  {
  }

  /** Any piece on the square ahead blocks both forward moves. */
  lemma WhitePawnBlocked(b: Board, o: Position, blocker: Position)
    requires o.row == 2 && b.Holds(o) && b.squares[o].pieceColor == White
    requires blocker == Position(3, o.col) && b.squares.Keys == {o, blocker}
    ensures PawnMovesFrom(b, o) == []
  {
  }

  /**
   A white pawn on (4,4) with enemies on both forward diagonals steps ahead,
   then captures to its right (5,5), then to its left (5,3).
   */
  lemma WhitePawnCaptures(b: Board, o: Position, enemy: Piece)
    requires o == Position(4, 4) && b.Holds(o) && b.squares[o].pieceColor == White
    requires enemy.pieceColor == Black
    requires b.squares.Keys == {o, Position(5, 5), Position(5, 3)}
    requires b.squares[Position(5, 5)] == enemy && b.squares[Position(5, 3)] == enemy
    ensures PawnMovesFrom(b, o) ==
      [Move(o, Position(5, 4), None), Move(o, Position(5, 5), None), Move(o, Position(5, 3), None)]
  {
  }

  /** For a black pawn "right" is towards column 1: from (5,4) it captures (4,3) before (4,5). */
  lemma BlackPawnCaptures(b: Board, o: Position, enemy: Piece)
    requires o == Position(5, 4) && b.Holds(o) && b.squares[o].pieceColor == Black
    requires enemy.pieceColor == White
    requires b.squares.Keys == {o, Position(4, 3), Position(4, 5)}
    requires b.squares[Position(4, 3)] == enemy && b.squares[Position(4, 5)] == enemy
    ensures PawnMovesFrom(b, o) ==
      [Move(o, Position(4, 4), None), Move(o, Position(4, 3), None), Move(o, Position(4, 5), None)]
  {
  }

  /** An enemy two squares ahead stops the two-square move but not the single step. */
  lemma WhitePawnDoubleStepOntoEnemy(b: Board, o: Position, enemy: Piece)
    requires o.row == 2 && b.Holds(o) && b.squares[o].pieceColor == White && enemy.pieceColor == Black
    requires b.squares.Keys == {o, Position(4, o.col)} && b.squares[Position(4, o.col)] == enemy
    ensures PawnMovesFrom(b, o) == [Move(o, Position(3, o.col), None)]
  {
  }

  /**
   The two-square move tests the far square for an enemy only: with the
   pawn's own piece two squares ahead, it is still emitted, onto that piece.
   */
  lemma WhitePawnDoubleStepOntoFriend(b: Board, o: Position, friend: Piece)
    requires o.row == 2 && b.Holds(o) && b.squares[o].pieceColor == White && friend.pieceColor == White
    requires b.squares.Keys == {o, Position(4, o.col)} && b.squares[Position(4, o.col)] == friend
    ensures PawnMovesFrom(b, o) == [Move(o, Position(3, o.col), None), Move(o, Position(4, o.col), None)]
    ensures b.IsFriendly(o, Position(4, o.col))
  {
  }
}
