/**
 The single-step walk shared by the king and knight calculators: for each
 offset of a table, look at the one square it reaches and emit a move onto
 it when it is on the board and does not hold a friendly piece.
 */
module Stepping {
  import opened ChessTypes

  const KingOffsets: seq<Offset> :=
    [Offset(1, 0), Offset(-1, 0), Offset(0, 1), Offset(0, -1),
     Offset(1, 1), Offset(1, -1), Offset(-1, 1), Offset(-1, -1)]

  const KnightOffsets: seq<Offset> :=
    [Offset(2, 1), Offset(2, -1), Offset(1, 2), Offset(1, -2),
     Offset(-2, 1), Offset(-2, -1), Offset(-1, 2), Offset(-1, -2)]

  /** The offset that leads from `from` to `to`. */
  function Delta(from: Position, to: Position): (o: Offset)
    ensures Shift(from, o) == to
  {
    Offset(to.row - from.row, to.col - from.col)
  }

  /** A knight's jump: two squares one way and one square the other. */
  predicate IsJump(o: Offset)
  {
    || ((o.dr == 1 || o.dr == -1) && (o.dc == 2 || o.dc == -2))
    || ((o.dr == 2 || o.dr == -2) && (o.dc == 1 || o.dc == -1))
  }

  /** The move (if any) the walk emits for offset `o`: the body of the source's `for` loop. */
  function Step(b: Board, from: Position, o: Offset): seq<Move>
    requires b.Holds(from)
  {
    var pos := Shift(from, o);
    if IsValidMove(pos) && !b.IsFriendly(from, pos) then [Move(from, pos, None)] else []
  }

  /** The moves the walk emits over the whole table, in table order. */
  function Steps(b: Board, from: Position, offsets: seq<Offset>): seq<Move>
    requires b.Holds(from)
  {
    if offsets == [] then []
    else Steps(b, from, offsets[..|offsets| - 1]) + Step(b, from, offsets[|offsets| - 1])
  }

  lemma StepsPrefix(b: Board, from: Position, offsets: seq<Offset>, i: int)
    requires b.Holds(from) && 0 <= i < |offsets|
    ensures Steps(b, from, offsets[..i + 1]) == Steps(b, from, offsets[..i]) + Step(b, from, offsets[i])
  {
    assert offsets[..i + 1][..i] == offsets[..i];
  }

  /**
   The king and knight calculators: `row` and `col` are shifted by the
   offset, the square is tested, and both are reset to the piece's square
   before the next offset.
   */
  method StepMoveCalc(b: Board, myPosition: Position, offsets: seq<Offset>) returns (moves: seq<Move>)
    requires b.Holds(myPosition)
    ensures moves == Steps(b, myPosition, offsets)
  {
    moves := [];
    var row, col := myPosition.row, myPosition.col;
    for i := 0 to |offsets|
      invariant row == myPosition.row && col == myPosition.col
      invariant moves == Steps(b, myPosition, offsets[..i])
    {
      StepsPrefix(b, myPosition, offsets, i);
      var direction := offsets[i];
      row := row + direction.dr;
      col := col + direction.dc;
      var pos := Position(row, col);
      if IsValidMove(pos) && !b.IsFriendly(myPosition, pos) {
        moves := moves + [Move(myPosition, pos, None)];
      }
      row, col := myPosition.row, myPosition.col;
    }
    assert offsets[..|offsets|] == offsets;
  }

  /**
   The walk emits exactly the non-promoting moves from the origin onto the
   on-board, non-friendly squares that an offset of the table reaches.
   */
  lemma {:induction false} StepsMember(b: Board, from: Position, offsets: seq<Offset>, m: Move)
    requires b.Holds(from)
    ensures m in Steps(b, from, offsets) <==>
      && m.start == from && m.promotion == None
      && IsValidMove(m.end) && !b.IsFriendly(from, m.end)
      && Delta(from, m.end) in offsets
  {
    if offsets != [] {
      var init, last := offsets[..|offsets| - 1], offsets[|offsets| - 1];
      assert offsets == init + [last];
      StepsMember(b, from, init, m);
    }
  }

  /** The walk emits at most one move per offset. */
  lemma {:induction false} StepsLength(b: Board, from: Position, offsets: seq<Offset>)
    requires b.Holds(from)
    ensures |Steps(b, from, offsets)| <= |offsets|
  {
    if offsets != [] {
      StepsLength(b, from, offsets[..|offsets| - 1]);
    }
  }

  /** A table without repeated offsets yields no move twice. */
  lemma {:induction false} StepsNoDup(b: Board, from: Position, offsets: seq<Offset>)
    requires b.Holds(from) && NoDup(offsets)
    ensures NoDup(Steps(b, from, offsets))
  {
    if offsets != [] {
      var init, last := offsets[..|offsets| - 1], offsets[|offsets| - 1];
      assert NoDup(init) by {
        forall i, j | 0 <= i < j < |init| ensures init[i] != init[j] {
          assert init[i] == offsets[i] && init[j] == offsets[j];
        }
      }
      assert last !in init by {
        forall k | 0 <= k < |init| ensures init[k] != last {
          assert init[k] == offsets[k];
        }
      }
      StepsNoDup(b, from, init);
      var s, t := Steps(b, from, init), Step(b, from, last);
      forall i, j | 0 <= i < j < |s + t| ensures (s + t)[i] != (s + t)[j] {
        if j == |s| {
          var m := (s + t)[i];
          assert m in s;
          StepsMember(b, from, init, m);
          assert Delta(from, m.end) != Delta(from, (s + t)[j].end);
        }
      }
    }
  }

  /** The king's table holds exactly the eight one-square steps. */
  lemma KingOffsetsAreUnits(o: Offset)
    ensures o in KingOffsets <==> IsUnit(o)
  {
  }

  /** The knight's table holds exactly the eight jumps. */
  lemma KnightOffsetsAreJumps(o: Offset)
    ensures o in KnightOffsets <==> IsJump(o)
  {
  }

  /** Neither table repeats an offset. */
  lemma OffsetTablesNoDup()
    ensures NoDup(KingOffsets) && NoDup(KnightOffsets)
  {
  }

  /** A king moves one square in any direction, onto any on-board square not held by a friend. */
  lemma KingMoves(b: Board, from: Position, m: Move)
    requires b.Holds(from)
    ensures m in Steps(b, from, KingOffsets) <==>
      && m.start == from && m.promotion == None
      && IsValidMove(m.end) && !b.IsFriendly(from, m.end)
      && IsUnit(Delta(from, m.end))
  {
    StepsMember(b, from, KingOffsets, m);
    KingOffsetsAreUnits(Delta(from, m.end));
  }

  /** A knight jumps two-and-one, onto any on-board square not held by a friend. */
  lemma KnightMoves(b: Board, from: Position, m: Move)
    requires b.Holds(from)
    ensures m in Steps(b, from, KnightOffsets) <==>
      && m.start == from && m.promotion == None
      && IsValidMove(m.end) && !b.IsFriendly(from, m.end)
      && IsJump(Delta(from, m.end))
  {
    StepsMember(b, from, KnightOffsets, m);
    KnightOffsetsAreJumps(Delta(from, m.end));
  }

  /** Neither table yields more than eight moves, nor any move twice. */
  lemma StepsBounded(b: Board, from: Position)
    requires b.Holds(from)
    ensures |Steps(b, from, KingOffsets)| <= 8 && NoDup(Steps(b, from, KingOffsets))
    ensures |Steps(b, from, KnightOffsets)| <= 8 && NoDup(Steps(b, from, KnightOffsets))
  {
    StepsLength(b, from, KingOffsets);
    StepsLength(b, from, KnightOffsets);
    OffsetTablesNoDup();
    StepsNoDup(b, from, KingOffsets);
    StepsNoDup(b, from, KnightOffsets);
  }
}

/** Worked boards for the single-step walk. */
module SteppingScenarios {
  import opened ChessTypes
  import opened Stepping

  /** Eight appends onto an empty sequence; stated over plain sequences so that no step is unfolded. */
  lemma Unroll8<X>(s: seq<seq<X>>, t: seq<seq<X>>)
    requires |s| == 9 && |t| == 8 && s[0] == []
    requires forall i :: 0 <= i < 8 ==> s[i + 1] == s[i] + t[i]
    ensures s[8] == t[0] + t[1] + t[2] + t[3] + t[4] + t[5] + t[6] + t[7]
  {
  }

  /** A walk over a table of eight offsets is their eight steps, in order. */
  lemma StepsOfEight(b: Board, o: Position, ds: seq<Offset>)
    requires b.Holds(o) && |ds| == 8
    ensures Steps(b, o, ds) ==
      Step(b, o, ds[0]) + Step(b, o, ds[1]) + Step(b, o, ds[2]) + Step(b, o, ds[3]) +
      Step(b, o, ds[4]) + Step(b, o, ds[5]) + Step(b, o, ds[6]) + Step(b, o, ds[7])
  {
    var s := seq(9, i requires 0 <= i <= 8 => Steps(b, o, ds[..i]));
    var t := seq(8, i requires 0 <= i < 8 => Step(b, o, ds[i]));
    forall i | 0 <= i < 8 ensures s[i + 1] == s[i] + t[i] {
      StepsPrefix(b, o, ds, i);
    }
    assert ds[..8] == ds;
    Unroll8(s, t);
  }

  /** A king alone in the corner (1,1) steps up, right and diagonally: three moves, in table order. */
  lemma LoneKingInCorner(b: Board, o: Position)
    requires o == Position(1, 1) && b.Holds(o) && b.squares.Keys == {o}
    ensures Steps(b, o, KingOffsets) ==
      [Move(o, Position(2, 1), None), Move(o, Position(1, 2), None), Move(o, Position(2, 2), None)]
  {
    StepsOfEight(b, o, KingOffsets);
  }

  /** A knight alone in the corner (1,1) has two jumps, to (3,2) and (2,3). */
  lemma LoneKnightInCorner(b: Board, o: Position)
    requires o == Position(1, 1) && b.Holds(o) && b.squares.Keys == {o}
    ensures Steps(b, o, KnightOffsets) == [Move(o, Position(3, 2), None), Move(o, Position(2, 3), None)]
  {
    StepsOfEight(b, o, KnightOffsets);
  }

  /**
   A king on (4,4) whose own pieces stand on (5,4) and (4,5) and an enemy on
   (3,3): the friendly squares are skipped, the enemy square is a capture.
   */
  lemma KingAmongPieces(b: Board, o: Position, friend: Piece, enemy: Piece)
    requires o == Position(4, 4) && b.Holds(o)
    requires b.squares.Keys == {o, Position(5, 4), Position(4, 5), Position(3, 3)}
    requires friend.pieceColor == b.squares[o].pieceColor && enemy.pieceColor != friend.pieceColor
    requires b.squares[Position(5, 4)] == friend && b.squares[Position(4, 5)] == friend
    requires b.squares[Position(3, 3)] == enemy
    ensures Steps(b, o, KingOffsets) ==
      [Move(o, Position(3, 4), None), Move(o, Position(4, 3), None), Move(o, Position(5, 5), None),
       Move(o, Position(5, 3), None), Move(o, Position(3, 5), None), Move(o, Position(3, 3), None)]
  {
    StepsOfEight(b, o, KingOffsets);
  }
}
