/**
 The value types the move generator works on, and the board queries it
 consumes. The board, positions and moves belong to collaborators whose
 storage is not part of this model: a board is only a map from squares to
 pieces (a square missing from the map is empty), and the generator sees it
 through the bounds check and the colour comparisons below.
 */
module ChessTypes {

  datatype Option<T> = None | Some(value: T)

  datatype TeamColor = White | Black

  datatype PieceType = King | Queen | Bishop | Knight | Rook | Pawn

  /** A piece is a colour and a type; it never changes once built. */
  datatype Piece = Piece(pieceColor: TeamColor, pieceType: PieceType)

  /** A (row, column) pair; rows and columns are 1..8 on the board, but the
      generator also builds positions off the board while it walks. */
  datatype Position = Position(row: int, col: int)

  /** A step of a direction or offset table: added to a position's row and column. */
  datatype Offset = Offset(dr: int, dc: int)

  /** A move from `start` to `end`, with the piece a pawn promotes to, if any. */
  datatype Move = Move(start: Position, end: Position, promotion: Option<PieceType>)

  /** The bounds check: the square lies on the 8×8 board. */
  predicate IsValidMove(pos: Position)
  {
    1 <= pos.row <= 8 && 1 <= pos.col <= 8
  }

  /** The square reached from `pos` by one offset. */
  function Shift(pos: Position, o: Offset): Position
  {
    Position(pos.row + o.dr, pos.col + o.dc)
  }

  /** One square in one of the eight directions: a king's step, or a sliding piece's unit direction. */
  predicate IsUnit(d: Offset)
  {
    -1 <= d.dr <= 1 && -1 <= d.dc <= 1 && (d.dr != 0 || d.dc != 0)
  }

  datatype Board = Board(squares: map<Position, Piece>) {

    /** The piece on an on-board square, or None when it is empty. */
    function GetPiece(pos: Position): Option<Piece>
      requires IsValidMove(pos)
    {
      if pos in squares then Some(squares[pos]) else None
    }

    /** `pos` is on the board and holds a piece: what the colour queries demand of their origin. */
    predicate Holds(pos: Position)
    {
      IsValidMove(pos) && pos in squares
    }

    /** The on-board square holds no piece. */
    predicate IsEmpty(pos: Position)
      requires IsValidMove(pos)
    {
      GetPiece(pos).None?
    }

    /** `to` holds a piece of the same colour as the piece on `from`. */
    predicate IsFriendly(from: Position, to: Position)
      requires Holds(from) && IsValidMove(to)
    {
      GetPiece(to).Some? && GetPiece(to).value.pieceColor == GetPiece(from).value.pieceColor
    }

    /** `to` holds a piece of the other colour than the piece on `from`. */
    predicate IsEnemy(from: Position, to: Position)
      requires Holds(from) && IsValidMove(to)
    {
      GetPiece(to).Some? && GetPiece(to).value.pieceColor != GetPiece(from).value.pieceColor
    }
  }

  /**
   An on-board square is exactly one of empty, friendly or enemy to the piece
   on `from`, and that piece is friendly to itself.
   */
  lemma QueriesPartition(b: Board, from: Position, to: Position)
    requires b.Holds(from) && IsValidMove(to)
    ensures b.IsEmpty(to) <==> !b.IsFriendly(from, to) && !b.IsEnemy(from, to)
    ensures !(b.IsFriendly(from, to) && b.IsEnemy(from, to))
    ensures b.IsFriendly(from, from)
  {
  }

  /** The board with no piece on it. */
  const EmptyBoard: Board := Board(map[])

  /** No element of `s` occurs twice. */
  predicate NoDup<T(==)>(s: seq<T>)
  {
    forall i, j :: 0 <= i < j < |s| ==> s[i] != s[j]
  }

  /** Appending a sequence whose elements are all new keeps it duplicate-free. */
  lemma NoDupAppend<T>(s: seq<T>, t: seq<T>)
    requires NoDup(s) && NoDup(t)
    requires forall x :: x in s ==> x !in t
    ensures NoDup(s + t)
  {
    forall i, j | 0 <= i < j < |s + t| ensures (s + t)[i] != (s + t)[j] {
      if i < |s| && |s| <= j {
        assert (s + t)[i] in s && (s + t)[j] in t;
      }
    }
  }
}
