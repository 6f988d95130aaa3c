/**
 A chess piece: its colour and type, value equality, and the move
 generator that picks the calculator for the piece's type and runs it on a
 board. The moves are pseudo-legal: whether they leave the king in check is
 not considered here.
 */
module ChessPiece {
  import opened ChessTypes
  import opened Sliding
  import opened Stepping
  import opened PawnMoves

  /** The six calculators, one per piece type. */
  datatype Calculator = RookCalc | BishopCalc | QueenCalc | KingCalc | KnightCalc | PawnCalc

  /** The dispatcher's switch on the piece type. */
  function CalculatorFor(t: PieceType): Calculator
  {
    match t
    case Rook => RookCalc
    case Bishop => BishopCalc
    case Queen => QueenCalc
    case King => KingCalc
    case Knight => KnightCalc
    case Pawn => PawnCalc
  }

  /** The moves a calculator emits from `from`, in order. */
  function MovesOf(calculator: Calculator, b: Board, from: Position): seq<Move>
    requires b.Holds(from)
  {
    match calculator
    case RookCalc => Slide(b, from, RookDirections)
    case BishopCalc => Slide(b, from, BishopDirections)
    case QueenCalc => Slide(b, from, QueenDirections)
    case KingCalc => Steps(b, from, KingOffsets)
    case KnightCalc => Steps(b, from, KnightOffsets)
    case PawnCalc => PawnMovesFrom(b, from)
  }

  /** Runs one calculator: the call through the calculator interface. */
  method Calculate(calculator: Calculator, b: Board, myPosition: Position) returns (moves: seq<Move>)
    requires b.Holds(myPosition)
    ensures moves == MovesOf(calculator, b, myPosition)
  {
    match calculator
    case RookCalc =>
      moves := SlideMoveCalc(b, myPosition, RookDirections);
    case BishopCalc =>
      moves := SlideMoveCalc(b, myPosition, BishopDirections);
    case QueenCalc =>
      moves := SlideMoveCalc(b, myPosition, QueenDirections);
    case KingCalc =>
      moves := StepMoveCalc(b, myPosition, KingOffsets);
    case KnightCalc =>
      moves := StepMoveCalc(b, myPosition, KnightOffsets);
    case PawnCalc =>
      moves := PawnMoveCalc(b, myPosition);
  }

  /**
   Every move starts on the piece's square and ends on another square of
   the board. Apart from the pawn's two-square move, no move ends on a
   friendly piece, and only pawn moves carry a promotion.
   */
  lemma CalculatedMoves(calculator: Calculator, b: Board, from: Position, m: Move)
    requires b.Holds(from) && m in MovesOf(calculator, b, from)
    ensures m.start == from && IsValidMove(m.end) && m.end != from
    ensures calculator != PawnCalc ==> m.promotion == None && !b.IsFriendly(from, m.end)
    ensures calculator == PawnCalc ==> !b.IsFriendly(from, m.end) || m.end == TwoAhead(b, from)
    ensures calculator == PawnCalc ==> (m.promotion.Some? <==> m.end.row == PromotionRow(ColorAt(b, from)))
  {
    DirectionTablesValid();
    OffsetTablesNoDup();
    match calculator
    case RookCalc => SlideTargets(b, from, RookDirections, m);
    case BishopCalc => SlideTargets(b, from, BishopDirections, m);
    case QueenCalc => SlideTargets(b, from, QueenDirections, m);
    case KingCalc => StepsMember(b, from, KingOffsets, m);
    case KnightCalc => StepsMember(b, from, KnightOffsets, m);
    case PawnCalc =>
      PawnMember(b, from, m);
      PawnPromotesOnLastRow(b, from, m);
  }

  /** No calculator emits a move twice. */
  lemma CalculatedNoDup(calculator: Calculator, b: Board, from: Position)
    requires b.Holds(from)
    ensures NoDup(MovesOf(calculator, b, from))
  {
    DirectionTablesValid();
    OffsetTablesNoDup();
    match calculator
    case RookCalc => SlideNoDup(b, from, RookDirections);
    case BishopCalc => SlideNoDup(b, from, BishopDirections);
    case QueenCalc => SlideNoDup(b, from, QueenDirections);
    case KingCalc => StepsNoDup(b, from, KingOffsets);
    case KnightCalc => StepsNoDup(b, from, KnightOffsets);
    case PawnCalc => PawnNoDup(b, from);
  }

  /**
   The move generator: picks the calculator for the piece's type and runs
   it. The calculators read the colour of the piece standing on
   `myPosition` from the board.
   */
  method PieceMoves(piece: Piece, b: Board, myPosition: Position) returns (moves: seq<Move>)
    requires b.Holds(myPosition)
    ensures moves == MovesOf(CalculatorFor(piece.pieceType), b, myPosition)
    ensures NoDup(moves)
    ensures forall m :: m in moves ==> m.start == myPosition && IsValidMove(m.end) && m.end != myPosition
    ensures piece.pieceType != Pawn ==>
      forall m :: m in moves ==> m.promotion == None && !b.IsFriendly(myPosition, m.end)
    ensures piece.pieceType == Pawn ==>
      forall m :: m in moves ==> !b.IsFriendly(myPosition, m.end) || m.end == TwoAhead(b, myPosition)
    ensures piece.pieceType == Pawn ==>
      forall m :: m in moves ==> (m.promotion.Some? <==> m.end.row == PromotionRow(ColorAt(b, myPosition)))
  {
    var calculator := CalculatorFor(piece.pieceType);
    moves := Calculate(calculator, b, myPosition);
    CalculatedNoDup(calculator, b, myPosition);
    forall m | m in moves
      ensures m.start == myPosition && IsValidMove(m.end) && m.end != myPosition
      ensures calculator != PawnCalc ==> m.promotion == None && !b.IsFriendly(myPosition, m.end)
      ensures calculator == PawnCalc ==> !b.IsFriendly(myPosition, m.end) || m.end == TwoAhead(b, myPosition)
      ensures calculator == PawnCalc ==> (m.promotion.Some? <==> m.end.row == PromotionRow(ColorAt(b, myPosition)))
    {
      CalculatedMoves(calculator, b, myPosition, m);
    }
  }

  /** A queen's moves are a rook's moves followed by a bishop's moves from the same square. */
  lemma QueenMovesAreRookThenBishop(b: Board, from: Position)
    requires b.Holds(from)
    ensures MovesOf(CalculatorFor(Queen), b, from) ==
      MovesOf(CalculatorFor(Rook), b, from) + MovesOf(CalculatorFor(Bishop), b, from)
  {
    QueenIsRookThenBishop(b, from);
  }

  /** What `equals` may be handed: no object, a piece, or an object of some other class. */
  datatype Object = NullRef | PieceRef(piece: Piece) | OtherRef

  /** Value equality: only a piece of the same colour and type is equal. */
  function Equals(self: Piece, o: Object): (r: bool)
    ensures r <==> o == PieceRef(self)
  {
    match o
    case NullRef => false
    case OtherRef => false
    case PieceRef(that) => self.pieceColor == that.pieceColor && self.pieceType == that.pieceType
  }

  /** `equals` is an equivalence on pieces. */
  lemma EqualsIsEquivalence(x: Piece, y: Piece, z: Piece)
    ensures Equals(x, PieceRef(x))
    ensures Equals(x, PieceRef(y)) ==> Equals(y, PieceRef(x))
    ensures Equals(x, PieceRef(y)) && Equals(y, PieceRef(z)) ==> Equals(x, PieceRef(z))
  {
  }
}
