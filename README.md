# Chess piece move generation, modelled in Dafny

This project models the move generator of a chess piece
(`shared/src/main/java/chess/ChessPiece.java`). Given a board and the square
of a piece, it computes the piece's pseudo-legal moves: moves that respect how
the piece moves and how other pieces block it, without asking whether the move
leaves the mover's own king in check.

- `pieceMoves` switches on the piece type and runs one of six calculators.
- The rook, bishop and queen calculators walk each direction of a table
  square by square. A walk stops at the board's edge or at a friendly piece;
  it ends after capturing an enemy.
- The king and knight calculators test one square per offset of a table.
- The pawn calculator emits four kinds of move:
  - a step forward onto an empty square;
  - a diagonal capture on either side;
  - a two-square first move;
  - four promotion choices (rook, knight, bishop, queen, in that order) for
    any step or capture onto the last row.
- `equals` compares pieces by colour and type.

Files:

- `chess_types.dfy` (module `ChessTypes`) holds the values the generator
  works on: colours, piece types, pieces, positions, offsets and moves. It
  also holds the board queries the generator calls: the bounds check and the
  empty, friendly and enemy tests.
  - The board is a map from squares to pieces; a square missing from the map
    is empty.
  - The friendly and enemy tests demand an occupied origin square. That is
    the precondition `Board.Holds`.
- `sliding.dfy` (module `Sliding`) holds the ray walk.
  - The source's `while` loop becomes the method `WalkRay`.
  - The `for` loop over the direction table becomes the method
    `SlideMoveCalc`.
  - Both are proved equal to the specification functions `Ray` and `Slide`.
  - Lemmas about `Ray` and `Slide` state what the walk emits.
  - Module `SlidingScenarios` works a lone rook in the corner.
- `stepping.dfy` (module `Stepping`) holds the king and knight calculator
  `StepMoveCalc`, which is proved equal to `Steps`.
  - The king's moves are characterised as the one-square steps.
  - The knight's moves are characterised as the two-and-one jumps.
  - Module `SteppingScenarios` works concrete boards.
- `pawn.dfy` (module `PawnMoves`) holds `PawnMoveCalc` with its white and
  black blocks.
  - It is proved equal to `PawnMovesFrom`, which is built from `Advance`,
    `Capture` and `DoubleStep`.
  - Module `PawnScenarios` works concrete boards.
- `chess_piece.dfy` (module `ChessPiece`) holds the dispatcher
  `PieceMoves`, the calculator interface `Calculate`, and `Equals`.

The two-square pawn move is modelled as the code writes it.

- The code requires the square two ahead to hold no enemy. It tests this
  twice and never tests that square for a friendly piece.
- So a pawn on its initial row, with the square ahead empty and its own
  piece two squares ahead, is offered a move onto that piece.
- In chess, the two-square move needs both squares ahead to be empty, and
  no move lands on one's own piece. The code breaks that rule in this one
  case, and the model follows the code.
- The calculators and the dispatcher follow the code as written. The
  intended rule is defined beside it (`DoubleStepIntended`,
  `PawnMovesIntended`) and proved; see Findings.

## Model

| member | source | states |
|---|---|---|
| `ChessTypes.IsValidMove` | shared/src/main/java/chess/ChessPiece.java:85 | the bounds check the calculators call: row and column both in 1..8. It is a definition, with no contract of its own |
| `ChessTypes.Board.IsFriendly` | shared/src/main/java/chess/ChessPiece.java:85 | the friendly test: the target square holds a piece of the origin piece's colour. It is a definition, with no contract of its own |
| `ChessTypes.Board.IsEnemy` | shared/src/main/java/chess/ChessPiece.java:86 | the enemy test: the target square holds a piece of the other colour. It is a definition, with no contract of its own |
| `ChessTypes.QueriesPartition` | shared/src/main/java/chess/ChessPiece.java:226-227 | an on-board square is exactly one of empty, friendly or enemy. So the step-forward test "not friendly and not enemy" means "empty". The piece on the origin is friendly to itself |
| `ChessPiece.CalculatorFor` | shared/src/main/java/chess/ChessPiece.java:56-64 | the switch from piece type to calculator. It is a definition, with no contract of its own; the match is exhaustive, so the `default` branch has no counterpart |
| `ChessPiece.MovesOf` | shared/src/main/java/chess/ChessPiece.java:65 | the moves each calculator's specification gives. It is a definition; `Calculate` and `PieceMoves` are proved against it |
| `Sliding.Ray` | shared/src/main/java/chess/ChessPiece.java:85-94 | the specification of the inner walk from step `k` on: nothing off the board or on a friendly square, a capture that ends the walk on an enemy square, and otherwise a move and the next step. It is a definition; `WalkRay`, `RayMember` and `RayUpToBlocker` are proved about it |
| `Sliding.Slide` | shared/src/main/java/chess/ChessPiece.java:81-97 | the specification of a whole sliding calculator: the rays of the table's directions, concatenated in table order. It is a definition; `SlideMoveCalc` and `SlideMoves` are proved about it |
| `Stepping.Step` | shared/src/main/java/chess/ChessPiece.java:174-179 | the specification of one king or knight offset: one move when the shifted square is on the board and not friendly, none otherwise. It is a definition |
| `Stepping.Steps` | shared/src/main/java/chess/ChessPiece.java:173-182 | the specification of the king and knight calculators: the steps of the table's offsets, in table order. It is a definition; `StepMoveCalc` and `StepsMember` are proved about it |
| `PawnMoves.Forward` | shared/src/main/java/chess/ChessPiece.java:225 | a pawn advances one row at a time, up or down (`row + 1` for white, `row - 1` for black at line 276) |
| `PawnMoves.InitialRow` | shared/src/main/java/chess/ChessPiece.java:216 | the initial row lies six rows behind the promotion row, in the pawn's direction (2 and 8 for white, 7 and 1 for black) |
| `PawnMoves.PromotionRow` | shared/src/main/java/chess/ChessPiece.java:217 | the promotion row is the last row of the board in the pawn's direction |
| `PawnMoves.Promotions` | shared/src/main/java/chess/ChessPiece.java:228-235 | four moves onto the target when promoting, each carrying a promotion, otherwise one plain move; all start on the origin and end on the target |
| `PawnMoves.Advance` | shared/src/main/java/chess/ChessPiece.java:225-236 | every move of the step forward ends on the square one row ahead, which is on the board and empty (black: lines 276-287) |
| `PawnMoves.Capture` | shared/src/main/java/chess/ChessPiece.java:238-261 | every capture on a side ends on the diagonal square ahead on that side, which is on the board and holds an enemy (black: lines 289-312) |
| `PawnMoves.DoubleStep` | shared/src/main/java/chess/ChessPiece.java:264-271 | as written: at most the plain move two rows ahead. It is emitted only from the initial row, with the square ahead empty and the far square on the board and holding no enemy; a friendly far square is not excluded (black: lines 315-322) |
| `PawnMoves.PawnMovesFrom` | shared/src/main/java/chess/ChessPiece.java:223-272 | the specification of the pawn calculator: step, right capture, left capture, two-square move, in that order. It is a definition; `PawnMoveCalc` and `PawnMember` are proved about it |
| `PawnMoves.DoubleStepIntended` | shared/src/main/java/chess/ChessPiece.java:264-271 | the corrected two-square move: as `DoubleStep`, but the far square must be empty |
| `PawnMoves.PawnMovesIntended` | shared/src/main/java/chess/ChessPiece.java:223-272 | the corrected pawn calculator, built with `DoubleStepIntended`. It is a definition; `PawnIntendedNeverOntoFriend` and `PawnIntendedDropsOnlyFriendlyDoubleStep` are proved about it |
| `ChessPiece.PieceMoves` | shared/src/main/java/chess/ChessPiece.java:55-66 | runs the calculator chosen for the piece's type. Every move it returns starts on `myPosition` and ends on another on-board square, and no move appears twice. Non-pawn moves never promote and never land on a friendly piece. A pawn move lands on a friendly piece only as the two-square move, and promotes exactly when it ends on the promotion row |
| `ChessPiece.Calculate` | shared/src/main/java/chess/ChessPiece.java:68-70 | the call through the calculator interface returns exactly the moves that calculator's specification gives |
| `ChessPiece.CalculatedMoves` | shared/src/main/java/chess/ChessPiece.java:72-326 | for each of the six calculators, each move starts on the origin and ends on another on-board square. Non-pawn moves carry no promotion and no friendly target. Pawn moves promote iff they reach the promotion row |
| `ChessPiece.CalculatedNoDup` | shared/src/main/java/chess/ChessPiece.java:72-326 | no calculator emits the same move twice |
| `ChessPiece.QueenMovesAreRookThenBishop` | shared/src/main/java/chess/ChessPiece.java:132-161 | the queen's moves are the rook's moves followed by the bishop's, from the same square on the same board |
| `ChessPiece.Equals` | shared/src/main/java/chess/ChessPiece.java:337-344 | `equals` holds exactly for a piece of the same colour and type. It never holds for null or for an object of another class |
| `ChessPiece.EqualsIsEquivalence` | shared/src/main/java/chess/ChessPiece.java:337-344 | `equals` is reflexive, symmetric and transitive on pieces |
| `Sliding.WalkRay` | shared/src/main/java/chess/ChessPiece.java:85-94 | the inner walk emits exactly `Ray(b, myPosition, direction, 1)` |
| `Sliding.SlideMoveCalc` | shared/src/main/java/chess/ChessPiece.java:72-100 | the rook, bishop and queen calculators emit exactly `Slide` over their direction table: the rays of the table's directions, in table order |
| `Sliding.DirectionTablesValid` | shared/src/main/java/chess/ChessPiece.java:76-139 | the rook, bishop and queen tables hold distinct one-square directions |
| `Sliding.AlongCoords` | shared/src/main/java/chess/ChessPiece.java:91-93 | after `k` advances, each coordinate has moved by `k` in the direction's sense |
| `Sliding.StepBound` | shared/src/main/java/chess/ChessPiece.java:85 | a walk leaves the board within seven steps, which is why the `while` loop ends |
| `Sliding.RayStep` | shared/src/main/java/chess/ChessPiece.java:85-93 | one loop turn. An off-board or friendly square ends the ray with nothing. An enemy square ends it with one capture. An empty square emits a move and the walk continues |
| `Sliding.RayMember` | shared/src/main/java/chess/ChessPiece.java:85-94 | a move is on the ray iff it is a non-promoting move from the origin onto a reached square. A reached square is on the board and not friendly, and every square before it on the ray is empty |
| `Sliding.RayUpToBlocker` | shared/src/main/java/chess/ChessPiece.java:85-94 | in closed form, the ray is one move per empty square up to the first occupied or off-board square. It adds one capture of that square exactly when it holds an enemy |
| `Sliding.NothingBeyondBlocker` | shared/src/main/java/chess/ChessPiece.java:86-89 | no move reaches past an occupied square: sliding pieces do not jump |
| `Sliding.RayLength` | shared/src/main/java/chess/ChessPiece.java:85-94 | a ray emits at most seven moves |
| `Sliding.RayNoDup` | shared/src/main/java/chess/ChessPiece.java:85-94 | a ray never emits a move twice |
| `Sliding.SlideMember` | shared/src/main/java/chess/ChessPiece.java:81-97 | a move of the walk is a move of the ray of some direction of the table, and conversely |
| `Sliding.SlideMoves` | shared/src/main/java/chess/ChessPiece.java:72-100 | a move is emitted iff it is a non-promoting move from the origin onto a square some table direction reaches |
| `Sliding.SlideTargets` | shared/src/main/java/chess/ChessPiece.java:85-90 | every emitted move starts on the origin, ends on an on-board non-friendly square and does not promote |
| `Sliding.SlideNoDup` | shared/src/main/java/chess/ChessPiece.java:76-97 | a table of distinct directions yields no move twice, because different directions never reach the same square |
| `Sliding.SlideAppend` | shared/src/main/java/chess/ChessPiece.java:81-97 | walking a concatenated table is walking each part in turn |
| `Sliding.QueenIsRookThenBishop` | shared/src/main/java/chess/ChessPiece.java:136-139 | the queen's walk is the rook's walk followed by the bishop's walk. Its move set is the union of theirs |
| `SlidingScenarios.LoneRay` | shared/src/main/java/chess/ChessPiece.java:85-94 | on a board holding only the moving piece, a ray covers every on-board square of its line |
| `SlidingScenarios.LoneRayUp` | shared/src/main/java/chess/ChessPiece.java:85-94 | a lone piece's upward ray runs to the last row, nearest square first |
| `SlidingScenarios.LoneRayRight` | shared/src/main/java/chess/ChessPiece.java:85-94 | a lone piece's rightward ray runs to the last column, nearest square first |
| `SlidingScenarios.CornerRays` | shared/src/main/java/chess/ChessPiece.java:76-97 | from (1,1) on an otherwise empty board, the upward ray has seven moves and the rightward ray has seven. The downward and leftward rays are empty |
| `SlidingScenarios.LoneRookInCorner` | shared/src/main/java/chess/ChessPiece.java:72-100 | a lone rook on (1,1) has fourteen moves: (2..8,1), then (1,2..8) |
| `Stepping.StepMoveCalc` | shared/src/main/java/chess/ChessPiece.java:171-183 | the king and knight calculators emit exactly `Steps` over their offset table, in table order |
| `Stepping.StepsMember` | shared/src/main/java/chess/ChessPiece.java:173-182 | a move is emitted iff it is a non-promoting move from the origin onto an on-board, non-friendly square, reached by an offset of the table |
| `Stepping.StepsLength` | shared/src/main/java/chess/ChessPiece.java:173-182 | at most one move per offset |
| `Stepping.StepsNoDup` | shared/src/main/java/chess/ChessPiece.java:173-182 | a table of distinct offsets yields no move twice |
| `Stepping.OffsetTablesNoDup` | shared/src/main/java/chess/ChessPiece.java:167-195 | neither the king's table nor the knight's table repeats an offset |
| `Stepping.KingOffsetsAreUnits` | shared/src/main/java/chess/ChessPiece.java:167-170 | the king's table is exactly the eight one-square steps |
| `Stepping.KnightOffsetsAreJumps` | shared/src/main/java/chess/ChessPiece.java:191-195 | the knight's table is exactly the eight two-and-one jumps |
| `Stepping.KingMoves` | shared/src/main/java/chess/ChessPiece.java:163-185 | a king moves one square in any direction, onto any on-board square that does not hold a friendly piece |
| `Stepping.KnightMoves` | shared/src/main/java/chess/ChessPiece.java:187-210 | a knight jumps two-and-one, onto any on-board square that does not hold a friendly piece |
| `Stepping.StepsBounded` | shared/src/main/java/chess/ChessPiece.java:163-210 | a king or knight has at most eight moves, none repeated |
| `SteppingScenarios.StepsOfEight` | shared/src/main/java/chess/ChessPiece.java:173-182 | a walk over eight offsets is the eight single steps, in order |
| `SteppingScenarios.LoneKingInCorner` | shared/src/main/java/chess/ChessPiece.java:163-185 | a lone king on (1,1) has three moves: (2,1), (1,2), (2,2), in that order |
| `SteppingScenarios.LoneKnightInCorner` | shared/src/main/java/chess/ChessPiece.java:187-210 | a lone knight on (1,1) has two moves: (3,2), then (2,3) |
| `SteppingScenarios.KingAmongPieces` | shared/src/main/java/chess/ChessPiece.java:177-179 | a king skips squares holding friendly pieces and captures onto an enemy square |
| `PawnMoves.PawnMoveCalc` | shared/src/main/java/chess/ChessPiece.java:212-326 | the pawn calculator emits exactly `PawnMovesFrom`, in this order: the forward step, the right capture, the left capture, the two-square move |
| `PawnMoves.WhitePawnMoves` | shared/src/main/java/chess/ChessPiece.java:223-272 | the white block. Initial row 2, promotion row 8, advancing up the rows; right is towards column 8 |
| `PawnMoves.BlackPawnMoves` | shared/src/main/java/chess/ChessPiece.java:274-323 | the black block. Initial row 7, promotion row 1, advancing down the rows; right is towards column 1 |
| `PawnMoves.AddPromotions` | shared/src/main/java/chess/ChessPiece.java:228-235 | onto the promotion row, appends four moves: rook, knight, bishop, queen, in that order. Otherwise it appends one plain move |
| `PawnMoves.PromotionsMember` | shared/src/main/java/chess/ChessPiece.java:228-235 | the promotion expansion emits one move per promotion piece, or the single plain move, and none twice |
| `PawnMoves.PawnMember` | shared/src/main/java/chess/ChessPiece.java:223-272 | a move is emitted iff it is one of these, each from the origin: the step onto the empty square ahead; a capture onto a forward diagonal holding an enemy; or, from the initial row with the square ahead empty, the plain two-square move onto a square holding no enemy. Steps and captures carry each promotion when they reach the promotion row, and none otherwise |
| `PawnMoves.PawnPromotesOnLastRow` | shared/src/main/java/chess/ChessPiece.java:216-217 | a pawn move carries a promotion iff it ends on the promotion row. Every pawn move goes one row forward, or is the two-square move |
| `PawnMoves.PawnNoDup` | shared/src/main/java/chess/ChessPiece.java:212-326 | the pawn emits no move twice |
| `PawnMoves.PawnLength` | shared/src/main/java/chess/ChessPiece.java:212-326 | the pawn emits at most twelve moves |
| `PawnMoves.DoubleStepOntoFriend` | shared/src/main/java/chess/ChessPiece.java:264-271 | as written, with the square ahead empty and a friendly piece two ahead, the two-square move onto that piece is emitted |
| `PawnMoves.PawnIntendedNeverOntoFriend` | shared/src/main/java/chess/ChessPiece.java:264-271 | with the intended far-square test, every pawn move ends on an on-board square that does not hold a friendly piece |
| `PawnMoves.PawnIntendedDropsOnlyFriendlyDoubleStep` | shared/src/main/java/chess/ChessPiece.java:264-271 | the written and intended pawn calculators agree on every board, except where the written one appends the two-square move onto a friendly piece |
| `PawnScenarios.WhitePawnOpening` | shared/src/main/java/chess/ChessPiece.java:223-271 | a lone white pawn on row 2 moves to row 3 or row 4 of its column |
| `PawnScenarios.BlackPawnOpening` | shared/src/main/java/chess/ChessPiece.java:274-322 | a lone black pawn on row 7 moves to row 6 or row 5 of its column |
| `PawnScenarios.WhitePawnLaterStep` | shared/src/main/java/chess/ChessPiece.java:264-271 | off its initial row, a lone pawn only steps one square |
| `PawnScenarios.WhitePawnPromotes` | shared/src/main/java/chess/ChessPiece.java:225-236 | a lone white pawn on row 7 has the four promotions onto row 8, in order |
| `PawnScenarios.BlackPawnPromotes` | shared/src/main/java/chess/ChessPiece.java:276-287 | a lone black pawn on row 2 has the four promotions onto row 1, in order |
| `PawnScenarios.WhitePawnBlocked` | shared/src/main/java/chess/ChessPiece.java:225-271 | any piece directly ahead blocks both the one-square and the two-square move |
| `PawnScenarios.WhitePawnCaptures` | shared/src/main/java/chess/ChessPiece.java:238-261 | a white pawn steps ahead, then captures right (column + 1), then captures left (column - 1) |
| `PawnScenarios.BlackPawnCaptures` | shared/src/main/java/chess/ChessPiece.java:289-312 | a black pawn's right capture is towards column 1 and comes before its left capture |
| `PawnScenarios.WhitePawnDoubleStepOntoEnemy` | shared/src/main/java/chess/ChessPiece.java:264-271 | an enemy two squares ahead removes the two-square move and leaves the one-square step |
| `PawnScenarios.WhitePawnDoubleStepOntoFriend` | shared/src/main/java/chess/ChessPiece.java:264-271 | with the pawn's own piece two squares ahead, the two-square move onto it is still emitted |

## Left out

- `toString` (lines 329-335): string formatting; the model has no output.
- `hashCode` (lines 346-349): the value comes from Java's `Objects.hash` over enum hash codes, which are identity-based.
- `getTeamColor` and `getPieceType` (lines 37-46): they are the fields `pieceColor` and `pieceType` of the `Piece` datatype.
- The `default -> throw` branch of the switch (line 63) cannot be reached: the match over the six piece types is exhaustive.
- `ChessBoard`, `ChessPosition`, `ChessMove` and `ChessGame` are not part of this model.
  - The board is a map from squares to pieces; a square missing from the map is empty.
  - The bounds check accepts rows and columns 1..8.
  - A square is friendly when it holds a piece of the same colour as the piece on the origin square, and enemy when it holds a piece of the other colour.
  - A `null` promotion is `None`.
  - The returned collection is a sequence, which keeps the order in which the moves are added.
- The calculator classes are the constructors of the `Calculator` datatype. The virtual call `moves.pieceMoves(board, myPosition)` is the match in `Calculate`.
- Calling the generator on an empty square is excluded by a precondition. Its board queries would otherwise read the colour of a missing piece.
- The source repeats some code; the model writes it once:
  - the four-move promotion block is the method `AddPromotions`;
  - the repeated enemy test on the far square of the two-square move is tested once;
  - each colour block of the pawn calculator is its own method.
- `null` is left out. A Java piece may be built with a `null` colour or type, but `TeamColor` and `PieceType` have no such value. With a `null` type, `pieceMoves` throws a `NullPointerException` at the switch (line 56). A pawn standing on a board square whose piece has a `null` colour gets an empty list, because neither colour block (lines 223 and 274) runs.
- Java `int` overflow cannot occur: coordinates start on the board and move at most nine squares away, so they are unbounded integers.

## Findings

| source | as written | input that shows it | evidently intended | confidence | as-written member | corrected member |
|---|---|---|---|---|---|---|
| shared/src/main/java/chess/ChessPiece.java:264-271 | the two-square move tests the far square only for an enemy (the same test twice); the black block at lines 315-322 does the same. Modelled by `PawnMoves.DoubleStep`; `PawnScenarios.WhitePawnDoubleStepOntoFriend` works the board below | white pawn on (2,c), (3,c) empty, a white piece on (4,c): the move (2,c)→(4,c) is emitted, onto the pawn's own piece | the far square must hold no piece: the repeated enemy test was meant as a friendly test | not executed; high | `PawnMoves.DoubleStepOntoFriend` | `PawnMoves.PawnIntendedNeverOntoFriend` |
