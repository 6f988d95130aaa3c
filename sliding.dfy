/**
 The ray walk shared by the rook, bishop and queen calculators: for each
 direction of a table, step away from the piece one square at a time,
 emitting a move onto every empty square, stopping at the board's edge or
 at a friendly piece, and stopping after emitting a capture onto an enemy.
 */
module Sliding {
  import opened ChessTypes

  const RookDirections: seq<Offset> := [Offset(1, 0), Offset(-1, 0), Offset(0, 1), Offset(0, -1)]

  const BishopDirections: seq<Offset> := [Offset(1, 1), Offset(1, -1), Offset(-1, 1), Offset(-1, -1)]

  const QueenDirections: seq<Offset> :=
    [Offset(1, 0), Offset(-1, 0), Offset(0, 1), Offset(0, -1),
     Offset(1, 1), Offset(1, -1), Offset(-1, 1), Offset(-1, -1)]

  /** The three direction tables are made of distinct unit directions. */
  lemma DirectionTablesValid()
    ensures AllUnit(RookDirections) && NoDup(RookDirections)
    ensures AllUnit(BishopDirections) && NoDup(BishopDirections)
    ensures AllUnit(QueenDirections) && NoDup(QueenDirections)
  {
  }

  /** Every direction of the table is one square in one of the eight directions. */
  predicate AllUnit(dirs: seq<Offset>)
  {
    forall i :: 0 <= i < |dirs| ==> IsUnit(dirs[i])
  }

  /** The square `k` shifts by `d` away from `from`, as the walk's `row += …; col += …` reaches it. */
  function Along(from: Position, d: Offset, k: int): Position
    decreases k
  {
    if k <= 0 then from else Shift(Along(from, d, k - 1), d)
  }

  /** In closed form, step `k` of a unit direction moves each coordinate by `k` the direction's way. */
  lemma {:induction false} AlongCoords(from: Position, d: Offset, k: int)
    requires IsUnit(d) && 0 <= k
    ensures Along(from, d, k).row ==
      if d.dr == 1 then from.row + k else if d.dr == -1 then from.row - k else from.row
    ensures Along(from, d, k).col ==
      if d.dc == 1 then from.col + k else if d.dc == -1 then from.col - k else from.col
  {
    if k > 0 {
      AlongCoords(from, d, k - 1);
    }
  }

  /** A ray leaves the board within seven steps. */
  lemma StepBound(from: Position, d: Offset, k: int)
    requires IsValidMove(from) && IsUnit(d) && 0 <= k
    requires IsValidMove(Along(from, d, k))
    ensures k <= 7
  {
    AlongCoords(from, d, k);
  }

  /** Different step counts reach different squares. */
  lemma AlongInjective(from: Position, d: Offset, j: int, k: int)
    requires IsUnit(d) && 0 <= j && 0 <= k && Along(from, d, j) == Along(from, d, k)
    ensures j == k
  {
    AlongCoords(from, d, j);
    AlongCoords(from, d, k);
  }

  /** Two different directions never reach the same square (at one step or more). */
  lemma DistinctDirectionsDisjoint(from: Position, d: Offset, e: Offset, j: int, k: int)
    requires IsUnit(d) && IsUnit(e) && 1 <= j && 1 <= k
    requires Along(from, d, j) == Along(from, e, k)
    ensures d == e
  {
    AlongCoords(from, d, j);
    AlongCoords(from, e, k);
  }

  /**
   The moves the walk in direction `d` emits from its `k`-th square on
   (the source's inner `while` loop, started at step `k`).
   */
  function Ray(b: Board, from: Position, d: Offset, k: int): seq<Move>
    requires b.Holds(from) && IsUnit(d) && 1 <= k
    decreases 8 - k
  {
    var pos := Along(from, d, k);
    if !IsValidMove(pos) || b.IsFriendly(from, pos) then []
    else if b.IsEnemy(from, pos) then [Move(from, pos, None)]
    else
      StepBound(from, d, k);
      [Move(from, pos, None)] + Ray(b, from, d, k + 1)
  }

  /** The moves of the whole walk over a direction table, direction by direction. */
  function Slide(b: Board, from: Position, dirs: seq<Offset>): seq<Move>
    requires b.Holds(from) && AllUnit(dirs)
  {
    if dirs == [] then []
    else Slide(b, from, dirs[..|dirs| - 1]) + Ray(b, from, dirs[|dirs| - 1], 1)
  }

  /** One step of the walk: what the ray from step `k` is, by the square at step `k`. */
  lemma RayStep(b: Board, from: Position, d: Offset, k: int)
    requires b.Holds(from) && IsUnit(d) && 1 <= k
    ensures var pos := Along(from, d, k);
      !IsValidMove(pos) || b.IsFriendly(from, pos) ==> Ray(b, from, d, k) == []
    ensures var pos := Along(from, d, k);
      IsValidMove(pos) && b.IsEnemy(from, pos) ==> Ray(b, from, d, k) == [Move(from, pos, None)]
    ensures var pos := Along(from, d, k);
      IsValidMove(pos) && !b.IsFriendly(from, pos) && !b.IsEnemy(from, pos) ==>
        k <= 7 && Ray(b, from, d, k) == [Move(from, pos, None)] + Ray(b, from, d, k + 1)
  {
    if IsValidMove(Along(from, d, k)) {
      StepBound(from, d, k);
    }
  }

  /** The walk over the first `i + 1` directions extends the walk over the first `i` by one ray. */
  lemma SlidePrefix(b: Board, from: Position, dirs: seq<Offset>, i: int)
    requires b.Holds(from) && AllUnit(dirs) && 0 <= i < |dirs|
    ensures AllUnit(dirs[..i]) && AllUnit(dirs[..i + 1])
    ensures Slide(b, from, dirs[..i + 1]) == Slide(b, from, dirs[..i]) + Ray(b, from, dirs[i], 1)
  {
    assert dirs[..i + 1][..i] == dirs[..i];
  }

  /**
   The walk in one direction (the source's inner `while` loop): `row` and
   `col` start one step from the origin and advance by the direction while
   the square is on the board and not friendly; a capture ends the walk.
   */
  method WalkRay(b: Board, myPosition: Position, direction: Offset) returns (moves: seq<Move>)
    requires b.Holds(myPosition) && IsUnit(direction)
    ensures moves == Ray(b, myPosition, direction, 1)
  {
    moves := [];
    var row := myPosition.row + direction.dr;
    var col := myPosition.col + direction.dc;
    var pos := Position(row, col);
    ghost var k := 1;
    while IsValidMove(pos) && !b.IsFriendly(myPosition, pos)
      invariant 1 <= k <= 8
      invariant pos == Along(myPosition, direction, k) && row == pos.row && col == pos.col
      invariant moves + Ray(b, myPosition, direction, k) == Ray(b, myPosition, direction, 1)
      decreases 8 - k
    {
      RayStep(b, myPosition, direction, k);
      if b.IsEnemy(myPosition, pos) {
        Regroup(moves, [Move(myPosition, pos, None)], Ray(b, myPosition, direction, k), [],
          Ray(b, myPosition, direction, 1));
        moves := moves + [Move(myPosition, pos, None)];
        return;
      }
      Regroup(moves, [Move(myPosition, pos, None)], Ray(b, myPosition, direction, k),
        Ray(b, myPosition, direction, k + 1), Ray(b, myPosition, direction, 1));
      moves := moves + [Move(myPosition, pos, None)];
      row := row + direction.dr;
      col := col + direction.dc;
      pos := Position(row, col);
      k := k + 1;
    }
    RayStep(b, myPosition, direction, k);
    Regroup(moves, [], Ray(b, myPosition, direction, k), [], Ray(b, myPosition, direction, 1));
  }

  /** Moving the head of the rest onto the walked part; stated over plain sequences so that no ray is unfolded. */
  lemma Regroup<X>(walked: seq<X>, head: seq<X>, rest: seq<X>, tail: seq<X>, total: seq<X>)
    requires walked + rest == total && rest == head + tail
    ensures (walked + head) + tail == total
    ensures tail == [] ==> walked + head == total
  {
  }

  /**
   The sliding calculator (RookMoveCalc, BishopMoveCalc and QueenMoveCalc
   differ only in the table they pass): the walks of the table's directions,
   in table order.
   */
  method SlideMoveCalc(b: Board, myPosition: Position, directions: seq<Offset>) returns (moves: seq<Move>)
    requires b.Holds(myPosition) && AllUnit(directions)
    ensures moves == Slide(b, myPosition, directions)
  {
    moves := [];
    for i := 0 to |directions|
      invariant moves == Slide(b, myPosition, directions[..i])
    {
      SlidePrefix(b, myPosition, directions, i);
      var ray := WalkRay(b, myPosition, directions[i]);
      moves := moves + ray;
    }
    assert directions[..|directions|] == directions;
  }

  /**
   Square `k` of the ray is on the board and not friendly, and every square
   from step `k0` up to it (exclusive) is on the board and empty.
   */
  predicate Reaches(b: Board, from: Position, d: Offset, k0: int, k: int)
    requires b.Holds(from)
  {
    && k0 <= k
    && IsValidMove(Along(from, d, k))
    && !b.IsFriendly(from, Along(from, d, k))
    && forall j :: k0 <= j < k ==> IsValidMove(Along(from, d, j)) && b.IsEmpty(Along(from, d, j))
  }

  /** A square reached beyond step `k0` lies past an empty step `k0`. */
  lemma ReachesFirst(b: Board, from: Position, d: Offset, k0: int, k: int)
    requires b.Holds(from) && Reaches(b, from, d, k0, k)
    ensures IsValidMove(Along(from, d, k0))
    ensures k == k0 || b.IsEmpty(Along(from, d, k0))
    ensures !b.IsFriendly(from, Along(from, d, k0))
  {
    if k != k0 {
      assert IsValidMove(Along(from, d, k0)) && b.IsEmpty(Along(from, d, k0));
    }
  }

  /**
   A ray emits exactly the non-promoting moves onto the squares it reaches:
   every empty square up to the first occupied one, and that one too when it
   holds an enemy.
   */
  lemma {:induction false} RayMember(b: Board, from: Position, d: Offset, k0: int, m: Move)
    requires b.Holds(from) && IsUnit(d) && 1 <= k0
    ensures m in Ray(b, from, d, k0) <==>
      m.start == from && m.promotion == None &&
      exists k :: Reaches(b, from, d, k0, k) && m.end == Along(from, d, k)
    decreases 8 - k0
  {
    var pos := Along(from, d, k0);
    RayStep(b, from, d, k0);
    if !IsValidMove(pos) || b.IsFriendly(from, pos) {
      if exists k :: Reaches(b, from, d, k0, k) && m.end == Along(from, d, k) {
        var k :| Reaches(b, from, d, k0, k) && m.end == Along(from, d, k);
        ReachesFirst(b, from, d, k0, k);
      }
    } else if b.IsEnemy(from, pos) {
      if m in Ray(b, from, d, k0) {
        assert Reaches(b, from, d, k0, k0);
      }
      if exists k :: Reaches(b, from, d, k0, k) && m.end == Along(from, d, k) {
        var k :| Reaches(b, from, d, k0, k) && m.end == Along(from, d, k);
        ReachesFirst(b, from, d, k0, k);
      }
    } else {
      StepBound(from, d, k0);
      RayMember(b, from, d, k0 + 1, m);
      if m in Ray(b, from, d, k0) {
        if m == Move(from, pos, None) {
          assert Reaches(b, from, d, k0, k0);
        } else {
          var k :| Reaches(b, from, d, k0 + 1, k) && m.end == Along(from, d, k);
          assert Reaches(b, from, d, k0, k);
        }
      }
      if m.start == from && m.promotion == None &&
         exists k :: Reaches(b, from, d, k0, k) && m.end == Along(from, d, k) {
        var k :| Reaches(b, from, d, k0, k) && m.end == Along(from, d, k);
        if k > k0 {
          assert Reaches(b, from, d, k0 + 1, k);
        }
      }
    }
  }

  /** A ray emits at most `8 - k0` moves; from step 1, at most seven. */
  lemma {:induction false} RayLength(b: Board, from: Position, d: Offset, k0: int)
    requires b.Holds(from) && IsUnit(d) && 1 <= k0
    ensures |Ray(b, from, d, k0)| <= if k0 <= 8 then 8 - k0 else 0
    decreases 8 - k0
  {
    var pos := Along(from, d, k0);
    if IsValidMove(pos) {
      StepBound(from, d, k0);
      if !b.IsFriendly(from, pos) && !b.IsEnemy(from, pos) {
        RayLength(b, from, d, k0 + 1);
      }
    }
  }

  /** The non-promoting moves onto steps `k0` up to `j` (exclusive) of direction `d`, in order. */
  function Run(from: Position, d: Offset, k0: int, j: int): (r: seq<Move>)
    requires k0 <= j
    ensures |r| == j - k0
  {
    seq(j - k0, i => Move(from, Along(from, d, k0 + i), None))
  }

  lemma RunCons(from: Position, d: Offset, k0: int, j: int)
    requires k0 < j
    ensures Run(from, d, k0, j) == [Move(from, Along(from, d, k0), None)] + Run(from, d, k0 + 1, j)
  {
    var run, rest := Run(from, d, k0, j), Run(from, d, k0 + 1, j);
    forall i | 0 < i < |run| ensures run[i] == rest[i - 1] {
      var k := k0 + 1 + (i - 1);
      assert k == k0 + i;
      assert rest[i - 1] == Move(from, Along(from, d, k), None);
    }
  }

  /**
   The ray in closed form: when the squares from step `k0` up to step `j`
   (exclusive) are on the board and empty and square `j` is off the board or
   occupied, the ray emits one move onto each of those empty squares, in
   order, then a capture onto square `j` exactly when it holds an enemy.
   */
  lemma {:induction false} RayUpToBlocker(b: Board, from: Position, d: Offset, k0: int, j: int)
    requires b.Holds(from) && IsUnit(d) && 1 <= k0 <= j
    requires forall i :: k0 <= i < j ==> IsValidMove(Along(from, d, i)) && b.IsEmpty(Along(from, d, i))
    requires !IsValidMove(Along(from, d, j)) || !b.IsEmpty(Along(from, d, j))
    ensures Ray(b, from, d, k0) ==
      Run(from, d, k0, j) +
      (if IsValidMove(Along(from, d, j)) && b.IsEnemy(from, Along(from, d, j))
       then [Move(from, Along(from, d, j), None)] else [])
    decreases j - k0
  {
    RayStep(b, from, d, k0);
    if k0 < j {
      var pos := Along(from, d, k0);
      assert IsValidMove(pos) && b.IsEmpty(pos);
      RayUpToBlocker(b, from, d, k0 + 1, j);
      RunCons(from, d, k0, j);
      ConsAssoc([Move(from, pos, None)], Ray(b, from, d, k0), Ray(b, from, d, k0 + 1),
        Run(from, d, k0, j), Run(from, d, k0 + 1, j),
        if IsValidMove(Along(from, d, j)) && b.IsEnemy(from, Along(from, d, j))
        then [Move(from, Along(from, d, j), None)] else []);
    }
  }

  /** Consing onto both sides of `r1 == u1 + t`; stated over plain sequences so that no ray is unfolded. */
  lemma ConsAssoc<X>(h: seq<X>, r0: seq<X>, r1: seq<X>, u0: seq<X>, u1: seq<X>, t: seq<X>)
    requires r0 == h + r1 && r1 == u1 + t && u0 == h + u1
    ensures r0 == u0 + t
  {
  }

  /** No square beyond an occupied square of a ray is ever emitted. */
  lemma NothingBeyondBlocker(b: Board, from: Position, d: Offset, j: int, k: int, m: Move)
    requires b.Holds(from) && IsUnit(d) && 1 <= j < k
    requires IsValidMove(Along(from, d, j)) && !b.IsEmpty(Along(from, d, j))
    requires m in Ray(b, from, d, 1)
    ensures m.end != Along(from, d, k)
  {
    RayMember(b, from, d, 1, m);
    var k' :| Reaches(b, from, d, 1, k') && m.end == Along(from, d, k');
    assert k' <= j;
    if m.end == Along(from, d, k) {
      AlongInjective(from, d, k, k');
      assert false;
    }
  }

  /** A ray emits no move twice. */
  lemma {:induction false} RayNoDup(b: Board, from: Position, d: Offset, k0: int)
    requires b.Holds(from) && IsUnit(d) && 1 <= k0
    ensures NoDup(Ray(b, from, d, k0))
    decreases 8 - k0
  {
    var pos := Along(from, d, k0);
    RayStep(b, from, d, k0);
    if IsValidMove(pos) && !b.IsFriendly(from, pos) && !b.IsEnemy(from, pos) {
      RayNoDup(b, from, d, k0 + 1);
      RayNotBack(b, from, d, k0);
      NoDupAppend([Move(from, pos, None)], Ray(b, from, d, k0 + 1));
    }
  }

  /** The rest of a ray never comes back to the square it started from. */
  lemma RayNotBack(b: Board, from: Position, d: Offset, k0: int)
    requires b.Holds(from) && IsUnit(d) && 1 <= k0
    ensures forall m :: m in [Move(from, Along(from, d, k0), None)] ==> m !in Ray(b, from, d, k0 + 1)
  {
    var m := Move(from, Along(from, d, k0), None);
    RayMember(b, from, d, k0 + 1, m);
    if m in Ray(b, from, d, k0 + 1) {
      var k :| Reaches(b, from, d, k0 + 1, k) && m.end == Along(from, d, k);
      AlongInjective(from, d, k0, k);
    }
  }

  /** A move of the walk is a move of the ray of one of the table's directions. */
  lemma {:induction false} SlideMember(b: Board, from: Position, dirs: seq<Offset>, m: Move)
    requires b.Holds(from) && AllUnit(dirs)
    ensures m in Slide(b, from, dirs) <==> exists i :: 0 <= i < |dirs| && m in Ray(b, from, dirs[i], 1)
  {
    if dirs != [] {
      var init := dirs[..|dirs| - 1];
      SlideMember(b, from, init, m);
      if m in Slide(b, from, init) {
        var i :| 0 <= i < |init| && m in Ray(b, from, init[i], 1);
        assert dirs[i] == init[i];
      }
      if exists i :: 0 <= i < |dirs| && m in Ray(b, from, dirs[i], 1) {
        var i :| 0 <= i < |dirs| && m in Ray(b, from, dirs[i], 1);
        if i < |dirs| - 1 {
          assert init[i] == dirs[i];
        }
      }
    }
  }

  /**
   The walk emits exactly the non-promoting moves from the origin onto the
   squares some direction of the table reaches.
   */
  lemma SlideMoves(b: Board, from: Position, dirs: seq<Offset>, m: Move)
    requires b.Holds(from) && AllUnit(dirs)
    ensures m in Slide(b, from, dirs) <==>
      m.start == from && m.promotion == None &&
      exists i, k :: 0 <= i < |dirs| && Reaches(b, from, dirs[i], 1, k) && m.end == Along(from, dirs[i], k)
  {
    SlideMember(b, from, dirs, m);
    if m in Slide(b, from, dirs) {
      var i :| 0 <= i < |dirs| && m in Ray(b, from, dirs[i], 1);
      RayMember(b, from, dirs[i], 1, m);
    }
    if m.start == from && m.promotion == None &&
       exists i, k :: 0 <= i < |dirs| && Reaches(b, from, dirs[i], 1, k) && m.end == Along(from, dirs[i], k) {
      var i, k :| 0 <= i < |dirs| && Reaches(b, from, dirs[i], 1, k) && m.end == Along(from, dirs[i], k);
      RayMember(b, from, dirs[i], 1, m);
    }
  }

  /** Every move of the walk starts at the origin, ends on an on-board, non-friendly square and does not promote. */
  lemma SlideTargets(b: Board, from: Position, dirs: seq<Offset>, m: Move)
    requires b.Holds(from) && AllUnit(dirs)
    requires m in Slide(b, from, dirs)
    ensures m.start == from && m.promotion == None
    ensures IsValidMove(m.end) && !b.IsFriendly(from, m.end)
  {
    SlideMoves(b, from, dirs, m);
  }

  /** A walk over a table of distinct directions emits no move twice. */
  lemma {:induction false} SlideNoDup(b: Board, from: Position, dirs: seq<Offset>)
    requires b.Holds(from) && AllUnit(dirs) && NoDup(dirs)
    ensures NoDup(Slide(b, from, dirs))
  {
    if dirs != [] {
      var init, last := dirs[..|dirs| - 1], dirs[|dirs| - 1];
      SlideNoDup(b, from, init);
      RayNoDup(b, from, last, 1);
      forall m | m in Slide(b, from, init) ensures m !in Ray(b, from, last, 1) {
        SlideMember(b, from, init, m);
        var i :| 0 <= i < |init| && m in Ray(b, from, init[i], 1);
        RayMember(b, from, init[i], 1, m);
        RayMember(b, from, last, 1, m);
        assert init[i] == dirs[i] && i < |dirs| - 1;
        if m in Ray(b, from, last, 1) {
          var j :| Reaches(b, from, init[i], 1, j) && m.end == Along(from, init[i], j);
          var k :| Reaches(b, from, last, 1, k) && m.end == Along(from, last, k);
          DistinctDirectionsDisjoint(from, init[i], last, j, k);
          assert false;
        }
      }
      NoDupAppend(Slide(b, from, init), Ray(b, from, last, 1));
    }
  }

  lemma AllUnitAppend(ds: seq<Offset>, es: seq<Offset>)
    requires AllUnit(ds) && AllUnit(es)
    ensures AllUnit(ds + es)
  {
  }

  /** Walking two tables one after the other emits the two walks' moves in order. */
  lemma {:induction false} SlideAppend(b: Board, from: Position, ds: seq<Offset>, es: seq<Offset>)
    requires b.Holds(from) && AllUnit(ds) && AllUnit(es)
    ensures AllUnit(ds + es)
    ensures Slide(b, from, ds + es) == Slide(b, from, ds) + Slide(b, from, es)
    decreases |es|
  {
    AllUnitAppend(ds, es);
    if es == [] {
      assert ds + es == ds;
    } else {
      var init, last := es[..|es| - 1], es[|es| - 1];
      assert (ds + es)[..|ds + es| - 1] == ds + init;
      assert (ds + es)[|ds + es| - 1] == last;
      SlideAppend(b, from, ds, init);
    }
  }

  /** The queen's moves are the rook's moves followed by the bishop's, from the same square on the same board. */
  lemma QueenIsRookThenBishop(b: Board, from: Position)
    requires b.Holds(from)
    ensures Slide(b, from, QueenDirections) == Slide(b, from, RookDirections) + Slide(b, from, BishopDirections)
    ensures forall m :: m in Slide(b, from, QueenDirections) <==>
      m in Slide(b, from, RookDirections) || m in Slide(b, from, BishopDirections)
  {
    assert QueenDirections == RookDirections + BishopDirections;
    SlideAppend(b, from, RookDirections, BishopDirections);
  }
}

module SlidingScenarios {
  import opened ChessTypes
  import opened Sliding

  /** On a board holding only the moving piece, a ray runs over every on-board square up to the edge. */
  lemma LoneRay(b: Board, o: Position, d: Offset, j: int)
    requires b.Holds(o) && b.squares.Keys == {o} && IsUnit(d) && 1 <= j
    requires forall i :: 1 <= i < j ==> IsValidMove(Along(o, d, i))
    requires !IsValidMove(Along(o, d, j))
    ensures Ray(b, o, d, 1) == Run(o, d, 1, j)
  {
    forall i | 1 <= i < j ensures b.IsEmpty(Along(o, d, i)) {
      if Along(o, d, i) == Along(o, d, 0) {
        AlongInjective(o, d, i, 0);
      }
    }
    RayUpToBlocker(b, o, d, 1, j);
  }

  /** The moves up the column of `o`, nearest first, to the last row. */
  function UpFile(o: Position): seq<Move>
    requires IsValidMove(o)
  {
    seq(8 - o.row, i => Move(o, Position(o.row + i + 1, o.col), None))
  }

  /** The moves along the row of `o`, nearest first, to the last column. */
  function RightRank(o: Position): seq<Move>
    requires IsValidMove(o)
  {
    seq(8 - o.col, i => Move(o, Position(o.row, o.col + i + 1), None))
  }

  /** Walking up from `o` visits the squares of its column above it, and those steps are `UpFile(o)`. */
  lemma UpFileRun(o: Position, up: Offset)
    requires IsValidMove(o) && up == Offset(1, 0)
    ensures forall i :: 0 <= i <= 9 - o.row ==> Along(o, up, i) == Position(o.row + i, o.col)
    ensures Run(o, up, 1, 9 - o.row) == UpFile(o)
  {
    forall i | 0 <= i <= 9 - o.row ensures Along(o, up, i) == Position(o.row + i, o.col) {
      AlongCoords(o, up, i);
    }
  }

  /** Walking right from `o` visits the squares of its row beyond it, and those steps are `RightRank(o)`. */
  lemma RightRankRun(o: Position, right: Offset)
    requires IsValidMove(o) && right == Offset(0, 1)
    ensures forall i :: 0 <= i <= 9 - o.col ==> Along(o, right, i) == Position(o.row, o.col + i)
    ensures Run(o, right, 1, 9 - o.col) == RightRank(o)
  {
    forall i | 0 <= i <= 9 - o.col ensures Along(o, right, i) == Position(o.row, o.col + i) {
      AlongCoords(o, right, i);
    }
  }

  /** A piece alone on the board slides up its column to the last row. */
  lemma LoneRayUp(b: Board, o: Position, up: Offset)
    requires b.Holds(o) && b.squares.Keys == {o} && up == Offset(1, 0)
    ensures Ray(b, o, up, 1) == UpFile(o)
  {
    UpFileRun(o, up);
    LoneRay(b, o, up, 9 - o.row);
  }

  /** A piece alone on the board slides along its row to the last column. */
  lemma LoneRayRight(b: Board, o: Position, right: Offset)
    requires b.Holds(o) && b.squares.Keys == {o} && right == Offset(0, 1)
    ensures Ray(b, o, right, 1) == RightRank(o)
  {
    RightRankRun(o, right);
    LoneRay(b, o, right, 9 - o.col);
  }

  /** Two appends onto an empty sequence; stated over plain sequences so that no ray is unfolded. */
  lemma Chain<X>(s0: seq<X>, s1: seq<X>, s2: seq<X>, r0: seq<X>, r1: seq<X>)
    requires s0 == [] && s1 == s0 + r0 && s2 == s1 + r1
    ensures s2 == r0 + r1
  {
  }

  /** A walk over a table of two directions is their two rays, in order. */
  lemma SlideOfTwo(b: Board, o: Position, ds: seq<Offset>)
    requires b.Holds(o) && |ds| == 2 && AllUnit(ds)
    ensures Slide(b, o, ds) == Ray(b, o, ds[0], 1) + Ray(b, o, ds[1], 1)
  {
    SlidePrefix(b, o, ds, 0);
    SlidePrefix(b, o, ds, 1);
    assert ds[..0] == [] && ds[..2] == ds;
    Chain(Slide(b, o, ds[..0]), Slide(b, o, ds[..1]), Slide(b, o, ds), Ray(b, o, ds[0], 1), Ray(b, o, ds[1], 1));
  }

  /** A walk over a table of four directions is their four rays, in order. */
  lemma SlideOfFour(b: Board, o: Position, ds: seq<Offset>)
    requires b.Holds(o) && |ds| == 4 && AllUnit(ds)
    ensures Slide(b, o, ds) ==
      Ray(b, o, ds[0], 1) + Ray(b, o, ds[1], 1) + Ray(b, o, ds[2], 1) + Ray(b, o, ds[3], 1)
  {
    var front, back := ds[..2], ds[2..];
    assert ds == front + back;
    assert front[0] == ds[0] && front[1] == ds[1] && back[0] == ds[2] && back[1] == ds[3];
    SlideAppend(b, o, front, back);
    SlideOfTwo(b, o, front);
    SlideOfTwo(b, o, back);
    Halves(Slide(b, o, ds), Slide(b, o, front), Slide(b, o, back),
      Ray(b, o, ds[0], 1), Ray(b, o, ds[1], 1), Ray(b, o, ds[2], 1), Ray(b, o, ds[3], 1));
  }

  /** Two halves of two parts each; stated over plain sequences so that no ray is unfolded. */
  lemma Halves<X>(s: seq<X>, s1: seq<X>, s2: seq<X>, r0: seq<X>, r1: seq<X>, r2: seq<X>, r3: seq<X>)
    requires s == s1 + s2 && s1 == r0 + r1 && s2 == r2 + r3
    ensures s == r0 + r1 + r2 + r3
  {
  }

  /** A rook's walk is its four rays, in the order of the direction table. */
  lemma RookWalk(b: Board, o: Position)
    requires b.Holds(o)
    ensures Slide(b, o, RookDirections) ==
      Ray(b, o, Offset(1, 0), 1) + Ray(b, o, Offset(-1, 0), 1) + Ray(b, o, Offset(0, 1), 1) + Ray(b, o, Offset(0, -1), 1)
  {
    SlideOfFour(b, o, RookDirections);
  }

  /** From the corner (1,1) of an otherwise empty board, the four rook rays. */
  lemma CornerRays(b: Board, o: Position)
    requires o == Position(1, 1) && b.Holds(o) && b.squares.Keys == {o}
    ensures Ray(b, o, Offset(1, 0), 1) == UpFile(o)
    ensures Ray(b, o, Offset(0, 1), 1) == RightRank(o)
    ensures Ray(b, o, Offset(-1, 0), 1) == [] && Ray(b, o, Offset(0, -1), 1) == []
  {
    LoneRayUp(b, o, Offset(1, 0));
    LoneRayRight(b, o, Offset(0, 1));
    RayStep(b, o, Offset(-1, 0), 1);
    RayStep(b, o, Offset(0, -1), 1);
  }

  /** A rook in the corner (1,1) of an otherwise empty board reaches (2..8,1), then (1,2..8): fourteen moves. */
  lemma LoneRookInCorner(b: Board, o: Position)
    requires o == Position(1, 1) && b.Holds(o) && b.squares.Keys == {o}
    ensures Slide(b, o, RookDirections) == UpFile(o) + RightRank(o)
    ensures |Slide(b, o, RookDirections)| == 14
    ensures forall i :: 0 <= i < 7 ==> Slide(b, o, RookDirections)[i] == Move(o, Position(i + 2, 1), None)
    ensures forall i :: 7 <= i < 14 ==> Slide(b, o, RookDirections)[i] == Move(o, Position(1, i - 5), None)
  {
    CornerRays(b, o);
    RookWalk(b, o);
    DropEmpties(Ray(b, o, Offset(1, 0), 1), Ray(b, o, Offset(-1, 0), 1),
      Ray(b, o, Offset(0, 1), 1), Ray(b, o, Offset(0, -1), 1));
  }

  /** Empty rays add nothing to a walk; stated over plain sequences so that no ray is unfolded. */
  lemma DropEmpties<X>(r0: seq<X>, r1: seq<X>, r2: seq<X>, r3: seq<X>)
    requires r1 == [] && r3 == []
    ensures r0 + r1 + r2 + r3 == r0 + r2
  {
  }
}
