/**
 * Concrete positions: the behaviours the engine promises on small boards,
 * including the places where it departs from the Laws of Chess.
 */
module Scenarios {
  import opened Chessboard
  import opened Codec
  import opened Filters
  import opened Generators
  import opened Engine

  const WhiteRook := Piece(White, Rook, false, "wr", [])
  const WhitePawn := Piece(White, Pawn, false, "wp", [])
  const WhiteKing := Piece(White, King, false, "wk", [])
  const BlackKing := Piece(Black, King, false, "bk", [])
  const BlackKnight := Piece(Black, Knight, false, "bn", [])

  /** `b` holds exactly the pieces of `placed`, every other square being empty. */
  predicate Position(b: Board, placed: map<int, Piece>) {
    forall j :: 0 <= j < 64 ==> b[j] == if j in placed then Some(placed[j]) else None
  }

  /** The pieces above are what the codec makes of their codes. */
  lemma DecodeExamples()
    ensures DecodePiece("wr") == WhiteRook && DecodePiece("wp") == WhitePawn
    ensures DecodePiece("wk") == WhiteKing && DecodePiece("bk") == BlackKing
    ensures DecodePiece("bn") == BlackKnight && DecodePiece("bq") == Piece(Black, Queen, false, "bq", [])
    ensures DecodePiece("wx").kind == Blank && DecodePiece("").color == Black
  {
    DecodeCode(White, Rook);
    DecodeCode(White, Pawn);
    DecodeCode(White, King);
    DecodeCode(Black, King);
    DecodeCode(Black, Knight);
    DecodeCode(Black, Queen);
  }

  /** A step along a rank or file from the corner reaches every square of the set, over non-zero squares only. */
  lemma CornerWitness(m: int) returns (d: int, n: int)
    requires m in {1, 2, 3, 4, 5, 6, 7, 8, 16, 24, 32, 40, 48, 56}
    ensures d in RookDirections && 1 <= n < BOARD_SIZE && m == Step(0, d, n)
    ensures forall j :: 1 <= j < n ==> Step(0, d, j) != 0 && (d == 1 ==> Step(0, d, j) == j)
  {
    if m <= 7 {
      d, n := 1, m;
    } else {
      d, n := 8, m / 8;
    }
  }

  /** From the corner, the on-board squares along the Rook's directions are exactly that set. */
  lemma CornerGeometry(m: int, n: int, d: int)
    requires d in RookDirections && 1 <= n < BOARD_SIZE && m == Step(0, d, n) && OnBoard(m)
    ensures m in {1, 2, 3, 4, 5, 6, 7, 8, 16, 24, 32, 40, 48, 56}
    ensures 0 <= m < 8 ==> d == 1 && n == m
  {
    assert d == 8 || d == -8 || d == 1 || d == -1;
  }

  /** The moves of a White Rook: squares along its rank or file over empty squares, not White and not shielded. */
  lemma WhiteRookGetMoves(loc: int, b: Board, m: int)
    requires OnBoard(loc) && b[loc] == Some(WhiteRook)
    ensures m in GetMoves(loc, b) <==>
      OnBoard(m) && ColorAt(b, m) != Some(White) && !Shielded(b, m) &&
      exists d, n :: d in RookDirections && 1 <= n < BOARD_SIZE && m == Step(loc, d, n) && ClearFrom(b, loc, d, 1, n)
  {
    SlidingGetMoves(loc, b, RookDirections, m);
  }

  /** A Rook alone in the corner reaches its whole rank and file: {1..7} and {8, 16, ..., 56}. */
  lemma RookInCorner(b: Board, m: int)
    requires Position(b, map[0 := WhiteRook])
    ensures m in GetMoves(0, b) <==> m in {1, 2, 3, 4, 5, 6, 7, 8, 16, 24, 32, 40, 48, 56}
  {
    assert b[0] == Some(WhiteRook);
    WhiteRookGetMoves(0, b, m);
    assert !Shielded(b, m);
    if m in {1, 2, 3, 4, 5, 6, 7, 8, 16, 24, 32, 40, 48, 56} {
      var d, n := CornerWitness(m);
      assert ClearFrom(b, 0, d, 1, n);
    } else {
      forall d, n | d in RookDirections && 1 <= n < BOARD_SIZE && m == Step(0, d, n) && OnBoard(m)
        ensures false
      {
        CornerGeometry(m, n, d);
      }
    }
  }

  /** Along the first rank, the Knight on 4 ends every ray that would pass it. */
  lemma RankBlockedAtFour(b: Board, m: int, d: int, n: int)
    requires Position(b, map[0 := WhiteRook, 4 := BlackKnight])
    requires d in RookDirections && 1 <= n < BOARD_SIZE && m == Step(0, d, n) && 0 <= m < 8
    ensures ClearFrom(b, 0, d, 1, n) <==> 1 <= m <= 4
  {
    CornerGeometry(m, n, d);
    if 1 <= m <= 4 {
      assert forall j :: 1 <= j < n ==> Step(0, d, j) == j;
    } else {
      assert Step(0, d, 4) == 4 && Occupied(b, 4);
    }
  }

  /** A Rook on 0 with an enemy piece on 4 stops there, inclusive: along the rank it gets 1, 2, 3, 4. */
  lemma RookBlocked(b: Board, m: int)
    requires Position(b, map[0 := WhiteRook, 4 := BlackKnight])
    requires 0 <= m < 8
    ensures m in GetMoves(0, b) <==> 1 <= m <= 4
  {
    assert b[0] == Some(WhiteRook);
    WhiteRookGetMoves(0, b, m);
    assert !Shielded(b, m);
    if 1 <= m <= 4 {
      var d, n := CornerWitness(m);
      RankBlockedAtFour(b, m, d, n);
    } else {
      forall d, n | d in RookDirections && 1 <= n < BOARD_SIZE && m == Step(0, d, n)
        ensures !ClearFrom(b, 0, d, 1, n)
      {
        RankBlockedAtFour(b, m, d, n);
      }
    }
  }

  /** There is no edge check: a Rook on 7, the end of the first rank, slides onto 8, the start of the second. */
  lemma RookWrapsAroundEdge(b: Board)
    requires Position(b, map[7 := WhiteRook])
    ensures 8 in GetMoves(7, b)
  {
    assert b[7] == Some(WhiteRook);
    WhiteRookGetMoves(7, b, 8);
    assert 8 == Step(7, 1, 1) && ClearFrom(b, 7, 1, 1, 1);
  }

  /** The moves of a White Pawn: one step up, two from the second rank, or an occupied forward diagonal. */
  lemma WhitePawnGetMoves(loc: int, b: Board, m: int)
    requires OnBoard(loc) && b[loc] == Some(WhitePawn)
    ensures m in GetMoves(loc, b) <==>
      OnBoard(m) && ColorAt(b, m) != Some(White) && !Shielded(b, m) &&
      (m == loc + 8 || (m == loc + 16 && loc / 8 == 1) || ((m == loc + 7 || m == loc + 9) && Occupied(b, m)))
  {
    PawnGetMoves(loc, b, m);
  }

  /** A White Pawn on its starting rank gets the single and the double step. */
  lemma PawnDoubleStep(b: Board, m: int)
    requires Position(b, map[8 := WhitePawn])
    ensures m in GetMoves(8, b) <==> m == 16 || m == 24
  {
    assert b[8] == Some(WhitePawn);
    WhitePawnGetMoves(8, b, m);
    assert !Shielded(b, m) && (m != 8 ==> !Occupied(b, m));
  }

  /** One rank further on, the same Pawn gets only the single step. */
  lemma PawnSingleStep(b: Board, m: int)
    requires Position(b, map[16 := WhitePawn])
    ensures m in GetMoves(16, b) <==> m == 24
  {
    assert b[16] == Some(WhitePawn);
    WhitePawnGetMoves(16, b, m);
    assert !Shielded(b, m) && (m != 16 ==> !Occupied(b, m));
  }

  /** The Pawn's forward steps ignore occupancy: it may step onto an enemy piece, and jump over it. */
  lemma PawnAdvancesOntoEnemy(b: Board)
    requires Position(b, map[8 := WhitePawn, 16 := BlackKnight])
    ensures 16 in GetMoves(8, b) && 24 in GetMoves(8, b)
  {
    assert b[8] == Some(WhitePawn) && b[16] == Some(BlackKnight) && b[24] == None;
    WhitePawnGetMoves(8, b, 16);
    WhitePawnGetMoves(8, b, 24);
  }

  /** Any power-up, not only a Shield, makes its holder uncapturable through `getMoves`. */
  lemma GuardActsAsShield(b: Board)
    requires Position(b, map[0 := WhiteRook, 8 := BlackKnight.(powerUps := [PowerUp(Guard)])])
    ensures !ShieldStrategy(0, b, 8)
    ensures 8 !in GetMoves(0, b)
  {
    assert b[0] == Some(WhiteRook);
    WhiteRookGetMoves(0, b, 8);
  }

  /** A King's capture-only set skips the shield filter: it threatens a shielded neighbour it may not take. */
  lemma KingThreatensShieldedPiece(b: Board)
    requires Position(b, map[0 := WhiteKing, 1 := BlackKnight.(powerUps := [PowerUp(Shield)])])
    ensures 1 in GetCaptureMoves(0, b)
    ensures 1 !in GetMoves(0, b)
  {
    assert b[0] == Some(WhiteKing) && b[1].value.powerUps == [PowerUp(Shield)];
    KingCaptureMoves(0, b, 1);
    KingMovesSafe(0, b, 1);
  }

  /** A King may not step next to the enemy King: from 0 it cannot go to 8 while the Black King stands on 16. */
  lemma KingsKeepApart(b: Board)
    requires Position(b, map[0 := WhiteKing, 16 := BlackKing])
    ensures 8 !in GetMoves(0, b)
  {
    assert b[0] == Some(WhiteKing) && b[16] == Some(BlackKing);
    var nb := Simulate(b, 0, 8);
    KingCaptureMoves(16, nb, 8);
    AttacksIff(White, nb, 16);
    assert Attacks(White, nb, 16);
    KingMovesSafe(0, b, 8);
  }
}
