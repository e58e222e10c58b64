/**
 * The engine's dispatch tables, check detector and public entry points:
 * `getMoves`, `getCaptureMoves` and `validateMove`, with the King's move set
 * filtered by simulating each move and testing for check.
 */
module Engine {
  import opened Chessboard
  import opened Seqs
  import opened Filters
  import opened Generators

  /** The defender pipeline (`filterWithStrategies(_, defenderStrategies)`) applied to a generator's output. */
  function Defended(moves: seq<int>, loc: int, b: Board): (r: seq<int>)
    ensures forall m :: m in r <==> m in moves && !Shielded(b, m)
  {
    DefendersRejectShielded(moves, loc, b);
    FilterWithStrategies(moves, DefenderStrategies, loc, b)
  }

  /**
   * `pieceCaptureOnlyStrategies`: the shield-filtered move set restricted to enemy
   * targets for Bishop, Knight, Queen and Rook; the raw attack sets for King and Pawn.
   */
  function GetCaptureMoves(loc: int, b: Board): (r: seq<int>)
    requires OnBoard(loc)
    ensures forall m :: m in r ==> OnBoard(m) && ColorAt(b, m) != ColorAt(b, loc)
    ensures b[loc].Some? && b[loc].value.kind != King ==> forall m :: m in r ==> Occupied(b, m)
    ensures b[loc].None? || b[loc].value.kind == Blank ==> r == []
  {
    match b[loc]
    case None => []
    case Some(p) =>
      match p.kind
      case Bishop => FilterCaptureMoves(Defended(BishopMoves(loc, b), loc, b), loc, b)
      case King => KingAttackMoves(loc, b)
      case Knight => FilterCaptureMoves(Defended(KnightMoves(loc, b), loc, b), loc, b)
      case Pawn => PawnAttackMoves(loc, b)
      case Queen => FilterCaptureMoves(Defended(QueenMoves(loc, b), loc, b), loc, b)
      case Rook => FilterCaptureMoves(Defended(RookMoves(loc, b), loc, b), loc, b)
      case Blank => []
  }

  /** The capture-only targets of `i` that hold a King of colour `c` (the `checks` list of `checkCheck`). */
  function KingHits(c: Color, b: Board, i: int): (r: seq<int>)
    requires OnBoard(i)
    ensures forall m :: m in r <==> m in GetCaptureMoves(i, b) && IsKingOf(At(b, m), c)
  {
    Filter(GetCaptureMoves(i, b), m => IsKingOf(At(b, m), c))
  }

  /** The piece on `i` belongs to the other side and threatens a King of colour `c`. */
  predicate Attacks(c: Color, b: Board, i: int)
    requires OnBoard(i)
  {
    b[i].Some? && b[i].value.color != c && |KingHits(c, b, i)| > 0
  }

  /** The specification of `checkCheck`: some square attacks the King of colour `c`. */
  predicate InCheck(c: Color, b: Board) {
    exists i | 0 <= i < 64 :: Attacks(c, b, i)
  }

  /** A square attacks the King of colour `c` exactly when it holds an enemy piece whose capture-only set holds that King. */
  lemma AttacksIff(c: Color, b: Board, i: int)
    requires OnBoard(i)
    ensures Attacks(c, b, i) <==>
      b[i].Some? && b[i].value.color != c && exists m :: m in GetCaptureMoves(i, b) && IsKingOf(At(b, m), c)
  {
    FilterNonEmpty(GetCaptureMoves(i, b), m => IsKingOf(At(b, m), c));
  }

  /** Check holds exactly when an enemy piece's capture-only set holds a square with a King of colour `c`. */
  lemma InCheckIff(c: Color, b: Board)
    ensures InCheck(c, b) <==>
      exists i, m :: 0 <= i < 64 && b[i].Some? && b[i].value.color != c &&
        m in GetCaptureMoves(i, b) && IsKingOf(At(b, m), c)
  {
    forall i | 0 <= i < 64 {
      AttacksIff(c, b, i);
    }
  }

  /** `checkCheck`: scan the board, skip empty and friendly squares, and stop at the first attacker. */
  method CheckCheck(c: Color, b: Board) returns (inCheck: bool)
    ensures inCheck == InCheck(c, b)
  {
    var i := 0;
    while i < 64
      invariant 0 <= i <= 64
      invariant forall j :: 0 <= j < i ==> !Attacks(c, b, j)
    {
      var square := b[i];
      // Empty squares and friendly pieces are skipped.
      if square.Some? && square.value.color != c {
        var checks := KingHits(c, b, i);
        if |checks| > 0 {
          assert Attacks(c, b, i);
          return true;
        }
      }
      assert !Attacks(c, b, i);
      assert forall j :: 0 <= j < i + 1 ==> !Attacks(c, b, j);
      i := i + 1;
    }
    return false;
  }

  /** The board after the piece on `loc` moves to `move` (`newSquares` in `kingMoves`). */
  function Simulate(b: Board, loc: int, move: int): (nb: Board)
    requires OnBoard(loc) && OnBoard(move)
    ensures nb[loc] == None
    ensures move != loc ==> nb[move] == b[loc]
    ensures forall i :: 0 <= i < 64 && i != loc && i != move ==> nb[i] == b[i]
  {
    b[move := b[loc]][loc := None]
  }

  /** The square `loc` holds a King (of either colour). */
  predicate HoldsKing(b: Board, loc: int) {
    At(b, loc).Some? && At(b, loc).value.kind == King
  }

  /** The moves of `moves` after which the mover's King is not in check, in order. */
  function SafeMoves(moves: seq<int>, loc: int, b: Board): (r: seq<int>)
    requires OnBoard(loc) && b[loc].Some?
    requires forall m :: m in moves ==> OnBoard(m)
    ensures forall m :: m in r <==> m in moves && !InCheck(b[loc].value.color, Simulate(b, loc, m))
    decreases |moves|
  {
    if moves == [] then []
    else
      var last := moves[|moves| - 1];
      assert moves == moves[..|moves| - 1] + [last];
      SafeMoves(moves[..|moves| - 1], loc, b) +
      (if InCheck(b[loc].value.color, Simulate(b, loc, last)) then [] else [last])
  }

  /**
   * `kingMoves`: the bounds- and colour-filtered adjacent squares after which the
   * King is not in check; nothing at all unless `loc` holds a King. No castling.
   */
  function KingMoves(loc: int, b: Board): (r: seq<int>)
    ensures HoldsKing(b, loc) ==> forall m :: m in r <==>
      m - loc in KingOffsets && OnBoard(m) && ColorAt(b, m) != ColorAt(b, loc) &&
      !InCheck(b[loc].value.color, Simulate(b, loc, m))
    ensures !HoldsKing(b, loc) ==> r == []
  {
    ShiftedMembership(KingOffsets, loc, b);
    var potential := FilterInvalidMoves(Shift(KingOffsets, loc), loc, b);
    if !HoldsKing(b, loc) then []
    else SafeMoves(potential, loc, b)
  }

  /**
   * `kingMoves` as the source runs it: for each candidate, copy the board, move
   * the King on the copy, clear its square, and keep the candidate unless the
   * copy shows the King in check.
   */
  method CollectKingMoves(loc: int, b: Board) returns (moves: seq<int>)
    ensures moves == KingMoves(loc, b)
  {
    var potential := FilterInvalidMoves(Shift(KingOffsets, loc), loc, b);
    if !HoldsKing(b, loc) {
      return [];
    }
    moves := [];
    for k := 0 to |potential|
      invariant moves == SafeMoves(potential[..k], loc, b)
    {
      var move := potential[k];
      assert move in potential;
      var safe := LeavesKingSafe(loc, b, move);
      SafeMovesStep(potential, k, loc, b);
      if safe {
        moves := moves + [move];
      }
    }
    assert potential[..|potential|] == potential;
  }

  /** The body of the `kingMoves` filter: copy the board, move the King on the copy, clear its square, test for check. */
  method LeavesKingSafe(loc: int, b: Board, move: int) returns (safe: bool)
    requires OnBoard(loc) && OnBoard(move) && b[loc].Some?
    ensures safe == !InCheck(b[loc].value.color, Simulate(b, loc, move))
  {
    var squares := new Square[64](i requires 0 <= i < 64 => b[i]);
    squares[move] := squares[loc];
    squares[loc] := None;
    assert squares[..] == Simulate(b, loc, move);
    var check := CheckCheck(b[loc].value.color, squares[..]);
    safe := !check;
  }

  /** One more candidate extends the safe prefix by that candidate alone. */
  lemma SafeMovesStep(moves: seq<int>, k: int, loc: int, b: Board)
    requires OnBoard(loc) && b[loc].Some?
    requires forall m :: m in moves ==> OnBoard(m)
    requires 0 <= k < |moves|
    ensures SafeMoves(moves[..k + 1], loc, b) ==
      SafeMoves(moves[..k], loc, b) + (if InCheck(b[loc].value.color, Simulate(b, loc, moves[k])) then [] else [moves[k]])
  {
    assert moves[..k + 1][..k] == moves[..k];
  }

  /**
   * `getMoves`: nothing from an empty square or a Blank piece; otherwise the
   * piece's generator followed by the defender pipeline. Every result is on the
   * board, never holds the mover's colour and never holds a shielded piece.
   */
  function GetMoves(loc: int, b: Board): (r: seq<int>)
    requires OnBoard(loc)
    ensures forall m :: m in r ==> OnBoard(m) && ColorAt(b, m) != ColorAt(b, loc) && !Shielded(b, m)
    ensures b[loc].None? || b[loc].value.kind == Blank ==> r == []
  {
    match b[loc]
    case None => []
    case Some(p) =>
      match p.kind
      case Bishop => Defended(BishopMoves(loc, b), loc, b)
      case King => Defended(KingMoves(loc, b), loc, b)
      case Knight => Defended(KnightMoves(loc, b), loc, b)
      case Pawn => Defended(PawnMoves(loc, b), loc, b)
      case Queen => Defended(QueenMoves(loc, b), loc, b)
      case Rook => Defended(RookMoves(loc, b), loc, b)
      case Blank => []
  }

  /** `validateMove`: the move is offered by `getMoves`; a valid target is on the board, enemy or empty, and unshielded. */
  function ValidateMove(from: int, to: int, b: Board): (ok: bool)
    requires OnBoard(from)
    ensures ok <==> to in GetMoves(from, b)
    ensures ok ==> b[from].Some? && b[from].value.kind != Blank
    ensures ok ==> OnBoard(to) && ColorAt(b, to) != ColorAt(b, from) && !Shielded(b, to)
  {
    to in GetMoves(from, b)
  }

  /**
   * Bishop, Rook and Queen: `getMoves` is every square reached along one of the
   * piece's directions over empty squares only, then kept by the colour, bounds
   * and shield filters.
   */
  lemma SlidingGetMoves(loc: int, b: Board, dirs: seq<int>, m: int)
    requires OnBoard(loc) && b[loc].Some?
    requires (b[loc].value.kind == Bishop && dirs == BishopDirections) ||
             (b[loc].value.kind == Rook && dirs == RookDirections) ||
             (b[loc].value.kind == Queen && dirs == QueenDirections)
    ensures m in GetMoves(loc, b) <==>
      OnBoard(m) && ColorAt(b, m) != ColorAt(b, loc) && !Shielded(b, m) &&
      exists d, n :: d in dirs && 1 <= n < BOARD_SIZE && m == Step(loc, d, n) && ClearFrom(b, loc, d, 1, n)
  {
    SlidingMembership(b, loc, dirs, m);
  }

  /** Knight: `getMoves` is the eight fixed offsets, kept by the colour, bounds and shield filters. */
  lemma KnightGetMoves(loc: int, b: Board, m: int)
    requires OnBoard(loc) && b[loc].Some? && b[loc].value.kind == Knight
    ensures m in GetMoves(loc, b) <==>
      m - loc in KnightOffsets && OnBoard(m) && ColorAt(b, m) != ColorAt(b, loc) && !Shielded(b, m)
  {
  }

  /** Pawn: `getMoves` is the forward steps and the occupied forward diagonals, kept by the colour, bounds and shield filters. */
  lemma PawnGetMoves(loc: int, b: Board, m: int)
    requires OnBoard(loc) && b[loc].Some? && b[loc].value.kind == Pawn
    ensures m in GetMoves(loc, b) <==>
      OnBoard(m) && ColorAt(b, m) != ColorAt(b, loc) && !Shielded(b, m) &&
      (m == loc + 8 * PawnSign(b, loc) ||
       (m == loc + 16 * PawnSign(b, loc) && loc / 8 == PawnStartRank(b, loc)) ||
       ((m == loc + 7 * PawnSign(b, loc) || m == loc + 9 * PawnSign(b, loc)) && Occupied(b, m)))
  {
  }

  /**
   * King safety: a King's `getMoves` are exactly the adjacent squares that pass
   * the bounds, colour and shield filters and after which it is not in check.
   */
  lemma KingMovesSafe(loc: int, b: Board, m: int)
    requires OnBoard(loc) && b[loc].Some? && b[loc].value.kind == King
    ensures m in GetMoves(loc, b) <==>
      m - loc in KingOffsets && OnBoard(m) && ColorAt(b, m) != ColorAt(b, loc) && !Shielded(b, m) &&
      !InCheck(b[loc].value.color, Simulate(b, loc, m))
  {
  }

  /** For Bishop, Knight, Queen and Rook the capture-only set is `getMoves` restricted to occupied targets, in order. */
  lemma CaptureMovesFollowMoves(loc: int, b: Board)
    requires OnBoard(loc) && b[loc].Some? && b[loc].value.kind in {Bishop, Knight, Queen, Rook}
    ensures GetCaptureMoves(loc, b) == FilterCaptureMoves(GetMoves(loc, b), loc, b)
    ensures forall m :: m in GetCaptureMoves(loc, b) <==> m in GetMoves(loc, b) && Occupied(b, m)
  {
  }

  /** A King's capture-only set is its filtered adjacency: no check simulation and no shield filter. */
  lemma KingCaptureMoves(loc: int, b: Board, m: int)
    requires OnBoard(loc) && b[loc].Some? && b[loc].value.kind == King
    ensures m in GetCaptureMoves(loc, b) <==> m - loc in KingOffsets && OnBoard(m) && ColorAt(b, m) != ColorAt(b, loc)
  {
  }

  /** A Pawn's capture-only set is its two occupied forward diagonals, with no shield filter. */
  lemma PawnCaptureMoves(loc: int, b: Board, m: int)
    requires OnBoard(loc) && b[loc].Some? && b[loc].value.kind == Pawn
    ensures m in GetCaptureMoves(loc, b) <==>
      (m == loc + 7 * PawnSign(b, loc) || m == loc + 9 * PawnSign(b, loc)) &&
      OnBoard(m) && Occupied(b, m) && ColorAt(b, m) != ColorAt(b, loc)
  {
  }
}
