/**
 * Per-piece move generators. Candidates are plain integers: they may fall off
 * the board before the bounds and colour filter removes them. No generator
 * checks for wrapping around the board's left or right edge.
 */
module Generators {
  import opened Chessboard
  import opened Seqs
  import opened Filters

  const BishopDirections: seq<int> := [9, -9, 7, -7]
  const RookDirections: seq<int> := [8, -8, 1, -1]
  const QueenDirections: seq<int> := [9, -9, 7, -7, 8, -8, 1, -1]
  const KnightOffsets: seq<int> := [10, 17, 6, 15, -10, -17, -6, -15]
  const KingOffsets: seq<int> := [-9, -8, -7, -1, 1, 7, 8, 9]

  /** The square `n` steps from `loc` in direction `d`. */
  function Step(loc: int, d: int, n: int): int {
    loc + n * d
  }

  /** The offsets translated to `loc` (`offsets.map(a => a + loc)`). */
  function Shift(offsets: seq<int>, loc: int): (r: seq<int>)
    ensures |r| == |offsets|
    ensures forall i :: 0 <= i < |r| ==> r[i] == offsets[i] + loc
  {
    seq(|offsets|, i requires 0 <= i < |offsets| => offsets[i] + loc)
  }

  /** A square is a translated offset exactly when its difference from `loc` is one of the offsets. */
  lemma ShiftMembership(offsets: seq<int>, loc: int, m: int)
    ensures m in Shift(offsets, loc) <==> m - loc in offsets
  {
    var r := Shift(offsets, loc);
    if m in r {
      var i :| 0 <= i < |r| && r[i] == m;
      assert offsets[i] == m - loc;
    }
    if m - loc in offsets {
      var i :| 0 <= i < |offsets| && offsets[i] == m - loc;
      assert r[i] == m;
    }
  }

  // ---------------------------------------------------------------------------
  // Sliding pieces
  // ---------------------------------------------------------------------------

  /**
   * The raw candidates of one direction from step `k` on: each step is taken,
   * and the walk ends after the first occupied square or after step 7.
   */
  function Ray(b: Board, loc: int, d: int, k: int): seq<int>
    requires 1 <= k
    // `b` never changes; naming it here stops the verifier from unrolling
    // all seven steps whenever `loc`, `d` and `k` are literals.
    decreases BOARD_SIZE - k, b
  {
    if k >= BOARD_SIZE then []
    else [Step(loc, d, k)] + (if Occupied(b, Step(loc, d, k)) then [] else Ray(b, loc, d, k + 1))
  }

  /** The raw candidates of all directions, direction by direction in the given order. */
  function Rays(b: Board, loc: int, dirs: seq<int>): seq<int>
    decreases |dirs|
  {
    if dirs == [] then []
    else Rays(b, loc, dirs[..|dirs| - 1]) + Ray(b, loc, dirs[|dirs| - 1], 1)
  }

  /** No square strictly between steps `k` and `n` (step `k` included) is occupied. */
  predicate ClearFrom(b: Board, loc: int, d: int, k: int, n: int) {
    forall j :: k <= j < n ==> !Occupied(b, Step(loc, d, j))
  }

  /** A ray holds step `n` (for k <= n <= 7) exactly when every earlier step from `k` is empty. */
  lemma {:induction false} RayMembership(b: Board, loc: int, d: int, k: int, m: int)
    requires 1 <= k
    ensures m in Ray(b, loc, d, k) <==> exists n :: k <= n < BOARD_SIZE && m == Step(loc, d, n) && ClearFrom(b, loc, d, k, n)
    decreases BOARD_SIZE - k
  {
    if k < BOARD_SIZE {
      RayMembership(b, loc, d, k + 1, m);
      if m in Ray(b, loc, d, k) && m != Step(loc, d, k) {
        var n :| k + 1 <= n < BOARD_SIZE && m == Step(loc, d, n) && ClearFrom(b, loc, d, k + 1, n);
        assert ClearFrom(b, loc, d, k, n);
      }
      if exists n :: k <= n < BOARD_SIZE && m == Step(loc, d, n) && ClearFrom(b, loc, d, k, n) {
        var n :| k <= n < BOARD_SIZE && m == Step(loc, d, n) && ClearFrom(b, loc, d, k, n);
        if n > k {
          assert !Occupied(b, Step(loc, d, k));
          assert ClearFrom(b, loc, d, k + 1, n);
        }
      }
    }
  }

  /** Unfolding a ray by one step: the step itself, then nothing if it is occupied, or the rest of the ray. */
  lemma RayStep(b: Board, loc: int, d: int, i: int)
    requires 1 <= i < BOARD_SIZE
    ensures Ray(b, loc, d, i) == [Step(loc, d, i)] + (if Occupied(b, Step(loc, d, i)) then [] else Ray(b, loc, d, i + 1))
  {
  }

  /** A ray is the consecutive steps from `k`, in order. */
  lemma {:induction false} RaySteps(b: Board, loc: int, d: int, k: int)
    requires 1 <= k
    ensures forall j :: 0 <= j < |Ray(b, loc, d, k)| ==> Ray(b, loc, d, k)[j] == Step(loc, d, k + j)
    decreases BOARD_SIZE - k
  {
    if k < BOARD_SIZE {
      RayStep(b, loc, d, k);
      if !Occupied(b, Step(loc, d, k)) {
        RaySteps(b, loc, d, k + 1);
        var r, t := Ray(b, loc, d, k), Ray(b, loc, d, k + 1);
        forall j | 1 <= j < |r| ensures r[j] == Step(loc, d, k + j) {
          assert r[j] == t[j - 1];
        }
      }
    }
  }

  /** A candidate comes from the ray of some direction. */
  lemma {:induction false} RaysMembership(b: Board, loc: int, dirs: seq<int>, m: int)
    ensures m in Rays(b, loc, dirs) <==> exists d :: d in dirs && m in Ray(b, loc, d, 1)
    decreases |dirs|
  {
    if dirs != [] {
      var init, last := dirs[..|dirs| - 1], dirs[|dirs| - 1];
      RaysMembership(b, loc, init, m);
      LastDirection(dirs, init, last, b, loc, m);
    }
  }

  /** Splitting off the last direction: a square is in some direction's ray exactly when it is in an earlier one's or the last one's. */
  lemma LastDirection(dirs: seq<int>, init: seq<int>, last: int, b: Board, loc: int, m: int)
    requires dirs == init + [last]
    ensures m in Rays(b, loc, dirs) <==> m in Rays(b, loc, init) || m in Ray(b, loc, last, 1)
    ensures (exists d :: d in dirs && m in Ray(b, loc, d, 1)) <==>
      (exists d :: d in init && m in Ray(b, loc, d, 1)) || m in Ray(b, loc, last, 1)
  {
    assert dirs[..|dirs| - 1] == init;
    assert last in dirs;
    forall d | d in dirs ensures d in init || d == last {
    }
    forall d | d in init ensures d in dirs {
    }
  }

  /**
   * Sliding-piece moves: `m` is a move exactly when it is on the board, not
   * held by the mover's colour, and lies `n` steps (1..7) along one of the
   * directions with every square before it empty.
   */
  lemma SlidingMembership(b: Board, loc: int, dirs: seq<int>, m: int)
    ensures m in FilterInvalidMoves(Rays(b, loc, dirs), loc, b) <==>
      OnBoard(m) && ColorAt(b, m) != ColorAt(b, loc) &&
      exists d, n :: d in dirs && 1 <= n < BOARD_SIZE && m == Step(loc, d, n) && ClearFrom(b, loc, d, 1, n)
  {
    RaysMembership(b, loc, dirs, m);
    forall d | d in dirs {
      RayMembership(b, loc, d, 1, m);
    }
  }

  /**
   * The loop shared by `bishopMoves`, `rookMoves` and `queenMoves`: for each
   * direction push steps 1..7, breaking after the first occupied square, then
   * apply the bounds and colour filter.
   */
  method SlideMoves(loc: int, b: Board, dirs: seq<int>) returns (moves: seq<int>)
    ensures moves == FilterInvalidMoves(Rays(b, loc, dirs), loc, b)
    ensures dirs == BishopDirections ==> moves == BishopMoves(loc, b)
    ensures dirs == RookDirections ==> moves == RookMoves(loc, b)
    ensures dirs == QueenDirections ==> moves == QueenMoves(loc, b)
  {
    var potential: seq<int> := [];
    for j := 0 to |dirs|
      invariant potential == Rays(b, loc, dirs[..j])
    {
      potential := PushRay(loc, b, dirs[j], potential);
      assert dirs[..j + 1][..j] == dirs[..j];
    }
    assert dirs[..|dirs|] == dirs;
    moves := FilterInvalidMoves(potential, loc, b);
  }

  /** The inner loop for one direction: push steps 1..7 onto `potential`, stopping after the first occupied square. */
  method PushRay(loc: int, b: Board, d: int, potential: seq<int>) returns (pushed: seq<int>)
    ensures pushed == potential + Ray(b, loc, d, 1)
  {
    pushed := potential;
    var i := 1;
    while i < BOARD_SIZE
      invariant 1 <= i <= BOARD_SIZE
      invariant pushed + Ray(b, loc, d, i) == potential + Ray(b, loc, d, 1)
    {
      RayStep(b, loc, d, i);
      pushed := pushed + [Step(loc, d, i)];
      if Occupied(b, Step(loc, d, i)) {
        break;
      }
      i := i + 1;
    }
  }

  /** `bishopMoves`: rays along the four diagonals, bounds and colour filtered (the specification of `SlideMoves`). */
  function BishopMoves(loc: int, b: Board): (r: seq<int>)
    ensures forall m :: m in r ==> OnBoard(m) && ColorAt(b, m) != ColorAt(b, loc)
  {
    FilterInvalidMoves(Rays(b, loc, BishopDirections), loc, b)
  }

  /** `rookMoves`: rays along the rank and the file, bounds and colour filtered (the specification of `SlideMoves`). */
  function RookMoves(loc: int, b: Board): (r: seq<int>)
    ensures forall m :: m in r ==> OnBoard(m) && ColorAt(b, m) != ColorAt(b, loc)
  {
    FilterInvalidMoves(Rays(b, loc, RookDirections), loc, b)
  }

  /** `queenMoves`: rays along the diagonals, the rank and the file, bounds and colour filtered (the specification of `SlideMoves`). */
  function QueenMoves(loc: int, b: Board): (r: seq<int>)
    ensures forall m :: m in r ==> OnBoard(m) && ColorAt(b, m) != ColorAt(b, loc)
  {
    FilterInvalidMoves(Rays(b, loc, QueenDirections), loc, b)
  }

  // ---------------------------------------------------------------------------
  // Knight and king adjacency
  // ---------------------------------------------------------------------------

  /** The bounds- and colour-filtered translation of a fixed offset list. */
  lemma ShiftedMembership(offsets: seq<int>, loc: int, b: Board)
    ensures forall m :: m in FilterInvalidMoves(Shift(offsets, loc), loc, b) <==>
      m - loc in offsets && OnBoard(m) && ColorAt(b, m) != ColorAt(b, loc)
  {
    forall m {
      ShiftMembership(offsets, loc, m);
    }
    FilteredTranslation(Shift(offsets, loc), offsets, loc, b);
  }

  /** The filter step of `ShiftedMembership`, for any list whose members are the translated offsets. */
  lemma FilteredTranslation(moves: seq<int>, offsets: seq<int>, loc: int, b: Board)
    requires forall m :: m in moves <==> m - loc in offsets
    ensures forall m :: m in FilterInvalidMoves(moves, loc, b) <==>
      m - loc in offsets && OnBoard(m) && ColorAt(b, m) != ColorAt(b, loc)
  {
  }

  /** `knightMoves`: the eight fixed jumps, bounds and colour filtered; nothing blocks a knight. */
  function KnightMoves(loc: int, b: Board): (r: seq<int>)
    ensures forall m :: m in r <==> m - loc in KnightOffsets && OnBoard(m) && ColorAt(b, m) != ColorAt(b, loc)
  {
    ShiftedMembership(KnightOffsets, loc, b);
    FilterInvalidMoves(Shift(KnightOffsets, loc), loc, b)
  }

  /** `kingAttackMoves`: the eight adjacent squares, bounds and colour filtered, with no check test. */
  function KingAttackMoves(loc: int, b: Board): (r: seq<int>)
    ensures forall m :: m in r <==> m - loc in KingOffsets && OnBoard(m) && ColorAt(b, m) != ColorAt(b, loc)
  {
    ShiftedMembership(KingOffsets, loc, b);
    FilterInvalidMoves(Shift(KingOffsets, loc), loc, b)
  }

  // ---------------------------------------------------------------------------
  // Pawn
  // ---------------------------------------------------------------------------

  /** +1 for a White pawn; -1 otherwise (a Black pawn, or an empty square). */
  function PawnSign(b: Board, loc: int): int {
    if ColorAt(b, loc) == Some(White) then 1 else -1
  }

  /** The rank from which the double step is offered: 1 for White, 6 otherwise. */
  function PawnStartRank(b: Board, loc: int): int {
    if ColorAt(b, loc) == Some(White) then 1 else 6
  }

  /** The forward candidates: one step, and two steps from the starting rank. Neither checks occupancy. */
  function PawnAdvances(loc: int, b: Board): (r: seq<int>)
    ensures forall m :: m in r <==>
      m == loc + 8 * PawnSign(b, loc) || (m == loc + 16 * PawnSign(b, loc) && loc / 8 == PawnStartRank(b, loc))
  {
    var s := PawnSign(b, loc);
    [loc + 8 * s] + (if loc / 8 == PawnStartRank(b, loc) then [loc + 16 * s] else [])
  }

  /** `pawnAttackMoves`: the two forward diagonals, kept only when they hold a piece of another colour. */
  function PawnAttackMoves(loc: int, b: Board): (r: seq<int>)
    ensures forall m :: m in r <==>
      (m == loc + 7 * PawnSign(b, loc) || m == loc + 9 * PawnSign(b, loc)) &&
      OnBoard(m) && Occupied(b, m) && ColorAt(b, m) != ColorAt(b, loc)
  {
    var s := PawnSign(b, loc);
    Filter(FilterInvalidMoves([loc + 7 * s, loc + 9 * s], loc, b), m => At(b, m) != None)
  }

  /**
   * `pawnMoves`: a target is on the board, not held by the pawn's colour, and is
   * the single step, the double step from the starting rank, or an occupied
   * forward diagonal. The forward steps may land on an enemy piece.
   */
  function PawnMoves(loc: int, b: Board): (r: seq<int>)
    ensures forall m :: m in r <==>
      OnBoard(m) && ColorAt(b, m) != ColorAt(b, loc) &&
      (m == loc + 8 * PawnSign(b, loc) ||
       (m == loc + 16 * PawnSign(b, loc) && loc / 8 == PawnStartRank(b, loc)) ||
       ((m == loc + 7 * PawnSign(b, loc) || m == loc + 9 * PawnSign(b, loc)) && Occupied(b, m)))
  {
    FilterInvalidMoves(PawnAdvances(loc, b), loc, b) + PawnAttackMoves(loc, b)
  }
}
