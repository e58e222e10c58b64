/**
 * The move filter pipeline: the bounds and colour filter, the capture filter,
 * and the defender strategies (currently only the Shield power-up) that may veto
 * a target square.
 */
module Filters {
  import opened Chessboard
  import opened Seqs

  /** `filterInvalidMoves`: keeps the candidates on the board whose occupant's colour (or absence) differs from the mover's. */
  function FilterInvalidMoves(moves: seq<int>, loc: int, b: Board): (r: seq<int>)
    ensures forall m :: m in r <==> m in moves && OnBoard(m) && ColorAt(b, m) != ColorAt(b, loc)
    ensures forall m :: multiset(r)[m] == if OnBoard(m) && ColorAt(b, m) != ColorAt(b, loc) then multiset(moves)[m] else 0
  {
    Filter(moves, m => OnBoard(m) && ColorAt(b, m) != ColorAt(b, loc))
  }

  /** `filterCaptureMoves`, applied to the list a move strategy produced: keeps the targets holding a piece of another colour. */
  function FilterCaptureMoves(moves: seq<int>, loc: int, b: Board): (r: seq<int>)
    ensures forall m :: m in r <==> m in moves && Occupied(b, m) && ColorAt(b, m) != ColorAt(b, loc)
  {
    Filter(moves, m => Occupied(b, m) && ColorAt(b, m) != ColorAt(b, loc))
  }

  /**
   * A JavaScript value as the accumulator of `reduce` sees it: either a
   * power-up object (always truthy) or a boolean.
   */
  datatype JsValue = PowerUpObject(powerUp: PowerUp) | JsBool(b: bool)

  predicate Truthy(v: JsValue) {
    v.PowerUpObject? || v.b
  }

  /**
   * `powerUps.reduce((acc, powerUp) => acc || powerUp.type === Shield)` with no
   * initial value: the accumulator starts as the first power-up object, and
   * `acc || x` yields `acc` whenever `acc` is truthy.
   */
  function ReduceShield(ps: seq<PowerUp>): (r: JsValue)
    requires |ps| > 0
    ensures r.PowerUpObject? ==> r.powerUp in ps
  {
    if |ps| == 1 then PowerUpObject(ps[0])
    else
      var acc := ReduceShield(ps[..|ps| - 1]);
      if Truthy(acc) then acc else JsBool(ps[|ps| - 1].kind == Shield)
  }

  /** The reduction never leaves its first element: the result is the first power-up object, whatever the list holds. */
  lemma {:induction false} ReduceShieldIsFirst(ps: seq<PowerUp>)
    requires |ps| > 0
    ensures ReduceShield(ps) == PowerUpObject(ps[0])
    ensures Truthy(ReduceShield(ps))
  {
    if |ps| > 1 {
      ReduceShieldIsFirst(ps[..|ps| - 1]);
    }
  }

  /** The occupant of `m` carries at least one power-up of any type. */
  predicate Shielded(b: Board, m: int) {
    Occupied(b, m) && |At(b, m).value.powerUps| > 0
  }

  /** `shieldStrategy`: rejects exactly the targets whose occupant carries any power-up; empty squares pass. */
  function ShieldStrategy(loc: int, b: Board, move: int): (ok: bool)
    ensures ok <==> !Shielded(b, move)
  {
    var target := At(b, move);
    if target.Some? && |target.value.powerUps| > 0 then
      ReduceShieldIsFirst(target.value.powerUps);
      !Truthy(ReduceShield(target.value.powerUps))
    else
      true
  }

  /** A defender strategy: may the mover at `loc` go to `move` on this board? */
  type Strategy = (int, Board, int) -> bool

  const DefenderStrategies: seq<Strategy> := [ShieldStrategy]

  predicate AllAccept(strategies: seq<Strategy>, loc: int, b: Board, move: int) {
    forall k :: 0 <= k < |strategies| ==> strategies[k](loc, b, move)
  }

  /** `filterWithStrategies`, applied to the list a move strategy produced: a target survives only if every strategy accepts it. */
  function FilterWithStrategies(moves: seq<int>, strategies: seq<Strategy>, loc: int, b: Board): (r: seq<int>)
    ensures forall m :: m in r <==> m in moves && forall k :: 0 <= k < |strategies| ==> strategies[k](loc, b, m)
  {
    Filter(moves, m => AllAccept(strategies, loc, b, m))
  }

  /** With the registered defender list, the pipeline drops exactly the shielded targets. */
  lemma DefendersRejectShielded(moves: seq<int>, loc: int, b: Board)
    ensures forall m :: m in FilterWithStrategies(moves, DefenderStrategies, loc, b) <==> m in moves && !Shielded(b, m)
  {
    forall m
      ensures AllAccept(DefenderStrategies, loc, b, m) <==> !Shielded(b, m)
    {
      assert DefenderStrategies[0](loc, b, m) == ShieldStrategy(loc, b, m);
    }
  }
}
