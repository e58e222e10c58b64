/**
 * The engine's data model: colours, piece types, power-ups, pieces and the
 * 64-square row-major board. A square is either empty (`None`) or holds a piece.
 */
module Chessboard {

  const BOARD_SIZE: int := 8

  datatype Option<+T> = None | Some(value: T)

  datatype Color = White | Black

  /** `Blank` is the codec's placeholder for an unknown type letter. */
  datatype PieceType = Bishop | King | Knight | Pawn | Queen | Rook | Blank

  datatype PowerUpType = Guard | Shield | Sword | Flail

  datatype PowerUp = PowerUp(kind: PowerUpType)

  /** `letters` keeps the two-letter code the piece was decoded from. */
  datatype Piece = Piece(color: Color, kind: PieceType, haveMoved: bool, letters: string, powerUps: seq<PowerUp>)

  type Square = Option<Piece>

  type Board = b: seq<Square> | |b| == 64 witness seq(64, _ => None)

  /** The squares the bounds filter admits: indices 0 through 63. */
  predicate OnBoard(i: int) {
    0 <= i <= 63
  }

  /** Reading a square; an index off the board reads as empty, as an out-of-range array read does. */
  function At(b: Board, i: int): (s: Square)
    ensures s.Some? ==> OnBoard(i)
  {
    if OnBoard(i) then b[i] else None
  }

  predicate Occupied(b: Board, i: int) {
    At(b, i).Some?
  }

  /** The colour of the occupant of `i`, if any (`squares[i]?.color`). */
  function ColorAt(b: Board, i: int): Option<Color> {
    match At(b, i)
    case None => None
    case Some(p) => Some(p.color)
  }

  /** The square holds a King of colour `c`. */
  predicate IsKingOf(s: Square, c: Color) {
    s.Some? && s.value.color == c && s.value.kind == King
  }
}
