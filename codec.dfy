/**
 * The piece codec: a two-letter code (colour letter, type letter) becomes a
 * piece. Malformed codes are never rejected: an unknown or missing type letter
 * gives `Blank` and any first letter other than 'w' gives Black.
 */
module Codec {
  import opened Chessboard

  /** The type letter of each real piece type: the independent inverse of `DecodePieceType`. */
  function TypeLetter(k: PieceType): char
    requires k != Blank
  {
    match k
    case Bishop => 'b'
    case King => 'k'
    case Knight => 'n'
    case Pawn => 'p'
    case Queen => 'q'
    case Rook => 'r'
  }

  /** The two-letter code of a coloured piece type. */
  function Code(c: Color, k: PieceType): (s: string)
    requires k != Blank
  {
    [if c == White then 'w' else 'b', TypeLetter(k)]
  }

  /** Maps the second letter to a piece type; every other second letter (or none) is Blank. */
  function DecodePieceType(letters: string): (k: PieceType)
    ensures k != Blank <==> |letters| >= 2 && letters[1] in "bknpqr"
    ensures k != Blank ==> TypeLetter(k) == letters[1]
  {
    if |letters| < 2 then Blank
    else match letters[1]
      case 'b' => Bishop
      case 'k' => King
      case 'n' => Knight
      case 'p' => Pawn
      case 'q' => Queen
      case 'r' => Rook
      case _ => Blank
  }

  /** `decodePiece`: the colour from the first letter, the type from the second, unmoved and without power-ups. */
  function DecodePiece(letters: string): (p: Piece)
    ensures p.color == White <==> |letters| > 0 && letters[0] == 'w'
    ensures p.kind == DecodePieceType(letters)
    ensures !p.haveMoved && p.powerUps == [] && p.letters == letters
  {
    Piece(if |letters| > 0 && letters[0] == 'w' then White else Black,
          DecodePieceType(letters), false, letters, [])
  }

  /** Decoding the code of a real piece gives back that piece, fresh and without power-ups. */
  lemma DecodeCode(c: Color, k: PieceType)
    requires k != Blank
    ensures DecodePiece(Code(c, k)) == Piece(c, k, false, Code(c, k), [])
  {
    var s := Code(c, k);
    assert s[1] == TypeLetter(k);
    match k
    case Bishop =>
    case King =>
    case Knight =>
    case Pawn =>
    case Queen =>
    case Rook =>
  }

  /** Every well-formed code is the code of the piece it decodes to. */
  lemma CodeDecode(s: string)
    requires |s| == 2 && s[0] in "wb" && s[1] in "bknpqr"
    ensures DecodePiece(s).kind != Blank
    ensures Code(DecodePiece(s).color, DecodePiece(s).kind) == s
  {
    var p := DecodePiece(s);
    assert Code(p.color, p.kind)[1] == s[1];
  }
}
