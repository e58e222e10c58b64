# Chess move engine — Dafny model

This project models the move-rule engine of a browser chess game with power-ups
(`src/GameLogic.ts`). The board is a list of 64 squares; square `i` is rank
`i / 8`, file `i % 8`; each square is empty or holds a piece with a colour, a type,
its two-letter code and a list of power-ups. The engine answers three questions:

* `getMoves(loc, squares)`: where may the piece on `loc` go?
* `getCaptureMoves(loc, squares)`: which enemy pieces does it threaten?
* `validateMove(from, to, squares)`: is `to` one of the moves from `from`?

It also decodes piece codes such as `"wr"` into pieces.

The model follows the code as written, including where the code departs from the
Laws of Chess:

* There is no edge check. A Rook on 7 slides onto 8, and a Knight jump may wrap
  around the board.
* The pawn's forward steps ignore occupancy. The double step does not look at
  the square it passes over.
* There is no castling, en passant or promotion.
* The shield strategy rejects a target holding *any* power-up, not only a Shield.
  `powerUps.reduce(...)` is called without an initial value, so its accumulator
  starts as the first power-up object, which is always truthy.
* The capture-only sets of King and Pawn skip the shield filter.

## Layout

* `seqs.dfy`: `Seqs.Filter`, the order-preserving filter every pipeline stage uses.
* `chessboard.dfy`: the data model.
  * Colours, piece types, power-ups and pieces.
  * The 64-square `Board`.
  * `At`, which reads a square. An index off the board reads as empty, like
    `squares[i]` being `undefined`.
  * `ColorAt`, which models `squares[i]?.color`.
* `codec.dfy`: `decodePiece` and `decodePieceType`, with the code of a piece as
  their inverse.
* `filters.dfy`: the filter pipeline.
  * `filterInvalidMoves` and `filterCaptureMoves`.
  * The JavaScript `reduce` in `shieldStrategy`.
  * `defenderStrategies` and `filterWithStrategies`.
* `generators.dfy`: the per-piece generators.
  * The sliding pieces are specified by rays. The loop the source runs is
    `SlideMoves`.
  * Knight adjacency, King adjacency, and the pawn.
* `engine.dfy`: the rest of the engine.
  * The two dispatch tables, `getMoves`, `getCaptureMoves` and `validateMove`.
  * `checkCheck`, as a loop proved against the predicate `InCheck`.
  * `kingMoves`, whose candidate filter copies the board into an array and
    writes two cells.
* `scenarios.dfy`: concrete positions that exhibit the promised behaviour and
  the departures above.

## Model

| member | source | states |
|---|---|---|
| Codec.DecodePieceType | src/GameLogic.ts:55-72 | The type is not Blank exactly when the second letter exists and is one of `b k n p q r`. In that case the type's own letter is that second letter. |
| Codec.DecodePiece | src/GameLogic.ts:37-45 | The colour is White exactly when the first letter is `w`. The type is the decoded type. The piece is unmoved, has no power-ups and keeps its letters. |
| Codec.DecodeCode | src/GameLogic.ts:37-72 | Round trip: decoding the two-letter code of any colour and real type gives that piece back, fresh and without power-ups. |
| Codec.CodeDecode | src/GameLogic.ts:37-72 | Round trip the other way: every well-formed code decodes to a real piece whose code is the original string. |
| Seqs.Filter | src/GameLogic.ts:89-95 | Models `Array.prototype.filter` as used at lines 89, 101, 210, 231 and 266 (the filter at line 135 is `Engine.SafeMoves`). An element is kept exactly when it passes the test, and each kept value keeps its multiplicity. The result is never longer than the input. |
| Seqs.FilterSingleton | src/GameLogic.ts:89-95 | A one-element list keeps its element exactly when the element passes the test. |
| Seqs.FilterConcat | src/GameLogic.ts:89-95 | Filtering distributes over concatenation, so together with `FilterSingleton` it fixes the order: survivors appear in their original order. This covers every stage built on it: `filterInvalidMoves`, `filterCaptureMoves`, `filterWithStrategies` and the defender pipeline. |
| Seqs.FilterNonEmpty | src/GameLogic.ts:101-107 | A filtered list is non-empty exactly when some element passes the test. This is the `checks.length > 0` test of `checkCheck`. |
| Filters.FilterInvalidMoves | src/GameLogic.ts:84-96 | A candidate survives exactly when it is on squares 0..63 and its occupant's colour, or absence, differs from the mover's. Survivors keep their multiplicity. |
| Filters.FilterCaptureMoves | src/GameLogic.ts:227-236 | A move survives exactly when its square is occupied by a piece of a colour other than the mover's. |
| Filters.ReduceShield | src/GameLogic.ts:241-243 | Models the `reduce` with no initial value, whose accumulator starts as the first power-up object. Whenever the result is a power-up object, it is one of the list's power-ups. |
| Filters.ReduceShieldIsFirst | src/GameLogic.ts:241-243 | The reduce with no initial value always yields the first power-up object, which is truthy, whatever types the list holds. |
| Filters.ShieldStrategy | src/GameLogic.ts:238-247 | The strategy rejects a target exactly when its occupant carries at least one power-up of any type. Empty targets pass. |
| Filters.FilterWithStrategies | src/GameLogic.ts:261-272 | A move survives exactly when every strategy in the list accepts it. |
| Filters.DefendersRejectShielded | src/GameLogic.ts:251-254 | With the registered defender list, which is only the shield strategy, the pipeline drops exactly the shielded targets. |
| Generators.Shift | src/GameLogic.ts:132 | Element `i` of the result is `offsets[i] + loc`, one for one and in order, as `offsets.map(a => a + loc)` gives. |
| Generators.ShiftMembership | src/GameLogic.ts:132 | A square is a translated offset exactly when its difference from `loc` is one of the offsets. |
| Generators.RayMembership | src/GameLogic.ts:121-126 | A ray from step `k` holds exactly the steps `n` with `k <= n < 8`, such that no step before `n` is occupied. The first occupied step is included. |
| Generators.RaySteps | src/GameLogic.ts:122-125 | Element `j` of the ray from step `k` is step `k + j`: the pushes are consecutive steps in push order. `Ray` itself has no contract; its break behaviour is stated by `RayMembership`. |
| Generators.RaysMembership | src/GameLogic.ts:121-126 | The concatenated rays hold a square exactly when the ray of some direction holds it. |
| Generators.SlidingMembership | src/GameLogic.ts:112-128 | A sliding piece's moves are the on-board squares of a different colour reached at step `n` (1 to 7) along one direction, with only empty squares before them. |
| Generators.SlideMoves | src/GameLogic.ts:112-128 | The nested push loop, with its break after the first occupied square, computes exactly the filtered rays. It gives `BishopMoves`, `RookMoves` or `QueenMoves` for their direction tables. |
| Generators.PushRay | src/GameLogic.ts:122-125 | The inner loop for one direction, which pushes steps 1..7 and breaks after the first occupied square, appends exactly that direction's ray. |
| Generators.ShiftedMembership | src/GameLogic.ts:145-146 | After the bounds and colour filter, a translated offset list holds a square exactly when it is on the board, of another colour, and at one of the offsets from `loc`. |
| Generators.BishopMoves | src/GameLogic.ts:112-128 | Every result is on the board, and its square's colour differs from the mover's. |
| Generators.RookMoves | src/GameLogic.ts:188-203 | Every result is on the board, and its square's colour differs from the mover's. |
| Generators.QueenMoves | src/GameLogic.ts:167-186 | Every result is on the board, and its square's colour differs from the mover's. |
| Generators.KnightMoves | src/GameLogic.ts:144-147 | A square is a move exactly when it lies at one of the eight knight offsets, is on the board and has a colour different from the mover's. There is no edge check. |
| Generators.KingAttackMoves | src/GameLogic.ts:218-224 | A square is a move exactly when it is adjacent by one of the eight offsets, is on the board and has a colour different from the mover's. There is no check test. |
| Generators.PawnAdvances | src/GameLogic.ts:151-162 | The forward candidates are exactly the single step, plus the double step when the pawn stands on its starting rank. The sign and the rank are set by colour, and an empty `loc` counts as Black. |
| Generators.PawnAttackMoves | src/GameLogic.ts:205-213 | A square is a move exactly when it is a forward diagonal (7 or 9 ahead, the sign set by colour), is on the board, is occupied and has a colour different from the mover's. |
| Generators.PawnMoves | src/GameLogic.ts:149-165 | A square is a move exactly when it is on the board, has a colour different from the mover's, and is one of these: the single step; the double step from the starting rank (1 for White, 6 otherwise); an occupied forward diagonal. The steps ignore occupancy. |
| Engine.Defended | src/GameLogic.ts:276-284 | Wrapping a generator in `filterWithStrategies(_, defenderStrategies)` keeps exactly its unshielded moves. |
| Engine.GetCaptureMoves | src/GameLogic.ts:79-82 | Every result is on the board and has a colour different from the mover's. Apart from the King, every result is occupied. An empty square or a Blank piece gives nothing. |
| Engine.KingHits | src/GameLogic.ts:101-106 | The `checks` list holds exactly the capture-only targets of `i` that hold a King of colour `c`. |
| Engine.AttacksIff | src/GameLogic.ts:98-110 | A square attacks colour `c` exactly when it holds an enemy piece whose capture-only set holds a King of colour `c`. |
| Engine.InCheckIff | src/GameLogic.ts:98-110 | `c` is in check exactly when some enemy piece's capture-only set holds a King of colour `c`. |
| Engine.CheckCheck | src/GameLogic.ts:98-110 | The scan, which skips empty and friendly squares and returns at the first non-empty `checks`, returns exactly `InCheck`. |
| Engine.Simulate | src/GameLogic.ts:136-138 | The copy has the mover's square empty and the target holding the mover. Every other square is unchanged. |
| Engine.SafeMoves | src/GameLogic.ts:135-140 | A candidate is kept exactly when the mover's colour is not in check after the simulated move. |
| Engine.KingMoves | src/GameLogic.ts:131-142 | A square is a King move exactly when it is adjacent, on the board, of another colour and leaves the King out of check. The result is empty unless `loc` holds a King. |
| Engine.CollectKingMoves | src/GameLogic.ts:131-142 | The loop over the candidates, with a board copy per candidate, computes exactly `KingMoves`. |
| Engine.LeavesKingSafe | src/GameLogic.ts:135-140 | Copying the board into an array and writing the target and origin cells tests check on exactly the simulated board. |
| Engine.SafeMovesStep | src/GameLogic.ts:135-140 | One more candidate extends the kept prefix by that candidate alone, or by nothing. |
| Engine.GetMoves | src/GameLogic.ts:74-77 | Every move is on the board, has a colour different from the mover's and is unshielded. An empty square or a Blank piece gives nothing. |
| Engine.ValidateMove | src/GameLogic.ts:47-53 | Valid exactly when `to` is among `getMoves(from)`. A valid move starts from a real piece and ends on the board, on an enemy or empty square, not shielded. |
| Engine.SlidingGetMoves | src/GameLogic.ts:276-284 | For Bishop, Rook and Queen: a move is exactly a square reached along one of the piece's directions over empty squares, on the board, of another colour and unshielded. |
| Engine.KnightGetMoves | src/GameLogic.ts:279 | For a Knight: a move is exactly a knight offset that is on the board, of another colour and unshielded. |
| Engine.PawnGetMoves | src/GameLogic.ts:280 | For a Pawn: a move is exactly a `PawnMoves` target that is unshielded. |
| Engine.KingMovesSafe | src/GameLogic.ts:278 | For a King: a move is exactly an adjacent square that is on the board, of another colour, unshielded and not leading into check. |
| Engine.CaptureMovesFollowMoves | src/GameLogic.ts:286-294 | For Bishop, Knight, Queen and Rook, the capture-only set is `getMoves` restricted to occupied squares, in order. |
| Engine.KingCaptureMoves | src/GameLogic.ts:288 | A King's capture-only set is its filtered adjacency. It has no check simulation and no shield filter. |
| Engine.PawnCaptureMoves | src/GameLogic.ts:290 | A Pawn's capture-only set is its occupied enemy forward diagonals. It has no shield filter. |
| Scenarios.DecodeExamples | src/GameLogic.ts:37-72 | Worked decodings, including `"wx"` giving Blank and the empty string giving Black. |
| Scenarios.RookInCorner | src/GameLogic.ts:188-203 | A Rook alone on 0 reaches exactly 1..7 and 8, 16, ..., 56. |
| Scenarios.RookBlocked | src/GameLogic.ts:196-201 | With an enemy on 4, a Rook on 0 reaches exactly 1..4 along the first rank. The blocker is included. |
| Scenarios.RookWrapsAroundEdge | src/GameLogic.ts:193 | With no edge check, a Rook on 7 reaches 8. |
| Scenarios.PawnDoubleStep | src/GameLogic.ts:149-165 | A lone White Pawn on 8 moves to exactly 16 and 24. |
| Scenarios.PawnSingleStep | src/GameLogic.ts:149-165 | A lone White Pawn on 16 moves to exactly 24. |
| Scenarios.PawnAdvancesOntoEnemy | src/GameLogic.ts:157-162 | The forward steps ignore occupancy: with an enemy on 16, a Pawn on 8 may go to 16 and also jump to 24. |
| Scenarios.GuardActsAsShield | src/GameLogic.ts:238-247 | A Guard power-up alone blocks capture through `getMoves`. |
| Scenarios.KingThreatensShieldedPiece | src/GameLogic.ts:286-294 | A shielded neighbour is in the King's capture-only set but not in its moves. |
| Scenarios.KingsKeepApart | src/GameLogic.ts:131-142 | With the Black King on 16, the White King on 0 may not step to 8. |

## Left out

* The user interface and the game loop are not part of this model. That covers
  applying a move, turns, and drag and drop.
* Codec.DecodePieceType: strings are sequences of Unicode characters, while JavaScript
  indexes UTF-16 code units. When the first character of a code lies outside the Basic
  Multilingual Plane, `letters[1]` in the source is the low surrogate, so the source
  gives Blank. The model reads the next character instead, so for a code such as
  `"\u{1F600}b"` it gives Bishop. The colour test on `letters[0]` gives Black in both.
  Real piece codes are two ASCII letters.
* `haveMoved` is carried but never read by the engine.
* Castling, en passant, promotion, checkmate and stalemate are left out; the
  engine has none of them.
* `attackedStrategies` (src/GameLogic.ts:256-259) is an empty list that nothing
  uses, so the model leaves it out.
* The three identical push-and-break loops of `bishopMoves`, `rookMoves` and
  `queenMoves` are one method, `SlideMoves`. Each is selected by its direction
  table.
* Generators.BishopMoves, Generators.RookMoves, Generators.QueenMoves: their own
  ensures give only bounds and colour. The full geometric characterisation is
  stated by the lemmas `SlidingMembership` and `Engine.SlidingGetMoves`.
* Move lists are modelled as values. `getMoves`, `getCaptureMoves`,
  `validateMove` and the generators are functions. The loops that the source
  writes imperatively (`checkCheck`, the sliding loops, the `kingMoves` filter
  with its board copy) are methods proved equal to those functions.
* `getMoves` and `getCaptureMoves` require `loc` to be on the board. Off the
  board the source reads `undefined`, passes the `=== null` test and then throws
  on `squares[loc]!.type`.
* JavaScript `Math.floor(loc / 8)` is written as Dafny's `loc / 8`. For a
  positive divisor, Dafny's Euclidean division also rounds down, so the two agree
  for every `loc`.
* The board has exactly 64 squares. The source assumes this but never checks it.
