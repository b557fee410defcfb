# Chess engine: rules and move state machine

This project models the rules engine of a browser chess game and its square-name
converters, and proves properties of both.

- **Square names.** Coordinates (row, col) convert to and from algebraic square names
  such as "e4". Row 0 is the top of the board and carries rank 8.
- **Move generation.** Each kind of piece has its raw ("pseudo-legal") moves:
  - pawn pushes, diagonal captures and en passant;
  - the rays of rook, bishop and queen;
  - the offsets of knight and king;
  - castling.
- **Attacks and legality.** Attack detection reuses raw moves. A move is legal when it
  leaves the mover's king unattacked; the engine tries it by relocating the mover on a
  copy of the board.
- **Game status.** The status is checkmate, stalemate or ongoing.
- **Click state machine.** Clicks select a piece, deselect it, or commit a move. A move
  is castling, a deferred pawn promotion or a normal move. The promotion choice and the
  restart are separate transitions.

## Modules

| File | Module | What it holds |
|---|---|---|
| `notation.dfy` | `Notation` | The two converters, with `Result` errors in place of thrown exceptions. |
| `pieces.dfy` | `Pieces` | Pieces, squares, the 8x8 board, the initial position, the direction tables and the castling flags. |
| `moves.dfy` | `Moves` | Raw moves, attacks and check, as specification functions. |
| `move_facts.dfy` | `MoveFacts` | What raw move generation and attack detection promise. |
| `movegen.dfy` | `MoveGen` | The source's loops as methods, each proved to compute its specification function. |
| `legality.dfy` | `Legality` | Legality filtering, the scan for all legal moves, and the game status. |
| `game.dfy` | `Game` | The engine's state as a datatype, with its transitions as functions from old state to new. |
| `game_facts.dfy` | `GameFacts` | What the transitions promise. |
| `engine.dfy` | `Engine` | The class `ChessEngine`. It has the component's state fields, updated in place. Each handler is proved to move the object from state `s` to the state the matching `Game` transition gives for `s`. |

The source closes over some state implicitly. `calculateRawMoves` reads three such
fields, so they become an explicit context `Ctx`:
- the castling flags;
- the stored check flag;
- the last double pawn push.

Move generation and attack detection are mutually recursive: castling asks whether
squares are attacked, and attack detection generates raw moves with castling switched
off. The `decreases` clauses rank the members of this cycle on that switch.

The status refresh in the source is an effect that reruns whenever the board or the turn
changes. It is modelled as `Game.Refresh`. Each transition that changes the board or the
turn applies `Game.Refresh` at its end, and `Engine.ChessEngine.RefreshStatus` is the
method that performs it.

The effect reads the check flag from the render that scheduled it, not the value it is
about to store. So the castling test inside the legal-move search sees the check flag from
before the refresh, and the model judges the status with that stale flag too. Whether the
king is in check does not depend on the flag at all
(`MoveFacts.KingInCheckReadsOnlyEnPassant`).

## Model

| member | source | states |
|---|---|---|
| Notation.CoordsToNotation | src/utils/notation.js:10-17 | Fails with InvalidCoordinates exactly when row or column is outside 0..7; otherwise the name is the column's file letter ('a' + col) followed by the row's rank digit ('8' - row). |
| Notation.NotationToCoords | src/utils/notation.js:25-39 | Any length other than 2 gives InvalidFormat. For two characters, InvalidCharacters exactly when the first is not a file letter or the second not a rank digit. An accepted name yields an on-board pair whose letter and digit spell the name back. |
| Notation.IndexOf | src/utils/notation.js:33-34 | Gives -1 exactly when the character is absent; otherwise the position of its first occurrence. |
| Notation.TablesMatchCharCodes | src/utils/notation.js:11-12 | The file table is 'a'..'h' by column and the rank table '8'..'1' by row. |
| Notation.CoordsRoundTrip | src/utils/notation.js:10-39 | Every on-board pair converts to a name that converts back to the same pair. |
| Notation.NotationRoundTrip | src/utils/notation.js:25-39 | Every accepted name converts to a pair that converts back to the same name. |
| Notation.FilesDistinct | src/utils/notation.js:33 | Looking up the file letter of a column finds that column. |
| Notation.RanksDistinct | src/utils/notation.js:34 | Looking up the rank digit of a row finds that row. |
| Pieces.Put | src/components/ChessEngine.jsx:307-309 | Writing one cell of the board copy sets that square and leaves every other square as it was. |
| Pieces.WithFlags | src/components/ChessEngine.jsx:412-417 | Replacing one colour's castling flags leaves the other colour's flags unchanged. |
| Moves.KingFrom | src/components/ChessEngine.jsx:89-98 | A square it finds holds the king of that colour, and no square before it in row-major scan order does; when it finds none, no square from the start of the scan on holds that king. |
| MoveFacts.RaySteps | src/components/ChessEngine.jsx:194-206 | A ray starts at the first square in the direction and proceeds one step of the direction at a time. |
| MoveFacts.RayStops | src/components/ChessEngine.jsx:197-203 | Every square of a ray but the last is empty. The last square is not held by the mover's colour. A ray stops short only at the board edge or before a piece of the mover's colour. |
| MoveFacts.RayNotOwn | src/components/ChessEngine.jsx:197-203 | No square on a ray holds a piece of the mover's colour. |
| MoveFacts.SlidesMember | src/components/ChessEngine.jsx:194-207 | A slider reaches exactly the squares on one of its rays. |
| MoveFacts.SlidesAppend | src/components/ChessEngine.jsx:240 | Sliding along two concatenated direction tables gives the first table's targets followed by the second's. |
| MoveFacts.QueenIsRookThenBishop | src/components/ChessEngine.jsx:239-255 | A queen's targets are the rook's targets from its square followed by the bishop's. |
| MoveFacts.LeapsMember | src/components/ChessEngine.jsx:227-238 | A knight or king reaches exactly the on-board offset squares not held by its own colour. |
| MoveFacts.KingStepAdjacent | src/components/ChessEngine.jsx:257-265 | A king step changes row and column by at most one. |
| MoveFacts.SlidesNotOwn | src/components/ChessEngine.jsx:193-226 | No slider target holds a piece of the mover's colour. |
| MoveFacts.RawTargetNotOwn | src/components/ChessEngine.jsx:193-265 | For rook, bishop, queen, knight and king, no raw target holds a piece of the mover's colour. Being on the board is part of the target type. |
| MoveFacts.PawnTargets | src/components/ChessEngine.jsx:158-190 | A pawn's targets are exactly these four: one step forward onto an empty square; two steps from its start row over two empty squares; one step diagonally forward onto an enemy; one step diagonally forward behind the en-passant target beside it. |
| MoveFacts.PawnTwoRowsOnlyFromStart | src/components/ChessEngine.jsx:166-167 | A pawn moves two rows only straight ahead from its start row, landing on row 4 (white) or row 3 (black). |
| MoveFacts.RawTargetIsNotOrigin | src/components/ChessEngine.jsx:135-293 | No piece has its own square among its raw targets. |
| MoveFacts.CastlingTargets | src/components/ChessEngine.jsx:267-285 | A king target two columns away is produced exactly when all of these hold: castling is not switched off; the king flag is clear; the stored check flag is clear; the target is on the home row; the matching rook flag is clear; columns 5-6 (or 1-3) are empty; columns 4, 5, 6 (or 2, 3, 4) are not attacked. |
| MoveFacts.PawnPushIsAttack | src/components/ChessEngine.jsx:106 | Attack detection reuses raw moves, so a pawn attacks the empty square straight in front of it. |
| MoveFacts.PawnDiagonalToEmptyIsNoAttack | src/components/ChessEngine.jsx:171-189 | A pawn does not attack an empty diagonal square unless the en-passant target stands beside it in that column. |
| MoveFacts.RawMovesIgnoringCheckReadOnlyEnPassant | src/components/ChessEngine.jsx:135-293 | With castling switched off, raw moves depend only on the board and the en-passant target. |
| MoveFacts.KingInCheckReadsOnlyEnPassant | src/components/ChessEngine.jsx:296-301 | Whether a king is in check depends neither on the castling flags nor on the stored check flag. |
| MoveFacts.BackRankSlidesEmpty | src/components/ChessEngine.jsx:193-255 | While black is at home (MoveFacts.BlackAtHome), a black rook, bishop or queen on row 0 has no target. |
| MoveFacts.BlackAtHomeReach | src/components/ChessEngine.jsx:101-116 | While black is at home, no black piece attacks a square below row 3. |
| MoveFacts.WhiteSafeWhileBlackAtHome | src/components/ChessEngine.jsx:296-301 | While black is at home, a white king on row 4 or below is not in check. |
| MoveGen.WalkRay | src/components/ChessEngine.jsx:195-206 | The while loop appends exactly the ray's squares, in order: empty squares, then the first enemy. |
| MoveGen.AddRays | src/components/ChessEngine.jsx:194-207 | Appends the rays of all directions in table order, which is exactly the slider's targets. |
| MoveGen.AddLeaps | src/components/ChessEngine.jsx:228-236 | Appends, in table order, exactly the offsets that are on the board and not held by the mover's colour. |
| MoveGen.AddPawnCaptures | src/components/ChessEngine.jsx:171-177 | Appends the diagonal enemy captures, left side first. |
| MoveGen.AddEnPassants | src/components/ChessEngine.jsx:180-190 | Appends the en-passant targets, left side first. |
| MoveGen.AddPawnMoves | src/components/ChessEngine.jsx:158-192 | Computes exactly the pawn targets characterised by MoveFacts.PawnTargets. |
| MoveGen.CastlingMoves | src/components/ChessEngine.jsx:267-285 | Computes exactly the castling targets characterised by MoveFacts.CastlingTargets. |
| MoveGen.CalculateRawMoves | src/components/ChessEngine.jsx:135-293 | Computes exactly the raw targets of the piece on the square: none for an empty square, and castling only when it is not switched off. |
| MoveGen.IsSquareAttacked | src/components/ChessEngine.jsx:101-116 | True exactly when some piece of the attacker has the square among its raw targets, with castling switched off. |
| MoveGen.PieceAttacks | src/components/ChessEngine.jsx:104-111 | True exactly when the square holds a piece of the attacker that has the target among its raw moves. |
| MoveGen.Contains | src/components/ChessEngine.jsx:107-111 | True exactly when the target occurs in the move list. |
| MoveGen.AreSquaresEmpty | src/components/ChessEngine.jsx:119-124 | True exactly when every column from the start to the end (inclusive) of the row is empty. |
| MoveGen.AreSquaresSafe | src/components/ChessEngine.jsx:127-132 | True exactly when none of the listed columns of the row is attacked. |
| MoveGen.FindKing | src/components/ChessEngine.jsx:89-98 | Returns the first square in row-major order holding that colour's king, or None when there is no such king (see Moves.KingFrom). |
| MoveGen.IsKingInCheck | src/components/ChessEngine.jsx:296-301 | False without a king; otherwise true exactly when the opponent attacks the king's square. |
| Legality.Simulate | src/components/ChessEngine.jsx:307-309 | The trial board has the origin emptied, the mover on the target, and every other square unchanged. |
| Legality.FilterLegal | src/components/ChessEngine.jsx:304-312 | The kept targets are an order-preserving subsequence of the candidates. A target is kept exactly when it is a candidate and the trial board leaves the mover's king unattacked. |
| Legality.MoveOnBoard | src/components/ChessEngine.jsx:307-309 | Produces the relocated board characterised by Legality.Simulate; the same two writes end a normal move (lines 440-441). |
| Legality.KeepsKingSafe | src/components/ChessEngine.jsx:306-311 | True exactly when relocating the mover leaves its king unattacked. |
| Legality.FilterLegalMoves | src/components/ChessEngine.jsx:304-312 | Computes the filtered list characterised by Legality.FilterLegal. |
| Legality.CalculatePossibleMoves | src/components/ChessEngine.jsx:496-499 | The legal targets are the raw targets, castling included, that pass the filter. |
| Legality.EntryAtOk | src/components/ChessEngine.jsx:319-324 | An entry made for a square has that square as origin, a piece of the colour there, and all of its legal targets, at least one. |
| Legality.EntryAtOrigin | src/components/ChessEngine.jsx:319-324 | One square yields at most one entry, with that square as origin. |
| Legality.AllLegalFromAfter | src/components/ChessEngine.jsx:317-327 | The scan from a square lists only origins at or after that square. |
| Legality.AllLegalFromSound | src/components/ChessEngine.jsx:317-327 | Every listed entry holds a piece of the colour with all of its legal targets, at least one. |
| Legality.AllLegalFromSorted | src/components/ChessEngine.jsx:317-327 | Origins are listed in strictly increasing scan order, so no square appears twice. |
| Legality.OrderedCons | src/components/ChessEngine.jsx:317-327 | One entry placed before a list of later origins keeps the list in strict scan order. |
| Legality.ListedHere | src/components/ChessEngine.jsx:319-324 | The square under the scan is listed when its piece has a legal move. |
| Legality.ListedLater | src/components/ChessEngine.jsx:317-327 | An origin listed later in the scan is still listed from the current square. |
| Legality.AllLegalFromComplete | src/components/ChessEngine.jsx:317-327 | Every piece of the colour at or after the starting square with a legal move is listed. |
| Legality.AllLegalMovesContract | src/components/ChessEngine.jsx:315-329 | Lists exactly the pieces of the colour that have a legal move, each once, in scan order, each with all of its legal targets. |
| Legality.LegalEntryAt | src/components/ChessEngine.jsx:319-324 | The loop body for one square gives exactly that square's entry. |
| Legality.ScanRow | src/components/ChessEngine.jsx:318-326 | The inner loop appends exactly the entries of one row. |
| Legality.GetAllLegalMoves | src/components/ChessEngine.jsx:315-329 | Computes the list characterised by Legality.AllLegalMovesContract. |
| Legality.AllLegalMovesEmpty | src/components/ChessEngine.jsx:315-329 | The list is empty exactly when no piece of the colour has a legal move. |
| Legality.StatusOfCases | src/components/ChessEngine.jsx:342-351 | Checkmate exactly when the side to move has no legal move and is in check; stalemate exactly when it has none and is not in check; ongoing exactly when it has one. |
| Game.RefreshEffect | src/components/ChessEngine.jsx:331-352 | The refresh changes only three fields: the check flag, the checked king's square and the status. Check means the side to move has its king attacked. The king's square is recorded exactly when in check, and holds that king. The status is as in Legality.StatusOfCases, judged with the check flag from before the refresh. |
| Game.DoublePushRow | src/components/ChessEngine.jsx:471-472 | A legal two-row pawn move lands on row 4 (white) or row 3 (black), so the recorded en-passant target always has a row behind it. |
| Game.Commit | src/components/ChessEngine.jsx:367-475 | Committing a legal move keeps the state invariant (see Game.StateOk). |
| Game.Select | src/components/ChessEngine.jsx:476-491 | Selecting a piece of the side to move keeps the state invariant. |
| Game.Click | src/components/ChessEngine.jsx:354-493 | Every click keeps the state invariant. |
| Game.FirstPawnFrom | src/components/ChessEngine.jsx:72-77 | A column it finds holds a pawn of the colour on the row, and no column before it from the start of the scan does; when it finds none, no such pawn stands there. |
| Game.Promote | src/components/ChessEngine.jsx:65-84 | The promotion choice keeps the state invariant. |
| Game.Initial | src/components/ChessEngine.jsx:37-62 | The start-up state satisfies the state invariant. |
| Game.Restart | src/components/ChessEngine.jsx:501-520 | The restarted state satisfies the state invariant. |
| GameFacts.LegalTargetIsNotOrigin | src/components/ChessEngine.jsx:304-312 | A legal target differs from its origin. |
| GameFacts.NormalCommitEffect | src/components/ChessEngine.jsx:376-475 | A normal move does all of the following. It puts the piece on the target and empties the origin. When a pawn steps diagonally into the last double push's column (Game.ClearsEnPassant), it also empties the square beside the origin in the target's column; every other square is unchanged. It passes the turn and drops the selection. It sets the en-passant target exactly after a two-row pawn move, and clears it otherwise. |
| GameFacts.NormalCommitFlags | src/components/ChessEngine.jsx:447-468 | A king move sets the king flag. A rook move from column 0 or 7, on any row, sets that rook's flag. Everything else keeps the flags, and the opponent's flags never change. |
| GameFacts.MovedFlagsEffect | src/components/ChessEngine.jsx:447-468 | The castling flags after a normal move, flag by flag, as in GameFacts.NormalCommitFlags. |
| GameFacts.KingsideBoard | src/components/ChessEngine.jsx:387-395 | The king lands on column 6 and the rook from column 7 on column 5; columns 4 and 7 are emptied; every other square is unchanged. |
| GameFacts.QueensideBoard | src/components/ChessEngine.jsx:397-405 | The king lands on column 2 and the rook from column 0 on column 3; columns 0 and 4 are emptied; every other square is unchanged. |
| GameFacts.KingsideCastleEffect | src/components/ChessEngine.jsx:384-421 | Kingside castling starts from column 4 and leaves the board of GameFacts.KingsideBoard. It sets the king and right-rook flags of the mover only, passes the turn, and keeps the en-passant target. |
| GameFacts.QueensideCastleEffect | src/components/ChessEngine.jsx:384-421 | Queenside castling from column 4 leaves the board of GameFacts.QueensideBoard. It sets the king and left-rook flags of the mover only, passes the turn, and keeps the en-passant target. |
| GameFacts.PromotionDeferred | src/components/ChessEngine.jsx:426-437 | A pawn move onto the last rank changes neither board, turn, status, flags nor en-passant target. It only records the pending square and colour and drops the selection. |
| GameFacts.PromotedBoardEffect | src/components/ChessEngine.jsx:71-78 | The chosen piece stands on the promotion square. At most the first pawn of the colour on the row behind is removed, found by scanning from column 0. Nothing else changes. |
| GameFacts.PromotionResolved | src/components/ChessEngine.jsx:65-84 | The choice writes the promoted board, clears the pending state, passes the turn, and keeps the flags and the en-passant target. |
| GameFacts.OnlyLegalMovesChangeBoard | src/components/ChessEngine.jsx:354-493 | A click changes the board or the turn only when all of these hold: no promotion is pending; the game is ongoing; a piece is selected; the click is on one of its legal targets. |
| GameFacts.BlockedClickIgnored | src/components/ChessEngine.jsx:355 | While a promotion is pending or the game is over, a click changes nothing. |
| GameFacts.InitialBoardHome | src/components/ChessEngine.jsx:7-16 | In the initial position black fills rows 0 and 1 with only pawns on row 1, has nothing elsewhere, and the white king stands below row 3. |
| GameFacts.InitialOngoing | src/components/ChessEngine.jsx:37-62 | The start-up state has the initial board, White to move, nothing selected, no pending promotion, no check, no checked king's square, and an ongoing game: White has a legal move. |
| GameFacts.RestartOngoing | src/components/ChessEngine.jsx:501-520 | After a restart from any state the board is the initial one, White is to move, not in check, and the game is ongoing. |
| GameFacts.RestartIsInitial | src/components/ChessEngine.jsx:501-520 | A restart from any state gives the start-up state. |
| Engine.ClearEnPassant | src/components/ChessEngine.jsx:376-382 | Empties the square beside the origin in the target's column exactly when a pawn steps diagonally forward into the last double push's column. |
| Engine.CastleKingAndRook | src/components/ChessEngine.jsx:384-405 | Produces the castled board characterised by GameFacts.KingsideBoard and GameFacts.QueensideBoard. |
| Engine.MarkMoved | src/components/ChessEngine.jsx:447-468 | Produces the flags characterised by GameFacts.NormalCommitFlags. |
| Engine.StatusEffect | src/components/ChessEngine.jsx:331-352 | Gives the check flag, the king's square exactly when in check, and the status characterised by Legality.StatusOfCases. |
| Engine.RemoveFirstPawn | src/components/ChessEngine.jsx:71-77 | The scan removes the first pawn of the colour on the row, if there is one, and changes nothing else. |
| Engine.ChessEngine.constructor | src/components/ChessEngine.jsx:37-62 | The fields start at the initial position with White to move, followed by the first status refresh. |
| Engine.ChessEngine.RefreshStatus | src/components/ChessEngine.jsx:331-352 | Moves the object from s to Game.Refresh(s) and keeps the invariant. |
| Engine.ChessEngine.CalculatePossibleMoves | src/components/ChessEngine.jsx:496-499 | Returns the legal targets of the piece on the square in the current state. |
| Engine.ChessEngine.OnSquareClick | src/components/ChessEngine.jsx:354-493 | Moves the object from s to Game.Click(s, p), including the promotion gate of line 527. |
| Engine.ChessEngine.CommitMove | src/components/ChessEngine.jsx:367-475 | Moves the object from s to Game.Commit(s, from, to). |
| Engine.ChessEngine.CommitCastling | src/components/ChessEngine.jsx:384-421 | The castling branch of Game.Commit. |
| Engine.ChessEngine.Castle | src/components/ChessEngine.jsx:406-420 | Writes the castled board, drops the selection, passes the turn and sets the castling flags; nothing else changes. |
| Engine.ChessEngine.DeferPromotion | src/components/ChessEngine.jsx:426-437 | The promotion branch of Game.Commit. |
| Engine.ChessEngine.RecordPromotion | src/components/ChessEngine.jsx:430-434 | Records the pending square and colour and drops the selection; nothing else changes. |
| Engine.ChessEngine.CommitNormal | src/components/ChessEngine.jsx:440-475 | The normal-move branch of Game.Commit. |
| Engine.ChessEngine.MovePiece | src/components/ChessEngine.jsx:440-475 | Writes the moved board, drops the selection, passes the turn, and updates the flags and the en-passant target; nothing else changes. |
| Engine.ChessEngine.HandlePromotionChoice | src/components/ChessEngine.jsx:65-84 | Moves the object from s to Game.Promote(s, kind). |
| Engine.ChessEngine.PlacePromotedPiece | src/components/ChessEngine.jsx:67-83 | Writes the promoted board, clears the pending state and passes the turn; nothing else changes. |
| Engine.ChessEngine.RestartGame | src/components/ChessEngine.jsx:501-520 | Moves the object from s to Game.Restart(s), which is the start-up state. |
| Engine.ChessEngine.ResetFields | src/components/ChessEngine.jsx:502-519 | Resets every field but the checked king's square, which is left unchanged. |

## Left out

- React's state setters and effect scheduling are modelled as direct field updates followed by an explicit status refresh. Each transition that changes the board or the turn applies the refresh; the others do not.
- The JSX rendering is not part of this model: the board, the promotion modal and the checkmate overlay. From them the model keeps only the promotion click gate (line 527) and the handlers the buttons call.
- The logging calls, the unused `addMove` helper and the unused notation import are not part of this model; they have no effect on the state.
- Draw rules (repetition, the fifty-move rule, insufficient material) do not exist in the source.
- ChessBoard.jsx, App.jsx and ChessGame.jsx are not part of this model: they hold rendering and a placeholder.
- Engine.ChessEngine.HandlePromotionChoice: accepts any piece kind. The source's modal only offers queen, rook, bishop and knight, and the model does not restrict its callers to those.
- GameFacts.QueensideCastleEffect: is stated for a king on column 4, the only column from which a legal queenside castle starts. Kingside castling derives column 4 itself.
- Pieces are datatypes instead of two-character strings such as 'wP'. The effect of concatenating a colour with a chosen piece letter is modelled as a `Piece` value.
- Notation.NotationToCoords: lengths and indices count Unicode characters, where JavaScript counts UTF-16 code units. For a name containing a character outside the Basic Multilingual Plane, the model may report the other error kind; it accepts and rejects the same names as the source.
- Thrown errors in the notation converters are `Result` values. Arguments that are not integers or strings do not exist in the model.
- The model is faithful to several quirks of the source, each proved or modelled as written:
  - the en-passant branch of a committed move does not compare the row of the last double push (`Game.ClearsEnPassant`);
  - castling reads the stored check flag rather than the board;
  - the legality trial only relocates the mover;
  - castling and promotion commits keep the en-passant target;
  - rook flags look only at the column;
  - promotion removes the first pawn found on the row behind.
