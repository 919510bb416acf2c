# Chess rules engine

A Dafny model of the chess package of a client/server chess application.
It covers three layers:

- **`ChessBoard`**: a 9x9 array of optional pieces that uses indices 1..8. It supports `addPiece`, `getPiece`, a mechanical `movePiece`, `resetBoard`, `copy` and `equals`.
- **`ChessPiece.pieceMoves`**: pseudo-legal move generation for each kind of piece.
- **`ChessGame`**: the game state machine. It covers:
  - the self-check filter of `validMoves`;
  - castling candidates, which only kings receive;
  - the turn check and the castling rook hop of `makeMove`;
  - the check, checkmate and stalemate queries.

The model is functional:
- A board is an immutable sequence of 81 optional pieces: the 9x9 array, flattened row by row.
- A game is a value `Game(board, whitesTurn, frozen, live)`.
- `makeMove` returns `Moved(game)` or `InvalidMove`.
- A Java exception inside a query is an `Option` that is `None`.

The model follows the code as written, quirks included:

- **No en passant.** Nothing in the game implements it.
- **`movePiece` ignores the promotion field.** A promoting pawn lands as a pawn.
- **The history list holds references, not snapshots.** `makeMove` appends the live board object before mutating it. So the history reads as:
  - the boards that `setBoard` replaced (`frozen`);
  - followed by `live` references to the current board.
- **The castling history scan is modelled faithfully.**
  - For each board it first reads the (home row, 5) square. An empty square throws; that is `Fault`, and then `validMoves` of that king is `None`. Castling is blocked unless the piece there is neither a king nor of the castling colour.
  - Only when that test passes does it read the rook square, with the same two outcomes: it throws if the square is empty, and blocks unless the piece is neither a rook nor of the castling colour.
  - So after any move made since the game was created or its board was last set, castling is never offered to a king standing on its home square (`GameProperties.CastlingAfterMove`). The history then holds a reference to the live board, and on that entry the king fails the test. `setBoard` installs a fresh board that no history entry refers to, so castling can be offered again after it.
- **The castling moves start on column 5 of the home row.** They are added to a king's valid moves wherever that king stands.
- **Queenside castling tests only columns 4 and 3** for emptiness. Neither side tests that a king or rook stands on its home square.
- **Without a king, a side is never in check.** `getKingPosition` then reports (0, 0), and no move of the other side ends there, since the (0, 0) cell of every reachable board is empty.

- **`validMoves` on an empty square throws.** The doc comment of `validMoves` promises null, but the method dereferences the missing piece. The model gives `None`, and `makeMove` turns that into `InvalidMove`.
- **The check scans need different things.** The scan that asks whether white is in check runs the black pieces, which never throw: a black pawn on row 1 probes row 0, which exists (`ChessGame.BlackPawnsCanStep`). The scan for black runs the white pieces, and a white pawn on row 8 would probe row 9.

Modules, one file each:
- `ChessTypes` (chess_types.dfy)
- `ChessBoard` (chess_board.dfy)
- `ChessPiece` (chess_piece.dfy)
- `ChessGame` (chess_game.dfy)
- `PieceProperties` (piece_properties.dfy): the move generator against a reference definition.
- `GameProperties` (game_properties.dfy): the check scan, `validMoves`, castling and the team queries.
- `MoveProperties` (move_properties.dfy): `makeMove`.
- `FoolsMate` (fools_mate.dfy): the four-move checkmate played through `makeMove`.

Source paths below are relative to the repository root.

## Model

| member | source | states |
|---|---|---|
| ChessTypes.Other | shared/src/main/java/chess/ChessGame.java:59-65 | `otherTeam` never returns the colour it was given |
| ChessBoard.AddPiece | shared/src/main/java/chess/ChessBoard.java:27-29 | after `addPiece(p, x)`, `getPiece(p)` is `x` and every other array cell is unchanged |
| ChessBoard.Get | shared/src/main/java/chess/ChessBoard.java:38-40 | `getPiece` reads the cell; what it returns after each update is stated by `ChessBoard.AddPiece` and `ChessBoard.MovePiece`, and on a fresh board by `ChessBoard.ResetBoard` |
| ChessBoard.MovePiece | shared/src/main/java/chess/ChessBoard.java:42-47 | the end square holds the former start occupant unchanged (promotion ignored, a captured piece overwritten), the start square is empty, every other cell is unchanged |
| ChessBoard.ResetBoard | shared/src/main/java/chess/ChessBoard.java:53-86 | every cell of the reset board holds the occupant of the standard starting table |
| ChessBoard.StartingLayout | shared/src/main/java/chess/ChessBoard.java:53-86 | row 2 white pawns, row 7 black pawns, rows 3-6 empty, back ranks R N B Q K B N R by column, index-0 cells empty |
| ChessBoard.StandardKing | shared/src/main/java/chess/ChessBoard.java:78-80 | in the starting table a king of colour c stands on (home row, 5) and nowhere else |
| ChessBoard.StartingKing | shared/src/main/java/chess/ChessBoard.java:53-86 | the reset board has exactly one king per colour, on column 5 of its home row |
| ChessBoard.Copy | shared/src/main/java/chess/ChessBoard.java:88-96 | the copy is well formed, agrees with the original on all 64 squares, and equals it when the original is well formed |
| ChessBoard.Equals | shared/src/main/java/chess/ChessBoard.java:98-105 | `equals` compares the whole arrays; `ChessBoard.EqualsIsSquarewise` states that on well-formed boards this is agreement on every square |
| ChessBoard.EqualsIsSquarewise | shared/src/main/java/chess/ChessBoard.java:98-105 | on well-formed boards `equals` holds exactly when every square has the same occupant |
| ChessPiece.Ray | shared/src/main/java/chess/ChessPiece.java:80-94 | every move of a `moveUtility` walk starts on the piece's square, has no promotion, and ends on the board on a square without a friendly piece |
| ChessPiece.Slide | shared/src/main/java/chess/ChessPiece.java:108-118 | the same for the union of the rays over a list of directions |
| ChessPiece.Leap | shared/src/main/java/chess/ChessPiece.java:68-78 | `kingAndKnightHelperUtil` adds at most the move by its offset, onto an on-board square without a friendly piece |
| ChessPiece.Leaps | shared/src/main/java/chess/ChessPiece.java:119-136 | every king or knight move starts on the piece's square, has no promotion, ends on the board on a square without a friendly piece |
| ChessPiece.Promote | shared/src/main/java/chess/ChessPiece.java:166-178 | a move is in the expanded set exactly when its unpromoted form was generated and it names one of queen, rook, bishop, knight if and only if it ends on the promotion row |
| ChessPiece.PawnCapture | shared/src/main/java/chess/ChessPiece.java:146-157 | a diagonal pawn move ends on an array cell holding an enemy piece |
| ChessPiece.PawnPushes | shared/src/main/java/chess/ChessPiece.java:158-165 | a forward pawn move ends on an empty cell |
| ChessPiece.PawnMoves | shared/src/main/java/chess/ChessPiece.java:137-179 | every pawn move starts on the pawn's square and ends on an array cell without a friendly piece |
| ChessPiece.PieceMoves | shared/src/main/java/chess/ChessPiece.java:103-181 | every generated move starts on the given square, ends on an array index, and never on a friendly piece |
| PieceProperties.FriendOrFoe | shared/src/main/java/chess/ChessPiece.java:52-66 | `canCapture` holds exactly for a piece of the other colour; an occupied cell is friend or capturable, never both; an empty cell is neither |
| ChessPiece.IsSameColor | shared/src/main/java/chess/ChessPiece.java:52-58 | `isSameColor` holds for an occupied cell of the piece's colour; with `canCapture` it splits occupied cells into friend and foe (`PieceProperties.FriendOrFoe`) |
| ChessPiece.CanCapture | shared/src/main/java/chess/ChessPiece.java:60-66 | `canCapture` holds exactly for an occupied cell of the other colour and never for an empty one (`PieceProperties.FriendOrFoe`) |
| PieceProperties.SlidesFirst | shared/src/main/java/chess/ChessPiece.java:83-88 | a walk that reaches anything first passes an on-board, non-friendly square next to the start |
| PieceProperties.SlidesBlocked | shared/src/main/java/chess/ChessPiece.java:86-88 | a ray whose first square is off the board or friendly reaches nothing |
| PieceProperties.SlidesCapture | shared/src/main/java/chess/ChessPiece.java:89-92 | a ray whose first square holds an enemy reaches exactly that square |
| PieceProperties.SlidesOpenBack | shared/src/main/java/chess/ChessPiece.java:83-93 | through an empty first square, whatever the ray reaches from there it reaches from the start |
| PieceProperties.SlidesOpenForth | shared/src/main/java/chess/ChessPiece.java:83-93 | through an empty first square, whatever the ray reaches beyond it is reachable from that square |
| PieceProperties.SlidesOpen | shared/src/main/java/chess/ChessPiece.java:83-93 | through an empty first square, the ray reaches that square and exactly what it reaches from there |
| PieceProperties.RayExact | shared/src/main/java/chess/ChessPiece.java:80-94 | `moveUtility` adds exactly the unpromoted moves to squares whose path is empty and whose end is empty or an enemy (the reference `Slides`) |
| PieceProperties.SlidesToward | shared/src/main/java/chess/ChessPiece.java:80-94 | a ray reaches only squares lying in its own direction |
| PieceProperties.SlideExact | shared/src/main/java/chess/ChessPiece.java:108-118 | the union of rays over a direction list holds exactly the squares reachable in the direction they lie in, when that direction is in the list |
| PieceProperties.DirsByShape | shared/src/main/java/chess/ChessPiece.java:109-115 | the bishop's increments are exactly the diagonal directions and the rook's the straight ones |
| PieceProperties.OffsetTables | shared/src/main/java/chess/ChessPiece.java:120-128 | the king's offsets are exactly the adjacent squares and the knight's exactly the (1,2)/(2,1) jumps |
| PieceProperties.LeapsExact | shared/src/main/java/chess/ChessPiece.java:119-136 | king and knight moves are exactly the unpromoted moves to on-board, non-friendly squares at one of the offsets |
| PieceProperties.PawnMovesExact | shared/src/main/java/chess/ChessPiece.java:137-179 | pawn moves are exactly: one step onto an empty square, two steps from the start row over two empty squares, a diagonal step onto an enemy; each with a promotion kind exactly on the promotion row |
| PieceProperties.PieceMovesExact | shared/src/main/java/chess/ChessPiece.java:103-181 | `pieceMoves` generates a move exactly when the kind-by-kind reference definition `Generates` allows it |
| PieceProperties.QueenIsBishopPlusRook | shared/src/main/java/chess/ChessPiece.java:108-118 | a queen's moves are the union of a bishop's and a rook's moves from the same square |
| PieceProperties.MovesWithinReach | shared/src/main/java/chess/ChessPiece.java:103-181 | every generated move follows its kind's geometric pattern, whatever stands on the board |
| PieceProperties.MovesPromotion | shared/src/main/java/chess/ChessPiece.java:166-178 | only a pawn move onto its promotion row names a promotion kind, and then one of queen, rook, bishop, knight |
| PieceProperties.MovesStayOnBoard | shared/src/main/java/chess/ChessPiece.java:103-181 | from a real square of a well-formed board, and for a pawn not on its own promotion row, every move starts there and ends on the board |
| ChessGame.NewGame | shared/src/main/java/chess/ChessGame.java:21-26 | a new game has the standard layout, white to move and an empty history |
| ChessGame.SetTeamTurn | shared/src/main/java/chess/ChessGame.java:41-43 | after `setTeamTurn(c)`, `getTeamTurn()` is `c`; board and history unchanged |
| ChessGame.GetTeamTurn | shared/src/main/java/chess/ChessGame.java:32-34 | the side to move: white in a new game (`ChessGame.NewGame`), the value set by `setTeamTurn` (`ChessGame.SetTeamTurn`), and the other side after each accepted move (`MoveProperties.MakeMoveTurnAndHistory`) |
| ChessGame.SetBoard | shared/src/main/java/chess/ChessGame.java:285-287 | the game holds a well-formed copy agreeing with the given board on all squares; turn and history (as read) unchanged |
| ChessGame.GetBoard | shared/src/main/java/chess/ChessGame.java:294-296 | the returned board agrees with the game's board on all squares |
| ChessGame.KingSearch | shared/src/main/java/chess/ChessGame.java:162-174 | the search from scan position i returns (0, 0) only when no king of the colour stands at or after i, and otherwise the first such square in row-major order |
| ChessGame.KingPosition | shared/src/main/java/chess/ChessGame.java:162-174 | `getKingPosition` returns (0, 0) or an on-board square holding the colour's king |
| ChessGame.IsInCheckmate | shared/src/main/java/chess/ChessGame.java:258-264 | checkmate is reported exactly when the side is in check and the team's valid-move set is empty |
| ChessGame.IsInStalemate | shared/src/main/java/chess/ChessGame.java:273-278 | stalemate is reported exactly when the side is not in check and the team's valid-move set is empty |
| ChessGame.CastleSideShape | shared/src/main/java/chess/ChessGame.java:184-212 | one side's castling offers at most the unpromoted king move from (home row, 5) to the target column |
| ChessGame.CastleMovesShape | shared/src/main/java/chess/ChessGame.java:175-182 | castling offers at most the two king moves from (home row, 5) to columns 7 and 3 |
| ChessGame.ValidMovesEndInArray | shared/src/main/java/chess/ChessGame.java:74-89 | every move `validMoves` offers ends on an array index |
| ChessGame.BlackPawnsCanStep | shared/src/main/java/chess/ChessPiece.java:138-158 | a black pawn's forward probe always lands in the array, so the check scan of white never throws and white's queries need no precondition |
| ChessGame.AttackScan | shared/src/main/java/chess/ChessGame.java:116-131 | the early-exit loop answers true exactly when some piece of the side at or after the scan position has a move onto the target (`GameProperties.AttackScanExact`) |
| ChessGame.InCheck | shared/src/main/java/chess/ChessGame.java:113-132 | `evaluateBoardForCheck` holds exactly when an enemy piece has a generated move onto the square `getKingPosition` reports (`GameProperties.InCheckExact`); no check without a king (`GameProperties.NoKingNoCheck`) |
| ChessGame.IsInCheck | shared/src/main/java/chess/ChessGame.java:248-250 | `isInCheck` is the check scan on the game's board; checkmate and stalemate split on it (`GameProperties.TerminalStates`) |
| ChessGame.TryMove | shared/src/main/java/chess/ChessGame.java:79-80 | the candidate board is the game's board with the move applied, independent of the game's own board (value semantics); its squares are those of `ChessBoard.Copy` and `ChessBoard.MovePiece` |
| ChessGame.SafeMoves | shared/src/main/java/chess/ChessGame.java:78-84 | the self-check filter keeps exactly the generated moves after which the mover's side is not in check (`MoveProperties.GeneratedIsSafe`, `GameProperties.ValidMovesExact`) |
| ChessGame.ValidMoves | shared/src/main/java/chess/ChessGame.java:74-89 | exactly the safe generated moves plus, for a king, the castling moves (`GameProperties.ValidMovesExact`); an exception exactly in the four cases of `GameProperties.ValidMovesFails` |
| ChessGame.AllValidMovesForTeam | shared/src/main/java/chess/ChessGame.java:91-104 | the union of the valid moves of the team's pieces, covering each and containing nothing else, and an exception exactly when one piece's query throws (`GameProperties.AllValidMovesDefined`, `AllValidMovesCover`, `AllValidMovesSound`) |
| ChessGame.ScanHistory | shared/src/main/java/chess/ChessGame.java:203-207 | the history loop is clear exactly when every board passes the king-square and rook-square tests, and faults only on an empty square (`GameProperties.ScanHistoryExact`) |
| ChessGame.CastleSide | shared/src/main/java/chess/ChessGame.java:184-212 | one side offers its move exactly when its path is empty, the king is safe on both squares and the history is clear (`GameProperties.CastleSideExact`); it offers it under the conditions of `GameProperties.CastleSideByReach`: the colour's only king on (home row, 5), both path squares empty and covered by no enemy piece's pattern, and every history board passing the test |
| ChessGame.AllCastleMoves | shared/src/main/java/chess/ChessGame.java:175-182 | nothing in check (`GameProperties.NoCastlingInCheck`), otherwise both sides' moves (`GameProperties.CastlingExact`), throwing exactly when one side throws (`GameProperties.CastlingDefined`) |
| ChessGame.RookHop | shared/src/main/java/chess/ChessGame.java:145-151 | a two-column king move first brings the corner rook beside the king's target; together with the king move this is `MoveProperties.CastleBoard` |
| ChessGame.MakeMove | shared/src/main/java/chess/ChessGame.java:139-160 | accepted exactly when the start holds a piece of the side to move and the move is valid (`MoveProperties.MakeMoveSucceeds`); an accepted move applies `movePiece` after the rook hop, passes the turn and extends the history; a castling move changes only the king's and rook's four home-row cells (`MoveProperties.MakeMoveApplies`, `MoveProperties.MakeMoveCastles`, `MoveProperties.MakeMoveTurnAndHistory`) |
| GameProperties.KingPositionOfOnlyKing | shared/src/main/java/chess/ChessGame.java:162-174 | with exactly one king of a colour on the board, `getKingPosition` finds that square |
| GameProperties.AttackScanExact | shared/src/main/java/chess/ChessGame.java:116-131 | the early-exit scan from position i answers true exactly when an enemy piece at or after i has a move ending on the target |
| GameProperties.AttackedCovered | shared/src/main/java/chess/ChessGame.java:116-117 | the row-major loops visit every on-board square |
| GameProperties.InCheckExact | shared/src/main/java/chess/ChessGame.java:113-132 | `evaluateBoardForCheck` holds exactly when some enemy piece has a generated move ending on the reported king square |
| GameProperties.MovesAvoidCorner | shared/src/main/java/chess/ChessGame.java:173 | on a board whose (0, 0) cell is empty, as every reachable board's is, no piece on a real square generates a move to that cell |
| GameProperties.NotInCheckByReach | shared/src/main/java/chess/ChessGame.java:113-132 | a side whose only king no enemy pattern covers is not in check |
| GameProperties.InCheckByMove | shared/src/main/java/chess/ChessGame.java:113-132 | a side whose only king is the end of one enemy move is in check |
| GameProperties.NoKingNoCheck | shared/src/main/java/chess/ChessGame.java:162-174 | on a board whose (0, 0) cell is empty, as every reachable board's is, without a king the search reports (0, 0) and the side is never in check |
| GameProperties.ValidMovesExact | shared/src/main/java/chess/ChessGame.java:74-89 | a move is valid exactly when the reference definition generates it and the mover is not in check on the copied, moved board, or the piece is a king and the move is one of its castling moves |
| GameProperties.ValidMovesFails | shared/src/main/java/chess/ChessGame.java:74-89 | `validMoves` throws exactly on an index outside the array, an empty square, a pawn whose forward probe leaves the array, or a king whose castling scan faults |
| GameProperties.CastleSideExact | shared/src/main/java/chess/ChessGame.java:184-212 | one side offers its castling move exactly when both squares are empty, the king is safe on each, and the history scan is clear |
| GameProperties.CastlingExact | shared/src/main/java/chess/ChessGame.java:175-240 | a castling move is offered exactly when the side is not in check and that side's conditions hold (columns 6, 7 kingside; only 4, 3 queenside) |
| GameProperties.CastleSideOccupied | shared/src/main/java/chess/ChessGame.java:188-190 | an occupied square on the king's path makes that side offer nothing, before the history is read |
| GameProperties.CastlingDefined | shared/src/main/java/chess/ChessGame.java:175-182 | `allCastleMoves` throws exactly when the side is not in check and the test of one side throws |
| GameProperties.NoCastlingInCheck | shared/src/main/java/chess/ChessGame.java:177 | a side in check is offered no castling move |
| GameProperties.CastlingWithoutHistory | shared/src/main/java/chess/ChessGame.java:203-207 | with an empty history both scans are clear and castling never throws |
| GameProperties.ScanHistoryExact | shared/src/main/java/chess/ChessGame.java:203-207 | the scan is clear exactly when every board's (row, 5) and rook-square occupants are present, not of the castling colour and not a king or rook respectively; a fault needs an empty one of those squares |
| GameProperties.CastlingAfterMove | shared/src/main/java/chess/ChessGame.java:143 | once a move has been made since the game was created or its board was last set, a king of colour c on (home row, 5) is never offered castling, because the history holds the live board |
| GameProperties.CastleStepFrame | shared/src/main/java/chess/ChessGame.java:192-197 | the two boards of the king's walk differ from the game's board only in the king having moved to `via`, then to `to` |
| GameProperties.SafeAfterStep | shared/src/main/java/chess/ChessGame.java:194-200 | a king that has stepped to a square no enemy pattern covers is not in check there |
| GameProperties.CastleSideByReach | shared/src/main/java/chess/ChessGame.java:184-212 | with the only king on (home row, 5), the path empty and uncovered by any enemy pattern, and every history board passing the test, that side offers its castling move |
| GameProperties.TerminalStates | shared/src/main/java/chess/ChessGame.java:248-278 | checkmate implies check, stalemate implies no check, never both, and each means an empty team move set |
| GameProperties.GatherDefined | shared/src/main/java/chess/ChessGame.java:91-104 | collecting the squares' moves fails exactly when one square's `validMoves` throws |
| GameProperties.GatherCovers | shared/src/main/java/chess/ChessGame.java:91-104 | when it succeeds it holds every square's moves |
| GameProperties.GatherSound | shared/src/main/java/chess/ChessGame.java:91-104 | and every move it holds comes from some square |
| GameProperties.TeamEntry | shared/src/main/java/chess/ChessGame.java:95-99 | a square contributes the `validMoves` of a piece of the team and nothing otherwise |
| GameProperties.AllValidMovesDefined | shared/src/main/java/chess/ChessGame.java:91-104 | `allValidMovesForTeam` throws exactly when one of the team's pieces' `validMoves` does |
| GameProperties.AllValidMovesCover | shared/src/main/java/chess/ChessGame.java:91-104 | every valid move of every piece of the team is among the team's moves |
| GameProperties.AllValidMovesSound | shared/src/main/java/chess/ChessGame.java:91-104 | every move of the team is a valid move of one of its pieces |
| GameProperties.SetThenGetBoard | shared/src/main/java/chess/ChessGame.java:285-296 | `getBoard` after `setBoard(b)` returns `b` for a well-formed `b` |
| MoveProperties.MakeMoveSucceeds | shared/src/main/java/chess/ChessGame.java:139-142 | `makeMove` succeeds exactly when the start holds a piece of the side to move and the move is among that square's valid moves |
| MoveProperties.MakeMoveTurnAndHistory | shared/src/main/java/chess/ChessGame.java:143-153 | after a successful move the turn passes to the other side and the history holds one more reference to the live board |
| MoveProperties.GeneratedIsSafe | shared/src/main/java/chess/ChessGame.java:78-84 | a generated move after which the mover is not in check passes the self-check filter |
| MoveProperties.ValidMovesOfNonKing | shared/src/main/java/chess/ChessGame.java:74-89 | for a piece other than a king, `validMoves` is the self-check filter alone |
| MoveProperties.MakeMoveOrdinary | shared/src/main/java/chess/ChessGame.java:139-153 | a safe generated move of a non-king piece of the side to move is accepted and yields `movePiece` applied, the turn flipped and one more history entry |
| MoveProperties.MakeMoveApplies | shared/src/main/java/chess/ChessGame.java:139-153 | an accepted non-king move applies `movePiece`, flips the turn and adds one history reference |
| MoveProperties.MakeMovePlain | shared/src/main/java/chess/ChessGame.java:145-152 | a successful move other than a two-column king move is `movePiece`: the piece lands unpromoted and nothing else changes |
| MoveProperties.SafeMovesShape | shared/src/main/java/chess/ChessGame.java:78-84 | a move surviving the self-check filter starts on the piece's square, names a promotion only for a pawn reaching its promotion row, and moves a king at most one column |
| MoveProperties.ValidMovesSplit | shared/src/main/java/chess/ChessGame.java:74-89 | a piece's valid moves are its safe moves plus, for a king, the castling moves |
| MoveProperties.ValidMovesShape | shared/src/main/java/chess/ChessGame.java:74-89 | a valid move starts on the piece's square (except the castling moves, which start on (home row, 5)), names a promotion only for a pawn reaching its promotion row, and a two-column king move is a castling move |
| MoveProperties.CastleBoard | shared/src/main/java/chess/ChessGame.java:146-152 | the rook hop followed by the king move puts king and rook on their castled squares, empties column 5 and the rook's corner, and leaves every other cell, including the rest of the home row, unchanged |
| MoveProperties.MakeMoveCastles | shared/src/main/java/chess/ChessGame.java:144-152 | a successful two-column king move is a castling move; afterwards the king stands on column 7 (3), the rook from column 8 (1) on column 6 (4), columns 5 and 8 (1) are empty, and no other cell changes, so (home row, 2) keeps its occupant after queenside castling |
| MoveProperties.MakeMoveRejectsWrongPiece | shared/src/main/java/chess/ChessGame.java:139-158 | a move from an empty or out-of-range square, or of the side not to move, is refused |
| MoveProperties.MakeMoveRejectsBadPromotion | shared/src/test/java/passoff/chess/game/MorePromotionTests.java:99-143 | a promotion to king or pawn, or a promotion piece on any move but a pawn's move onto its promotion row, is refused |
| FoolsMate.Played | shared/src/test/java/passoff/chess/game/LongGameTests.java:22-38 | each of f2-f3, e7-e5, g2-g4, Qd8-h4 is accepted by `makeMove` in the game after the moves before it, giving the game after it |
| FoolsMate.LineAccepted | shared/src/test/java/passoff/chess/game/LongGameTests.java:16-38 | every move of the line is accepted |
| FoolsMate.WhiteLost | shared/src/test/java/passoff/chess/game/LongGameTests.java:43-45 | after the line white is in check and checkmated, not stalemated |
| FoolsMate.BlackFine | shared/src/test/java/passoff/chess/game/LongGameTests.java:48-50 | after the line black is in neither check, checkmate nor stalemate |
| FoolsMate.FinalPosition | shared/src/test/java/passoff/chess/game/LongGameTests.java:42-50 | the six terminal facts of the final position |
| FoolsMate.FoolsMateLine | shared/src/test/java/passoff/chess/game/LongGameTests.java:16-50 | from a new game the four moves are accepted in turn, and afterwards white is in check and checkmate, not stalemate, and black is in none of the three |

## Left out

- En passant: the code has none, so the model has none.
- Applying the promotion piece: `movePiece` never replaces the pawn, so the model does not either.
- `toString` and `hashCode` of the board, piece and game: text and hash formatting only.
- `ChessPiece.equals`: pieces are a datatype, and the method is datatype equality, so it needs no member of its own.
- `ChessGame.equals`: not part of the game logic modelled here.
- Independence of `copy`, `getBoard` and `setBoard` from later mutation: boards are immutable values in the model, so aliasing cannot arise. `ChessBoard.Copy`, `ChessGame.GetBoard` and `ChessGame.SetBoard` state only the square-wise agreement.
- `makeMove` leaving board and turn unchanged on `InvalidMoveException`: `ChessGame.MakeMove` returns `InvalidMove` without a new state, so the caller's state is untouched by construction. The exception message is not modelled.
- The knight's extra check that the target's row and column are positive, and the `try` blocks around king and knight leaps: the helper checks 1..8 before any array access, so they change nothing, and `ChessPiece.Leap` has no counterpart for them.
- ChessGame.InCheck, and every query of colour c built on it, requires `PawnsCanStep(board, Other(c))`. These are `IsInCheck`, `AllCastleMoves`, the team queries, `ValidMoves` of a piece of colour c and `MakeMove` with c to move. For white's queries this always holds (`ChessGame.BlackPawnsCanStep`). For black's queries it excludes a white pawn on row 8. Such a board arises after a white promotion, which leaves the pawn in place, or through `setBoard`. On it the source's scan throws only if it reaches that pawn before it finds an attacker, and the model gives those queries no result.
- MakeMove (`ChessGame.MakeMove`): requires `PawnsCanStep(board, Other(c))` for the side c to move, for the reason given in the line above. With black to move and a white pawn on row 8 the model says nothing about the outcome, where the source either throws from its check scan or proceeds as usual. Its castling result is stated cell by cell (`MoveProperties.MakeMoveCastles`).
- Client, server, persistence, WebSocket messages and the services: I/O and plumbing outside the rules engine.
