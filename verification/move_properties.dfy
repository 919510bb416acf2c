/** Properties of `makeMove`: when it accepts a move, what the accepted
    move does to the board, the turn and the history, and which moves it
    refuses. */
module MoveProperties {
  import opened ChessTypes
  import opened ChessBoard
  import opened ChessPiece
  import opened PieceProperties
  import opened ChessGame
  import opened GameProperties

  /** `makeMove` succeeds exactly when the start holds a piece of the side
      to move and the move is among that square's valid moves. */
  lemma MakeMoveSucceeds(g: Game, m: Move)
    requires PawnsCanStep(g.board, Other(GetTeamTurn(g)))
    ensures MakeMove(g, m).Moved? <==>
      InArray(m.start) && Owned(g.board, m.start, GetTeamTurn(g))
      && ValidMoves(g, m.start).Some? && m in ValidMoves(g, m.start).value
  {
  }

  /** After a successful move the turn has passed to the other side, and the
      history holds one more reference to the (now updated) live board. */
  lemma MakeMoveTurnAndHistory(g: Game, m: Move)
    requires PawnsCanStep(g.board, Other(GetTeamTurn(g))) && MakeMove(g, m).Moved?
    ensures GetTeamTurn(MakeMove(g, m).game) == Other(GetTeamTurn(g))
    ensures History(MakeMove(g, m).game) == g.frozen + seq(g.live + 1, _ => MakeMove(g, m).game.board)
  {
    var r := MakeMove(g, m).game;
    assert r.frozen == g.frozen && r.live == g.live + 1;
  }

  /** A generated move after which the mover's side is not in check
      passes the self-check filter. */
  lemma GeneratedIsSafe(b: Board, pc: Piece, from: Pos, m: Move)
    requires InArray(from) && Get(b, from) == Some(pc) && CanGenerate(pc, from)
    requires PawnsCanStep(b, Other(pc.color)) && InArray(m.end)
    requires Generates(b, pc, from, m)
    requires PawnsCanStep(TryMove(b, m), Other(pc.color)) && !InCheck(TryMove(b, m), pc.color)
    ensures m in SafeMoves(b, pc, from)
  {
    PieceMovesExact(b, pc, from, m);
  }

  /** For a piece other than the king, `validMoves` is the self-check filter alone. */
  lemma ValidMovesOfNonKing(g: Game, from: Pos)
    requires ScanSafeAt(g.board, from) && InArray(from) && Get(g.board, from).Some?
    requires Get(g.board, from).value.kind != King && CanGenerate(Get(g.board, from).value, from)
    ensures ValidMoves(g, from) == Some(SafeMoves(g.board, Get(g.board, from).value, from))
  {
  }

  /** A move of a piece other than the king, of the side to move, that the
      piece generates and after which its side is not in check, is accepted
      and simply applied with `movePiece`. */
  lemma MakeMoveOrdinary(g: Game, m: Move)
    requires PawnsCanStep(g.board, Other(GetTeamTurn(g))) && InArray(m.start) && InArray(m.end)
    requires Owned(g.board, m.start, GetTeamTurn(g))
    requires var pc := Get(g.board, m.start).value;
      pc.kind != King && CanGenerate(pc, m.start) && Generates(g.board, pc, m.start, m)
    requires PawnsCanStep(TryMove(g.board, m), Other(GetTeamTurn(g)))
    requires !InCheck(TryMove(g.board, m), GetTeamTurn(g))
    ensures MakeMove(g, m) == Moved(Game(MovePiece(g.board, m), !g.whitesTurn, g.frozen, g.live + 1))
  {
    GeneratedIsSafe(g.board, Get(g.board, m.start).value, m.start, m);
    ValidMovesOfNonKing(g, m.start);
    MakeMoveApplies(g, m);
  }

  /** An accepted move of a piece other than the king applies `movePiece`,
      passes the turn and records one more reference to the live board. */
  lemma MakeMoveApplies(g: Game, m: Move)
    requires PawnsCanStep(g.board, Other(GetTeamTurn(g))) && InArray(m.start) && InArray(m.end)
    requires Owned(g.board, m.start, GetTeamTurn(g)) && Get(g.board, m.start).value.kind != King
    requires ValidMoves(g, m.start).Some? && m in ValidMoves(g, m.start).value
    ensures MakeMove(g, m).Moved?
    ensures MakeMove(g, m).game.board == MovePiece(g.board, m)
    ensures MakeMove(g, m).game.whitesTurn == !g.whitesTurn
    ensures MakeMove(g, m).game.frozen == g.frozen && MakeMove(g, m).game.live == g.live + 1
  {
  }

  /** A successful move that is not a king moving two columns is exactly
      `movePiece`: the piece lands unchanged (no promotion is applied), the
      start is emptied, and nothing else changes. */
  lemma MakeMovePlain(g: Game, m: Move)
    requires PawnsCanStep(g.board, Other(GetTeamTurn(g))) && MakeMove(g, m).Moved?
    requires !(Get(g.board, m.start).value.kind == King && Abs(m.start.col - m.end.col) == 2)
    ensures InArray(m.end) && MakeMove(g, m).game.board == MovePiece(g.board, m)
    ensures m.start != m.end ==> Get(MakeMove(g, m).game.board, m.end) == Get(g.board, m.start)
  {
    ValidMovesEndInArray(g, m.start, m);
  }

  /** The promotion and king-step facts of `MovesPromotion` and
      `MovesWithinReach`, for a move that survives the self-check filter. */
  lemma SafeMovesShape(b: Board, pc: Piece, from: Pos, m: Move)
    requires InArray(from) && Get(b, from) == Some(pc) && CanGenerate(pc, from)
    requires PawnsCanStep(b, Other(pc.color)) && m in SafeMoves(b, pc, from)
    ensures m.start == from
    ensures m.promotion.Some? ==>
      pc.kind == Pawn && m.end.row == PromotionRow(pc.color) && m.promotion.value in PromotionKinds
    ensures pc.kind == King ==> Abs(m.start.col - m.end.col) <= 1
  {
    assert m in PieceMoves(b, pc, from);
    MovesPromotion(b, pc, from, m);
    MovesWithinReach(b, pc, from, m);
  }

  /** A piece's valid moves are its safe moves, together with the castling
      moves when it is a king. */
  lemma ValidMovesSplit(g: Game, from: Pos)
    requires ScanSafeAt(g.board, from) && ValidMoves(g, from).Some?
    ensures var pc := Get(g.board, from).value;
      CanGenerate(pc, from)
      && ValidMoves(g, from).value == SafeMoves(g.board, pc, from)
           + (if pc.kind == King then AllCastleMoves(g, pc.color).value else {})
  {
  }

  /** What a valid move can look like: it names a promotion kind only for a
      pawn reaching its promotion row, and moves a king two columns only as
      one of the two castling moves. It starts on the piece's square, except
      that a king is offered the castling moves (from column 5 of its home
      row) wherever it stands. */
  lemma ValidMovesShape(g: Game, from: Pos, m: Move)
    requires ScanSafeAt(g.board, from) && ValidMoves(g, from).Some? && m in ValidMoves(g, from).value
    ensures var pc := Get(g.board, from).value;
      (m.start == from || (pc.kind == King && (m == KingsideCastle(pc.color) || m == QueensideCastle(pc.color))))
      && (m.promotion.Some? ==>
            pc.kind == Pawn && m.end.row == PromotionRow(pc.color) && m.promotion.value in PromotionKinds)
      && (pc.kind == King && Abs(m.start.col - m.end.col) == 2 ==>
            m == KingsideCastle(pc.color) || m == QueensideCastle(pc.color))
  {
    var pc := Get(g.board, from).value;
    ValidMovesSplit(g, from);
    if m in SafeMoves(g.board, pc, from) {
      SafeMovesShape(g.board, pc, from, m);
    } else {
      CastleMovesShape(g, pc.color, m);
    }
  }

  /** The two `movePiece` calls of a castling move: afterwards the king
      stands on column `to`, the rook from `rookCol` on `rookTo`, columns 5
      and `rookCol` are empty, and every other cell of the array, including
      the rest of the home row, is untouched. */
  lemma CastleBoard(b: Board, row: int, to: int, rookCol: int, rookTo: int)
    requires 1 <= row <= 8 && to in {3, 7} && rookCol in {1, 8} && rookTo in {4, 6}
    requires to != rookTo && to != rookCol && rookTo != rookCol
    ensures var r := MovePiece(MovePiece(b, Move(Pos(row, rookCol), Pos(row, rookTo), None)),
                               Move(Pos(row, 5), Pos(row, to), None));
      Get(r, Pos(row, to)) == Get(b, Pos(row, 5)) && Get(r, Pos(row, rookTo)) == Get(b, Pos(row, rookCol))
      && Get(r, Pos(row, 5)) == None && Get(r, Pos(row, rookCol)) == None
      && forall q :: InArray(q) && q !in {Pos(row, 5), Pos(row, to), Pos(row, rookCol), Pos(row, rookTo)} ==>
           Get(r, q) == Get(b, q)
  {
  }

  /** A king moving two columns is a castling move, and afterwards the king
      stands on column 7 (or 3) of its home row, the rook that was on column
      8 (or 1) on column 6 (or 4), columns 5 and 8 (or 1) are empty, and no
      other cell changes. */
  lemma MakeMoveCastles(g: Game, m: Move)
    requires PawnsCanStep(g.board, Other(GetTeamTurn(g))) && MakeMove(g, m).Moved?
    requires Get(g.board, m.start).value.kind == King && Abs(m.start.col - m.end.col) == 2
    ensures var c := GetTeamTurn(g); var row := HomeRow(c); var r := MakeMove(g, m).game.board;
      (m == KingsideCastle(c)
       && Get(r, Pos(row, 7)) == Some(Piece(c, King)) && Get(r, Pos(row, 6)) == Get(g.board, Pos(row, 8))
       && Get(r, Pos(row, 5)) == None && Get(r, Pos(row, 8)) == None
       && forall q :: InArray(q) && q !in {Pos(row, 5), Pos(row, 6), Pos(row, 7), Pos(row, 8)} ==>
            Get(r, q) == Get(g.board, q))
      || (m == QueensideCastle(c)
       && Get(r, Pos(row, 3)) == Some(Piece(c, King)) && Get(r, Pos(row, 4)) == Get(g.board, Pos(row, 1))
       && Get(r, Pos(row, 5)) == None && Get(r, Pos(row, 1)) == None
       && forall q :: InArray(q) && q !in {Pos(row, 1), Pos(row, 3), Pos(row, 4), Pos(row, 5)} ==>
            Get(r, q) == Get(g.board, q))
  {
    var pc := Get(g.board, m.start).value;
    ValidMovesShape(g, m.start, m);
    var row := HomeRow(pc.color);
    if m == KingsideCastle(pc.color) {
      CastleBoard(g.board, row, 7, 8, 6);
    } else {
      CastleBoard(g.board, row, 3, 1, 4);
    }
  }

  /** `makeMove` refuses a move from an empty square or from a square
      outside the array, and a move of the side not to move. */
  lemma MakeMoveRejectsWrongPiece(g: Game, m: Move)
    requires PawnsCanStep(g.board, Other(GetTeamTurn(g)))
    requires !InArray(m.start) || Get(g.board, m.start) == None
             || Get(g.board, m.start).value.color != GetTeamTurn(g)
    ensures MakeMove(g, m) == InvalidMove
  {
  }

  /** `makeMove` refuses a promotion piece on any move but a pawn's move
      onto its promotion row, and there refuses a king or pawn. */
  lemma MakeMoveRejectsBadPromotion(g: Game, m: Move)
    requires PawnsCanStep(g.board, Other(GetTeamTurn(g))) && InArray(m.start) && Get(g.board, m.start).Some?
    requires m.promotion.Some?
    requires var pc := Get(g.board, m.start).value;
      pc.kind != Pawn || m.end.row != PromotionRow(pc.color)
      || m.promotion.value == King || m.promotion.value == Pawn
    ensures MakeMove(g, m) == InvalidMove
  {
    assert King !in PromotionKinds && Pawn !in PromotionKinds;
    if Get(g.board, m.start).value.color == GetTeamTurn(g) {
      assert ScanSafeAt(g.board, m.start);
      var vs := ValidMoves(g, m.start);
      if vs.Some? && m in vs.value {
        ValidMovesShape(g, m.start, m);
      }
    }
  }
}
