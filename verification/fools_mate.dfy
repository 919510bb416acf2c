/** The shortest checkmate, played from a new game through `makeMove`:
    1. f2-f3 e7-e5 2. g2-g4 Qd8-h4. Every move is accepted, and afterwards
    white is in check and checkmated while black is in neither check,
    checkmate nor stalemate. */
module FoolsMate {
  import opened ChessTypes
  import opened ChessBoard
  import opened ChessPiece
  import opened PieceProperties
  import opened ChessGame
  import opened GameProperties
  import opened MoveProperties

  /** The four moves, as (row, column) pairs. */
  const Line: seq<Move> := [
    Move(Pos(2, 6), Pos(3, 6), None),
    Move(Pos(7, 5), Pos(5, 5), None),
    Move(Pos(2, 7), Pos(4, 7), None),
    Move(Pos(8, 4), Pos(4, 8), None)
  ]

  /** The board after the first `n` moves, applied with `movePiece`. */
  function BoardAfter(n: nat): Board
    requires n <= 4
  {
    if n == 0 then ResetBoard() else MovePiece(BoardAfter(n - 1), Line[n - 1])
  }

  /** The game after the first `n` moves, with the side of `Line[n]` to
      play: nothing was loaded with `setBoard`, so every history entry
      refers to the live board. */
  function GameAfter(n: nat): Game
    requires n <= 4
  {
    Game(BoardAfter(n), Mover(n) == White, [], n)
  }

  /** The occupant of each cell after the first `n` moves. */
  function Layout(n: nat, p: Pos): Option<Piece>
    requires InArray(p)
  {
    if n >= 4 && p == Pos(8, 4) then None
    else if n >= 4 && p == Pos(4, 8) then Some(Piece(Black, Queen))
    else if n >= 3 && p == Pos(2, 7) then None
    else if n >= 3 && p == Pos(4, 7) then Some(Piece(White, Pawn))
    else if n >= 2 && p == Pos(7, 5) then None
    else if n >= 2 && p == Pos(5, 5) then Some(Piece(Black, Pawn))
    else if n >= 1 && p == Pos(2, 6) then None
    else if n >= 1 && p == Pos(3, 6) then Some(Piece(White, Pawn))
    else StandardSquare(p)
  }

  /** `Line[k]` turns a board laid out as after `k` moves into one laid
      out as after `k + 1`. */
  lemma LayoutStep(b: Board, k: nat)
    requires k < 4
    requires forall p :: InArray(p) ==> Get(b, p) == Layout(k, p)
    ensures forall p :: InArray(p) ==> Get(MovePiece(b, Line[k]), p) == Layout(k + 1, p)
  {
    var m := Line[k];
    forall p | InArray(p)
      ensures Get(MovePiece(b, m), p) == Layout(k + 1, p)
    {
      if p == m.end {
        assert Get(b, m.start) == Layout(k, m.start);
      } else if p != m.start {
        assert Get(b, p) == Layout(k, p);
      }
    }
  }

  /** The boards of the line are read off `Layout`. */
  lemma {:induction false} LayoutOf(n: nat)
    requires n <= 4
    ensures forall p :: InArray(p) ==> Get(BoardAfter(n), p) == Layout(n, p)
  {
    if n > 0 {
      LayoutOf(n - 1);
      LayoutStep(BoardAfter(n - 1), n - 1);
    }
  }

  /** On every layout of the line the only king of colour `c` stands on
      column 5 of its home row. */
  lemma LayoutKing(n: nat, c: Color)
    requires n <= 4
    ensures forall p :: InArray(p) ==> (Layout(n, p) == Some(Piece(c, King)) <==> p == Pos(HomeRow(c), 5))
  {
    forall p | InArray(p)
      ensures Layout(n, p) == Some(Piece(c, King)) <==> p == Pos(HomeRow(c), 5)
    {
      StandardKing(c, p);
    }
  }

  /** On every layout of the line the index-0 cells are empty and no white
      pawn stands on row 8. */
  lemma LayoutSane(n: nat)
    requires n <= 4
    ensures forall p :: InArray(p) && !OnBoard(p) ==> Layout(n, p) == None
    ensures forall p :: InArray(p) && Layout(n, p) == Some(Piece(White, Pawn)) ==> p.row < 8
  {
  }

  /** Every board of the line is well formed, and no white pawn stands on row 8. */
  lemma LineSane(n: nat)
    requires n <= 4
    ensures WellFormed(BoardAfter(n)) && Sane(BoardAfter(n))
  {
    LayoutOf(n);
    LayoutSane(n);
  }

  /** Each side's king stays on column 5 of its home row. */
  lemma KingsHome(n: nat, c: Color)
    requires n <= 4
    ensures Get(BoardAfter(n), Pos(HomeRow(c), 5)) == Some(Piece(c, King))
    ensures forall p :: OnBoard(p) && p != Pos(HomeRow(c), 5) ==> Get(BoardAfter(n), p) != Some(Piece(c, King))
  {
    LayoutOf(n);
    LayoutKing(n, c);
  }
  /** Until the queen comes out, no black piece's pattern covers the white
      king's square, whatever stands in between. */
  lemma BlackFarFromWhiteKing(n: nat)
    requires n <= 3
    ensures forall p :: OnBoard(p) && Layout(n, p).Some? && Layout(n, p).value.color == Black ==>
      !Reaches(Layout(n, p).value, p, Pos(1, 5))
  {
  }

  /** No white piece's pattern ever covers the black king's square. */
  lemma WhiteFarFromBlackKing(n: nat)
    requires n <= 4
    ensures forall p :: OnBoard(p) && Layout(n, p).Some? && Layout(n, p).value.color == White ==>
      !Reaches(Layout(n, p).value, p, Pos(8, 5))
  {
  }
  /** The side that plays `Line[k]`: white opens. */
  function Mover(k: nat): Color {
    if k % 2 == 0 then White else Black
  }

  /** The sides alternate. */
  lemma MoverAlternates(k: nat)
    ensures Mover(k + 1) == Other(Mover(k))
  {
  }

  /** The board `b` is laid out as after the first `n` moves. */
  ghost predicate Laid(b: Board, n: nat) {
    forall p :: InArray(p) ==> Get(b, p) == Layout(n, p)
  }

  /** The first three moves are pawn pushes the pawn generates: f2-f3 and
      g2-g4 for white, e7-e5 for black. */
  lemma PushGenerated(b: Board, k: nat)
    requires k < 3 && Laid(b, k)
    ensures var m := Line[k];
      Get(b, m.start) == Some(Piece(Mover(k), Pawn)) && CanGenerate(Piece(Mover(k), Pawn), m.start)
      && Generates(b, Piece(Mover(k), Pawn), m.start, m)
  {
    var m := Line[k];
    assert Get(b, m.start) == Layout(k, m.start);
    assert Get(b, Pos(m.start.row + Forward(Mover(k)), m.start.col)) == None;
    if k != 0 {
      assert Get(b, m.end) == None;
    }
  }

  /** The queen's diagonal run d8-h4 passes e7, f6 and g5, all empty after e7-e5. */
  lemma QueenRunGenerated(b: Board)
    requires Laid(b, 3)
    ensures var m := Line[3];
      Get(b, m.start) == Some(Piece(Black, Queen)) && Generates(b, Piece(Black, Queen), m.start, m)
  {
    var m := Line[3];
    assert Get(b, Pos(8, 4)) == Layout(3, Pos(8, 4));
    assert Get(b, Pos(4, 8)) == None;
    forall j | 1 <= j < 4
      ensures OnBoard(Step(m.start, Dir(-1, 1), j)) && Get(b, Step(m.start, Dir(-1, 1), j)) == None
    {
      assert Get(b, Step(m.start, Dir(-1, 1), j)) == Layout(3, Step(m.start, Dir(-1, 1), j));
    }
  }
  /** On a board laid out as after `n` moves, the king of side `c` is not
      in check, provided white has not yet been hit by the queen. */
  lemma KingSafe(b: Board, n: nat, c: Color)
    requires 1 <= n <= 4 && Laid(b, n) && (c == White ==> n <= 3)
    ensures PawnsCanStep(b, Other(c)) && !InCheck(b, c)
  {
    LayoutKing(n, c);
    LayoutSane(n);
    if c == White {
      BlackFarFromWhiteKing(n);
    } else {
      WhiteFarFromBlackKing(n);
    }
    NotInCheckByReach(b, c, Pos(HomeRow(c), 5));
  }

  /** A board laid out as after `n` moves has no white pawn on row 8. */
  lemma LaidSane(b: Board, n: nat)
    requires n <= 4 && Laid(b, n)
    ensures Sane(b)
  {
    LayoutSane(n);
  }

  /** On a board laid out as after `k` moves, `Line[k]` moves a piece of
      the side to play, other than its king, that generates it. */
  lemma StepGenerated(b: Board, k: nat)
    requires k < 4 && Laid(b, k)
    ensures var m := Line[k];
      Sane(b) && InArray(m.start) && InArray(m.end) && Owned(b, m.start, Mover(k))
      && Get(b, m.start).value.kind != King && CanGenerate(Get(b, m.start).value, m.start)
      && Generates(b, Get(b, m.start).value, m.start, m)
  {
    LaidSane(b, k);
    if k < 3 {
      PushGenerated(b, k);
    } else {
      QueenRunGenerated(b);
    }
  }

  /** On a well-formed board laid out as after `k` moves, `Line[k]` leaves
      the side that plays it out of check. */
  lemma StepSafe(b: Board, k: nat)
    requires k < 4 && WellFormed(b) && Laid(b, k)
    ensures var m := Line[k];
      InArray(m.start) && InArray(m.end)
      && PawnsCanStep(TryMove(b, m), Other(Mover(k))) && !InCheck(TryMove(b, m), Mover(k))
  {
    var m := Line[k];
    assert InArray(m.start) && InArray(m.end);
    LayoutStep(b, k);
    MoverSafe(MovePiece(b, m), k);
    assert TryMove(b, m) == MovePiece(b, m);
  }

  /** After `Line[k]`, the side that played it is not in check. */
  lemma MoverSafe(b: Board, k: nat)
    requires k < 4 && Laid(b, k + 1)
    ensures PawnsCanStep(b, Other(Mover(k))) && !InCheck(b, Mover(k))
  {
    assert Mover(3) == Black;
    KingSafe(b, k + 1, Mover(k));
  }

  /** `Line[k]`, played on the board after the first `k` moves, moves a
      non-king piece of the side to play that generates it... */
  lemma LineGenerated(k: nat)
    requires k < 4
    ensures var b := BoardAfter(k); var m := Line[k];
      Sane(b) && InArray(m.start) && InArray(m.end) && Owned(b, m.start, Mover(k))
      && Get(b, m.start).value.kind != King && CanGenerate(Get(b, m.start).value, m.start)
      && Generates(b, Get(b, m.start).value, m.start, m)
  {
    LineLaid(k);
    StepGenerated(BoardAfter(k), k);
  }

  /** ... and leaves that side out of check. */
  lemma LineSafe(k: nat)
    requires k < 4
    ensures var b := BoardAfter(k); var m := Line[k];
      InArray(m.start) && InArray(m.end)
      && PawnsCanStep(TryMove(b, m), Other(Mover(k))) && !InCheck(TryMove(b, m), Mover(k))
  {
    LineLaid(k);
    StepSafe(BoardAfter(k), k);
  }

  /** `makeMove` applies `Line[k]` to the game after `k` moves with `movePiece`. */
  lemma PlayedOn(k: nat)
    requires k < 4
    ensures Sane(BoardAfter(k))
    ensures MakeMove(GameAfter(k), Line[k])
         == Moved(Game(MovePiece(BoardAfter(k), Line[k]), !GameAfter(k).whitesTurn, [], k + 1))
  {
    var g := GameAfter(k);
    assert g.board == BoardAfter(k) && GetTeamTurn(g) == Mover(k);
    LineGenerated(k);
    LineSafe(k);
    MakeMoveOrdinary(g, Line[k]);
  }

  /** That result is the game after `k + 1` moves. */
  lemma NextGame(k: nat)
    requires k < 4
    ensures InArray(Line[k].start) && InArray(Line[k].end)
    ensures GameAfter(k + 1) == Game(MovePiece(BoardAfter(k), Line[k]), !GameAfter(k).whitesTurn, [], k + 1)
  {
    MoverAlternates(k);
  }

  /** Each move of the line is accepted by `makeMove` and produces the next
      game of the line. */
  lemma Played(k: nat)
    requires k < 4
    ensures Sane(BoardAfter(k))
    ensures MakeMove(GameAfter(k), Line[k]) == Moved(GameAfter(k + 1))
  {
    PlayedOn(k);
    NextGame(k);
  }

  /** The mating diagonal: h4, g3, f2, e1. */
  function Diag(s: int): Pos {
    Pos(4 - s, 8 - s)
  }

  /** After the line, the black queen stands on h4, g3 and f2 are empty,
      and white's only king is on e1. */
  lemma QueenLine(b: Board)
    requires Laid(b, 4)
    ensures Sane(b)
    ensures Get(b, Diag(0)) == Some(Piece(Black, Queen))
    ensures Get(b, Diag(1)) == None && Get(b, Diag(2)) == None
    ensures Get(b, Diag(3)) == Some(Piece(White, King))
    ensures forall q :: OnBoard(q) && q != Diag(3) ==> Get(b, q) != Some(Piece(White, King))
  {
    LaidSane(b, 4);
    LayoutKing(4, White);
  }

  /** The black queen on h4 can run down an open diagonal onto the white
      king `s` steps away. */
  lemma QueenRuns(b: Board, s: int)
    requires 1 <= s <= 3
    requires Get(b, Diag(0)) == Some(Piece(Black, Queen))
    requires forall j :: 1 <= j < s ==> Get(b, Diag(j)) == None
    requires Get(b, Diag(s)) == Some(Piece(White, King))
    ensures Move(Diag(0), Diag(s), None) in PieceMoves(b, Piece(Black, Queen), Diag(0))
  {
    var m := Move(Diag(0), Diag(s), None);
    assert Toward(Diag(0), Diag(s)) == Dir(-1, -1);
    assert StepsTo(Diag(0), Dir(-1, -1), Diag(s)) == s;
    forall j | 1 <= j < s
      ensures OnBoard(Step(Diag(0), Dir(-1, -1), j)) && Get(b, Step(Diag(0), Dir(-1, -1), j)) == None
    {
      assert Step(Diag(0), Dir(-1, -1), j) == Diag(j);
    }
    assert Slides(b, Piece(Black, Queen), Diag(0), Dir(-1, -1), Diag(s));
    PieceMovesExact(b, Piece(Black, Queen), Diag(0), m);
  }

  /** A black queen on h4 with an open diagonal down to the only white king,
      `s` steps away, gives check. */
  lemma QueenChecks(b: Board, s: int)
    requires 1 <= s <= 3 && PawnsCanStep(b, Black)
    requires Get(b, Diag(0)) == Some(Piece(Black, Queen))
    requires forall j :: 1 <= j < s ==> Get(b, Diag(j)) == None
    requires Get(b, Diag(s)) == Some(Piece(White, King))
    requires forall q :: OnBoard(q) && q != Diag(s) ==> Get(b, q) != Some(Piece(White, King))
    ensures InCheck(b, White)
  {
    QueenRuns(b, s);
    InCheckByMove(b, White, Diag(s), Diag(0), Move(Diag(0), Diag(s), None));
  }

  /** Apart from the king, the h2 pawn and the h1 rook, no white piece's
      pattern covers square `s` of the diagonal, for `s` in 0..2. */
  lemma WhiteOffTheSquare(s: int)
    requires 0 <= s <= 2
    ensures forall p ::
      (OnBoard(p) && Layout(4, p).Some? && Layout(4, p).value.color == White
       && p != Diag(3) && p != Pos(2, 8) && p != Pos(1, 8))
      ==> !Reaches(Layout(4, p).value, p, Diag(s))
  {
  }

  /** Apart from the king, the h2 pawn and the h1 rook, no white piece's
      pattern covers h4, g3 or f2. */
  lemma WhiteOffTheLine(p: Pos)
    requires OnBoard(p) && Layout(4, p).Some? && Layout(4, p).value.color == White
    requires p != Diag(3) && p != Pos(2, 8) && p != Pos(1, 8)
    ensures !Reaches(Layout(4, p).value, p, Diag(0))
    ensures !Reaches(Layout(4, p).value, p, Diag(1))
    ensures !Reaches(Layout(4, p).value, p, Diag(2))
  {
    WhiteOffTheSquare(0);
    WhiteOffTheSquare(1);
    WhiteOffTheSquare(2);
  }

  /** The white king's only generated move is e1-f2. */
  lemma KingCornered(b: Board, m: Move)
    requires Laid(b, 4) && m in PieceMoves(b, Piece(White, King), Diag(3))
    ensures m == Move(Diag(3), Diag(2), None)
  {
    PieceMovesExact(b, Piece(White, King), Diag(3), m);
    assert Get(b, m.end) == Layout(4, m.end);
  }

  /** A pawn on h2 can neither take on an empty g3 nor advance two squares
      onto an occupied h4. */
  lemma PawnH2Blocked(b: Board, m: Move)
    requires Get(b, Diag(0)).Some? && Get(b, Diag(1)) == None
    requires m in PieceMoves(b, Piece(White, Pawn), Pos(2, 8))
    ensures m.end != Diag(0) && m.end != Diag(1) && m.end != Diag(2)
  {
    PieceMovesExact(b, Piece(White, Pawn), Pos(2, 8), m);
  }

  /** A rook on h1 behind a piece on h2 cannot get past it. */
  lemma RookH1Blocked(b: Board, m: Move)
    requires Get(b, Pos(2, 8)).Some?
    requires m in PieceMoves(b, Piece(White, Rook), Pos(1, 8))
    ensures m.end != Diag(0) && m.end != Diag(1) && m.end != Diag(2)
  {
    if m.end == Diag(0) {
      assert Step(Pos(1, 8), Dir(1, 0), 1) == Pos(2, 8);
      PieceMovesExact(b, Piece(White, Rook), Pos(1, 8), m);
    } else {
      MovesWithinReach(b, Piece(White, Rook), Pos(1, 8), m);
    }
  }

  /** No white piece other than the king has a generated move onto h4, g3 or f2. */
  lemma BlockersMiss(b: Board, p: Pos, m: Move)
    requires Laid(b, 4) && OnBoard(p) && Owned(b, p, White) && p != Diag(3)
    requires CanGenerate(Get(b, p).value, p) && m in PieceMoves(b, Get(b, p).value, p)
    ensures m.end != Diag(0) && m.end != Diag(1) && m.end != Diag(2)
  {
    assert Get(b, p) == Layout(4, p);
    if p == Pos(2, 8) {
      assert Get(b, Diag(0)) == Layout(4, Diag(0));
      assert Get(b, Diag(1)) == Layout(4, Diag(1));
      PawnH2Blocked(b, m);
    } else if p == Pos(1, 8) {
      assert Get(b, Pos(2, 8)) == Layout(4, Pos(2, 8));
      RookH1Blocked(b, m);
    } else {
      MovesWithinReach(b, Get(b, p).value, p, m);
      WhiteOffTheLine(p);
    }
  }

  /** The position facts the mate rests on: the queen on h4, g3 and f2
      empty, and the only white king `s` steps down the diagonal. */
  ghost predicate Pinned(b: Board, s: int)
    requires 2 <= s <= 3
  {
    PawnsCanStep(b, Black)
    && Get(b, Diag(0)) == Some(Piece(Black, Queen))
    && Get(b, Diag(1)) == None && (s == 3 ==> Get(b, Diag(2)) == None)
    && Get(b, Diag(s)) == Some(Piece(White, King))
    && forall q :: OnBoard(q) && q != Diag(s) ==> Get(b, q) != Some(Piece(White, King))
  }

  /** The king's step e1-f2 keeps it on the queen's diagonal. */
  lemma KingStepChecked(b: Board)
    requires Pinned(b, 3)
    ensures Pinned(MovePiece(b, Move(Diag(3), Diag(2), None)), 2)
  {
    var r := MovePiece(b, Move(Diag(3), Diag(2), None));
    MoveKeepsPawnsCanStep(b, Move(Diag(3), Diag(2), None), Black);
    forall q | OnBoard(q) && q != Diag(2)
      ensures Get(r, q) != Some(Piece(White, King))
    {
      if q != Diag(3) {
        assert Get(r, q) == Get(b, q);
      }
    }
  }

  /** Any other white move that does not land on the diagonal leaves the
      check in place. */
  lemma OtherMoveChecked(b: Board, m: Move)
    requires Pinned(b, 3)
    requires OnBoard(m.start) && InArray(m.end) && Owned(b, m.start, White) && m.start != Diag(3)
    requires m.end != Diag(0) && m.end != Diag(1) && m.end != Diag(2) && m.end != Diag(3)
    ensures Pinned(MovePiece(b, m), 3)
  {
    var r := MovePiece(b, m);
    MoveKeepsPawnsCanStep(b, m, Black);
    assert Get(r, Diag(0)) == Get(b, Diag(0));
    assert Get(r, Diag(3)) == Get(b, Diag(3));
    forall q | OnBoard(q) && q != Diag(3)
      ensures Get(r, q) != Some(Piece(White, King))
    {
      if q != m.start && q != m.end {
        assert Get(r, q) == Get(b, q);
      } else if q == m.end && q != m.start {
        assert Get(r, q) == Get(b, m.start);
      }
    }
  }

  /** A board pinned as above is check for white. */
  lemma PinnedIsCheck(b: Board, s: int)
    requires 2 <= s <= 3 && Pinned(b, s)
    ensures InCheck(b, White)
  {
    QueenChecks(b, s);
  }

  /** After the line no white piece has a move that survives the
      self-check filter. */
  lemma NoSafeMove(b: Board, p: Pos, m: Move)
    requires WellFormed(b) && Laid(b, 4) && OnBoard(p) && Owned(b, p, White)
    requires CanGenerate(Get(b, p).value, p)
    ensures PawnsCanStep(b, Black) && m !in SafeMoves(b, Get(b, p).value, p)
  {
    QueenLine(b);
    assert Pinned(b, 3);
    var pc := Get(b, p).value;
    if m in PieceMoves(b, pc, p) {
      assert TryMove(b, m) == MovePiece(b, m);
      if p == Diag(3) {
        KingCornered(b, m);
        KingStepChecked(b);
        PinnedIsCheck(MovePiece(b, m), 2);
      } else {
        BlockersMiss(b, p, m);
        OtherMoveChecked(b, m);
        PinnedIsCheck(MovePiece(b, m), 3);
      }
    }
  }

  /** After the line white is in check and no white piece has a move
      that survives the self-check filter. */
  lemma WhiteSafeMovesEmpty(b: Board, p: Pos)
    requires WellFormed(b) && Laid(b, 4) && OnBoard(p) && Owned(b, p, White)
    ensures Sane(b) && InCheck(b, White) && CanGenerate(Get(b, p).value, p)
    ensures SafeMoves(b, Get(b, p).value, p) == {}
  {
    QueenLine(b);
    assert Pinned(b, 3);
    PinnedIsCheck(b, 3);
    var pc := Get(b, p).value;
    forall m
      ensures m !in SafeMoves(b, pc, p)
    {
      NoSafeMove(b, p, m);
    }
  }

  /** While its side is in check, a piece that can generate has valid
      moves (the castling scan is skipped)... */
  lemma DefinedInCheck(g: Game, p: Pos)
    requires Sane(g.board) && InArray(p) && Get(g.board, p).Some?
    requires CanGenerate(Get(g.board, p).value, p) && InCheck(g.board, Get(g.board, p).value.color)
    ensures ValidMoves(g, p).Some?
  {
    NoCastlingInCheck(g, Get(g.board, p).value.color);
    ValidMovesFails(g, p);
  }

  /** ... and when it has no safe move, they are empty. */
  lemma OnlySafeInCheck(g: Game, p: Pos)
    requires Sane(g.board) && ValidMoves(g, p).Some?
    requires InCheck(g.board, Get(g.board, p).value.color)
    requires SafeMoves(g.board, Get(g.board, p).value, p) == {}
    ensures ValidMoves(g, p).value == {}
  {
    NoCastlingInCheck(g, Get(g.board, p).value.color);
    ValidMovesSplit(g, p);
  }

  /** A piece whose side is in check and which has no safe move has no
      valid move. */
  lemma StuckInCheck(g: Game, p: Pos)
    requires Sane(g.board) && InArray(p) && Get(g.board, p).Some?
    requires CanGenerate(Get(g.board, p).value, p) && InCheck(g.board, Get(g.board, p).value.color)
    requires SafeMoves(g.board, Get(g.board, p).value, p) == {}
    ensures ValidMoves(g, p) == Some({})
  {
    DefinedInCheck(g, p);
    OnlySafeInCheck(g, p);
  }

  /** After the line no white piece has a valid move. */
  lemma WhiteValidMovesEmpty(g: Game, p: Pos)
    requires WellFormed(g.board) && Laid(g.board, 4) && OnBoard(p) && Owned(g.board, p, White)
    ensures Sane(g.board) && ValidMoves(g, p) == Some({})
  {
    WhiteSafeMovesEmpty(g.board, p);
    StuckInCheck(g, p);
  }

  /** After the line the enumeration of white's moves does not throw... */
  lemma WhiteTeamDefined(g: Game)
    requires WellFormed(g.board) && Laid(g.board, 4)
    ensures Sane(g.board) && AllValidMovesForTeam(g, White).Some?
  {
    LaidSane(g.board, 4);
    forall p | OnBoard(p) && Owned(g.board, p, White)
      ensures ValidMoves(g, p).Some?
    {
      WhiteValidMovesEmpty(g, p);
    }
    AllValidMovesDefined(g, White);
  }

  /** ... and finds nothing. */
  lemma WhiteTeamEmpty(g: Game, m: Move)
    requires WellFormed(g.board) && Laid(g.board, 4)
    ensures Sane(g.board) && AllValidMovesForTeam(g, White).Some?
    ensures m !in AllValidMovesForTeam(g, White).value
  {
    WhiteTeamDefined(g);
    if m in AllValidMovesForTeam(g, White).value {
      AllValidMovesSound(g, White, m);
      var p :| OnBoard(p) && Owned(g.board, p, White) && ValidMoves(g, p).Some? && m in ValidMoves(g, p).value;
      WhiteValidMovesEmpty(g, p);
    }
  }

  /** After the line white is in check. */
  lemma WhiteInCheck(b: Board)
    requires Laid(b, 4)
    ensures Sane(b) && InCheck(b, White)
  {
    QueenLine(b);
    assert Pinned(b, 3);
    PinnedIsCheck(b, 3);
  }

  /** After the line white has no valid move. */
  lemma WhiteStuck(g: Game)
    requires WellFormed(g.board) && Laid(g.board, 4)
    ensures Sane(g.board) && AllValidMovesForTeam(g, White) == Some({})
  {
    WhiteTeamDefined(g);
    var all := AllValidMovesForTeam(g, White).value;
    forall m
      ensures m !in all
    {
      WhiteTeamEmpty(g, m);
    }
    assert all == {};
  }

  /** Black's reply a7-a6, used to show black still has a move. */
  const PushA6: Move := Move(Pos(7, 1), Pos(6, 1), None)

  /** After the line black's castling offers nothing, and its scan does
      not run: f8 and c8 are occupied. */
  lemma BlackCastleBlocked(g: Game)
    requires Laid(g.board, 4)
    ensures Sane(g.board) && AllCastleMoves(g, Black).Some?
  {
    LaidSane(g.board, 4);
    assert Get(g.board, Pos(8, 6)) == Layout(4, Pos(8, 6));
    assert Get(g.board, Pos(8, 3)) == Layout(4, Pos(8, 3));
    CastleSideOccupied(g, Black, 6, 7, 8);
    CastleSideOccupied(g, Black, 4, 3, 1);
    CastlingDefined(g, Black);
  }

  /** After the line the enumeration of black's moves does not throw. */
  lemma BlackTeamDefined(g: Game)
    requires Laid(g.board, 4)
    ensures Sane(g.board) && AllValidMovesForTeam(g, Black).Some?
  {
    BlackCastleBlocked(g);
    forall p | OnBoard(p) && Owned(g.board, p, Black)
      ensures ValidMoves(g, p).Some?
    {
      ValidMovesFails(g, p);
    }
    AllValidMovesDefined(g, Black);
  }

  /** After the line and a7-a6, the black king is still alone on e8 and
      every white piece stands where it stood. */
  lemma PushA6Frame(b: Board)
    requires Laid(b, 4)
    ensures var r := MovePiece(b, PushA6);
      Get(r, Pos(8, 5)) == Some(Piece(Black, King))
      && (forall p :: OnBoard(p) && p != Pos(8, 5) ==> Get(r, p) != Some(Piece(Black, King)))
      && forall p :: OnBoard(p) && Owned(r, p, White) ==> Get(r, p) == Layout(4, p)
  {
    var r := MovePiece(b, PushA6);
    LayoutKing(4, Black);
    forall p | OnBoard(p) && p != PushA6.start && p != PushA6.end
      ensures Get(r, p) == Layout(4, p)
    {
      assert Get(r, p) == Get(b, p);
    }
    assert Get(r, PushA6.end) == Get(b, PushA6.start) == Layout(4, PushA6.start);
  }

  /** After the line a7-a6 does not leave black in check. */
  lemma PushA6Safe(b: Board)
    requires WellFormed(b) && Laid(b, 4)
    ensures PawnsCanStep(TryMove(b, PushA6), White) && !InCheck(TryMove(b, PushA6), Black)
  {
    var r := MovePiece(b, PushA6);
    assert TryMove(b, PushA6) == r;
    LaidSane(b, 4);
    MoveKeepsPawnsCanStep(b, PushA6, White);
    PushA6Frame(b);
    WhiteFarFromBlackKing(4);
    NotInCheckByReach(r, Black, Pos(8, 5));
  }

  /** After the line the a7 pawn generates a7-a6. */
  lemma PushA6Generated(b: Board)
    requires Laid(b, 4)
    ensures Get(b, PushA6.start) == Some(Piece(Black, Pawn)) && CanGenerate(Piece(Black, Pawn), PushA6.start)
    ensures Generates(b, Piece(Black, Pawn), PushA6.start, PushA6)
  {
    assert Get(b, PushA6.start) == Layout(4, PushA6.start);
    assert Get(b, PushA6.end) == Layout(4, PushA6.end);
  }

  /** A generated move of a piece other than the king, after which its side
      is not in check, is among its valid moves. */
  lemma GeneratedIsValid(g: Game, m: Move)
    requires Sane(g.board) && InArray(m.start) && InArray(m.end) && Get(g.board, m.start).Some?
    requires var pc := Get(g.board, m.start).value;
      pc.kind != King && CanGenerate(pc, m.start) && Generates(g.board, pc, m.start, m)
      && !InCheck(TryMove(g.board, m), pc.color)
    ensures ValidMoves(g, m.start).Some? && m in ValidMoves(g, m.start).value
  {
    ValidMovesFails(g, m.start);
    ValidMovesExact(g, m.start, m);
  }

  /** After the line a7-a6 is one of black's valid moves. */
  lemma BlackCanMove(g: Game)
    requires WellFormed(g.board) && Laid(g.board, 4)
    ensures Sane(g.board) && AllValidMovesForTeam(g, Black).Some?
    ensures PushA6 in AllValidMovesForTeam(g, Black).value
  {
    BlackTeamDefined(g);
    PushA6Generated(g.board);
    PushA6Safe(g.board);
    GeneratedIsValid(g, PushA6);
    AllValidMovesCover(g, Black, PushA6.start);
  }

  /** After the line white is in check and checkmated, and so not stalemated. */
  lemma WhiteLost(g: Game)
    requires WellFormed(g.board) && Laid(g.board, 4)
    ensures Sane(g.board) && IsInCheck(g, White)
    ensures IsInCheckmate(g, White) == Some(true) && IsInStalemate(g, White) == Some(false)
  {
    WhiteInCheck(g.board);
    WhiteStuck(g);
  }

  /** After the line black is neither in check, nor checkmated, nor stalemated. */
  lemma BlackFine(g: Game)
    requires WellFormed(g.board) && Laid(g.board, 4)
    ensures Sane(g.board) && !IsInCheck(g, Black)
    ensures IsInCheckmate(g, Black) == Some(false) && IsInStalemate(g, Black) == Some(false)
  {
    KingSafe(g.board, 4, Black);
    BlackCanMove(g);
    assert AllValidMovesForTeam(g, Black).value != {};
  }

  /** `makeMove` accepts `Line[k]` in the game after the first `k` moves,
      and the result is the game after the first `k + 1`. */
  ghost predicate Accepted(k: nat)
    requires k < 4
  {
    Sane(BoardAfter(k)) && MakeMove(GameAfter(k), Line[k]) == Moved(GameAfter(k + 1))
  }

  /** Every move of the line is accepted. */
  lemma LineAccepted()
    ensures forall k | 0 <= k < 4 :: Accepted(k)
  {
    forall k | 0 <= k < 4
      ensures Accepted(k)
    {
      Played(k);
    }
  }

  /** `WhiteLost` and `BlackFine` together. */
  lemma FinalOn(g: Game)
    requires WellFormed(g.board) && Laid(g.board, 4)
    ensures Sane(g.board)
      && IsInCheck(g, White) && IsInCheckmate(g, White) == Some(true) && IsInStalemate(g, White) == Some(false)
      && !IsInCheck(g, Black) && IsInCheckmate(g, Black) == Some(false) && IsInStalemate(g, Black) == Some(false)
  {
    WhiteLost(g);
    BlackFine(g);
  }

  /** The boards of the line are well formed and laid out as `Layout` says. */
  lemma LineLaid(n: nat)
    requires n <= 4
    ensures WellFormed(BoardAfter(n)) && Laid(BoardAfter(n), n)
  {
    LineSane(n);
    LayoutOf(n);
  }

  /** The final position: white is in check and checkmated but not
      stalemated, and black is in none of the three. */
  lemma FinalPosition()
    ensures var g := GameAfter(4);
      Sane(g.board)
      && IsInCheck(g, White) && IsInCheckmate(g, White) == Some(true) && IsInStalemate(g, White) == Some(false)
      && !IsInCheck(g, Black) && IsInCheckmate(g, Black) == Some(false) && IsInStalemate(g, Black) == Some(false)
  {
    LineLaid(4);
    FinalOn(GameAfter(4));
  }

  /** Fool's mate: from a new game `makeMove` accepts f2-f3, e7-e5, g2-g4
      and Qd8-h4 in turn; then white is in check and checkmated but not
      stalemated, and black is in none of the three. */
  lemma FoolsMateLine()
    ensures NewGame() == GameAfter(0)
    ensures forall k | 0 <= k < 4 :: Accepted(k)
    ensures var g := GameAfter(4);
      Sane(g.board)
      && IsInCheck(g, White) && IsInCheckmate(g, White) == Some(true) && IsInStalemate(g, White) == Some(false)
      && !IsInCheck(g, Black) && IsInCheckmate(g, Black) == Some(false) && IsInStalemate(g, Black) == Some(false)
  {
    LineAccepted();
    FinalPosition();
  }
}
