/** `ChessGame`: the game state machine. It filters pseudo-legal moves by
    whether they leave the mover's king attacked, offers castling to kings,
    applies moves with the turn check and the castling rook hop, and answers
    the check, checkmate and stalemate queries. */
module ChessGame {
  import opened ChessTypes
  import opened ChessBoard
  import opened ChessPiece

  /** The game's fields. `history` in the source is a list of references:
      `makeMove` appends the live board object, which it then goes on to
      mutate, and `setBoard` swaps in a fresh object. So the history reads
      as `frozen` (boards no longer live) followed by `live` references to
      the current board. */
  datatype Game = Game(board: Board, whitesTurn: bool, frozen: seq<Board>, live: nat)

  /** The result of `makeMove`: the next state, or `InvalidMoveException`. */
  datatype Outcome = Moved(game: Game) | InvalidMove

  /** The history list as the castling scan reads it, oldest first. */
  function History(g: Game): seq<Board> {
    g.frozen + seq(g.live, _ => g.board)
  }

  /** The constructor: a reset board, white to move, no history. */
  function NewGame(): (g: Game)
    ensures forall p :: InArray(p) ==> Get(g.board, p) == StandardSquare(p)
    ensures GetTeamTurn(g) == White && History(g) == []
  {
    Game(ResetBoard(), true, [], 0)
  }

  /** `getTeamTurn`. */
  function GetTeamTurn(g: Game): Color {
    if g.whitesTurn then White else Black
  }

  /** `setTeamTurn`: only the turn changes. */
  function SetTeamTurn(g: Game, c: Color): (r: Game)
    ensures GetTeamTurn(r) == c
    ensures r.board == g.board && History(r) == History(g)
  {
    g.(whitesTurn := c == White)
  }

  /** `setBoard`: the game now holds a copy of `b`. The boards the history
      referred to keep their last contents. */
  function SetBoard(g: Game, b: Board): (r: Game)
    ensures WellFormed(r.board) && forall p :: OnBoard(p) ==> Get(r.board, p) == Get(b, p)
    ensures GetTeamTurn(r) == GetTeamTurn(g) && History(r) == History(g)
  {
    Game(Copy(b), g.whitesTurn, History(g), 0)
  }

  /** `getBoard`: a copy of the game's board. */
  function GetBoard(g: Game): (r: Board)
    ensures forall p :: OnBoard(p) ==> Get(r, p) == Get(g.board, p)
  {
    Copy(g.board)
  }

  /** The cell `p` holds a piece of colour `c`. */
  predicate Owned(b: Board, p: Pos, c: Color)
    requires InArray(p)
  {
    Get(b, p).Some? && Get(b, p).value.color == c
  }

  /** No piece of colour `c` on the board makes `pieceMoves` throw: no white
      pawn stands on row 8. (For black it always holds: a black pawn on row 1
      probes row 0, which exists.) */
  ghost predicate PawnsCanStep(b: Board, c: Color) {
    forall p :: OnBoard(p) && Owned(b, p, c) ==> CanGenerate(Get(b, p).value, p)
  }

  /** A black pawn can always probe the square ahead (row 1 probes row 0,
      which exists), so the check scan of white never throws. */
  lemma BlackPawnsCanStep(b: Board)
    ensures PawnsCanStep(b, Black)
  {
  }

  /** A board on which the check scan of either side runs without throwing. */
  ghost predicate Sane(b: Board) {
    PawnsCanStep(b, White) && PawnsCanStep(b, Black)
  }

  /** What the queries about the piece on `from` need: the check scan for
      its side, which runs the other side's pieces, does not throw. */
  ghost predicate ScanSafeAt(b: Board, from: Pos) {
    InArray(from) && Get(b, from).Some? ==> PawnsCanStep(b, Other(Get(b, from).value.color))
  }

  /** The board's 64 squares in the scan order of the source's loops: row by
      row from 1, and within a row column by column from 1. */
  function Square(i: int): (p: Pos)
    requires 0 <= i < 64
    ensures OnBoard(p)
  {
    Pos(i / 8 + 1, i % 8 + 1)
  }

  /** The scan position of an on-board square. */
  function ScanIndex(p: Pos): (i: int)
    requires OnBoard(p)
    ensures 0 <= i < 64 && Square(i) == p
  {
    (p.row - 1) * 8 + (p.col - 1)
  }

  /** `getKingPosition` from scan position `i` on. */
  function KingSearch(b: Board, c: Color, i: int): (r: Pos)
    requires 0 <= i <= 64
    ensures r == Pos(0, 0) ==>
      forall j :: i <= j < 64 ==> Get(b, Square(j)) != Some(Piece(c, King))
    ensures r != Pos(0, 0) ==>
      OnBoard(r) && Get(b, r) == Some(Piece(c, King)) && i <= ScanIndex(r)
      && forall j :: i <= j < ScanIndex(r) ==> Get(b, Square(j)) != Some(Piece(c, King))
    decreases 64 - i
  {
    if i == 64 then Pos(0, 0)
    else if Get(b, Square(i)) == Some(Piece(c, King)) then Square(i)
    else KingSearch(b, c, i + 1)
  }

  /** `getKingPosition`: the first square in scan order holding the king of
      colour `c`, or (0, 0) when there is none. */
  function KingPosition(b: Board, c: Color): (r: Pos)
    ensures r == Pos(0, 0) || (OnBoard(r) && Get(b, r) == Some(Piece(c, King)))
  {
    KingSearch(b, c, 0)
  }

  /** The squares the piece on `p` could move to by `pieceMoves`. */
  function Targets(b: Board, pc: Piece, p: Pos): set<Pos>
    requires CanGenerate(pc, p)
  {
    set m | m in PieceMoves(b, pc, p) :: m.end
  }

  /** The scan loop of `evaluateBoardForCheck`, from scan position `i` on:
      does some piece of colour `side` have a move ending on `target`? */
  predicate AttackScan(b: Board, target: Pos, side: Color, i: int)
    requires PawnsCanStep(b, side) && 0 <= i <= 64
    decreases 64 - i
  {
    if i == 64 then false
    else if Owned(b, Square(i), side) && target in Targets(b, Get(b, Square(i)).value, Square(i)) then true
    else AttackScan(b, target, side, i + 1)
  }

  /** `evaluateBoardForCheck`: whether a piece of the other colour has a
      move ending on the square `getKingPosition` reports. */
  predicate InCheck(b: Board, c: Color)
    requires PawnsCanStep(b, Other(c))
  {
    AttackScan(b, KingPosition(b, c), Other(c), 0)
  }

  /** `copy` keeps what the check scan depends on. */
  lemma CopyKeepsPawnsCanStep(b: Board, a: Color)
    requires PawnsCanStep(b, a)
    ensures PawnsCanStep(Copy(b), a)
  {
  }

  /** `movePiece` keeps the scan of colour `a` from throwing as long as the
      piece it moves, if it is of colour `a`, can still generate where it lands. */
  lemma MoveKeepsPawnsCanStep(b: Board, m: Move, a: Color)
    requires InArray(m.start) && InArray(m.end) && PawnsCanStep(b, a)
    requires OnBoard(m.end) && Owned(b, m.start, a) ==> CanGenerate(Get(b, m.start).value, m.end)
    ensures PawnsCanStep(MovePiece(b, m), a)
  {
    var r := MovePiece(b, m);
    forall p | OnBoard(p) && Owned(r, p, a)
      ensures CanGenerate(Get(r, p).value, p)
    {
      if p != m.end {
        assert Get(r, p) == Get(b, p);
      }
    }
  }

  /** The board `validMoves` tests a candidate move on: a copy with the move applied. */
  function TryMove(b: Board, m: Move): (r: Board)
    requires InArray(m.start) && InArray(m.end)
  {
    MovePiece(Copy(b), m)
  }

  /** The self-check filter of `validMoves`: the moves of `pc` on `from`
      after which its own side is not in check. */
  ghost function SafeMoves(b: Board, pc: Piece, from: Pos): set<Move>
    requires InArray(from) && Get(b, from) == Some(pc) && CanGenerate(pc, from)
    requires PawnsCanStep(b, Other(pc.color))
  {
    var ms := PieceMoves(b, pc, from);
    assert forall m :: m in ms ==> PawnsCanStep(TryMove(b, m), Other(pc.color)) by {
      forall m | m in ms
        ensures PawnsCanStep(TryMove(b, m), Other(pc.color))
      {
        CopyKeepsPawnsCanStep(b, Other(pc.color));
        MoveKeepsPawnsCanStep(Copy(b), m, Other(pc.color));
      }
    }
    set m | m in ms && !InCheck(TryMove(b, m), pc.color)
  }

  /** What the castling scan of the history finds. `Fault` is the source's
      `NullPointerException` on an empty square. */
  datatype Scan = Clear | Blocked | Fault

  /** The history loop of `possibleCastlingMovesRight/Left`. For each board,
      in order: the (row, 5) square must hold a piece (else fault), and the
      castling is blocked unless that piece is neither a king nor of colour
      `c`; then the same for the rook square (row, rookCol) and rooks. */
  function ScanHistory(h: seq<Board>, row: int, c: Color, rookCol: int): (r: Scan)
    requires InArray(Pos(row, 5)) && InArray(Pos(row, rookCol))
  {
    if h == [] then Clear
    else
      var k := Get(h[0], Pos(row, 5));
      if k == None then Fault
      else if !(k.value.kind != King && k.value.color != c) then Blocked
      else
        var rook := Get(h[0], Pos(row, rookCol));
        if rook == None then Fault
        else if !(rook.value.kind != Rook && rook.value.color != c) then Blocked
        else ScanHistory(h[1..], row, c, rookCol)
  }

  /** The two boards the castling test walks the king through: the (row, 5)
      occupant moved to column `via`, then on to column `to`. */
  function CastleStep1(b: Board, c: Color, via: int): Board
    requires 1 <= via <= 8
  {
    MovePiece(Copy(b), Move(Pos(HomeRow(c), 5), Pos(HomeRow(c), via), None))
  }

  function CastleStep2(b: Board, c: Color, via: int, to: int): Board
    requires 1 <= via <= 8 && 1 <= to <= 8
  {
    MovePiece(CastleStep1(b, c, via), Move(Pos(HomeRow(c), via), Pos(HomeRow(c), to), None))
  }

  /** The castle walk moves only along the home row, so the other side's
      scan still does not throw on either board. */
  lemma CastleStepsSane(b: Board, c: Color, via: int, to: int)
    requires PawnsCanStep(b, Other(c)) && 1 <= via <= 8 && 1 <= to <= 8
    ensures PawnsCanStep(CastleStep1(b, c, via), Other(c))
    ensures PawnsCanStep(CastleStep2(b, c, via, to), Other(c))
  {
    var row := HomeRow(c);
    CopyKeepsPawnsCanStep(b, Other(c));
    MoveKeepsPawnsCanStep(Copy(b), Move(Pos(row, 5), Pos(row, via), None), Other(c));
    var b1 := CastleStep1(b, c, via);
    MoveKeepsPawnsCanStep(b1, Move(Pos(row, via), Pos(row, to), None), Other(c));
  }

  /** `possibleCastlingMovesRight` (via 6, to 7, rook column 8) and
      `possibleCastlingMovesLeft` (via 4, to 3, rook column 1). `None` is a
      fault of the history scan. */
  ghost function CastleSide(g: Game, c: Color, via: int, to: int, rookCol: int): Option<set<Move>>
    requires PawnsCanStep(g.board, Other(c))
    requires 1 <= via <= 8 && 1 <= to <= 8 && 1 <= rookCol <= 8
  {
    var row := HomeRow(c);
    CastleStepsSane(g.board, c, via, to);
    if Get(g.board, Pos(row, via)) != None || Get(g.board, Pos(row, to)) != None then Some({})
    else if InCheck(CastleStep1(g.board, c, via), c) then Some({})
    else if InCheck(CastleStep2(g.board, c, via, to), c) then Some({})
    else
      match ScanHistory(History(g), row, c, rookCol)
      case Clear => Some({Move(Pos(row, 5), Pos(row, to), None)})
      case Blocked => Some({})
      case Fault => None
  }

  /** `allCastleMoves`: nothing while in check, otherwise both sides. */
  ghost function AllCastleMoves(g: Game, c: Color): Option<set<Move>>
    requires PawnsCanStep(g.board, Other(c))
  {
    if InCheck(g.board, c) then Some({})
    else
      var right := CastleSide(g, c, 6, 7, 8);
      var left := CastleSide(g, c, 4, 3, 1);
      if right.None? || left.None? then None else Some(right.value + left.value)
  }

  /** `validMoves(from)`: the piece's moves that do not leave its side in
      check, plus, for a king, the castling moves. `None` is an exception in
      the source: an index outside the array, an empty square (the null
      start piece), a pawn whose forward probe leaves the array, or a fault
      of the castling scan. */
  ghost function ValidMoves(g: Game, from: Pos): (r: Option<set<Move>>)
    requires ScanSafeAt(g.board, from)
    ensures r.Some? ==> InArray(from) && Get(g.board, from).Some?
  {
    if !InArray(from) || Get(g.board, from) == None then None
    else
      var pc := Get(g.board, from).value;
      if !CanGenerate(pc, from) then None
      else
        var safe := SafeMoves(g.board, pc, from);
        if pc.kind != King then Some(safe)
        else
          match AllCastleMoves(g, pc.color)
          case None => None
          case Some(cs) => Some(safe + cs)
  }

  /** What `allValidMovesForTeam` takes from each of the 64 squares, in
      scan order: the valid moves of a piece of colour `c` (`None` when
      they throw), and nothing from any other square. */
  ghost function TeamTable(g: Game, c: Color): (t: seq<Option<set<Move>>>)
    requires PawnsCanStep(g.board, Other(c))
    ensures |t| == 64
  {
    seq(64, j requires 0 <= j < 64 =>
      if Owned(g.board, Square(j), c) then ValidMoves(g, Square(j)) else Some({}))
  }

  /** The union of the entries of `t` from position `i` on, or `None` as
      soon as one of them is `None`: an exception thrown inside the loop
      ends it. */
  function Gather(t: seq<Option<set<Move>>>, i: nat): Option<set<Move>>
    requires i <= |t|
    decreases |t| - i
  {
    if i == |t| then Some({})
    else
      match t[i]
      case None => None
      case Some(vs) =>
        var rest := Gather(t, i + 1);
        if rest.None? then None else Some(vs + rest.value)
  }

  /** `allValidMovesForTeam`. */
  ghost function AllValidMovesForTeam(g: Game, c: Color): Option<set<Move>>
    requires PawnsCanStep(g.board, Other(c))
  {
    Gather(TeamTable(g, c), 0)
  }

  /** `isInCheck`. */
  ghost predicate IsInCheck(g: Game, c: Color)
    requires PawnsCanStep(g.board, Other(c))
  {
    InCheck(g.board, c)
  }

  /** `isInCheckmate`: in check and without a valid move. `None` is an
      exception from the move enumeration. */
  ghost function IsInCheckmate(g: Game, c: Color): (r: Option<bool>)
    requires PawnsCanStep(g.board, Other(c))
    ensures r == Some(true) <==> IsInCheck(g, c) && AllValidMovesForTeam(g, c) == Some({})
  {
    if IsInCheck(g, c) then
      match AllValidMovesForTeam(g, c)
      case None => None
      case Some(ms) => Some(ms == {})
    else Some(false)
  }

  /** `isInStalemate`: not in check and without a valid move. */
  ghost function IsInStalemate(g: Game, c: Color): (r: Option<bool>)
    requires PawnsCanStep(g.board, Other(c))
    ensures r == Some(true) <==> !IsInCheck(g, c) && AllValidMovesForTeam(g, c) == Some({})
  {
    if !IsInCheck(g, c) then
      match AllValidMovesForTeam(g, c)
      case None => None
      case Some(ms) => Some(ms == {})
    else Some(false)
  }

  /** The rook hop of `makeMove`: a king moving two columns right brings the
      (row, 8) occupant to (row, 6); two columns left, the (row, 1) occupant
      to (row, 4). Other moves leave the board alone. */
  function RookHop(b: Board, pc: Piece, m: Move): Board
    requires InArray(m.start)
  {
    var row := m.start.row;
    if pc.kind == King && m.start.col - m.end.col == -2 then
      MovePiece(b, Move(Pos(row, 8), Pos(row, 6), None))
    else if pc.kind == King && m.start.col - m.end.col == 2 then
      MovePiece(b, Move(Pos(row, 1), Pos(row, 4), None))
    else b
  }

  /** `makeMove`. The move is refused when its start is outside the array or
      empty, when the piece is not of the side to move, or when the move is
      not among `validMoves(start)` (or that call throws). Otherwise the live
      board is recorded in the history, the rook hops if the king castles,
      the move is applied and the turn passes. */
  ghost function MakeMove(g: Game, m: Move): (r: Outcome)
    requires PawnsCanStep(g.board, Other(GetTeamTurn(g)))
  {
    if !InArray(m.start) || Get(g.board, m.start) == None then InvalidMove
    else
      var pc := Get(g.board, m.start).value;
      if pc.color != GetTeamTurn(g) then InvalidMove
      else
        match ValidMoves(g, m.start)
        case None => InvalidMove
        case Some(vs) =>
          if m !in vs then InvalidMove
          else
            assert InArray(m.end) by { ValidMovesEndInArray(g, m.start, m); }
            Moved(Game(MovePiece(RookHop(g.board, pc, m), m), !g.whitesTurn, g.frozen, g.live + 1))
  }

  /** One side's castling offers at most the king move from (home row, 5)
      to column `to`, without promotion. */
  lemma CastleSideShape(g: Game, c: Color, via: int, to: int, rookCol: int, m: Move)
    requires PawnsCanStep(g.board, Other(c))
    requires 1 <= via <= 8 && 1 <= to <= 8 && 1 <= rookCol <= 8
    requires CastleSide(g, c, via, to, rookCol).Some? && m in CastleSide(g, c, via, to, rookCol).value
    ensures m == Move(Pos(HomeRow(c), 5), Pos(HomeRow(c), to), None)
  {
  }

  /** Castling offers at most the two king moves from (home row, 5) to
      columns 7 and 3, without promotion. */
  lemma CastleMovesShape(g: Game, c: Color, m: Move)
    requires PawnsCanStep(g.board, Other(c)) && AllCastleMoves(g, c).Some? && m in AllCastleMoves(g, c).value
    ensures m == Move(Pos(HomeRow(c), 5), Pos(HomeRow(c), 7), None)
         || m == Move(Pos(HomeRow(c), 5), Pos(HomeRow(c), 3), None)
  {
    if !InCheck(g.board, c) {
      if m in CastleSide(g, c, 6, 7, 8).value {
        CastleSideShape(g, c, 6, 7, 8, m);
      } else {
        CastleSideShape(g, c, 4, 3, 1, m);
      }
    }
  }

  /** Every move `validMoves` offers ends on an array index. */
  lemma ValidMovesEndInArray(g: Game, from: Pos, m: Move)
    requires ScanSafeAt(g.board, from) && ValidMoves(g, from).Some? && m in ValidMoves(g, from).value
    ensures InArray(m.end)
  {
    var pc := Get(g.board, from).value;
    if m !in SafeMoves(g.board, pc, from) {
      CastleMovesShape(g, pc.color, m);
    }
  }
}
