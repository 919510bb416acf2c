/** `ChessBoard`: the grid of optional pieces and its mechanical operations.
    The source stores a 9x9 array indexed 0..8 and uses indices 1..8 for the
    squares; here that array is flattened row by row into 81 cells. */
module ChessBoard {
  import opened ChessTypes

  /** The 9x9 array of optional pieces, row-major; `None` is an empty cell. */
  type Board = b: seq<Option<Piece>> | |b| == 81 witness Empty()

  /** `new ChessPiece[9][9]`: every cell empty. */
  function Empty(): (r: seq<Option<Piece>>)
    ensures |r| == 81
  {
    seq(81, _ => None)
  }

  /** Cell of the flattened array that holds index pair `p`. */
  function Index(p: Pos): (i: nat)
    requires InArray(p)
    ensures i < 81
  {
    p.row * 9 + p.col
  }

  /** Only the 64 real squares are occupied: the index-0 cells are empty. */
  ghost predicate WellFormed(b: Board) {
    forall p :: InArray(p) && !OnBoard(p) ==> Get(b, p) == None
  }

  /** `getPiece`: the occupant of `p`, `None` for an empty cell.
      Indices outside 0..8 make the source's array access throw. */
  function Get(b: Board, p: Pos): Option<Piece>
    requires InArray(p)
  {
    b[Index(p)]
  }

  /** `addPiece`: overwrites slot `p`; `None` empties it. */
  function AddPiece(b: Board, p: Pos, x: Option<Piece>): (r: Board)
    requires InArray(p)
    ensures Get(r, p) == x
    ensures forall q :: InArray(q) && q != p ==> Get(r, q) == Get(b, q)
  {
    b[Index(p) := x]
  }

  /** `movePiece`: copies the start occupant onto the end square, then empties
      the start square. Legality is not checked and the promotion field is
      ignored. A move whose start and end coincide empties that square. */
  function MovePiece(b: Board, m: Move): (r: Board)
    requires InArray(m.start) && InArray(m.end)
    ensures m.start != m.end ==> Get(r, m.end) == Get(b, m.start)
    ensures Get(r, m.start) == None
    ensures forall q :: InArray(q) && q != m.start && q != m.end ==> Get(r, q) == Get(b, q)
  {
    var landed := AddPiece(b, m.end, Get(b, m.start));
    AddPiece(landed, m.start, None)
  }

  /** The back-rank order, by column 1..8. */
  function BackRankKind(col: int): Kind {
    if col == 1 || col == 8 then Rook
    else if col == 2 || col == 7 then Knight
    else if col == 3 || col == 6 then Bishop
    else if col == 4 then Queen
    else King
  }

  /** The occupant `resetBoard` gives each cell of the array. */
  function StandardSquare(p: Pos): Option<Piece>
    requires InArray(p)
  {
    if !OnBoard(p) then None
    else if p.row == 1 then Some(Piece(White, BackRankKind(p.col)))
    else if p.row == 2 then Some(Piece(White, Pawn))
    else if p.row == 7 then Some(Piece(Black, Pawn))
    else if p.row == 8 then Some(Piece(Black, BackRankKind(p.col)))
    else None
  }

  /** `resetBoard`: a fresh array on which the pawn loop and the sixteen
      back-rank placements put the 32 pieces on distinct cells, so the order
      of the placements does not matter and the board is their table. */
  function ResetBoard(): (r: Board)
    ensures forall p :: InArray(p) ==> Get(r, p) == StandardSquare(p)
  {
    seq(81, i requires 0 <= i < 81 => StandardSquare(PosOf(i)))
  }

  /** Index pair stored in cell `i` of the flattened array. */
  function PosOf(i: int): (p: Pos)
    requires 0 <= i < 81
    ensures InArray(p) && Index(p) == i
  {
    Pos(i / 9, i % 9)
  }

  /** `copy`: a fresh board holding the occupants of rows and columns 1..8;
      anything in an index-0 slot is not carried over. */
  function Copy(b: Board): (r: Board)
    ensures WellFormed(r)
    ensures forall p :: OnBoard(p) ==> Get(r, p) == Get(b, p)
    ensures WellFormed(b) ==> r == b
  {
    var r: Board := seq(81, i requires 0 <= i < 81 => if OnBoard(PosOf(i)) then b[i] else None);
    assert forall p :: InArray(p) ==> PosOf(Index(p)) == p;
    r
  }

  /** `equals`: `Objects.deepEquals` over the arrays, i.e. equal occupants everywhere. */
  predicate Equals(a: Board, b: Board) {
    a == b
  }

  /** The starting layout read rank by rank: pawn rows, empty middle rows,
      the back ranks in the order R, N, B, Q, K, B, N, R, and the index-0
      cells empty. */
  lemma StartingLayout(c: Color)
    ensures forall col :: 1 <= col <= 8 ==> Get(ResetBoard(), Pos(2, col)) == Some(Piece(White, Pawn))
    ensures forall col :: 1 <= col <= 8 ==> Get(ResetBoard(), Pos(7, col)) == Some(Piece(Black, Pawn))
    ensures forall p :: OnBoard(p) && 3 <= p.row <= 6 ==> Get(ResetBoard(), p) == None
    ensures Get(ResetBoard(), Pos(HomeRow(c), 1)) == Some(Piece(c, Rook))
    ensures Get(ResetBoard(), Pos(HomeRow(c), 2)) == Some(Piece(c, Knight))
    ensures Get(ResetBoard(), Pos(HomeRow(c), 3)) == Some(Piece(c, Bishop))
    ensures Get(ResetBoard(), Pos(HomeRow(c), 4)) == Some(Piece(c, Queen))
    ensures Get(ResetBoard(), Pos(HomeRow(c), 5)) == Some(Piece(c, King))
    ensures Get(ResetBoard(), Pos(HomeRow(c), 6)) == Some(Piece(c, Bishop))
    ensures Get(ResetBoard(), Pos(HomeRow(c), 7)) == Some(Piece(c, Knight))
    ensures Get(ResetBoard(), Pos(HomeRow(c), 8)) == Some(Piece(c, Rook))
    ensures WellFormed(ResetBoard())
  {
    var r := ResetBoard();
    forall col | 1 <= col <= 8
      ensures Get(r, Pos(HomeRow(c), col)) == Some(Piece(c, BackRankKind(col)))
    {
      assert Get(r, Pos(HomeRow(c), col)) == StandardSquare(Pos(HomeRow(c), col));
    }
  }

  /** The starting table puts the king of colour `c` on column 5 of its
      home row and nowhere else. */
  lemma StandardKing(c: Color, p: Pos)
    requires InArray(p)
    ensures StandardSquare(p) == Some(Piece(c, King)) <==> p == Pos(HomeRow(c), 5)
  {
    if OnBoard(p) && (p.row == 1 || p.row == 8) {
      assert BackRankKind(p.col) == King <==> p.col == 5;
      assert StandardSquare(p) == Some(Piece(if p.row == 1 then White else Black, BackRankKind(p.col)));
    } else {
      assert StandardSquare(p).None? || StandardSquare(p).value.kind == Pawn;
    }
  }

  /** Each side starts with exactly one king, on column 5 of its home row. */
  lemma StartingKing(c: Color)
    ensures forall p :: InArray(p) ==>
      (Get(ResetBoard(), p) == Some(Piece(c, King)) <==> p == Pos(HomeRow(c), 5))
  {
    forall p | InArray(p)
      ensures Get(ResetBoard(), p) == Some(Piece(c, King)) <==> p == Pos(HomeRow(c), 5)
    {
      assert Get(ResetBoard(), p) == StandardSquare(p);
      StandardKing(c, p);
    }
  }

  /** On well-formed boards, equality is square-wise equality of occupants. */
  lemma EqualsIsSquarewise(a: Board, b: Board)
    requires WellFormed(a) && WellFormed(b)
    ensures Equals(a, b) <==> forall p :: OnBoard(p) ==> Get(a, p) == Get(b, p)
  {
    if forall p :: OnBoard(p) ==> Get(a, p) == Get(b, p) {
      forall i | 0 <= i < 81
        ensures a[i] == b[i]
      {
        assert Get(a, PosOf(i)) == Get(b, PosOf(i));
      }
    }
  }
}
