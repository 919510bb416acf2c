/** Vocabulary shared by the board, the move generator and the game:
    team colours, piece kinds, squares and moves. */
module ChessTypes {

  /** An optional value; `None` stands for Java's `null`. */
  datatype Option<+T> = None | Some(value: T)

  /** `ChessGame.TeamColor`. */
  datatype Color = White | Black

  /** `ChessPiece.PieceType`. */
  datatype Kind = King | Queen | Bishop | Knight | Rook | Pawn

  /** A piece is an immutable (colour, kind) pair; `ChessPiece.equals` is datatype equality. */
  datatype Piece = Piece(color: Color, kind: Kind)

  /** `ChessPosition`: a (row, column) pair. Rows and columns of real squares run 1..8. */
  datatype Pos = Pos(row: int, col: int)

  /** `ChessMove`: start square, end square and the optional promotion kind. */
  datatype Move = Move(start: Pos, end: Pos, promotion: Option<Kind>)

  /** `ChessGame.otherTeam`. */
  function Other(c: Color): (r: Color)
    ensures r != c
  {
    if c == White then Black else White
  }

  /** One of the 64 squares of the board. */
  predicate OnBoard(p: Pos) {
    1 <= p.row <= 8 && 1 <= p.col <= 8
  }

  /** An index pair that the source's 9x9 array accepts without throwing. */
  predicate InArray(p: Pos) {
    0 <= p.row <= 8 && 0 <= p.col <= 8
  }

  /** Row direction in which pawns of colour `c` advance. */
  function Forward(c: Color): int {
    if c == White then 1 else -1
  }

  /** Row a pawn of colour `c` starts on (and may double-step from). */
  function StartRow(c: Color): int {
    if c == White then 2 else 7
  }

  /** Row on which a pawn of colour `c` promotes. */
  function PromotionRow(c: Color): int {
    if c == White then 8 else 1
  }

  /** Back rank of colour `c`, where its king and rooks start. */
  function HomeRow(c: Color): int {
    if c == White then 1 else 8
  }
}
