/** `ChessPiece.pieceMoves`: pseudo-legal move generation. A piece lists the
    moves its kind allows from a square, looking at the board only to stop
    at blockers and to tell captures from friendly squares; it does not ask
    whether its own king is left in check. */
module ChessPiece {
  import opened ChessTypes
  import opened ChessBoard

  /** A (row, column) displacement. */
  datatype Dir = Dir(dr: int, dc: int)

  /** `isSameColor`: the cell holds a piece of `pc`'s colour (an empty cell does not). */
  predicate IsSameColor(pc: Piece, x: Option<Piece>) {
    x.Some? && x.value.color == pc.color
  }

  /** `canCapture`: the cell holds a piece that `pc` may take. */
  predicate CanCapture(pc: Piece, x: Option<Piece>) {
    x.Some? && !IsSameColor(pc, x)
  }

  /** The square `d` away from `p`. */
  function Shift(p: Pos, d: Dir): Pos {
    Pos(p.row + d.dr, p.col + d.dc)
  }

  /** A direction of a sliding piece: each component -1, 0 or 1, not both 0. */
  predicate IsUnit(d: Dir) {
    -1 <= d.dr <= 1 && -1 <= d.dc <= 1 && d != Dir(0, 0)
  }

  /** `k * x` for a direction component `x` in -1..1, written without multiplication. */
  function Scale(k: int, x: int): int {
    if x > 0 then k else if x < 0 then -k else 0
  }

  /** The square `k` steps from `p` in direction `d`. */
  function Step(p: Pos, d: Dir, k: int): Pos {
    Pos(p.row + Scale(k, d.dr), p.col + Scale(k, d.dc))
  }

  /** How many steps in direction `d` lead from `p` to `e`, read off the
      component that moves; it is the true distance only when `e` lies on
      that line, which `Step(p, d, StepsTo(p, d, e)) == e` tests. */
  function StepsTo(p: Pos, d: Dir, e: Pos): int {
    if d.dr != 0 then Scale(e.row - p.row, d.dr) else Scale(e.col - p.col, d.dc)
  }

  /** Steps a ray along one axis can still take before leaving rows or columns 1..8. */
  function Remaining(x: int, dx: int): int {
    if dx > 0 then 9 - x else if dx < 0 then x else 0
  }

  /** `moveUtility`, continued from square `cur`: walk from `cur` in
      direction `d`; stop before the board's edge or a friendly piece;
      otherwise add the square, and stop after it if it held an enemy. */
  function Ray(b: Board, pc: Piece, from: Pos, d: Dir, cur: Pos): (r: set<Move>)
    requires IsUnit(d)
    ensures forall m :: m in r ==>
      m.start == from && m.promotion == None && OnBoard(m.end) && !IsSameColor(pc, Get(b, m.end))
    decreases Remaining(cur.row, d.dr) + Remaining(cur.col, d.dc)
  {
    var next := Shift(cur, d);
    if !OnBoard(next) || IsSameColor(pc, Get(b, next)) then {}
    else if CanCapture(pc, Get(b, next)) then {Move(from, next, None)}
    else {Move(from, next, None)} + Ray(b, pc, from, d, next)
  }

  /** The moves of a sliding piece: one `moveUtility` ray per direction. */
  function Slide(b: Board, pc: Piece, from: Pos, dirs: seq<Dir>): (r: set<Move>)
    requires forall i :: 0 <= i < |dirs| ==> IsUnit(dirs[i])
    ensures forall m :: m in r ==>
      m.start == from && m.promotion == None && OnBoard(m.end) && !IsSameColor(pc, Get(b, m.end))
  {
    if dirs == [] then {}
    else Ray(b, pc, from, dirs[0], from) + Slide(b, pc, from, dirs[1..])
  }

  /** The bishop's increments, in source order. */
  const DiagonalDirs: seq<Dir> := [Dir(1, 1), Dir(1, -1), Dir(-1, 1), Dir(-1, -1)]

  /** The rook's increments, in source order. */
  const StraightDirs: seq<Dir> := [Dir(1, 0), Dir(0, -1), Dir(-1, 0), Dir(0, 1)]

  /** The king's offsets, in source order. */
  const KingOffsets: seq<Dir> :=
    [Dir(1, 1), Dir(1, 0), Dir(1, -1), Dir(0, 1), Dir(0, -1), Dir(-1, 1), Dir(-1, 0), Dir(-1, -1)]

  /** The knight's offsets, in source order. */
  const KnightOffsets: seq<Dir> :=
    [Dir(2, 1), Dir(1, 2), Dir(2, -1), Dir(-1, 2), Dir(-2, -1), Dir(-1, -2), Dir(-2, 1), Dir(1, -2)]

  /** `kingAndKnightHelperUtil`: the single move by offset `d`, kept when the
      target is on the board and is empty or holds an enemy. */
  function Leap(b: Board, pc: Piece, from: Pos, d: Dir): (r: set<Move>)
    ensures forall m :: m in r ==>
      m == Move(from, Shift(from, d), None) && OnBoard(m.end) && !IsSameColor(pc, Get(b, m.end))
  {
    var to := Shift(from, d);
    if OnBoard(to) then
      if Get(b, to) == None then {Move(from, to, None)}
      else if CanCapture(pc, Get(b, to)) then {Move(from, to, None)}
      else {}
    else {}
  }

  /** The moves of a king or knight: one `Leap` per offset. */
  function Leaps(b: Board, pc: Piece, from: Pos, ds: seq<Dir>): (r: set<Move>)
    ensures forall m :: m in r ==>
      m.start == from && m.promotion == None && OnBoard(m.end) && !IsSameColor(pc, Get(b, m.end))
  {
    if ds == [] then {} else Leap(b, pc, from, ds[0]) + Leaps(b, pc, from, ds[1..])
  }

  /** The kinds a pawn may promote to. */
  const PromotionKinds: set<Kind> := {Queen, Rook, Bishop, Knight}

  /** The promotion loop: every move ending on `row` is replaced by one move
      per promotion kind; the others are kept as they are. */
  function Promote(ms: set<Move>, row: int): (r: set<Move>)
    requires forall m :: m in ms ==> m.promotion == None
    ensures forall m :: m in r <==>
      Move(m.start, m.end, None) in ms
      && (if m.end.row == row then m.promotion.Some? && m.promotion.value in PromotionKinds
          else m.promotion == None)
  {
    (set m | m in ms && m.end.row != row)
    + (set m, k | m in ms && m.end.row == row && k in PromotionKinds :: Move(m.start, m.end, Some(k)))
  }

  /** A pawn's diagonal capture towards column offset `side`; the source
      swallows the out-of-range index, so a target outside the array gives nothing. */
  function PawnCapture(b: Board, pc: Piece, from: Pos, side: int): (r: set<Move>)
    ensures forall m :: m in r ==>
      m == Move(from, m.end, None) && InArray(m.end) && CanCapture(pc, Get(b, m.end))
  {
    var to := Pos(from.row + Forward(pc.color), from.col + side);
    if InArray(to) && CanCapture(pc, Get(b, to)) then {Move(from, to, None)} else {}
  }

  /** A pawn's forward moves: one step onto an empty cell, and from the
      starting row a second step onto an empty cell beyond it. */
  function PawnPushes(b: Board, pc: Piece, from: Pos): (r: set<Move>)
    requires InArray(Pos(from.row + Forward(pc.color), from.col))
    ensures forall m :: m in r ==>
      m == Move(from, m.end, None) && InArray(m.end) && Get(b, m.end) == None
  {
    var one := Pos(from.row + Forward(pc.color), from.col);
    var two := Pos(from.row + 2 * Forward(pc.color), from.col);
    if Get(b, one) != None then {}
    else if from.row == StartRow(pc.color) && Get(b, two) == None then
      {Move(from, one, None), Move(from, two, None)}
    else {Move(from, one, None)}
  }

  /** The pawn branch of `pieceMoves`: captures, pushes, then promotion. */
  function PawnMoves(b: Board, pc: Piece, from: Pos): (r: set<Move>)
    requires InArray(Pos(from.row + Forward(pc.color), from.col))
    ensures forall m :: m in r ==>
      m.start == from && InArray(m.end) && !IsSameColor(pc, Get(b, m.end))
  {
    var plain := PawnCapture(b, pc, from, 1) + PawnCapture(b, pc, from, -1) + PawnPushes(b, pc, from);
    Promote(plain, PromotionRow(pc.color))
  }

  /** What `pieceMoves` needs in order not to throw: a pawn's forward probe
      is made outside any handler, so the square ahead must be an array index.
      (A white pawn on row 8 fails this; a black pawn on row 1 does not, and
      probes the index-0 row.) */
  predicate CanGenerate(pc: Piece, from: Pos) {
    pc.kind == Pawn ==> InArray(Pos(from.row + Forward(pc.color), from.col))
  }

  /** `pieceMoves(board, pos)` for piece `pc`. Bishop and queen run the
      diagonal rays, rook and queen the straight rays, and king, knight and
      pawn their own branches. */
  function PieceMoves(b: Board, pc: Piece, from: Pos): (r: set<Move>)
    requires CanGenerate(pc, from)
    ensures forall m :: m in r ==> m.start == from && InArray(m.end)
    ensures forall m :: m in r ==> !IsSameColor(pc, Get(b, m.end))
  {
    match pc.kind
    case Bishop => Slide(b, pc, from, DiagonalDirs)
    case Rook => Slide(b, pc, from, StraightDirs)
    case Queen => Slide(b, pc, from, DiagonalDirs) + Slide(b, pc, from, StraightDirs)
    case King => Leaps(b, pc, from, KingOffsets)
    case Knight => Leaps(b, pc, from, KnightOffsets)
    case Pawn => PawnMoves(b, pc, from)
  }
}
