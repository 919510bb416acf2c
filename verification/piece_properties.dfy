/** What `pieceMoves` generates, stated without the generator: for every
    kind, a move is produced exactly when a declarative condition on the
    start square, the end square and the board holds. */
module PieceProperties {
  import opened ChessTypes
  import opened ChessBoard
  import opened ChessPiece

  function Abs(x: int): nat {
    if x < 0 then -x else x
  }

  function Sign(x: int): int {
    if x > 0 then 1 else if x < 0 then -1 else 0
  }

  /** The unit direction in which `e` lies as seen from `p`. */
  function Toward(p: Pos, e: Pos): Dir {
    Dir(Sign(e.row - p.row), Sign(e.col - p.col))
  }

  /** A sliding piece `pc` on `from` can reach `e` in direction `d`: `e` is
      on that ray and on the board, every square strictly between is on the
      board and empty, and `e` is empty or holds an enemy. */
  predicate Slides(b: Board, pc: Piece, from: Pos, d: Dir, e: Pos) {
    var k := StepsTo(from, d, e);
    1 <= k && e == Step(from, d, k) && OnBoard(e) && !IsSameColor(pc, Get(b, e))
    && forall j :: 1 <= j < k ==> OnBoard(Step(from, d, j)) && Get(b, Step(from, d, j)) == None
  }

  /** A move with no promotion piece. */
  predicate Plain(m: Move, from: Pos) {
    m.start == from && m.promotion == None
  }

  lemma StepShift(p: Pos, d: Dir, j: int)
    requires IsUnit(d)
    ensures Step(p, d, j + 1) == Step(Shift(p, d), d, j)
    ensures Step(p, d, 1) == Shift(p, d)
  {
  }

  /** A walk that reaches anything passes its first square, which is on
      the board and not friendly. */
  lemma SlidesFirst(b: Board, pc: Piece, from: Pos, d: Dir, e: Pos)
    requires IsUnit(d)
    ensures Slides(b, pc, from, d, e) ==>
      OnBoard(Shift(from, d)) && !IsSameColor(pc, Get(b, Shift(from, d)))
  {
    StepShift(from, d, 0);
    if Slides(b, pc, from, d, e) && StepsTo(from, d, e) > 1 {
      assert OnBoard(Step(from, d, 1)) && Get(b, Step(from, d, 1)) == None;
    }
  }

  /** The first square of a ray ends the walk (it is off the board or friendly). */
  lemma SlidesBlocked(b: Board, pc: Piece, from: Pos, d: Dir, e: Pos)
    requires IsUnit(d)
    requires !OnBoard(Shift(from, d)) || IsSameColor(pc, Get(b, Shift(from, d)))
    ensures !Slides(b, pc, from, d, e)
  {
    SlidesFirst(b, pc, from, d, e);
  }

  /** The first square of a ray holds an enemy: the walk takes it and stops. */
  lemma SlidesCapture(b: Board, pc: Piece, from: Pos, d: Dir, e: Pos)
    requires IsUnit(d)
    requires OnBoard(Shift(from, d)) && CanCapture(pc, Get(b, Shift(from, d)))
    ensures Slides(b, pc, from, d, e) <==> e == Shift(from, d)
  {
    StepShift(from, d, 0);
  }

  /** The first square of a ray is empty: what the walk reaches after it
      was reachable from the start. */
  lemma SlidesOpenBack(b: Board, pc: Piece, from: Pos, d: Dir, e: Pos)
    requires IsUnit(d)
    requires OnBoard(Shift(from, d)) && Get(b, Shift(from, d)) == None
    requires Slides(b, pc, Shift(from, d), d, e)
    ensures Slides(b, pc, from, d, e)
  {
    var next := Shift(from, d);
    StepShift(from, d, 0);
    var k := StepsTo(next, d, e) + 1;
    assert StepsTo(from, d, e) == k;
    forall j | 1 <= j < k
      ensures OnBoard(Step(from, d, j)) && Get(b, Step(from, d, j)) == None
    {
      StepShift(from, d, j - 1);
    }
    StepShift(from, d, k - 1);
  }

  /** The first square of a ray is empty: anything reachable beyond it is
      reachable from it. */
  lemma SlidesOpenForth(b: Board, pc: Piece, from: Pos, d: Dir, e: Pos)
    requires IsUnit(d)
    requires Slides(b, pc, from, d, e) && e != Shift(from, d)
    ensures Slides(b, pc, Shift(from, d), d, e)
  {
    var next := Shift(from, d);
    StepShift(from, d, 0);
    var k := StepsTo(from, d, e);
    assert StepsTo(next, d, e) == k - 1;
    forall j | 1 <= j < k - 1
      ensures OnBoard(Step(next, d, j)) && Get(b, Step(next, d, j)) == None
    {
      StepShift(from, d, j);
    }
    StepShift(from, d, k - 1);
  }

  /** The first square of a ray is empty: the walk takes it and goes on from there. */
  lemma SlidesOpen(b: Board, pc: Piece, from: Pos, d: Dir, e: Pos)
    requires IsUnit(d)
    requires OnBoard(Shift(from, d)) && Get(b, Shift(from, d)) == None
    ensures Slides(b, pc, from, d, e) <==> e == Shift(from, d) || Slides(b, pc, Shift(from, d), d, e)
  {
    StepShift(from, d, 0);
    if Slides(b, pc, from, d, e) && e != Shift(from, d) {
      SlidesOpenForth(b, pc, from, d, e);
    }
    if Slides(b, pc, Shift(from, d), d, e) {
      SlidesOpenBack(b, pc, from, d, e);
    }
  }

  /** `moveUtility` produces exactly the squares the ray reaches. */
  lemma {:induction false} RayExact(b: Board, pc: Piece, from: Pos, d: Dir, cur: Pos, m: Move)
    requires IsUnit(d)
    ensures m in Ray(b, pc, from, d, cur) <==> Plain(m, from) && Slides(b, pc, cur, d, m.end)
    decreases Remaining(cur.row, d.dr) + Remaining(cur.col, d.dc)
  {
    var next := Shift(cur, d);
    if !OnBoard(next) || IsSameColor(pc, Get(b, next)) {
      SlidesBlocked(b, pc, cur, d, m.end);
    } else if CanCapture(pc, Get(b, next)) {
      SlidesCapture(b, pc, cur, d, m.end);
    } else {
      RayExact(b, pc, from, d, next, m);
      SlidesOpen(b, pc, cur, d, m.end);
    }
  }

  /** A ray reaches only squares that lie in its own direction. */
  lemma SlidesToward(b: Board, pc: Piece, from: Pos, d: Dir, e: Pos)
    requires IsUnit(d) && Slides(b, pc, from, d, e)
    ensures d == Toward(from, e)
  {
  }

  /** The union of rays over `dirs` holds exactly the squares reachable in
      one of those directions; the direction is the one `e` lies in. */
  lemma {:induction false} SlideExact(b: Board, pc: Piece, from: Pos, dirs: seq<Dir>, m: Move)
    requires forall i :: 0 <= i < |dirs| ==> IsUnit(dirs[i])
    ensures m in Slide(b, pc, from, dirs) <==>
      Plain(m, from) && Toward(from, m.end) in dirs && Slides(b, pc, from, Toward(from, m.end), m.end)
  {
    if dirs != [] {
      SlideExact(b, pc, from, dirs[1..], m);
      RayExact(b, pc, from, dirs[0], from, m);
      if Slides(b, pc, from, dirs[0], m.end) {
        SlidesToward(b, pc, from, dirs[0], m.end);
      }
      assert Toward(from, m.end) in dirs <==>
        Toward(from, m.end) == dirs[0] || Toward(from, m.end) in dirs[1..];
    }
  }

  /** `e` is on a diagonal through `from` (other than `from` itself) only
      if it differs in both row and column; the ray predicate then pins the
      exact diagonal. */
  predicate Diagonal(from: Pos, e: Pos) {
    e.row != from.row && e.col != from.col
  }

  /** `e` differs from `from` in exactly one coordinate. */
  predicate Straight(from: Pos, e: Pos) {
    (e.row == from.row) != (e.col == from.col)
  }

  lemma DirsByShape(from: Pos, e: Pos)
    ensures Toward(from, e) in DiagonalDirs <==> Diagonal(from, e)
    ensures Toward(from, e) in StraightDirs <==> Straight(from, e)
  {
  }

  /** The two leaping patterns. */
  predicate KingStep(from: Pos, e: Pos) {
    Abs(e.row - from.row) <= 1 && Abs(e.col - from.col) <= 1 && e != from
  }

  predicate KnightJump(from: Pos, e: Pos) {
    var dr := Abs(e.row - from.row);
    var dc := Abs(e.col - from.col);
    (dr == 1 && dc == 2) || (dr == 2 && dc == 1)
  }

  /** The displacement from `from` to `e`. */
  function Offset(from: Pos, e: Pos): Dir {
    Dir(e.row - from.row, e.col - from.col)
  }

  lemma OffsetTables(from: Pos, e: Pos)
    ensures Offset(from, e) in KingOffsets <==> KingStep(from, e)
    ensures Offset(from, e) in KnightOffsets <==> KnightJump(from, e)
  {
  }

  /** The union of leaps over `ds` holds exactly the on-board, non-friendly
      squares whose displacement from `from` is one of `ds`. */
  lemma {:induction false} LeapsExact(b: Board, pc: Piece, from: Pos, ds: seq<Dir>, m: Move)
    ensures m in Leaps(b, pc, from, ds) <==>
      Plain(m, from) && Offset(from, m.end) in ds && OnBoard(m.end) && !IsSameColor(pc, Get(b, m.end))
  {
    if ds != [] {
      LeapsExact(b, pc, from, ds[1..], m);
      assert Offset(from, m.end) in ds <==>
        Offset(from, m.end) == ds[0] || Offset(from, m.end) in ds[1..];
    }
  }

  /** The squares a pawn of `pc`'s colour on `from` may move to: one step
      ahead onto an empty square; two steps ahead from its starting row
      when both squares are empty; one step diagonally ahead onto an array
      cell holding an enemy. */
  predicate PawnTarget(b: Board, pc: Piece, from: Pos, e: Pos)
    requires InArray(Pos(from.row + Forward(pc.color), from.col))
  {
    var one := Pos(from.row + Forward(pc.color), from.col);
    (e == one && Get(b, one) == None)
    || (e == Pos(from.row + 2 * Forward(pc.color), from.col) && from.row == StartRow(pc.color)
        && Get(b, one) == None && Get(b, e) == None)
    || (e.row == from.row + Forward(pc.color) && Abs(e.col - from.col) == 1 && InArray(e)
        && CanCapture(pc, Get(b, e)))
  }

  /** A pawn move names a promotion kind exactly when it ends on the
      promotion row, and then one of queen, rook, bishop and knight. */
  predicate PromotionFits(pc: Piece, m: Move) {
    if m.end.row == PromotionRow(pc.color) then m.promotion.Some? && m.promotion.value in PromotionKinds
    else m.promotion == None
  }

  lemma PawnMovesExact(b: Board, pc: Piece, from: Pos, m: Move)
    requires InArray(Pos(from.row + Forward(pc.color), from.col))
    ensures m in PawnMoves(b, pc, from) <==>
      m.start == from && PawnTarget(b, pc, from, m.end) && PromotionFits(pc, m)
  {
    var plain := PawnCapture(b, pc, from, 1) + PawnCapture(b, pc, from, -1) + PawnPushes(b, pc, from);
    var m0 := Move(m.start, m.end, None);
    assert m0 in plain <==> m.start == from && PawnTarget(b, pc, from, m.end);
  }

  /** The reference definition of pseudo-legal moves, kind by kind. */
  predicate Generates(b: Board, pc: Piece, from: Pos, m: Move)
    requires CanGenerate(pc, from)
  {
    match pc.kind
    case Bishop =>
      Plain(m, from) && Diagonal(from, m.end) && Slides(b, pc, from, Toward(from, m.end), m.end)
    case Rook =>
      Plain(m, from) && Straight(from, m.end) && Slides(b, pc, from, Toward(from, m.end), m.end)
    case Queen =>
      Plain(m, from) && (Diagonal(from, m.end) || Straight(from, m.end))
      && Slides(b, pc, from, Toward(from, m.end), m.end)
    case King =>
      Plain(m, from) && KingStep(from, m.end) && OnBoard(m.end) && !IsSameColor(pc, Get(b, m.end))
    case Knight =>
      Plain(m, from) && KnightJump(from, m.end) && OnBoard(m.end) && !IsSameColor(pc, Get(b, m.end))
    case Pawn =>
      m.start == from && PawnTarget(b, pc, from, m.end) && PromotionFits(pc, m)
  }

  /** `pieceMoves` generates a move exactly when the reference definition allows it. */
  lemma PieceMovesExact(b: Board, pc: Piece, from: Pos, m: Move)
    requires CanGenerate(pc, from)
    ensures m in PieceMoves(b, pc, from) <==> Generates(b, pc, from, m)
  {
    match pc.kind
    case Bishop =>
      DirsByShape(from, m.end);
      SlideExact(b, pc, from, DiagonalDirs, m);
    case Rook =>
      DirsByShape(from, m.end);
      SlideExact(b, pc, from, StraightDirs, m);
    case Queen =>
      DirsByShape(from, m.end);
      SlideExact(b, pc, from, DiagonalDirs, m);
      SlideExact(b, pc, from, StraightDirs, m);
    case King =>
      OffsetTables(from, m.end);
      LeapsExact(b, pc, from, KingOffsets, m);
    case Knight =>
      OffsetTables(from, m.end);
      LeapsExact(b, pc, from, KnightOffsets, m);
    case Pawn => PawnMovesExact(b, pc, from, m);
  }

  /** A queen moves exactly as a bishop and a rook of its colour together. */
  lemma QueenIsBishopPlusRook(b: Board, c: Color, from: Pos)
    ensures PieceMoves(b, Piece(c, Queen), from)
         == PieceMoves(b, Piece(c, Bishop), from) + PieceMoves(b, Piece(c, Rook), from)
  {
    forall m
      ensures m in PieceMoves(b, Piece(c, Queen), from) <==>
        m in PieceMoves(b, Piece(c, Bishop), from) || m in PieceMoves(b, Piece(c, Rook), from)
    {
      PieceMovesExact(b, Piece(c, Queen), from, m);
      PieceMovesExact(b, Piece(c, Bishop), from, m);
      PieceMovesExact(b, Piece(c, Rook), from, m);
    }
  }

  /** The squares a piece's pattern covers from `from`, whatever stands on the board. */
  predicate Reaches(pc: Piece, from: Pos, e: Pos) {
    var dr := e.row - from.row;
    var dc := e.col - from.col;
    match pc.kind
    case King => KingStep(from, e)
    case Knight => KnightJump(from, e)
    case Bishop => dr != 0 && Abs(dr) == Abs(dc)
    case Rook => Straight(from, e)
    case Queen => Straight(from, e) || (dr != 0 && Abs(dr) == Abs(dc))
    case Pawn =>
      (dr == Forward(pc.color) && Abs(dc) <= 1)
      || (dr == 2 * Forward(pc.color) && dc == 0 && from.row == StartRow(pc.color))
  }

  /** Every generated move follows its kind's pattern. */
  lemma MovesWithinReach(b: Board, pc: Piece, from: Pos, m: Move)
    requires CanGenerate(pc, from) && m in PieceMoves(b, pc, from)
    ensures Reaches(pc, from, m.end)
  {
    PieceMovesExact(b, pc, from, m);
  }

  /** Only a pawn move onto its promotion row names a promotion kind, and
      then one of queen, rook, bishop and knight. */
  lemma MovesPromotion(b: Board, pc: Piece, from: Pos, m: Move)
    requires CanGenerate(pc, from) && m in PieceMoves(b, pc, from)
    ensures m.promotion.Some? ==>
      pc.kind == Pawn && m.end.row == PromotionRow(pc.color) && m.promotion.value in PromotionKinds
  {
    PieceMovesExact(b, pc, from, m);
  }

  /** From a real square of a well-formed board, and for a pawn not standing
      on its own promotion row, every move ends on the board. */
  lemma MovesStayOnBoard(b: Board, pc: Piece, from: Pos, m: Move)
    requires WellFormed(b) && OnBoard(from)
    requires !(pc.kind == Pawn && from.row == PromotionRow(pc.color))
    requires m in PieceMoves(b, pc, from)
    ensures m.start == from && OnBoard(m.end)
  {
    PieceMovesExact(b, pc, from, m);
  }

  /** An occupied cell holds either a friend or a capturable enemy, never
      both; an empty cell holds neither. */
  lemma FriendOrFoe(pc: Piece, x: Option<Piece>)
    ensures CanCapture(pc, x) <==> x.Some? && x.value.color == Other(pc.color)
    ensures x.Some? <==> IsSameColor(pc, x) || CanCapture(pc, x)
    ensures !(IsSameColor(pc, x) && CanCapture(pc, x))
  {
  }
}
