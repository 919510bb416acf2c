/** Properties of the game state machine: where the king is found, what
    `validMoves` offers, when castling is offered, what `makeMove` does and
    refuses, and how the terminal queries relate. */
module GameProperties {
  import opened ChessTypes
  import opened ChessBoard
  import opened ChessPiece
  import opened PieceProperties
  import opened ChessGame

  /** A side with exactly one king on the board: the king search finds it. */
  lemma KingPositionOfOnlyKing(b: Board, c: Color, k: Pos)
    requires OnBoard(k) && Get(b, k) == Some(Piece(c, King))
    requires forall p :: OnBoard(p) && p != k ==> Get(b, p) != Some(Piece(c, King))
    ensures KingPosition(b, c) == k
  {
    var r := KingSearch(b, c, 0);
    assert ScanIndex(k) < 64;
  }

  /** Some piece of colour `side` on the board has a move ending on `target`. */
  ghost predicate Attacked(b: Board, target: Pos, side: Color)
    requires PawnsCanStep(b, side)
  {
    exists p :: OnBoard(p) && Owned(b, p, side) && target in Targets(b, Get(b, p).value, p)
  }

  /** Some piece of colour `side` on a square at or after scan position `i`
      has a move ending on `target`. */
  ghost predicate AttackedFrom(b: Board, target: Pos, side: Color, i: int)
    requires PawnsCanStep(b, side) && 0 <= i <= 64
  {
    exists j :: i <= j < 64 && Owned(b, Square(j), side) && target in Targets(b, Get(b, Square(j)).value, Square(j))
  }

  /** The scan from position `i` on finds an attacker exactly when one
      stands on a square at or after `i` in scan order. */
  lemma {:induction false} AttackScanExact(b: Board, target: Pos, side: Color, i: int)
    requires PawnsCanStep(b, side) && 0 <= i <= 64
    ensures AttackScan(b, target, side, i) <==> AttackedFrom(b, target, side, i)
    decreases 64 - i
  {
    if i < 64 {
      AttackScanExact(b, target, side, i + 1);
    }
  }

  /** Every square is visited by the scan from position 0. */
  lemma AttackedCovered(b: Board, target: Pos, side: Color)
    requires PawnsCanStep(b, side)
    ensures Attacked(b, target, side) <==> AttackedFrom(b, target, side, 0)
  {
    if Attacked(b, target, side) {
      var p :| OnBoard(p) && Owned(b, p, side) && target in Targets(b, Get(b, p).value, p);
      assert Square(ScanIndex(p)) == p;
    }
    if AttackedFrom(b, target, side, 0) {
      var j :| 0 <= j < 64 && Owned(b, Square(j), side) && target in Targets(b, Get(b, Square(j)).value, Square(j));
      var p := Square(j);
    }
  }

  /** The scan of `evaluateBoardForCheck`, which stops at the first hit,
      answers whether any attacker exists. */
  lemma InCheckExact(b: Board, c: Color)
    requires PawnsCanStep(b, Other(c))
    ensures InCheck(b, c) <==> Attacked(b, KingPosition(b, c), Other(c))
  {
    var t := KingPosition(b, c);
    AttackScanExact(b, t, Other(c), 0);
    AttackedCovered(b, t, Other(c));
  }

  /** No move from a real square ends on the empty (0, 0) cell. */
  lemma MovesAvoidCorner(b: Board, pc: Piece, from: Pos, m: Move)
    requires OnBoard(from) && CanGenerate(pc, from) && Get(b, Pos(0, 0)) == None
    requires m in PieceMoves(b, pc, from)
    ensures m.end != Pos(0, 0)
  {
    PieceMovesExact(b, pc, from, m);
  }

  /** A side whose only king stands on `k` is not in check when the pattern
      of no enemy piece covers `k`, whatever stands in between. */
  lemma NotInCheckByReach(b: Board, c: Color, k: Pos)
    requires PawnsCanStep(b, Other(c))
    requires OnBoard(k) && Get(b, k) == Some(Piece(c, King))
    requires forall p :: OnBoard(p) && p != k ==> Get(b, p) != Some(Piece(c, King))
    requires forall p :: OnBoard(p) && Owned(b, p, Other(c)) ==> !Reaches(Get(b, p).value, p, k)
    ensures !InCheck(b, c)
  {
    KingPositionOfOnlyKing(b, c, k);
    InCheckExact(b, c);
    if Attacked(b, k, Other(c)) {
      var p :| OnBoard(p) && Owned(b, p, Other(c)) && k in Targets(b, Get(b, p).value, p);
      var m :| m in PieceMoves(b, Get(b, p).value, p) && m.end == k;
      MovesWithinReach(b, Get(b, p).value, p, m);
    }
  }

  /** A side whose only king stands on `k` is in check as soon as one enemy
      piece has a move ending on `k`. */
  lemma InCheckByMove(b: Board, c: Color, k: Pos, p: Pos, m: Move)
    requires PawnsCanStep(b, Other(c))
    requires OnBoard(k) && Get(b, k) == Some(Piece(c, King))
    requires forall q :: OnBoard(q) && q != k ==> Get(b, q) != Some(Piece(c, King))
    requires OnBoard(p) && Owned(b, p, Other(c))
    requires m in PieceMoves(b, Get(b, p).value, p) && m.end == k
    ensures InCheck(b, c)
  {
    KingPositionOfOnlyKing(b, c, k);
    InCheckExact(b, c);
    assert k in Targets(b, Get(b, p).value, p);
  }

  /** Without a king (and with the (0, 0) cell empty, as on any well-formed
      board) a side is never in check: the search reports (0, 0) and no
      move of the other side ends there. */
  lemma NoKingNoCheck(b: Board, c: Color)
    requires PawnsCanStep(b, Other(c))
    requires forall p :: OnBoard(p) ==> Get(b, p) != Some(Piece(c, King))
    requires Get(b, Pos(0, 0)) == None
    ensures KingPosition(b, c) == Pos(0, 0)
    ensures !InCheck(b, c)
  {
    InCheckExact(b, c);
    if InCheck(b, c) {
      var p :| OnBoard(p) && Owned(b, p, Other(c)) && Pos(0, 0) in Targets(b, Get(b, p).value, p);
      var m :| m in PieceMoves(b, Get(b, p).value, p) && m.end == Pos(0, 0);
      MovesAvoidCorner(b, Get(b, p).value, p, m);
    }
  }

  /** A move that `validMoves` offers is either one of the piece's own moves
      (as the reference definition describes them) after which its side is
      not in check, or, for a king only, a castling move; and every such
      move is offered. */
  lemma ValidMovesExact(g: Game, from: Pos, m: Move)
    requires ScanSafeAt(g.board, from) && ValidMoves(g, from).Some?
    ensures var pc := Get(g.board, from).value;
      CanGenerate(pc, from)
      && (m in ValidMoves(g, from).value <==>
            (Generates(g.board, pc, from, m) && !InCheck(TryMove(g.board, m), pc.color))
            || (pc.kind == King && AllCastleMoves(g, pc.color).Some? && m in AllCastleMoves(g, pc.color).value))
  {
    var pc := Get(g.board, from).value;
    PieceMovesExact(g.board, pc, from, m);
  }

  /** `validMoves` throws exactly on an index outside the array, an empty
      square, a pawn whose forward probe leaves the array, or a king whose
      castling scan faults. */
  lemma ValidMovesFails(g: Game, from: Pos)
    requires ScanSafeAt(g.board, from)
    ensures ValidMoves(g, from).None? <==>
      !InArray(from) || Get(g.board, from) == None || !CanGenerate(Get(g.board, from).value, from)
      || (Get(g.board, from).value.kind == King && AllCastleMoves(g, Get(g.board, from).value.color).None?)
  {
  }

  /** The kingside and queenside castling moves of colour `c`. */
  function KingsideCastle(c: Color): Move {
    Move(Pos(HomeRow(c), 5), Pos(HomeRow(c), 7), None)
  }

  function QueensideCastle(c: Color): Move {
    Move(Pos(HomeRow(c), 5), Pos(HomeRow(c), 3), None)
  }

  /** The conditions one side of castling checks: the squares the king
      passes (`via`) and lands on (`to`) are empty, the king is not in check
      on either, and the history scan finds nothing against it. */
  ghost predicate CastleOpen(g: Game, c: Color, via: int, to: int, rookCol: int)
    requires PawnsCanStep(g.board, Other(c))
    requires 1 <= via <= 8 && 1 <= to <= 8 && 1 <= rookCol <= 8
  {
    CastleStepsSane(g.board, c, via, to);
    Get(g.board, Pos(HomeRow(c), via)) == None && Get(g.board, Pos(HomeRow(c), to)) == None
    && !InCheck(CastleStep1(g.board, c, via), c)
    && !InCheck(CastleStep2(g.board, c, via, to), c)
    && ScanHistory(History(g), HomeRow(c), c, rookCol) == Clear
  }

  /** One side offers its castling move exactly when its conditions hold. */
  lemma CastleSideExact(g: Game, c: Color, via: int, to: int, rookCol: int, m: Move)
    requires PawnsCanStep(g.board, Other(c))
    requires 1 <= via <= 8 && 1 <= to <= 8 && 1 <= rookCol <= 8
    requires CastleSide(g, c, via, to, rookCol).Some?
    ensures m in CastleSide(g, c, via, to, rookCol).value <==>
      m == Move(Pos(HomeRow(c), 5), Pos(HomeRow(c), to), None) && CastleOpen(g, c, via, to, rookCol)
  {
  }

  /** A castling move is offered exactly when the side is not in check and
      that side's conditions hold: for kingside, columns 6 and 7; for
      queenside, only columns 4 and 3 (column 2 is never looked at). */
  lemma CastlingExact(g: Game, c: Color, m: Move)
    requires PawnsCanStep(g.board, Other(c)) && AllCastleMoves(g, c).Some?
    ensures m in AllCastleMoves(g, c).value <==>
      !InCheck(g.board, c)
      && ((m == KingsideCastle(c) && CastleOpen(g, c, 6, 7, 8))
          || (m == QueensideCastle(c) && CastleOpen(g, c, 4, 3, 1)))
  {
    if !InCheck(g.board, c) {
      CastleSideExact(g, c, 6, 7, 8, m);
      CastleSideExact(g, c, 4, 3, 1, m);
    }
  }

  /** One side of castling offers nothing, without looking at the history,
      when the king's path is occupied. */
  lemma CastleSideOccupied(g: Game, c: Color, via: int, to: int, rookCol: int)
    requires PawnsCanStep(g.board, Other(c))
    requires 1 <= via <= 8 && 1 <= to <= 8 && 1 <= rookCol <= 8
    requires Get(g.board, Pos(HomeRow(c), via)) != None || Get(g.board, Pos(HomeRow(c), to)) != None
    ensures CastleSide(g, c, via, to, rookCol) == Some({})
  {
  }

  /** `allCastleMoves` throws only when one side's history scan does. */
  lemma CastlingDefined(g: Game, c: Color)
    requires PawnsCanStep(g.board, Other(c))
    ensures AllCastleMoves(g, c).None? <==>
      !InCheck(g.board, c) && (CastleSide(g, c, 6, 7, 8).None? || CastleSide(g, c, 4, 3, 1).None?)
  {
  }

  /** `allCastleMoves` offers nothing while the side is in check. */
  lemma NoCastlingInCheck(g: Game, c: Color)
    requires PawnsCanStep(g.board, Other(c)) && InCheck(g.board, c)
    ensures AllCastleMoves(g, c) == Some({})
  {
  }

  /** With an empty history (a fresh game, or a board just loaded with
      `setBoard` on one) the scan cannot fault, and castling depends on the
      board alone. Nothing checks that a king or rook stands on its home
      square. */
  lemma CastlingWithoutHistory(g: Game, c: Color)
    requires PawnsCanStep(g.board, Other(c)) && History(g) == []
    ensures AllCastleMoves(g, c).Some?
    ensures ScanHistory(History(g), HomeRow(c), c, 8) == Clear
    ensures ScanHistory(History(g), HomeRow(c), c, 1) == Clear
  {
  }

  /** The occupant `x` of a square passes the history test against kind
      `k`: it is present, not of kind `k` and not of the castling colour. */
  predicate Unlike(x: Option<Piece>, c: Color, k: Kind) {
    x.Some? && x.value.kind != k && x.value.color != c
  }

  /** One board of the history lets the scan go on: both the (row, 5) piece
      and the (row, rookCol) piece pass the test. */
  predicate ScanPasses(b: Board, row: int, c: Color, rookCol: int)
    requires InArray(Pos(row, 5)) && InArray(Pos(row, rookCol))
  {
    Unlike(Get(b, Pos(row, 5)), c, King) && Unlike(Get(b, Pos(row, rookCol)), c, Rook)
  }

  /** The history scan is clear exactly when every board passes the test,
      and it faults only on a board with an empty (row, 5) or rook square. */
  lemma {:induction false} ScanHistoryExact(h: seq<Board>, row: int, c: Color, rookCol: int)
    requires InArray(Pos(row, 5)) && InArray(Pos(row, rookCol))
    ensures ScanHistory(h, row, c, rookCol) == Clear <==>
      forall i :: 0 <= i < |h| ==> ScanPasses(h[i], row, c, rookCol)
    ensures ScanHistory(h, row, c, rookCol) == Fault ==>
      exists i :: 0 <= i < |h| && (Get(h[i], Pos(row, 5)) == None || Get(h[i], Pos(row, rookCol)) == None)
  {
    if h != [] {
      ScanHistoryExact(h[1..], row, c, rookCol);
      if ScanHistory(h, row, c, rookCol) == Fault && ScanHistory(h[1..], row, c, rookCol) == Fault {
        var i :| 0 <= i < |h[1..]| && (Get(h[1..][i], Pos(row, 5)) == None || Get(h[1..][i], Pos(row, rookCol)) == None);
        assert h[1..][i] == h[i + 1];
      }
      if forall i :: 0 <= i < |h| ==> ScanPasses(h[i], row, c, rookCol) {
        assert ScanPasses(h[0], row, c, rookCol);
        forall i | 0 <= i < |h[1..]|
          ensures ScanPasses(h[1..][i], row, c, rookCol)
        {
          assert h[1..][i] == h[i + 1];
        }
      }
    }
  }

  /** The live board is part of the history from the first move on, so a
      king of colour `c` on (home row, 5) blocks the scan at that entry:
      after any move since the game was created or its board was set,
      castling is never offered. */
  lemma CastlingAfterMove(g: Game, c: Color)
    requires PawnsCanStep(g.board, Other(c)) && g.live > 0
    requires Get(g.board, Pos(HomeRow(c), 5)) == Some(Piece(c, King))
    ensures AllCastleMoves(g, c).Some? ==> AllCastleMoves(g, c).value == {}
  {
    var row := HomeRow(c);
    var h := History(g);
    assert h[|g.frozen|] == g.board;
    assert !ScanPasses(h[|g.frozen|], row, c, 8) && !ScanPasses(h[|g.frozen|], row, c, 1);
    ScanHistoryExact(h, row, c, 8);
    ScanHistoryExact(h, row, c, 1);
  }

  /** A side whose only king has moved from `e` to `k` is not in check when
      no enemy piece's pattern covers `k`; the rest of the board is as before. */
  lemma SafeAfterStep(b: Board, b2: Board, c: Color, k: Pos, e: Pos)
    requires OnBoard(k) && OnBoard(e) && k != e && PawnsCanStep(b2, Other(c))
    requires Get(b2, k) == Some(Piece(c, King)) && Get(b2, e) == None
    requires forall q :: OnBoard(q) && q != k && q != e ==> Get(b2, q) == Get(b, q)
    requires forall p :: OnBoard(p) && p != e ==> Get(b, p) != Some(Piece(c, King))
    requires forall p :: OnBoard(p) && Owned(b, p, Other(c)) ==> !Reaches(Get(b, p).value, p, k)
    ensures !InCheck(b2, c)
  {
    forall p | OnBoard(p) && Owned(b2, p, Other(c))
      ensures !Reaches(Get(b2, p).value, p, k)
    {
      assert Get(b2, p) == Get(b, p);
    }
    NotInCheckByReach(b2, c, k);
  }

  /** The two boards of the castle walk differ from `b` only on the home
      row: the (row, 5) occupant has moved to `via`, then on to `to`. */
  lemma CastleStepFrame(b: Board, c: Color, via: int, to: int)
    requires 1 <= via <= 8 && 1 <= to <= 8 && via != 5 && to != 5 && via != to
    requires Get(b, Pos(HomeRow(c), via)) == None
    ensures var row := HomeRow(c); var b1 := CastleStep1(b, c, via);
      Get(b1, Pos(row, via)) == Get(b, Pos(row, 5)) && Get(b1, Pos(row, 5)) == None
      && forall q :: OnBoard(q) && q != Pos(row, via) && q != Pos(row, 5) ==> Get(b1, q) == Get(b, q)
    ensures var row := HomeRow(c); var b2 := CastleStep2(b, c, via, to);
      Get(b2, Pos(row, to)) == Get(b, Pos(row, 5)) && Get(b2, Pos(row, 5)) == None
      && forall q :: OnBoard(q) && q != Pos(row, to) && q != Pos(row, 5) ==> Get(b2, q) == Get(b, q)
  {
    var row := HomeRow(c);
    var b1 := CastleStep1(b, c, via);
    assert forall q :: OnBoard(q) ==> Get(Copy(b), q) == Get(b, q);
    assert forall q :: OnBoard(q) && q != Pos(row, via) && q != Pos(row, to) ==>
      Get(CastleStep2(b, c, via, to), q) == Get(b1, q);
  }

  /** One side of castling is offered when its conditions hold in terms of
      the position itself: the only king of colour `c` stands on (home row,
      5), the squares `via` and `to` are empty and no enemy piece's pattern
      covers either, and every board of the history passes the test. */
  lemma CastleSideByReach(g: Game, c: Color, via: int, to: int, rookCol: int)
    requires PawnsCanStep(g.board, Other(c))
    requires 1 <= via <= 8 && 1 <= to <= 8 && 1 <= rookCol <= 8 && via != 5 && to != 5 && via != to
    requires Get(g.board, Pos(HomeRow(c), 5)) == Some(Piece(c, King))
    requires forall p :: OnBoard(p) && p != Pos(HomeRow(c), 5) ==> Get(g.board, p) != Some(Piece(c, King))
    requires Get(g.board, Pos(HomeRow(c), via)) == None && Get(g.board, Pos(HomeRow(c), to)) == None
    requires forall p :: OnBoard(p) && Owned(g.board, p, Other(c)) ==>
      !Reaches(Get(g.board, p).value, p, Pos(HomeRow(c), via))
      && !Reaches(Get(g.board, p).value, p, Pos(HomeRow(c), to))
    requires forall i :: 0 <= i < |History(g)| ==> ScanPasses(History(g)[i], HomeRow(c), c, rookCol)
    ensures CastleSide(g, c, via, to, rookCol) == Some({Move(Pos(HomeRow(c), 5), Pos(HomeRow(c), to), None)})
  {
    var row := HomeRow(c);
    CastleStepsSane(g.board, c, via, to);
    CastleStepFrame(g.board, c, via, to);
    SafeAfterStep(g.board, CastleStep1(g.board, c, via), c, Pos(row, via), Pos(row, 5));
    SafeAfterStep(g.board, CastleStep2(g.board, c, via, to), c, Pos(row, to), Pos(row, 5));
    ScanHistoryExact(History(g), row, c, rookCol);
  }

  /** Checkmate implies check, stalemate implies no check, the two never
      hold together, and each means the side has no valid move. */
  lemma TerminalStates(g: Game, c: Color)
    requires PawnsCanStep(g.board, Other(c))
    ensures IsInCheckmate(g, c) == Some(true) ==> IsInCheck(g, c) && AllValidMovesForTeam(g, c) == Some({})
    ensures IsInStalemate(g, c) == Some(true) ==> !IsInCheck(g, c) && AllValidMovesForTeam(g, c) == Some({})
    ensures !(IsInCheckmate(g, c) == Some(true) && IsInStalemate(g, c) == Some(true))
  {
  }

  /** The union from position `i` on fails exactly when one of the entries
      from there on is `None`... */
  lemma {:induction false} GatherDefined(t: seq<Option<set<Move>>>, i: nat)
    requires i <= |t|
    ensures Gather(t, i).Some? <==> forall j :: i <= j < |t| ==> t[j].Some?
    decreases |t| - i
  {
    if i < |t| {
      GatherDefined(t, i + 1);
    }
  }

  /** ... otherwise it holds every entry from there on... */
  lemma {:induction false} GatherCovers(t: seq<Option<set<Move>>>, i: nat, j: nat)
    requires i <= j < |t| && Gather(t, i).Some?
    ensures t[j].Some? && t[j].value <= Gather(t, i).value
    decreases |t| - i
  {
    if i < j {
      GatherCovers(t, i + 1, j);
    }
  }

  /** ... and nothing else. */
  lemma {:induction false} GatherSound(t: seq<Option<set<Move>>>, i: nat, m: Move)
    requires i <= |t| && Gather(t, i).Some? && m in Gather(t, i).value
    ensures exists j :: i <= j < |t| && t[j].Some? && m in t[j].value
    decreases |t| - i
  {
    if m !in t[i].value {
      GatherSound(t, i + 1, m);
    }
  }

  /** The entry of an on-board square in the team's table. */
  lemma TeamEntry(g: Game, c: Color, p: Pos)
    requires PawnsCanStep(g.board, Other(c)) && OnBoard(p)
    ensures TeamTable(g, c)[ScanIndex(p)]
         == if Owned(g.board, p, c) then ValidMoves(g, p) else Some({})
  {
  }

  /** The team's moves exist unless the valid moves of one of its pieces throw. */
  lemma AllValidMovesDefined(g: Game, c: Color)
    requires PawnsCanStep(g.board, Other(c))
    ensures AllValidMovesForTeam(g, c).Some? <==>
      forall p :: OnBoard(p) && Owned(g.board, p, c) ==> ValidMoves(g, p).Some?
  {
    var t := TeamTable(g, c);
    GatherDefined(t, 0);
    if AllValidMovesForTeam(g, c).Some? {
      forall p | OnBoard(p) && Owned(g.board, p, c)
        ensures ValidMoves(g, p).Some?
      {
        TeamEntry(g, c, p);
      }
    } else {
      var j :| 0 <= j < 64 && t[j].None?;
      TeamEntry(g, c, Square(j));
    }
  }

  /** Every valid move of every piece of the team is among the team's moves. */
  lemma AllValidMovesCover(g: Game, c: Color, p: Pos)
    requires PawnsCanStep(g.board, Other(c)) && AllValidMovesForTeam(g, c).Some?
    requires OnBoard(p) && Owned(g.board, p, c)
    ensures ValidMoves(g, p).Some? && ValidMoves(g, p).value <= AllValidMovesForTeam(g, c).value
  {
    TeamEntry(g, c, p);
    GatherCovers(TeamTable(g, c), 0, ScanIndex(p));
  }

  /** Every move of the team is a valid move of one of its pieces. */
  lemma AllValidMovesSound(g: Game, c: Color, m: Move)
    requires PawnsCanStep(g.board, Other(c)) && AllValidMovesForTeam(g, c).Some? && m in AllValidMovesForTeam(g, c).value
    ensures exists p ::
      OnBoard(p) && Owned(g.board, p, c) && ValidMoves(g, p).Some? && m in ValidMoves(g, p).value
  {
    var t := TeamTable(g, c);
    GatherSound(t, 0, m);
    var j :| 0 <= j < 64 && t[j].Some? && m in t[j].value;
    TeamEntry(g, c, Square(j));
  }

  /** `setBoard` then `getBoard` hands back the board that was set, when it
      is well formed. */
  lemma SetThenGetBoard(g: Game, b: Board)
    requires WellFormed(b)
    ensures GetBoard(SetBoard(g, b)) == b
  {
  }
}
