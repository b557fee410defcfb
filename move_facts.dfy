/**
 * Properties of raw move generation and attack detection.
 */
module MoveFacts {
  import opened Pieces
  import opened Moves

  // ---------------------------------------------------------------------------
  // Rays

  /** A ray is a run of consecutive squares along d starting at (r, c). */
  lemma {:induction false} RaySteps(b: Board, color: Color, r: int, c: int, d: (int, int))
    requires IsUnit(d)
    decreases RayFuel(r, c, d)
    ensures var ray := Ray(b, color, r, c, d);
      |ray| > 0 ==> ray[0].row == r && ray[0].col == c
    ensures var ray := Ray(b, color, r, c, d);
      forall i | 0 <= i < |ray| - 1 :: ray[i + 1].row == ray[i].row + d.0 && ray[i + 1].col == ray[i].col + d.1
  {
    var ray := Ray(b, color, r, c, d);
    if InBounds(r, c) && b[r][c].None? {
      RaySteps(b, color, r + d.0, c + d.1, d);
      var rest := Ray(b, color, r + d.0, c + d.1, d);
      assert ray == [Pos(r, c)] + rest;
      forall i | 0 <= i < |ray| - 1
        ensures ray[i + 1].row == ray[i].row + d.0 && ray[i + 1].col == ray[i].col + d.1
      {
        if i > 0 {
          assert ray[i] == rest[i - 1] && ray[i + 1] == rest[i];
        }
      }
    }
  }

  /** All squares of a ray but the last are empty; the last is empty or an enemy;
      and the ray stops early only at the board edge or at a piece of the mover's colour. */
  lemma {:induction false} RayStops(b: Board, color: Color, r: int, c: int, d: (int, int))
    requires IsUnit(d)
    decreases RayFuel(r, c, d)
    ensures var ray := Ray(b, color, r, c, d);
      forall i | 0 <= i < |ray| - 1 :: At(b, ray[i]).None?
    ensures var ray := Ray(b, color, r, c, d);
      |ray| > 0 ==> !OwnedBy(b, ray[|ray| - 1], color)
    ensures var ray := Ray(b, color, r, c, d);
      |ray| == 0 ==> !InBounds(r, c) || OwnedBy(b, Pos(r, c), color)
    ensures var ray := Ray(b, color, r, c, d);
      |ray| > 0 && At(b, ray[|ray| - 1]).None? ==>
        var nr, nc := ray[|ray| - 1].row + d.0, ray[|ray| - 1].col + d.1;
        !InBounds(nr, nc) || OwnedBy(b, Pos(nr, nc), color)
  {
    var ray := Ray(b, color, r, c, d);
    if InBounds(r, c) && b[r][c].None? {
      RayStops(b, color, r + d.0, c + d.1, d);
      var rest := Ray(b, color, r + d.0, c + d.1, d);
      assert ray == [Pos(r, c)] + rest;
      if rest == [] {
        assert ray == [Pos(r, c)];
      } else {
        assert ray[|ray| - 1] == rest[|rest| - 1];
      }
      forall i | 0 <= i < |ray| - 1
        ensures At(b, ray[i]).None?
      {
        if i > 0 {
          assert ray[i] == rest[i - 1];
        }
      }
    }
  }

  lemma RayNotOwn(b: Board, color: Color, r: int, c: int, d: (int, int), t: Pos)
    requires IsUnit(d)
    requires t in Ray(b, color, r, c, d)
    ensures !OwnedBy(b, t, color)
  {
    RayStops(b, color, r, c, d);
    var ray := Ray(b, color, r, c, d);
    var i :| 0 <= i < |ray| && ray[i] == t;
  }

  // ---------------------------------------------------------------------------
  // Sliders

  /** t lies on the ray of a slider at p in direction d. */
  predicate OnRay(b: Board, p: Pos, color: Color, d: (int, int), t: Pos)
    requires IsUnit(d)
  {
    t in Ray(b, color, p.row + d.0, p.col + d.1, d)
  }

  /** A slider's targets are exactly the union of its rays. */
  lemma {:induction false} SlidesMember(b: Board, p: Pos, color: Color, dirs: seq<(int, int)>, t: Pos)
    requires AllUnit(dirs)
    ensures t in Slides(b, p, color, dirs) <==> exists i | 0 <= i < |dirs| :: OnRay(b, p, color, dirs[i], t)
  {
    if dirs != [] {
      var rest := dirs[1..];
      SlidesMember(b, p, color, rest, t);
      assert Slides(b, p, color, dirs) ==
        Ray(b, color, p.row + dirs[0].0, p.col + dirs[0].1, dirs[0]) + Slides(b, p, color, rest);
      if t in Slides(b, p, color, rest) {
        var i :| 0 <= i < |rest| && OnRay(b, p, color, rest[i], t);
        assert rest[i] == dirs[i + 1];
      }
      if exists i | 0 <= i < |dirs| :: OnRay(b, p, color, dirs[i], t) {
        var i :| 0 <= i < |dirs| && OnRay(b, p, color, dirs[i], t);
        if i > 0 {
          assert rest[i - 1] == dirs[i];
        }
      }
    }
  }

  /** Sliding along the concatenation of two direction tables is sliding along each in turn. */
  lemma {:induction false} SlidesAppend(b: Board, p: Pos, color: Color, d1: seq<(int, int)>, d2: seq<(int, int)>)
    requires AllUnit(d1) && AllUnit(d2)
    ensures AllUnit(d1 + d2)
    ensures Slides(b, p, color, d1 + d2) == Slides(b, p, color, d1) + Slides(b, p, color, d2)
  {
    if d1 == [] {
      assert d1 + d2 == d2;
    } else {
      assert (d1 + d2)[1..] == d1[1..] + d2;
      assert (d1 + d2)[0] == d1[0];
      SlidesAppend(b, p, color, d1[1..], d2);
    }
  }

  /** A queen moves as a rook followed by a bishop from the same square. */
  lemma QueenIsRookThenBishop(b: Board, p: Pos, ignoreCheck: bool, ctx: Ctx)
    requires CtxOk(ctx)
    requires At(b, p).Some? && At(b, p).value.kind == Queen
    ensures var color := At(b, p).value.color;
      RawMoves(b, p, ignoreCheck, ctx) == Slides(b, p, color, RookDirs) + Slides(b, p, color, BishopDirs)
  {
    SlidesAppend(b, p, At(b, p).value.color, RookDirs, BishopDirs);
  }

  // ---------------------------------------------------------------------------
  // Knights and kings

  /** t is the square p + d. */
  predicate Offset(p: Pos, d: (int, int), t: Pos) {
    t.row == p.row + d.0 && t.col == p.col + d.1
  }

  /** A leaper's targets are exactly the on-board offsets from p not held by its own colour. */
  lemma {:induction false} LeapsMember(b: Board, p: Pos, color: Color, offsets: seq<(int, int)>, t: Pos)
    ensures t in Leaps(b, p, color, offsets) <==>
      (exists i | 0 <= i < |offsets| :: Offset(p, offsets[i], t)) && !OwnedBy(b, t, color)
  {
    if offsets != [] {
      var rest := offsets[1..];
      LeapsMember(b, p, color, rest, t);
      assert Leaps(b, p, color, offsets) == LeapTarget(b, p, color, offsets[0]) + Leaps(b, p, color, rest);
      if exists i | 0 <= i < |rest| :: Offset(p, rest[i], t) {
        var i :| 0 <= i < |rest| && Offset(p, rest[i], t);
        assert rest[i] == offsets[i + 1];
      }
      if exists i | 0 <= i < |offsets| :: Offset(p, offsets[i], t) {
        var i :| 0 <= i < |offsets| && Offset(p, offsets[i], t);
        if i > 0 {
          assert rest[i - 1] == offsets[i];
        }
      }
    }
  }

  /** A king's step never goes more than one row or column. */
  lemma KingStepAdjacent(b: Board, p: Pos, color: Color, t: Pos)
    requires t in Leaps(b, p, color, KingOffsets)
    ensures -1 <= t.row - p.row <= 1 && -1 <= t.col - p.col <= 1
  {
    LeapsMember(b, p, color, KingOffsets, t);
  }

  /** For rook, bishop, queen, knight and king, no raw target holds a piece of the mover's colour. */
  lemma RawTargetNotOwn(b: Board, p: Pos, ignoreCheck: bool, ctx: Ctx, t: Pos)
    requires CtxOk(ctx)
    requires At(b, p).Some? && At(b, p).value.kind != Pawn
    requires t in RawMoves(b, p, ignoreCheck, ctx)
    ensures !OwnedBy(b, t, At(b, p).value.color)
  {
    var piece := At(b, p).value;
    match piece.kind
    case Rook => SlidesNotOwn(b, p, piece.color, RookDirs, t);
    case Bishop => SlidesNotOwn(b, p, piece.color, BishopDirs, t);
    case Queen => SlidesNotOwn(b, p, piece.color, QueenDirs, t);
    case Knight => LeapsMember(b, p, piece.color, KnightOffsets, t);
    case King =>
      if t in Leaps(b, p, piece.color, KingOffsets) {
        LeapsMember(b, p, piece.color, KingOffsets, t);
      }
  }

  lemma SlidesNotOwn(b: Board, p: Pos, color: Color, dirs: seq<(int, int)>, t: Pos)
    requires AllUnit(dirs)
    requires t in Slides(b, p, color, dirs)
    ensures !OwnedBy(b, t, color)
  {
    SlidesMember(b, p, color, dirs, t);
    var i :| 0 <= i < |dirs| && OnRay(b, p, color, dirs[i], t);
    RayNotOwn(b, color, p.row + dirs[i].0, p.col + dirs[i].1, dirs[i], t);
  }

  // ---------------------------------------------------------------------------
  // Pawns

  /** The four ways a pawn moves: one step forward onto an empty square; two steps
      from its start row over two empty squares; diagonally forward onto an enemy;
      diagonally forward behind the en-passant target standing beside it. */
  lemma PawnTargets(b: Board, p: Pos, color: Color, lastDouble: Option<Pos>, t: Pos)
    requires EpOk(lastDouble)
    ensures t in PawnMoves(b, p, color, lastDouble) <==>
      var dir := Dir(color);
      || (t.row == p.row + dir && t.col == p.col && At(b, t).None?)
      || (p.row == StartRow(color) && t.row == p.row + 2 * dir && t.col == p.col &&
          b[p.row + dir][p.col].None? && At(b, t).None?)
      || (t.row == p.row + dir && (t.col == p.col - 1 || t.col == p.col + 1) &&
          At(b, t).Some? && At(b, t).value.color != color)
      || (t.row == p.row + dir && (t.col == p.col - 1 || t.col == p.col + 1) &&
          lastDouble == Some(Pos(p.row, t.col)))
  {
    assert PawnSides[0] == -1 && PawnSides[1..] == [1];
    assert [1][0] == 1 && [1][1..] == [];
    assert PawnCaptures(b, p, color, [1]) == PawnCapture(b, p, color, 1);
    assert PawnCaptures(b, p, color, PawnSides) ==
      PawnCapture(b, p, color, -1) + PawnCapture(b, p, color, 1);
    assert EnPassants(p, color, lastDouble, [1]) == EnPassant(p, color, lastDouble, 1);
    assert EnPassants(p, color, lastDouble, PawnSides) ==
      EnPassant(p, color, lastDouble, -1) + EnPassant(p, color, lastDouble, 1);
  }

  /** A pawn changes rows by two only with the double step from its start row, which
      lands on row 4 (white) or row 3 (black). */
  lemma PawnTwoRowsOnlyFromStart(b: Board, p: Pos, color: Color, lastDouble: Option<Pos>, t: Pos)
    requires EpOk(lastDouble)
    requires t in PawnMoves(b, p, color, lastDouble)
    requires t.row - p.row == 2 || p.row - t.row == 2
    ensures p.row == StartRow(color) && t.col == p.col
    ensures t.row == (if color == White then 4 else 3)
  {
    PawnTargets(b, p, color, lastDouble, t);
  }

  /** No piece has its own square among its raw targets. */
  lemma RawTargetIsNotOrigin(b: Board, p: Pos, ignoreCheck: bool, ctx: Ctx, t: Pos)
    requires CtxOk(ctx)
    requires t in RawMoves(b, p, ignoreCheck, ctx)
    ensures t != p
  {
    var piece := At(b, p).value;
    if piece.kind == Pawn {
      PawnTargets(b, p, piece.color, ctx.lastDouble, t);
    } else {
      RawTargetNotOwn(b, p, ignoreCheck, ctx, t);
    }
  }

  // ---------------------------------------------------------------------------
  // Castling

  /** A king's raw target two columns away is a castling target, produced exactly when
      castling is not switched off, the king has not moved, the stored check flag is
      clear, that side's rook has not moved, the squares between are empty and the
      king's three squares are not attacked. */
  lemma CastlingTargets(b: Board, p: Pos, ignoreCheck: bool, ctx: Ctx, t: Pos)
    requires CtxOk(ctx)
    requires At(b, p).Some? && At(b, p).value.kind == King
    requires t.col - p.col == 2 || p.col - t.col == 2
    ensures t in RawMoves(b, p, ignoreCheck, ctx) <==>
      var color := At(b, p).value.color;
      var flags := FlagsOf(ctx.moved, color);
      var home := HomeRow(color);
      var opp := Opponent(color);
      && !ignoreCheck && !flags.king && !ctx.inCheck && t.row == home
      && (|| (t.col == 6 && !flags.rookRight && SquaresEmpty(b, home, 5, 6) && SquaresSafe(b, home, [4, 5, 6], opp, ctx))
          || (t.col == 2 && !flags.rookLeft && SquaresEmpty(b, home, 1, 3) && SquaresSafe(b, home, [2, 3, 4], opp, ctx)))
  {
    var color := At(b, p).value.color;
    if t in Leaps(b, p, color, KingOffsets) {
      KingStepAdjacent(b, p, color, t);
    }
  }

  // ---------------------------------------------------------------------------
  // Attacks

  /** Attack detection reuses raw moves, so a pawn "attacks" the empty square in front of it. */
  lemma PawnPushIsAttack(b: Board, q: Pos, t: Pos, attacker: Color, ctx: Ctx)
    requires CtxOk(ctx)
    requires At(b, q) == Some(Piece(attacker, Pawn))
    requires t.row == q.row + Dir(attacker) && t.col == q.col && At(b, t).None?
    ensures Attacked(b, t, attacker, ctx)
  {
    PawnTargets(b, q, attacker, ctx.lastDouble, t);
    assert Attacks(b, Pos(q.row, q.col), t, attacker, ctx);
  }

  /** ... and does not attack an empty square diagonally in front of it, unless that
      square is behind the en-passant target. */
  lemma PawnDiagonalToEmptyIsNoAttack(b: Board, q: Pos, t: Pos, attacker: Color, ctx: Ctx)
    requires CtxOk(ctx)
    requires At(b, q) == Some(Piece(attacker, Pawn))
    requires t.row == q.row + Dir(attacker) && (t.col == q.col - 1 || t.col == q.col + 1) && At(b, t).None?
    requires ctx.lastDouble != Some(Pos(q.row, t.col))
    ensures !Attacks(b, q, t, attacker, ctx)
  {
    PawnTargets(b, q, attacker, ctx.lastDouble, t);
  }

  /** Without castling, move generation reads only the board and the en-passant target:
      attack detection does not depend on the castling flags or the stored check flag. */
  lemma RawMovesIgnoringCheckReadOnlyEnPassant(b: Board, p: Pos, ctx1: Ctx, ctx2: Ctx)
    requires CtxOk(ctx1) && ctx1.lastDouble == ctx2.lastDouble
    ensures CtxOk(ctx2)
    ensures RawMoves(b, p, true, ctx1) == RawMoves(b, p, true, ctx2)
  {
  }

  lemma KingInCheckReadsOnlyEnPassant(b: Board, color: Color, ctx1: Ctx, ctx2: Ctx)
    requires CtxOk(ctx1) && ctx1.lastDouble == ctx2.lastDouble
    ensures CtxOk(ctx2)
    ensures KingInCheck(b, color, ctx1) == KingInCheck(b, color, ctx2)
  {
    match KingPos(b, color)
    case None =>
    case Some(k) =>
      forall q: Pos
        ensures Attacks(b, q, k, Opponent(color), ctx1) == Attacks(b, q, k, Opponent(color), ctx2)
      {
        RawMovesIgnoringCheckReadOnlyEnPassant(b, q, ctx1, ctx2);
      }
      assert Attacked(b, k, Opponent(color), ctx1) == Attacked(b, k, Opponent(color), ctx2);
  }

  // ---------------------------------------------------------------------------
  // Black still on its home rows

  /** Black occupies all of rows 0 and 1, has no piece elsewhere, and has only pawns on row 1:
      the situation at the start of the game and after white's first move. */
  ghost predicate BlackAtHome(b: Board) {
    forall q: Pos ::
      (q.row <= 1 ==> OwnedBy(b, q, Black)) &&
      (OwnedBy(b, q, Black) ==> q.row <= 1 && (q.row == 1 ==> At(b, q).value.kind == Pawn))
  }

  /** A black slider on row 0 behind a full row 1 has no target. */
  lemma {:induction false} BackRankSlidesEmpty(b: Board, q: Pos, dirs: seq<(int, int)>)
    requires BlackAtHome(b) && q.row == 0 && AllUnit(dirs)
    ensures Slides(b, q, Black, dirs) == []
  {
    if dirs != [] {
      var d := dirs[0];
      assert IsUnit(d);
      var r, c := q.row + d.0, q.col + d.1;
      if InBounds(r, c) {
        assert OwnedBy(b, Pos(r, c), Black);
      }
      assert Ray(b, Black, r, c, d) == [];
      assert AllUnit(dirs[1..]) by {
        forall i | 0 <= i < |dirs[1..]| ensures IsUnit(dirs[1..][i]) {
          assert dirs[1..][i] == dirs[i + 1];
        }
      }
      BackRankSlidesEmpty(b, q, dirs[1..]);
    }
  }

  /** While black is at home, it attacks nothing below row 3. */
  lemma BlackAtHomeReach(b: Board, q: Pos, t: Pos, ctx: Ctx)
    requires CtxOk(ctx) && BlackAtHome(b) && Attacks(b, q, t, Black, ctx)
    ensures t.row <= 3
  {
    var piece := At(b, q).value;
    assert q.row <= 1;
    match piece.kind
    case Pawn => PawnTargets(b, q, Black, ctx.lastDouble, t);
    case Knight =>
      LeapsMember(b, q, Black, KnightOffsets, t);
      var i :| 0 <= i < |KnightOffsets| && Offset(q, KnightOffsets[i], t);
    case King =>
      LeapsMember(b, q, Black, KingOffsets, t);
      var i :| 0 <= i < |KingOffsets| && Offset(q, KingOffsets[i], t);
    case Rook => BackRankSlidesEmpty(b, q, RookDirs);
    case Bishop => BackRankSlidesEmpty(b, q, BishopDirs);
    case Queen => BackRankSlidesEmpty(b, q, QueenDirs);
  }

  /** While black is at home, a white king on row 4 or below is not in check. */
  lemma WhiteSafeWhileBlackAtHome(b: Board, ctx: Ctx)
    requires CtxOk(ctx) && BlackAtHome(b)
    requires forall q: Pos | At(b, q) == Some(Piece(White, King)) :: q.row >= 4
    ensures !KingInCheck(b, White, ctx)
  {
    match KingPos(b, White)
    case None =>
    case Some(k) =>
      forall r, c | 0 <= r < 8 && 0 <= c < 8
        ensures !Attacks(b, Pos(r, c), k, Black, ctx)
      {
        if Attacks(b, Pos(r, c), k, Black, ctx) {
          BlackAtHomeReach(b, Pos(r, c), k, ctx);
        }
      }
  }
}
