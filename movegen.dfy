/**
 * The engine's move generator and attack scanner as the loops it runs: moves are
 * pushed onto an accumulator, rays are walked square by square, and the board is
 * scanned row by row with an early return.  Each method is proved to compute the
 * specification function of the same concept in module Moves.
 */
module MoveGen {
  import opened Pieces
  import opened Moves

  /** Walks one ray from (r, c) in direction d: empty squares are pushed, the first
      occupied square ends the walk and is pushed only when it holds an enemy. */
  method WalkRay(b: Board, color: Color, r0: int, c0: int, d: (int, int), acc: seq<Pos>) returns (moves: seq<Pos>)
    requires IsUnit(d)
    ensures moves == acc + Ray(b, color, r0, c0, d)
  {
    moves := acc;
    var r, c := r0, c0;
    while InBounds(r, c)
      invariant acc + Ray(b, color, r0, c0, d) == moves + Ray(b, color, r, c, d)
      decreases RayFuel(r, c, d)
    {
      if b[r][c].None? {
        assert moves + Ray(b, color, r, c, d) == (moves + [Pos(r, c)]) + Ray(b, color, r + d.0, c + d.1, d);
        moves := moves + [Pos(r, c)];
      } else {
        if b[r][c].value.color != color {
          moves := moves + [Pos(r, c)];
        }
        return;
      }
      r, c := r + d.0, c + d.1;
    }
  }

  // One element of a direction or side list at a time: the lists are folded from the front.

  /** Appending a step and then the rest of a fold is appending the rest to the extended prefix. */
  lemma Regroup<T>(before: seq<T>, step: seq<T>, rest: seq<T>, after: seq<T>)
    requires after == before + step
    ensures before + (step + rest) == after + rest
  {
  }

  lemma SlidesStep(b: Board, p: Pos, color: Color, dirs: seq<(int, int)>, i: int)
    requires AllUnit(dirs) && 0 <= i < |dirs|
    ensures IsUnit(dirs[i])
    ensures Slides(b, p, color, dirs[i..]) ==
      Ray(b, color, p.row + dirs[i].0, p.col + dirs[i].1, dirs[i]) + Slides(b, p, color, dirs[i + 1..])
  {
    assert dirs[i..][0] == dirs[i] && dirs[i..][1..] == dirs[i + 1..];
  }

  lemma LeapsStep(b: Board, p: Pos, color: Color, offsets: seq<(int, int)>, i: int)
    requires 0 <= i < |offsets|
    ensures Leaps(b, p, color, offsets[i..]) == LeapTarget(b, p, color, offsets[i]) + Leaps(b, p, color, offsets[i + 1..])
  {
    assert offsets[i..][0] == offsets[i] && offsets[i..][1..] == offsets[i + 1..];
  }

  lemma CapturesStep(b: Board, p: Pos, color: Color, sides: seq<int>, i: int)
    requires 0 <= i < |sides|
    ensures PawnCaptures(b, p, color, sides[i..]) == PawnCapture(b, p, color, sides[i]) + PawnCaptures(b, p, color, sides[i + 1..])
  {
    assert sides[i..][0] == sides[i] && sides[i..][1..] == sides[i + 1..];
  }

  lemma EnPassantsStep(p: Pos, color: Color, lastDouble: Option<Pos>, sides: seq<int>, i: int)
    requires EpOk(lastDouble) && 0 <= i < |sides|
    ensures EnPassants(p, color, lastDouble, sides[i..]) ==
      EnPassant(p, color, lastDouble, sides[i]) + EnPassants(p, color, lastDouble, sides[i + 1..])
  {
    assert sides[i..][0] == sides[i] && sides[i..][1..] == sides[i + 1..];
  }

  /** Walks every ray of a slider (the while loops of the rook, bishop and queen cases). */
  method AddRays(b: Board, p: Pos, color: Color, dirs: seq<(int, int)>, acc: seq<Pos>) returns (moves: seq<Pos>)
    requires AllUnit(dirs)
    ensures moves == acc + Slides(b, p, color, dirs)
  {
    moves := acc;
    for i := 0 to |dirs|
      invariant moves + Slides(b, p, color, dirs[i..]) == acc + Slides(b, p, color, dirs)
    {
      var d := dirs[i];
      SlidesStep(b, p, color, dirs, i);
      ghost var before := moves;
      ghost var ray := Ray(b, color, p.row + d.0, p.col + d.1, d);
      ghost var rest := Slides(b, p, color, dirs[i + 1..]);
      moves := WalkRay(b, color, p.row + d.0, p.col + d.1, d, moves);
      Regroup(before, ray, rest, moves);
    }
  }

  /** Tries each offset of a knight or king once. */
  method AddLeaps(b: Board, p: Pos, color: Color, offsets: seq<(int, int)>, acc: seq<Pos>) returns (moves: seq<Pos>)
    ensures moves == acc + Leaps(b, p, color, offsets)
  {
    moves := acc;
    for i := 0 to |offsets|
      invariant moves + Leaps(b, p, color, offsets[i..]) == acc + Leaps(b, p, color, offsets)
    {
      LeapsStep(b, p, color, offsets, i);
      ghost var before := moves;
      ghost var rest := Leaps(b, p, color, offsets[i + 1..]);
      var r, c := p.row + offsets[i].0, p.col + offsets[i].1;
      if InBounds(r, c) {
        if b[r][c].None? || b[r][c].value.color != color {
          moves := moves + [Pos(r, c)];
        }
      }
      Regroup(before, LeapTarget(b, p, color, offsets[i]), rest, moves);
    }
  }

  /** The diagonal captures of a pawn, left side first. */
  method AddPawnCaptures(b: Board, p: Pos, color: Color, acc: seq<Pos>) returns (moves: seq<Pos>)
    ensures moves == acc + PawnCaptures(b, p, color, PawnSides)
  {
    var dir := Dir(color);
    moves := acc;
    for i := 0 to |PawnSides|
      invariant moves + PawnCaptures(b, p, color, PawnSides[i..]) == acc + PawnCaptures(b, p, color, PawnSides)
    {
      ghost var before := moves;
      ghost var rest := PawnCaptures(b, p, color, PawnSides[i + 1..]);
      CapturesStep(b, p, color, PawnSides, i);
      var r, c := p.row + dir, p.col + PawnSides[i];
      if InBounds(r, c) && b[r][c].Some? && b[r][c].value.color != color {
        moves := moves + [Pos(r, c)];
      }
      Regroup(before, PawnCapture(b, p, color, PawnSides[i]), rest, moves);
    }
  }

  /** The en-passant captures of a pawn, left side first. */
  method AddEnPassants(p: Pos, color: Color, lastDouble: Option<Pos>, acc: seq<Pos>) returns (moves: seq<Pos>)
    requires EpOk(lastDouble)
    ensures moves == acc + EnPassants(p, color, lastDouble, PawnSides)
  {
    var dir := Dir(color);
    moves := acc;
    for i := 0 to |PawnSides|
      invariant moves + EnPassants(p, color, lastDouble, PawnSides[i..]) ==
                acc + EnPassants(p, color, lastDouble, PawnSides)
    {
      ghost var before := moves;
      ghost var rest := EnPassants(p, color, lastDouble, PawnSides[i + 1..]);
      EnPassantsStep(p, color, lastDouble, PawnSides, i);
      var sideCol := p.col + PawnSides[i];
      if 0 <= sideCol < 8 {
        if lastDouble.Some? && lastDouble.value.row == p.row && lastDouble.value.col == sideCol {
          moves := moves + [Pos(p.row + dir, sideCol)];
        }
      }
      Regroup(before, EnPassant(p, color, lastDouble, PawnSides[i]), rest, moves);
    }
  }

  /** The pawn case: forward steps, then diagonal captures, then en passant. */
  method AddPawnMoves(b: Board, p: Pos, color: Color, lastDouble: Option<Pos>) returns (moves: seq<Pos>)
    requires EpOk(lastDouble)
    ensures moves == PawnMoves(b, p, color, lastDouble)
  {
    var dir := Dir(color);
    moves := [];
    if InBounds(p.row + dir, p.col) && b[p.row + dir][p.col].None? {
      moves := moves + [Pos(p.row + dir, p.col)];
      if p.row == StartRow(color) && b[p.row + 2 * dir][p.col].None? {
        moves := moves + [Pos(p.row + 2 * dir, p.col)];
      }
    }
    assert moves == PawnForward(b, p, color);
    moves := AddPawnCaptures(b, p, color, moves);
    moves := AddEnPassants(p, color, lastDouble, moves);
  }

  /** The raw targets of the piece at p, castling included unless ignoreCheck is set. */
  method CalculateRawMoves(b: Board, p: Pos, ignoreCheck: bool, ctx: Ctx) returns (moves: seq<Pos>)
    requires CtxOk(ctx)
    ensures moves == RawMoves(b, p, ignoreCheck, ctx)
    decreases if ignoreCheck then 0 else 4, 0
  {
    var piece := b[p.row][p.col];
    if piece.None? {
      return [];
    }
    var color := piece.value.color;
    moves := [];
    match piece.value.kind {
      case Pawn =>
        moves := AddPawnMoves(b, p, color, ctx.lastDouble);
      case Rook =>
        moves := AddRays(b, p, color, RookDirs, moves);
      case Bishop =>
        moves := AddRays(b, p, color, BishopDirs, moves);
      case Knight =>
        moves := AddLeaps(b, p, color, KnightOffsets, moves);
      case Queen =>
        moves := AddRays(b, p, color, QueenDirs, moves);
      case King =>
        moves := AddLeaps(b, p, color, KingOffsets, moves);
        if !ignoreCheck {
          var castling := CastlingMoves(b, color, ctx);
          moves := moves + castling;
        }
    }
  }

  /** The castling targets of the king: kingside then queenside, each when the king and that
      rook are unmoved, the stored check flag is clear, and the squares between are empty and
      not attacked. */
  method CastlingMoves(b: Board, color: Color, ctx: Ctx) returns (targets: seq<Pos>)
    requires CtxOk(ctx)
    ensures targets == Castling(b, color, ctx)
    decreases 3, 0
  {
    targets := [];
    var flags := FlagsOf(ctx.moved, color);
    if !flags.king && !ctx.inCheck {
      var home := HomeRow(color);
      var opp := Opponent(color);
      var kingside, queenside := [], [];
      if !flags.rookRight {
        var empty := AreSquaresEmpty(b, home, 5, 6);
        if empty {
          var safe := AreSquaresSafe(b, home, [4, 5, 6], opp, ctx);
          if safe {
            kingside := [Pos(home, 6)];
          }
        }
      }
      if !flags.rookLeft {
        var empty := AreSquaresEmpty(b, home, 1, 3);
        if empty {
          var safe := AreSquaresSafe(b, home, [2, 3, 4], opp, ctx);
          if safe {
            queenside := [Pos(home, 2)];
          }
        }
      }
      targets := kingside + queenside;
    }
  }

  /** Whether any piece of the attacker has t among its raw moves (castling ignored). */
  method IsSquareAttacked(b: Board, t: Pos, attacker: Color, ctx: Ctx) returns (attacked: bool)
    requires CtxOk(ctx)
    ensures attacked == Attacked(b, t, attacker, ctx)
    decreases 1, 1
  {
    for r := 0 to 8
      invariant forall rr, cc | 0 <= rr < r && 0 <= cc < 8 :: !Attacks(b, Pos(rr, cc), t, attacker, ctx)
    {
      for c := 0 to 8
        invariant forall rr, cc | 0 <= rr < r && 0 <= cc < 8 :: !Attacks(b, Pos(rr, cc), t, attacker, ctx)
        invariant forall cc | 0 <= cc < c :: !Attacks(b, Pos(r, cc), t, attacker, ctx)
      {
        var hit := PieceAttacks(b, Pos(r, c), t, attacker, ctx);
        if hit {
          return true;
        }
      }
    }
    return false;
  }

  /** Whether the square q holds a piece of the attacker with t among its raw moves. */
  method PieceAttacks(b: Board, q: Pos, t: Pos, attacker: Color, ctx: Ctx) returns (hit: bool)
    requires CtxOk(ctx)
    ensures hit == Attacks(b, q, t, attacker, ctx)
    decreases 1, 0
  {
    var piece := b[q.row][q.col];
    if piece.Some? && piece.value.color == attacker {
      var moves := CalculateRawMoves(b, q, true, ctx);
      hit := Contains(moves, t);
    } else {
      hit := false;
    }
  }

  /** Whether t occurs among the moves, scanning from the front. */
  method Contains(moves: seq<Pos>, t: Pos) returns (found: bool)
    ensures found == (t in moves)
  {
    for i := 0 to |moves|
      invariant t !in moves[..i]
    {
      if moves[i] == t {
        return true;
      }
    }
    assert moves[..|moves|] == moves;
    return false;
  }

  /** Whether every column from colStart to colEnd of the row is empty. */
  method AreSquaresEmpty(b: Board, row: Idx, colStart: Idx, colEnd: Idx) returns (empty: bool)
    ensures empty == SquaresEmpty(b, row, colStart, colEnd)
  {
    var c: int := colStart;
    while c <= colEnd
      invariant colStart <= c && (c <= colEnd + 1 || c == colStart)
      invariant forall k | colStart <= k < c :: b[row][k].None?
      decreases colEnd - c
    {
      if b[row][c].Some? {
        return false;
      }
      c := c + 1;
    }
    return true;
  }

  /** Whether none of the given columns of the row is attacked. */
  method AreSquaresSafe(b: Board, row: Idx, cols: seq<Idx>, attacker: Color, ctx: Ctx) returns (safe: bool)
    requires CtxOk(ctx)
    ensures safe == SquaresSafe(b, row, cols, attacker, ctx)
    decreases 2, 0
  {
    for i := 0 to |cols|
      invariant forall j | 0 <= j < i :: !Attacked(b, Pos(row, cols[j]), attacker, ctx)
    {
      var attacked := IsSquareAttacked(b, Pos(row, cols[i]), attacker, ctx);
      if attacked {
        return false;
      }
    }
    return true;
  }

  /** The first square, in row-major order, holding this colour's king. */
  method FindKing(b: Board, color: Color) returns (k: Option<Pos>)
    ensures k == KingPos(b, color)
  {
    for r := 0 to 8
      invariant KingFrom(b, color, r, 0) == KingPos(b, color)
    {
      for c := 0 to 8
        invariant KingFrom(b, color, r, c) == KingPos(b, color)
      {
        if b[r][c] == Some(Piece(color, King)) {
          return Some(Pos(r, c));
        }
      }
    }
    return None;
  }

  /** Whether this colour's king stands on a square the opponent attacks; false without a king. */
  method IsKingInCheck(b: Board, color: Color, ctx: Ctx) returns (check: bool)
    requires CtxOk(ctx)
    ensures check == KingInCheck(b, color, ctx)
  {
    var kingPos := FindKing(b, color);
    if kingPos.None? {
      return false;
    }
    check := IsSquareAttacked(b, kingPos.value, Opponent(color), ctx);
  }
}
