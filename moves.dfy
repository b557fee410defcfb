/**
 * Raw ("pseudo-legal") move generation and attack detection, as specification
 * functions.  Raw moves ignore whether the mover's own king is left attacked.
 *
 * Attack detection reuses raw move generation with castling switched off
 * (the ignoreCheck flag), while castling asks whether squares are attacked:
 *   RawMoves(false) -> Castling -> SquaresSafe -> Attacked -> Attacks -> RawMoves(true).
 * The recursion ends because RawMoves(true) never reaches Castling; the
 * decreases clauses below rank the members of the cycle on that flag.
 */
module Moves {
  import opened Pieces

  /** What move generation reads besides the board: the castling flags, the stored
      "side to move is in check" flag, and the pawn that advanced two squares last ply. */
  datatype Ctx = Ctx(moved: Moved, inCheck: bool, lastDouble: Option<Pos>)

  /** An en-passant target lies strictly inside the board's rows, so the square behind it exists. */
  predicate EpOk(lastDouble: Option<Pos>) {
    lastDouble.Some? ==> 1 <= lastDouble.value.row <= 6
  }

  predicate CtxOk(ctx: Ctx) {
    EpOk(ctx.lastDouble)
  }

  // ---------------------------------------------------------------------------
  // Sliding pieces

  /** Squares left before a ray in direction d leaves the board. */
  function RayFuel(r: int, c: int, d: (int, int)): int {
    (if d.0 > 0 then 8 - r else if d.0 < 0 then r + 1 else 0) +
    (if d.1 > 0 then 8 - c else if d.1 < 0 then c + 1 else 0)
  }

  /** The squares a slider of this colour reaches along d, starting at (r, c):
      empty squares are taken, the first occupied square ends the ray and is
      taken only when it holds an enemy piece. */
  function Ray(b: Board, color: Color, r: int, c: int, d: (int, int)): seq<Pos>
    requires IsUnit(d)
    decreases RayFuel(r, c, d)
  {
    if !InBounds(r, c) then []
    else match b[r][c]
      case None => [Pos(r, c)] + Ray(b, color, r + d.0, c + d.1, d)
      case Some(q) => if q.color != color then [Pos(r, c)] else []
  }

  /** The rays of a slider at p, one per direction, in the order of the direction table. */
  function Slides(b: Board, p: Pos, color: Color, dirs: seq<(int, int)>): seq<Pos>
    requires AllUnit(dirs)
  {
    if dirs == [] then []
    else Ray(b, color, p.row + dirs[0].0, p.col + dirs[0].1, dirs[0]) + Slides(b, p, color, dirs[1..])
  }

  // ---------------------------------------------------------------------------
  // Knights and kings

  /** The target p + d, when it is on the board and not held by a piece of the mover's colour. */
  function LeapTarget(b: Board, p: Pos, color: Color, d: (int, int)): seq<Pos> {
    var r, c := p.row + d.0, p.col + d.1;
    if InBounds(r, c) && (b[r][c].None? || b[r][c].value.color != color) then [Pos(r, c)] else []
  }

  function Leaps(b: Board, p: Pos, color: Color, offsets: seq<(int, int)>): seq<Pos> {
    if offsets == [] then []
    else LeapTarget(b, p, color, offsets[0]) + Leaps(b, p, color, offsets[1..])
  }

  // ---------------------------------------------------------------------------
  // Pawns

  const PawnSides: seq<int> := [-1, 1]

  /** One step forward onto an empty square, then a second one from the start row. */
  function PawnForward(b: Board, p: Pos, color: Color): seq<Pos> {
    var dir := Dir(color);
    if InBounds(p.row + dir, p.col) && b[p.row + dir][p.col].None? then
      [Pos(p.row + dir, p.col)] +
      (if p.row == StartRow(color) && b[p.row + 2 * dir][p.col].None? then [Pos(p.row + 2 * dir, p.col)] else [])
    else []
  }

  /** A diagonal step forward onto a square held by an enemy piece. */
  function PawnCapture(b: Board, p: Pos, color: Color, dc: int): seq<Pos> {
    var r, c := p.row + Dir(color), p.col + dc;
    if InBounds(r, c) && b[r][c].Some? && b[r][c].value.color != color then [Pos(r, c)] else []
  }

  function PawnCaptures(b: Board, p: Pos, color: Color, sides: seq<int>): seq<Pos> {
    if sides == [] then []
    else PawnCapture(b, p, color, sides[0]) + PawnCaptures(b, p, color, sides[1..])
  }

  /** The diagonal step behind the square beside p, when that square is the en-passant target.
      Neither the target square nor the piece beside p is inspected. */
  function EnPassant(p: Pos, color: Color, lastDouble: Option<Pos>, dc: int): seq<Pos>
    requires EpOk(lastDouble)
  {
    var side := p.col + dc;
    if 0 <= side < 8 && lastDouble.Some? && lastDouble.value.row == p.row && lastDouble.value.col == side
    then [Pos(p.row + Dir(color), side)]
    else []
  }

  function EnPassants(p: Pos, color: Color, lastDouble: Option<Pos>, sides: seq<int>): seq<Pos>
    requires EpOk(lastDouble)
  {
    if sides == [] then []
    else EnPassant(p, color, lastDouble, sides[0]) + EnPassants(p, color, lastDouble, sides[1..])
  }

  function PawnMoves(b: Board, p: Pos, color: Color, lastDouble: Option<Pos>): seq<Pos>
    requires EpOk(lastDouble)
  {
    PawnForward(b, p, color) + PawnCaptures(b, p, color, PawnSides) + EnPassants(p, color, lastDouble, PawnSides)
  }

  // ---------------------------------------------------------------------------
  // Castling, raw moves and attacks (mutually recursive)

  /** Every column from `from` to `to` (inclusive) of the row is empty. */
  predicate SquaresEmpty(b: Board, row: Idx, from: Idx, to: Idx) {
    forall c | from <= c <= to :: b[row][c].None?
  }

  /** No square of the row in the given columns is attacked by the attacker. */
  predicate SquaresSafe(b: Board, row: Idx, cols: seq<Idx>, attacker: Color, ctx: Ctx)
    requires CtxOk(ctx)
    decreases 2, 0
  {
    forall i | 0 <= i < |cols| :: !Attacked(b, Pos(row, cols[i]), attacker, ctx)
  }

  /** The castling targets of a king of this colour, on its colour's back rank,
      judged from the flags and the stored check state rather than the board. */
  function Castling(b: Board, color: Color, ctx: Ctx): seq<Pos>
    requires CtxOk(ctx)
    decreases 3, 0
  {
    var flags := FlagsOf(ctx.moved, color);
    if !flags.king && !ctx.inCheck then
      var home := HomeRow(color);
      var opp := Opponent(color);
      (if !flags.rookRight && SquaresEmpty(b, home, 5, 6) && SquaresSafe(b, home, [4, 5, 6], opp, ctx)
       then [Pos(home, 6)] else []) +
      (if !flags.rookLeft && SquaresEmpty(b, home, 1, 3) && SquaresSafe(b, home, [2, 3, 4], opp, ctx)
       then [Pos(home, 2)] else [])
    else []
  }

  /** The raw targets of the piece at p; castling only when ignoreCheck is false. */
  function RawMoves(b: Board, p: Pos, ignoreCheck: bool, ctx: Ctx): seq<Pos>
    requires CtxOk(ctx)
    decreases if ignoreCheck then 0 else 4, 0
  {
    match At(b, p)
    case None => []
    case Some(piece) =>
      match piece.kind
      case Pawn => PawnMoves(b, p, piece.color, ctx.lastDouble)
      case Rook => Slides(b, p, piece.color, RookDirs)
      case Bishop => Slides(b, p, piece.color, BishopDirs)
      case Knight => Leaps(b, p, piece.color, KnightOffsets)
      case Queen => Slides(b, p, piece.color, QueenDirs)
      case King =>
        Leaps(b, p, piece.color, KingOffsets) + (if ignoreCheck then [] else Castling(b, piece.color, ctx))
  }

  /** The piece at q belongs to the attacker and has t among its raw moves (castling ignored). */
  predicate Attacks(b: Board, q: Pos, t: Pos, attacker: Color, ctx: Ctx)
    requires CtxOk(ctx)
    decreases 1, 0
  {
    OwnedBy(b, q, attacker) && t in RawMoves(b, q, true, ctx)
  }

  predicate Attacked(b: Board, t: Pos, attacker: Color, ctx: Ctx)
    requires CtxOk(ctx)
    decreases 1, 1
  {
    exists r, c | 0 <= r < 8 && 0 <= c < 8 :: Attacks(b, Pos(r, c), t, attacker, ctx)
  }

  // ---------------------------------------------------------------------------
  // Finding the king and check

  /** The first king of this colour at or after (r, c) in row-major order. */
  function KingFrom(b: Board, color: Color, r: int, c: int): (k: Option<Pos>)
    requires 0 <= r <= 8 && 0 <= c <= 8
    decreases 8 - r, 8 - c
    ensures k.Some? ==> At(b, k.value) == Some(Piece(color, King)) && 8 * r + c <= Order(k.value)
    ensures forall q | 8 * r + c <= Order(q) && (k.None? || Order(q) < Order(k.value)) ::
      At(b, q) != Some(Piece(color, King))
  {
    if r == 8 then None
    else if c == 8 then KingFrom(b, color, r + 1, 0)
    else if b[r][c] == Some(Piece(color, King)) then Some(Pos(r, c))
    else KingFrom(b, color, r, c + 1)
  }

  /** Where the king of this colour stands: the first one in row-major order, if any. */
  function KingPos(b: Board, color: Color): Option<Pos> {
    KingFrom(b, color, 0, 0)
  }

  predicate KingInCheck(b: Board, color: Color, ctx: Ctx)
    requires CtxOk(ctx)
  {
    match KingPos(b, color)
    case None => false
    case Some(k) => Attacked(b, k, Opponent(color), ctx)
  }
}
