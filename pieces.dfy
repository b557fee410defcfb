/**
 * The board model of the chess engine: pieces, squares, the 8x8 grid, the
 * starting position, the direction tables of the sliding and leaping pieces,
 * and the castling bookkeeping ("movedPieces").
 *
 * Rows are numbered from the top: row 0 is black's back rank, row 7 white's.
 */
module Pieces {

  datatype Option<T> = None | Some(value: T)

  datatype Color = White | Black
  datatype Kind = Pawn | Rook | Knight | Bishop | Queen | King
  datatype Piece = Piece(color: Color, kind: Kind)

  /** A square is empty (the source's null) or holds one piece. */
  type Square = Option<Piece>

  /** A row or column index on the board. */
  type Idx = i: int | 0 <= i < 8

  datatype Pos = Pos(row: Idx, col: Idx)

  const EmptyRank: seq<Square> := [None, None, None, None, None, None, None, None]

  type Board = b: seq<seq<Square>> | |b| == 8 && forall i | 0 <= i < 8 :: |b[i]| == 8
    witness [EmptyRank, EmptyRank, EmptyRank, EmptyRank, EmptyRank, EmptyRank, EmptyRank, EmptyRank]

  predicate InBounds(r: int, c: int) {
    0 <= r < 8 && 0 <= c < 8
  }

  function At(b: Board, p: Pos): Square {
    b[p.row][p.col]
  }

  /** The board with square p overwritten by s. */
  function Put(b: Board, p: Pos, s: Square): (r: Board)
    ensures At(r, p) == s
    ensures forall q :: q != p ==> At(r, q) == At(b, q)
  {
    b[p.row := b[p.row][p.col := s]]
  }

  predicate OwnedBy(b: Board, p: Pos, color: Color) {
    At(b, p).Some? && At(b, p).value.color == color
  }

  /** Row-major index of a square, the order in which the engine scans the board. */
  function Order(p: Pos): int {
    8 * p.row + p.col
  }

  function Opponent(color: Color): Color {
    if color == White then Black else White
  }

  /** The row step of a pawn of this colour: white moves up the board. */
  function Dir(color: Color): int {
    if color == White then -1 else 1
  }

  /** The row from which a pawn may advance two squares. */
  function StartRow(color: Color): Idx {
    if color == White then 6 else 1
  }

  /** The back rank on which this colour castles. */
  function HomeRow(color: Color): Idx {
    if color == White then 7 else 0
  }

  /** The farthest rank, on which a pawn of this colour promotes. */
  function PromotionRow(color: Color): Idx {
    if color == White then 0 else 7
  }

  function BackRank(color: Color): seq<Square> {
    [Some(Piece(color, Rook)), Some(Piece(color, Knight)), Some(Piece(color, Bishop)), Some(Piece(color, Queen)),
     Some(Piece(color, King)), Some(Piece(color, Bishop)), Some(Piece(color, Knight)), Some(Piece(color, Rook))]
  }

  function PawnRank(color: Color): seq<Square> {
    var p := Some(Piece(color, Pawn));
    [p, p, p, p, p, p, p, p]
  }

  const InitialBoard: Board :=
    [BackRank(Black), PawnRank(Black), EmptyRank, EmptyRank, EmptyRank, EmptyRank, PawnRank(White), BackRank(White)]

  /** A unit step in one of the eight compass directions. */
  predicate IsUnit(d: (int, int)) {
    -1 <= d.0 <= 1 && -1 <= d.1 <= 1 && d != (0, 0)
  }

  predicate AllUnit(dirs: seq<(int, int)>) {
    forall i | 0 <= i < |dirs| :: IsUnit(dirs[i])
  }

  const RookDirs: seq<(int, int)> := [(-1, 0), (1, 0), (0, -1), (0, 1)]
  const BishopDirs: seq<(int, int)> := [(-1, -1), (-1, 1), (1, -1), (1, 1)]
  const QueenDirs: seq<(int, int)> := RookDirs + BishopDirs
  const KnightOffsets: seq<(int, int)> :=
    [(-2, -1), (-2, 1), (-1, -2), (-1, 2), (1, -2), (1, 2), (2, -1), (2, 1)]
  const KingOffsets: seq<(int, int)> :=
    [(-1, -1), (-1, 0), (-1, 1), (0, -1), (0, 1), (1, -1), (1, 0), (1, 1)]

  /** Castling bookkeeping of one colour: whether its king, its column-0 rook and its column-7 rook have moved. */
  datatype Flags = Flags(king: bool, rookLeft: bool, rookRight: bool)

  datatype Moved = Moved(white: Flags, black: Flags)

  const Unmoved: Moved := Moved(Flags(false, false, false), Flags(false, false, false))

  function FlagsOf(m: Moved, color: Color): Flags {
    if color == White then m.white else m.black
  }

  function WithFlags(m: Moved, color: Color, f: Flags): (r: Moved)
    ensures FlagsOf(r, color) == f && FlagsOf(r, Opponent(color)) == FlagsOf(m, Opponent(color))
  {
    if color == White then m.(white := f) else m.(black := f)
  }
}
