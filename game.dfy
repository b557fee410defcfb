/**
 * The engine's game state and its transitions, as functions from the old state to
 * the new one: a click on a square (select, deselect, or commit a move), the choice
 * of a promotion piece, a restart, and the status refresh that follows every change
 * of board or turn.
 */
module Game {
  import opened Pieces
  import opened Moves
  import opened MoveFacts
  import opened Legality

  /** The engine's state fields, one for one. */
  datatype State = State(
    board: Board,
    selected: Option<Pos>,
    turn: Color,
    possibleMoves: seq<Pos>,
    status: Status,
    inCheck: bool,
    kingInCheckPos: Option<Pos>,
    moved: Moved,
    lastDouble: Option<Pos>,
    promotionPending: bool,
    promotionPosition: Option<Pos>,
    promotionColor: Option<Color>)

  /** What move generation reads from the state besides the board. */
  function CtxOf(s: State): Ctx {
    Ctx(s.moved, s.inCheck, s.lastDouble)
  }

  /** The invariant every reachable state keeps:
      - the en-passant target is a square with a row behind it;
      - the three promotion fields are set together;
      - a pending promotion belongs to the side to move, sits on its last rank, and no piece is selected;
      - a selected square holds a piece of the side to move. */
  predicate StateOk(s: State) {
    EpOk(s.lastDouble) &&
    (s.promotionPending <==> s.promotionPosition.Some?) &&
    (s.promotionPending <==> s.promotionColor.Some?) &&
    (s.promotionPending ==>
      s.promotionColor == Some(s.turn) && s.promotionPosition.value.row == PromotionRow(s.turn) && s.selected.None?) &&
    (s.selected.Some? ==> OwnedBy(s.board, s.selected.value, s.turn))
  }

  /** The initial values of the state fields, before the first status refresh. */
  const Fresh: State :=
    State(InitialBoard, None, White, [], Ongoing, false, None, Unmoved, None, false, None, None)

  function Abs(x: int): nat {
    if x < 0 then -x else x
  }

  // ---------------------------------------------------------------------------
  // Status refresh

  /** Recomputes check, the checked king's square and the status for the board and side to move.
      The status is judged with the check flag as it was before this refresh: castling inside the
      legal-move search reads the flag the refresh is about to replace. */
  function Refresh(s: State): (r: State)
    requires StateOk(s)
    ensures StateOk(r)
  {
    var check := KingInCheck(s.board, s.turn, CtxOf(s));
    s.(inCheck := check, kingInCheckPos := if check then KingPos(s.board, s.turn) else None,
       status := StatusOf(s.board, s.turn, CtxOf(s)))
  }

  /** A refresh with its three results named. */
  lemma RefreshWith(s: State, check: bool, king: Option<Pos>, st: Status)
    requires StateOk(s)
    requires check == KingInCheck(s.board, s.turn, CtxOf(s))
    requires king == (if check then KingPos(s.board, s.turn) else None)
    requires st == StatusOf(s.board, s.turn, CtxOf(s))
    ensures Refresh(s) == s.(inCheck := check, kingInCheckPos := king, status := st)
  {
  }

  /** A refresh changes only the check flag, the checked king's square and the status: check means
      the side to move has its king attacked, the king's square is recorded exactly when in check,
      and the game is over exactly when the side to move has no legal move, checkmate when in
      check and stalemate otherwise. */
  lemma RefreshEffect(s: State)
    requires StateOk(s)
    ensures var r := Refresh(s);
      && r == s.(inCheck := r.inCheck, kingInCheckPos := r.kingInCheckPos, status := r.status)
      && r.inCheck == KingInCheck(s.board, s.turn, CtxOf(s))
      && (r.kingInCheckPos.Some? <==> r.inCheck)
      && (r.kingInCheckPos.Some? ==> At(r.board, r.kingInCheckPos.value) == Some(Piece(r.turn, King)))
      && (r.status == Checkmate <==> !HasLegalMove(s.board, s.turn, CtxOf(s)) && r.inCheck)
      && (r.status == Stalemate <==> !HasLegalMove(s.board, s.turn, CtxOf(s)) && !r.inCheck)
      && (r.status == Ongoing <==> HasLegalMove(s.board, s.turn, CtxOf(s)))
  {
    StatusOfCases(s.board, s.turn, CtxOf(s));
  }

  // ---------------------------------------------------------------------------
  // Committing a move

  /** The en-passant branch fires: a pawn steps one column sideways into the file of the last
      double push.  The row of that push is not compared. */
  predicate ClearsEnPassant(piece: Piece, from: Pos, to: Pos, lastDouble: Option<Pos>) {
    piece.kind == Pawn && lastDouble.Some? &&
    to.row == from.row + Dir(piece.color) && to.col == lastDouble.value.col && Abs(to.col - from.col) == 1
  }

  function EnPassantCleared(b: Board, piece: Piece, from: Pos, to: Pos, lastDouble: Option<Pos>): Board {
    if ClearsEnPassant(piece, from, to, lastDouble) then Put(b, Pos(from.row, to.col), None) else b
  }

  predicate IsCastling(piece: Piece, from: Pos, to: Pos) {
    piece.kind == King && Abs(to.col - from.col) == 2
  }

  /** King and rook relocated on the king's own row: to column 6 with the rook from 7 onto 5,
      or to column 2 with the rook from 0 onto 3. */
  function CastledBoard(b: Board, piece: Piece, from: Pos, to: Pos): Board {
    var row := from.row;
    if to.col == 6 then
      var b1 := Put(Put(b, Pos(row, 6), Some(piece)), from, None);
      Put(Put(b1, Pos(row, 5), At(b1, Pos(row, 7))), Pos(row, 7), None)
    else if to.col == 2 then
      var b1 := Put(Put(b, Pos(row, 2), Some(piece)), from, None);
      Put(Put(b1, Pos(row, 3), At(b1, Pos(row, 0))), Pos(row, 0), None)
    else b
  }

  /** Castling marks the king and the rook of the side it was made on (column 6 means the right rook). */
  function CastledFlags(m: Moved, color: Color, to: Pos): Moved {
    var f := FlagsOf(m, color);
    WithFlags(m, color, if to.col == 6 then f.(king := true, rookRight := true) else f.(king := true, rookLeft := true))
  }

  /** A king move marks the king; a rook move from column 0 or 7, on any row, marks that rook. */
  function MovedFlags(m: Moved, piece: Piece, from: Pos): Moved {
    var f := FlagsOf(m, piece.color);
    if piece.kind == King then WithFlags(m, piece.color, f.(king := true))
    else if piece.kind == Rook && from.col == 0 then WithFlags(m, piece.color, f.(rookLeft := true))
    else if piece.kind == Rook && from.col == 7 then WithFlags(m, piece.color, f.(rookRight := true))
    else m
  }

  /** A legal pawn move of two rows lands on row 4 (white) or 3 (black). */
  lemma DoublePushRow(b: Board, from: Pos, ctx: Ctx, to: Pos)
    requires CtxOk(ctx) && At(b, from).Some?
    requires to in LegalMoves(b, from, ctx)
    ensures At(b, from).value.kind == Pawn && Abs(to.row - from.row) == 2 ==>
      to.row == (if At(b, from).value.color == White then 4 else 3)
  {
    var piece := At(b, from).value;
    if piece.kind == Pawn && Abs(to.row - from.row) == 2 {
      assert to in RawMoves(b, from, false, ctx);
      PawnTwoRowsOnlyFromStart(b, from, piece.color, ctx.lastDouble, to);
    }
  }

  /** Carries out the legal move from the selected square to `to`. */
  function Commit(s: State, from: Pos, to: Pos): (r: State)
    requires StateOk(s) && s.selected == Some(from) && to in LegalMoves(s.board, from, CtxOf(s))
    ensures StateOk(r)
  {
    var piece := At(s.board, from).value;
    var nb := EnPassantCleared(s.board, piece, from, to, s.lastDouble);
    if IsCastling(piece, from, to) then
      Refresh(s.(board := CastledBoard(nb, piece, from, to), selected := None, possibleMoves := [],
                 turn := Opponent(s.turn), moved := CastledFlags(s.moved, piece.color, to)))
    else if piece.kind == Pawn && to.row == PromotionRow(piece.color) then
      s.(promotionPending := true, promotionPosition := Some(to), promotionColor := Some(piece.color),
         selected := None, possibleMoves := [])
    else
      var double := piece.kind == Pawn && Abs(to.row - from.row) == 2;
      DoublePushRow(s.board, from, CtxOf(s), to);
      Refresh(s.(board := Simulate(nb, from, to), selected := None, possibleMoves := [],
                 turn := Opponent(s.turn), moved := MovedFlags(s.moved, piece, from),
                 lastDouble := if double then Some(to) else None))
  }

  /** The three branches of Commit, one at a time. */
  lemma CommitCastlingStep(s: State, from: Pos, to: Pos)
    requires StateOk(s) && s.selected == Some(from) && to in LegalMoves(s.board, from, CtxOf(s))
    requires IsCastling(At(s.board, from).value, from, to)
    ensures var piece := At(s.board, from).value;
      var nb := EnPassantCleared(s.board, piece, from, to, s.lastDouble);
      Commit(s, from, to) ==
        Refresh(s.(board := CastledBoard(nb, piece, from, to), selected := None, possibleMoves := [],
                   turn := Opponent(s.turn), moved := CastledFlags(s.moved, piece.color, to)))
  {
  }

  lemma CommitPromotionStep(s: State, from: Pos, to: Pos)
    requires StateOk(s) && s.selected == Some(from) && to in LegalMoves(s.board, from, CtxOf(s))
    requires !IsCastling(At(s.board, from).value, from, to)
    requires At(s.board, from).value.kind == Pawn && to.row == PromotionRow(At(s.board, from).value.color)
    ensures Commit(s, from, to) ==
      s.(promotionPending := true, promotionPosition := Some(to), promotionColor := Some(s.turn),
         selected := None, possibleMoves := [])
  {
  }

  lemma CommitNormalStep(s: State, from: Pos, to: Pos)
    requires StateOk(s) && s.selected == Some(from) && to in LegalMoves(s.board, from, CtxOf(s))
    requires !IsCastling(At(s.board, from).value, from, to)
    requires !(At(s.board, from).value.kind == Pawn && to.row == PromotionRow(At(s.board, from).value.color))
    ensures var piece := At(s.board, from).value;
      var nb := EnPassantCleared(s.board, piece, from, to, s.lastDouble);
      var double := piece.kind == Pawn && Abs(to.row - from.row) == 2;
      && (double ==> 1 <= to.row <= 6)
      && Commit(s, from, to) ==
        Refresh(s.(board := Simulate(nb, from, to), selected := None, possibleMoves := [],
                   turn := Opponent(s.turn), moved := MovedFlags(s.moved, piece, from),
                   lastDouble := if double then Some(to) else None))
  {
    DoublePushRow(s.board, from, CtxOf(s), to);
  }

  // ---------------------------------------------------------------------------
  // Clicks

  /** Selects p when it holds a piece of the side to move, showing its legal targets. */
  function Select(s: State, p: Pos): (r: State)
    requires StateOk(s) && !s.promotionPending && OwnedBy(s.board, p, s.turn)
    ensures StateOk(r)
  {
    s.(selected := Some(p), possibleMoves := LegalMoves(s.board, p, CtxOf(s)))
  }

  /** A click on square p.  Ignored while a promotion is pending or the game is over. */
  function Click(s: State, p: Pos): (r: State)
    requires StateOk(s)
    ensures StateOk(r)
  {
    if s.promotionPending || s.status != Ongoing then s
    else match s.selected
      case Some(from) =>
        if from == p then s.(selected := None, possibleMoves := [])
        else if p in LegalMoves(s.board, from, CtxOf(s)) then Commit(s, from, p)
        else if OwnedBy(s.board, p, s.turn) then Select(s, p)
        else s.(selected := None, possibleMoves := [])
      case None =>
        if OwnedBy(s.board, p, s.turn) then Select(s, p) else s
  }

  // ---------------------------------------------------------------------------
  // Promotion choice

  /** The first column at or after c whose square on the row holds a pawn of this colour. */
  function FirstPawnFrom(b: Board, row: Idx, color: Color, c: int): (k: Option<Idx>)
    requires 0 <= c <= 8
    decreases 8 - c
    ensures k.Some? ==> c <= k.value && b[row][k.value] == Some(Piece(color, Pawn))
    ensures forall j | c <= j < 8 && (k.None? || j < k.value) :: b[row][j] != Some(Piece(color, Pawn))
  {
    if c == 8 then None
    else if b[row][c] == Some(Piece(color, Pawn)) then Some(c)
    else FirstPawnFrom(b, row, color, c + 1)
  }

  /** The row behind a promotion square, from the promoting side's point of view. */
  function PawnRow(pos: Pos, color: Color): Idx
    requires pos.row == PromotionRow(color)
  {
    if color == White then pos.row + 1 else pos.row - 1
  }

  /** The board without the first pawn of the colour on the row, if there is one. */
  function PawnRemoved(b: Board, row: Idx, color: Color): Board {
    match FirstPawnFrom(b, row, color, 0)
    case None => b
    case Some(c) => Put(b, Pos(row, c), None)
  }

  /** The first pawn of the colour on the row behind is removed, then the new piece is placed. */
  function PromotedBoard(b: Board, pos: Pos, color: Color, kind: Kind): Board
    requires pos.row == PromotionRow(color)
  {
    Put(PawnRemoved(b, PawnRow(pos, color), color), pos, Some(Piece(color, kind)))
  }

  /** The choice of a promotion piece; ignored when no promotion is recorded. */
  function Promote(s: State, kind: Kind): (r: State)
    requires StateOk(s)
    ensures StateOk(r)
  {
    if s.promotionPosition.None? || s.promotionColor.None? then s
    else
      var pos, color := s.promotionPosition.value, s.promotionColor.value;
      Refresh(s.(board := PromotedBoard(s.board, pos, color, kind), promotionPending := false,
                 promotionPosition := None, promotionColor := None, turn := Opponent(color)))
  }

  // ---------------------------------------------------------------------------
  // Restart

  /** The state after start-up: the initial values, then a status refresh. */
  function Initial(): (r: State)
    ensures StateOk(r)
  {
    Refresh(Fresh)
  }

  /** Every field but the checked king's square is reset, then the status is refreshed. */
  function Restart(s: State): (r: State)
    ensures StateOk(r)
  {
    Refresh(s.(board := InitialBoard, selected := None, turn := White, possibleMoves := [], status := Ongoing,
               inCheck := false, moved := Unmoved, lastDouble := None, promotionPending := false,
               promotionPosition := None, promotionColor := None))
  }
}
