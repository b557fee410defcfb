/**
 * What the transitions of the game state promise: the effect of a normal move, of
 * castling and of a deferred promotion on the board, the turn and the bookkeeping;
 * that only legal moves of the selected piece ever change the board; and that a
 * restart forgets everything.
 */
module GameFacts {
  import opened Pieces
  import opened Moves
  import opened MoveFacts
  import opened Legality
  import opened Game

  /** A legal target differs from its origin. */
  lemma LegalTargetIsNotOrigin(b: Board, from: Pos, ctx: Ctx, to: Pos)
    requires CtxOk(ctx) && At(b, from).Some? && to in LegalMoves(b, from, ctx)
    ensures to != from
  {
    assert to in RawMoves(b, from, false, ctx);
    RawTargetIsNotOrigin(b, from, false, ctx, to);
  }

  /** A normal move (not castling, not onto the promotion rank) copies the piece to the target,
      clears the origin and, on an en-passant capture, the square beside the origin in the
      target's column; nothing else on the board changes.  The turn passes, the selection is
      dropped, the en-passant target is set exactly after a two-row pawn move, and only the
      moving king or the rook leaving column 0 or 7 is marked as moved. */
  lemma NormalCommitEffect(s: State, from: Pos, to: Pos)
    requires StateOk(s) && s.selected == Some(from) && to in LegalMoves(s.board, from, CtxOf(s))
    requires !IsCastling(At(s.board, from).value, from, to)
    requires !(At(s.board, from).value.kind == Pawn && to.row == PromotionRow(At(s.board, from).value.color))
    ensures var r, piece := Commit(s, from, to), At(s.board, from).value;
      && At(r.board, to) == Some(piece)
      && At(r.board, from) == None
      && (forall q | q != from && q != to ::
            At(r.board, q) ==
              if ClearsEnPassant(piece, from, to, s.lastDouble) && q == Pos(from.row, to.col) then None
              else At(s.board, q))
      && r.turn == Opponent(s.turn)
      && r.selected.None? && r.possibleMoves == [] && !r.promotionPending
      && r.lastDouble == (if piece.kind == Pawn && Abs(to.row - from.row) == 2 then Some(to) else None)
  {
    var piece := At(s.board, from).value;
    LegalTargetIsNotOrigin(s.board, from, CtxOf(s), to);
    var nb := EnPassantCleared(s.board, piece, from, to, s.lastDouble);
    assert At(nb, from) == Some(piece);
  }

  /** The castling flags after a normal move: the mover's king flag is set by a king move,
      a rook flag by a rook move from that column on any row; the opponent's flags stay. */
  lemma NormalCommitFlags(s: State, from: Pos, to: Pos)
    requires StateOk(s) && s.selected == Some(from) && to in LegalMoves(s.board, from, CtxOf(s))
    requires !IsCastling(At(s.board, from).value, from, to)
    requires !(At(s.board, from).value.kind == Pawn && to.row == PromotionRow(At(s.board, from).value.color))
    ensures var r, piece := Commit(s, from, to), At(s.board, from).value;
      var before, after := FlagsOf(s.moved, piece.color), FlagsOf(r.moved, piece.color);
      && FlagsOf(r.moved, Opponent(piece.color)) == FlagsOf(s.moved, Opponent(piece.color))
      && after.king == (before.king || piece.kind == King)
      && after.rookLeft == (before.rookLeft || (piece.kind == Rook && from.col == 0))
      && after.rookRight == (before.rookRight || (piece.kind == Rook && from.col == 7))
  {
    var piece := At(s.board, from).value;
    CommitNormalStep(s, from, to);
    assert Commit(s, from, to).moved == MovedFlags(s.moved, piece, from);
    MovedFlagsEffect(s.moved, piece, from);
  }

  /** The flags a normal move leaves, one colour and one flag at a time. */
  lemma MovedFlagsEffect(m: Moved, piece: Piece, from: Pos)
    ensures var before, after := FlagsOf(m, piece.color), FlagsOf(MovedFlags(m, piece, from), piece.color);
      && FlagsOf(MovedFlags(m, piece, from), Opponent(piece.color)) == FlagsOf(m, Opponent(piece.color))
      && after.king == (before.king || piece.kind == King)
      && after.rookLeft == (before.rookLeft || (piece.kind == Rook && from.col == 0))
      && after.rookRight == (before.rookRight || (piece.kind == Rook && from.col == 7))
  {
  }

  lemma KingsideBoard(b: Board, piece: Piece, from: Pos, to: Pos)
    requires to.col == 6 && from.col == 4
    ensures var r, row := CastledBoard(b, piece, from, to), from.row;
      && At(r, Pos(row, 6)) == Some(piece) && At(r, Pos(row, 5)) == At(b, Pos(row, 7))
      && At(r, Pos(row, 4)) == None && At(r, Pos(row, 7)) == None
      && (forall q: Pos | q.row != row || q.col < 4 :: At(r, q) == At(b, q))
  {
  }

  lemma QueensideBoard(b: Board, piece: Piece, from: Pos, to: Pos)
    requires to.col == 2 && from.col == 4
    ensures var r, row := CastledBoard(b, piece, from, to), from.row;
      && At(r, Pos(row, 2)) == Some(piece) && At(r, Pos(row, 3)) == At(b, Pos(row, 0))
      && At(r, Pos(row, 0)) == None && At(r, Pos(row, 4)) == None
      && (forall q: Pos | q.row != row || q.col == 1 || q.col > 4 :: At(r, q) == At(b, q))
  {
  }

  /** Kingside castling: the king lands on column 6 of its row and the rook from column 7 on
      column 5; columns 4 and 7 are cleared, every other square is unchanged; the king and
      right-rook flags are set and the turn passes.  The en-passant target is kept. */
  lemma KingsideCastleEffect(s: State, from: Pos, to: Pos)
    requires StateOk(s) && s.selected == Some(from) && to in LegalMoves(s.board, from, CtxOf(s))
    requires At(s.board, from).value.kind == King && to.col == 6 && Abs(to.col - from.col) == 2
    ensures var r, row, color := Commit(s, from, to), from.row, s.turn;
      && from.col == 4
      && At(r.board, Pos(row, 6)) == Some(Piece(color, King))
      && At(r.board, Pos(row, 5)) == At(s.board, Pos(row, 7))
      && At(r.board, Pos(row, 4)) == None && At(r.board, Pos(row, 7)) == None
      && (forall q: Pos | q.row != row || q.col < 4 :: At(r.board, q) == At(s.board, q))
      && FlagsOf(r.moved, color) == FlagsOf(s.moved, color).(king := true, rookRight := true)
      && FlagsOf(r.moved, Opponent(color)) == FlagsOf(s.moved, Opponent(color))
      && r.turn == Opponent(color) && r.lastDouble == s.lastDouble && r.selected.None?
  {
    var piece := At(s.board, from).value;
    KingsideBoard(s.board, piece, from, to);
    assert Commit(s, from, to).board == CastledBoard(s.board, piece, from, to);
  }

  /** Queenside castling from column 4: the king lands on column 2 and the rook from column 0
      on column 3; columns 0 and 4 are cleared, every other square is unchanged; the king and
      left-rook flags are set and the turn passes.  The en-passant target is kept. */
  lemma QueensideCastleEffect(s: State, from: Pos, to: Pos)
    requires StateOk(s) && s.selected == Some(from) && to in LegalMoves(s.board, from, CtxOf(s))
    requires At(s.board, from).value.kind == King && to.col == 2 && from.col == 4
    ensures var r, row, color := Commit(s, from, to), from.row, s.turn;
      && At(r.board, Pos(row, 2)) == Some(Piece(color, King))
      && At(r.board, Pos(row, 3)) == At(s.board, Pos(row, 0))
      && At(r.board, Pos(row, 0)) == None && At(r.board, Pos(row, 4)) == None
      && (forall q: Pos | q.row != row || q.col == 1 || q.col > 4 :: At(r.board, q) == At(s.board, q))
      && FlagsOf(r.moved, color) == FlagsOf(s.moved, color).(king := true, rookLeft := true)
      && FlagsOf(r.moved, Opponent(color)) == FlagsOf(s.moved, Opponent(color))
      && r.turn == Opponent(color) && r.lastDouble == s.lastDouble && r.selected.None?
  {
    var piece := At(s.board, from).value;
    QueensideBoard(s.board, piece, from, to);
    assert Commit(s, from, to).board == CastledBoard(s.board, piece, from, to);
  }

  /** A pawn move onto the last rank changes neither board nor turn: it only records the
      pending square and colour and drops the selection. */
  lemma PromotionDeferred(s: State, from: Pos, to: Pos)
    requires StateOk(s) && s.selected == Some(from) && to in LegalMoves(s.board, from, CtxOf(s))
    requires At(s.board, from).value.kind == Pawn && to.row == PromotionRow(s.turn)
    ensures var r := Commit(s, from, to);
      && r.board == s.board && r.turn == s.turn && r.status == s.status
      && r.moved == s.moved && r.lastDouble == s.lastDouble
      && r.promotionPending && r.promotionPosition == Some(to) && r.promotionColor == Some(s.turn)
      && r.selected.None? && r.possibleMoves == []
  {
  }

  /** The promoted board: the new piece on the promotion square, the first pawn of the colour
      on the row behind removed when there is one, and nothing else changed. */
  lemma PromotedBoardEffect(b: Board, pos: Pos, color: Color, kind: Kind)
    requires pos.row == PromotionRow(color)
    ensures var r, pawnRow := PromotedBoard(b, pos, color, kind), PawnRow(pos, color);
      && At(r, pos) == Some(Piece(color, kind))
      && (forall q: Pos | q != pos && q.row != pawnRow :: At(r, q) == At(b, q))
      && (match FirstPawnFrom(b, pawnRow, color, 0)
          case None =>
            (forall c | 0 <= c < 8 :: b[pawnRow][c] != Some(Piece(color, Pawn))) &&
            (forall q: Pos | q.row == pawnRow :: At(r, q) == At(b, q))
          case Some(k) =>
            b[pawnRow][k] == Some(Piece(color, Pawn)) &&
            (forall c | 0 <= c < k :: b[pawnRow][c] != Some(Piece(color, Pawn))) &&
            At(r, Pos(pawnRow, k)) == None &&
            (forall q: Pos | q.row == pawnRow && q.col != k :: At(r, q) == At(b, q)))
  {
  }

  /** The promotion choice writes the chosen piece on the pending square, removes the first
      pawn of the promoting colour on the row behind (if there is one) and nothing else,
      clears the pending state and passes the turn. */
  lemma PromotionResolved(s: State, kind: Kind)
    requires StateOk(s) && s.promotionPending
    ensures var r, pos, color := Promote(s, kind), s.promotionPosition.value, s.turn;
      && r.board == PromotedBoard(s.board, pos, color, kind)
      && !r.promotionPending && r.promotionPosition.None? && r.promotionColor.None?
      && r.turn == Opponent(color) && r.moved == s.moved && r.lastDouble == s.lastDouble
  {
  }

  /** Only a click on a legal target of the selected piece changes the board or the turn.  What
      such a click does is stated by NormalCommitEffect, KingsideCastleEffect, QueensideCastleEffect
      and PromotionDeferred. */
  lemma OnlyLegalMovesChangeBoard(s: State, p: Pos)
    requires StateOk(s)
    ensures var r := Click(s, p);
      r.board != s.board || r.turn != s.turn ==>
        !s.promotionPending && s.status == Ongoing &&
        s.selected.Some? && p in LegalMoves(s.board, s.selected.value, CtxOf(s))
  {
  }

  /** While a promotion is pending or the game is over, clicks change nothing. */
  lemma BlockedClickIgnored(s: State, p: Pos)
    requires StateOk(s) && (s.promotionPending || s.status != Ongoing)
    ensures Click(s, p) == s
  {
  }

  /** In the starting position black is at home and the white king stands on row 7. */
  lemma InitialBoardHome()
    ensures BlackAtHome(InitialBoard)
    ensures forall q: Pos | At(InitialBoard, q) == Some(Piece(White, King)) :: q.row >= 4
  {
    forall q: Pos
      ensures (q.row <= 1 ==> OwnedBy(InitialBoard, q, Black)) &&
        (OwnedBy(InitialBoard, q, Black) ==> q.row <= 1 && (q.row == 1 ==> At(InitialBoard, q).value.kind == Pawn))
      ensures At(InitialBoard, q) == Some(Piece(White, King)) ==> q.row >= 4
    {
      if q.row <= 1 {
      } else if q.row <= 5 {
        assert InitialBoard[q.row] == EmptyRank;
      }
    }
  }

  /** The game starts ongoing with white to move and not in check: white's king is out of black's
      reach, and the king's pawn can step forward one square without exposing it. */
  lemma InitialOngoing()
    ensures var r := Initial();
      && r.board == InitialBoard && r.turn == White && r.selected.None? && !r.promotionPending
      && !r.inCheck && r.kingInCheckPos.None? && r.status == Ongoing
  {
    var b, ctx := InitialBoard, CtxOf(Fresh);
    RefreshEffect(Fresh);
    InitialBoardHome();
    WhiteSafeWhileBlackAtHome(b, ctx);
    var from, to := Pos(6, 4), Pos(5, 4);
    PawnTargets(b, from, White, None, to);
    assert to in RawMoves(b, from, false, ctx);
    var sb := Simulate(b, from, to);
    forall q: Pos
      ensures (q.row <= 1 ==> OwnedBy(sb, q, Black)) &&
        (OwnedBy(sb, q, Black) ==> q.row <= 1 && (q.row == 1 ==> At(sb, q).value.kind == Pawn))
      ensures At(sb, q) == Some(Piece(White, King)) ==> q.row >= 4
    {
      if q != from && q != to {
        assert At(sb, q) == At(b, q);
      }
    }
    WhiteSafeWhileBlackAtHome(sb, ctx);
    assert to in LegalMoves(b, from, ctx);
    assert OwnedBy(b, from, White) && LegalMoves(b, from, ctx) != [];
  }

  /** A restart, from any state, leaves an ongoing game with white to move and not in check. */
  lemma RestartOngoing(s: State)
    ensures var r := Restart(s);
      && r.board == InitialBoard && r.turn == White && !r.inCheck && r.status == Ongoing
  {
    RestartIsInitial(s);
    InitialOngoing();
  }

  /** Restarting forgets the old state entirely. */
  lemma RestartIsInitial(s: State)
    ensures Restart(s) == Initial()
  {
  }
}
