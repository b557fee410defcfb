/**
 * The chess engine component as an object: its state fields are updated in place by
 * the click handler, the promotion-choice handler, the restart handler and the status
 * refresh that follows every change of board or turn.  Each method is proved to move
 * the object from a state s to the state the matching transition of module Game gives
 * for s; the properties of those transitions are proved in module GameFacts.
 */
module Engine {
  import opened Pieces
  import opened Moves
  import opened MoveGen
  import opened MoveFacts
  import opened Legality
  import opened Game

  /** The en-passant capture on a copy of the board: the square beside the origin, in the
      target's column, is cleared when a pawn steps diagonally into the last double push's column. */
  method ClearEnPassant(b: Board, piece: Piece, from: Pos, to: Pos, lastDouble: Option<Pos>) returns (nb: Board)
    ensures nb == EnPassantCleared(b, piece, from, to, lastDouble)
  {
    nb := b;
    if piece.kind == Pawn && lastDouble.Some? {
      var dir := Dir(piece.color);
      if to.row == from.row + dir && to.col == lastDouble.value.col && Abs(to.col - from.col) == 1 {
        nb := Put(nb, Pos(from.row, to.col), None);
      }
    }
  }

  /** King and rook relocated for castling on the king's row. */
  method CastleKingAndRook(b: Board, piece: Piece, from: Pos, to: Pos) returns (nb: Board)
    ensures nb == CastledBoard(b, piece, from, to)
  {
    nb := b;
    var rowIndex := from.row;
    if to.col == 6 {
      nb := Put(nb, Pos(rowIndex, 6), Some(piece));
      nb := Put(nb, from, None);
      var rook := nb[rowIndex][7];
      nb := Put(nb, Pos(rowIndex, 5), rook);
      nb := Put(nb, Pos(rowIndex, 7), None);
    } else if to.col == 2 {
      nb := Put(nb, Pos(rowIndex, 2), Some(piece));
      nb := Put(nb, from, None);
      var rook := nb[rowIndex][0];
      nb := Put(nb, Pos(rowIndex, 3), rook);
      nb := Put(nb, Pos(rowIndex, 0), None);
    }
  }

  /** A king move marks the king; a rook move from column 0 or 7 marks that rook. */
  method MarkMoved(m: Moved, piece: Piece, from: Pos) returns (r: Moved)
    ensures r == MovedFlags(m, piece, from)
  {
    r := m;
    var flags := FlagsOf(m, piece.color);
    if piece.kind == King {
      r := WithFlags(m, piece.color, flags.(king := true));
    } else if piece.kind == Rook {
      if from.col == 0 {
        r := WithFlags(m, piece.color, flags.(rookLeft := true));
      } else if from.col == 7 {
        r := WithFlags(m, piece.color, flags.(rookRight := true));
      }
    }
  }

  /** The computation of the status effect: whether the side to move is in check, where its king
      stands when it is, and checkmate or stalemate when it has no legal move, ongoing otherwise. */
  method StatusEffect(b: Board, turn: Color, ctx: Ctx) returns (check: bool, kingPos: Option<Pos>, status: Status)
    requires CtxOk(ctx)
    ensures check == KingInCheck(b, turn, ctx)
    ensures kingPos == if check then KingPos(b, turn) else None
    ensures status == StatusOf(b, turn, ctx)
  {
    check := IsKingInCheck(b, turn, ctx);
    if check {
      kingPos := FindKing(b, turn);
    } else {
      kingPos := None;
    }
    var legalMoves := GetAllLegalMoves(b, turn, ctx);
    if |legalMoves| == 0 {
      if check {
        status := Checkmate;
      } else {
        status := Stalemate;
      }
    } else {
      status := Ongoing;
    }
  }

  /** Scans the row from column 0 and removes the first pawn of the colour it meets. */
  method RemoveFirstPawn(b: Board, row: Idx, color: Color) returns (nb: Board)
    ensures nb == PawnRemoved(b, row, color)
  {
    nb := b;
    var c := 0;
    while c < 8
      invariant 0 <= c <= 8
      invariant FirstPawnFrom(b, row, color, c) == FirstPawnFrom(b, row, color, 0)
      invariant nb == b
    {
      if b[row][c] == Some(Piece(color, Pawn)) {
        nb := Put(nb, Pos(row, c), None);
        return;
      }
      c := c + 1;
    }
  }

  class ChessEngine {
    var board: Board
    var selected: Option<Pos>
    var turn: Color
    var possibleMoves: seq<Pos>
    var gameStatus: Status
    var inCheck: bool
    var kingInCheckPos: Option<Pos>
    var movedPieces: Moved
    var lastDoublePawnMove: Option<Pos>
    var promotionPending: bool
    var promotionPosition: Option<Pos>
    var promotionColor: Option<Color>

    /** The current values of all fields. */
    function Snapshot(): State
      reads this
    {
      State(board, selected, turn, possibleMoves, gameStatus, inCheck, kingInCheckPos,
            movedPieces, lastDoublePawnMove, promotionPending, promotionPosition, promotionColor)
    }

    predicate Valid()
      reads this
    {
      StateOk(Snapshot())
    }

    function Context(): Ctx
      reads this
    {
      Ctx(movedPieces, inCheck, lastDoublePawnMove)
    }

    /** The initial field values, followed by the first status refresh. */
    constructor()
      ensures Valid() && Snapshot() == Initial()
    {
      board := InitialBoard;
      selected := None;
      turn := White;
      possibleMoves := [];
      gameStatus := Ongoing;
      inCheck := false;
      kingInCheckPos := None;
      movedPieces := Unmoved;
      lastDoublePawnMove := None;
      promotionPending := false;
      promotionPosition := None;
      promotionColor := None;
      new;
      RefreshStatus();
    }

    /** The status effect: check, the checked king's square, then checkmate, stalemate or ongoing.
        The effect sees the fields as they were when it was scheduled, the old check flag included. */
    method RefreshStatus()
      requires Valid()
      modifies this
      ensures Valid() && Snapshot() == Refresh(old(Snapshot()))
    {
      ghost var s := Snapshot();
      var check, kingPos, status := StatusEffect(board, turn, Context());
      RefreshWith(s, check, kingPos, status);
      inCheck := check;
      kingInCheckPos := kingPos;
      gameStatus := status;
    }

    /** The legal targets of the piece at p on the current board. */
    method CalculatePossibleMoves(p: Pos) returns (moves: seq<Pos>)
      requires Valid() && At(board, p).Some?
      ensures moves == LegalMoves(board, p, Context())
    {
      var raw := CalculateRawMoves(board, p, false, Context());
      moves := FilterLegalMoves(board, p, raw, Context());
    }

    /** A click on square p.  Clicks are dropped while a promotion is pending. */
    method OnSquareClick(p: Pos)
      requires Valid()
      modifies this
      ensures Valid() && Snapshot() == Click(old(Snapshot()), p)
    {
      if promotionPending || gameStatus != Ongoing {
        return;
      }
      if selected.Some? {
        var from := selected.value;
        var validMoves := CalculatePossibleMoves(from);
        var isValidMove := p in validMoves;
        if from == p {
          selected := None;
          possibleMoves := [];
          return;
        }
        if isValidMove {
          CommitMove(from, p);
        } else {
          var clickedPiece := board[p.row][p.col];
          if clickedPiece.Some? && clickedPiece.value.color == turn {
            possibleMoves := CalculatePossibleMoves(p);
            selected := Some(p);
          } else {
            selected := None;
            possibleMoves := [];
          }
        }
      } else {
        var piece := board[p.row][p.col];
        if piece.Some? && piece.value.color == turn {
          possibleMoves := CalculatePossibleMoves(p);
          selected := Some(p);
        }
      }
    }

    /** Carries out the legal move of the selected piece to `to` on a copy of the board:
        castling, a deferred promotion, or a normal move. */
    method CommitMove(from: Pos, to: Pos)
      requires Valid() && selected == Some(from) && to in LegalMoves(board, from, Context())
      modifies this
      ensures Valid() && Snapshot() == Commit(old(Snapshot()), from, to)
    {
      var piece := board[from.row][from.col].value;
      if piece.kind == King && Abs(to.col - from.col) == 2 {
        CommitCastling(from, to);
      } else if piece.kind == Pawn && to.row == PromotionRow(piece.color) {
        DeferPromotion(from, to);
      } else {
        CommitNormal(from, to);
      }
    }

    /** Castling: king and rook relocated on a copy of the board, both marked as moved, the turn passed. */
    method CommitCastling(from: Pos, to: Pos)
      requires Valid() && selected == Some(from) && to in LegalMoves(board, from, Context())
      requires IsCastling(At(board, from).value, from, to)
      modifies this
      ensures Valid() && Snapshot() == Commit(old(Snapshot()), from, to)
    {
      CommitCastlingStep(Snapshot(), from, to);
      var piece := board[from.row][from.col].value;
      var newBoard := ClearEnPassant(board, piece, from, to, lastDoublePawnMove);
      Castle(piece, from, to, newBoard);
      RefreshStatus();
    }

    method Castle(piece: Piece, from: Pos, to: Pos, newBoard: Board)
      requires Valid() && !promotionPending
      modifies this
      ensures Valid()
      ensures Snapshot() == old(Snapshot()).(board := CastledBoard(newBoard, piece, from, to),
        selected := None, possibleMoves := [], turn := Opponent(old(turn)),
        moved := CastledFlags(old(movedPieces), piece.color, to))
    {
      ghost var next := Snapshot().(board := CastledBoard(newBoard, piece, from, to),
        selected := None, possibleMoves := [], turn := Opponent(turn),
        moved := CastledFlags(movedPieces, piece.color, to));
      board := CastleKingAndRook(newBoard, piece, from, to);
      selected := None;
      possibleMoves := [];
      turn := Opponent(turn);
      var flags := FlagsOf(movedPieces, piece.color);
      if to.col == 6 {
        movedPieces := WithFlags(movedPieces, piece.color, flags.(king := true, rookRight := true));
      } else {
        movedPieces := WithFlags(movedPieces, piece.color, flags.(king := true, rookLeft := true));
      }
      assert Snapshot() == next;
    }

    /** A pawn reaching the last rank: only the pending promotion is recorded. */
    method DeferPromotion(from: Pos, to: Pos)
      requires Valid() && selected == Some(from) && to in LegalMoves(board, from, Context())
      requires !IsCastling(At(board, from).value, from, to)
      requires At(board, from).value.kind == Pawn && to.row == PromotionRow(At(board, from).value.color)
      modifies this
      ensures Valid() && Snapshot() == Commit(old(Snapshot()), from, to)
    {
      ghost var s := Snapshot();
      CommitPromotionStep(s, from, to);
      var color := board[from.row][from.col].value.color;
      RecordPromotion(to, color);
    }

    method RecordPromotion(to: Pos, color: Color)
      requires Valid() && selected.Some? && color == turn && to.row == PromotionRow(color)
      modifies this
      ensures Valid()
      ensures Snapshot() == old(Snapshot()).(promotionPending := true, promotionPosition := Some(to),
        promotionColor := Some(color), selected := None, possibleMoves := [])
    {
      promotionPending := true;
      promotionPosition := Some(to);
      promotionColor := Some(color);
      selected := None;
      possibleMoves := [];
    }

    /** A normal move: the piece relocated on a copy of the board, the castling flags and the
        en-passant target updated, the turn passed. */
    method CommitNormal(from: Pos, to: Pos)
      requires Valid() && selected == Some(from) && to in LegalMoves(board, from, Context())
      requires !IsCastling(At(board, from).value, from, to)
      requires !(At(board, from).value.kind == Pawn && to.row == PromotionRow(At(board, from).value.color))
      modifies this
      ensures Valid() && Snapshot() == Commit(old(Snapshot()), from, to)
    {
      CommitNormalStep(Snapshot(), from, to);
      var piece := board[from.row][from.col].value;
      var newBoard := ClearEnPassant(board, piece, from, to, lastDoublePawnMove);
      MovePiece(piece, from, to, newBoard);
      RefreshStatus();
    }

    method MovePiece(piece: Piece, from: Pos, to: Pos, newBoard: Board)
      requires Valid() && !promotionPending
      requires piece.kind == Pawn && Abs(to.row - from.row) == 2 ==> 1 <= to.row <= 6
      modifies this
      ensures Valid()
      ensures Snapshot() == old(Snapshot()).(board := Simulate(newBoard, from, to),
        selected := None, possibleMoves := [], turn := Opponent(old(turn)),
        moved := MovedFlags(old(movedPieces), piece, from),
        lastDouble := if piece.kind == Pawn && Abs(to.row - from.row) == 2 then Some(to) else None)
    {
      var nb := MoveOnBoard(newBoard, from, to);
      var nm := MarkMoved(movedPieces, piece, from);
      var ld: Option<Pos> := None;
      if piece.kind == Pawn && Abs(to.row - from.row) == 2 {
        ld := Some(to);
      }
      board, selected, possibleMoves, turn, movedPieces, lastDoublePawnMove :=
        nb, None, [], Opponent(turn), nm, ld;
    }

    /** The choice of the promotion piece: the first pawn of the promoting colour on the row
        behind is removed, the chosen piece placed, the pending state cleared, the turn passed. */
    method HandlePromotionChoice(kind: Kind)
      requires Valid()
      modifies this
      ensures Valid() && Snapshot() == Promote(old(Snapshot()), kind)
    {
      if promotionPosition.None? || promotionColor.None? {
        return;
      }
      var pos, color := promotionPosition.value, promotionColor.value;
      PlacePromotedPiece(pos, color, kind);
      RefreshStatus();
    }

    method PlacePromotedPiece(pos: Pos, color: Color, kind: Kind)
      requires Valid() && promotionPosition == Some(pos) && promotionColor == Some(color)
      modifies this
      ensures Valid()
      ensures Snapshot() == old(Snapshot()).(board := PromotedBoard(old(board), pos, color, kind),
        promotionPending := false, promotionPosition := None, promotionColor := None, turn := Opponent(color))
    {
      var newBoard := RemoveFirstPawn(board, PawnRow(pos, color), color);
      board := Put(newBoard, pos, Some(Piece(color, kind)));
      promotionPending := false;
      promotionPosition := None;
      promotionColor := None;
      turn := Opponent(color);
    }

    /** Resets every field to its initial value (the checked king's square is left to the refresh). */
    method RestartGame()
      requires Valid()
      modifies this
      ensures Valid() && Snapshot() == Restart(old(Snapshot()))
    {
      ResetFields();
      RefreshStatus();
    }

    method ResetFields()
      modifies this
      ensures Valid()
      ensures Snapshot() == old(Snapshot()).(board := InitialBoard, selected := None, turn := White,
        possibleMoves := [], status := Ongoing, inCheck := false, moved := Unmoved, lastDouble := None,
        promotionPending := false, promotionPosition := None, promotionColor := None)
    {
      board := InitialBoard;
      selected := None;
      turn := White;
      possibleMoves := [];
      gameStatus := Ongoing;
      inCheck := false;
      movedPieces := Unmoved;
      lastDoublePawnMove := None;
      promotionPending := false;
      promotionPosition := None;
      promotionColor := None;
    }
  }
}
