/**
 * Legal moves: raw moves that do not leave the mover's own king attacked, judged
 * on a board where only the mover is relocated; the list of all legal moves of
 * one colour; and the game status derived from it.
 */
module Legality {
  import opened Pieces
  import opened Moves
  import opened MoveGen

  /** The piece at `from` copied to `to` and `from` cleared: the scratch board of the legality
      test, which handles no rook, no en-passant victim and no promotion, and also the last step
      of a committed normal move. */
  function Simulate(b: Board, from: Pos, to: Pos): (r: Board)
    ensures At(r, from) == None
    ensures to != from ==> At(r, to) == At(b, from)
    ensures forall q | q != from && q != to :: At(r, q) == At(b, q)
  {
    Put(Put(b, to, At(b, from)), from, None)
  }

  /** Moving the piece at `from` to `to` leaves no king of `color` attacked. */
  predicate LeavesKingSafe(b: Board, from: Pos, to: Pos, color: Color, ctx: Ctx)
    requires CtxOk(ctx)
  {
    !KingInCheck(Simulate(b, from, to), color, ctx)
  }

  /** xs is ys with some elements dropped, the rest kept in order. */
  predicate IsSubsequence<T(==)>(xs: seq<T>, ys: seq<T>) {
    xs == [] ||
    (ys != [] && ((xs[0] == ys[0] && IsSubsequence(xs[1..], ys[1..])) || IsSubsequence(xs, ys[1..])))
  }

  /** The candidate targets of the piece at `from` that leave its own king safe, in their original order. */
  function FilterLegal(b: Board, from: Pos, moves: seq<Pos>, ctx: Ctx): (kept: seq<Pos>)
    requires CtxOk(ctx) && At(b, from).Some?
    ensures IsSubsequence(kept, moves)
    ensures forall t :: t in kept <==> t in moves && LeavesKingSafe(b, from, t, At(b, from).value.color, ctx)
  {
    if moves == [] then []
    else
      var rest := FilterLegal(b, from, moves[1..], ctx);
      if LeavesKingSafe(b, from, moves[0], At(b, from).value.color, ctx) then [moves[0]] + rest else rest
  }

  /** FilterLegal folded from the front, one candidate at a time. */
  lemma FilterStep(b: Board, from: Pos, moves: seq<Pos>, ctx: Ctx, i: int)
    requires CtxOk(ctx) && At(b, from).Some? && 0 <= i < |moves|
    ensures FilterLegal(b, from, moves[i..], ctx) ==
      (if LeavesKingSafe(b, from, moves[i], At(b, from).value.color, ctx) then [moves[i]] else []) +
      FilterLegal(b, from, moves[i + 1..], ctx)
  {
    assert moves[i..][0] == moves[i] && moves[i..][1..] == moves[i + 1..];
  }

  /** The piece on `from` copied to `to`, then `from` emptied, on a copy of the board. */
  method MoveOnBoard(b: Board, from: Pos, to: Pos) returns (nb: Board)
    ensures nb == Simulate(b, from, to)
  {
    nb := Put(b, to, b[from.row][from.col]);
    nb := Put(nb, from, None);
  }

  /** Plays the candidate on a copy of the board and asks whether the mover's king is then attacked. */
  method KeepsKingSafe(b: Board, from: Pos, to: Pos, color: Color, ctx: Ctx) returns (safe: bool)
    requires CtxOk(ctx)
    ensures safe == LeavesKingSafe(b, from, to, color, ctx)
  {
    var newBoard := MoveOnBoard(b, from, to);
    var check := IsKingInCheck(newBoard, color, ctx);
    safe := !check;
  }

  method FilterLegalMoves(b: Board, from: Pos, moves: seq<Pos>, ctx: Ctx) returns (legal: seq<Pos>)
    requires CtxOk(ctx) && At(b, from).Some?
    ensures legal == FilterLegal(b, from, moves, ctx)
  {
    var color := b[from.row][from.col].value.color;
    legal := [];
    for i := 0 to |moves|
      invariant legal + FilterLegal(b, from, moves[i..], ctx) == FilterLegal(b, from, moves, ctx)
    {
      ghost var before := legal;
      ghost var rest := FilterLegal(b, from, moves[i + 1..], ctx);
      FilterStep(b, from, moves, ctx, i);
      var safe := KeepsKingSafe(b, from, moves[i], color, ctx);
      if safe {
        legal := legal + [moves[i]];
        Regroup(before, [moves[i]], rest, legal);
      } else {
        Regroup(before, [], rest, legal);
      }
    }
  }

  /** The legal targets of the piece at p: its raw moves, castling included, filtered. */
  function LegalMoves(b: Board, p: Pos, ctx: Ctx): seq<Pos>
    requires CtxOk(ctx) && At(b, p).Some?
  {
    FilterLegal(b, p, RawMoves(b, p, false, ctx), ctx)
  }

  /** The possible moves shown for a selected piece: raw moves, then the legality filter. */
  method CalculatePossibleMoves(b: Board, p: Pos, ctx: Ctx) returns (moves: seq<Pos>)
    requires CtxOk(ctx) && At(b, p).Some?
    ensures moves == LegalMoves(b, p, ctx)
  {
    var raw := CalculateRawMoves(b, p, false, ctx);
    moves := FilterLegalMoves(b, p, raw, ctx);
  }

  /** One origin and its non-empty list of legal targets. */
  datatype Entry = Entry(from: Pos, to: seq<Pos>)

  /** The entry lists a piece of `color` together with all of its legal targets, at least one. */
  predicate EntryOk(b: Board, color: Color, ctx: Ctx, e: Entry)
    requires CtxOk(ctx)
  {
    OwnedBy(b, e.from, color) && e.to == LegalMoves(b, e.from, ctx) && e.to != []
  }

  /** The entry of square p: present when p holds a piece of `color` with a legal move. */
  function EntryAt(b: Board, color: Color, ctx: Ctx, p: Pos): seq<Entry>
    requires CtxOk(ctx)
  {
    if OwnedBy(b, p, color) && LegalMoves(b, p, ctx) != [] then [Entry(p, LegalMoves(b, p, ctx))] else []
  }

  /** The entries of the pieces of `color` at or after (r, c) in row-major order. */
  function AllLegalFrom(b: Board, color: Color, ctx: Ctx, r: int, c: int): seq<Entry>
    requires CtxOk(ctx) && 0 <= r <= 8 && 0 <= c <= 8
    decreases 8 - r, 8 - c
  {
    if r == 8 then []
    else if c == 8 then AllLegalFrom(b, color, ctx, r + 1, 0)
    else EntryAt(b, color, ctx, Pos(r, c)) + AllLegalFrom(b, color, ctx, r, c + 1)
  }

  /** An entry made for square p is correct. */
  lemma EntryAtOk(b: Board, color: Color, ctx: Ctx, p: Pos)
    requires CtxOk(ctx)
    ensures forall e | e in EntryAt(b, color, ctx, p) :: e.from == p && EntryOk(b, color, ctx, e)
  {
  }

  /** Square p yields at most one entry, and its origin is p. */
  lemma EntryAtOrigin(b: Board, color: Color, ctx: Ctx, p: Pos)
    requires CtxOk(ctx)
    ensures |EntryAt(b, color, ctx, p)| <= 1
    ensures EntryAt(b, color, ctx, p) != [] ==> EntryAt(b, color, ctx, p)[0].from == p
  {
  }

  /** Every origin listed from (r, c) on lies at or after (r, c). */
  lemma {:induction false} AllLegalFromAfter(b: Board, color: Color, ctx: Ctx, r: int, c: int)
    requires CtxOk(ctx) && 0 <= r <= 8 && 0 <= c <= 8
    ensures forall e | e in AllLegalFrom(b, color, ctx, r, c) :: 8 * r + c <= Order(e.from)
    decreases 8 - r, 8 - c
  {
    if r == 8 {
    } else if c == 8 {
      AllLegalFromAfter(b, color, ctx, r + 1, 0);
    } else {
      AllLegalFromAfter(b, color, ctx, r, c + 1);
      EntryAtOrigin(b, color, ctx, Pos(r, c));
      var head, rest := EntryAt(b, color, ctx, Pos(r, c)), AllLegalFrom(b, color, ctx, r, c + 1);
      assert AllLegalFrom(b, color, ctx, r, c) == head + rest;
      forall e: Entry | e in head + rest
        ensures 8 * r + c <= Order(e.from)
      {
        if e in head {
          assert e == head[0];
        } else {
          assert e in rest;
        }
      }
    }
  }

  /** Every entry from (r, c) on is a piece of `color` at or after (r, c) with all its legal targets. */
  lemma {:induction false} AllLegalFromSound(b: Board, color: Color, ctx: Ctx, r: int, c: int)
    requires CtxOk(ctx) && 0 <= r <= 8 && 0 <= c <= 8
    ensures forall e | e in AllLegalFrom(b, color, ctx, r, c) :: EntryOk(b, color, ctx, e) && 8 * r + c <= Order(e.from)
    decreases 8 - r, 8 - c
  {
    if r == 8 {
    } else if c == 8 {
      AllLegalFromSound(b, color, ctx, r + 1, 0);
    } else {
      AllLegalFromSound(b, color, ctx, r, c + 1);
      EntryAtOk(b, color, ctx, Pos(r, c));
      var head, rest := EntryAt(b, color, ctx, Pos(r, c)), AllLegalFrom(b, color, ctx, r, c + 1);
      assert AllLegalFrom(b, color, ctx, r, c) == head + rest;
      forall e: Entry | e in head + rest
        ensures EntryOk(b, color, ctx, e) && 8 * r + c <= Order(e.from)
      {
        if e in head {
        } else {
          assert e in rest;
        }
      }
    }
  }

  /** The origins come in strictly increasing row-major order, so no square is listed twice. */
  predicate StrictlyOrdered(all: seq<Entry>) {
    forall i, j | 0 <= i < j < |all| :: Order(all[i].from) < Order(all[j].from)
  }

  lemma OrderedCons(head: seq<Entry>, rest: seq<Entry>)
    requires |head| <= 1 && StrictlyOrdered(rest)
    requires forall e | e in head :: forall f | f in rest :: Order(e.from) < Order(f.from)
    ensures StrictlyOrdered(head + rest)
  {
    var all := head + rest;
    forall i, j | 0 <= i < j < |all|
      ensures Order(all[i].from) < Order(all[j].from)
    {
      assert all[j] == rest[j - |head|] && rest[j - |head|] in rest;
      if i < |head| {
        assert all[i] in head;
      } else {
        assert all[i] == rest[i - |head|];
      }
    }
  }

  /** The entries from (r, c) on are listed in scan order. */
  lemma {:induction false} AllLegalFromSorted(b: Board, color: Color, ctx: Ctx, r: int, c: int)
    requires CtxOk(ctx) && 0 <= r <= 8 && 0 <= c <= 8
    ensures StrictlyOrdered(AllLegalFrom(b, color, ctx, r, c))
    decreases 8 - r, 8 - c
  {
    if r == 8 {
    } else if c == 8 {
      AllLegalFromSorted(b, color, ctx, r + 1, 0);
    } else {
      AllLegalFromSorted(b, color, ctx, r, c + 1);
      AllLegalFromAfter(b, color, ctx, r, c + 1);
      EntryAtOrigin(b, color, ctx, Pos(r, c));
      var head, rest := EntryAt(b, color, ctx, Pos(r, c)), AllLegalFrom(b, color, ctx, r, c + 1);
      assert forall e | e in head :: e == head[0];
      OrderedCons(head, rest);
    }
  }

  /** Some entry of the list has origin q. */
  predicate Listed(all: seq<Entry>, q: Pos) {
    exists e | e in all :: e.from == q
  }

  /** The square the scan stands on is listed when its piece has a legal move. */
  lemma ListedHere(b: Board, color: Color, ctx: Ctx, r: int, c: int)
    requires CtxOk(ctx) && 0 <= r < 8 && 0 <= c < 8
    requires OwnedBy(b, Pos(r, c), color) && LegalMoves(b, Pos(r, c), ctx) != []
    ensures Listed(AllLegalFrom(b, color, ctx, r, c), Pos(r, c))
  {
    var e := Entry(Pos(r, c), LegalMoves(b, Pos(r, c), ctx));
    assert EntryAt(b, color, ctx, Pos(r, c)) == [e];
    assert e in AllLegalFrom(b, color, ctx, r, c);
  }

  /** What is listed after the current square is listed from it too. */
  lemma ListedLater(b: Board, color: Color, ctx: Ctx, r: int, c: int, q: Pos)
    requires CtxOk(ctx) && 0 <= r < 8 && 0 <= c < 8
    requires Listed(AllLegalFrom(b, color, ctx, r, c + 1), q)
    ensures Listed(AllLegalFrom(b, color, ctx, r, c), q)
  {
    var e :| e in AllLegalFrom(b, color, ctx, r, c + 1) && e.from == q;
    assert e in AllLegalFrom(b, color, ctx, r, c);
  }

  /** Every piece of `color` at or after (r, c) that has a legal move gets an entry. */
  lemma {:induction false} AllLegalFromComplete(b: Board, color: Color, ctx: Ctx, r: int, c: int, q: Pos)
    requires CtxOk(ctx) && 0 <= r <= 8 && 0 <= c <= 8
    requires 8 * r + c <= Order(q) && OwnedBy(b, q, color) && LegalMoves(b, q, ctx) != []
    ensures Listed(AllLegalFrom(b, color, ctx, r, c), q)
    decreases 8 - r, 8 - c
  {
    if r == 8 {
    } else if c == 8 {
      AllLegalFromComplete(b, color, ctx, r + 1, 0, q);
    } else if q == Pos(r, c) {
      ListedHere(b, color, ctx, r, c);
    } else {
      AllLegalFromComplete(b, color, ctx, r, c + 1, q);
      ListedLater(b, color, ctx, r, c, q);
    }
  }

  /** Every piece of `color` that has a legal move, scanned row by row. */
  function AllLegalMoves(b: Board, color: Color, ctx: Ctx): seq<Entry>
    requires CtxOk(ctx)
  {
    AllLegalFrom(b, color, ctx, 0, 0)
  }

  /** What getAllLegalMoves promises: it lists exactly the pieces of `color` that have a
      legal move, each once, in scan order, each with all of its legal targets. */
  lemma AllLegalMovesContract(b: Board, color: Color, ctx: Ctx)
    requires CtxOk(ctx)
    ensures forall e | e in AllLegalMoves(b, color, ctx) :: EntryOk(b, color, ctx, e)
    ensures StrictlyOrdered(AllLegalMoves(b, color, ctx))
    ensures forall q | OwnedBy(b, q, color) && LegalMoves(b, q, ctx) != [] :: Listed(AllLegalMoves(b, color, ctx), q)
  {
    AllLegalFromSound(b, color, ctx, 0, 0);
    AllLegalFromSorted(b, color, ctx, 0, 0);
    forall q | OwnedBy(b, q, color) && LegalMoves(b, q, ctx) != []
      ensures Listed(AllLegalMoves(b, color, ctx), q)
    {
      AllLegalFromComplete(b, color, ctx, 0, 0, q);
    }
  }

  /** The per-square body of getAllLegalMoves' scan. */
  method LegalEntryAt(b: Board, color: Color, ctx: Ctx, p: Pos) returns (es: seq<Entry>)
    requires CtxOk(ctx)
    ensures es == EntryAt(b, color, ctx, p)
  {
    es := [];
    if b[p.row][p.col].Some? && b[p.row][p.col].value.color == color {
      var raw := CalculateRawMoves(b, p, false, ctx);
      var legal := FilterLegalMoves(b, p, raw, ctx);
      if |legal| > 0 {
        es := [Entry(p, legal)];
      }
    }
  }

  /** The inner loop of getAllLegalMoves' scan: the entries of one row, appended. */
  method ScanRow(b: Board, color: Color, ctx: Ctx, r: Idx, acc: seq<Entry>) returns (all: seq<Entry>)
    requires CtxOk(ctx)
    ensures all + AllLegalFrom(b, color, ctx, r + 1, 0) == acc + AllLegalFrom(b, color, ctx, r, 0)
  {
    all := acc;
    for c := 0 to 8
      invariant all + AllLegalFrom(b, color, ctx, r, c) == acc + AllLegalFrom(b, color, ctx, r, 0)
    {
      ghost var before := all;
      ghost var rest := AllLegalFrom(b, color, ctx, r, c + 1);
      var es := LegalEntryAt(b, color, ctx, Pos(r, c));
      all := all + es;
      Regroup(before, es, rest, all);
    }
  }

  method GetAllLegalMoves(b: Board, color: Color, ctx: Ctx) returns (all: seq<Entry>)
    requires CtxOk(ctx)
    ensures all == AllLegalMoves(b, color, ctx)
  {
    all := [];
    for r := 0 to 8
      invariant all + AllLegalFrom(b, color, ctx, r, 0) == AllLegalMoves(b, color, ctx)
    {
      all := ScanRow(b, color, ctx, r, all);
    }
  }

  /** Some piece of `color` has a legal move. */
  ghost predicate HasLegalMove(b: Board, color: Color, ctx: Ctx)
    requires CtxOk(ctx)
  {
    exists q :: OwnedBy(b, q, color) && LegalMoves(b, q, ctx) != []
  }

  /** The list of all legal moves is empty exactly when no piece of that colour can move. */
  lemma AllLegalMovesEmpty(b: Board, color: Color, ctx: Ctx)
    requires CtxOk(ctx)
    ensures AllLegalMoves(b, color, ctx) == [] <==> !HasLegalMove(b, color, ctx)
  {
    var all := AllLegalMoves(b, color, ctx);
    if all != [] {
      AllLegalFromSound(b, color, ctx, 0, 0);
      assert all[0] in all;
    }
    if HasLegalMove(b, color, ctx) {
      var q :| OwnedBy(b, q, color) && LegalMoves(b, q, ctx) != [];
      AllLegalFromComplete(b, color, ctx, 0, 0, q);
    }
  }

  datatype Status = Ongoing | Checkmate | Stalemate

  /** Checkmate and stalemate when the side to move has no legal move, depending on check. */
  function StatusOf(b: Board, turn: Color, ctx: Ctx): Status
    requires CtxOk(ctx)
  {
    if AllLegalMoves(b, turn, ctx) == [] then
      if KingInCheck(b, turn, ctx) then Checkmate else Stalemate
    else Ongoing
  }

  /** The game is over exactly when the side to move cannot move: checkmate when its king is
      attacked, stalemate otherwise. */
  lemma StatusOfCases(b: Board, turn: Color, ctx: Ctx)
    requires CtxOk(ctx)
    ensures var st := StatusOf(b, turn, ctx);
      && (st == Checkmate <==> !HasLegalMove(b, turn, ctx) && KingInCheck(b, turn, ctx))
      && (st == Stalemate <==> !HasLegalMove(b, turn, ctx) && !KingInCheck(b, turn, ctx))
      && (st == Ongoing <==> HasLegalMove(b, turn, ctx))
  {
    AllLegalMovesEmpty(b, turn, ctx);
  }
}
