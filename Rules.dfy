/** What the component asks of the chess.js rules library, and the pure
    decisions it takes on the answers: the promotion predicate of
    `onPieceDrop` (src/ChessGame.js:83-95) and the status text of
    `updateStatus` (src/ChessGame.js:119-141). */
module Rules {
  import opened Wrappers

  datatype Side = White | Black

  datatype PieceKind = Pawn | Knight | Bishop | Rook | Queen | King

  /** What `game.get(square)` returns for an occupied square. */
  datatype Piece = Piece(kind: PieceKind, color: Side)

  /** The rules library, over positions of an opaque type `P` (a position
      is what a FEN string in the sense of section 16.1 of the PGN Standard
      encodes). Nothing is assumed of these functions beyond their types.
      - initial: the position of `new Chess()`
      - legalDests(p, sq): the `to` squares of `p.moves({square: sq})`
      - pieceAt(p, sq): `p.get(sq)`
      - apply(p, from, to, promo): the position after `p.move(...)`
      - isCheckmate, isStalemate, inCheck, turn, fen: the queries of the same name */
  datatype Oracle<!P> = Oracle(
    initial: P,
    legalDests: (P, string) -> set<string>,
    pieceAt: (P, string) -> Option<Piece>,
    apply: (P, string, string, Option<char>) -> P,
    isCheckmate: P -> bool,
    isStalemate: P -> bool,
    inCheck: P -> bool,
    turn: P -> Side,
    fen: P -> string)

  function Opponent(side: Side): (o: Side)
    ensures o != side
  {
    if side == White then Black else White
  }

  /** The rank a side's pieces start on. */
  function BackRank(side: Side): char
  {
    if side == White then '1' else '8'
  }

  /** The promotion test of `onPieceDrop`: a pawn, white landing on rank
      `'8'` or black landing on rank `'1'`; `targetSquare[1]` of a square
      shorter than two characters is undefined and matches neither. */
  predicate IsPromotion(piece: Option<Piece>, target: string)
    ensures IsPromotion(piece, target) ==> piece.Some? && piece.value.kind == Pawn
    ensures |target| < 2 ==> !IsPromotion(piece, target)
    ensures piece.Some? && piece.value.kind == Pawn && |target| >= 2 ==>
      (IsPromotion(piece, target) <==> target[1] == (if piece.value.color == White then '8' else '1'))
  {
    && piece.Some?
    && piece.value.kind == Pawn
    && ((piece.value.color == White && |target| > 1 && target[1] == '8') ||
        (piece.value.color == Black && |target| > 1 && target[1] == '1'))
  }

  /** The test is the chess rule: a pawn promotes exactly when it lands on
      its opponent's back rank. */
  lemma PromotionOnOpponentBackRank(piece: Option<Piece>, target: string)
    ensures IsPromotion(piece, target) <==>
      (piece.Some? && piece.value.kind == Pawn && |target| >= 2 &&
       target[1] == BackRank(Opponent(piece.value.color)))
  {
  }

  /** The promotion argument passed to `game.move`: always a queen, and only
      when the promotion test holds. */
  function PromotionFor(piece: Option<Piece>, target: string): (promo: Option<char>)
    ensures promo == None || promo == Some('q')
    ensures promo.Some? <==> IsPromotion(piece, target)
  {
    if IsPromotion(piece, target) then Some('q') else None
  }

  /** The display status `updateStatus` derives from a position. */
  datatype Status =
    | Checkmate(winner: Side)
    | Stalemate
    | InCheck(side: Side)
    | ToMove(side: Side)

  /** Whether a status ends the game (`setGameOver(true)`). */
  predicate IsTerminal(s: Status)
  {
    s.Checkmate? || s.Stalemate?
  }

  /** The first of checkmate, stalemate, check that holds, else plain
      "to move". */
  function StatusOf<P>(o: Oracle<P>, pos: P): (s: Status)
    ensures s.Checkmate? <==> o.isCheckmate(pos)
    ensures s.Checkmate? ==> s.winner == Opponent(o.turn(pos))
    ensures s.Stalemate? <==> !o.isCheckmate(pos) && o.isStalemate(pos)
    ensures s.InCheck? <==> !o.isCheckmate(pos) && !o.isStalemate(pos) && o.inCheck(pos)
    ensures (s.InCheck? || s.ToMove?) ==> s.side == o.turn(pos)
    ensures IsTerminal(s) <==> o.isCheckmate(pos) || o.isStalemate(pos)
  {
    if o.isCheckmate(pos) then Checkmate(if o.turn(pos) == White then Black else White)
    else if o.isStalemate(pos) then Stalemate
    else if o.inCheck(pos) then InCheck(o.turn(pos))
    else ToMove(o.turn(pos))
  }

  function SideName(side: Side): (name: string)
    ensures |name| == 5
    ensures name == "White" <==> side == White
    ensures name[0] == 'W' || name[0] == 'B'
  {
    if side == White then "White" else "Black"
  }

  /** The status line shown above the board. */
  function StatusText(s: Status): (text: string)
    ensures IsTerminal(s) <==> text == "Stalemate!" || (|text| >= 10 && text[..10] == "Checkmate!")
  {
    match s
    case Checkmate(w) => "Checkmate! " + SideName(w) + " wins"
    case Stalemate => "Stalemate!"
    case InCheck(side) =>
      var text := SideName(side) + " is in check";
      assert text[0] == SideName(side)[0] && text[..10] != "Checkmate!";
      text
    case ToMove(side) =>
      var text := SideName(side) + " to move";
      assert text[0] == SideName(side)[0] && text[..10] != "Checkmate!";
      text
  }

  /** No two statuses share a text, so the line shown determines the
      status, the winner and the side to move. */
  lemma StatusTextInjective(a: Status, b: Status)
    requires StatusText(a) == StatusText(b)
    ensures a == b
  {
    var ta, tb := StatusText(a), StatusText(b);
    assert |SideName(White)| == |SideName(Black)| == 5;
    match a
    case Checkmate(w) =>
      assert ta[0] == 'C' && ta[11] == SideName(w)[0];
      assert tb[0] == 'C' && tb[11] == SideName(b.winner)[0];
    case Stalemate =>
      assert |ta| == 10 && ta[1] == 't';
    case InCheck(side) =>
      assert |ta| == 17 && ta[0] == SideName(side)[0];
      assert tb[0] == SideName(b.side)[0];
    case ToMove(side) =>
      assert |ta| == 13 && ta[0] == SideName(side)[0];
      assert tb[0] == SideName(b.side)[0];
  }

  /** A mated position is reported as a checkmate won by the side not to
      move, never as a check, whatever `inCheck` says. */
  lemma MateIsNotReportedAsCheck<P>(o: Oracle<P>, pos: P)
    requires o.isCheckmate(pos)
    ensures StatusText(StatusOf(o, pos)) == "Checkmate! " + SideName(Opponent(o.turn(pos))) + " wins"
    ensures StatusText(StatusOf(o, pos)) != SideName(o.turn(pos)) + " is in check"
  {
    var t := StatusText(StatusOf(o, pos));
    assert t[0] == 'C';
    assert (SideName(o.turn(pos)) + " is in check")[0] != 'C';
  }
}
