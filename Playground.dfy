/** The `ChessGame` component (src/ChessGame.js) as an object: its React
    state (`game`, `status`, `gameOver`, `isAiThinking`) becomes fields that
    its handlers update in place, and the messages it posts to the engine
    worker are appended to `outbox`. The rules library is the oracle the
    object is built with. */
module Playground {
  import opened Wrappers
  import opened JsString
  import opened Rules
  import opened Uci

  class ChessGame<P> {
    const oracle: Oracle<P>
    /** The position held by the chess.js `game` object (its FEN is `fen`). */
    var position: P
    var status: string
    var gameOver: bool
    var aiThinking: bool
    /** Every message posted to the engine worker, oldest first. */
    var outbox: seq<string>

    /** The initial state of the component's hooks (src/ChessGame.js:12-16). */
    constructor (oracle: Oracle<P>)
      ensures this.oracle == oracle
      ensures position == oracle.initial && status == "White to move"
      ensures !gameOver && !aiThinking && outbox == []
    {
      this.oracle := oracle;
      position := oracle.initial;
      status := "White to move";
      gameOver := false;
      aiThinking := false;
      outbox := [];
    }

    /** `arePiecesDraggable` of the board (src/ChessGame.js:166). */
    predicate PiecesDraggable()
      reads this
      ensures PiecesDraggable() <==> !aiThinking && !gameOver
    {
      !aiThinking && !gameOver
    }

    /** The status line and the game-over flag are the ones derived from
        the current position. */
    predicate StatusShown()
      reads this
    {
      status == StatusText(StatusOf(oracle, position)) &&
      gameOver == IsTerminal(StatusOf(oracle, position))
    }

    /** `updateStatus`: checkmate, then stalemate, then check, then "to
        move"; the terminal branches also clear `isAiThinking`. */
    method UpdateStatus()
      modifies this
      ensures position == old(position) && outbox == old(outbox)
      ensures StatusShown()
      ensures aiThinking == (old(aiThinking) && !IsTerminal(StatusOf(oracle, position)))
    {
      if oracle.isCheckmate(position) {
        status := "Checkmate! " + (if oracle.turn(position) == White then "Black" else "White") + " wins";
        gameOver := true;
        aiThinking := false;
      } else if oracle.isStalemate(position) {
        status := "Stalemate!";
        gameOver := true;
        aiThinking := false;
      } else if oracle.inCheck(position) {
        status := (if oracle.turn(position) == White then "White" else "Black") + " is in check";
        gameOver := false;
      } else {
        status := (if oracle.turn(position) == White then "White" else "Black") + " to move";
        gameOver := false;
      }
    }

    /** `requestEngineMove`: hand the current position to the engine and
        ask for a depth-10 search. */
    method RequestEngineMove()
      modifies this`outbox
      ensures outbox == old(outbox) + [PositionCommand(oracle.fen(position)), EngineMoveSearch]
    {
      var currentFen := oracle.fen(position);
      outbox := outbox + [PositionCommand(currentFen)];
      outbox := outbox + [EngineMoveSearch];
    }

    /** The state after the human's move from `source` to `target` on
        position `before`, with `sent` the messages posted before it: the
        move is applied with the queen promotion when the promotion test
        holds, the status is re-derived, the engine is asked for a
        depth-15 search on the new position and `isAiThinking` is left
        raised, even when the move ended the game. */
    ghost predicate HumanMoveApplied(before: P, sent: seq<string>, source: string, target: string)
      reads this
    {
      && position == oracle.apply(before, source, target, PromotionFor(oracle.pieceAt(before, source), target))
      && StatusShown()
      && aiThinking
      && outbox == sent + [PositionCommand(oracle.fen(position)), HumanMoveSearch]
    }

    /** `onPieceDrop`: refused when the game is over or `target` is not a
        legal destination from `source` (the promotion piece plays no part
        in that test, and `isAiThinking` is not consulted). */
    method OnPieceDrop(source: string, target: string) returns (accepted: bool)
      modifies this
      ensures accepted <==> !old(gameOver) && target in oracle.legalDests(old(position), source)
      ensures !accepted ==> unchanged(this)
      ensures accepted ==> HumanMoveApplied(old(position), old(outbox), source, target)
      ensures accepted ==> !PiecesDraggable()
    {
      if gameOver {
        return false;
      }
      var legalMoves := oracle.legalDests(position, source);
      if target !in legalMoves {
        return false;
      }
      var piece := oracle.pieceAt(position, source);
      var promotion := PromotionFor(piece, target);
      position := oracle.apply(position, source, target, promotion);
      UpdateStatus();
      aiThinking := true;
      outbox := outbox + [PositionCommand(oracle.fen(position))];
      outbox := outbox + [HumanMoveSearch];
      accepted := true;
    }

    /** A drop gesture on the board: the board offers no drag while
        `arePiecesDraggable` is false, so `onPieceDrop` only runs when it
        is true. */
    method BoardDrop(source: string, target: string) returns (accepted: bool)
      modifies this
      ensures accepted <==> old(PiecesDraggable()) && target in oracle.legalDests(old(position), source)
      ensures !accepted ==> unchanged(this)
      ensures accepted ==> HumanMoveApplied(old(position), old(outbox), source, target)
      ensures old(aiThinking) ==> !accepted
    {
      if !PiecesDraggable() {
        return false;
      }
      accepted := OnPieceDrop(source, target);
    }

    /** The worker's `onmessage` handler: only a `bestmove` line carrying a
        move whose destination is legal from its source square changes
        anything; that move is applied, the status re-derived and
        `isAiThinking` cleared. Nothing is posted. */
    method OnEngineMessage(message: string)
      modifies this
      ensures outbox == old(outbox)
      ensures !StartsWith(message, "bestmove") ==> unchanged(this)
      ensures ParseBestMove(message).None? ==> unchanged(this)
      ensures var move := ParseBestMove(message);
        if move.Some? && move.value.to in oracle.legalDests(old(position), move.value.from) then
          && position == oracle.apply(old(position), move.value.from, move.value.to, move.value.promotion)
          && StatusShown()
          && !aiThinking
        else
          unchanged(this)
    {
      if !StartsWith(message, "bestmove") {
        return;
      }
      var fields := Split(message, ' ');
      var moveStr := if |fields| > 1 then Some(fields[1]) else None;
      if moveStr.None? || moveStr.value == "" || moveStr.value == "(none)" {
        return;
      }
      var token := moveStr.value;
      var from := Substring(token, 0, 2);
      var to := Substring(token, 2, 4);
      var promotion := if |token| > 4 then Some(token[4]) else None;
      var legalMoves := oracle.legalDests(position, from);
      if to !in legalMoves {
        return;
      }
      position := oracle.apply(position, from, to, promotion);
      UpdateStatus();
      aiThinking := false;
    }

    /** `resetGame`: a fresh position and the fixed text "White to move";
        the engine is asked to move, and `isAiThinking` raised, only when
        black moves first. Otherwise `isAiThinking` keeps its value. */
    method ResetGame()
      modifies this
      ensures !gameOver && position == oracle.initial && status == "White to move"
      ensures oracle.turn(oracle.initial) == Black ==>
        aiThinking && outbox == old(outbox) + [PositionCommand(oracle.fen(oracle.initial)), EngineMoveSearch]
      ensures oracle.turn(oracle.initial) == White ==>
        aiThinking == old(aiThinking) && outbox == old(outbox)
      ensures StatusShown() <==> StatusOf(oracle, oracle.initial) == ToMove(White)
    {
      gameOver := false;
      position := oracle.initial;
      status := "White to move";
      if oracle.turn(position) == Black {
        aiThinking := true;
        RequestEngineMove();
      }
      ResetStatusShown();
    }

    /** The fixed reset text is the derived one exactly when the fresh
        position is a plain "White to move". */
    lemma ResetStatusShown()
      requires !gameOver && status == "White to move"
      ensures StatusShown() <==> StatusOf(oracle, position) == ToMove(White)
    {
      if StatusShown() {
        StatusTextInjective(StatusOf(oracle, position), ToMove(White));
      }
    }

    /** `resetGame` with `isAiThinking` cleared before the side to move is
        examined, so a reset always unlocks the board when the human moves
        first. */
    method ResetGameUnlocked()
      modifies this
      ensures !gameOver && position == oracle.initial && status == "White to move"
      ensures oracle.turn(oracle.initial) == Black ==>
        aiThinking && outbox == old(outbox) + [PositionCommand(oracle.fen(oracle.initial)), EngineMoveSearch]
      ensures oracle.turn(oracle.initial) == White ==>
        !aiThinking && outbox == old(outbox) && PiecesDraggable()
    {
      gameOver := false;
      position := oracle.initial;
      status := "White to move";
      aiThinking := false;
      if oracle.turn(position) == Black {
        aiThinking := true;
        RequestEngineMove();
      }
    }
  }

  /** As written, a human move that ends the game leaves `isAiThinking`
      raised; the engine, given a finished game, answers `bestmove (none)`,
      which changes nothing; and a reset with white to move does not lower
      the flag, so the board stays locked in the fresh game. */
  method LockedAfterReset<P>(g: ChessGame<P>, source: string, target: string)
    requires !g.gameOver && target in g.oracle.legalDests(g.position, source)
    requires var promo := PromotionFor(g.oracle.pieceAt(g.position, source), target);
      g.oracle.isCheckmate(g.oracle.apply(g.position, source, target, promo))
    requires g.oracle.turn(g.oracle.initial) == White
    modifies g
    ensures g.position == g.oracle.initial && !g.gameOver
    ensures g.aiThinking && !g.PiecesDraggable()
  {
    var accepted := g.OnPieceDrop(source, target);
    assert g.gameOver && g.aiThinking;
    NoMoveLine("");
    assert "bestmove (none)" + "" == "bestmove (none)";
    g.OnEngineMessage("bestmove (none)");
    g.ResetGame();
  }

  /** The same sequence with the unlocking reset leaves the fresh game
      playable. */
  method UnlockedAfterReset<P>(g: ChessGame<P>, source: string, target: string)
    requires !g.gameOver && target in g.oracle.legalDests(g.position, source)
    requires var promo := PromotionFor(g.oracle.pieceAt(g.position, source), target);
      g.oracle.isCheckmate(g.oracle.apply(g.position, source, target, promo))
    requires g.oracle.turn(g.oracle.initial) == White
    modifies g
    ensures g.position == g.oracle.initial && !g.gameOver
    ensures g.PiecesDraggable()
  {
    var accepted := g.OnPieceDrop(source, target);
    NoMoveLine("");
    assert "bestmove (none)" + "" == "bestmove (none)";
    g.OnEngineMessage("bestmove (none)");
    g.ResetGameUnlocked();
  }

  /** One full turn: the human's legal move is answered by the engine's
      legal coordinate move, and the board is handed back to the human
      unless the reply ended the game. */
  method HumanThenEngine<P>(g: ChessGame<P>, source: string, target: string, reply: MoveProposal)
    requires !g.gameOver && target in g.oracle.legalDests(g.position, source)
    requires IsCoordinateMove(reply)
    requires var promo := PromotionFor(g.oracle.pieceAt(g.position, source), target);
      reply.to in g.oracle.legalDests(g.oracle.apply(g.position, source, target, promo), reply.from)
    modifies g
    ensures var promo := PromotionFor(g.oracle.pieceAt(old(g.position), source), target);
      var mid := g.oracle.apply(old(g.position), source, target, promo);
      && g.position == g.oracle.apply(mid, reply.from, reply.to, reply.promotion)
      && g.outbox == old(g.outbox) + [PositionCommand(g.oracle.fen(mid)), HumanMoveSearch]
    ensures g.StatusShown() && !g.aiThinking
    ensures g.PiecesDraggable() <==> !IsTerminal(StatusOf(g.oracle, g.position))
  {
    var accepted := g.OnPieceDrop(source, target);
    BestMoveLine(reply, "");
    assert "bestmove " + MoveText(reply) + "" == "bestmove " + MoveText(reply);
    g.OnEngineMessage("bestmove " + MoveText(reply));
  }
}
