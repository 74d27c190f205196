/** The two directions of the Universal Chess Interface (UCI) text protocol
    that the component speaks to its engine worker: the `bestmove` reply it
    reads (src/ChessGame.js:26-36) and the `position fen` / `go depth`
    commands it posts (src/ChessGame.js:104-105, 115-116). */
module Uci {
  import opened Wrappers
  import opened JsString

  /** A move as the engine names it: source square, destination square and
      the optional promotion letter. */
  datatype MoveProposal = MoveProposal(from: string, to: string, promotion: Option<char>)

  /** The move token of an engine line: the second field of
      `message.split(' ')`, or None when the line does not start with
      `bestmove`, has no second field, or that field is empty or the
      `(none)` sentinel the engine sends when it has no legal move. */
  function MoveToken(message: string): (r: Option<string>)
    ensures !StartsWith(message, "bestmove") ==> r == None
    ensures r.Some? ==> StartsWith(message, "bestmove")
    ensures r.Some? ==> r.value != "" && r.value != "(none)" && ' ' !in r.value
    ensures r.Some? ==> |Split(message, ' ')| >= 2 && r.value == Split(message, ' ')[1]
    ensures StartsWith(message, "bestmove") && |Split(message, ' ')| >= 2 &&
            Split(message, ' ')[1] != "" && Split(message, ' ')[1] != "(none)" ==>
            r == Some(Split(message, ' ')[1])
  {
    if !StartsWith(message, "bestmove") then None
    else
      var fields := Split(message, ' ');
      if |fields| < 2 || fields[1] == "" || fields[1] == "(none)" then None
      else SplitJoin(message, ' '); Some(fields[1])
  }

  /** Cuts a move token into squares with JavaScript's clamping
      `substring(0, 2)` and `substring(2, 4)`; the fifth character, when
      there is one, is the promotion letter. */
  function SliceMove(token: string): (m: MoveProposal)
    ensures |token| >= 4 ==> m.from == token[..2] && m.to == token[2..4]
    ensures |token| <= 2 ==> m.from == token && m.to == ""
    ensures |token| == 3 ==> m.from == token[..2] && m.to == token[2..]
    ensures m.promotion.Some? <==> |token| > 4
    ensures m.promotion.Some? ==> m.promotion.value == token[4]
  {
    MoveProposal(Substring(token, 0, 2), Substring(token, 2, 4),
                 if |token| > 4 then Some(token[4]) else None)
  }

  /** The move carried by an engine line, if any. */
  function ParseBestMove(message: string): (r: Option<MoveProposal>)
    ensures r.None? <==> MoveToken(message).None?
    ensures r.Some? ==> r.value == SliceMove(MoveToken(message).value)
  {
    match MoveToken(message)
    case None => None
    case Some(token) => Some(SliceMove(token))
  }

  /** Long algebraic notation of a move, as the engine writes it. */
  function MoveText(m: MoveProposal): string
  {
    m.from + m.to + (if m.promotion.Some? then [m.promotion.value] else "")
  }

  /** A move in UCI coordinate form: two two-character squares and, when
      present, a promotion letter; no part is a space. */
  predicate IsCoordinateMove(m: MoveProposal)
  {
    && |m.from| == 2 && |m.to| == 2
    && ' ' !in m.from && ' ' !in m.to
    && (m.promotion.Some? ==> m.promotion.value != ' ')
  }

  /** Slicing the text of a coordinate move gives the move back. */
  lemma MoveTextRoundTrip(m: MoveProposal)
    requires IsCoordinateMove(m)
    ensures SliceMove(MoveText(m)) == m
  {
    var t := MoveText(m);
    assert t[..2] == m.from && t[2..4] == m.to;
    assert m.promotion.Some? ==> t[4] == m.promotion.value;
  }

  /** A four- or five-character token is exactly the text of its slices. */
  lemma TokenRoundTrip(token: string)
    requires 4 <= |token| <= 5
    ensures MoveText(SliceMove(token)) == token
  {
    var m := SliceMove(token);
    if |token| == 4 {
      assert token == token[..2] + token[2..4];
    } else {
      assert token == token[..2] + token[2..4] + [token[4]];
    }
  }

  /** The second field of `split(' ')` is the text between the first space
      and the next space (or the end of the line). */
  lemma SecondField(head: string, token: string, rest: string)
    requires ' ' !in head && ' ' !in token
    requires rest == [] || rest[0] == ' '
    ensures |Split(head + " " + token + rest, ' ')| >= 2
    ensures Split(head + " " + token + rest, ' ')[1] == token
  {
    assert head + " " + token + rest == head + [' '] + (token + rest);
    SplitAtSeparator(head, token + rest, ' ');
    FirstField(token, rest, ' ');
  }

  /** A `bestmove` line naming a coordinate move, optionally followed by
      more fields such as `ponder <move>`, yields that move. */
  lemma BestMoveLine(m: MoveProposal, rest: string)
    requires IsCoordinateMove(m)
    requires rest == [] || rest[0] == ' '
    ensures ParseBestMove("bestmove " + MoveText(m) + rest) == Some(m)
  {
    var line := "bestmove " + MoveText(m) + rest;
    assert line == "bestmove" + " " + MoveText(m) + rest;
    assert line[..8] == "bestmove";
    SecondField("bestmove", MoveText(m), rest);
    MoveTextRoundTrip(m);
  }

  /** The `(none)` sentinel and a bare `bestmove` carry no move. */
  lemma NoMoveLine(rest: string)
    requires rest == [] || rest[0] == ' '
    ensures ParseBestMove("bestmove (none)" + rest) == None
    ensures ParseBestMove("bestmove") == None
  {
    assert "bestmove (none)" + rest == "bestmove" + " " + "(none)" + rest;
    SecondField("bestmove", "(none)", rest);
    assert Split("bestmove", ' ') == ["bestmove"] by {
      SplitPrefix("bestmove", "", ' ');
      assert "bestmove" + "" == "bestmove";
    }
  }

  /** `position fen <fen>`: the command that hands a position to the engine. */
  function PositionCommand(fen: string): (cmd: string)
    ensures StartsWith(cmd, "position fen ") && cmd[13..] == fen
  {
    "position fen " + fen
  }

  /** The search request posted after a human move (src/ChessGame.js:105). */
  const HumanMoveSearch: string := "go depth 15"

  /** The search request posted by `requestEngineMove` (src/ChessGame.js:116). */
  const EngineMoveSearch: string := "go depth 10"
}
